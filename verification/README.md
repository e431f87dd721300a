# OpenVegas verification

Dafny models of the parts of OpenVegas whose correctness is hardest to see by reading: the agent
orchestration runtime, the guard and the exact-match editing of the command-line client, and the
casino. `dafny verify dfyconfig.toml` checks everything.

## Agent runtime

`agent_store.dfy` holds the tables (runs, tool calls, approvals, replays, leases, events, one clock)
and the queries every transaction shares; `agent_protocol.dfy` says what each committed transaction
does to them and answers; `agent_service.dfy` is the service as it updates its tables step by step,
each method proved to do exactly that. `agent_invariants.dfy` and `agent_steps.dfy` prove what every
step of any run keeps, with prereads and transactions interleaved freely; `agent_runs.dfy`,
`agent_fence.dfy`, `agent_actions.dfy`, `agent_checks.dfy` and `agent_terminal.dfy` draw the conclusions;
`agent_answers.dfy` says column by column what each call leaves and answers;
`agent_examples.dfy` has runs that reach the states one might not expect.
`orchestration_contracts.dfy` is the canonical order of actions, `utf8.dfy` the redaction and truncation of outputs.

A raised error rolls its transaction back. SHA-256 is modelled by the value it is taken over, so
equal digests mean equal values. The two unique indexes (one started tool per run, one replay row per
key) are guards of the transactions that insert. Approval rows appear and change by steps of their
own, since the runtime itself never creates them.

What the code does, where one might expect otherwise:

- A started tool may belong to a terminal run. Proposing and starting do not look at the run's state
  (`AgentExamples.LateStartIsReachable`), and expiry does not look at the run's tools
  (`AgentExamples.ExpiryIsReachable`). `AgentTerminal.NeverOutlivesIff` says when neither happens.
- The answer the reconciler stores describes the state before its own update, so for a running run it
  is stale from the start (`AgentFence.StoredAnswersAreStaleIffRunning`).
- Two consumable approvals of one tool call tie in the canonical order, so the signature depends on the
  order in which the database returns them (`AgentActions.ScanOrderMattersIffApprovalsCompete`).
- The migrations put CHECK constraints on tool rows that a proposal blocked in plan mode does not meet,
  so the database refuses that insert and the 409 answer never leaves the service. The model follows the
  service; `AgentChecks.RowMeetsChecksIffNotPlanMode` shows that the constraints on
  timestamps and stored answers refuse these inserts and no other writes.
- Transitions and approvals expire a due run before they check the fence
  (`AgentFence.FollowUpIsStaleIffDue`); proposals and starts do not (`AgentFence.ToolCallIsStaleIff`).
- Below 5 seconds `is_started_tool_timed_out` and the reconciler disagree
  (`AgentRuns.TimeoutTestsAgreeIffFiveSeconds`).

## Patch guard and exact-match editing

`patch_scope.dfy` reads a unified diff, `patch_guard.dfy` pairs hunks greedily, `patch_recovery.dfy`
decides acceptance, `patch_drift.dfy` proves exactly when a patch that moved as a whole finds its own
hunks again and is accepted. `exact_match.dfy` finds and replaces exact text and derives single-block edits.

- A patch is refused even unchanged when two of its hunks in a file start at the same line
  (`PatchDrift.UnchangedAccepted`).
- `count(block) == 1` does not make find-and-replace rebuild the new text, because `count` skips
  overlaps (`ExactMatch.CountingOnceIsNotEnough`); `ExactMatch.DerivedEditRebuildsIff` says when it does.
- Hunks that all moved up by the same number of lines need not find their own images when they are close:
  two of them can tie and be refused (`PatchDrift.SeparationIsTight`) or cross and be accepted
  (`PatchDrift.CrossingMoveAccepted`), and `PatchDrift.TwoHunksAcceptedIff` says when. Hunks in ascending
  order that all moved down always do (`PatchDrift.AscendingMoveAcceptedIff`).
- Regenerated hunks left over by the pairing are accepted as long as they meet an original region; the
  guard counts them and never looks at the count. There are as many as the patch has hunks more than the
  original (`PatchRecovery.AcceptedLeftovers`, `PatchDrift.LeftoverAccepted`).

## Casino

`cards.dfy` is the deck and the in-place shuffle, `poker_hands.dfy` and `poker_meaning.dfy` the score of
five cards and what it means, `poker_game.dfy` the best hand and the round, `blackjack.dfy`,
`baccarat.dfy` and `small_games.dfy` the other games. `casino_games.dfy` puts the five behind one
interface, `casino_store.dfy` and `casino_service.dfy` are sessions and rounds, `casino_runs.dfy` what
holds after any calls, `casino_answers.dfy` what each call leaves column by column, and `casino_losses.dfy`
how much a session can lose. Money is in millionths, multipliers in hundredths, rows are named by position.

- The slot machine declares a return of 0.95 (openvegas/casino/slots.py:23); its payout table returns
  103 of 216 wagers (`Slots.AllOutcomesReturn103`).
- The loss cap is checked when a round starts, so rounds opened together can all be lost however small
  the cap (`CasinoLosses.LosesAll`). What a session can lose is exactly the cap less one unit and the most
  it has at stake at once (`CasinoLosses.LossBound`, `CasinoLosses.BoundIsMet`).
- `start_round` does not look at the sign of a wager; a negative one loses by winning, which
  `CasinoRuns.Stake` counts.

## Model

| member | source | states |
|---|---|---|
| AgentRuns.EventLogAgreesWithRows | openvegas/agent/orchestration_service.py:2030-2063 | in every reachable state a run's events are numbered 1 to run_event_seq without gaps, their versions never fall, and the events about each tool are exactly what its row tells: one claim event iff claimed, one finish event with the row's status iff terminal |
| AgentRuns.ToolRowsOverRuns | openvegas/agent/tool_cas.py:76-123 | between any two moments of any run a tool keeps its run and token, only moves forward, and is frozen once terminal (status, hash, stored response); never two started tools of one run |
| AgentRuns.RunLifecycle | openvegas/agent/orchestration_service.py:1928-2028 | over any steps versions never fall, the state moves only together with the version, and terminal states are final |
| AgentRuns.CanceledOnlyWhenIdle | openvegas/agent/orchestration_service.py:1962-1985 | any step that makes a run canceled is an accepted cancel transition of that run, and no tool of it was started |
| AgentRuns.SuccessUsesUpTheVersion | openvegas/agent/orchestration_service.py:202-272 | a request answered 200 leaves the run at the presented version plus one (plus nothing for a handoff) |
| AgentRuns.SameVersionSucceedsOnce | openvegas/agent/orchestration_service.py:202-272 | of two requests of a run that present the same version, the first not a handoff, at most one succeeds, whatever happens in between |
| AgentRuns.OneSessionPerRun | openvegas/agent/orchestration_service.py:1293-1300 | all tool operations ever let through on one run (propose, start, heartbeat, cancel, result) carry one and the same session id |
| AgentRuns.ActsAtMostOnce | openvegas/agent/orchestration_service.py:1738-1857 | once a transaction has answered under an idempotency key, every later transaction under that key raises and changes nothing, for any interleaving of prereads and transactions |
| AgentRuns.LaterCallsGetTheFirstAnswer | openvegas/agent/orchestration_service.py:1690-1736 | a later preread returns the first answer without its run_id if the request is the same and the answer fitted the cap, raises a conflict for a different request, and raises for a cut answer |
| AgentRuns.EndedToolAnswers | openvegas/agent/tool_cas.py:244-343 | however a tool has ended (result, reconciler, cancel, plan-mode block), every later result that passes the session check changes nothing: it is refused after a cancel, and otherwise gets the stored response iff it carries the stored hash, and a conflict if not |
| AgentRuns.FirstResultWins | openvegas/agent/tool_cas.py:244-343 | in particular, after a submitted result has ended a tool, every later one replays the first response iff its hash equals the hash recomputed for the first submission, and conflicts otherwise |
| AgentRuns.ReconcilerTouchesExactlyTheFetched | openvegas/agent/orchestration_service.py:1193-1291 | each fetched row is timed out once, under the fixed hash, and counted once, and no other tool row changes |
| AgentRuns.PromptClientIsNeverTimedOut | openvegas/agent/orchestration_service.py:1193-1216 | a tool that keeps beating within the reconciler's window stays started through every run in which nobody ends it with its token |
| AgentRuns.TimeoutTestsAgreeIffFiveSeconds | openvegas/agent/tool_cas.py:211-225 | the reconciler's WHERE clause and is_started_tool_timed_out agree on all started rows iff the timeout is at least 5 seconds |
| AgentSteps.ReachableStatesAreOk | openvegas/agent/orchestration_service.py:623-1291 | every state reachable by any steps satisfies the table invariant: log and rows agree, at most one started tool per run, bound session once a tool exists, no lease and no processing replay row is ever left behind |
| AgentSteps.LaterFollows | openvegas/agent/orchestration_service.py:623-1291 | any later state of a run relates to any earlier one row by row: runs, tools and completed replay rows only move forward |
| AgentSteps.StepKeeps | openvegas/agent/orchestration_service.py:623-1291 | each single step keeps the invariant and moves every row forward |
| AgentSteps.ToolStepIsLocal | openvegas/agent/orchestration_service.py:623-1190 | a tool operation changes one tool row and its run's log and nothing else |
| AgentSteps.StartedRowIsSpared | openvegas/agent/tool_cas.py:126-208 | a started tool's row cannot be changed by anyone without its execution token, except its heartbeat time |
| AgentSteps.CommitSparesTools | openvegas/agent/orchestration_service.py:202-272 | transactions on runs leave every tool row and the clock alone |
| AgentInvariants.ToolEventKeeps | openvegas/agent/orchestration_service.py:2030-2063 | changing or adding a tool row together with the one event that reports it keeps log and rows in agreement |
| AgentFence.EveryAnswerIsFresh | openvegas/agent/orchestration_service.py:1504-1563 | every answer that is not a replay, success or error, carries exactly the state, version, signature and actions that deriving on the committed state gives |
| AgentFence.IgnoringIsFinishing | openvegas/agent/orchestration_service.py:1078-1160 | deriving actions with the finishing tool left out by name equals deriving them after it has finished |
| AgentFence.ActionsDependOn | openvegas/agent/orchestration_service.py:1591-1675 | the derived actions depend on the run's state, version and resumability, on its tools and approvals, and on nothing else |
| AgentFence.FollowUpIsStaleIffDue | openvegas/agent/orchestration_service.py:202-239 | a transition or approval request that presents a fresh fence with nothing in between is called stale iff the run has passed its expiry time |
| AgentFence.ToolCallIsStaleIff | openvegas/agent/orchestration_service.py:671-690 | a proposal or a start is answered stale iff its session holds and its fence does not, expired run or not |
| AgentFence.NextToolCallIsNotStale | openvegas/agent/orchestration_service.py:800-830 | a proposal or a start that presents the envelope of the call just before it is never answered stale |
| AgentFence.StoredAnswersAreStaleIffRunning | openvegas/agent/orchestration_service.py:1193-1291 | the answer the reconciler stores is computed before its own update: of every fetched row it is stale once the whole step is done iff the row's run was running |
| AgentActions.AdvertisedIffEnabled | openvegas/agent/orchestration_service.py:1944-1992 | resume and cancel are advertised iff applying them is accepted, handoff iff the run is running with no started tool, in every run state |
| AgentActions.ApproveAdvertisedIffConsumable | openvegas/agent/orchestration_service.py:1630-1675 | an approval row is advertised iff its guarded update would hit it and the run is not terminal |
| AgentActions.ConsumedIffConsumable | openvegas/agent/orchestration_service.py:274-461 | a consumption is answered 200 iff it is admitted, its fence holds on the row expiry leaves, and the approval row is approved, unconsumed and of that version; then no version can consume it again and no other approval changes |
| AgentActions.ScanOrderMattersIffApprovalsCompete | openvegas/agent/orchestration_service.py:1630-1675 | the advertised list, hence the signature, is the same for every order in which the approval rows are met iff no tool call has two consumable approvals |
| AgentActions.AdvertisedAre | openvegas/agent/orchestration_service.py:1591-1675 | of a run that is over nothing is advertised; of any other cancel, resume iff created or interrupted and resumable, handoff iff running without a started tool, and one approve action with its ids for each approved, unconsumed approval row of the current version |
| AgentActions.AdvertisedInOrder | openvegas/agent/orchestration_contracts.py:78-102 | in the advertised list approvals come first, by tool call, then resume, cancel and handoff |
| AgentAnswers.TransitionLeaves | openvegas/agent/orchestration_service.py:202-272 | every column of the run after a transition answered 200: it was not due; resume makes it running without a reason; cancel with a started tool notes the request time, and otherwise makes it canceled by the user, not resumable, the first request time kept; handoff changes nothing; one event is logged and nothing else moves |
| AgentAnswers.ConsumptionLeaves | openvegas/agent/orchestration_service.py:371-461 | every column after an approval consumption answered 200: an awaiting run is running without a reason, any other as it was, one version on; the approval row, approved for that version and unconsumed, is consumed now; one event is logged and nothing else moves |
| AgentAnswers.AdmittedIff | openvegas/agent/orchestration_service.py:127-200 | a request is admitted iff its run is the caller's, its tool and approval belong to it, no lease is held, and its key was not used for something else or answered; the first reason against it is the error raised |
| AgentAnswers.DeclinedMeans | openvegas/agent/orchestration_service.py:202-239 | an admitted request answered 409 leaves the run as expiry left it, and says stale iff version or signature differ, else that the action is not advertised or the approval not consumable |
| AgentAnswers.FenceMeans | openvegas/agent/orchestration_contracts.py:104-113 | the fence holds iff the version is the run's and the signature the digest of it with the advertised list |
| AgentAnswers.SameKeyIff | openvegas/agent/orchestration_service.py:1738-1800 | two requests share a replay row iff run, user, role class, kind, tool and idempotency key agree |
| AgentAnswers.SamePayloadIff | openvegas/agent/orchestration_service.py:137-146 | and have the same payload hash iff fence, action and payload, or fence, tool and approval, agree |
| AgentAnswers.RegisteringAWorkspace | openvegas/agent/orchestration_service.py:549-614 | a workspace is taken iff the run is the caller's and, once it has a tool, no column that is set changes |
| AgentAnswers.UnboundIsRefused | openvegas/agent/orchestration_service.py:623-1190 | a tool operation by anyone but the run's owner under its bound session is refused and changes nothing |
| AgentAnswers.StartingLeaves | openvegas/agent/orchestration_service.py:787-867 | every column of a claimed tool: started, claimed, started and last heard from now; one event is logged |
| AgentAnswers.StartRefused | openvegas/agent/orchestration_service.py:787-867 | a start that claims nothing changes nothing and says why, in order: stale fence, not this tool or token, started already (answered again), not startable, another tool started |
| AgentAnswers.ResultLeaves | openvegas/agent/orchestration_service.py:1078-1190 | every column of a tool whose result is taken, its answer by status (200 without error on success, else 409 with its own error), and the answer stored unless above the cap |
| AgentAnswers.ResultRefused | openvegas/agent/orchestration_service.py:982-1076 | a result is refused as an invalid transition iff its status is no result, the tool is not this run's, was never started or was cancelled, or is started under another token |
| AgentAnswers.TimingOutLeaves | openvegas/agent/orchestration_service.py:1226-1291 | every column of a tool the reconciler times out, and its stored 409 answer |
| AgentAnswers.StaleMeans | openvegas/agent/orchestration_service.py:1193-1216 | the reconciler fetches exactly the started tools silent for more than the timeout and more than 5 seconds |
| OrchestrationContracts.CanonicalizeValidActions | openvegas/agent/orchestration_contracts.py:96-102 | appending normalised actions and sorting in place gives the canonical list |
| OrchestrationContracts.CanonicalIsSortedPermutation | openvegas/agent/orchestration_contracts.py:96-102 | the canonical list is an ordered permutation of the normalised input |
| OrchestrationContracts.CanonicalIsIdempotent | openvegas/agent/orchestration_contracts.py:96-102 | canonicalising a canonical list changes nothing |
| OrchestrationContracts.KeysCompare | openvegas/agent/orchestration_contracts.py:78-93 | no two sort keys make Python compare an int with a string |
| OrchestrationContracts.OrderInsensitiveIffTiesAreEqual | openvegas/agent/orchestration_contracts.py:96-108 | the canonical list is the same for every order of the input iff no two different actions share a sort key |
| OrchestrationContracts.OrderMeans | openvegas/agent/orchestration_contracts.py:78-93 | approvals of a tool come first, by tool; then resume, approve, cancel and handoff, equal names by identifier; then all others by name and identifier |
| StableSort.SortIsStable | openvegas/agent/orchestration_contracts.py:96-102 | sorting keeps the order of elements with tied keys |
| StableSort.SortedPermutationsAgree | openvegas/agent/orchestration_contracts.py:96-102 | two ordered permutations of one another are equal when only equal elements tie |
| AgentService.AgentOrchestrationService.TransitionRun | openvegas/agent/orchestration_service.py:127-272 | tables and answer after the call are those of one atomic fenced transaction; a raised error leaves the tables as they were |
| AgentService.AgentOrchestrationService.ConsumeApproval | openvegas/agent/orchestration_service.py:274-461 | the same for approval consumption |
| AgentService.AgentOrchestrationService.ReplayPreread | openvegas/agent/orchestration_service.py:1690-1736 | the replay table is read outside any transaction and nothing changes |
| AgentService.AgentOrchestrationService.BeginMutation | openvegas/agent/orchestration_service.py:1738-1942 | lease, replay row and expiry before the fence check; the row a due run is left with |
| AgentService.AgentOrchestrationService.ApplyTransitionAction | openvegas/agent/orchestration_service.py:1944-1992 | the run row a resume, cancel or handoff leads to, or the refusal |
| AgentService.AgentOrchestrationService.InsertDurableEvent | openvegas/agent/orchestration_service.py:2030-2063 | the event is appended under the next number of its run |
| AgentService.AgentOrchestrationService.CompleteReplay | openvegas/agent/orchestration_service.py:2065-2105 | the answer is stored under its key, cut when above the cap |
| AgentService.AgentOrchestrationService.CreateRun | openvegas/agent/orchestration_service.py:94-119 | a new run at version 0 with no events |
| AgentService.AgentOrchestrationService.RegisterWorkspace | openvegas/agent/orchestration_service.py:549-614 | the session is bound or confirmed; another session is refused once a tool exists |
| AgentService.AgentOrchestrationService.ProposeToolCall | openvegas/agent/orchestration_service.py:623-785 | a proposed or at once blocked tool row with its event |
| AgentService.AgentOrchestrationService.ClaimStarted | openvegas/agent/tool_cas.py:76-123 | the guarded claim: one started tool per run, repeated claims with the same token recognised |
| AgentService.AgentOrchestrationService.StartToolCall | openvegas/agent/orchestration_service.py:787-867 | claim, claim event and answer |
| AgentService.AgentOrchestrationService.HeartbeatToolCall | openvegas/agent/orchestration_service.py:869-918 | the heartbeat time of a started row with the right token, and nothing else |
| AgentService.AgentOrchestrationService.CancelStarted | openvegas/agent/tool_cas.py:170-208 | the guarded cancel |
| AgentService.AgentOrchestrationService.CancelToolCall | openvegas/agent/orchestration_service.py:920-980 | cancel, finish event and answer; a repeated cancel answers again |
| AgentService.AgentOrchestrationService.Terminalize | openvegas/agent/tool_cas.py:244-343 | the first result is written once with the recomputed hash, an equal hash replays, anything else is refused |
| AgentService.AgentOrchestrationService.ResultToolCall | openvegas/agent/orchestration_service.py:982-1190 | terminalisation, finish event and the answer computed with the tool left out by name |
| AgentService.AgentOrchestrationService.ReconcileStaleStartedTools | openvegas/agent/orchestration_service.py:1193-1291 | the loop times out the fetched rows one by one and returns the number touched |
| AgentTerminal.StrandedIff | openvegas/agent/orchestration_service.py:787-845 | a tool comes to be started on a terminal run by exactly two guards: a start let through on a terminal run, or an admitted request on a run that is due while the tool is started |
| AgentTerminal.NeverOutlivesIff | openvegas/agent/orchestration_service.py:1928-1942 | over any run, no state has the tool started on a terminal run iff no step meets either guard |
| AgentExamples.LateStartIsReachable | openvegas/agent/orchestration_service.py:787-845 | a tool proposed before its run was canceled can still be started |
| AgentExamples.ExpiryIsReachable | openvegas/agent/orchestration_service.py:197-203 | any request of the owner on a due run, whatever it asks for and presents, expires the run under its started tool |
| AgentChecks.RowMeetsChecksIffNotPlanMode | supabase/migrations/026_agent_tool_cancelled_status_v30.sql:29-45 | in every reachable state a tool row meets the CHECK constraints on timestamps and stored answer iff no step was a mutating proposal of that new tool in plan mode with session and fence holding |
| AgentChecks.BlockedRowIsRefused | openvegas/agent/orchestration_service.py:692-766 | exactly those proposals get the plan-mode error, and each inserts a row the constraints refuse |
| AgentExamples.PlanModeRowIsReachable | openvegas/agent/orchestration_service.py:692-766 | such a row is reachable, in every state of the run |
| Utf8.RoundTrip | openvegas/agent/tool_cas.py:66-73 | decoding the encoding of a text gives the text back, by section 3 of RFC 3629 |
| Utf8.DecodeOfCut | openvegas/agent/tool_cas.py:66-73 | decoding the first bytes of an encoding, ignoring errors, gives exactly the characters that fit whole |
| Utf8.FittingIsLongest | openvegas/agent/tool_cas.py:66-73 | the characters that fit form the longest prefix under the cap, with at most 3 bytes left over |
| Utf8.KeepsLongestFittingPrefix | openvegas/agent/tool_cas.py:66-73 | with every pattern applied in turn, the kept text is the longest prefix of what is left whose encoding fits, truncated iff it is not everything, and the digest is of all of it |
| Utf8.DigestIgnoresCap | openvegas/agent/tool_cas.py:66-73 | two digests are equal iff the patterns leave the same text, whatever the caps |
| Utf8.RedactText | openvegas/agent/tool_cas.py:44-49 | the result is the last of a chain of texts that starts with the given one and in which each is the one before it through the next pattern |
| Utf8.EncodesBits | openvegas/agent/tool_cas.py:66-73 | one to four bytes whose payload bits, high ones first, are the character, by section 3 of RFC 3629 |
| Utf8.DecodedIsPart | openvegas/agent/tool_cas.py:72-72 | whatever the bytes, what decoding finds was in them, in order |
| ExactMatch.FindAllExactMatches | openvegas/cli.py:1689-1700 | the matches are ascending disjoint occurrences, leftmost first, and no occurrence starts outside them |
| ExactMatch.ReplaceExactMatches | openvegas/cli.py:1703-1718 | splicing from the last match backwards equals replacing the matches in reading order |
| ExactMatch.SplicingGreedyReplacesAll | openvegas/cli.py:1689-1718 | finding and splicing equals the recursive replace-all of the text |
| ExactMatch.LengthAfterReplaceAll | openvegas/cli.py:1703-1718 | each match changes the length by the same amount |
| ExactMatch.ReplaceAllBySelf | openvegas/cli.py:1703-1718 | replacing a text by itself changes nothing |
| ExactMatch.DerivedEditRebuildsIff | openvegas/cli.py:3205-3220 | the derived edit rebuilds the new text iff the old and new block commute over the distance between the found and the changed occurrence |
| ExactMatch.UniqueBlockRebuilds | openvegas/cli.py:3205-3220 | a block that occurs at one position, overlaps counted, is derived and rebuilds the new text |
| ExactMatch.CountingOnceIsNotEnough | openvegas/cli.py:3216-3217 | count() == 1 is not enough: "a\na\n" in "a\na\na\n" |
| ExactMatch.DerivedWithoutBlock | openvegas/cli.py:3222-3227 | without a single changed block the edit is the whole text, unless that is white space |
| ExactMatch.ReplacesFirst | openvegas/cli.py:1703-1718 | replacing puts the replacement at the leftmost occurrence, and everywhere means again behind it |
| PatchScopes.ParsePatchScope | openvegas/cli.py:2452-2509 | hunks are read line by line with their files; the per-file and total counts of touched lines are sums over the hunks read; malformed headers and hunks without a file give none |
| PatchScopes.WrittenDiffsAreRead | openvegas/cli.py:2452-2509 | a diff written with bodies free of header lines is read back hunk by hunk |
| PatchScopes.UnreadIff | openvegas/cli.py:2452-2509 | a diff that is laid out as one cannot be read iff some hunk has no readable header or no file to apply it to |
| PatchScopes.HunkSays | openvegas/cli.py:2470-2499 | a hunk has its file's path and its header's starts; a count left out or zero is one; it touches as many lines as its body adds and deletes, at least one |
| PatchScopes.PathSays | openvegas/cli.py:2296-2302 | a path loses surrounding white space and one leading a/ or b/ |
| PatchScopes.TotalIsTheSumOverFiles | openvegas/cli.py:2500-2503 | the sum of the per-file counts is the touched lines of all hunks |
| PatchScopes.GroupByFile | openvegas/cli.py:2512-2519 | the dictionaries hold each file's hunks in order, files in order of first appearance |
| PatchScopes.GroupingPermutes | openvegas/cli.py:2512-2519 | grouping by file loses and invents no hunk |
| PatchGuard.Choose | openvegas/cli.py:2529-2541 | the first of the sorted candidates is the nearest unused hunk, and the first two show whether it is tied |
| PatchGuard.NearestIsLeast | openvegas/cli.py:2529-2541 | the chosen hunk has the least distance, then the least position; none is chosen iff all are used |
| PatchGuard.SortedFrontDecides | openvegas/cli.py:2537-2540 | sorting the candidates decides the same as the definition of nearest and tied |
| PatchGuard.PairHunksByFileOrderNearest | openvegas/cli.py:2512-2556 | the nested loops compute the greedy pairing over all files |
| PatchGuard.PairingConserves | openvegas/cli.py:2512-2556 | pairs and unmatched originals are the original hunks, pairs and unmatched regenerated are the regenerated hunks, and no hunk is used twice |
| PatchGuard.PairsStayInTheirFile | openvegas/cli.py:2524-2544 | each pair lies in one file and its distance is that of its starts |
| PatchRecovery.HunksWithinDrift | openvegas/cli.py:2570-2579 | true iff first and last lines of every pair differ by at most the tolerance |
| PatchRecovery.HasHunksOutsideOriginalRegions | openvegas/cli.py:2582-2608 | false iff every regenerated hunk overlaps the lines of an original of its file, widened by the tolerance |
| PatchRecovery.ValidatePatchRecoveryScope | openvegas/cli.py:2611-2665 | no error iff both patches can be read and the regenerated one is acceptable |
| PatchRecovery.AcceptanceIsSound | openvegas/cli.py:2611-2665 | acceptance pairs every original hunk with a regenerated hunk of its own within the limits, each regenerated hunk meets an original region, files are the same, and touched lines stay within the allowance in each file and in all |
| PatchRecovery.StrayHunkRefused | openvegas/cli.py:2582-2608 | a patch with one hunk beyond the widened lines of every original of its file is refused |
| PatchDrift.OwnImagesIffClear | openvegas/cli.py:2512-2556 | a patch moved as a whole has every hunk paired with its own image, no choice tied, iff no later hunk of a file lands within |d| lines of an earlier one |
| PatchDrift.MoveAcceptedIff | openvegas/cli.py:2611-2665 | it is accepted with every hunk on its own image iff the move is clear in that sense, |d| and hunks times |d| are within the limits, and the patch is within its own allowance of touched lines |
| PatchDrift.AscendingMoveAcceptedIff | openvegas/cli.py:2611-2665 | when starts ascend within each file, hunks are paired with their own images iff they move down or lie more than 2|d| apart, and then acceptance is just the bounds |
| PatchDrift.TwoHunksAcceptedIff | openvegas/cli.py:2512-2665 | two hunks of a file moved together by any distance: on their own images the bounds decide, exactly as far from the other image as from their own they are refused, and nearer to it they cross and are accepted iff starts, ends and the sum of both pairs are within the limits |
| PatchDrift.CrossingMoveAccepted | openvegas/cli.py:2529-2541 | so hunks at lines 10 and 11 of a file moved up by one are paired crosswise and accepted |
| PatchRecovery.AcceptedLeftovers | openvegas/cli.py:2545-2555 | an accepted patch leaves over exactly as many regenerated hunks as it has more than the original, so all are paired iff the counts agree |
| PatchDrift.AddedHunkAcceptedIff | openvegas/cli.py:2611-2665 | a hunk repeated unchanged with one more behind it is accepted, the added one left over, iff that one starts elsewhere in the file, meets the widened region and the touched lines still fit |
| PatchDrift.LeftoverAccepted | openvegas/cli.py:2611-2665 | for instance a second one-line hunk two lines further down |
| PatchDrift.DefaultLimits | openvegas/cli.py:2611-2620 | with the default limits: iff the move is clear, |d| is at most 8 and hunks times |d| at most 20; the allowance is max(2x, x + 12) |
| PatchDrift.UnchangedAccepted | openvegas/cli.py:2611-2665 | an unchanged patch is accepted iff no two hunks of a file start at the same line and it is within its own allowance |
| PatchDrift.SeparationIsTight | openvegas/cli.py:2529-2541 | two hunks exactly 2e lines apart, both moved up by e, tie and are refused |
| Cards.ShuffleInPlace | openvegas/casino/poker.py:124-128 | swapping in place from the top down gives the shuffled order of the draws |
| Cards.ShufflePermutes | openvegas/casino/poker.py:126-128 | shuffling only reorders |
| Cards.ShuffleIsInjective | openvegas/casino/poker.py:126-128 | different draws give different orders |
| Cards.ShuffleIsSurjective | openvegas/casino/poker.py:126-128 | every order is the outcome of some draws |
| Cards.DeckHoldsEachCardOnce | openvegas/casino/poker.py:12-16 | the deck holds each of the 52 cards once |
| Cards.ShuffleSays | openvegas/casino/poker.py:124-128 | the last place is swapped with the one drawn from all, and the places before it are shuffled in turn |
| PokerHands.FiveCardsMakeAPattern | openvegas/casino/poker.py:65-66 | the sorted counts of five ranks are one of the seven partitions of five, so the score never indexes past its groups |
| PokerHands.KickersAreTheSingles | openvegas/casino/poker.py:73-101 | setting the larger groups aside leaves the single ranks in descending order |
| PokerMeaning.StraightIsARun | openvegas/casino/poker.py:51-59 | a straight of height h is five consecutive ranks up to h, or ace to five with h = 5, and nothing else |
| PokerMeaning.ScoreIsCategoryThenGroups | openvegas/casino/poker.py:62-103 | unless it is a straight, a hand scores its category followed by its ranks, larger groups first, then higher ranks |
| PokerMeaning.CategoryMeans | openvegas/casino/poker.py:62-103 | each of the nine categories holds iff its pattern of equal ranks, suits and runs does |
| PokerMeaning.ScoreLength | openvegas/casino/poker.py:62-103 | the length of the score tuple is fixed by its category |
| PokerMeaning.TieMeansSameRanks | openvegas/casino/poker.py:62-103 | two hands tie iff they hold the same ranks and both or neither are of one suit |
| PokerMeaning.ScoreIgnoresOrder | openvegas/casino/poker.py:62-103 | the order of the cards does not change the score |
| PokerMeaning.ScoreIgnoresSuitNames | openvegas/casino/poker.py:62-103 | renaming the suits does not change the score |
| PokerMeaning.WheelIsLowest | openvegas/casino/poker.py:55-56 | ace to five is the lowest straight |
| Lex.LessMeans | openvegas/casino/poker.py:62-103 | scores compare by the first place at which they differ, and one that only goes on is larger |
| PokerBest.BestOfSeven | openvegas/casino/poker.py:106-117 | the loop keeps the first combination with the highest score |
| PokerBest.CombinationsAreSubsequences | openvegas/casino/poker.py:109-109 | the combinations are exactly the subsequences of five |
| PokerBest.BestHandIsBest | openvegas/casino/poker.py:106-117 | for five or more cards the result is a five-card subsequence, and no five of the cards in any order score more |
| PokerBest.MoreCardsNeverHurt | openvegas/casino/poker.py:106-117 | adding cards never lowers the best score |
| PokerBest.BestIgnoresOrder | openvegas/casino/poker.py:106-117 | the order of the cards does not change the best score |
| PokerBest.BestIsFirst | openvegas/casino/poker.py:106-117 | of hands that score the same the one met first is kept |
| PokerGame.Round.ApplyAction | openvegas/casino/poker.py:142-159 | fold and call as they update the round in place |
| PokerGame.InitialState | openvegas/casino/poker.py:124-140 | the dealt state of the shuffled deck |
| PokerGame.RoundsAreSound | openvegas/casino/poker.py:124-159 | whatever is played the four piles hold the 52 cards, and actions are offered iff the round is open |
| PokerGame.BetterFiveWin | openvegas/casino/poker.py:161-201 | after a call the player wins 2 iff some five of the player's and the open cards score strictly more than every five of the dealer's and the open ones, loses iff the reverse holds, and is returned the wager otherwise; a folded hand pays nothing |
| PokerGame.RanksAreNamed | openvegas/casino/poker.py:175-201 | both sides are shown their best five and the name of its category |
| PokerGame.DealSays | openvegas/casino/poker.py:124-140 | cards come off the end of the deck: two to the player, two to the dealer, three open |
| PokerGame.SwappingHandsSwapsTheResult | openvegas/casino/poker.py:161-201 | on a call, exchanging the two hands exchanges result and best hands, and the two payouts make two wagers |
| PokerGame.CalledHandsAreHands | openvegas/casino/poker.py:175-189 | after a call both best hands are five different cards, and it is a push iff they hold the same ranks and agree in being of one suit |
| Blackjack.HandValue | openvegas/casino/blackjack.py:17-30 | the two loops compute the value of the hand |
| Blackjack.ValueIsTheBestCount | openvegas/casino/blackjack.py:17-30 | the value is a count of the hand with each ace as 1 or 11: the highest not above 21, or the lowest if all are |
| Blackjack.DealerEndsAt17To26 | openvegas/casino/blackjack.py:71-73 | the dealer ends with 17 to 26 and at most 17 cards |
| Blackjack.DeckNeverRunsOut | openvegas/casino/blackjack.py:66-73 | while the player may act at least 29 cards are left, and no action raises on an empty deck |
| Blackjack.RoundsAreSound | openvegas/casino/blackjack.py:41-75 | for any player and shuffle the piles hold the 52 cards, no action ever raises, actions are offered iff the round is open, and valid actions are bounded in number |
| Blackjack.Round.ApplyAction | openvegas/casino/blackjack.py:62-75 | hit and stand as they update the round in place, and what they leave when an empty deck raises |
| Blackjack.Round.DrawToSeventeen | openvegas/casino/blackjack.py:71-72 | the dealer loop draws to 17, or raises when the deck runs out first |
| Blackjack.InitialState | openvegas/casino/blackjack.py:41-60 | the dealt state of the shuffled deck |
| Blackjack.NaturalIsAceAndTen | openvegas/casino/blackjack.py:84-87 | two cards count 21 iff they are an ace and a ten-card |
| Blackjack.ResolveCompares | openvegas/casino/blackjack.py:77-97 | an ace with a ten-card beats all but the same; otherwise the better standing wins and a bust player loses |
| Blackjack.HitSays | openvegas/casino/blackjack.py:66-69 | a hit moves the last card of the deck to the player and ends the round iff the hand is above 21 |
| Blackjack.StandSays | openvegas/casino/blackjack.py:70-74 | standing gives the dealer cards off the end of the deck while it has less than 17 and no longer |
| Baccarat.ShoeHoldsSixOfEach | openvegas/casino/baccarat.py:34-39 | the shuffled shoe holds each card six times |
| Baccarat.Round.ApplyAction | openvegas/casino/baccarat.py:47-89 | a bet deals the coup in place, and what it leaves when an empty shoe raises |
| Baccarat.Round.DrawThirds | openvegas/casino/baccarat.py:65-84 | the third-card rules in place |
| Baccarat.DealtComesOffTheTop | openvegas/casino/baccarat.py:52-84 | with six cards left no bet raises, and the hands are four to six cards off the end of the shoe |
| Baccarat.ThirdCards | openvegas/casino/baccarat.py:60-84 | naturals end the coup at four cards, the player draws iff at most five, and the banker draws iff at most five, or, after the player's third card, at most the total the table gives for it |
| Baccarat.CoupSays | openvegas/casino/baccarat.py:47-89 | which card of the shoe is whose: two for the player, two for the banker, then the thirds |
| Baccarat.ResolveSays | openvegas/casino/baccarat.py:91-116 | the higher total wins, 2 for the player's bet and 1.95 for the banker's; a tie pays 9 on the tie and returns the others |
| Baccarat.OneBetWins | openvegas/casino/baccarat.py:91-116 | on one coup either one side wins or both are returned and the tie pays; backing both sides never gains |
| Baccarat.RoundsAreSound | openvegas/casino/baccarat.py:34-89 | for any player and shuffle shoe and hands hold six decks, no valid bet raises, and bets are offered iff the coup is not dealt |
| Roulette.EveryBetReturnsThirtySix | openvegas/casino/roulette.py:31-46 | every bet returns 36 wagers over the 37 pockets, except a number bet off the wheel |
| Roulette.PaysSays | openvegas/casino/roulette.py:31-46 | even-money bets pay double on their pockets and nothing on zero, a number 36 times on itself |
| Slots.AllOutcomesReturn103 | openvegas/casino/slots.py:28-46 | the 216 outcomes return 103 wagers |
| Slots.PaysSays | openvegas/casino/slots.py:28-46 | what each triple pays, and two leading cherries |
| CasinoGames.OfferedUntilResolved | openvegas/casino/base.py:47-54 | in all five games actions are offered iff the round is not resolved, and a resolved round has an outcome |
| CasinoGames.ActionsKeepSound | openvegas/casino/base.py:34-40 | in all five games a valid action does not raise, keeps the state sound and lowers a bound on the actions left |
| CasinoGames.RoundsStartSound | openvegas/casino/base.py:29-32 | every round starts sound, at most 48 actions from its end |
| CasinoCalls.CasinoService.BeginSession | openvegas/casino/service.py:33-72 | the session row after the checks on parent and policy |
| CasinoCalls.CasinoService.BeginRound | openvegas/casino/service.py:74-145 | round, bet and count together, or a refusal; reaching the loss cap closes the session |
| CasinoCalls.CasinoService.Act | openvegas/casino/service.py:147-198 | move and state together, or a refusal |
| CasinoCalls.CasinoService.Settle | openvegas/casino/service.py:200-259 | settlement, payout row, status and session result together, or a refusal |
| CasinoRuns.ReachableStatesAreOk | openvegas/casino/service.py:74-259 | after any calls every round's moves, payout rows and ledger entries are exactly those of its status |
| CasinoRuns.RoundState | openvegas/casino/service.py:164-191 | a round's stored state is the replay of its logged moves under its own seed; moves are numbered, keys unique, at most 48; actions are offered iff it is not resolved |
| CasinoRuns.SessionResult | openvegas/casino/service.py:255-259 | net_pnl_v is the sum of payout minus wager over the session's settled rounds |
| CasinoRuns.SettledOnce | openvegas/casino/service.py:200-259 | a round is settled by at most one call, and it is settled iff one did |
| CasinoRuns.SettledForEver | openvegas/casino/service.py:209-210 | no call changes a settled round, its payout row or its entries |
| CasinoRuns.SettledRound | openvegas/casino/service.py:221-242 | a settled round has one payout row, its entries are its bet and one settlement to the session's owner, and what leaves escrow is the larger of wager and payout, or the wager if nothing is paid |
| CasinoRuns.SettlementTotals | openvegas/casino/service.py:228-234 | the amounts of a settlement add up to the larger of wager and payout, or to the wager if nothing is paid |
| CasinoRuns.HalfEvenIsNearest | openvegas/casino/service.py:223-223 | rounding is to the nearest cent, exact on cents, to the even cent on a tie |
| CasinoRuns.PushReturnsWholeCents | openvegas/casino/service.py:223-224 | a push returns the wager iff it is a whole number of cents |
| CasinoRuns.StakeIsEnough | openvegas/casino/service.py:221-224 | no multiplier takes more off a session than the wager, or, for a negative wager, than the highest payout beyond it |
| CasinoAnswers.BeginningASession | openvegas/casino/service.py:33-72 | a session is begun under an active parent where the casino is not switched off, with the lower of the two caps |
| CasinoAnswers.StartRefused | openvegas/casino/service.py:74-110 | why a start is refused, in order; only reaching the loss cap changes a row |
| CasinoAnswers.ActionLeaves | openvegas/casino/service.py:171-191 | after any calls, the k-th action of a round draws its numbers from nonce 100 + k |
| CasinoAnswers.SettlementLeaves | openvegas/casino/service.py:221-259 | the payout is the wager times the multiplier to the nearest cent; its row, the ledger entries, the status and the session's result are written together |
| CasinoLosses.LossBound | openvegas/casino/service.py:88-95 | after any calls, even with all open rounds lost, a session is down by less than its cap and the most it ever had at stake at once, for wagers of any sign |
| CasinoLosses.NothingStartsWithoutCap | openvegas/casino/service.py:88-95 | a session without a positive cap never starts a round |
| CasinoLosses.BoundIsMet | openvegas/casino/service.py:88-95 | for every positive cap and all positive wagers some calls lose exactly that much: the cap but one unit, then all the wagers at once |
| CasinoLosses.LossBoundOneAtATime | openvegas/casino/service.py:88-95 | with one open round at a time it is down by less than its cap and its largest stake |
| CasinoLosses.LossAtMostStaked | openvegas/casino/service.py:200-259 | a session has never lost more than the stakes of all its rounds |
| CasinoLosses.LosesAll | openvegas/casino/service.py:74-259 | for every positive cap and any positive wagers some calls start a round for each and lose them all |
| CasinoLosses.LossIsBoundedIffWagersAre | openvegas/casino/service.py:88-95 | with a positive cap and given positive wagers, no calls lose more than a bound iff the wagers together do not pass it |
| CasinoLosses.OneAtATimeBoundHoldsIff | openvegas/casino/service.py:88-95 | so the bound for one round at a time holds of all calls with these wagers iff together they do not pass it |

## Left out

- CHECK constraints as a reason for a write to fail: they are a predicate on rows beside the service (`AgentChecks.MeetsChecks`), and the ones on run rows and on columns the model does not keep (reason codes, hash formats, content type) are left out; the reason code of a plan-mode block is not in their list either.
- Normalising and validating tool arguments, tool policy beyond the plan-mode block, request timeouts, and output texts: the tool row keeps what the protocol depends on.
- The client-supplied stdout and stderr hashes, truncation hints and the size check of a result before its transaction.
- `get_run`, `check_handoff_block`, `get_session`, casino verification rows and projection_version: they only read, or are kept elsewhere.
- UUID syntax, casts and text normalisation, logging, metrics and published tool events.
- Action values other than text, numbers and null.
- Row order of queries: any order in which the approval rows are met, and any choice and order of the rows the reconciler fetches.
- The length of an envelope's JSON is a parameter; the redaction patterns are given as the substitutions they perform.
- The hunk-header pattern is given as a function from a line to its numbers; `difflib` is represented by the single changed block it reports.
- The scope multiplier is a real number, so rounding of a float product is not modelled.
- Strength and uniformity of the keyed hash behind the draws: any numbers may be drawn.
- The wallet's balances: a call succeeds or is refused, and only the amounts passed to it are kept.
- Casino reads made before a transaction: each call is atomic.
- Human casino sessions, PvP games, telemetry, capabilities, configuration, routes, jobs, video and the rest of the command-line client: plumbing, or without a crisp specification.
