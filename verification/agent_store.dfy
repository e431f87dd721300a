/** The tables of the agent runtime, and the queries every transaction shares. */
module AgentStore {
  import opened Options
  import opened OrchestrationContracts

  type Id = string
  /** Microseconds on the one clock shared by the database and the service. */
  type Time = int
  const SECOND: int := 1_000_000

  datatype RunState = Created | Running | AwaitingApproval | Completed | Failed | Canceled | Expired | Interrupted

  predicate TerminalRun(s: RunState) { s.Completed? || s.Failed? || s.Canceled? || s.Expired? }

  datatype Workspace = Workspace(session: Option<string>, root: Option<string>,
                                 fingerprint: Option<string>, git: Option<string>)

  /** A row of agent_runs. */
  datatype Run = Run(owner: Id, state: RunState, version: nat, eventSeq: nat, resumable: bool,
                     reason: Option<string>, cancelRequestedAt: Option<Time>,
                     cancelDisposition: Option<string>, expiresAt: Option<Time>, workspace: Workspace)

  datatype ToolStatus = Proposed | Started | Succeeded | Errored | TimedOut | Blocked | Cancelled

  predicate ResultStatus(s: ToolStatus) { s.Succeeded? || s.Errored? || s.TimedOut? || s.Blocked? }
  predicate TerminalTool(s: ToolStatus) { ResultStatus(s) || s.Cancelled? }

  datatype Error =
    | InvalidTransition | ApprovalRequired | StaleProjection | ToolNotAllowedInPlanMode | ToolTimeout
    | ToolExecutionFailed | ActiveMutationInProgress | IdempotencyConflict | HoldConflict | RunNotResumable
    | UniqueViolation | BadStoredJson | BlockedBy(reason: string)

  /** What a client sees of a run after any call; `signature` and `version` form the fence. */
  datatype Envelope = Envelope(error: Option<Error>, state: RunState, version: nat, actions: seq<Action>,
                               signature: Signature, runId: Option<Id>, toolId: Option<Id>)

  /** A response text as stored: the whole JSON, or a proper prefix of it that no longer parses. */
  datatype Body = Whole(envelope: Envelope) | Cut

  /** The preimage of result_submission_hash, and the hash column (clients may send any text). */
  datatype Submission = Submission(status: ToolStatus, payload: string, stdoutSha: string, stderrSha: string)
  datatype ResultHash = Digest(submission: Submission) | ForeignHash(text: string)

  datatype StoredResponse = StoredResponse(code: int, body: Body)

  /** A row of agent_run_tool_calls. */
  datatype Tool = Tool(runId: Id, runVersion: nat, mutating: bool, token: string, status: ToolStatus,
                       claimedAt: Option<Time>, startedAt: Option<Time>, heartbeatAt: Option<Time>,
                       finishedAt: Option<Time>, resultHash: Option<ResultHash>, response: Option<StoredResponse>)

  datatype Decision = Pending | Approved | Consumed | Lapsed | Revoked | Superseded

  /** A row of agent_tool_approvals. */
  datatype Approval = Approval(runId: Id, toolId: Id, decision: Decision, consumedAt: Option<Time>,
                               versionApproved: nat)

  datatype Scope = RunTransitionScope | ApprovalDecisionScope

  /** The columns of the two unique indexes on agent_mutation_replays. */
  datatype ReplayKey = ReplayKey(runId: Id, toolId: Option<Id>, actor: Id, roleClass: string,
                                 scope: Scope, idempotencyKey: string)

  /** Request bodies, standing for their SHA-256. */
  datatype PayloadHash =
    | TransitionPayload(action: string, payload: string, expectedVersion: int, expectedSignature: Signature)
    | ApprovalPayload(toolId: Id, approvalId: Id, expectedVersion: int, expectedSignature: Signature)

  /** A row of agent_mutation_replays. */
  datatype Replay =
    | Processing(hash: PayloadHash)
    | FailedReplay(hash: PayloadHash)
    | CompletedReplay(hash: PayloadHash, code: int, body: Body)

  /** A row of agent_run_mutation_leases, keyed by run. */
  datatype Lease = Lease(holder: string, token: string, expiresAt: Time)

  datatype EventKind =
    | RunTransitionEvent(action: string)
    | ApprovalConsumedEvent(approvalId: Id, toolId: Id)
    | ToolClaimedStarted(toolId: Id)
    | ToolFinished(toolId: Id, status: ToolStatus)

  /** A row of agent_run_events. */
  datatype Event = Event(version: nat, seqNo: nat, kind: EventKind)

  /**
    All tables. `scan` is the order in which a query meets the approval rows; SQL leaves it open
    among rows that ORDER BY does not separate.
  */
  datatype Db = Db(runs: map<Id, Run>, tools: map<Id, Tool>, approvals: map<Id, Approval>, scan: seq<Id>,
                   replays: map<ReplayKey, Replay>, leases: map<Id, Lease>, events: map<Id, seq<Event>>,
                   now: Time)

  /** The scan meets every approval row exactly once. */
  predicate ScanAgrees(approvals: map<Id, Approval>, scan: seq<Id>) { multiset(scan) == multiset(approvals.Keys) }

  /** Sizes and caps from the environment; `size` is the length of an envelope's canonical JSON. */
  datatype Limits = Limits(size: Envelope -> nat, replayCap: nat, responseCap: nat)

  function Stored(size: Envelope -> nat, cap: nat, env: Envelope): Body {
    if size(env) > cap then Cut else Whole(env)
  }

  function Log(db: Db, r: Id): seq<Event> {
    if r in db.events then db.events[r] else []
  }

  // ---- queries ----

  predicate IsStarted(db: Db, r: Id, t: Id) {
    t in db.tools && db.tools[t].runId == r && db.tools[t].status == Started
  }

  /** SELECT 1 ... WHERE run_id AND status='started' [AND id <> ignore]. */
  predicate HasStarted(db: Db, r: Id, ignore: Option<Id>) {
    exists t | t in db.tools :: IsStarted(db, r, t) && ignore != Some(t)
  }

  predicate HasTool(db: Db, r: Id) {
    exists t | t in db.tools :: db.tools[t].runId == r
  }

  /** The WHERE clause that both advertises an approval and guards its consumption. */
  predicate Consumable(a: Approval, r: Id, version: nat) {
    && a.runId == r && a.decision == Approved && a.consumedAt == None && a.versionApproved == version
  }

  function ApproveAction(id: Id, row: Approval): Action {
    map["action" := Text("approve"), "approval_id" := Text(id), "tool_call_id" := Text(row.toolId)]
  }

  /** One approve action per consumable row, in the order the rows are met. */
  function ApproveActions(approvals: map<Id, Approval>, scan: seq<Id>, r: Id, version: nat): seq<Action> {
    if scan == [] then []
    else (if scan[0] in approvals && Consumable(approvals[scan[0]], r, version)
          then [ApproveAction(scan[0], approvals[scan[0]])] else [])
         + ApproveActions(approvals, scan[1..], r, version)
  }

  function Plain(name: string): Action { map["action" := Text(name)] }

  /** The run-level actions, in the order the source appends them. */
  function RunLevelActions(run: Run, hasStarted: bool): seq<Action> {
    match run.state
    case AwaitingApproval => [Plain("cancel")]
    case Created => [Plain("resume"), Plain("cancel")]
    case Interrupted => (if run.resumable then [Plain("resume")] else []) + [Plain("cancel")]
    case Running => [Plain("cancel")] + (if hasStarted then [] else [Plain("handoff")])
    case _ => []
  }

  /** `_derive_valid_actions_tx`, for a given row of the run. */
  function ValidActions(db: Db, r: Id, run: Run, ignore: Option<Id>): seq<Action> {
    if TerminalRun(run.state) then []
    else Canonical(ApproveActions(db.approvals, db.scan, r, run.version)
                   + RunLevelActions(run, HasStarted(db, r, ignore)))
  }

  function MakeEnvelope(run: Run, actions: seq<Action>, error: Option<Error>, r: Option<Id>, t: Option<Id>): Envelope {
    Envelope(error, run.state, run.version, actions, ValidActionsSignature(run.version, actions), r, t)
  }

  /** The envelope that describes the committed state: the fence a follow-up request must present. */
  function EnvelopeOf(db: Db, r: Id, error: Option<Error>, shownRun: Option<Id>, t: Option<Id>): Envelope
    requires r in db.runs
  {
    MakeEnvelope(db.runs[r], ValidActions(db, r, db.runs[r], None), error, shownRun, t)
  }

  /** Does the presented version and signature match the state? */
  predicate FenceHolds(db: Db, r: Id, expectedVersion: int, expectedSignature: Signature)
    requires r in db.runs
  {
    && db.runs[r].version == expectedVersion
    && ValidActionsSignature(db.runs[r].version, ValidActions(db, r, db.runs[r], None)) == expectedSignature
  }

  function ActionNames(actions: seq<Action>): set<string> {
    set a | a in actions :: GetStr(a, "action")
  }

  // ---- row updates ----

  function PutRun(db: Db, r: Id, run: Run): Db { db.(runs := db.runs[r := run]) }
  function PutTool(db: Db, t: Id, tool: Tool): Db { db.(tools := db.tools[t := tool]) }

  /** `_insert_durable_event_tx`: bump run_event_seq and append the event under that number. */
  function AppendEvent(db: Db, r: Id, version: nat, kind: EventKind): Db
    requires r in db.runs
  {
    var run := db.runs[r];
    PutRun(db, r, run.(eventSeq := run.eventSeq + 1))
      .(events := db.events[r := Log(db, r) + [Event(version, run.eventSeq + 1, kind)]])
  }

  /** `_increment_run_version_tx`. */
  function Bump(run: Run, state: RunState, reason: Option<string>, resumable: bool,
                cancelRequestedAt: Option<Time>, cancelDisposition: Option<string>): Run
  {
    run.(state := state, reason := reason, resumable := resumable, cancelRequestedAt := cancelRequestedAt,
         cancelDisposition := cancelDisposition, version := run.version + 1)
  }
}
