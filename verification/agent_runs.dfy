/** Properties of whole runs of the agent runtime: any interleaving of any requests. */
module AgentRuns {
  import opened Options
  import opened Seqs
  import opened OrchestrationContracts
  import opened AgentStore
  import opened AgentProtocol
  import opened AgentInvariants
  import opened AgentSteps
  import opened AgentFence

  // ---- event log ----

  /** In every reachable state a run's events are numbered without gaps and tell exactly what its tool rows tell. */
  lemma EventLogAgreesWithRows(limits: Limits, now: Time, steps: seq<Step>, r: Id)
    ensures var db := Exec(limits, Empty(now), steps);
      r in db.runs ==>
        && |Log(db, r)| == db.runs[r].eventSeq
        && (forall i | 0 <= i < |Log(db, r)| :: Log(db, r)[i].seqNo == i + 1)
        && (forall i, j | 0 <= i <= j < |Log(db, r)| ::
              Log(db, r)[i].version <= Log(db, r)[j].version <= db.runs[r].version)
        && forall t: Id :: History(Log(db, r), t) == RowHistory(db, r, t)
  {
    ReachableStatesAreOk(limits, now, steps);
    var db := Exec(limits, Empty(now), steps);
    if r in db.runs {
      assert RunNumbered(db, r);
      forall t: Id ensures History(Log(db, r), t) == RowHistory(db, r, t) { assert ToolLogged(db, r, t); }
    }
  }

  // ---- tool rows ----

  /** A tool keeps its token and run for ever, only moves forward, and once terminal never changes again. */
  lemma ToolRowsOverRuns(limits: Limits, now: Time, steps: seq<Step>, i: nat, j: nat, t: Id)
    requires i <= j <= |steps|
    ensures var a, b := At(limits, Empty(now), steps, i), At(limits, Empty(now), steps, j);
      && (t in a.tools ==> t in b.tools && ToolFollows(a.tools[t], b.tools[t]))
      && forall u, v, r | IsStarted(b, r, u) && IsStarted(b, r, v) :: u == v
  {
    LaterFollows(limits, Empty(now), steps, i, j);
    assert t in At(limits, Empty(now), steps, i).tools ==>
      ToolStep(At(limits, Empty(now), steps, i), At(limits, Empty(now), steps, j), t);
  }

  // ---- run lifecycle ----

  /** Versions never fall, the state moves only with the version, and terminal states are final. */
  lemma RunLifecycle(limits: Limits, now: Time, steps: seq<Step>, i: nat, j: nat, r: Id)
    requires i <= j <= |steps| && r in At(limits, Empty(now), steps, i).runs
    ensures r in At(limits, Empty(now), steps, j).runs
    ensures RunFollows(At(limits, Empty(now), steps, i).runs[r], At(limits, Empty(now), steps, j).runs[r])
  {
    LaterFollows(limits, Empty(now), steps, i, j);
    assert RunStep(At(limits, Empty(now), steps, i), At(limits, Empty(now), steps, j), r);
  }

  lemma {:induction false} TimeOutAllKeepsRuns(db: Db, rows: seq<Id>, r: Id)
    requires r in db.runs
    ensures r in TimeOutAll(db, rows).runs && TimeOutAll(db, rows).runs[r].state == db.runs[r].state
    decreases |rows|
  {
    if rows != [] { TimeOutAllKeepsRuns(TimeOut(db, rows[0]), rows[1..], r); }
  }

  lemma CommitsKeepOtherRuns(limits: Limits, db: Db, m: Mutation, r: Id)
    requires r in db.runs && m.runId != r
    ensures var d := Commit(limits, db, m).0; r in d.runs && d.runs[r] == db.runs[r]
  {
  }

  lemma ToolStepsKeepState(limits: Limits, db: Db, step: Step, r: Id)
    requires r in db.runs && OnTools(step)
    ensures var d := Do(limits, db, step).0; r in d.runs && d.runs[r].state == db.runs[r].state
  {
    ToolStepIsLocal(limits, db, step);
    LocalKeepsState(db, Do(limits, db, step).0, step.runId, step.toolId, r);
  }

  lemma LocalKeepsState(a: Db, b: Db, r: Id, t: Id, q: Id)
    requires Local(a, b, r, t) && q in a.runs
    ensures q in b.runs && b.runs[q].state == a.runs[q].state
  {
  }

  lemma RunStepsKeepState(limits: Limits, db: Db, step: Step, r: Id)
    requires r in db.runs && OnRuns(step) && !(step.DoCommit? && step.m.runId == r)
    ensures var d := Do(limits, db, step).0; r in d.runs && d.runs[r].state == db.runs[r].state
  {
    if step.DoCommit? { CommitsKeepOtherRuns(limits, db, step.m, r); }
  }

  lemma OnlyCommitsMoveState(limits: Limits, db: Db, step: Step, r: Id)
    requires r in db.runs && !(step.DoCommit? && step.m.runId == r)
    ensures var d := Do(limits, db, step).0; r in d.runs && d.runs[r].state == db.runs[r].state
  {
    if OnTools(step) {
      ToolStepsKeepState(limits, db, step, r);
    } else if OnRuns(step) {
      RunStepsKeepState(limits, db, step, r);
    } else if step.DoReconcile? {
      TimeOutAllKeepsRuns(db, step.rows, r);
    }
  }

  lemma PerformCancels(db: Db, m: Mutation)
    requires m.runId in db.runs && (m.Consume? ==> m.approvalId in db.approvals)
    requires db.runs[m.runId].state != Canceled && Perform(db, m).Act?
    requires m.runId in Perform(db, m).db.runs && Perform(db, m).db.runs[m.runId].state == Canceled
    ensures m.Transition? && m.action == "cancel" && !HasStarted(db, m.runId, None)
  {
  }

  /** A run becomes canceled only through an accepted cancel request, and only while no tool of it is started. */
  lemma CanceledOnlyWhenIdle(limits: Limits, db: Db, step: Step, r: Id)
    requires r in db.runs && db.runs[r].state != Canceled
    requires r in Do(limits, db, step).0.runs && Do(limits, db, step).0.runs[r].state == Canceled
    ensures step.DoCommit? && step.m.Transition? && step.m.action == "cancel" && step.m.runId == r
    ensures !HasStarted(db, r, None)
  {
    if !(step.DoCommit? && step.m.runId == r) {
      OnlyCommitsMoveState(limits, db, step, r);
    } else {
      CommitCancels(limits, db, step.m);
    }
  }

  lemma CommitCancels(limits: Limits, db: Db, m: Mutation)
    requires m.runId in db.runs && db.runs[m.runId].state != Canceled
    requires m.runId in Commit(limits, db, m).0.runs && Commit(limits, db, m).0.runs[m.runId].state == Canceled
    ensures m.Transition? && m.action == "cancel" && !HasStarted(db, m.runId, None)
  {
    var expired := PutRun(db, m.runId, ExpireIfDue(db.runs[m.runId], db.now));
    HasStartedDependsOnTools(db, expired, m.runId, None);
    if Perform(expired, m).Act? { PerformCancels(expired, m); }
  }

  /** A successful request presents the current version; unless it is a handoff it leaves the next one. */
  lemma SuccessUsesUpTheVersion(limits: Limits, db: Db, m: Mutation)
    requires Commit(limits, db, m).1.Answered? && Commit(limits, db, m).1.code == 200
    ensures m.runId in db.runs && db.runs[m.runId].version <= m.expectedVersion
    ensures var d := Commit(limits, db, m).0;
      m.runId in d.runs
      && d.runs[m.runId].version == m.expectedVersion + (if m.Transition? && m.action == "handoff" then 0 else 1)
  {
  }

  /** Of two version-bumping requests with the same expected version at most one succeeds. */
  lemma SameVersionSucceedsOnce(limits: Limits, now: Time, steps: seq<Step>, i: nat, j: nat)
    requires i < j < |steps| && steps[i].DoCommit? && steps[j].DoCommit?
    requires steps[i].m.runId == steps[j].m.runId && steps[i].m.expectedVersion == steps[j].m.expectedVersion
    requires !(steps[i].m.Transition? && steps[i].m.action == "handoff")
    requires Answer(limits, Empty(now), steps, i).Answered? && Answer(limits, Empty(now), steps, i).code == 200
    ensures !(Answer(limits, Empty(now), steps, j).Answered? && Answer(limits, Empty(now), steps, j).code == 200)
  {
    var r := steps[i].m.runId;
    SuccessUsesUpTheVersion(limits, At(limits, Empty(now), steps, i), steps[i].m);
    AtNext(limits, Empty(now), steps, i);
    RunLifecycle(limits, now, steps, i + 1, j, r);
    if Answer(limits, Empty(now), steps, j).Answered? && Answer(limits, Empty(now), steps, j).code == 200 {
      SuccessUsesUpTheVersion(limits, At(limits, Empty(now), steps, j), steps[j].m);
    }
  }

  // ---- one session per run ----

  predicate LetThrough(out: Outcome) {
    match out
    case Answered(_, env) => env.error != Some(StaleProjection)
    case Replayed(_, _) => true
    case Heartbeat(_, _) => true
    case _ => false
  }

  /** A tool operation that was let through, rather than refused as stale or rejected. */
  predicate ActedOnTool(step: Step, out: Outcome) { OnTools(step) && LetThrough(out) }

  lemma ProposeActs(db: Db, user: Id, r: Id, session: string, v: int, sig: Signature, t: Id, token: string,
                    mutating: bool,
                    planMode: bool)
    requires LetThrough(Propose(db, user, r, session, v, sig, t, token, mutating, planMode).1)
    ensures SessionHolds(db, user, r, session)
    ensures ToolOfRun(Propose(db, user, r, session, v, sig, t, token, mutating, planMode).0, r, t)
  {
  }

  lemma StartActs(db: Db, user: Id, r: Id, session: string, t: Id, token: string, v: int, sig: Signature)
    requires LetThrough(Start(db, user, r, session, t, token, v, sig).1)
    ensures SessionHolds(db, user, r, session) && ToolOfRun(Start(db, user, r, session, t, token, v, sig).0, r, t)
  {
  }

  lemma CancelActs(db: Db, user: Id, r: Id, session: string, t: Id, token: string)
    requires LetThrough(CancelTool(db, user, r, session, t, token).1)
    ensures SessionHolds(db, user, r, session) && ToolOfRun(CancelTool(db, user, r, session, t, token).0, r, t)
  {
  }

  lemma ResultActs(limits: Limits, db: Db, user: Id, r: Id, session: string, t: Id, token: string,
                   submission: Submission,
                   blockedReason: string, clientHash: Option<ResultHash>)
    requires LetThrough(Result(limits, db, user, r, session, t, token, submission, blockedReason, clientHash).1)
    ensures SessionHolds(db, user, r, session)
    ensures ToolOfRun(Result(limits, db, user, r, session, t, token, submission, blockedReason, clientHash).0, r, t)
  {
  }

  lemma ActingNeedsSessionAndTool(limits: Limits, db: Db, step: Step)
    requires ActedOnTool(step, Do(limits, db, step).1)
    ensures SessionHolds(db, step.user, step.runId, step.session)
    ensures ToolOfRun(Do(limits, db, step).0, step.runId, step.toolId)
  {
    match step
    case DoPropose(u, r, s, v, sig, t, token, mutating, plan) =>
      ProposeActs(db, u, r, s, v, sig, t, token, mutating, plan);
    case DoStart(u, r, s, t, token, v, sig) => StartActs(db, u, r, s, t, token, v, sig);
    case DoBeat(_, _, _, _, _) =>
    case DoCancelTool(u, r, s, t, token) => CancelActs(db, u, r, s, t, token);
    case DoResult(u, r, s, t, token, sub, reason, h) => ResultActs(limits, db, u, r, s, t, token, sub, reason, h);
  }

  /** All tool operations ever let through on one run carry one and the same session id. */
  lemma OneSessionPerRun(limits: Limits, now: Time, steps: seq<Step>, i: nat, j: nat)
    requires i < j < |steps|
    requires ActedOnTool(steps[i], Answer(limits, Empty(now), steps, i))
    requires ActedOnTool(steps[j], Answer(limits, Empty(now), steps, j))
    requires steps[i].runId == steps[j].runId
    ensures steps[i].session == steps[j].session
  {
    ActingNeedsSessionAndTool(limits, At(limits, Empty(now), steps, i), steps[i]);
    ActingNeedsSessionAndTool(limits, At(limits, Empty(now), steps, j), steps[j]);
    ToolStepIsLocal(limits, At(limits, Empty(now), steps, i), steps[i]);
    AtNext(limits, Empty(now), steps, i);
    LaterFollows(limits, Empty(now), steps, i + 1, j);
    assert HasTool(At(limits, Empty(now), steps, i + 1), steps[i].runId);
    assert RunStep(At(limits, Empty(now), steps, i + 1), At(limits, Empty(now), steps, j), steps[i].runId);
  }

  // ---- exactly once ----

  /** An answered request is recorded under its key, without the run id the client is shown. */
  lemma AnswersAreRecorded(limits: Limits, db: Db, m: Mutation)
    requires Commit(limits, db, m).1.Answered?
    ensures var (d, out) := Commit(limits, db, m);
      KeyOf(m) in d.replays
      && d.replays[KeyOf(m)] == CompletedReplay(HashOf(m), out.code,
                                  Stored(limits.size, limits.replayCap, out.envelope.(runId := None)))
  {
  }

  lemma RecordStays(limits: Limits, now: Time, steps: seq<Step>, i: nat, j: nat)
    requires i < j <= |steps| && steps[i].DoCommit? && Answer(limits, Empty(now), steps, i).Answered?
    ensures var out := Answer(limits, Empty(now), steps, i);
      var b := At(limits, Empty(now), steps, j);
      KeyOf(steps[i].m) in b.replays
      && b.replays[KeyOf(steps[i].m)] == CompletedReplay(HashOf(steps[i].m), out.code,
                                           Stored(limits.size, limits.replayCap, out.envelope.(runId := None)))
  {
    var a := At(limits, Empty(now), steps, i);
    AnswersAreRecorded(limits, a, steps[i].m);
    AtNext(limits, Empty(now), steps, i);
    LaterFollows(limits, Empty(now), steps, i + 1, j);
    assert ReplayStep(At(limits, Empty(now), steps, i + 1), At(limits, Empty(now), steps, j), KeyOf(steps[i].m));
  }

  lemma RecordedMeansRefused(limits: Limits, db: Db, m: Mutation)
    requires KeyOf(m) in db.replays && db.replays[KeyOf(m)].CompletedReplay?
    ensures Commit(limits, db, m).1.Raised? && Commit(limits, db, m).0 == db
  {
    assert Admission(db, m).Some?;
  }

  /** At most one transaction ever acts for an idempotency key; every later one raises and changes nothing. */
  lemma ActsAtMostOnce(limits: Limits, now: Time, steps: seq<Step>, i: nat, j: nat)
    requires i < j < |steps| && steps[i].DoCommit? && steps[j].DoCommit? && KeyOf(steps[i].m) == KeyOf(steps[j].m)
    requires Answer(limits, Empty(now), steps, i).Answered?
    ensures Answer(limits, Empty(now), steps, j).Raised?
    ensures At(limits, Empty(now), steps, j + 1) == At(limits, Empty(now), steps, j)
  {
    RecordStays(limits, now, steps, i, j);
    AtNext(limits, Empty(now), steps, j);
    RecordedMeansRefused(limits, At(limits, Empty(now), steps, j), steps[j].m);
  }

  /**
    A later request under the same key gets the first answer back (minus the run id) when it asks for
    the same thing and the answer fitted the cap, and an error otherwise.
  */
  lemma LaterCallsGetTheFirstAnswer(limits: Limits, now: Time, steps: seq<Step>, i: nat, j: nat)
    requires i < j < |steps| && steps[i].DoCommit? && steps[j].DoPreread? && KeyOf(steps[i].m) == KeyOf(steps[j].m)
    requires Answer(limits, Empty(now), steps, i).Answered?
    ensures var first := Answer(limits, Empty(now), steps, i);
      var recorded := first.envelope.(runId := None);
      Answer(limits, Empty(now), steps, j)
        == if HashOf(steps[j].m) != HashOf(steps[i].m) then Raised(IdempotencyConflict)
           else if limits.size(recorded) > limits.replayCap then Raised(BadStoredJson)
           else Replayed(first.code, Some(recorded))
  {
    RecordStays(limits, now, steps, i, j);
  }

  // ---- results ----

  /** What a finished result leaves behind. */
  lemma ResultIsStored(limits: Limits, db: Db, step: Step)
    requires step.DoResult? && Do(limits, db, step).1.Answered?
    ensures var (d, out) := Do(limits, db, step);
      && step.toolId in d.tools && d.tools[step.toolId].status == step.submission.status
      && ResultStatus(step.submission.status)
      && d.tools[step.toolId].runId == step.runId
      && d.tools[step.toolId].resultHash == Some(Digest(step.submission))
      && d.tools[step.toolId].response ==
           Some(StoredResponse(out.code, Stored(limits.size, limits.responseCap, out.envelope)))
  {
  }

  function Incoming(step: Step): ResultHash
    requires step.DoResult?
  {
    if step.clientHash.Some? then step.clientHash.value else Digest(step.submission)
  }

  /** How a result for a tool that has ended with this row is answered. */
  function LateAnswer(tool: Tool, incoming: ResultHash): Outcome {
    if tool.status == Cancelled then Raised(InvalidTransition)
    else if tool.resultHash == Some(incoming) then AgentProtocol.Replay(tool)
    else Raised(IdempotencyConflict)
  }

  lemma LateResult(limits: Limits, db: Db, step: Step)
    requires step.DoResult? && ResultStatus(step.submission.status) && ToolOfRun(db, step.runId, step.toolId)
    requires SessionHolds(db, step.user, step.runId, step.session) && TerminalTool(db.tools[step.toolId].status)
    ensures Do(limits, db, step) == (db, LateAnswer(db.tools[step.toolId], Incoming(step)))
  {
  }

  /**
    However a tool has ended, by a result, the reconciler, a cancel or a plan-mode block: every later result that
    passes the session check changes nothing. It is refused after a cancel, and otherwise gets the stored response
    if it carries the stored hash, and a conflict if not.
  */
  lemma EndedToolAnswers(limits: Limits, now: Time, steps: seq<Step>, i: nat, j: nat)
    requires i <= j < |steps| && steps[j].DoResult? && ResultStatus(steps[j].submission.status)
    requires var a := At(limits, Empty(now), steps, i);
      ToolOfRun(a, steps[j].runId, steps[j].toolId) && TerminalTool(a.tools[steps[j].toolId].status)
    requires SessionHolds(At(limits, Empty(now), steps, j), steps[j].user, steps[j].runId, steps[j].session)
    ensures At(limits, Empty(now), steps, j + 1) == At(limits, Empty(now), steps, j)
    ensures Answer(limits, Empty(now), steps, j)
         == LateAnswer(At(limits, Empty(now), steps, i).tools[steps[j].toolId], Incoming(steps[j]))
  {
    AtNext(limits, Empty(now), steps, j);
    ToolRowsOverRuns(limits, now, steps, i, j, steps[j].toolId);
    LateResult(limits, At(limits, Empty(now), steps, j), steps[j]);
  }

  /**
    After a submitted result has ended a tool, every later one that passes the session check is answered with the
    first response when its hash equals the recomputed one of the first submission, and conflicts otherwise; the
    tables do not change.
  */
  lemma FirstResultWins(limits: Limits, now: Time, steps: seq<Step>, i: nat, j: nat)
    requires i < j < |steps| && steps[i].DoResult? && steps[j].DoResult?
    requires steps[i].runId == steps[j].runId && steps[i].toolId == steps[j].toolId
    requires Answer(limits, Empty(now), steps, i).Answered?
    requires ResultStatus(steps[j].submission.status)
    requires SessionHolds(At(limits, Empty(now), steps, j), steps[j].user, steps[j].runId, steps[j].session)
    ensures At(limits, Empty(now), steps, j + 1) == At(limits, Empty(now), steps, j)
    ensures var first := Answer(limits, Empty(now), steps, i);
      Answer(limits, Empty(now), steps, j)
        == if Incoming(steps[j]) != Digest(steps[i].submission) then Raised(IdempotencyConflict)
           else Replayed(first.code,
                         if limits.size(first.envelope) > limits.responseCap then None else Some(first.envelope))
  {
    ResultIsStored(limits, At(limits, Empty(now), steps, i), steps[i]);
    AtNext(limits, Empty(now), steps, i);
    EndedToolAnswers(limits, now, steps, i + 1, j);
  }

  // ---- heartbeats ----

  predicate BeatsFor(step: Step, user: Id, r: Id, session: string, t: Id, token: string) {
    step == DoBeat(user, r, session, t, token)
  }

  predicate TimedOutByReconciler(tool: Tool) {
    tool.status == TimedOut && tool.resultHash == Some(Digest(HEARTBEAT_EXPIRED))
  }

  /** Each fetched row is timed out once, under the fixed hash, and counted once; no other tool row changes. */
  lemma {:induction false} ReconcilerTouchesExactlyTheFetched(db: Db, rows: seq<Id>)
    requires Inv(db) && Distinct(rows)
    requires forall t | t in rows :: t in db.tools && db.tools[t].status == Started
    ensures Touches(db, rows) == |rows|
    ensures forall t | t in db.tools :: t in TimeOutAll(db, rows).tools
              && (if t in rows then TimedOutByReconciler(TimeOutAll(db, rows).tools[t])
                  else TimeOutAll(db, rows).tools[t] == db.tools[t])
    decreases |rows|
  {
    if rows != [] {
      var d := TimeOut(db, rows[0]);
      assert ToolOk(db, rows[0]);
      TimeOutKeeps(db, rows[0]);
      assert rows == [rows[0]] + rows[1..];
      assert rows[0] !in rows[1..];
      ReconcilerTouchesExactlyTheFetched(d, rows[1..]);
    }
  }

  /** Time since the tool was last heard from, one step later. */
  function GapAfter(step: Step, user: Id, r: Id, session: string, t: Id, token: string, gap: nat): nat {
    if step.DoTick? then gap + step.elapsed else if BeatsFor(step, user, r, session, t, token) then 0 else gap
  }

  /** The client never lets more than `bound` pass between heartbeats; `gap` has passed already. */
  predicate Prompt(steps: seq<Step>, user: Id, r: Id, session: string, t: Id, token: string, gap: nat, bound: nat)
    decreases |steps|
  {
    steps == [] ||
      var next := GapAfter(steps[0], user, r, session, t, token, gap);
      next <= bound && Prompt(steps[1..], user, r, session, t, token, next, bound)
  }

  /** Nobody ends the tool with its token, and the reconciler grants at least `bound`. */
  predicate LeftAlone(step: Step, t: Id, token: string, bound: nat) {
    && !(step.DoCancelTool? && step.toolId == t && step.token == token)
    && !(step.DoResult? && step.toolId == t && step.token == token)
    && (step.DoReconcile? ==> bound <= AtLeast(5, step.timeoutSeconds) * SECOND)
  }

  /** Started under this session and token, and heard from at most `gap` ago. */
  predicate HeardFrom(db: Db, user: Id, r: Id, session: string, t: Id, token: string, gap: nat) {
    && IsStarted(db, r, t) && db.tools[t].token == token && SessionHolds(db, user, r, session)
    && db.tools[t].heartbeatAt.Some? && db.now - db.tools[t].heartbeatAt.value <= gap
  }

  lemma {:induction false} TimeOutAllSpares(db: Db, rows: seq<Id>, t: Id)
    requires t in db.tools && t !in rows
    ensures t in TimeOutAll(db, rows).tools && TimeOutAll(db, rows).tools[t] == db.tools[t]
    ensures TimeOutAll(db, rows).now == db.now
    decreases |rows|
  {
    if rows != [] { TimeOutAllSpares(TimeOut(db, rows[0]), rows[1..], t); }
  }

  lemma OtherStepsSpare(limits: Limits, db: Db, step: Step, t: Id)
    requires t in db.tools && !OnTools(step)
    requires step.DoReconcile? ==> !Stale(db.tools[t], db.now, step.timeoutSeconds)
    ensures var d := Do(limits, db, step).0;
      t in d.tools && d.tools[t] == db.tools[t] && d.now == db.now + (if step.DoTick? then step.elapsed else 0)
  {
    if step.DoCommit? {
      CommitSparesTools(limits, db, step.m);
    } else if step.DoReconcile? && StaleFetch(db, step.timeoutSeconds, step.rows) {
      TimeOutAllSpares(db, step.rows, t);
    }
  }

  /** A started row that is only beaten, on a run whose session stays, is still heard from. */
  lemma BeatenIsHeardFrom(db: Db, d: Db, user: Id, r: Id, session: string, t: Id, token: string, gap: nat, beat: bool)
    requires HeardFrom(db, user, r, session, t, token, gap) && d.now == db.now
    requires r in d.runs && d.runs[r].owner == db.runs[r].owner && d.runs[r].workspace == db.runs[r].workspace
    requires t in d.tools && (d.tools[t] == db.tools[t] || d.tools[t] == db.tools[t].(heartbeatAt := Some(db.now)))
    requires beat ==> d.tools[t].heartbeatAt == Some(db.now)
    ensures HeardFrom(d, user, r, session, t, token, if beat then 0 else gap)
  {
  }

  lemma LocalSpares(a: Db, b: Db, r: Id, t: Id, q: Id, u: Id)
    requires Local(a, b, r, t) && q in a.runs && u in a.tools
    ensures b.now == a.now && q in b.runs && b.runs[q].owner == a.runs[q].owner
    ensures b.runs[q].workspace == a.runs[q].workspace
    ensures u in b.tools && (u != t ==> b.tools[u] == a.tools[u])
  {
  }

  lemma ToolStepHeardFrom(limits: Limits, db: Db, step: Step, user: Id, r: Id, session: string, t: Id, token: string,
                          gap: nat,
                          bound: nat)
    requires HeardFrom(db, user, r, session, t, token, gap) && LeftAlone(step, t, token, bound) && OnTools(step)
    ensures HeardFrom(Do(limits, db, step).0, user, r, session, t, token,
                      GapAfter(step, user, r, session, t, token, gap))
  {
    var d := Do(limits, db, step).0;
    ToolStepIsLocal(limits, db, step);
    LocalSpares(db, d, step.runId, step.toolId, r, t);
    if step.toolId == t { StartedRowIsSpared(limits, db, step, t); }
    if BeatsFor(step, user, r, session, t, token) { BeatIsLocal(db, user, r, session, t, token); }
    BeatenIsHeardFrom(db, d, user, r, session, t, token, gap, BeatsFor(step, user, r, session, t, token));
  }

  lemma StillHeardFrom(limits: Limits, db: Db, step: Step, user: Id, r: Id, session: string, t: Id, token: string,
                       gap: nat, bound: nat)
    requires Inv(db) && HeardFrom(db, user, r, session, t, token, gap) && gap <= bound
    requires LeftAlone(step, t, token, bound)
    ensures var d := Do(limits, db, step).0;
      Inv(d) && HeardFrom(d, user, r, session, t, token, GapAfter(step, user, r, session, t, token, gap))
  {
    var d := Do(limits, db, step).0;
    StepKeeps(limits, db, step);
    assert HasTool(db, r);
    assert RunStep(db, d, r);
    if !OnTools(step) {
      OtherStepsSpare(limits, db, step, t);
    } else {
      ToolStepHeardFrom(limits, db, step, user, r, session, t, token, gap, bound);
    }
  }

  /** A tool whose client keeps beating inside the reconciler's window is never timed out by it. */
  lemma {:induction false} PromptClientIsNeverTimedOut(limits: Limits, db: Db, steps: seq<Step>, user: Id, r: Id,
                                                       session: string,
                                                       t: Id, token: string, gap: nat, bound: nat)
    requires Inv(db) && HeardFrom(db, user, r, session, t, token, gap) && gap <= bound
    requires Prompt(steps, user, r, session, t, token, gap, bound)
    requires forall k | 0 <= k < |steps| :: LeftAlone(steps[k], t, token, bound)
    ensures IsStarted(Exec(limits, db, steps), r, t)
    decreases |steps|
  {
    if steps != [] {
      StillHeardFrom(limits, db, steps[0], user, r, session, t, token, gap, bound);
      PromptClientIsNeverTimedOut(limits, Do(limits, db, steps[0]).0, steps[1..], user, r, session, t, token,
                                  GapAfter(steps[0], user, r, session, t, token, gap), bound);
    }
  }

  /** The reconciler's test and is_started_tool_timed_out agree on all started rows exactly from 5 seconds up. */
  lemma TimeoutTestsAgreeIffFiveSeconds(timeoutSeconds: int)
    ensures (forall tool: Tool, now: Time | RowOk(tool) && tool.status == Started ::
              Stale(tool, now, timeoutSeconds) == IsTimedOut(tool.startedAt, tool.heartbeatAt, now, timeoutSeconds))
       <==> timeoutSeconds >= 5
  {
    if timeoutSeconds < 5 {
      var tool := Tool("", 0, false, "", Started, Some(0), Some(0), Some(0), None, None, None);
      var now := AtLeast(1, timeoutSeconds) * SECOND + 1;
      assert RowOk(tool);
      assert !Stale(tool, now, timeoutSeconds) && IsTimedOut(tool.startedAt, tool.heartbeatAt, now, timeoutSeconds);
    }
  }
}
