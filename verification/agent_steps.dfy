/** Every transaction, as a step of the whole system, keeps the invariant and follows its predecessor. */
module AgentSteps {
  import opened Options
  import opened OrchestrationContracts
  import opened AgentStore
  import opened AgentProtocol
  import opened AgentInvariants

  lemma FollowsItself(db: Db)
    ensures Follows(db, db)
  {
  }

  /** What an accepted request leaves behind is in order. */
  ghost predicate ActsWell(db: Db, d: Db, r: Id) {
    Inv(d) && Follows(db, d) && r in d.runs && d.replays == db.replays
  }

  lemma TransitionKeeps(db: Db, m: Mutation)
    requires Inv(db) && m.runId in db.runs && m.Transition? && Perform(db, m).Act?
    ensures ActsWell(db, Perform(db, m).db, m.runId)
  {
    var r, run := m.runId, db.runs[m.runId];
    var run' := ApplyAction(run, m.action, HasStarted(db, r, None), db.now).run;
    assert !TerminalRun(run.state);
    PutRunKeeps(db, r, run');
    RunEventKeeps(PutRun(db, r, run'), r, run'.version, RunTransitionEvent(m.action));
    FollowsTransitive(db, PutRun(db, r, run'), Perform(db, m).db);
  }

  lemma ApprovalPutKeeps(db: Db, id: Id, row: Approval)
    requires Inv(db) && id in db.approvals
    ensures var d := db.(approvals := db.approvals[id := row]); Inv(d) && Follows(db, d)
  {
    var approvals := db.approvals[id := row];
    assert approvals.Keys == db.approvals.Keys;
    assert db.(approvals := approvals) == db.(approvals := approvals, scan := db.scan, now := db.now);
    ApprovalsKeep(db, approvals, db.scan, db.now);
  }

  lemma ConsumptionKeeps(db: Db, m: Mutation)
    requires Inv(db) && m.runId in db.runs && m.Consume? && m.approvalId in db.approvals && Perform(db, m).Act?
    ensures ActsWell(db, Perform(db, m).db, m.runId)
  {
    var r, run' := m.runId, AfterApproval(db.runs[m.runId]);
    var d1 := PutRun(db, r, run');
    var row := db.approvals[m.approvalId].(decision := Consumed, consumedAt := Some(db.now));
    var d2 := d1.(approvals := db.approvals[m.approvalId := row]);
    PutRunKeeps(db, r, run');
    ApprovalPutKeeps(d1, m.approvalId, row);
    RunEventKeeps(d2, r, run'.version, ApprovalConsumedEvent(m.approvalId, m.toolId));
    FollowsTransitive(db, d1, d2);
    FollowsTransitive(db, d2, Perform(db, m).db);
  }

  lemma PerformKeeps(db: Db, m: Mutation)
    requires Inv(db) && m.runId in db.runs
    requires m.Consume? ==> m.approvalId in db.approvals
    ensures Perform(db, m).Act? ==> ActsWell(db, Perform(db, m).db, m.runId)
  {
    if Perform(db, m).Act? {
      if m.Transition? { TransitionKeeps(db, m); } else { ConsumptionKeeps(db, m); }
    }
  }

  lemma FinishKeeps(limits: Limits, before: Db, expired: Db, m: Mutation, effect: Effect)
    requires Inv(before) && Inv(expired) && Follows(before, expired) && m.runId in expired.runs
    requires KeyOf(m) !in expired.replays
    requires effect.Act? ==> Inv(effect.db) && Follows(expired, effect.db) && m.runId in effect.db.runs
                             && effect.db.replays == expired.replays
    ensures Keeps(before, Finish(limits, before, expired, m, effect).0)
  {
    FollowsItself(before);
    match effect
    case Abort(e) =>
    case Decline(e) =>
      ConcludeKeeps(limits, expired, m, 409, Some(e));
      FollowsTransitive(before, expired, Conclude(limits, expired, m, 409, Some(e)).0);
    case Act(after) =>
      ConcludeKeeps(limits, after, m, 200, None);
      FollowsTransitive(before, expired, after);
      FollowsTransitive(before, after, Conclude(limits, after, m, 200, None).0);
  }

  lemma CommitKeeps(limits: Limits, db: Db, m: Mutation)
    ensures Keeps(db, Commit(limits, db, m).0)
  {
    FollowsItself(db);
    if Inv(db) && Admission(db, m) == None {
      var expired := PutRun(db, m.runId, ExpireIfDue(db.runs[m.runId], db.now));
      PutRunKeeps(db, m.runId, ExpireIfDue(db.runs[m.runId], db.now));
      PerformKeeps(expired, m);
      FinishKeeps(limits, db, expired, m, Perform(expired, m));
    }
  }

  lemma NewRunNumbered(db: Db, d: Db, r: Id)
    requires RunsNumbered(db) && r !in db.runs && d.events == db.events
    requires r in d.runs && d.runs == db.runs[r := d.runs[r]] && d.runs[r].eventSeq == 0
    ensures RunsNumbered(d)
  {
    forall q | q in d.runs ensures RunNumbered(d, q) { assert q != r ==> RunNumbered(db, q); }
  }

  lemma NewRunLogged(db: Db, d: Db, r: Id, q: Id, t: Id)
    requires RunsNumbered(db) && ToolsLogged(db) && ToolsOk(db) && r !in db.runs && q in d.runs
    requires d.runs.Keys == db.runs.Keys + {r} && d.events == db.events && d.tools == db.tools
    ensures ToolLogged(d, q, t)
  {
    assert q != r ==> ToolLogged(db, q, t);
    assert t in db.tools ==> ToolOk(db, t);
  }

  /** A new run has no events, and no tool refers to it. */
  lemma NewRunKeeps(db: Db, d: Db, r: Id)
    requires Inv(db) && r !in db.runs && r in d.runs && d.runs[r].eventSeq == 0
    requires d.runs == db.runs[r := d.runs[r]] && d == db.(runs := d.runs)
    ensures Inv(d) && Follows(db, d)
  {
    NewRunNumbered(db, d, r);
    forall q, t | q in d.runs ensures ToolLogged(d, q, t) { NewRunLogged(db, d, r, q, t); }
    SameTools(db, d);
  }

  lemma CreateRunKeeps(db: Db, user: Id, r: Id, state: RunState, resumable: bool, expiresAt: Option<Time>)
    ensures Keeps(db, CreateRun(db, user, r, state, resumable, expiresAt).0)
  {
    var d := CreateRun(db, user, r, state, resumable, expiresAt).0;
    FollowsItself(db);
    if Inv(db) && r !in db.runs { NewRunKeeps(db, d, r); }
  }

  lemma RegisterKeeps(db: Db, user: Id, r: Id, session: string, root: string, fingerprint: string, git: Option<string>)
    ensures Keeps(db, Register(db, user, r, session, root, fingerprint, git).0)
  {
    var ws := Workspace(Some(session), Some(root), Some(fingerprint), git);
    if Inv(db) && OwnsRun(db, user, r) && !(HasTool(db, r) && WorkspaceClash(db.runs[r].workspace, ws)) {
      if HasTool(db, r) {
        var t :| t in db.tools && db.tools[t].runId == r;
        assert ToolOk(db, t);
      }
      PutRunKeeps(db, r, db.runs[r].(workspace := ws));
    }
  }

  lemma ProposeKeeps(db: Db, user: Id, r: Id, session: string, v: int, sig: Signature, t: Id, token: string,
                     mutating: bool, planMode: bool)
    ensures Keeps(db, Propose(db, user, r, session, v, sig, t, token, mutating, planMode).0)
  {
    if Inv(db) && SessionHolds(db, user, r, session) && FenceHolds(db, r, v, sig) && t !in db.tools {
      var row := ProposedRow(db, r, token, mutating, planMode);
      if planMode && mutating {
        ToolEventKeeps(db, r, t, row, ToolFinished(t, Blocked));
      } else {
        QuietToolKeeps(db, r, t, row);
      }
    }
  }

  lemma StartKeeps(db: Db, user: Id, r: Id, session: string, t: Id, token: string, v: int, sig: Signature)
    ensures Keeps(db, Start(db, user, r, session, t, token, v, sig).0)
  {
    if Inv(db) && SessionHolds(db, user, r, session) && FenceHolds(db, r, v, sig) && ToolOfRun(db, r, t)
       && db.tools[t].token == token && db.tools[t].status == Proposed && !HasStarted(db, r, None)
    {
      assert ToolOk(db, t);
      ToolEventKeeps(db, r, t, Claimed(db.tools[t], db.now), ToolClaimedStarted(t));
    }
  }

  lemma BeatKeeps(db: Db, user: Id, r: Id, session: string, t: Id, token: string)
    ensures Keeps(db, Beat(db, user, r, session, t, token).0)
  {
    if Inv(db) && SessionHolds(db, user, r, session) && ToolOfRun(db, r, t) && db.tools[t].token == token
       && db.tools[t].status == Started
    {
      assert ToolOk(db, t);
      QuietToolKeeps(db, r, t, db.tools[t].(heartbeatAt := Some(db.now)));
    }
  }

  lemma CancelToolKeeps(db: Db, user: Id, r: Id, session: string, t: Id, token: string)
    ensures Keeps(db, CancelTool(db, user, r, session, t, token).0)
  {
    if Inv(db) && SessionHolds(db, user, r, session) && ToolOfRun(db, r, t) && db.tools[t].token == token
       && db.tools[t].status == Started
    {
      assert ToolOk(db, t);
      ToolEventKeeps(db, r, t, db.tools[t].(status := Cancelled, finishedAt := Some(db.now)),
                     ToolFinished(t, Cancelled));
    }
  }

  lemma ResultKeeps(limits: Limits, db: Db, user: Id, r: Id, session: string, t: Id, token: string,
                    submission: Submission, blockedReason: string, clientHash: Option<ResultHash>)
    ensures Keeps(db, Result(limits, db, user, r, session, t, token, submission, blockedReason, clientHash).0)
  {
    if Inv(db) && ResultStatus(submission.status) && SessionHolds(db, user, r, session) && ToolOfRun(db, r, t)
       && db.tools[t].status == Started && db.tools[t].token == token
    {
      assert ToolOk(db, t);
      var env := ResultEnvelope(db, r, t, submission.status, blockedReason);
      var response := StoredResponse(ResultCode(submission.status), Stored(limits.size, limits.responseCap, env));
      ToolEventKeeps(db, r, t, Finished(db.tools[t], submission, response, db.now), ToolFinished(t, submission.status));
    }
  }

  lemma TimeOutKeeps(db: Db, t: Id)
    ensures Keeps(db, TimeOut(db, t))
  {
    if Inv(db) && t in db.tools && db.tools[t].runId in db.runs && db.tools[t].status == Started {
      var r := db.tools[t].runId;
      var env := EnvelopeOf(db, r, Some(ToolTimeout), Some(r), Some(t));
      assert ToolOk(db, t);
      ToolEventKeeps(db, r, t, Finished(db.tools[t], HEARTBEAT_EXPIRED, StoredResponse(409, Whole(env)), db.now),
                     ToolFinished(t, TimedOut));
    }
  }

  lemma {:induction false} TimeOutAllKeeps(db: Db, rows: seq<Id>)
    ensures Keeps(db, TimeOutAll(db, rows))
    decreases |rows|
  {
    FollowsItself(db);
    if rows != [] && Inv(db) {
      TimeOutKeeps(db, rows[0]);
      TimeOutAllKeeps(TimeOut(db, rows[0]), rows[1..]);
      FollowsTransitive(db, TimeOut(db, rows[0]), TimeOutAll(db, rows));
    }
  }

  // ---- the system ----

  datatype Step =
    | DoCreateRun(user: Id, runId: Id, state: RunState, resumable: bool, expiresAt: Option<Time>)
    | DoPreread(m: Mutation)
    | DoCommit(m: Mutation)
    | DoRegister(user: Id, runId: Id, session: string, root: string, fingerprint: string, git: Option<string>)
    | DoPropose(user: Id, runId: Id, session: string, expectedVersion: int, expectedSignature: Signature,
                toolId: Id, token: string, mutating: bool, planMode: bool)
    | DoStart(user: Id, runId: Id, session: string, toolId: Id, token: string,
              expectedVersion: int, expectedSignature: Signature)
    | DoBeat(user: Id, runId: Id, session: string, toolId: Id, token: string)
    | DoCancelTool(user: Id, runId: Id, session: string, toolId: Id, token: string)
    | DoResult(user: Id, runId: Id, session: string, toolId: Id, token: string, submission: Submission,
               blockedReason: string, clientHash: Option<ResultHash>)
    | DoReconcile(timeoutSeconds: int, rows: seq<Id>)
    /**
      Someone else writes approval rows, or the database meets them in another order; a scan that misses rows is
      none.
    */
    | DoApprovals(approvals: map<Id, Approval>, scan: seq<Id>)
    | DoTick(elapsed: nat)

  function Do(limits: Limits, db: Db, step: Step): (Db, Outcome) {
    match step
    case DoCreateRun(u, r, s, b, e) => CreateRun(db, u, r, s, b, e)
    case DoPreread(m) => (db, Preread(db, m))
    case DoCommit(m) => Commit(limits, db, m)
    case DoRegister(u, r, s, root, fp, git) => Register(db, u, r, s, root, fp, git)
    case DoPropose(u, r, s, v, sig, t, token, mutating, plan) => Propose(db, u, r, s, v, sig, t, token, mutating, plan)
    case DoStart(u, r, s, t, token, v, sig) => Start(db, u, r, s, t, token, v, sig)
    case DoBeat(u, r, s, t, token) => Beat(db, u, r, s, t, token)
    case DoCancelTool(u, r, s, t, token) => CancelTool(db, u, r, s, t, token)
    case DoResult(u, r, s, t, token, sub, reason, h) => Result(limits, db, u, r, s, t, token, sub, reason, h)
    case DoReconcile(timeout, rows) =>
      if StaleFetch(db, timeout, rows) then (TimeOutAll(db, rows), Touched(Touches(db, rows))) else (db, Quiet)
    case DoApprovals(approvals, scan) =>
      (if ScanAgrees(approvals, scan) then db.(approvals := approvals, scan := scan) else db, Quiet)
    case DoTick(d) => (db.(now := db.now + d), Quiet)
  }

  predicate OnTools(step: Step) {
    step.DoPropose? || step.DoStart? || step.DoBeat? || step.DoCancelTool? || step.DoResult?
  }

  // ---- how far a tool operation reaches ----

  /** Nothing happens, or one tool row of one run changes, with that run's log and event counter. */
  predicate Local(a: Db, b: Db, r: Id, t: Id) {
    b == a ||
    (&& r in a.runs && r in b.runs && t in b.tools
     && b == a.(runs := b.runs, tools := b.tools, events := b.events)
     && b.runs == a.runs[r := a.runs[r].(eventSeq := b.runs[r].eventSeq)]
     && b.tools == a.tools[t := b.tools[t]])
  }

  lemma ProposeIsLocal(db: Db, user: Id, r: Id, session: string, v: int, sig: Signature, t: Id, token: string,
                       mutating: bool, planMode: bool)
    ensures var d := Propose(db, user, r, session, v, sig, t, token, mutating, planMode).0;
      Local(db, d, r, t) && (t in db.tools ==> d == db)
  {
  }

  lemma StartIsLocal(db: Db, user: Id, r: Id, session: string, t: Id, token: string, v: int, sig: Signature)
    ensures var d := Start(db, user, r, session, t, token, v, sig).0;
      Local(db, d, r, t) && (t in db.tools && db.tools[t].status == Started ==> d == db)
  {
  }

  lemma BeatIsLocal(db: Db, user: Id, r: Id, session: string, t: Id, token: string)
    ensures var d := Beat(db, user, r, session, t, token).0;
      Local(db, d, r, t)
      && (d == db || (t in db.tools && d.tools[t] == db.tools[t].(heartbeatAt := Some(db.now))))
      && (SessionHolds(db, user, r, session) && IsStarted(db, r, t) && db.tools[t].token == token
          ==> d.tools[t].heartbeatAt == Some(db.now))
  {
  }

  lemma CancelToolIsLocal(db: Db, user: Id, r: Id, session: string, t: Id, token: string)
    ensures var d := CancelTool(db, user, r, session, t, token).0;
      Local(db, d, r, t) && (t in db.tools && db.tools[t].token != token ==> d == db)
  {
  }

  lemma ResultIsLocal(limits: Limits, db: Db, user: Id, r: Id, session: string, t: Id, token: string,
                      submission: Submission, blockedReason: string, clientHash: Option<ResultHash>)
    ensures var d := Result(limits, db, user, r, session, t, token, submission, blockedReason, clientHash).0;
      Local(db, d, r, t) && (t in db.tools && db.tools[t].token != token ==> d == db)
  {
  }

  /** A tool operation reaches one tool row and its run's log, nothing else. */
  lemma ToolStepIsLocal(limits: Limits, db: Db, step: Step)
    requires OnTools(step)
    ensures Local(db, Do(limits, db, step).0, step.runId, step.toolId)
  {
    match step
    case DoPropose(u, r, s, v, sig, t, token, mutating, plan) =>
      ProposeIsLocal(db, u, r, s, v, sig, t, token, mutating, plan);
    case DoStart(u, r, s, t, token, v, sig) => StartIsLocal(db, u, r, s, t, token, v, sig);
    case DoBeat(u, r, s, t, token) => BeatIsLocal(db, u, r, s, t, token);
    case DoCancelTool(u, r, s, t, token) => CancelToolIsLocal(db, u, r, s, t, token);
    case DoResult(u, r, s, t, token, sub, reason, h) => ResultIsLocal(limits, db, u, r, s, t, token, sub, reason, h);
  }

  /** A started tool's row is out of reach of everyone without its token, but for heartbeats. */
  lemma StartedRowIsSpared(limits: Limits, db: Db, step: Step, t: Id)
    requires OnTools(step) && step.toolId == t && t in db.tools && db.tools[t].status == Started
    requires (step.DoCancelTool? || step.DoResult?) ==> step.token != db.tools[t].token
    ensures var d := Do(limits, db, step).0;
      d == db || (t in d.tools && d.tools[t] == db.tools[t].(heartbeatAt := Some(db.now)))
  {
    match step
    case DoPropose(u, r, s, v, sig, t, token, mutating, plan) =>
      ProposeIsLocal(db, u, r, s, v, sig, t, token, mutating, plan);
    case DoStart(u, r, s, t, token, v, sig) => StartIsLocal(db, u, r, s, t, token, v, sig);
    case DoBeat(u, r, s, t, token) => BeatIsLocal(db, u, r, s, t, token);
    case DoCancelTool(u, r, s, t, token) => CancelToolIsLocal(db, u, r, s, t, token);
    case DoResult(u, r, s, t, token, sub, reason, h) => ResultIsLocal(limits, db, u, r, s, t, token, sub, reason, h);
  }

  lemma PerformSparesTools(db: Db, m: Mutation)
    requires m.runId in db.runs && (m.Consume? ==> m.approvalId in db.approvals) && Perform(db, m).Act?
    ensures Perform(db, m).db.tools == db.tools && Perform(db, m).db.now == db.now && m.runId in Perform(db, m).db.runs
  {
  }

  /** Transactions on runs leave tool rows, and the clock, alone. */
  lemma CommitSparesTools(limits: Limits, db: Db, m: Mutation)
    ensures var d := Commit(limits, db, m).0; d.tools == db.tools && d.now == db.now
  {
    if Admission(db, m) == None {
      var expired := PutRun(db, m.runId, ExpireIfDue(db.runs[m.runId], db.now));
      if Perform(expired, m).Act? { PerformSparesTools(expired, m); }
    }
  }

  lemma ToolStepKeeps(limits: Limits, db: Db, step: Step)
    requires OnTools(step)
    ensures Keeps(db, Do(limits, db, step).0)
  {
    match step
    case DoPropose(u, r, s, v, sig, t, token, mutating, plan) =>
      ProposeKeeps(db, u, r, s, v, sig, t, token, mutating, plan);
    case DoStart(u, r, s, t, token, v, sig) => StartKeeps(db, u, r, s, t, token, v, sig);
    case DoBeat(u, r, s, t, token) => BeatKeeps(db, u, r, s, t, token);
    case DoCancelTool(u, r, s, t, token) => CancelToolKeeps(db, u, r, s, t, token);
    case DoResult(u, r, s, t, token, sub, reason, h) => ResultKeeps(limits, db, u, r, s, t, token, sub, reason, h);
  }

  lemma StepKeeps(limits: Limits, db: Db, step: Step)
    ensures Keeps(db, Do(limits, db, step).0)
  {
    if OnTools(step) {
      ToolStepKeeps(limits, db, step);
    } else if OnRuns(step) {
      RunStepKeeps(limits, db, step);
    } else {
      OtherStepKeeps(limits, db, step);
    }
  }

  predicate OnRuns(step: Step) { step.DoCreateRun? || step.DoCommit? || step.DoRegister? }

  lemma RunStepKeeps(limits: Limits, db: Db, step: Step)
    requires OnRuns(step)
    ensures Keeps(db, Do(limits, db, step).0)
  {
    match step
    case DoCreateRun(u, r, s, b, e) => CreateRunKeeps(db, u, r, s, b, e);
    case DoCommit(m) => CommitKeeps(limits, db, m);
    case DoRegister(u, r, s, root, fp, git) => RegisterKeeps(db, u, r, s, root, fp, git);
  }

  lemma OtherStepKeeps(limits: Limits, db: Db, step: Step)
    requires !OnTools(step) && !OnRuns(step)
    ensures Keeps(db, Do(limits, db, step).0)
  {
    match step
    case DoPreread(m) => FollowsItself(db);
    case DoReconcile(timeout, rows) => ReconcileKeeps(limits, db, timeout, rows);
    case DoApprovals(approvals, scan) => ScanKeeps(limits, db, approvals, scan);
    case DoTick(d) => TickKeeps(db, d);
  }

  lemma ReconcileKeeps(limits: Limits, db: Db, timeoutSeconds: int, rows: seq<Id>)
    ensures Keeps(db, Do(limits, db, DoReconcile(timeoutSeconds, rows)).0)
  {
    FollowsItself(db);
    TimeOutAllKeeps(db, rows);
  }

  lemma ScanKeeps(limits: Limits, db: Db, approvals: map<Id, Approval>, scan: seq<Id>)
    ensures Keeps(db, Do(limits, db, DoApprovals(approvals, scan)).0)
  {
    FollowsItself(db);
    if ScanAgrees(approvals, scan) {
      assert db.(approvals := approvals, scan := scan) == db.(approvals := approvals, scan := scan, now := db.now);
      ApprovalsKeep(db, approvals, scan, db.now);
    }
  }

  lemma TickKeeps(db: Db, elapsed: nat)
    ensures Keeps(db, db.(now := db.now + elapsed))
  {
    var now := db.now + elapsed;
    assert db.(now := now) == db.(approvals := db.approvals, scan := db.scan, now := now);
    if Inv(db) { ApprovalsKeep(db, db.approvals, db.scan, now); }
  }

  // ---- runs of the system ----

  function Empty(now: Time): Db { Db(map[], map[], map[], [], map[], map[], map[], now) }

  function Exec(limits: Limits, db: Db, steps: seq<Step>): Db
    decreases |steps|
  {
    if steps == [] then db else Exec(limits, Do(limits, db, steps[0]).0, steps[1..])
  }

  /** The state before step `i`. */
  function At(limits: Limits, db: Db, steps: seq<Step>, i: nat): Db
    requires i <= |steps|
  {
    Exec(limits, db, steps[..i])
  }

  /** What step `i` answered. */
  function Answer(limits: Limits, db: Db, steps: seq<Step>, i: nat): Outcome
    requires i < |steps|
  {
    Do(limits, At(limits, db, steps, i), steps[i]).1
  }

  lemma {:induction false} ExecKeeps(limits: Limits, db: Db, steps: seq<Step>)
    requires Inv(db)
    ensures Inv(Exec(limits, db, steps)) && Follows(db, Exec(limits, db, steps))
    decreases |steps|
  {
    FollowsItself(db);
    if steps != [] {
      var d := Do(limits, db, steps[0]).0;
      StepKeeps(limits, db, steps[0]);
      ExecKeeps(limits, d, steps[1..]);
      FollowsTransitive(db, d, Exec(limits, db, steps));
    }
  }

  lemma {:induction false} ExecSplits(limits: Limits, db: Db, first: seq<Step>, second: seq<Step>)
    ensures Exec(limits, db, first + second) == Exec(limits, Exec(limits, db, first), second)
    decreases |first|
  {
    if first == [] {
      assert first + second == second;
    } else {
      assert (first + second)[1..] == first[1..] + second;
      ExecSplits(limits, Do(limits, db, first[0]).0, first[1..], second);
    }
  }

  /** The state after step `i` is the one before step `i + 1`. */
  lemma AtNext(limits: Limits, db: Db, steps: seq<Step>, i: nat)
    requires i < |steps|
    ensures At(limits, db, steps, i + 1) == Do(limits, At(limits, db, steps, i), steps[i]).0
  {
    assert steps[..i + 1] == steps[..i] + [steps[i]];
    ExecSplits(limits, db, steps[..i], [steps[i]]);
    assert [steps[i]][1..] == [];
  }

  lemma ExecOneMore(limits: Limits, db: Db, steps: seq<Step>, step: Step)
    ensures Exec(limits, db, steps + [step]) == Do(limits, Exec(limits, db, steps), step).0
  {
    ExecSplits(limits, db, steps, [step]);
    assert [step][1..] == [];
  }

  /** Any later state of a run follows any earlier one, and every state satisfies the invariant. */
  lemma LaterFollows(limits: Limits, db: Db, steps: seq<Step>, i: nat, j: nat)
    requires Inv(db) && i <= j <= |steps|
    ensures Inv(At(limits, db, steps, i)) && Inv(At(limits, db, steps, j))
    ensures Follows(At(limits, db, steps, i), At(limits, db, steps, j))
  {
    assert steps[..j] == steps[..i] + steps[i..j];
    ExecSplits(limits, db, steps[..i], steps[i..j]);
    ExecKeeps(limits, db, steps[..i]);
    ExecKeeps(limits, At(limits, db, steps, i), steps[i..j]);
  }

  /** Every state reachable from the empty tables satisfies the invariant. */
  lemma ReachableStatesAreOk(limits: Limits, now: Time, steps: seq<Step>)
    ensures Inv(Exec(limits, Empty(now), steps))
  {
    assert Inv(Empty(now));
    ExecKeeps(limits, Empty(now), steps);
  }
}
