/** Started tools on terminal runs: how they come about, and that nothing else brings them about. */
module AgentTerminal {
  import opened Options
  import opened OrchestrationContracts
  import opened AgentStore
  import opened AgentProtocol
  import opened AgentInvariants
  import opened AgentSteps
  import opened AgentRuns

  /** The tool runs on although its run is over. */
  predicate Outlives(db: Db, t: Id) {
    && t in db.tools && db.tools[t].status == Started
    && db.tools[t].runId in db.runs && TerminalRun(db.runs[db.tools[t].runId].state)
  }

  /** The guard of a start. */
  predicate Starts(db: Db, user: Id, r: Id, session: string, t: Id, token: string, v: int, sig: Signature) {
    && SessionHolds(db, user, r, session) && FenceHolds(db, r, v, sig) && ToolOfRun(db, r, t)
    && db.tools[t].token == token && db.tools[t].status == Proposed && !HasStarted(db, r, None)
  }

  /** A start of `t` finds its run terminal; nothing in it looks at the run's state. */
  predicate StartsLate(db: Db, step: Step, t: Id) {
    && step.DoStart? && step.toolId == t
    && Starts(db, step.user, step.runId, step.session, t, step.token, step.expectedVersion, step.expectedSignature)
    && TerminalRun(db.runs[step.runId].state)
  }

  /** A request on a run finds it due while `t` is started. */
  predicate ExpiresUnder(db: Db, step: Step, t: Id) {
    && step.DoCommit? && Admission(db, step.m) == None && IsStarted(db, step.m.runId, t)
    && ExpireIfDue(db.runs[step.m.runId], db.now) != db.runs[step.m.runId]
  }

  predicate Strands(db: Db, step: Step, t: Id) { StartsLate(db, step, t) || ExpiresUnder(db, step, t) }

  // ---- tool operations ----

  lemma StartTakesEffect(db: Db, user: Id, r: Id, session: string, t: Id, token: string, v: int, sig: Signature)
    requires !IsStarted(db, r, t)
    ensures IsStarted(Start(db, user, r, session, t, token, v, sig).0, r, t)
       <==> Starts(db, user, r, session, t, token, v, sig)
  {
  }

  predicate Runs(db: Db, t: Id) { t in db.tools && db.tools[t].status == Started }

  lemma ProposeStartsNothing(db: Db, user: Id, r: Id, session: string, v: int, sig: Signature, t: Id, token: string,
                             mutating: bool, planMode: bool, u: Id)
    requires Runs(Propose(db, user, r, session, v, sig, t, token, mutating, planMode).0, u)
    ensures Runs(db, u)
  {
  }

  lemma BeatStartsNothing(db: Db, user: Id, r: Id, session: string, t: Id, token: string, u: Id)
    requires Runs(Beat(db, user, r, session, t, token).0, u)
    ensures Runs(db, u)
  {
  }

  lemma CancelStartsNothing(db: Db, user: Id, r: Id, session: string, t: Id, token: string, u: Id)
    requires Runs(CancelTool(db, user, r, session, t, token).0, u)
    ensures Runs(db, u)
  {
  }

  lemma ResultStartsNothing(limits: Limits, db: Db, user: Id, r: Id, session: string, t: Id, token: string,
                            submission: Submission, blockedReason: string, clientHash: Option<ResultHash>, u: Id)
    requires Runs(Result(limits, db, user, r, session, t, token, submission, blockedReason, clientHash).0, u)
    ensures Runs(db, u)
  {
  }

  lemma {:induction false} TimeOutAllStartsNothing(db: Db, rows: seq<Id>, u: Id)
    requires Runs(TimeOutAll(db, rows), u)
    ensures Runs(db, u)
    decreases |rows|
  {
    if rows != [] { TimeOutAllStartsNothing(TimeOut(db, rows[0]), rows[1..], u); }
  }

  /** Only a start makes a tool started. */
  lemma OnlyStartsStart(limits: Limits, db: Db, step: Step, u: Id)
    requires !step.DoStart? && Runs(Do(limits, db, step).0, u)
    ensures Runs(db, u)
  {
    match step
    case DoPropose(user, r, s, v, sig, t, token, mutating, plan) =>
      ProposeStartsNothing(db, user, r, s, v, sig, t, token, mutating, plan, u);
    case DoBeat(user, r, s, t, token) => BeatStartsNothing(db, user, r, s, t, token, u);
    case DoCancelTool(user, r, s, t, token) => CancelStartsNothing(db, user, r, s, t, token, u);
    case DoResult(user, r, s, t, token, sub, reason, h) =>
      ResultStartsNothing(limits, db, user, r, s, t, token, sub, reason, h, u);
    case DoCommit(m) => CommitSparesTools(limits, db, m);
    case DoReconcile(timeout, rows) => if StaleFetch(db, timeout, rows) { TimeOutAllStartsNothing(db, rows, u); }
    case _ =>
  }

  /** A tool operation that leaves a row alone leaves it outliving its run or not as before. */
  lemma LocalSparesOutliving(a: Db, b: Db, r: Id, t: Id, u: Id)
    requires Local(a, b, r, t) && (u != t || (u in a.tools && u in b.tools && a.tools[u].status == b.tools[u].status
                                              && a.tools[u].runId == b.tools[u].runId))
    ensures Outlives(b, u) <==> Outlives(a, u)
  {
  }

  lemma StartStrands(limits: Limits, db: Db, step: Step, t: Id)
    requires Inv(db) && !Outlives(db, t) && step.DoStart?
    ensures Outlives(Do(limits, db, step).0, t) <==> StartsLate(db, step, t)
  {
    var d := Do(limits, db, step).0;
    ToolStepIsLocal(limits, db, step);
    if step.toolId != t {
      LocalSparesOutliving(db, d, step.runId, step.toolId, t);
    } else if !IsStarted(db, step.runId, t) {
      StartTakesEffect(db, step.user, step.runId, step.session, t, step.token, step.expectedVersion,
                       step.expectedSignature);
    }
  }

  // ---- other steps ----

  /** A step that is no start and does not act on the tool's run strands nothing. */
  lemma OthersStrandNothing(limits: Limits, db: Db, step: Step, t: Id)
    requires Inv(db) && !Outlives(db, t) && !step.DoStart?
    requires step.DoCommit? && t in db.tools ==> step.m.runId != db.tools[t].runId
    ensures !Outlives(Do(limits, db, step).0, t)
  {
    var d := Do(limits, db, step).0;
    if Runs(d, t) {
      OnlyStartsStart(limits, db, step, t);
      assert ToolOk(db, t);
      StepKeeps(limits, db, step);
      assert ToolStep(db, d, t);
      OnlyCommitsMoveState(limits, db, step, db.tools[t].runId);
    }
  }

  lemma WithATool(db: Db, r: Id, t: Id)
    requires IsStarted(db, r, t)
    ensures HasStarted(db, r, None)
  {
  }

  /** While a tool is started, acting on a run does not end it. */
  lemma ActingEndsNoBusyRun(db: Db, m: Mutation)
    requires m.runId in db.runs && (m.Consume? ==> m.approvalId in db.approvals) && HasStarted(db, m.runId, None)
    requires Perform(db, m).Act?
    ensures var d := Perform(db, m).db;
      m.runId in d.runs && (TerminalRun(d.runs[m.runId].state) <==> TerminalRun(db.runs[m.runId].state))
  {
  }

  lemma CommitStrands(limits: Limits, db: Db, m: Mutation, t: Id)
    requires IsStarted(db, m.runId, t) && m.runId in db.runs && !TerminalRun(db.runs[m.runId].state)
    ensures Outlives(Commit(limits, db, m).0, t)
       <==> Admission(db, m) == None && ExpireIfDue(db.runs[m.runId], db.now) != db.runs[m.runId]
  {
    CommitSparesTools(limits, db, m);
    if Admission(db, m) == None {
      var expired := PutRun(db, m.runId, ExpireIfDue(db.runs[m.runId], db.now));
      WithATool(expired, m.runId, t);
      if Perform(expired, m).Act? { ActingEndsNoBusyRun(expired, m); }
    }
  }

  /**
    A tool comes to outlive its run exactly through a start on a terminal run, or through a request on the run that
    finds it due while the tool is started.
  */
  lemma StrandedIff(limits: Limits, db: Db, step: Step, t: Id)
    requires Inv(db) && !Outlives(db, t)
    ensures Outlives(Do(limits, db, step).0, t) <==> Strands(db, step, t)
  {
    if step.DoStart? {
      StartStrands(limits, db, step, t);
    } else if step.DoCommit? && IsStarted(db, step.m.runId, t) {
      assert ToolOk(db, t);
      CommitStrands(limits, db, step.m, t);
    } else if step.DoCommit? {
      CommitSparesTools(limits, db, step.m);
      if !(t in db.tools && step.m.runId == db.tools[t].runId) { OthersStrandNothing(limits, db, step, t); }
    } else {
      OthersStrandNothing(limits, db, step, t);
    }
  }

  // ---- whole runs ----

  lemma NextStrandedIff(limits: Limits, now: Time, steps: seq<Step>, i: nat, t: Id)
    requires i < |steps| && !Outlives(At(limits, Empty(now), steps, i), t)
    ensures Outlives(At(limits, Empty(now), steps, i + 1), t)
       <==> Strands(At(limits, Empty(now), steps, i), steps[i], t)
  {
    LaterFollows(limits, Empty(now), steps, i, i);
    AtNext(limits, Empty(now), steps, i);
    StrandedIff(limits, At(limits, Empty(now), steps, i), steps[i], t);
  }

  lemma {:induction false} NeverStranded(limits: Limits, now: Time, steps: seq<Step>, n: nat, t: Id)
    requires n <= |steps| && forall i | 0 <= i < n :: !Strands(At(limits, Empty(now), steps, i), steps[i], t)
    ensures !Outlives(At(limits, Empty(now), steps, n), t)
  {
    if n > 0 {
      NeverStranded(limits, now, steps, n - 1, t);
      NextStrandedIff(limits, now, steps, n - 1, t);
    }
  }

  /** Over any run: a tool never outlives its run exactly if no step meets one of the two guards. */
  lemma NeverOutlivesIff(limits: Limits, now: Time, steps: seq<Step>, t: Id)
    ensures (forall i | 0 <= i <= |steps| :: !Outlives(At(limits, Empty(now), steps, i), t))
       <==> forall i | 0 <= i < |steps| :: !Strands(At(limits, Empty(now), steps, i), steps[i], t)
  {
    if forall i | 0 <= i <= |steps| :: !Outlives(At(limits, Empty(now), steps, i), t) {
      forall i | 0 <= i < |steps| ensures !Strands(At(limits, Empty(now), steps, i), steps[i], t) {
        NextStrandedIff(limits, now, steps, i, t);
      }
    }
    if forall i | 0 <= i < |steps| :: !Strands(At(limits, Empty(now), steps, i), steps[i], t) {
      forall i | 0 <= i <= |steps| ensures !Outlives(At(limits, Empty(now), steps, i), t) {
        NeverStranded(limits, now, steps, i, t);
      }
    }
  }
}
