/** The version-and-signature fence: every answer describes the state it was committed with. */
module AgentFence {
  import opened Options
  import opened OrchestrationContracts
  import opened AgentStore
  import opened AgentProtocol
  import opened AgentInvariants
  import opened AgentSteps

  // ---- what the advertised actions depend on ----

  lemma HasStartedDependsOnTools(a: Db, b: Db, r: Id, ignore: Option<Id>)
    requires a.tools == b.tools
    ensures HasStarted(a, r, ignore) == HasStarted(b, r, ignore)
  {
    if HasStarted(a, r, ignore) {
      var t :| t in a.tools && IsStarted(a, r, t) && ignore != Some(t);
      assert IsStarted(b, r, t);
    }
    if HasStarted(b, r, ignore) {
      var t :| t in b.tools && IsStarted(b, r, t) && ignore != Some(t);
      assert IsStarted(a, r, t);
    }
  }

  /** Event counters, workspaces, replays, leases, logs and the clock do not influence them. */
  lemma ActionsDependOn(a: Db, b: Db, r: Id, run: Run, run': Run, ignore: Option<Id>)
    requires a.tools == b.tools && a.approvals == b.approvals && a.scan == b.scan
    requires run.state == run'.state && run.version == run'.version && run.resumable == run'.resumable
    ensures ValidActions(a, r, run, ignore) == ValidActions(b, r, run', ignore)
  {
    HasStartedDependsOnTools(a, b, r, ignore);
  }

  /** Leaving a tool out by name gives the actions of the state in which it has finished. */
  lemma IgnoringIsFinishing(a: Db, b: Db, r: Id, run: Run, run': Run, t: Id)
    requires t in a.tools && t in b.tools && b.tools == a.tools[t := b.tools[t]] && TerminalTool(b.tools[t].status)
    requires a.approvals == b.approvals && a.scan == b.scan
    requires run.state == run'.state && run.version == run'.version && run.resumable == run'.resumable
    ensures ValidActions(a, r, run, Some(t)) == ValidActions(b, r, run', None)
  {
    if HasStarted(a, r, Some(t)) {
      var u :| u in a.tools && IsStarted(a, r, u) && Some(t) != Some(u);
      assert IsStarted(b, r, u);
    }
    if HasStarted(b, r, None) {
      var u :| u in b.tools && IsStarted(b, r, u);
      assert IsStarted(a, r, u) && u != t;
    }
  }

  // ---- fresh answers ----

  /** The run a step is about. */
  function RunOf(step: Step): Id
    requires !step.DoReconcile? && !step.DoApprovals? && !step.DoTick?
  {
    if step.DoPreread? || step.DoCommit? then step.m.runId else step.runId
  }

  ghost predicate Fresh(db: Db, r: Id, env: Envelope) {
    && r in db.runs && env.state == db.runs[r].state
    && FenceHolds(db, r, env.version, env.signature)
    && env.actions == ValidActions(db, r, db.runs[r], None)
  }

  lemma ConcludeIsFresh(limits: Limits, db: Db, m: Mutation, code: int, error: Option<Error>)
    requires m.runId in db.runs
    ensures var (d, out) := Conclude(limits, db, m, code, error); out.Answered? && Fresh(d, m.runId, out.envelope)
  {
    var d := Conclude(limits, db, m, code, error).0;
    ActionsDependOn(db, d, m.runId, db.runs[m.runId], d.runs[m.runId], None);
  }

  lemma CommitAnswerIsFresh(limits: Limits, db: Db, m: Mutation)
    requires Commit(limits, db, m).1.Answered?
    ensures Fresh(Commit(limits, db, m).0, m.runId, Commit(limits, db, m).1.envelope)
  {
    var expired := PutRun(db, m.runId, ExpireIfDue(db.runs[m.runId], db.now));
    match Perform(expired, m)
    case Abort(e) =>
    case Decline(e) => ConcludeIsFresh(limits, expired, m, 409, Some(e));
    case Act(after) => ConcludeIsFresh(limits, after, m, 200, None);
  }

  lemma ResultAnswerIsFresh(limits: Limits, db: Db, step: Step)
    requires step.DoResult? && Do(limits, db, step).1.Answered?
    ensures Fresh(Do(limits, db, step).0, step.runId, Do(limits, db, step).1.envelope)
  {
    var d := Do(limits, db, step).0;
    IgnoringIsFinishing(db, d, step.runId, db.runs[step.runId], d.runs[step.runId], step.toolId);
  }

  lemma ProposeAnswerIsFresh(limits: Limits, db: Db, step: Step)
    requires step.DoPropose? && Do(limits, db, step).1.Answered?
    ensures Fresh(Do(limits, db, step).0, step.runId, Do(limits, db, step).1.envelope)
  {
  }

  lemma StartAnswerIsFresh(limits: Limits, db: Db, step: Step)
    requires step.DoStart? && Do(limits, db, step).1.Answered?
    ensures Fresh(Do(limits, db, step).0, step.runId, Do(limits, db, step).1.envelope)
  {
  }

  lemma CancelAnswerIsFresh(limits: Limits, db: Db, step: Step)
    requires step.DoCancelTool? && Do(limits, db, step).1.Answered?
    ensures Fresh(Do(limits, db, step).0, step.runId, Do(limits, db, step).1.envelope)
  {
  }

  /**
    Every non-replayed envelope, successful or not, carries the version and signature that deriving
    on the committed post-state gives.
  */
  lemma EveryAnswerIsFresh(limits: Limits, db: Db, step: Step)
    requires Do(limits, db, step).1.Answered?
    ensures Fresh(Do(limits, db, step).0, RunOf(step), Do(limits, db, step).1.envelope)
  {
    if step.DoCommit? {
      CommitAnswerIsFresh(limits, db, step.m);
    } else if step.DoResult? {
      ResultAnswerIsFresh(limits, db, step);
    } else if step.DoStart? {
      StartAnswerIsFresh(limits, db, step);
    } else if step.DoPropose? {
      ProposeAnswerIsFresh(limits, db, step);
    } else if step.DoCancelTool? {
      CancelAnswerIsFresh(limits, db, step);
    }
  }

  // ---- the next request ----

  predicate SaysStale(out: Outcome) { out.Answered? && out.envelope.error == Some(StaleProjection) }

  /**
    A request admitted with a fresh envelope, and nothing in between, is called stale exactly when
    the run has meanwhile passed its expiry time.
  */
  lemma FollowUpIsStaleIffDue(limits: Limits, db: Db, env: Envelope, m: Mutation)
    requires Fresh(db, m.runId, env) && m.expectedVersion == env.version && m.expectedSignature == env.signature
    requires Admission(db, m) == None
    ensures SaysStale(Commit(limits, db, m).1) <==> ExpireIfDue(db.runs[m.runId], db.now) != db.runs[m.runId]
  {
    var run := db.runs[m.runId];
    var expired := PutRun(db, m.runId, ExpireIfDue(run, db.now));
    if ExpireIfDue(run, db.now) == run {
      assert expired == db;
    } else {
      assert !FenceHolds(expired, m.runId, m.expectedVersion, m.expectedSignature);
    }
  }

  /**
    Proposals and starts do not look at the expiry time: let through by session, they are stale exactly when the
    fence fails.
  */
  lemma ToolCallIsStaleIff(limits: Limits, db: Db, step: Step)
    requires step.DoPropose? || step.DoStart?
    ensures SaysStale(Do(limits, db, step).1)
       <==> SessionHolds(db, step.user, step.runId, step.session)
            && !FenceHolds(db, step.runId, step.expectedVersion, step.expectedSignature)
  {
  }

  /** So a proposal or start that presents the answer of the call just before it is never stale. */
  lemma NextToolCallIsNotStale(limits: Limits, db: Db, first: Step, next: Step)
    requires Do(limits, db, first).1.Answered? && (next.DoPropose? || next.DoStart?) && next.runId == RunOf(first)
    requires var env := Do(limits, db, first).1.envelope;
      next.expectedVersion == env.version && next.expectedSignature == env.signature
    ensures !SaysStale(Do(limits, Do(limits, db, first).0, next).1)
  {
    EveryAnswerIsFresh(limits, db, first);
    ToolCallIsStaleIff(limits, Do(limits, db, first).0, next);
  }

  // ---- the stored answer of the reconciler ----

  lemma ActionCount(db: Db, r: Id, run: Run)
    requires !TerminalRun(run.state)
    ensures |ValidActions(db, r, run, None)|
         == |ApproveActions(db.approvals, db.scan, r, run.version)| + |RunLevelActions(run, HasStarted(db, r, None))|
  {
    var all := ApproveActions(db.approvals, db.scan, r, run.version)
               + RunLevelActions(run, HasStarted(db, r, None));
    CanonicalIsSortedPermutation(all);
    assert |Canonical(all)| == |multiset(Canonical(all))| == |multiset(NormAll(all))| == |all|;
  }

  lemma TimedOutAlone(db: Db, t: Id)
    requires Inv(db) && t in db.tools && db.tools[t].status == Started
    ensures db.tools[t].runId in db.runs
    ensures HasStarted(db, db.tools[t].runId, None) && !HasStarted(TimeOut(db, t), db.tools[t].runId, None)
  {
    assert ToolOk(db, t);
    var r := db.tools[t].runId;
    assert IsStarted(db, r, t);
    var d := TimeOut(db, t);
    if HasStarted(d, r, None) {
      var u :| u in d.tools && IsStarted(d, r, u);
      assert IsStarted(db, r, u);
    }
  }

  /** The reconciler describes the state before its own update: stale exactly for a running run. */
  lemma ReconcilerAnswerIsStaleIffRunning(db: Db, t: Id)
    requires Inv(db) && t in db.tools && db.tools[t].status == Started
    ensures var d := TimeOut(db, t);
      var r := db.tools[t].runId;
      && r in d.runs && d.tools[t].status == TimedOut && d.tools[t].response.Some?
      && d.tools[t].response.value.body.Whole?
      && (Fresh(d, r, d.tools[t].response.value.body.envelope) <==> db.runs[r].state != Running)
  {
    TimedOutAlone(db, t);
    var r := db.tools[t].runId;
    var d := TimeOut(db, t);
    if db.runs[r].state == Running {
      ActionCount(db, r, db.runs[r]);
      ActionCount(d, r, d.runs[r]);
    }
  }

  /** Run `r`, idle, and its tool `t` are as they were, and so is what its actions depend on. */
  predicate SameIdle(a: Db, b: Db, r: Id, t: Id) {
    && r in a.runs && r in b.runs && b.runs[r] == a.runs[r] && !HasStarted(a, r, None) && !HasStarted(b, r, None)
    && t in a.tools && t in b.tools && b.tools[t] == a.tools[t] && b.approvals == a.approvals && b.scan == a.scan
  }

  lemma TimeOutSparesIdleRun(db: Db, u: Id, r: Id, t: Id)
    requires r in db.runs && !HasStarted(db, r, None) && t in db.tools && db.tools[t].runId == r
    ensures SameIdle(db, TimeOut(db, u), r, t)
  {
    var c := TimeOut(db, u);
    assert !IsStarted(db, r, u) && !IsStarted(db, r, t);
    assert forall v | v in c.tools && IsStarted(c, r, v) :: IsStarted(db, r, v);
  }

  lemma {:induction false} TimeOutAllSparesIdleRun(db: Db, rows: seq<Id>, r: Id, t: Id)
    requires r in db.runs && !HasStarted(db, r, None) && t in db.tools && db.tools[t].runId == r
    ensures SameIdle(db, TimeOutAll(db, rows), r, t)
    decreases |rows|
  {
    if rows != [] {
      TimeOutSparesIdleRun(db, rows[0], r, t);
      TimeOutAllSparesIdleRun(TimeOut(db, rows[0]), rows[1..], r, t);
    }
  }

  /** What is fresh of an idle run stays fresh while the reconciler goes on. */
  lemma FreshWhileReconciling(db: Db, rows: seq<Id>, r: Id, t: Id, env: Envelope)
    requires r in db.runs && !HasStarted(db, r, None) && t in db.tools && db.tools[t].runId == r
    ensures Fresh(TimeOutAll(db, rows), r, env) <==> Fresh(db, r, env)
  {
    TimeOutAllSparesIdleRun(db, rows, r, t);
  }

  lemma OtherRunIsSpared(db: Db, u: Id, t: Id)
    requires t in db.tools && db.tools[t].runId in db.runs && u != t
    ensures var d, r := TimeOut(db, u), db.tools[t].runId;
      t in d.tools && d.tools[t] == db.tools[t] && r in d.runs && d.runs[r].state == db.runs[r].state
  {
  }

  /**
    So of every row a reconciler step fetched: once the step is done, its stored answer is stale exactly if its run
    was running.
  */
  lemma {:induction false} StoredAnswersAreStaleIffRunning(db: Db, rows: seq<Id>, t: Id)
    requires Inv(db) && t in rows && t in db.tools && db.tools[t].status == Started
    ensures var d := TimeOutAll(db, rows);
      var r := db.tools[t].runId;
      && r in d.runs && r in db.runs && t in d.tools && d.tools[t].status == TimedOut && d.tools[t].response.Some?
      && d.tools[t].response.value.body.Whole?
      && (Fresh(d, r, d.tools[t].response.value.body.envelope) <==> db.runs[r].state != Running)
    decreases |rows|
  {
    var c, rest := TimeOut(db, rows[0]), rows[1..];
    if rows[0] == t {
      var r := db.tools[t].runId;
      ReconcilerAnswerIsStaleIffRunning(db, t);
      TimedOutAlone(db, t);
      TimeOutKeeps(db, t);
      TimeOutAllSparesIdleRun(c, rest, r, t);
      FreshWhileReconciling(c, rest, r, t, c.tools[t].response.value.body.envelope);
    } else {
      assert ToolOk(db, t);
      TimeOutKeeps(db, rows[0]);
      OtherRunIsSpared(db, rows[0], t);
      assert t in rest;
      StoredAnswersAreStaleIffRunning(c, rest, t);
    }
  }
}
