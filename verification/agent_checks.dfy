/** The CHECK constraints of the tool table, which the service itself does not look at. */
module AgentChecks {
  import opened Options
  import opened OrchestrationContracts
  import opened AgentStore
  import opened AgentProtocol
  import opened AgentInvariants
  import opened AgentSteps
  import opened AgentRuns

  /** Timestamps and stored answer as the status demands. */
  predicate MeetsChecks(tool: Tool) {
    && (tool.status == Proposed ==> tool.claimedAt == None && tool.startedAt == None)
    && (tool.status == Started ==> tool.claimedAt.Some? && tool.startedAt.Some?)
    && (TerminalTool(tool.status) ==> tool.finishedAt.Some?)
    && (ResultStatus(tool.status) ==> tool.response.Some?)
  }

  /** Finished without ever having been claimed. */
  predicate NeverClaimed(tool: Tool) { ResultStatus(tool.status) && tool.claimedAt == None }

  /** A mutating proposal of a new tool `t` in plan mode, with session and fence holding. */
  predicate Blocks(db: Db, step: Step, t: Id) {
    && step.DoPropose? && step.toolId == t && step.planMode && step.mutating && t !in db.tools
    && SessionHolds(db, step.user, step.runId, step.session)
    && FenceHolds(db, step.runId, step.expectedVersion, step.expectedSignature)
  }

  /** Step `i` was such a proposal. */
  predicate PlanModeBlock(limits: Limits, now: Time, steps: seq<Step>, i: nat, t: Id)
    requires i < |steps|
  {
    Blocks(At(limits, Empty(now), steps, i), steps[i], t)
  }

  /** These are the calls answered with the plan-mode error, and each inserts a row the constraints refuse. */
  lemma BlockedRowIsRefused(limits: Limits, db: Db, step: Step)
    requires step.DoPropose?
    ensures var (d, out) := Do(limits, db, step);
      Blocks(db, step, step.toolId) <==> out.Answered? && out.envelope.error == Some(ToolNotAllowedInPlanMode)
    ensures var d := Do(limits, db, step).0;
      Blocks(db, step, step.toolId) ==> HasNeverClaimed(d, step.toolId) && !MeetsChecks(d.tools[step.toolId])
  {
  }

  /** No such row comes about. */
  predicate Explained(a: Db, b: Db, t: Id) {
    t in b.tools && NeverClaimed(b.tools[t]) ==> t in a.tools && b.tools[t] == a.tools[t]
  }

  lemma ProposeExplains(limits: Limits, db: Db, step: Step)
    requires step.DoPropose?
    ensures Blocks(db, step, step.toolId) || Explained(db, Do(limits, db, step).0, step.toolId)
  {
  }

  lemma StartExplains(db: Db, user: Id, r: Id, session: string, t: Id, token: string, v: int, sig: Signature)
    ensures Explained(db, Start(db, user, r, session, t, token, v, sig).0, t)
  {
  }

  lemma BeatExplains(db: Db, user: Id, r: Id, session: string, t: Id, token: string)
    ensures Explained(db, Beat(db, user, r, session, t, token).0, t)
  {
  }

  lemma CancelExplains(db: Db, user: Id, r: Id, session: string, t: Id, token: string)
    ensures Explained(db, CancelTool(db, user, r, session, t, token).0, t)
  {
  }

  lemma ResultExplains(limits: Limits, db: Db, user: Id, r: Id, session: string, t: Id, token: string,
                       submission: Submission,
                       blockedReason: string, clientHash: Option<ResultHash>)
    requires Inv(db)
    ensures Explained(db, Result(limits, db, user, r, session, t, token, submission, blockedReason, clientHash).0, t)
  {
    if t in db.tools { assert ToolOk(db, t); }
  }

  lemma LocalExplains(a: Db, b: Db, r: Id, t: Id, u: Id)
    requires Local(a, b, r, t) && u != t
    ensures Explained(a, b, u)
  {
  }

  lemma ToolStepExplains(limits: Limits, db: Db, step: Step, t: Id)
    requires Inv(db) && OnTools(step)
    ensures Blocks(db, step, t) || Explained(db, Do(limits, db, step).0, t)
  {
    if step.toolId != t {
      ToolStepIsLocal(limits, db, step);
      LocalExplains(db, Do(limits, db, step).0, step.runId, step.toolId, t);
    } else {
      match step
      case DoPropose(_, _, _, _, _, _, _, _, _) => ProposeExplains(limits, db, step);
      case DoStart(u, r, s, _, token, v, sig) => StartExplains(db, u, r, s, t, token, v, sig);
      case DoBeat(u, r, s, _, token) => BeatExplains(db, u, r, s, t, token);
      case DoCancelTool(u, r, s, _, token) => CancelExplains(db, u, r, s, t, token);
      case DoResult(u, r, s, _, token, sub, reason, h) => ResultExplains(limits, db, u, r, s, t, token, sub, reason, h);
    }
  }

  lemma {:induction false} TimeOutAllExplains(db: Db, rows: seq<Id>, t: Id)
    requires Inv(db)
    ensures Explained(db, TimeOutAll(db, rows), t)
    decreases |rows|
  {
    if rows != [] {
      if t in db.tools { assert ToolOk(db, t); }
      TimeOutKeeps(db, rows[0]);
      TimeOutAllExplains(TimeOut(db, rows[0]), rows[1..], t);
    }
  }

  lemma OtherStepExplains(limits: Limits, db: Db, step: Step, t: Id)
    requires Inv(db) && !OnTools(step)
    ensures Explained(db, Do(limits, db, step).0, t)
  {
    if step.DoCommit? {
      CommitSparesTools(limits, db, step.m);
    } else if step.DoReconcile? {
      TimeOutAllExplains(db, step.rows, t);
    }
  }

  lemma StepExplains(limits: Limits, db: Db, step: Step, t: Id)
    requires Inv(db)
    ensures Blocks(db, step, t) || Explained(db, Do(limits, db, step).0, t)
  {
    if OnTools(step) { ToolStepExplains(limits, db, step, t); } else { OtherStepExplains(limits, db, step, t); }
  }

  lemma OneStepBack(limits: Limits, now: Time, steps: seq<Step>, i: nat, t: Id)
    requires i < |steps| && HasNeverClaimed(At(limits, Empty(now), steps, i + 1), t)
    ensures PlanModeBlock(limits, now, steps, i, t) || HasNeverClaimed(At(limits, Empty(now), steps, i), t)
  {
    LaterFollows(limits, Empty(now), steps, i, i + 1);
    AtNext(limits, Empty(now), steps, i);
    StepExplains(limits, At(limits, Empty(now), steps, i), steps[i], t);
  }

  predicate HasNeverClaimed(db: Db, t: Id) { t in db.tools && NeverClaimed(db.tools[t]) }

  /** Only plan mode leaves a row finished without having been claimed. */
  lemma {:induction false} NeverClaimedIsPlanMode(limits: Limits, now: Time, steps: seq<Step>, n: nat, t: Id)
    returns (i: nat)
    requires n <= |steps| && HasNeverClaimed(At(limits, Empty(now), steps, n), t)
    ensures i < n && PlanModeBlock(limits, now, steps, i, t)
  {
    if n > 0 {
      i := n - 1;
      OneStepBack(limits, now, steps, i, t);
      if !PlanModeBlock(limits, now, steps, i, t) { i := NeverClaimedIsPlanMode(limits, now, steps, n - 1, t); }
    }
  }

  lemma PlanModeBlockStays(limits: Limits, now: Time, steps: seq<Step>, i: nat, t: Id)
    requires i < |steps| && PlanModeBlock(limits, now, steps, i, t)
    ensures HasNeverClaimed(At(limits, Empty(now), steps, |steps|), t)
  {
    BlockedRowIsRefused(limits, At(limits, Empty(now), steps, i), steps[i]);
    AtNext(limits, Empty(now), steps, i);
    ToolRowsOverRuns(limits, now, steps, i + 1, |steps|, t);
  }

  /**
    In every reachable state a tool row meets the constraints exactly when no step was a mutating proposal of it in
    plan mode, let through by session and fence: under the schema that insert, and it alone, is refused.
  */
  lemma RowMeetsChecksIffNotPlanMode(limits: Limits, now: Time, steps: seq<Step>, t: Id)
    requires t in Exec(limits, Empty(now), steps).tools
    ensures MeetsChecks(Exec(limits, Empty(now), steps).tools[t])
       <==> forall i | 0 <= i < |steps| :: !PlanModeBlock(limits, now, steps, i, t)
  {
    assert steps[..|steps|] == steps;
    ReachableStatesAreOk(limits, now, steps);
    assert ToolOk(Exec(limits, Empty(now), steps), t);
    if i :| 0 <= i < |steps| && PlanModeBlock(limits, now, steps, i, t) {
      PlanModeBlockStays(limits, now, steps, i, t);
    } else if NeverClaimed(Exec(limits, Empty(now), steps).tools[t]) {
      var i := NeverClaimedIsPlanMode(limits, now, steps, |steps|, t);
    }
  }
}
