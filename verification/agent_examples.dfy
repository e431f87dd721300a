/** Runs that reach the states one might not expect. */
module AgentExamples {
  import opened Options
  import opened OrchestrationContracts
  import opened AgentStore
  import opened AgentProtocol
  import opened AgentSteps
  import opened AgentFence
  import opened AgentActions
  import opened AgentChecks
  import opened AgentTerminal

  /** Who calls, on which run and tool. */
  datatype Ids = Ids(user: Id, run: Id, session: string, tool: Id, token: string)

  function Signed(db: Db, r: Id): Signature
    requires r in db.runs
  {
    ValidActionsSignature(db.runs[r].version, ValidActions(db, r, db.runs[r], None))
  }

  /** The one run, bound to its session, without tools, replays or leases. */
  predicate Bound(db: Db, ids: Ids, state: RunState, expiresAt: Option<Time>, now: Time) {
    && db.runs.Keys == {ids.run} && db.tools == map[] && db.replays == map[] && db.leases == map[] && db.now == now
    && SessionHolds(db, ids.user, ids.run, ids.session)
    && db.runs[ids.run].state == state && db.runs[ids.run].expiresAt == expiresAt
  }

  /** A run may be created in any state; the source leaves that to its caller. */
  lemma BoundRun(limits: Limits, now: Time, ids: Ids, state: RunState, expiresAt: Option<Time>)
    returns (steps: seq<Step>, d: Db)
    requires ids.session != ""
    ensures d == Exec(limits, Empty(now), steps) && Bound(d, ids, state, expiresAt, now)
  {
    var create := DoCreateRun(ids.user, ids.run, state, false, expiresAt);
    var register := DoRegister(ids.user, ids.run, ids.session, "", "", None);
    var a := Do(limits, Empty(now), create).0;
    ExecOneMore(limits, Empty(now), [], create);
    ExecOneMore(limits, Empty(now), [] + [create], register);
    steps, d := [] + [create] + [register], Do(limits, a, register).0;
    assert !HasTool(a, ids.run);
  }

  function Proposal(db: Db, ids: Ids, mutating: bool, planMode: bool): Step
    requires ids.run in db.runs
  {
    DoPropose(ids.user, ids.run, ids.session, db.runs[ids.run].version, Signed(db, ids.run),
              ids.tool, ids.token, mutating, planMode)
  }

  function Claim(db: Db, ids: Ids): Step
    requires ids.run in db.runs
  {
    DoStart(ids.user, ids.run, ids.session, ids.tool, ids.token, db.runs[ids.run].version, Signed(db, ids.run))
  }

  /** The run and its session are as before, and no request has been recorded. */
  predicate SameRun(a: Db, b: Db, r: Id) {
    && r in a.runs && r in b.runs && b.runs[r] == a.runs[r].(eventSeq := b.runs[r].eventSeq)
    && b.replays == a.replays && b.leases == a.leases && b.now == a.now
  }

  lemma Proposing(limits: Limits, b: Db, ids: Ids, mutating: bool, planMode: bool)
    requires SessionHolds(b, ids.user, ids.run, ids.session) && ids.tool !in b.tools
    ensures var d := Do(limits, b, Proposal(b, ids, mutating, planMode)).0;
      SameRun(b, d, ids.run) && d.tools == b.tools[ids.tool := ProposedRow(b, ids.run, ids.token, mutating, planMode)]
  {
  }

  lemma Claiming(limits: Limits, b: Db, ids: Ids)
    requires SessionHolds(b, ids.user, ids.run, ids.session) && ToolOfRun(b, ids.run, ids.tool)
    requires b.tools[ids.tool].token == ids.token && b.tools[ids.tool].status == Proposed
    requires !HasStarted(b, ids.run, None)
    ensures var d := Do(limits, b, Claim(b, ids)).0; SameRun(b, d, ids.run) && IsStarted(d, ids.run, ids.tool)
  {
  }

  /** In plan mode a mutating proposal leaves a row that the constraints refuse. */
  lemma PlanModeRowIsReachable(limits: Limits, now: Time, ids: Ids, state: RunState) returns (steps: seq<Step>)
    requires ids.session != ""
    ensures var d := Exec(limits, Empty(now), steps); ids.tool in d.tools && !MeetsChecks(d.tools[ids.tool])
  {
    var b: Db;
    steps, b := BoundRun(limits, now, ids, state, None);
    Proposing(limits, b, ids, true, true);
    ExecOneMore(limits, Empty(now), steps, Proposal(b, ids, true, true));
    steps := steps + [Proposal(b, ids, true, true)];
  }

  lemma NothingStarted(c: Db, ids: Ids, row: Tool)
    requires c.tools == map[ids.tool := row] && row.status == Proposed
    ensures !HasStarted(c, ids.run, None)
  {
  }

  lemma StartedOn(limits: Limits, begun: seq<Step>, b: Db, ids: Ids, state: RunState, expiresAt: Option<Time>,
                  now: Time)
    returns (steps: seq<Step>, d: Db)
    requires b == Exec(limits, Empty(now), begun) && Bound(b, ids, state, expiresAt, now)
    ensures d == Exec(limits, Empty(now), steps) && SameRun(b, d, ids.run) && IsStarted(d, ids.run, ids.tool)
  {
    var propose := Proposal(b, ids, false, false);
    var c := Do(limits, b, propose).0;
    Proposing(limits, b, ids, false, false);
    NothingStarted(c, ids, ProposedRow(b, ids.run, ids.token, false, false));
    Claiming(limits, c, ids);
    ExecOneMore(limits, Empty(now), begun, propose);
    ExecOneMore(limits, Empty(now), begun + [propose], Claim(c, ids));
    steps, d := begun + [propose] + [Claim(c, ids)], Do(limits, c, Claim(c, ids)).0;
  }

  function Cancel(db: Db, ids: Ids): Mutation
    requires ids.run in db.runs
  {
    Transition(ids.user, "", ids.run, "", db.runs[ids.run].version, Signed(db, ids.run), "cancel", "")
  }

  lemma Canceling(limits: Limits, c: Db, ids: Ids)
    requires OwnsRun(c, ids.user, ids.run) && c.replays == map[] && c.leases == map[] && !HasStarted(c, ids.run, None)
    requires c.runs[ids.run].state == Created && c.runs[ids.run].expiresAt == None
    ensures var d := Commit(limits, c, Cancel(c, ids)).0;
      && d.tools == c.tools && ids.run in d.runs && d.runs[ids.run].state == Canceled
      && d.runs[ids.run].owner == c.runs[ids.run].owner && d.runs[ids.run].workspace == c.runs[ids.run].workspace
  {
    AdvertisedIffEnabled(c, ids.run, c.runs[ids.run]);
    assert PutRun(c, ids.run, c.runs[ids.run]) == c;
    assert Perform(c, Cancel(c, ids)).Act?;
  }

  /** A tool proposed before its run was canceled can still be started, and then outlives the run. */
  lemma LateStartIsReachable(limits: Limits, now: Time, ids: Ids) returns (steps: seq<Step>)
    requires ids.session != ""
    ensures var d := Exec(limits, Empty(now), steps);
      Outlives(d, ids.tool) && d.runs[d.tools[ids.tool].runId].state == Canceled
  {
    var begun, b := BoundRun(limits, now, ids, Created, None);
    var propose := Proposal(b, ids, false, false);
    var c := Do(limits, b, propose).0;
    Proposing(limits, b, ids, false, false);
    NothingStarted(c, ids, ProposedRow(b, ids.run, ids.token, false, false));
    Canceling(limits, c, ids);
    var d := Commit(limits, c, Cancel(c, ids)).0;
    HasStartedDependsOnTools(c, d, ids.run, None);
    Claiming(limits, d, ids);
    ExecOneMore(limits, Empty(now), begun, propose);
    ExecOneMore(limits, Empty(now), begun + [propose], DoCommit(Cancel(c, ids)));
    ExecOneMore(limits, Empty(now), begun + [propose] + [DoCommit(Cancel(c, ids))], Claim(d, ids));
    steps := begun + [propose] + [DoCommit(Cancel(c, ids))] + [Claim(d, ids)];
  }

  /** And any request of the owner on a due run, whatever it asks for, strands the tool started on it. */
  lemma ExpiryIsReachable(limits: Limits, now: Time, ids: Ids, action: string, v: int, sig: Signature)
    returns (steps: seq<Step>)
    requires ids.session != ""
    ensures var d := Exec(limits, Empty(now), steps);
      Outlives(d, ids.tool) && ids.run in d.runs && d.runs[ids.run].state == Expired
  {
    var b, d: Db;
    steps, b := BoundRun(limits, now, ids, Running, Some(now));
    steps, d := StartedOn(limits, steps, b, ids, Running, Some(now), now);
    var m := Transition(ids.user, "", ids.run, "", v, sig, action, "");
    ExecOneMore(limits, Empty(now), steps, DoCommit(m));
    steps := steps + [DoCommit(m)];
    CommitStrands(limits, d, m, ids.tool);
  }
}
