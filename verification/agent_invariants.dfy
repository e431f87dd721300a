/** What every committed state satisfies, and how one committed state may follow another. */
module AgentInvariants {
  import opened Options
  import opened AgentStore
  import opened AgentProtocol

  // ---- the state invariant ----

  predicate About(kind: EventKind, t: Id) {
    (kind.ToolClaimedStarted? || kind.ToolFinished?) && kind.toolId == t
  }

  /** The life of one tool as its run's log tells it. */
  function History(log: seq<Event>, t: Id): seq<EventKind> {
    if log == [] then []
    else
      var last := log[|log| - 1].kind;
      History(log[..|log| - 1], t) + (if About(last, t) then [last] else [])
  }

  lemma HistoryOfAppend(log: seq<Event>, e: Event, t: Id)
    ensures History(log + [e], t) == History(log, t) + (if About(e.kind, t) then [e.kind] else [])
  {
    assert (log + [e])[..|log|] == log;
  }

  /** The life of one tool as its row tells it: claimed or not, finished how or not at all. */
  function RowHistory(db: Db, r: Id, t: Id): seq<EventKind> {
    if !ToolOfRun(db, r, t) then []
    else (if db.tools[t].claimedAt.Some? then [ToolClaimedStarted(t)] else [])
         + (if TerminalTool(db.tools[t].status) then [ToolFinished(t, db.tools[t].status)] else [])
  }

  predicate ToolLogged(db: Db, r: Id, t: Id) {
    History(Log(db, r), t) == RowHistory(db, r, t)
  }

  /** Numbered 1..run_event_seq without gaps, versions never falling along the log or above the run's. */
  predicate Numbered(run: Run, log: seq<Event>) {
    && |log| == run.eventSeq
    && (forall i | 0 <= i < |log| :: log[i].seqNo == i + 1 && log[i].version <= run.version)
    && (forall i, j | 0 <= i <= j < |log| :: log[i].version <= log[j].version)
  }

  predicate RunNumbered(db: Db, r: Id) {
    r in db.runs && Numbered(db.runs[r], Log(db, r))
  }

  predicate SessionBound(run: Run) {
    run.workspace.session.Some? && run.workspace.session.value != ""
  }

  predicate RowOk(tool: Tool) {
    && (tool.status == Proposed ==> tool.claimedAt == None && tool.startedAt == None)
    && (tool.status == Started ==> tool.claimedAt.Some? && tool.startedAt.Some? && tool.heartbeatAt.Some?)
    && (TerminalTool(tool.status) ==> tool.finishedAt.Some?)
    && (ResultStatus(tool.status) ==> (tool.response.Some? <==> tool.claimedAt.Some?))
  }

  predicate ToolOk(db: Db, t: Id) {
    && t in db.tools && RowOk(db.tools[t])
    && db.tools[t].runId in db.runs && SessionBound(db.runs[db.tools[t].runId])
  }

  ghost predicate RunsNumbered(db: Db) {
    && db.events.Keys <= db.runs.Keys
    && forall r {:trigger RunNumbered(db, r)} | r in db.runs :: RunNumbered(db, r)
  }

  ghost predicate ToolsLogged(db: Db) {
    forall r, t {:trigger ToolLogged(db, r, t)} | r in db.runs :: ToolLogged(db, r, t)
  }

  ghost predicate ToolsOk(db: Db) {
    forall t {:trigger ToolOk(db, t)} | t in db.tools :: ToolOk(db, t)
  }

  /** The partial unique index ux_one_started_tool_per_run. */
  ghost predicate OneStarted(db: Db) {
    forall r, t, u | IsStarted(db, r, t) && IsStarted(db, r, u) :: t == u
  }

  /** Between transactions nothing holds a lease and no request is half recorded. */
  predicate Settled(db: Db) {
    && db.leases == map[]
    && forall k | k in db.replays :: db.replays[k].CompletedReplay?
  }

  ghost predicate Inv(db: Db) {
    && RunsNumbered(db) && ToolsLogged(db) && ToolsOk(db) && OneStarted(db) && Settled(db)
    && ScanAgrees(db.approvals, db.scan)
  }

  // ---- the step relation ----

  predicate RunFollows(a: Run, b: Run) {
    && a.owner == b.owner
    && a.version <= b.version
    && (a.state != b.state ==> a.version < b.version)
    && (TerminalRun(a.state) ==> b.state == a.state)
  }

  predicate RunStep(a: Db, b: Db, r: Id) {
    && r in a.runs && r in b.runs
    && RunFollows(a.runs[r], b.runs[r])
    && Log(a, r) <= Log(b, r)
    && (HasTool(a, r) ==> b.runs[r].workspace.session == a.runs[r].workspace.session)
  }

  function Progress(s: ToolStatus): nat {
    if s.Proposed? then 0 else if s.Started? then 1 else 2
  }

  predicate ToolFollows(a: Tool, b: Tool) {
    && a.runId == b.runId && a.token == b.token
    && Progress(a.status) <= Progress(b.status)
    && (TerminalTool(a.status) ==> b == a)
  }

  predicate ToolStep(a: Db, b: Db, t: Id) {
    t in a.tools && t in b.tools && ToolFollows(a.tools[t], b.tools[t])
  }

  predicate ReplayStep(a: Db, b: Db, k: ReplayKey) {
    k in a.replays && k in b.replays && (a.replays[k].CompletedReplay? ==> b.replays[k] == a.replays[k])
  }

  ghost predicate Follows(a: Db, b: Db) {
    && a.now <= b.now
    && (forall r {:trigger RunStep(a, b, r)} | r in a.runs :: RunStep(a, b, r))
    && (forall t {:trigger ToolStep(a, b, t)} | t in a.tools :: ToolStep(a, b, t))
    && (forall k {:trigger ReplayStep(a, b, k)} | k in a.replays :: ReplayStep(a, b, k))
  }

  ghost predicate Keeps(a: Db, b: Db) {
    Inv(a) ==> Inv(b) && Follows(a, b)
  }

  lemma FollowsTransitive(a: Db, b: Db, c: Db)
    requires Follows(a, b) && Follows(b, c)
    ensures Follows(a, c)
  {
    forall r | r in a.runs ensures RunStep(a, c, r) {
      assert RunStep(a, b, r) && RunStep(b, c, r);
      if HasTool(a, r) {
        var t :| t in a.tools && a.tools[t].runId == r;
        assert ToolStep(a, b, t);
      }
    }
    forall t | t in a.tools ensures ToolStep(a, c, t) {
      assert ToolStep(a, b, t) && ToolStep(b, c, t);
    }
    forall k | k in a.replays ensures ReplayStep(a, c, k) {
      assert ReplayStep(a, b, k) && ReplayStep(b, c, k);
    }
  }

  // ---- building blocks ----

  lemma SameNumbers(a: Db, b: Db)
    requires RunsNumbered(a) && a.events == b.events && a.runs.Keys == b.runs.Keys
    requires forall r | r in a.runs ::
               a.runs[r].eventSeq == b.runs[r].eventSeq && a.runs[r].version <= b.runs[r].version
    ensures RunsNumbered(b)
  {
    forall r | r in b.runs ensures RunNumbered(b, r) { assert RunNumbered(a, r); }
  }

  lemma SameLogs(a: Db, b: Db)
    requires ToolsLogged(a) && a.tools == b.tools && a.events == b.events && a.runs.Keys == b.runs.Keys
    ensures ToolsLogged(b)
  {
    forall r, t | r in b.runs ensures ToolLogged(b, r, t) { assert ToolLogged(a, r, t); }
  }

  /** Tool rows stay in order when only run rows change and bound sessions stay bound. */
  lemma SameTools(a: Db, b: Db)
    requires ToolsOk(a) && OneStarted(a) && a.tools == b.tools && a.runs.Keys <= b.runs.Keys
    requires forall r | r in a.runs && HasTool(a, r) ::
               b.runs[r].workspace.session == a.runs[r].workspace.session
    ensures ToolsOk(b) && OneStarted(b)
  {
    forall t | t in b.tools ensures ToolOk(b, t) {
      assert ToolOk(a, t);
      assert HasTool(a, a.tools[t].runId);
    }
    forall r, t, u | IsStarted(b, r, t) && IsStarted(b, r, u) ensures t == u {
      assert IsStarted(a, r, t) && IsStarted(a, r, u);
    }
  }

  /** Tool rows stay in order when one row changes and does not become a second started one. */
  lemma OneToolChanged(a: Db, b: Db, t: Id, row: Tool)
    requires ToolsOk(a) && OneStarted(a) && b.tools == a.tools[t := row]
    requires forall r | r in a.runs :: r in b.runs && b.runs[r].workspace == a.runs[r].workspace
    requires row.runId in a.runs && SessionBound(a.runs[row.runId]) && RowOk(row)
    requires row.status == Started ==>
               IsStarted(a, row.runId, t) || !HasStarted(a, row.runId, None)
    ensures ToolsOk(b) && OneStarted(b)
  {
    forall u | u in b.tools ensures ToolOk(b, u) { assert u != t ==> ToolOk(a, u); }
    forall r, u, v | IsStarted(b, r, u) && IsStarted(b, r, v) ensures u == v {
      assert u != t ==> IsStarted(a, r, u);
      assert v != t ==> IsStarted(a, r, v);
    }
  }

  /** Replacing a run row without touching its event counter. */
  lemma PutRunKeeps(db: Db, r: Id, run: Run)
    requires Inv(db) && r in db.runs && RunFollows(db.runs[r], run) && run.eventSeq == db.runs[r].eventSeq
    requires HasTool(db, r) ==> run.workspace.session == db.runs[r].workspace.session
    ensures Inv(PutRun(db, r, run)) && Follows(db, PutRun(db, r, run))
  {
    SameNumbers(db, PutRun(db, r, run));
    SameLogs(db, PutRun(db, r, run));
    SameTools(db, PutRun(db, r, run));
  }

  lemma NumberedAfter(db: Db, d: Db, r: Id, version: nat, kind: EventKind)
    requires RunsNumbered(db) && r in db.runs && version == db.runs[r].version
    requires d.runs == db.runs[r := db.runs[r].(eventSeq := db.runs[r].eventSeq + 1)]
    requires d.events == db.events[r := Log(db, r) + [Event(version, db.runs[r].eventSeq + 1, kind)]]
    ensures RunsNumbered(d)
  {
    forall q | q in d.runs ensures RunNumbered(d, q) {
      assert RunNumbered(db, q);
    }
  }

  /** One event at the end of one log adds that event to the life of the tool it is about. */
  lemma LoggedAfter(db: Db, d: Db, r: Id, e: Event, q: Id, t: Id)
    requires ToolLogged(db, q, t) && d.events == db.events[r := Log(db, r) + [e]]
    requires RowHistory(d, q, t) == RowHistory(db, q, t) + (if q == r && About(e.kind, t) then [e.kind] else [])
    ensures ToolLogged(d, q, t)
  {
    HistoryOfAppend(Log(db, r), e, t);
  }

  /** Appending an event about the run, not about a tool's life. */
  lemma RunEventKeeps(db: Db, r: Id, version: nat, kind: EventKind)
    requires Inv(db) && r in db.runs && version == db.runs[r].version
    requires kind.RunTransitionEvent? || kind.ApprovalConsumedEvent?
    ensures Inv(AppendEvent(db, r, version, kind)) && Follows(db, AppendEvent(db, r, version, kind))
  {
    var d := AppendEvent(db, r, version, kind);
    NumberedAfter(db, d, r, version, kind);
    forall q, t | q in d.runs ensures ToolLogged(d, q, t) {
      assert ToolLogged(db, q, t);
      LoggedAfter(db, d, r, Event(version, db.runs[r].eventSeq + 1, kind), q, t);
    }
    SameTools(db, d);
  }

  /** A tool row moves on (or appears) as `kind` reports. */
  predicate Reported(db: Db, t: Id, row: Tool, kind: EventKind) {
    match kind
    case ToolClaimedStarted(u) =>
      u == t && t in db.tools && db.tools[t].status == Proposed && row.status == Started
    case ToolFinished(u, s) =>
      && u == t && row.status == s && TerminalTool(s)
      && row.claimedAt == (if t in db.tools then db.tools[t].claimedAt else None)
    case _ => false
  }

  lemma RowHistoryAfter(db: Db, d: Db, r: Id, t: Id, row: Tool, kind: EventKind, q: Id, u: Id)
    requires row.runId == r && RowOk(row) && Reported(db, t, row, kind)
    requires t in db.tools ==> db.tools[t].runId == r && !TerminalTool(db.tools[t].status) && RowOk(db.tools[t])
    requires d.tools == db.tools[t := row]
    ensures RowHistory(d, q, u) == RowHistory(db, q, u) + (if q == r && About(kind, u) then [kind] else [])
  {
  }

  /** Changing (or adding) a tool row together with the one event that reports it. */
  lemma ToolEventKeeps(db: Db, r: Id, t: Id, row: Tool, kind: EventKind)
    requires Inv(db) && r in db.runs && SessionBound(db.runs[r])
    requires row.runId == r && RowOk(row) && Reported(db, t, row, kind)
    requires t in db.tools ==> ToolFollows(db.tools[t], row) && !TerminalTool(db.tools[t].status)
    requires row.status == Started ==> !HasStarted(db, r, None)
    ensures Keeps(db, AppendEvent(PutTool(db, t, row), r, db.runs[r].version, kind))
  {
    var d := AppendEvent(PutTool(db, t, row), r, db.runs[r].version, kind);
    assert t in db.tools ==> ToolOk(db, t);
    NumberedAfter(db, d, r, db.runs[r].version, kind);
    forall q, u | q in d.runs ensures ToolLogged(d, q, u) {
      assert ToolLogged(db, q, u);
      RowHistoryAfter(db, d, r, t, row, kind, q, u);
      LoggedAfter(db, d, r, Event(db.runs[r].version, db.runs[r].eventSeq + 1, kind), q, u);
    }
    OneToolChanged(db, d, t, row);
  }

  /** Adding or refreshing a row without an event: proposals and heartbeats. */
  lemma QuietToolKeeps(db: Db, r: Id, t: Id, row: Tool)
    requires Inv(db) && r in db.runs && SessionBound(db.runs[r]) && row.runId == r && RowOk(row)
    requires if t in db.tools
             then db.tools[t].runId == r && db.tools[t].status == row.status == Started
                  && db.tools[t].token == row.token
                  && db.tools[t].claimedAt == row.claimedAt
             else row.status == Proposed
    ensures Keeps(db, PutTool(db, t, row))
  {
    var d := PutTool(db, t, row);
    SameNumbers(db, d);
    forall q, u | q in d.runs ensures ToolLogged(d, q, u) {
      assert ToolLogged(db, q, u);
      assert RowHistory(d, q, u) == RowHistory(db, q, u);
    }
    OneToolChanged(db, d, t, row);
  }

  /** What approval rows say plays no part in the invariant, nor does the clock. */
  lemma ApprovalsKeep(db: Db, approvals: map<Id, Approval>, scan: seq<Id>, now: Time)
    requires db.now <= now && ScanAgrees(approvals, scan)
    ensures Keeps(db, db.(approvals := approvals, scan := scan, now := now))
  {
    var d := db.(approvals := approvals, scan := scan, now := now);
    if Inv(db) {
      SameNumbers(db, d);
      SameLogs(db, d);
      SameTools(db, d);
    }
  }

  /** Recording a finished request and releasing its lease. */
  lemma ConcludeKeeps(limits: Limits, db: Db, m: Mutation, code: int, error: Option<Error>)
    requires m.runId in db.runs && KeyOf(m) !in db.replays
    ensures Keeps(db, Conclude(limits, db, m, code, error).0)
  {
    if Inv(db) {
      SameNumbers(db, Conclude(limits, db, m, code, error).0);
      SameLogs(db, Conclude(limits, db, m, code, error).0);
      SameTools(db, Conclude(limits, db, m, code, error).0);
    }
  }
}
