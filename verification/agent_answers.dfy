/** What each call leaves in the tables and answers, column by column. */
module AgentAnswers {
  import opened Options
  import opened OrchestrationContracts
  import opened AgentStore
  import opened AgentProtocol
  import opened AgentSteps
  import opened AgentActions

  predicate Over(s: RunState) { s == Completed || s == Failed || s == Canceled || s == Expired }

  /** The run has passed its expiry time and is not over. */
  predicate Due(run: Run, now: Time) { !Over(run.state) && run.expiresAt.Some? && run.expiresAt.value <= now }

  /** The row a request is decided on. */
  function Current(run: Run, now: Time): Run {
    if Due(run, now) then
      run.(state := Expired, reason := Some("expired_timeout"), resumable := false, version := run.version + 1)
    else run
  }

  predicate Busy(db: Db, r: Id) {
    exists t | t in db.tools :: db.tools[t].runId == r && db.tools[t].status == Started
  }

  lemma BusyIsStarted(db: Db, r: Id)
    ensures Busy(db, r) <==> HasStarted(db, r, None)
  {
    if HasStarted(db, r, None) {
      var t :| t in db.tools && IsStarted(db, r, t);
    }
    if Busy(db, r) {
      var t :| t in db.tools && db.tools[t].runId == r && db.tools[t].status == Started;
      assert IsStarted(db, r, t);
    }
  }

  lemma CurrentIsChecked(run: Run, now: Time)
    ensures ExpireIfDue(run, now) == Current(run, now)
  {
  }

  // ---- transitions ----

  lemma AcceptedTransitionIsNotDue(limits: Limits, db: Db, m: Mutation)
    requires m.Transition? && Commit(limits, db, m).1.Answered? && Commit(limits, db, m).1.code == 200
    ensures m.runId in db.runs && !Due(db.runs[m.runId], db.now) && Perform(db, m).Act?
    ensures Commit(limits, db, m) == Conclude(limits, Perform(db, m).db, m, 200, None)
  {
    var run := db.runs[m.runId];
    assert PutRun(db, m.runId, run) == db;
  }

  lemma PerformedTransition(db: Db, m: Mutation)
    requires m.Transition? && m.runId in db.runs && Perform(db, m).Act?
    ensures m.action in ActionNames(ValidActions(db, m.runId, db.runs[m.runId], None))
    ensures var moved := ApplyAction(db.runs[m.runId], m.action, HasStarted(db, m.runId, None), db.now);
      moved.Moved? && Perform(db, m).db
        == AppendEvent(PutRun(db, m.runId, moved.run), m.runId, moved.run.version, RunTransitionEvent(m.action))
  {
  }

  /** What a run-level action makes of a run row. */
  predicate Does(action: string, a: Run, b: Run, busy: bool, now: Time) {
    && (action == "resume" ==>
          && (a.state == Created || (a.state == Interrupted && a.resumable))
          && b == a.(state := Running, reason := None, version := a.version + 1))
    && (action == "cancel" ==>
          !Over(a.state) && b == if busy then a.(cancelRequestedAt := Some(now), version := a.version + 1)
                                 else a.(state := Canceled, reason := Some("canceled_user"), resumable := false,
                                         cancelRequestedAt := if a.cancelRequestedAt.Some? then a.cancelRequestedAt
                                                              else Some(now),
                                         cancelDisposition := Some("canceled_by_user"), version := a.version + 1))
    && (action == "handoff" ==> a.state == Running && !busy && b == a)
    && (action == "resume" || action == "cancel" || action == "handoff")
  }

  lemma AppliedDoes(db: Db, r: Id, run: Run, action: string)
    requires action in ActionNames(ValidActions(db, r, run, None))
    requires ApplyAction(run, action, HasStarted(db, r, None), db.now).Moved?
    ensures var busy := HasStarted(db, r, None);
      Does(action, run, ApplyAction(run, action, busy, db.now).run, busy, db.now)
  {
    AdvertisedIffEnabled(db, r, run);
  }

  /** Why a run-level action is refused: the run is not resumable, or its state or the name does not fit. */
  lemma RefusedBecause(run: Run, action: string, busy: bool, now: Time)
    requires ApplyAction(run, action, busy, now).Refused?
    ensures ApplyAction(run, action, busy, now).error
         == if action == "resume" && run.state == Interrupted then RunNotResumable else InvalidTransition
    ensures action == "resume" ==> run.state != Created && (run.state == Interrupted ==> !run.resumable)
    ensures action == "cancel" ==> Over(run.state)
    ensures action != "handoff"
  {
  }

  /** Recording an answer touches the replays and the leases only. */
  lemma ConcludingSpares(limits: Limits, p: Db, m: Mutation)
    requires m.runId in p.runs
    ensures var d := Conclude(limits, p, m, 200, None).0; p == d.(replays := p.replays, leases := p.leases)
  {
  }

  /** A run row is replaced and its event logged. */
  predicate RowReplaced(a: Db, d: Db, r: Id, row: Run, kind: EventKind) {
    && r in a.runs && d.runs == a.runs[r := row.(eventSeq := row.eventSeq + 1)]
    && d.tools == a.tools && d.scan == a.scan && d.now == a.now
    && d.events == a.events[r := (if r in a.events then a.events[r] else [])
                                 + [Event(row.version, row.eventSeq + 1, kind)]]
  }

  lemma ReplacedAndLogged(db: Db, r: Id, row: Run, kind: EventKind)
    requires r in db.runs
    ensures RowReplaced(db, AppendEvent(PutRun(db, r, row), r, row.version, kind), r, row, kind)
  {
    var counted := row.(eventSeq := row.eventSeq + 1);
    assert db.runs[r := row][r := counted] == db.runs[r := counted];
  }

  /**
    Every column of the run after an accepted transition: the request found it not due and did what its action says.
    Of everything else only the log changes, by one event.
  */
  lemma TransitionLeaves(limits: Limits, db: Db, m: Mutation) returns (row: Run)
    requires m.Transition? && Commit(limits, db, m).1.Answered? && Commit(limits, db, m).1.code == 200
    ensures m.runId in db.runs && !Due(db.runs[m.runId], db.now)
    ensures Does(m.action, db.runs[m.runId], row, Busy(db, m.runId), db.now)
    ensures var d := Commit(limits, db, m).0;
      RowReplaced(db, d, m.runId, row, RunTransitionEvent(m.action)) && d.approvals == db.approvals
  {
    var r := m.runId;
    AcceptedTransitionIsNotDue(limits, db, m);
    PerformedTransition(db, m);
    AppliedDoes(db, r, db.runs[r], m.action);
    BusyIsStarted(db, r);
    row := ApplyAction(db.runs[r], m.action, HasStarted(db, r, None), db.now).run;
    ReplacedAndLogged(db, r, row, RunTransitionEvent(m.action));
    ConcludingSpares(limits, Perform(db, m).db, m);
  }

  // ---- approvals ----

  lemma AcceptedConsumption(limits: Limits, db: Db, m: Mutation, c: Db)
    requires m.Consume? && Commit(limits, db, m).1.Answered? && Commit(limits, db, m).1.code == 200
    requires m.runId in db.runs && c == PutRun(db, m.runId, Current(db.runs[m.runId], db.now))
    ensures m.approvalId in db.approvals && Perform(c, m).Act?
    ensures Commit(limits, db, m) == Conclude(limits, Perform(c, m).db, m, 200, None)
  {
    CurrentIsChecked(db.runs[m.runId], db.now);
  }

  /** What a consumption makes of the run row it is decided on. */
  predicate Released(c: Run, b: Run) {
    b == c.(state := if c.state == AwaitingApproval then Running else c.state,
            reason := if c.state == AwaitingApproval then None else c.reason, version := c.version + 1)
  }

  lemma ApprovalReleases(c: Run)
    ensures Released(c, AfterApproval(c))
  {
  }

  /** Every column of the run and of the approval after an accepted consumption. */
  lemma ConsumptionLeaves(limits: Limits, db: Db, m: Mutation) returns (row: Run)
    requires m.Consume? && Commit(limits, db, m).1.Answered? && Commit(limits, db, m).1.code == 200
    ensures m.runId in db.runs && Released(Current(db.runs[m.runId], db.now), row)
    ensures RowReplaced(db, Commit(limits, db, m).0, m.runId, row, ApprovalConsumedEvent(m.approvalId, m.toolId))
    ensures m.approvalId in db.approvals
      && var approval := db.approvals[m.approvalId];
      && approval.runId == m.runId && approval.toolId == m.toolId && approval.decision == Approved
      && approval.consumedAt == None && approval.versionApproved + 1 == row.version
      && Commit(limits, db, m).0.approvals
           == db.approvals[m.approvalId := approval.(decision := Consumed, consumedAt := Some(db.now))]
  {
    var c := PutRun(db, m.runId, Current(db.runs[m.runId], db.now));
    AcceptedConsumption(limits, db, m, c);
    row := AfterApproval(c.runs[m.runId]);
    ApprovalReleases(c.runs[m.runId]);
    ConcludingSpares(limits, Perform(c, m).db, m);
  }

  // ---- refusals ----

  /** The fence: the current version, and the digest of it with the advertised list. */
  lemma FenceMeans(db: Db, r: Id, version: int, sig: Signature)
    requires r in db.runs
    ensures FenceHolds(db, r, version, sig)
       <==> db.runs[r].version == version && sig == Sha256(version, ValidActions(db, r, db.runs[r], None))
  {
    var run := db.runs[r];
    if !TerminalRun(run.state) {
      CanonicalIsIdempotent(ApproveActions(db.approvals, db.scan, r, run.version)
                            + RunLevelActions(run, HasStarted(db, r, None)));
    } else {
      assert Canonical([]) == [];
    }
  }

  predicate Entitled(db: Db, m: Mutation) {
    && m.runId in db.runs && db.runs[m.runId].owner == m.user
    && (m.Consume? ==> m.toolId in db.tools && db.tools[m.toolId].runId == m.runId)
  }

  predicate Approvable(db: Db, m: Mutation) {
    m.Consume? ==> m.approvalId in db.approvals && db.approvals[m.approvalId].runId == m.runId
                   && db.approvals[m.approvalId].toolId == m.toolId
  }

  /** No one else holds the run. */
  predicate Free(db: Db, r: Id) { r in db.leases ==> db.leases[r].expiresAt <= db.now }

  /** The key was used before, for something else or with an answer on record. */
  predicate Reused(db: Db, m: Mutation) { KeyOf(m) in db.replays && db.replays[KeyOf(m)].hash != HashOf(m) }
  predicate OnRecord(db: Db, m: Mutation) {
    KeyOf(m) in db.replays && db.replays[KeyOf(m)].hash == HashOf(m) && db.replays[KeyOf(m)].CompletedReplay?
  }

  /** A request is admitted exactly if none of these speaks against it; the first that does is the error raised. */
  lemma AdmittedIff(db: Db, m: Mutation)
    ensures var known, open := Entitled(db, m) && Approvable(db, m), Free(db, m.runId);
      && (Admission(db, m) == Some(InvalidTransition) <==> !Entitled(db, m))
      && (Admission(db, m) == Some(ApprovalRequired) <==> Entitled(db, m) && !Approvable(db, m))
      && (Admission(db, m) == Some(ActiveMutationInProgress) <==> known && !open)
      && (Admission(db, m) == Some(IdempotencyConflict) <==> known && open && Reused(db, m))
      && (Admission(db, m) == Some(HoldConflict) <==> known && open && OnRecord(db, m))
      && (Admission(db, m) == None <==> known && open && !Reused(db, m) && !OnRecord(db, m))
  {
  }

  /** After admission only an advertised name that is no run-level action raises. */
  lemma RaisedAfterAdmission(limits: Limits, db: Db, m: Mutation, c: Db)
    requires Admission(db, m) == None && c == PutRun(db, m.runId, Current(db.runs[m.runId], db.now))
    ensures Perform(c, m).Abort? <==>
      m.Transition? && FenceHolds(c, m.runId, m.expectedVersion, m.expectedSignature)
      && m.action in ActionNames(ValidActions(c, m.runId, c.runs[m.runId], None))
      && m.action != "resume" && m.action != "cancel" && m.action != "handoff"
    ensures Commit(limits, db, m) == Finish(limits, db, c, m, Perform(c, m))
  {
    CurrentIsChecked(db.runs[m.runId], db.now);
    if m.Transition? { AdvertisedIffEnabled(c, m.runId, c.runs[m.runId]); }
  }

  /**
    An admitted request that is not carried out leaves the run as expiry left it, and says why: a stale fence, or an
    action that is not advertised, or an approval that cannot be consumed.
  */
  lemma DeclinedMeans(limits: Limits, db: Db, m: Mutation, c: Db)
    requires Admission(db, m) == None && c == PutRun(db, m.runId, Current(db.runs[m.runId], db.now))
    requires Commit(limits, db, m).1.Answered? && Commit(limits, db, m).1.code != 200
    ensures var (d, out) := Commit(limits, db, m);
      var run := c.runs[m.runId];
      && c == d.(replays := db.replays, leases := db.leases) && out.code == 409
      && out.envelope.error == Some(
           if m.expectedVersion != run.version
              || m.expectedSignature != Sha256(run.version, ValidActions(c, m.runId, run, None)) then StaleProjection
           else if m.Transition? then InvalidTransition else ApprovalRequired)
  {
    RaisedAfterAdmission(limits, db, m, c);
    FenceMeans(c, m.runId, m.expectedVersion, m.expectedSignature);
  }

  /** An error raised changes nothing. */
  lemma RaisingChangesNothing(limits: Limits, db: Db, m: Mutation)
    requires !Commit(limits, db, m).1.Answered?
    ensures var e := Admission(db, m);
      Commit(limits, db, m) == (db, Raised(if e.Some? then e.value else InvalidTransition))
  {
    if Admission(db, m) == None {
      var c := PutRun(db, m.runId, Current(db.runs[m.runId], db.now));
      RaisedAfterAdmission(limits, db, m, c);
      AbortedIsInvalid(c, m);
    }
  }

  lemma AbortedIsInvalid(c: Db, m: Mutation)
    requires m.runId in c.runs && (m.Consume? ==> m.approvalId in c.approvals) && Perform(c, m).Abort?
    ensures Perform(c, m) == Abort(InvalidTransition)
  {
    if m.Transition? { AdvertisedIffEnabled(c, m.runId, c.runs[m.runId]); }
  }

  /** What the client is shown besides the state: the run, and an error exactly when it was not carried out. */
  lemma AnswerIsLabelled(limits: Limits, db: Db, m: Mutation)
    requires Commit(limits, db, m).1.Answered?
    ensures var out := Commit(limits, db, m).1;
      && out.envelope.runId == Some(m.runId) && out.envelope.toolId == None
      && (out.code == 200 || out.code == 409) && (out.code == 200 <==> out.envelope.error == None)
  {
  }

  // ---- replays ----

  /** Two requests share a replay row exactly if run, actor, role, kind, tool and idempotency key agree. */
  lemma SameKeyIff(a: Mutation, b: Mutation)
    ensures KeyOf(a) == KeyOf(b)
       <==> a.runId == b.runId && a.user == b.user && a.roleClass == b.roleClass && a.idempotencyKey == b.idempotencyKey
            && a.Transition? == b.Transition? && (a.Consume? && b.Consume? ==> a.toolId == b.toolId)
  {
  }

  /** And ask for the same exactly if fence and action, or fence, tool and approval, agree. */
  lemma SamePayloadIff(a: Mutation, b: Mutation)
    ensures HashOf(a) == HashOf(b)
       <==> a.expectedVersion == b.expectedVersion && a.expectedSignature == b.expectedSignature
            && a.Transition? == b.Transition?
            && (a.Transition? && b.Transition? ==> a.action == b.action && a.payload == b.payload)
            && (a.Consume? && b.Consume? ==> a.toolId == b.toolId && a.approvalId == b.approvalId)
  {
  }

  lemma PrereadMeans(db: Db, m: Mutation)
    ensures Reused(db, m) <==> Preread(db, m) == Raised(IdempotencyConflict)
    ensures KeyOf(m) in db.replays && !Reused(db, m) ==>
      var row := db.replays[KeyOf(m)];
      && (row.Processing? ==> Preread(db, m) == Raised(ActiveMutationInProgress))
      && (row.FailedReplay? ==> Preread(db, m) == Missed)
      && (row.CompletedReplay? && row.body.Whole? ==> Preread(db, m) == Replayed(row.code, Some(row.body.envelope)))
      && (row.CompletedReplay? && row.body.Cut? ==> Preread(db, m) == Raised(BadStoredJson))
    ensures KeyOf(m) !in db.replays ==> Preread(db, m) == Missed
  {
  }

  // ---- runs and workspaces ----

  lemma CreatingARun(db: Db, user: Id, r: Id, state: RunState, resumable: bool, expiresAt: Option<Time>)
    ensures var (d, out) := CreateRun(db, user, r, state, resumable, expiresAt);
      if r in db.runs then d == db && out == Raised(UniqueViolation)
      else && out.Answered? && out.code == 200 && out.envelope.error == None && out.envelope.runId == Some(r)
           && d == db.(runs := d.runs) && r in d.runs && d.runs == db.runs[r := d.runs[r]]
           && d.runs[r].owner == user && d.runs[r].state == state && d.runs[r].version == 0 && d.runs[r].eventSeq == 0
           && d.runs[r].resumable == resumable && d.runs[r].expiresAt == expiresAt && d.runs[r].reason == None
           && d.runs[r].cancelRequestedAt == None && d.runs[r].cancelDisposition == None
           && d.runs[r].workspace == Workspace(None, None, None, None)
  {
  }

  /** A column that is set may not be changed once the run has a tool; NULL and the empty text are not set. */
  predicate Keeps(was: Option<string>, now: Option<string>) {
    was == None || was == Some("") || was == Some(if now.Some? then now.value else "")
  }

  /** A workspace is taken from the run's owner, and with a tool on the run only if no column that is set changes. */
  lemma RegisteringAWorkspace(db: Db, user: Id, r: Id, session: string, root: string, fingerprint: string,
                              git: Option<string>)
    ensures var (d, out) := Register(db, user, r, session, root, fingerprint, git);
      if r in db.runs && db.runs[r].owner == user
         && ((exists t | t in db.tools :: db.tools[t].runId == r) ==>
               var was := db.runs[r].workspace;
               Keeps(was.session, Some(session)) && Keeps(was.root, Some(root))
               && Keeps(was.fingerprint, Some(fingerprint)) && Keeps(was.git, git))
      then && out.Answered? && out.code == 200 && out.envelope.error == None && out.envelope.runId == Some(r)
           && d == db.(runs := db.runs[r := db.runs[r].(workspace :=
                Workspace(Some(session), Some(root), Some(fingerprint), git))])
      else d == db && out == Raised(InvalidTransition)
  {
  }

  // ---- tool calls ----

  /** The owner of the run, under the session it is bound to. */
  predicate Bound(db: Db, user: Id, r: Id, session: string) {
    r in db.runs && db.runs[r].owner == user && session != "" && db.runs[r].workspace.session == Some(session)
  }

  lemma UnboundIsRefused(limits: Limits, db: Db, step: Step)
    requires OnTools(step) && !Bound(db, step.user, step.runId, step.session)
    ensures Do(limits, db, step) == (db, Raised(InvalidTransition))
  {
  }

  /** The presented version and signature are not the current ones. */
  predicate Outdated(db: Db, r: Id, version: int, sig: Signature)
    requires r in db.runs
  {
    db.runs[r].version != version || sig != Sha256(db.runs[r].version, ValidActions(db, r, db.runs[r], None))
  }

  /** One event about a tool, under the run's version, and the counter moved on. */
  predicate EventOnly(a: Db, d: Db, r: Id, kind: EventKind) {
    && r in a.runs && d.runs == a.runs[r := a.runs[r].(eventSeq := a.runs[r].eventSeq + 1)]
    && d.events == a.events[r := (if r in a.events then a.events[r] else [])
                                 + [Event(a.runs[r].version, a.runs[r].eventSeq + 1, kind)]]
    && d == a.(runs := d.runs, events := d.events, tools := d.tools)
  }

  lemma ToolAndEvent(db: Db, r: Id, t: Id, row: Tool, kind: EventKind)
    requires r in db.runs
    ensures var d := AppendEvent(PutTool(db, t, row), r, db.runs[r].version, kind);
      EventOnly(db, d, r, kind) && d.tools == db.tools[t := row]
  {
  }

  predicate Says(out: Outcome, code: int, error: Option<Error>, r: Id, t: Option<Id>) {
    && out.Answered? && out.code == code && out.envelope.error == error && out.envelope.runId == Some(r)
    && out.envelope.toolId == t
  }

  /** Every column of a proposed tool. */
  lemma ProposingLeaves(db: Db, user: Id, r: Id, session: string, v: int, sig: Signature, t: Id, token: string,
                        mutating: bool)
    requires Bound(db, user, r, session) && !Outdated(db, r, v, sig) && t !in db.tools
    ensures forall planMode | !(planMode && mutating) ::
      var (d, out) := Propose(db, user, r, session, v, sig, t, token, mutating, planMode);
      && Says(out, 200, None, r, Some(t))
      && d == db.(tools := db.tools[t :=
           Tool(r, db.runs[r].version, mutating, token, Proposed, None, None, None, None, None, None)])
  {
    FenceMeans(db, r, v, sig);
  }

  /** And of a mutating one that plan mode blocks. */
  lemma BlockingLeaves(db: Db, user: Id, r: Id, session: string, v: int, sig: Signature, t: Id, token: string)
    requires Bound(db, user, r, session) && !Outdated(db, r, v, sig) && t !in db.tools
    ensures var (d, out) := Propose(db, user, r, session, v, sig, t, token, true, true);
      && Says(out, 409, Some(ToolNotAllowedInPlanMode), r, Some(t)) && EventOnly(db, d, r, ToolFinished(t, Blocked))
      && d.tools == db.tools[t :=
           Tool(r, db.runs[r].version, true, token, Blocked, None, Some(db.now), None, Some(db.now), None, None)]
  {
    FenceMeans(db, r, v, sig);
  }

  lemma ProposalRefused(db: Db, user: Id, r: Id, session: string, v: int, sig: Signature, t: Id, token: string,
                        mutating: bool, planMode: bool)
    requires Bound(db, user, r, session) && (Outdated(db, r, v, sig) || t in db.tools)
    ensures var (d, out) := Propose(db, user, r, session, v, sig, t, token, mutating, planMode);
      d == db && if Outdated(db, r, v, sig) then Says(out, 409, Some(StaleProjection), r, None)
                 else out == Raised(UniqueViolation)
  {
    FenceMeans(db, r, v, sig);
  }

  /** The tool is this run's and the token the one it was proposed with. */
  predicate Held(db: Db, r: Id, t: Id, token: string) {
    t in db.tools && db.tools[t].runId == r && db.tools[t].token == token
  }

  /** Every column of a claimed tool. */
  lemma StartingLeaves(db: Db, user: Id, r: Id, session: string, t: Id, token: string, v: int, sig: Signature)
    requires Bound(db, user, r, session) && !Outdated(db, r, v, sig)
    requires Held(db, r, t, token) && db.tools[t].status == Proposed && !Busy(db, r)
    ensures var (d, out) := Start(db, user, r, session, t, token, v, sig);
      && d.tools == db.tools[t := db.tools[t].(status := Started, claimedAt := Some(db.now),
                                                startedAt := Some(db.now), heartbeatAt := Some(db.now))]
      && EventOnly(db, d, r, ToolClaimedStarted(t)) && Says(out, 200, None, r, Some(t))
  {
    FenceMeans(db, r, v, sig);
    BusyIsStarted(db, r);
    ToolAndEvent(db, r, t, db.tools[t].(status := Started, claimedAt := Some(db.now), startedAt := Some(db.now),
                                        heartbeatAt := Some(db.now)), ToolClaimedStarted(t));
  }

  /** A start that claims nothing: stale, not this tool, started already, not startable, or another tool is started. */
  lemma StartRefused(db: Db, user: Id, r: Id, session: string, t: Id, token: string, v: int, sig: Signature)
    requires Bound(db, user, r, session)
    requires Outdated(db, r, v, sig) || !Held(db, r, t, token) || db.tools[t].status != Proposed || Busy(db, r)
    ensures var (d, out) := Start(db, user, r, session, t, token, v, sig);
      && d == db
      && if Outdated(db, r, v, sig) then Says(out, 409, Some(StaleProjection), r, None)
         else if !Held(db, r, t, token) then out == Raised(InvalidTransition)
         else if db.tools[t].status == Started then Says(out, 200, None, r, Some(t))
         else if db.tools[t].status != Proposed then out == Raised(InvalidTransition)
         else out == Raised(ActiveMutationInProgress)
  {
    FenceMeans(db, r, v, sig);
    BusyIsStarted(db, r);
  }

  predicate Ended(s: ToolStatus) {
    s == Succeeded || s == Errored || s == TimedOut || s == Blocked || s == Cancelled
  }

  lemma BeatingLeaves(db: Db, user: Id, r: Id, session: string, t: Id, token: string)
    requires Bound(db, user, r, session)
    ensures var (d, out) := Beat(db, user, r, session, t, token);
      if Held(db, r, t, token) && db.tools[t].status == Started then
        d == db.(tools := db.tools[t := db.tools[t].(heartbeatAt := Some(db.now))]) && out == Heartbeat(true, None)
      else if Held(db, r, t, token) && Ended(db.tools[t].status) then
        d == db && out == Heartbeat(false, Some(db.tools[t].status))
      else d == db && out == Raised(InvalidTransition)
  {
  }

  lemma CancelingLeaves(db: Db, user: Id, r: Id, session: string, t: Id, token: string)
    requires Bound(db, user, r, session) && Held(db, r, t, token) && db.tools[t].status == Started
    ensures var (d, out) := CancelTool(db, user, r, session, t, token);
      && d.tools == db.tools[t := db.tools[t].(status := Cancelled, finishedAt := Some(db.now))]
      && EventOnly(db, d, r, ToolFinished(t, Cancelled)) && Says(out, 200, None, r, Some(t))
  {
    ToolAndEvent(db, r, t, db.tools[t].(status := Cancelled, finishedAt := Some(db.now)), ToolFinished(t, Cancelled));
  }

  lemma CancelRefused(db: Db, user: Id, r: Id, session: string, t: Id, token: string)
    requires Bound(db, user, r, session) && !(Held(db, r, t, token) && db.tools[t].status == Started)
    ensures var (d, out) := CancelTool(db, user, r, session, t, token);
      d == db && if Held(db, r, t, token) && db.tools[t].status == Cancelled then Says(out, 200, None, r, Some(t))
                 else out == Raised(InvalidTransition)
  {
  }

  // ---- results ----

  /** What a result of this status is answered with. */
  lemma ResultSays(status: ToolStatus, reason: string)
    requires ResultStatus(status)
    ensures status == Succeeded ==> ResultCode(status) == 200 && ResultError(status, reason) == None
    ensures status == Errored ==> ResultCode(status) == 409 && ResultError(status, reason) == Some(ToolExecutionFailed)
    ensures status == TimedOut ==> ResultCode(status) == 409 && ResultError(status, reason) == Some(ToolTimeout)
    ensures status == Blocked ==> ResultCode(status) == 409 && ResultError(status, reason) == Some(BlockedBy(reason))
    ensures status == Succeeded || status == Errored || status == TimedOut || status == Blocked
  {
  }

  /** The answer to a result, by its status. */
  predicate Tells(out: Outcome, status: ToolStatus, reason: string, r: Id, t: Id) {
    match status
    case Succeeded => Says(out, 200, None, r, Some(t))
    case Errored => Says(out, 409, Some(ToolExecutionFailed), r, Some(t))
    case TimedOut => Says(out, 409, Some(ToolTimeout), r, Some(t))
    case Blocked => Says(out, 409, Some(BlockedBy(reason)), r, Some(t))
    case _ => false
  }

  lemma TakenResult(limits: Limits, db: Db, user: Id, r: Id, session: string, t: Id, token: string,
                    submission: Submission, reason: string, clientHash: Option<ResultHash>)
    requires Bound(db, user, r, session) && Held(db, r, t, token) && db.tools[t].status == Started
    requires ResultStatus(submission.status)
    ensures var env := ResultEnvelope(db, r, t, submission.status, reason);
      var response := StoredResponse(ResultCode(submission.status), Stored(limits.size, limits.responseCap, env));
      Result(limits, db, user, r, session, t, token, submission, reason, clientHash)
        == (AppendEvent(PutTool(db, t, Finished(db.tools[t], submission, response, db.now)), r, db.runs[r].version,
                        ToolFinished(t, submission.status)),
            Outcome.Answered(ResultCode(submission.status), env))
  {
  }

  lemma ResultTells(db: Db, r: Id, t: Id, status: ToolStatus, reason: string)
    requires r in db.runs && ResultStatus(status)
    ensures Tells(Outcome.Answered(ResultCode(status), ResultEnvelope(db, r, t, status, reason)), status, reason, r, t)
  {
    ResultSays(status, reason);
  }

  /** Every column of a tool whose result is taken, and the answer kept with it unless it is above the cap. */
  lemma ResultLeaves(limits: Limits, db: Db, user: Id, r: Id, session: string, t: Id, token: string,
                     submission: Submission, reason: string, clientHash: Option<ResultHash>)
    requires Bound(db, user, r, session) && Held(db, r, t, token) && db.tools[t].status == Started
    requires ResultStatus(submission.status)
    ensures var (d, out) := Result(limits, db, user, r, session, t, token, submission, reason, clientHash);
      && Tells(out, submission.status, reason, r, t) && EventOnly(db, d, r, ToolFinished(t, submission.status))
      && var kept := if limits.size(out.envelope) > limits.responseCap then Cut else Whole(out.envelope);
      d.tools == db.tools[t := db.tools[t].(status := submission.status, finishedAt := Some(db.now),
                                             resultHash := Some(Digest(submission)),
                                             response := Some(StoredResponse(out.code, kept)))]
  {
    var env := ResultEnvelope(db, r, t, submission.status, reason);
    var response := StoredResponse(ResultCode(submission.status), Stored(limits.size, limits.responseCap, env));
    TakenResult(limits, db, user, r, session, t, token, submission, reason, clientHash);
    ToolAndEvent(db, r, t, Finished(db.tools[t], submission, response, db.now), ToolFinished(t, submission.status));
    ResultTells(db, r, t, submission.status, reason);
  }

  /** When a result is refused outright. */
  lemma ResultRefused(limits: Limits, db: Db, user: Id, r: Id, session: string, t: Id, token: string,
                      submission: Submission, reason: string, clientHash: Option<ResultHash>)
    requires Bound(db, user, r, session)
    ensures Result(limits, db, user, r, session, t, token, submission, reason, clientHash)
              == (db, Raised(InvalidTransition))
       <==> submission.status in {Proposed, Started, Cancelled} || t !in db.tools || db.tools[t].runId != r
            || db.tools[t].status in {Proposed, Cancelled}
            || (db.tools[t].status == Started && db.tools[t].token != token)
  {
  }

  /** What was stored with a tool, as it is replayed: whole, or the bare code when it was cut. */
  lemma ReplayMeans(tool: Tool)
    ensures tool.response == None ==> AgentProtocol.Replay(tool) == Replayed(200, None)
    ensures tool.response.Some? ==>
      AgentProtocol.Replay(tool) == Replayed(tool.response.value.code,
        if tool.response.value.body.Whole? then Some(tool.response.value.body.envelope) else None)
  {
  }

  // ---- the reconciler ----

  /** When the tool was last heard from. */
  function LastHeard(tool: Tool): Option<Time> {
    if tool.heartbeatAt.Some? then tool.heartbeatAt else tool.startedAt
  }

  /** The reconciler fetches started tools silent for more than the timeout, which is at least 5 seconds. */
  lemma StaleMeans(tool: Tool, now: Time, timeoutSeconds: int)
    ensures Stale(tool, now, timeoutSeconds)
       <==> tool.status == Started && LastHeard(tool).Some?
            && now - LastHeard(tool).value > 5_000_000 && now - LastHeard(tool).value > timeoutSeconds * 1_000_000
  {
  }

  lemma IsTimedOutMeans(startedAt: Option<Time>, heartbeatAt: Option<Time>, now: Time, timeoutSeconds: int)
    ensures IsTimedOut(startedAt, heartbeatAt, now, timeoutSeconds)
       <==> startedAt.Some?
            && var silent := now - (if heartbeatAt.Some? then heartbeatAt.value else startedAt.value);
            silent > 1_000_000 && silent > timeoutSeconds * 1_000_000
  {
  }

  /** What the reconciler submits in a silent client's place: a fixed message and two empty outputs. */
  lemma ExpiredHeartbeatSays()
    ensures HEARTBEAT_EXPIRED.status == TimedOut && HEARTBEAT_EXPIRED.stdoutSha == HEARTBEAT_EXPIRED.stderrSha
    ensures HEARTBEAT_EXPIRED.payload
         == "{\"detail\":\"Heartbeat expired.\",\"ok\":false,\"reason_code\":\"tool_timeout\"}"
    ensures HEARTBEAT_EXPIRED.stdoutSha == "e3b0c44298fc1c149afbf4c8996fb92427ae41e4649b934ca495991b7852b855"
  {
  }

  /** Rows that are not started are neither changed nor counted. */
  lemma {:induction false} OthersAreNotTouched(db: Db, rows: seq<Id>)
    requires forall t | t in rows && t in db.tools :: db.tools[t].status != Started
    ensures TimeOutAll(db, rows) == db && Touches(db, rows) == 0
    decreases |rows|
  {
    if rows != [] {
      assert rows[0] in rows;
      OthersAreNotTouched(db, rows[1..]);
    }
  }

  /** Every column of a tool the reconciler times out. */
  lemma TimingOutLeaves(db: Db, t: Id)
    requires t in db.tools && db.tools[t].runId in db.runs && db.tools[t].status == Started
    ensures var d, tool := TimeOut(db, t), db.tools[t];
      && EventOnly(db, d, tool.runId, ToolFinished(t, TimedOut)) && t in d.tools && d.tools[t].response.Some?
      && var response := d.tools[t].response.value;
      && response.code == 409 && response.body.Whole? && response.body.envelope.error == Some(ToolTimeout)
      && response.body.envelope.runId == Some(tool.runId) && response.body.envelope.toolId == Some(t)
      && d.tools == db.tools[t := tool.(status := TimedOut, finishedAt := Some(db.now),
                                        resultHash := d.tools[t].resultHash, response := Some(response))]
      && d.tools[t].resultHash.Some? && d.tools[t].resultHash.value.Digest?
      && d.tools[t].resultHash.value.submission.status == TimedOut
  {
  }
}
