/** AgentOrchestrationService: the tables as fields, one method per request, one transaction each. */
module AgentService {
  import opened Options
  import opened OrchestrationContracts
  import opened AgentStore
  import opened AgentProtocol
  import opened AgentFence

  /** The same event, with a lease held and a replay row open. */
  lemma EventUnderLease(clean: Db, held: Db, r: Id, version: nat, kind: EventKind)
    requires r in clean.runs && held == clean.(leases := held.leases, replays := held.replays)
    ensures AppendEvent(held, r, version, kind)
         == AppendEvent(clean, r, version, kind).(leases := held.leases, replays := held.replays)
  {
  }

  /** Writing the event does not change what is advertised. */
  lemma EventKeepsActions(db: Db, acted: Db, r: Id, run: Run, error: Option<Error>, shown: Option<Id>, t: Option<Id>)
    requires r in acted.runs && acted.tools == db.tools && acted.approvals == db.approvals && acted.scan == db.scan
    requires acted.runs[r] == run.(eventSeq := acted.runs[r].eventSeq)
    ensures MakeEnvelope(run, ValidActions(db, r, run, None), error, shown, t) == EnvelopeOf(acted, r, error, shown, t)
  {
    ActionsDependOn(db, acted, r, run, acted.runs[r], None);
  }

  class AgentOrchestrationService {
    var runs: map<Id, Run>
    var tools: map<Id, Tool>
    var approvals: map<Id, Approval>
    var scan: seq<Id>
    var replays: map<ReplayKey, Replay>
    var leases: map<Id, Lease>
    var events: map<Id, seq<Event>>
    var now: Time
    const limits: Limits

    function Tables(): Db
      reads this
    {
      Db(runs, tools, approvals, scan, replays, leases, events, now)
    }

    constructor (limits: Limits, now: Time)
      ensures Tables() == Db(map[], map[], map[], [], map[], map[], map[], now) && this.limits == limits
    {
      this.limits := limits;
      runs, tools, approvals, scan := map[], map[], map[], [];
      replays, leases, events, this.now := map[], map[], map[], now;
    }

    /** ROLLBACK. */
    method Rollback(db: Db)
      modifies this
      ensures Tables() == db
    {
      runs, tools, approvals, scan := db.runs, db.tools, db.approvals, db.scan;
      replays, leases, events, now := db.replays, db.leases, db.events, db.now;
    }

    // ---- helpers inside a transaction ----

    method AcquireLease(r: Id, holder: string, token: string, ttlSeconds: int) returns (error: Option<Error>)
      modifies this
      ensures error == (if LeaseActive(old(Tables()), r) then Some(ActiveMutationInProgress) else None)
      ensures error == None ==>
        Tables() == old(Tables()).(leases := old(leases)[r := Lease(holder, token, now + ttlSeconds * SECOND)])
      ensures error.Some? ==> Tables() == old(Tables())
    {
      if r !in leases {
        leases := leases[r := Lease(holder, token, now + ttlSeconds * SECOND)];
        return None;
      }
      if leases[r].expiresAt > now {
        return Some(ActiveMutationInProgress);
      }
      leases := leases[r := Lease(holder, token, now + ttlSeconds * SECOND)];
      return None;
    }

    method DeleteLease(r: Id, token: string) returns (deleted: nat)
      modifies this
      ensures deleted == if r in old(leases) && old(leases)[r].token == token then 1 else 0
      ensures Tables() == old(Tables()).(leases := if deleted == 1 then old(leases) - {r} else old(leases))
    {
      deleted := 0;
      if r in leases && leases[r].token == token {
        leases := leases - {r};
        deleted := 1;
      }
    }

    method ClaimReplayProcessing(key: ReplayKey, hash: PayloadHash) returns (error: Option<Error>)
      modifies this
      ensures error == (if key !in old(replays) then None
                        else if old(replays)[key].hash != hash then Some(IdempotencyConflict)
                        else if old(replays)[key].CompletedReplay? then Some(HoldConflict) else None)
      ensures error == None ==> Tables() == old(Tables()).(replays := old(replays)[key := Processing(hash)])
      ensures error.Some? ==> Tables() == old(Tables())
    {
      if key !in replays {
        replays := replays[key := Processing(hash)];
        return None;
      }
      if replays[key].hash != hash {
        return Some(IdempotencyConflict);
      }
      if replays[key].Processing? {
        replays := replays[key := FailedReplay(replays[key].hash)];
        replays := replays[key := Processing(hash)];
        return None;
      }
      if replays[key].FailedReplay? {
        replays := replays[key := Processing(hash)];
        return None;
      }
      return Some(HoldConflict);
    }

    method CompleteReplay(key: ReplayKey, code: int, env: Envelope)
      requires key in replays && replays[key].Processing?
      modifies this
      ensures Tables() == old(Tables()).(replays := old(replays)[key :=
                CompletedReplay(old(replays)[key].hash, code, Stored(limits.size, limits.replayCap, env))])
    {
      var body := if limits.size(env) > limits.replayCap then Cut else Whole(env);
      replays := replays[key := CompletedReplay(replays[key].hash, code, body)];
    }

    method IncrementRunVersion(r: Id, state: RunState, reason: Option<string>, resumable: bool,
                               cancelRequestedAt: Option<Time>, cancelDisposition: Option<string>) returns (run: Run)
      requires r in runs
      modifies this
      ensures run == Bump(old(runs)[r], state, reason, resumable, cancelRequestedAt, cancelDisposition)
      ensures Tables() == PutRun(old(Tables()), r, run)
    {
      run := runs[r].(state := state, reason := reason, resumable := resumable, cancelRequestedAt := cancelRequestedAt,
                      cancelDisposition := cancelDisposition, version := runs[r].version + 1);
      runs := runs[r := run];
    }

    method InsertDurableEvent(r: Id, version: nat, kind: EventKind)
      requires r in runs
      modifies this
      ensures Tables() == AppendEvent(old(Tables()), r, version, kind)
    {
      runs := runs[r := runs[r].(eventSeq := runs[r].eventSeq + 1)];
      var log := if r in events then events[r] else [];
      events := events[r := log + [Event(version, runs[r].eventSeq, kind)]];
    }

    method MaybeExpireRun(r: Id) returns (run: Run)
      requires r in runs
      modifies this
      ensures run == ExpireIfDue(old(runs)[r], now) && Tables() == PutRun(old(Tables()), r, run)
    {
      run := runs[r];
      if TerminalRun(run.state) { return; }
      if run.expiresAt == None || run.expiresAt.value > now { return; }
      run := IncrementRunVersion(r, Expired, Some("expired_timeout"), false,
                                 run.cancelRequestedAt, run.cancelDisposition);
    }

    method ApplyTransitionAction(r: Id, run: Run, action: string) returns (error: Option<Error>, next: Run)
      requires r in runs && run == runs[r]
      modifies this
      ensures error == (match ApplyAction(run, action, HasStarted(old(Tables()), r, None), now)
                        case Refused(e) => Some(e) case Moved(_) => None)
      ensures error == None ==> next == ApplyAction(run, action, HasStarted(old(Tables()), r, None), now).run
                                && Tables() == PutRun(old(Tables()), r, next)
    {
      next := run;
      if action == "resume" {
        if run.state == Interrupted && !run.resumable { return Some(RunNotResumable), next; }
        if run.state != Created && run.state != Interrupted { return Some(InvalidTransition), next; }
        next := IncrementRunVersion(r, Running, None, run.resumable, run.cancelRequestedAt, run.cancelDisposition);
        return None, next;
      }
      if action == "cancel" {
        if TerminalRun(run.state) { return Some(InvalidTransition), next; }
        if HasStarted(Tables(), r, None) {
          next := IncrementRunVersion(r, run.state, run.reason, run.resumable, Some(now), run.cancelDisposition);
          return None, next;
        }
        var at := if run.cancelRequestedAt.Some? then run.cancelRequestedAt else Some(now);
        next := IncrementRunVersion(r, Canceled, Some("canceled_user"), false, at, Some("canceled_by_user"));
        return None, next;
      }
      if action == "handoff" { return None, run; }
      return Some(InvalidTransition), next;
    }

    /** Inside a transaction: the tables are those of `clean`, but for the held lease and the open replay row. */
    ghost predicate Holding(clean: Db, m: Mutation, token: string)
      reads this
    {
      && m.runId in clean.runs
      && m.runId in leases && leases[m.runId].token == token
      && KeyOf(m) in replays && replays[KeyOf(m)] == Processing(HashOf(m))
      && Tables() == clean.(leases := clean.leases[m.runId := leases[m.runId]],
                            replays := clean.replays[KeyOf(m) := replays[KeyOf(m)]])
    }

    /** Store an answer, release the lease, and hand the answer out with the run id added. */
    method RecordAndAnswer(m: Mutation, token: string, code: int, env: Envelope, ghost clean: Db,
                           ghost error: Option<Error>)
      returns (out: Outcome)
      requires Holding(clean, m, token) && env == EnvelopeOf(clean, m.runId, error, None, None)
      modifies this
      ensures (Tables(), out) == Conclude(limits, clean, m, code, error)
    {
      ghost var held := Tables();
      CompleteReplay(KeyOf(m), code, env);
      var deleted := DeleteLease(m.runId, token);
      assert deleted == 1;
      assert held.leases - {m.runId} == clean.leases - {m.runId};
      assert held.replays[KeyOf(m) := replays[KeyOf(m)]] == clean.replays[KeyOf(m) := replays[KeyOf(m)]];
      out := Answered(code, env.(runId := Some(m.runId)));
    }

    /** Take the lease, open the replay row, and expire the run if it is due. */
    method BeginMutation(m: Mutation, token: string, ttlSeconds: int) returns (error: Option<Error>, run: Run)
      requires m.runId in runs
      modifies this
      ensures error == (if LeaseActive(old(Tables()), m.runId) then Some(ActiveMutationInProgress)
                        else if KeyOf(m) !in old(replays) then None
                        else if old(replays)[KeyOf(m)].hash != HashOf(m) then Some(IdempotencyConflict)
                        else if old(replays)[KeyOf(m)].CompletedReplay? then Some(HoldConflict) else None)
      ensures error == None ==>
        && run == ExpireIfDue(old(runs)[m.runId], now) && m.runId in runs && runs[m.runId] == run
        && Holding(PutRun(old(Tables()), m.runId, run), m, token)
    {
      run := runs[m.runId];
      error := AcquireLease(m.runId, m.roleClass + ":" + m.user, token, ttlSeconds);
      if error.Some? { return; }
      error := ClaimReplayProcessing(KeyOf(m), HashOf(m));
      if error.Some? { return; }
      run := MaybeExpireRun(m.runId);
    }

    // ---- run transitions ----

    /** `_replay_preread`. */
    method ReplayPreread(m: Mutation) returns (out: Outcome)
      ensures out == Preread(Tables(), m)
    {
      var key := KeyOf(m);
      if key !in replays { return Missed; }
      var row := replays[key];
      if row.hash != HashOf(m) { return Raised(IdempotencyConflict); }
      if row.CompletedReplay? {
        if row.body.Cut? { return Raised(BadStoredJson); }
        return Replayed(row.code, Some(row.body.envelope));
      }
      if row.Processing? { return Raised(ActiveMutationInProgress); }
      return Missed;
    }

    method TransitionRun(m: Mutation, leaseToken: string, ttlSeconds: int) returns (out: Outcome)
      requires m.Transition?
      modifies this
      ensures (Tables(), out) == Commit(limits, old(Tables()), m)
    {
      var before := Tables();
      out := TransitionRunTx(m, leaseToken, ttlSeconds);
      if out.Raised? { Rollback(before); }
    }

    method TransitionRunTx(m: Mutation, leaseToken: string, ttlSeconds: int) returns (out: Outcome)
      requires m.Transition?
      modifies this
      ensures out == Commit(limits, old(Tables()), m).1
      ensures !out.Raised? ==> Tables() == Commit(limits, old(Tables()), m).0
    {
      if m.runId !in runs || runs[m.runId].owner != m.user { return Raised(InvalidTransition); }
      var error, run := BeginMutation(m, leaseToken, ttlSeconds);
      if error.Some? { return Raised(error.value); }
      out := DecideTransition(m, leaseToken, run, old(Tables()), PutRun(old(Tables()), m.runId, run));
    }

    /** From the fence check on. */
    method DecideTransition(m: Mutation, token: string, run: Run, ghost before: Db, ghost clean: Db)
      returns (out: Outcome)
      requires m.Transition? && Holding(clean, m, token) && clean.runs[m.runId] == run
      modifies this
      ensures out == Finish(limits, before, clean, m, Perform(clean, m)).1
      ensures !out.Raised? ==> Tables() == Finish(limits, before, clean, m, Perform(clean, m)).0
    {
      var r := m.runId;
      var actions := ValidActions(Tables(), r, run, None);
      ActionsDependOn(clean, Tables(), r, run, run, None);
      if run.version != m.expectedVersion || ValidActionsSignature(run.version, actions) != m.expectedSignature {
        var env := MakeEnvelope(run, actions, Some(StaleProjection), None, None);
        out := RecordAndAnswer(m, token, 409, env, clean, Some(StaleProjection));
        return;
      }
      if m.action !in ActionNames(actions) {
        var env := MakeEnvelope(run, actions, Some(InvalidTransition), None, None);
        out := RecordAndAnswer(m, token, 409, env, clean, Some(InvalidTransition));
        return;
      }
      out := CarryOutTransition(m, token, run, clean);
    }

    /** Describe the new row, log the move, record the answer. */
    method AnswerMove(m: Mutation, token: string, next: Run, kind: EventKind, ghost moved: Db) returns (out: Outcome)
      requires Holding(moved, m, token) && moved.runs[m.runId] == next
      modifies this
      ensures (Tables(), out) == Conclude(limits, AppendEvent(moved, m.runId, next.version, kind), m, 200, None)
    {
      ghost var held := Tables();
      var env := MakeEnvelope(next, ValidActions(Tables(), m.runId, next, None), None, None, None);
      InsertDurableEvent(m.runId, next.version, kind);
      ghost var acted := AppendEvent(moved, m.runId, next.version, kind);
      EventUnderLease(moved, held, m.runId, next.version, kind);
      EventKeepsActions(held, acted, m.runId, next, None, None, None);
      out := RecordAndAnswer(m, token, 200, env, acted, None);
    }

    method CarryOutTransition(m: Mutation, token: string, run: Run, ghost clean: Db) returns (out: Outcome)
      requires m.Transition? && Holding(clean, m, token) && clean.runs[m.runId] == run
      modifies this
      ensures var applied := ApplyAction(run, m.action, HasStarted(clean, m.runId, None), clean.now);
        if applied.Refused? then out == Raised(applied.error)
        else (Tables(), out) == Conclude(limits,
                                         AppendEvent(PutRun(clean, m.runId, applied.run), m.runId, applied.run.version,
                                                             RunTransitionEvent(m.action)), m, 200, None)
    {
      HasStartedDependsOnTools(clean, Tables(), m.runId, None);
      var error, next := ApplyTransitionAction(m.runId, run, m.action);
      if error.Some? { return Raised(error.value); }
      out := AnswerMove(m, token, next, RunTransitionEvent(m.action), PutRun(clean, m.runId, next));
    }

    // ---- approvals ----

    method ConsumeApproval(m: Mutation, leaseToken: string, ttlSeconds: int) returns (out: Outcome)
      requires m.Consume?
      modifies this
      ensures (Tables(), out) == Commit(limits, old(Tables()), m)
    {
      var before := Tables();
      out := ConsumeApprovalTx(m, leaseToken, ttlSeconds);
      if out.Raised? { Rollback(before); }
    }

    method ConsumeApprovalTx(m: Mutation, leaseToken: string, ttlSeconds: int) returns (out: Outcome)
      requires m.Consume?
      modifies this
      ensures out == Commit(limits, old(Tables()), m).1
      ensures !out.Raised? ==> Tables() == Commit(limits, old(Tables()), m).0
    {
      if m.runId !in runs || runs[m.runId].owner != m.user { return Raised(InvalidTransition); }
      if m.toolId !in tools || tools[m.toolId].runId != m.runId { return Raised(InvalidTransition); }
      if m.approvalId !in approvals || approvals[m.approvalId].runId != m.runId
         || approvals[m.approvalId].toolId != m.toolId {
        return Raised(ApprovalRequired);
      }
      var error, run := BeginMutation(m, leaseToken, ttlSeconds);
      if error.Some? { return Raised(error.value); }
      out := DecideApproval(m, leaseToken, run, old(Tables()), PutRun(old(Tables()), m.runId, run));
    }

    method DecideApproval(m: Mutation, token: string, run: Run, ghost before: Db, ghost clean: Db)
      returns (out: Outcome)
      requires m.Consume? && Holding(clean, m, token) && clean.runs[m.runId] == run && m.approvalId in clean.approvals
      modifies this
      ensures out == Finish(limits, before, clean, m, Perform(clean, m)).1
      ensures !out.Raised? ==> Tables() == Finish(limits, before, clean, m, Perform(clean, m)).0
    {
      var r, approval := m.runId, approvals[m.approvalId];
      var actions := ValidActions(Tables(), r, run, None);
      ActionsDependOn(clean, Tables(), r, run, run, None);
      if run.version != m.expectedVersion || ValidActionsSignature(run.version, actions) != m.expectedSignature {
        var env := MakeEnvelope(run, actions, Some(StaleProjection), None, None);
        out := RecordAndAnswer(m, token, 409, env, clean, Some(StaleProjection));
        return;
      }
      if approval.decision != Approved || approval.consumedAt.Some? {
        var env := MakeEnvelope(run, actions, Some(ApprovalRequired), None, None);
        out := RecordAndAnswer(m, token, 409, env, clean, Some(ApprovalRequired));
        return;
      }
      var consumed := 0;
      if approvals[m.approvalId].decision == Approved && approvals[m.approvalId].consumedAt == None
         && approvals[m.approvalId].versionApproved == run.version {
        consumed := 1;
      }
      if consumed != 1 {
        var env := MakeEnvelope(run, actions, Some(ApprovalRequired), None, None);
        out := RecordAndAnswer(m, token, 409, env, clean, Some(ApprovalRequired));
        return;
      }
      out := CarryOutApproval(m, token, run, clean);
    }

    /** The guarded UPDATE of the approval row, its guard just checked. */
    method ConsumeRow(a: Id)
      requires a in approvals
      modifies this
      ensures Tables() == old(Tables()).(approvals :=
        old(approvals)[a := old(approvals)[a].(decision := Consumed, consumedAt := Some(now))])
    {
      approvals := approvals[a := approvals[a].(decision := Consumed, consumedAt := Some(now))];
    }

    method CarryOutApproval(m: Mutation, token: string, run: Run, ghost clean: Db) returns (out: Outcome)
      requires m.Consume? && Holding(clean, m, token) && clean.runs[m.runId] == run && m.approvalId in clean.approvals
      modifies this
      ensures var row := clean.approvals[m.approvalId].(decision := Consumed, consumedAt := Some(clean.now));
        var next := AfterApproval(run);
        (Tables(), out) == Conclude(limits,
          AppendEvent(PutRun(clean, m.runId, next).(approvals := clean.approvals[m.approvalId := row]),
                      m.runId, next.version,
                      ApprovalConsumedEvent(m.approvalId, m.toolId)), m, 200, None)
    {
      ConsumeRow(m.approvalId);
      var awaiting := run.state == AwaitingApproval;
      var next := IncrementRunVersion(m.runId, if awaiting then Running else run.state,
                                      if awaiting then None else run.reason,
                                      run.resumable, run.cancelRequestedAt, run.cancelDisposition);
      ghost var moved := PutRun(clean, m.runId, next).(approvals := approvals);
      assert Holding(moved, m, token);
      out := AnswerMove(m, token, next, ApprovalConsumedEvent(m.approvalId, m.toolId), moved);
    }

    // ---- runs and workspaces ----

    method CreateRun(user: Id, r: Id, state: RunState, resumable: bool, expiresAt: Option<Time>) returns (out: Outcome)
      modifies this
      ensures (Tables(), out) == AgentProtocol.CreateRun(old(Tables()), user, r, state, resumable, expiresAt)
    {
      if r in runs { return Raised(UniqueViolation); }
      runs := runs[r := Run(user, state, 0, 0, resumable, None, None, None, expiresAt,
                            Workspace(None, None, None, None))];
      out := Answered(200, MakeEnvelope(runs[r], ValidActions(Tables(), r, runs[r], None), None, Some(r), None));
    }

    method RegisterWorkspace(user: Id, r: Id, session: string, root: string, fingerprint: string, git: Option<string>)
      returns (out: Outcome)
      modifies this
      ensures (Tables(), out) == Register(old(Tables()), user, r, session, root, fingerprint, git)
    {
      if r !in runs || runs[r].owner != user { return Raised(InvalidTransition); }
      var existing := runs[r].workspace;
      if HasTool(Tables(), r)
         && (Differs(existing.session, session) || Differs(existing.root, root)
             || Differs(existing.fingerprint, fingerprint)
             || Differs(existing.git, if git.Some? then git.value else "")) {
        return Raised(InvalidTransition);
      }
      runs := runs[r := runs[r].(workspace := Workspace(Some(session), Some(root), Some(fingerprint), git))];
      out := Answered(200, MakeEnvelope(runs[r], ValidActions(Tables(), r, runs[r], None), None, Some(r), None));
    }

    // ---- tool calls ----

    /** Owner check and `_assert_runtime_session_tx`. */
    method SessionError(user: Id, r: Id, session: string) returns (error: Option<Error>)
      ensures error == if SessionHolds(Tables(), user, r, session) then None else Some(InvalidTransition)
    {
      if r !in runs || runs[r].owner != user { return Some(InvalidTransition); }
      if session == "" { return Some(InvalidTransition); }
      var bound := if runs[r].workspace.session == Some("") then None else runs[r].workspace.session;
      if bound == None { return Some(InvalidTransition); }
      if bound.value != session { return Some(InvalidTransition); }
      return None;
    }

    method ProposeToolCall(user: Id, r: Id, session: string, expectedVersion: int, expectedSignature: Signature,
                           t: Id, token: string, mutating: bool, planMode: bool) returns (out: Outcome)
      modifies this
      ensures (Tables(), out)
           == Propose(old(Tables()), user, r, session, expectedVersion, expectedSignature, t, token, mutating, planMode)
    {
      var error := SessionError(user, r, session);
      if error.Some? { return Raised(error.value); }
      var run := runs[r];
      var actions := ValidActions(Tables(), r, run, None);
      if run.version != expectedVersion || ValidActionsSignature(run.version, actions) != expectedSignature {
        return Answered(409, MakeEnvelope(run, actions, Some(StaleProjection), Some(r), None));
      }
      var status, at := Proposed, None;
      if planMode && mutating {
        status, at := Blocked, Some(now);
      }
      if t in tools { return Raised(UniqueViolation); }
      tools := tools[t := Tool(r, run.version, mutating, token, status, None, at, None, at, None, None)];
      if status == Blocked {
        InsertDurableEvent(r, run.version, ToolFinished(t, Blocked));
        EventKeepsActions(Tables(), Tables(), r, run, Some(ToolNotAllowedInPlanMode), Some(r), Some(t));
        return Answered(409, MakeEnvelope(run, ValidActions(Tables(), r, run, None),
                                          Some(ToolNotAllowedInPlanMode), Some(r), Some(t)));
      }
      out := Answered(200, MakeEnvelope(run, ValidActions(Tables(), r, run, None), None, Some(r), Some(t)));
    }

    /** `claim_started_tx`: None is the error-free outcome; `claimed` tells a new claim from a repeated one. */
    method ClaimStarted(r: Id, t: Id, token: string) returns (error: Option<Error>, claimed: bool)
      modifies this
      ensures claimed <==> ToolOfRun(old(Tables()), r, t) && old(tools)[t].token == token
                           && old(tools)[t].status == Proposed && !HasStarted(old(Tables()), r, None)
      ensures Tables() == if claimed then PutTool(old(Tables()), t, Claimed(old(tools)[t], now)) else old(Tables())
      ensures error == (if claimed then None
                        else if !ToolOfRun(old(Tables()), r, t) || old(tools)[t].token != token
                          then Some(InvalidTransition)
                        else if old(tools)[t].status == Started then None
                        else if old(tools)[t].status == Proposed then Some(ActiveMutationInProgress)
                        else Some(InvalidTransition))
    {
      claimed := false;
      if t in tools && tools[t].runId == r && tools[t].status == Proposed && tools[t].token == token {
        // The partial unique index refuses a second started row of the run.
        if HasStarted(Tables(), r, None) { return Some(ActiveMutationInProgress), false; }
        tools := tools[t := tools[t].(status := Started, claimedAt := Some(now),
                                      startedAt := Some(now), heartbeatAt := Some(now))];
        return None, true;
      }
      if t !in tools || tools[t].runId != r { return Some(InvalidTransition), false; }
      if tools[t].status == Started && tools[t].token == token { return None, false; }
      return Some(InvalidTransition), false;
    }

    method StartToolCall(user: Id, r: Id, session: string, t: Id, token: string,
                         expectedVersion: int, expectedSignature: Signature) returns (out: Outcome)
      modifies this
      ensures (Tables(), out) == Start(old(Tables()), user, r, session, t, token, expectedVersion, expectedSignature)
    {
      var error := SessionError(user, r, session);
      if error.Some? { return Raised(error.value); }
      var run := runs[r];
      var actions := ValidActions(Tables(), r, run, None);
      if run.version != expectedVersion || ValidActionsSignature(run.version, actions) != expectedSignature {
        return Answered(409, MakeEnvelope(run, actions, Some(StaleProjection), Some(r), None));
      }
      var claimed;
      error, claimed := ClaimStarted(r, t, token);
      if error.Some? { return Raised(error.value); }
      if claimed {
        InsertDurableEvent(r, run.version, ToolClaimedStarted(t));
      }
      out := Answered(200, MakeEnvelope(runs[r], ValidActions(Tables(), r, runs[r], None), None, Some(r), Some(t)));
    }

    method HeartbeatToolCall(user: Id, r: Id, session: string, t: Id, token: string) returns (out: Outcome)
      modifies this
      ensures (Tables(), out) == Beat(old(Tables()), user, r, session, t, token)
    {
      var error := SessionError(user, r, session);
      if error.Some? { return Raised(error.value); }
      if t in tools && tools[t].runId == r && tools[t].status == Started && tools[t].token == token {
        tools := tools[t := tools[t].(heartbeatAt := Some(now))];
        return Heartbeat(true, None);
      }
      if t !in tools || tools[t].runId != r { return Raised(InvalidTransition); }
      if TerminalTool(tools[t].status) && tools[t].token == token { return Heartbeat(false, Some(tools[t].status)); }
      return Raised(InvalidTransition);
    }

    /** `cancel_started_tx`. */
    method CancelStarted(r: Id, t: Id, token: string) returns (error: Option<Error>, cancelled: bool)
      modifies this
      ensures cancelled <==> IsStarted(old(Tables()), r, t) && old(tools)[t].token == token
      ensures Tables() ==
          if cancelled then PutTool(old(Tables()), t, old(tools)[t].(status := Cancelled, finishedAt := Some(now)))
                          else old(Tables())
      ensures error == if cancelled || (ToolOfRun(old(Tables()), r, t) && old(tools)[t].token == token
                                        && old(tools)[t].status == Cancelled)
                       then None else Some(InvalidTransition)
    {
      cancelled := false;
      if t in tools && tools[t].runId == r && tools[t].status == Started && tools[t].token == token {
        tools := tools[t := tools[t].(status := Cancelled, finishedAt := Some(now))];
        return None, true;
      }
      if t !in tools || tools[t].runId != r { return Some(InvalidTransition), false; }
      if tools[t].status == Cancelled && tools[t].token == token { return None, false; }
      return Some(InvalidTransition), false;
    }

    method CancelToolCall(user: Id, r: Id, session: string, t: Id, token: string) returns (out: Outcome)
      modifies this
      ensures (Tables(), out) == CancelTool(old(Tables()), user, r, session, t, token)
    {
      var error := SessionError(user, r, session);
      if error.Some? { return Raised(error.value); }
      var run := runs[r];
      var cancelled;
      error, cancelled := CancelStarted(r, t, token);
      if error.Some? { return Raised(error.value); }
      if cancelled {
        InsertDurableEvent(r, run.version, ToolFinished(t, Cancelled));
      }
      EventKeepsActions(Tables(), Tables(), r, run, None, Some(r), Some(t));
      out := Answered(200, MakeEnvelope(run, ValidActions(Tables(), r, run, None), None, Some(r), Some(t)));
    }

    /** `terminalize_tx`: write the result once; an equal recomputed hash replays, anything else is refused. */
    method Terminalize(r: Id, t: Id, token: string, submission: Submission, response: StoredResponse)
      returns (error: Option<Error>, written: bool, replay: Option<StoredResponse>)
      modifies this
      ensures written <==> IsStarted(old(Tables()), r, t) && old(tools)[t].token == token
      ensures Tables() ==
          if written then PutTool(old(Tables()), t, Finished(old(tools)[t], submission, response, now))
          else old(Tables())
      ensures error == None && !written <==>
                ToolOfRun(old(Tables()), r, t) && ResultStatus(old(tools)[t].status)
                && old(tools)[t].resultHash == Some(Digest(submission))
      ensures error == None && !written ==> replay == old(tools)[t].response
      ensures ToolOfRun(old(Tables()), r, t) && ResultStatus(old(tools)[t].status) && error.Some?
          ==> error == Some(IdempotencyConflict)
    {
      replay := None;
      if t in tools && tools[t].runId == r && tools[t].status == Started && tools[t].token == token {
        tools := tools[t := tools[t].(status := submission.status, finishedAt := Some(now),
                                      resultHash := Some(Digest(submission)), response := Some(response))];
        return None, true, None;
      }
      if t !in tools || tools[t].runId != r { return Some(InvalidTransition), false, None; }
      if tools[t].status == Cancelled { return Some(InvalidTransition), false, None; }
      if ResultStatus(tools[t].status) {
        if tools[t].resultHash == Some(Digest(submission)) { return None, false, tools[t].response; }
        return Some(IdempotencyConflict), false, None;
      }
      return Some(InvalidTransition), false, None;
    }

    /** Code and error by which a result is answered. */
    static method AnswerToResult(status: ToolStatus, blockedReason: string) returns (code: int, error: Option<Error>)
      requires ResultStatus(status)
      ensures code == ResultCode(status) && error == ResultError(status, blockedReason)
    {
      code, error := 409, Some(ToolExecutionFailed);
      if status == Succeeded {
        code, error := 200, None;
      } else if status == TimedOut {
        error := Some(ToolTimeout);
      } else if status == Blocked {
        error := Some(BlockedBy(blockedReason));
      }
    }

    method ResultToolCall(user: Id, r: Id, session: string, t: Id, token: string, submission: Submission,
                          blockedReason: string, clientHash: Option<ResultHash>) returns (out: Outcome)
      modifies this
      ensures (Tables(), out) ==
          Result(limits, old(Tables()), user, r, session, t, token, submission, blockedReason, clientHash)
    {
      if !ResultStatus(submission.status) { return Raised(InvalidTransition); }
      var incoming := if clientHash.Some? then clientHash.value else Digest(submission);
      var error := SessionError(user, r, session);
      if error.Some? { return Raised(error.value); }
      if t !in tools || tools[t].runId != r { return Raised(InvalidTransition); }
      var run, tool := runs[r], tools[t];
      if tool.status == Cancelled { return Raised(InvalidTransition); }
      if ResultStatus(tool.status) {
        if tool.resultHash == Some(incoming) {
          if tool.response == None { return Replayed(200, None); }
          return Replayed(tool.response.value.code,
                          if tool.response.value.body.Cut? then None else Some(tool.response.value.body.envelope));
        }
        return Raised(IdempotencyConflict);
      }
      if tool.status != Started || tool.token != token { return Raised(InvalidTransition); }
      var actions := ValidActions(Tables(), r, run, Some(t));
      var code, failure := AnswerToResult(submission.status, blockedReason);
      var env := MakeEnvelope(run, actions, failure, Some(r), Some(t));
      var body := if limits.size(env) > limits.responseCap then Cut else Whole(env);
      var written, replay;
      error, written, replay := Terminalize(r, t, token, submission, StoredResponse(code, body));
      assert written;
      InsertDurableEvent(r, run.version, ToolFinished(t, submission.status));
      out := Answered(code, env);
    }

    // ---- the reconciler ----

    /** Time out the fetched rows one by one; `rows` is what FOR UPDATE SKIP LOCKED returned. */
    method ReconcileStaleStartedTools(timeoutSeconds: int, rows: seq<Id>) returns (touched: nat)
      requires StaleFetch(Tables(), timeoutSeconds, rows)
      modifies this
      ensures Tables() == TimeOutAll(old(Tables()), rows)
      ensures touched == Touches(old(Tables()), rows)
    {
      touched := 0;
      for i := 0 to |rows|
        invariant TimeOutAll(Tables(), rows[i..]) == TimeOutAll(old(Tables()), rows)
        invariant touched + Touches(Tables(), rows[i..]) == Touches(old(Tables()), rows)
      {
        var t := rows[i];
        assert rows[i..][0] == t && rows[i..][1..] == rows[i + 1..];
        if t in tools && tools[t].runId in runs && tools[t].status == Started {
          var r := tools[t].runId;
          var run := runs[r];
          var env := MakeEnvelope(run, ValidActions(Tables(), r, run, None), Some(ToolTimeout), Some(r), Some(t));
          tools := tools[t := tools[t].(status := TimedOut, finishedAt := Some(now),
                                        resultHash := Some(Digest(HEARTBEAT_EXPIRED)),
                                        response := Some(StoredResponse(409, Whole(env))))];
          touched := touched + 1;
          InsertDurableEvent(r, run.version, ToolFinished(t, TimedOut));
        }
      }
    }
  }
}
