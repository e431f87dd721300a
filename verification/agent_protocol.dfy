/**
  What one committed transaction does to the tables, and what it answers. Answers are stated
  against the state the transaction leaves behind; a raised error leaves the tables as they were.
*/
module AgentProtocol {
  import opened Options
  import opened OrchestrationContracts
  import opened AgentStore

  datatype Outcome =
    | Raised(error: Error)
    | Answered(code: int, envelope: Envelope)
    | Replayed(code: int, stored: Option<Envelope>)
    | Missed
    | Heartbeat(active: bool, status: Option<ToolStatus>)
    | Touched(count: nat)
    | Quiet

  /** The two fenced, idempotent requests: run transitions and approval consumption. */
  datatype Mutation =
    | Transition(user: Id, roleClass: string, runId: Id, idempotencyKey: string,
                 expectedVersion: int, expectedSignature: Signature, action: string, payload: string)
    | Consume(user: Id, roleClass: string, runId: Id, idempotencyKey: string,
              expectedVersion: int, expectedSignature: Signature, toolId: Id, approvalId: Id)

  function KeyOf(m: Mutation): ReplayKey {
    match m
    case Transition(u, c, r, k, _, _, _, _) => ReplayKey(r, None, u, c, RunTransitionScope, k)
    case Consume(u, c, r, k, _, _, t, _) => ReplayKey(r, Some(t), u, c, ApprovalDecisionScope, k)
  }

  function HashOf(m: Mutation): PayloadHash {
    match m
    case Transition(_, _, _, _, v, s, a, p) => TransitionPayload(a, p, v, s)
    case Consume(_, _, _, _, v, s, t, a) => ApprovalPayload(t, a, v, s)
  }

  predicate OwnsRun(db: Db, user: Id, r: Id) {
    r in db.runs && db.runs[r].owner == user
  }

  /** `_replay_preread`, outside any transaction. */
  function Preread(db: Db, m: Mutation): Outcome {
    var key := KeyOf(m);
    if key !in db.replays then Missed
    else if db.replays[key].hash != HashOf(m) then Raised(IdempotencyConflict)
    else match db.replays[key]
      case CompletedReplay(_, code, Whole(env)) => Replayed(code, Some(env))
      case CompletedReplay(_, _, Cut) => Raised(BadStoredJson)
      case Processing(_) => Raised(ActiveMutationInProgress)
      case FailedReplay(_) => Missed
  }

  predicate LeaseActive(db: Db, r: Id) {
    r in db.leases && db.leases[r].expiresAt > db.now
  }

  /** Errors raised before the request is recorded. */
  function Admission(db: Db, m: Mutation): Option<Error> {
    if !OwnsRun(db, m.user, m.runId) then Some(InvalidTransition)
    else if m.Consume? && !(m.toolId in db.tools && db.tools[m.toolId].runId == m.runId) then Some(InvalidTransition)
    else if m.Consume? && !(m.approvalId in db.approvals && db.approvals[m.approvalId].runId == m.runId
                            && db.approvals[m.approvalId].toolId == m.toolId) then Some(ApprovalRequired)
    else if LeaseActive(db, m.runId) then Some(ActiveMutationInProgress)
    else if KeyOf(m) !in db.replays then None
    else if db.replays[KeyOf(m)].hash != HashOf(m) then Some(IdempotencyConflict)
    else if db.replays[KeyOf(m)].CompletedReplay? then Some(HoldConflict)
    else None
  }

  /** `_maybe_expire_run_tx`. */
  function ExpireIfDue(run: Run, now: Time): Run {
    if TerminalRun(run.state) || run.expiresAt == None || run.expiresAt.value > now then run
    else Bump(run, Expired, Some("expired_timeout"), false, run.cancelRequestedAt, run.cancelDisposition)
  }

  datatype Applied = Refused(error: Error) | Moved(run: Run)

  /** `_apply_transition_action_tx`: the row a run-level action leads to, or why it is refused. */
  function ApplyAction(run: Run, action: string, hasStarted: bool, now: Time): Applied {
    if action == "resume" then
      if run.state == Interrupted && !run.resumable then Refused(RunNotResumable)
      else if run.state != Created && run.state != Interrupted then Refused(InvalidTransition)
      else Moved(Bump(run, Running, None, run.resumable, run.cancelRequestedAt, run.cancelDisposition))
    else if action == "cancel" then
      if TerminalRun(run.state) then Refused(InvalidTransition)
      else if hasStarted then
        Moved(Bump(run, run.state, run.reason, run.resumable, Some(now), run.cancelDisposition))
      else
        Moved(Bump(run, Canceled, Some("canceled_user"), false,
                   if run.cancelRequestedAt.Some? then run.cancelRequestedAt else Some(now),
                   Some("canceled_by_user")))
    else if action == "handoff" then Moved(run)
    else Refused(InvalidTransition)
  }

  /** The row of a run whose approval has just been consumed. */
  function AfterApproval(run: Run): Run {
    Bump(run, if run.state == AwaitingApproval then Running else run.state,
         if run.state == AwaitingApproval then None else run.reason,
         run.resumable, run.cancelRequestedAt, run.cancelDisposition)
  }

  datatype Effect = Abort(error: Error) | Decline(error: Error) | Act(db: Db)

  /** What an admitted request with a holding fence does. */
  function Perform(db: Db, m: Mutation): Effect
    requires m.runId in db.runs
    requires m.Consume? ==> m.approvalId in db.approvals
  {
    var r, run := m.runId, db.runs[m.runId];
    if !FenceHolds(db, r, m.expectedVersion, m.expectedSignature) then Decline(StaleProjection)
    else match m
      case Transition(_, _, _, _, _, _, action, _) =>
        if action !in ActionNames(ValidActions(db, r, run, None)) then Decline(InvalidTransition)
        else (match ApplyAction(run, action, HasStarted(db, r, None), db.now)
              case Refused(e) => Abort(e)
              case Moved(run') => Act(AppendEvent(PutRun(db, r, run'), r, run'.version, RunTransitionEvent(action))))
      case Consume(_, _, _, _, _, _, t, a) =>
        var row := db.approvals[a];
        if row.decision != Approved || row.consumedAt.Some? || row.versionApproved != run.version then
          Decline(ApprovalRequired)
        else
          var run' := AfterApproval(run);
          Act(AppendEvent(PutRun(db, r, run')
                .(approvals := db.approvals[a := row.(decision := Consumed, consumedAt := Some(db.now))]),
                          r, run'.version, ApprovalConsumedEvent(a, t)))
  }

  /** Record the answer under the request's key, release the lease, and answer with the run id added. */
  function Conclude(limits: Limits, db: Db, m: Mutation, code: int, error: Option<Error>): (Db, Outcome)
    requires m.runId in db.runs
  {
    var env := EnvelopeOf(db, m.runId, error, None, None);
    (db.(replays := db.replays[KeyOf(m) :=
          CompletedReplay(HashOf(m), code, Stored(limits.size, limits.replayCap, env))],
         leases := db.leases - {m.runId}),
     Answered(code, env.(runId := Some(m.runId))))
  }

  /** How the transaction ends: rolled back, declined on the expired row, or done. */
  function Finish(limits: Limits, before: Db, expired: Db, m: Mutation, effect: Effect): (Db, Outcome)
    requires m.runId in expired.runs && (effect.Act? ==> m.runId in effect.db.runs)
  {
    match effect
    case Abort(e) => (before, Raised(e))
    case Decline(e) => Conclude(limits, expired, m, 409, Some(e))
    case Act(after) => Conclude(limits, after, m, 200, None)
  }

  /** The transaction of transition_run and of consume_approval. */
  function Commit(limits: Limits, db: Db, m: Mutation): (Db, Outcome) {
    match Admission(db, m)
    case Some(e) => (db, Raised(e))
    case None =>
      var expired := PutRun(db, m.runId, ExpireIfDue(db.runs[m.runId], db.now));
      Finish(limits, db, expired, m, Perform(expired, m))
  }

  // ---- runs and workspaces ----

  function CreateRun(db: Db, user: Id, r: Id, state: RunState, resumable: bool, expiresAt: Option<Time>): (Db,
                                                                                                           Outcome) {
    if r in db.runs then (db, Raised(UniqueViolation))
    else
      var db1 := PutRun(db, r, Run(user, state, 0, 0, resumable, None, None, None, expiresAt,
                                   Workspace(None, None, None, None)));
      (db1, Answered(200, EnvelopeOf(db1, r, None, Some(r), None)))
  }

  /** A text column counts as set when it is neither NULL nor empty. */
  predicate Differs(existing: Option<string>, wanted: string) {
    existing.Some? && existing.value != "" && existing.value != wanted
  }

  predicate WorkspaceClash(was: Workspace, next: Workspace) {
    || Differs(was.session, if next.session.Some? then next.session.value else "")
    || Differs(was.root, if next.root.Some? then next.root.value else "")
    || Differs(was.fingerprint, if next.fingerprint.Some? then next.fingerprint.value else "")
    || Differs(was.git, if next.git.Some? then next.git.value else "")
  }

  function Register(db: Db, user: Id, r: Id, session: string, root: string, fingerprint: string,
                    git: Option<string>): (Db, Outcome) {
    var ws := Workspace(Some(session), Some(root), Some(fingerprint), git);
    if !OwnsRun(db, user, r) || (HasTool(db, r) && WorkspaceClash(db.runs[r].workspace, ws)) then
      (db, Raised(InvalidTransition))
    else
      var db1 := PutRun(db, r, db.runs[r].(workspace := ws));
      (db1, Answered(200, EnvelopeOf(db1, r, None, Some(r), None)))
  }

  // ---- tool calls ----

  /** Owner and `_assert_runtime_session_tx`, in front of every tool operation. */
  predicate SessionHolds(db: Db, user: Id, r: Id, session: string) {
    OwnsRun(db, user, r) && session != "" && db.runs[r].workspace.session == Some(session)
  }

  /** The row a proposal inserts; plan mode blocks a mutating tool outright. */
  function ProposedRow(db: Db, r: Id, token: string, mutating: bool, planMode: bool): Tool
    requires r in db.runs
  {
    var blocked := planMode && mutating;
    var at := if blocked then Some(db.now) else None;
    Tool(r, db.runs[r].version, mutating, token, if blocked then Blocked else Proposed,
         None, at, None, at, None, None)
  }

  function Propose(db: Db, user: Id, r: Id, session: string, expectedVersion: int, expectedSignature: Signature,
                   t: Id, token: string, mutating: bool, planMode: bool): (Db, Outcome)
  {
    if !SessionHolds(db, user, r, session) then (db, Raised(InvalidTransition))
    else if !FenceHolds(db, r, expectedVersion, expectedSignature) then
      (db, Answered(409, EnvelopeOf(db, r, Some(StaleProjection), Some(r), None)))
    else if t in db.tools then (db, Raised(UniqueViolation))
    else
      var db1 := PutTool(db, t, ProposedRow(db, r, token, mutating, planMode));
      if planMode && mutating then
        var db2 := AppendEvent(db1, r, db.runs[r].version, ToolFinished(t, Blocked));
        (db2, Answered(409, EnvelopeOf(db2, r, Some(ToolNotAllowedInPlanMode), Some(r), Some(t))))
      else (db1, Answered(200, EnvelopeOf(db1, r, None, Some(r), Some(t))))
  }

  predicate ToolOfRun(db: Db, r: Id, t: Id) { t in db.tools && db.tools[t].runId == r }

  function Claimed(tool: Tool, now: Time): Tool {
    tool.(status := Started, claimedAt := Some(now), startedAt := Some(now), heartbeatAt := Some(now))
  }

  function Start(db: Db, user: Id, r: Id, session: string, t: Id, token: string,
                 expectedVersion: int, expectedSignature: Signature): (Db, Outcome)
  {
    if !SessionHolds(db, user, r, session) then (db, Raised(InvalidTransition))
    else if !FenceHolds(db, r, expectedVersion, expectedSignature) then
      (db, Answered(409, EnvelopeOf(db, r, Some(StaleProjection), Some(r), None)))
    else if !ToolOfRun(db, r, t) || db.tools[t].token != token then (db, Raised(InvalidTransition))
    else if db.tools[t].status == Started then (db, Answered(200, EnvelopeOf(db, r, None, Some(r), Some(t))))
    else if db.tools[t].status != Proposed then (db, Raised(InvalidTransition))
    else if HasStarted(db, r, None) then (db, Raised(ActiveMutationInProgress))
    else
      var db1 := AppendEvent(PutTool(db, t, Claimed(db.tools[t], db.now)),
                             r, db.runs[r].version, ToolClaimedStarted(t));
      (db1, Answered(200, EnvelopeOf(db1, r, None, Some(r), Some(t))))
  }

  function Beat(db: Db, user: Id, r: Id, session: string, t: Id, token: string): (Db, Outcome) {
    if !SessionHolds(db, user, r, session) || !ToolOfRun(db, r, t) || db.tools[t].token != token then
      (db, Raised(InvalidTransition))
    else if db.tools[t].status == Started then
      (PutTool(db, t, db.tools[t].(heartbeatAt := Some(db.now))), Heartbeat(true, None))
    else if TerminalTool(db.tools[t].status) then (db, Heartbeat(false, Some(db.tools[t].status)))
    else (db, Raised(InvalidTransition))
  }

  function CancelTool(db: Db, user: Id, r: Id, session: string, t: Id, token: string): (Db, Outcome) {
    if !SessionHolds(db, user, r, session) || !ToolOfRun(db, r, t) || db.tools[t].token != token then
      (db, Raised(InvalidTransition))
    else if db.tools[t].status == Cancelled then (db, Answered(200, EnvelopeOf(db, r, None, Some(r), Some(t))))
    else if db.tools[t].status != Started then (db, Raised(InvalidTransition))
    else
      var db1 := AppendEvent(PutTool(db, t, db.tools[t].(status := Cancelled, finishedAt := Some(db.now))),
                             r, db.runs[r].version, ToolFinished(t, Cancelled));
      (db1, Answered(200, EnvelopeOf(db1, r, None, Some(r), Some(t))))
  }

  /** Code and error of the answer to a result. */
  function ResultCode(s: ToolStatus): int { if s == Succeeded then 200 else 409 }

  function ResultError(s: ToolStatus, blockedReason: string): Option<Error> {
    match s
    case Succeeded => None
    case TimedOut => Some(ToolTimeout)
    case Blocked => Some(BlockedBy(blockedReason))
    case _ => Some(ToolExecutionFailed)
  }

  function Replay(tool: Tool): Outcome {
    match tool.response
    case None => Replayed(200, None)
    case Some(StoredResponse(code, Whole(env))) => Replayed(code, Some(env))
    case Some(StoredResponse(code, Cut)) => Replayed(code, None)
  }

  /** The row terminalize_tx writes; the stored hash is always recomputed from the submission. */
  function Finished(tool: Tool, submission: Submission, response: StoredResponse, now: Time): Tool {
    tool.(status := submission.status, finishedAt := Some(now), resultHash := Some(Digest(submission)),
          response := Some(response))
  }

  /** The answer to a result, computed while the tool still counts as started: it is left out by name. */
  function ResultEnvelope(db: Db, r: Id, t: Id, status: ToolStatus, blockedReason: string): Envelope
    requires r in db.runs
  {
    MakeEnvelope(db.runs[r], ValidActions(db, r, db.runs[r], Some(t)), ResultError(status, blockedReason),
                 Some(r), Some(t))
  }

  function Result(limits: Limits, db: Db, user: Id, r: Id, session: string, t: Id, token: string,
                  submission: Submission, blockedReason: string, clientHash: Option<ResultHash>): (Db, Outcome)
  {
    var incoming := if clientHash.Some? then clientHash.value else Digest(submission);
    if !ResultStatus(submission.status) then (db, Raised(InvalidTransition))
    else if !SessionHolds(db, user, r, session) || !ToolOfRun(db, r, t) then (db, Raised(InvalidTransition))
    else
      var tool := db.tools[t];
      if tool.status == Cancelled then (db, Raised(InvalidTransition))
      else if ResultStatus(tool.status) then
        (db, if tool.resultHash == Some(incoming) then Replay(tool) else Raised(IdempotencyConflict))
      else if tool.status != Started || tool.token != token then (db, Raised(InvalidTransition))
      else
        var code := ResultCode(submission.status);
        var env := ResultEnvelope(db, r, t, submission.status, blockedReason);
        var row := Finished(tool, submission, StoredResponse(code,
                                                        Stored(limits.size, limits.responseCap, env)), db.now);
        (AppendEvent(PutTool(db, t, row), r, db.runs[r].version, ToolFinished(t, submission.status)),
         Answered(code, env))
  }

  // ---- the reconciler ----

  const EMPTY_SHA := "e3b0c44298fc1c149afbf4c8996fb92427ae41e4649b934ca495991b7852b855"
  const HEARTBEAT_EXPIRED := Submission(TimedOut,
    "{\"detail\":\"Heartbeat expired.\",\"ok\":false,\"reason_code\":\"tool_timeout\"}",
                                        EMPTY_SHA, EMPTY_SHA)

  function AtLeast(bound: int, n: int): int { if n < bound then bound else n }

  /** The reconciler's WHERE clause. */
  predicate Stale(tool: Tool, now: Time, timeoutSeconds: int) {
    && tool.status == Started
    && var limit := now - AtLeast(5, timeoutSeconds) * SECOND;
       if tool.heartbeatAt.Some? then tool.heartbeatAt.value < limit
       else tool.startedAt.Some? && tool.startedAt.value < limit
  }

  /** `is_started_tool_timed_out`. */
  predicate IsTimedOut(startedAt: Option<Time>, heartbeatAt: Option<Time>, now: Time, timeoutSeconds: int) {
    && startedAt.Some?
    && var threshold := now - AtLeast(1, timeoutSeconds) * SECOND;
       if heartbeatAt.None? then startedAt.value < threshold else heartbeatAt.value < threshold
  }

  /** Time out one fetched row; its stored answer describes the state before its own update. */
  function TimeOut(db: Db, t: Id): Db {
    if !(t in db.tools && db.tools[t].runId in db.runs && db.tools[t].status == Started) then db
    else
      var r := db.tools[t].runId;
      var env := EnvelopeOf(db, r, Some(ToolTimeout), Some(r), Some(t));
      var row := Finished(db.tools[t], HEARTBEAT_EXPIRED, StoredResponse(409, Whole(env)), db.now);
      AppendEvent(PutTool(db, t, row), r, db.runs[r].version, ToolFinished(t, TimedOut))
  }

  function TimeOutAll(db: Db, rows: seq<Id>): Db
    decreases |rows|
  {
    if rows == [] then db else TimeOutAll(TimeOut(db, rows[0]), rows[1..])
  }

  /** How many rows the loop updates. */
  function Touches(db: Db, rows: seq<Id>): nat
    decreases |rows|
  {
    if rows == [] then 0
    else One(rows[0] in db.tools && db.tools[rows[0]].runId in db.runs && db.tools[rows[0]].status == Started)
         + Touches(TimeOut(db, rows[0]), rows[1..])
  }

  function One(b: bool): nat { if b then 1 else 0 }

  /** FOR UPDATE SKIP LOCKED may leave any of the stale rows out, and fetches them in any order. */
  predicate StaleFetch(db: Db, timeoutSeconds: int, rows: seq<Id>) {
    forall t | t in rows :: t in db.tools && Stale(db.tools[t], db.now, timeoutSeconds)
  }
}
