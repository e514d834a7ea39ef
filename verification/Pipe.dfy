/**
 The pipe protocol as a transition system. One dispatcher takes the input lines in order and is
 the only one to touch the in-flight table and the configuration; every session has a worker that
 takes operations from a bounded queue, first in, first out. Each step below is what one of them
 does between two points where the others may move.
 */
module Pipe {
  import opened Wrappers
  import opened Config
  import opened Executor
  import opened Postgres

  const MAX_ACTIVE_QUERIES: nat := 64
  const MAX_SQL_BYTES: nat := 1_048_576
  const MAX_PARAMS: nat := 65_535

  datatype Phase = Queued | Running | Finished | CancelledPhase

  /** A query line. `sqlAllowed` is the verdict of the readonly policy on its SQL. */
  datatype QueryLine = QueryLine(
    id: Name,
    session: Option<Name>,
    sqlBytes: nat,
    params: nat,
    sqlAllowed: bool,
    permission: Option<Permission>)

  /** An accepted query. `config` is its session's configuration when it was accepted, if it had one. */
  datatype Submission = Submission(
    id: Name,
    session: Name,
    config: Option<SessionConfig>,
    sqlAllowed: bool,
    permission: Option<Permission>,
    phase: Phase,
    cancelRequested: bool,
    claimed: bool)
  {
    predicate IsFinished() {
      phase == Finished || phase == CancelledPhase
    }
  }

  /**
   A queued operation. The configuration an invalidation carries is the one installed with it; the
   worker does not look at it.
   */
  datatype SessionOp =
    | QueryOp(k: nat)
    | BeginOp(readOnly: bool, config: SessionConfig)
    | FinishOp(commit: bool)
    | InfoOp
    | InvalidateOp(installed: Option<SessionConfig>)

  /** What a worker holds in its hands: nothing, an operation, an executed query, a query it has answered. */
  datatype Task = Waiting | Busy(op: SessionOp) | Answered(k: nat, result: ExecResult) | Emitted(k: nat)

  /** `front` is the configuration in force for the operation in hand, or for the next one in the queue. */
  datatype Worker = Worker(queue: seq<SessionOp>, task: Task, front: Option<SessionConfig>)

  /** How the executor answered a query, and whether writes of it are left in the database or its transaction. */
  datatype ExecResult = ExecResult(error: Option<ExecError>, effect: bool)

  datatype Verdict = Succeeded | Failed(error: ExecError) | WasCancelled

  datatype Event =
    | Terminal(k: nat, verdict: Verdict, effect: bool)
    | Rejected(request: Option<Name>)
    | NoSuchQuery(id: Name)
    | AlreadyFinished(id: Name)
    | CancelAsked(id: Name)
    | ConfigInstalled(config: RuntimeConfig)

  /** A call that reached the executor: what it was accepted under and what it ran on. */
  datatype Call = Call(session: Name, query: Option<nat>, accepted: SessionConfig, used: SessionConfig, readOnly: bool)

  /**
   Where the dispatcher stands: between two lines, or inside the handling of one. A patch has places
   reserved in the queues of the first `taken` sessions it affects; once installed, it has sent the
   invalidations of the first `sent` and still holds the places of the others. `was` is the
   configuration it replaced.
   */
  datatype Dispatcher =
    | Ready
    | Submitting(line: QueryLine)
    | Claiming(id: Name, k: nat)
    | Checking(id: Name, k: nat)
    | Asking(id: Name, k: nat)
    | Reserving(patch: ConfigPatch, sessions: seq<Name>, taken: nat)
    | Sending(was: RuntimeConfig, sessions: seq<Name>, sent: nat)
  {
    /** Whether a place in the session's queue is held for an invalidation. */
    predicate Holds(session: Name) {
      match this
      case Reserving(_, sessions, taken) => taken <= |sessions| && session in sessions[..taken]
      case Sending(_, sessions, sent) => sent <= |sessions| && session in sessions[sent..]
      case _ => false
    }
  }

  datatype Pipe = Pipe(
    readOnlyCapability: bool,
    lockedProfile: bool,
    config: RuntimeConfig,
    subs: seq<Submission>,
    inFlight: map<Name, nat>,
    workers: map<Name, Worker>,
    connections: map<Name, SessionConfig>,
    dispatcher: Dispatcher,
    events: seq<Event>,
    calls: seq<Call>)

  function Fresh(readOnlyCapability: bool, lockedProfile: bool, config: RuntimeConfig): Pipe {
    Pipe(readOnlyCapability, lockedProfile, config, [], map[], map[], map[], Ready, [], [])
  }

  function ResolveName(cfg: RuntimeConfig, requested: Option<Name>): Name {
    GetOr(requested, cfg.defaultSession)
  }

  function NewWorker(cfg: RuntimeConfig, session: Name): Worker {
    Worker([], Waiting, SessionOf(cfg, session))
  }

  function WorkerOf(p: Pipe, session: Name): Worker {
    if session in p.workers then p.workers[session] else NewWorker(p.config, session)
  }

  /** A place is left in the session's queue beside the one that may be held there. */
  predicate HasRoom(p: Pipe, session: Name) {
    |WorkerOf(p, session).queue| + (if p.dispatcher.Holds(session) then 1 else 0) < MAX_ACTIVE_QUERIES
  }

  function SetWorker(p: Pipe, session: Name, w: Worker): Pipe {
    p.(workers := p.workers[session := w])
  }

  function GetSessionWorker(p: Pipe, session: Name): Pipe {
    SetWorker(p, session, WorkerOf(p, session))
  }

  function Queue(w: Worker, op: SessionOp): Worker {
    w.(queue := w.queue + [op])
  }

  function Enqueue(p: Pipe, session: Name, op: SessionOp): Pipe {
    SetWorker(p, session, Queue(WorkerOf(p, session), op))
  }

  function Emit(p: Pipe, e: Event): Pipe {
    p.(events := p.events + [e])
  }

  predicate TableOk(p: Pipe) {
    forall id :: id in p.inFlight ==> p.inFlight[id] < |p.subs|
  }

  function CleanedUp(p: Pipe): Pipe
    requires TableOk(p)
  {
    p.(inFlight := map id | id in p.inFlight && !p.subs[p.inFlight[id]].IsFinished() :: p.inFlight[id])
  }

  /** A query line arrives: it is refused for its size, or the table is cleaned up before it is entered. */
  function SubmitStart(p: Pipe, line: QueryLine): Pipe
    requires TableOk(p)
  {
    if line.sqlBytes > MAX_SQL_BYTES || line.params > MAX_PARAMS then Emit(p, Rejected(Some(line.id)))
    else CleanedUp(p).(dispatcher := Submitting(line))
  }

  function Accepted(p: Pipe, line: QueryLine): Submission {
    var session := ResolveName(p.config, line.session);
    Submission(line.id, session, SessionOf(p.config, session), line.sqlAllowed, line.permission, Queued, false, false)
  }

  function Entered(p: Pipe, line: QueryLine): Pipe {
    p.(subs := p.subs + [Accepted(p, line)], inFlight := p.inFlight[line.id := |p.subs|])
  }

  predicate ActiveNamesake(p: Pipe, id: Name)
    requires TableOk(p)
  {
    id in p.inFlight && !p.subs[p.inFlight[id]].IsFinished()
  }

  /** The query is entered and queued, or refused because the table or the session's queue is full. */
  function Admit(p: Pipe, line: QueryLine): Pipe {
    var session := ResolveName(p.config, line.session);
    if |p.inFlight| >= MAX_ACTIVE_QUERIES then Emit(p, Rejected(Some(line.id)))
    else if HasRoom(p, session) then Enqueue(Entered(p, line), session, QueryOp(|p.subs|))
    else Emit(GetSessionWorker(p, session), Rejected(Some(line.id)))
  }

  /** An active query of the same id refuses the line; a finished one makes room for it. */
  function SubmitFinish(p: Pipe, line: QueryLine): Pipe
    requires TableOk(p)
  {
    if ActiveNamesake(p, line.id) then Emit(p.(dispatcher := Ready), Rejected(Some(line.id)))
    else Admit(p.(dispatcher := Ready, inFlight := p.inFlight - {line.id}), line)
  }

  function SetSub(p: Pipe, k: nat, s: Submission): Pipe
    requires k < |p.subs|
  {
    p.(subs := p.subs[k := s])
  }

  /** A cancel looks the query up and tries to take it before its worker does. */
  function CancelStart(p: Pipe, id: Name): Pipe
    requires TableOk(p)
  {
    if id !in p.inFlight then Emit(p, NoSuchQuery(id))
    else
      var k := p.inFlight[id];
      if p.subs[k].phase == Queued then SetSub(p, k, p.subs[k].(phase := CancelledPhase)).(dispatcher := Claiming(id, k))
      else p.(dispatcher := Checking(id, k))
  }

  /** The query was still queued: the cancel is its outcome. */
  function CancelClaim(p: Pipe, id: Name, k: nat): Pipe
    requires k < |p.subs|
  {
    var q := SetSub(p, k, p.subs[k].(cancelRequested := true, claimed := true)).(inFlight := p.inFlight - {id}, dispatcher := Ready);
    if p.subs[k].claimed then q else Emit(q, Terminal(k, WasCancelled, false))
  }

  /** The query had started: it is over, or the server is asked to stop it. */
  function CancelCheck(p: Pipe, id: Name, k: nat): Pipe
    requires k < |p.subs|
  {
    if p.subs[k].IsFinished() then
      Emit(p.(inFlight := p.inFlight - {id}, dispatcher := Ready), AlreadyFinished(id))
    else SetSub(p, k, p.subs[k].(cancelRequested := true)).(dispatcher := Asking(id, k))
  }

  function CancelAcknowledge(p: Pipe, id: Name): Pipe {
    Emit(p.(dispatcher := Ready), CancelAsked(id))
  }

  /** A configuration patch is refused by the readonly policy, or begins to reserve places. */
  function PatchStart(p: Pipe, patch: ConfigPatch, sessions: seq<Name>, policyAllows: bool): Pipe {
    if p.readOnlyCapability && ((p.lockedProfile && patch.sessions.Some?) || !policyAllows) then Emit(p, Rejected(None))
    else p.(dispatcher := Reserving(patch, sessions, 0))
  }

  /** One place is reserved, or the patch is given up and every place it held is free again. */
  function ReserveNext(p: Pipe): Pipe
    requires p.dispatcher.Reserving? && p.dispatcher.taken < |p.dispatcher.sessions|
  {
    var d := p.dispatcher;
    var session := d.sessions[d.taken];
    var q := GetSessionWorker(p, session);
    if HasRoom(p, session) then q.(dispatcher := d.(taken := d.taken + 1))
    else Emit(q.(dispatcher := Ready), Rejected(None))
  }

  /** Every place is held: the new configuration is installed, before any invalidation is sent. */
  function Install(p: Pipe): Pipe
    requires p.dispatcher.Reserving?
  {
    p.(config := Updated(p.config, p.dispatcher.patch), dispatcher := Sending(p.config, p.dispatcher.sessions, 0))
  }

  /** One reserved place is used for the invalidation of its session. */
  function SendNext(p: Pipe): Pipe
    requires p.dispatcher.Sending? && p.dispatcher.sent < |p.dispatcher.sessions|
  {
    var d := p.dispatcher;
    var session := d.sessions[d.sent];
    Enqueue(p, session, InvalidateOp(SessionOf(p.config, session))).(dispatcher := d.(sent := d.sent + 1))
  }

  function Announce(p: Pipe): Pipe {
    Emit(p.(dispatcher := Ready), ConfigInstalled(p.config))
  }

  /** A transaction request or a probe goes through its session's queue like a query. */
  function SubmitOp(p: Pipe, id: Option<Name>, session: Name, op: SessionOp): Pipe {
    if HasRoom(p, session) then Enqueue(p, session, op) else Emit(GetSessionWorker(p, session), Rejected(id))
  }

  function SubmitBegin(p: Pipe, id: Option<Name>, requested: Option<Name>, readOnly: bool, permission: Option<Permission>, policyAllows: bool): Pipe {
    var session := ResolveName(p.config, requested);
    var config := SessionOf(p.config, session);
    if p.readOnlyCapability && (!readOnly || (permission.Some? && !permission.value.IsReadOnly())) then Emit(p, Rejected(id))
    else if config.None? || (p.readOnlyCapability && !policyAllows) then Emit(p, Rejected(id))
    else if !readOnly && ResolveReadOnly(permission, config.value) != Ok(false) then Emit(p, Rejected(id))
    else SubmitOp(p, id, session, BeginOp(readOnly, config.value))
  }

  function SubmitTxEnd(p: Pipe, id: Option<Name>, requested: Option<Name>, commit: bool): Pipe {
    var session := ResolveName(p.config, requested);
    if session !in p.config.sessions then Emit(p, Rejected(id)) else SubmitOp(p, id, session, FinishOp(commit))
  }

  function SubmitInfo(p: Pipe, id: Option<Name>, requested: Option<Name>): Pipe {
    SubmitOp(p, id, ResolveName(p.config, requested), InfoOp)
  }

  predicate QueriesOk(p: Pipe, w: Worker) {
    && (forall i :: 0 <= i < |w.queue| && w.queue[i].QueryOp? ==> w.queue[i].k < |p.subs|)
    && (w.task.Busy? && w.task.op.QueryOp? ==> w.task.op.k < |p.subs|)
    && (w.task.Answered? || w.task.Emitted? ==> w.task.k < |p.subs|)
  }

  /** A worker takes its next operation; a query that was cancelled while it waited is passed over. */
  function Take(p: Pipe, session: Name): Pipe
    requires session in p.workers && p.workers[session].queue != [] && QueriesOk(p, p.workers[session])
  {
    var w := p.workers[session];
    var op := w.queue[0];
    var rest := w.(queue := w.queue[1..]);
    if op.QueryOp? then
      if p.subs[op.k].phase == Queued then
        SetWorker(SetSub(p, op.k, p.subs[op.k].(phase := Running)), session, rest.(task := Busy(op)))
      else SetWorker(p, session, rest)
    else SetWorker(p, session, rest.(task := Busy(op)))
  }

  /** A query refused before the executor: unknown session, unusable permission, or the readonly policy. */
  predicate RefusedEarly(p: Pipe, s: Submission, policyAllows: bool) {
    || s.config.None?
    || ResolveReadOnly(s.permission, s.config.value).Err?
    || (p.readOnlyCapability && (!policyAllows || !s.sqlAllowed || ResolveReadOnly(s.permission, s.config.value) == Ok(false)))
  }

  /** What the executor did with the session's connection during one call. */
  datatype Link = Link(reopened: bool, ran: bool, dropped: bool)

  /** The configuration behind the connection a call uses: the one it was opened under, or that of the call if it is opened now. */
  function UsedConfig(connections: map<Name, SessionConfig>, session: Name, accepted: SessionConfig, link: Link): SessionConfig {
    if session in connections && !link.reopened then connections[session] else accepted
  }

  /** The connections after a call: the session's is kept for the next one unless the call lost it. */
  function Connected(connections: map<Name, SessionConfig>, session: Name, accepted: SessionConfig, link: Link): map<Name, SessionConfig> {
    if link.dropped then connections - {session}
    else connections[session := UsedConfig(connections, session, accepted, link)]
  }

  function Called(p: Pipe, session: Name, query: Option<nat>, accepted: SessionConfig, readOnly: bool, link: Link): Pipe {
    var q := p.(connections := Connected(p.connections, session, accepted, link));
    if link.ran then q.(calls := q.calls + [Call(session, query, accepted, UsedConfig(p.connections, session, accepted, link), readOnly)]) else q
  }

  /** What the executor guarantees of one query: no false cancellation, and no writes behind a settled error. */
  predicate Honest(requested: bool, r: ExecResult) {
    && (r.error == Some(Cancelled) ==> requested)
    && (r.error.Some? && r.error != Some(CommitOutcomeUnknown) ==> !r.effect)
  }

  function RunQuery(p: Pipe, session: Name, k: nat, policyAllows: bool, link: Link, result: ExecResult): Pipe
    requires session in p.workers && k < |p.subs|
  {
    var s := p.subs[k];
    var w := p.workers[session];
    if RefusedEarly(p, s, policyAllows) then
      Emit(SetWorker(p, session, w.(task := Emitted(k))), Terminal(k, Failed(InvalidRequest), false))
    else
      Called(
        SetWorker(p, session, w.(task := Answered(k, result))),
        session, Some(k), s.config.value, ResolveReadOnly(s.permission, s.config.value).value, link)
  }

  /** A server-side stop is a cancellation only if this process asked for one. */
  function SettleCancel(r: ExecResult, requested: bool): Verdict {
    match r.error
    case None => Succeeded
    case Some(Cancelled) => WasCancelled
    case Some(Sql(code)) => if requested && code == QUERY_CANCELED then WasCancelled else Failed(Sql(code))
    case Some(e) => Failed(e)
  }

  /** The worker claims the query's terminal event and emits it, unless it was claimed before. */
  function EmitTerminal(p: Pipe, session: Name, k: nat, result: ExecResult): Pipe
    requires session in p.workers && k < |p.subs|
  {
    var q := SetWorker(p, session, p.workers[session].(task := Emitted(k)));
    if p.subs[k].claimed then q
    else Emit(SetSub(q, k, p.subs[k].(claimed := true)), Terminal(k, SettleCancel(result, p.subs[k].cancelRequested), result.effect))
  }

  function FinishQuery(p: Pipe, session: Name, k: nat): Pipe
    requires session in p.workers && k < |p.subs|
  {
    SetWorker(SetSub(p, k, p.subs[k].(phase := Finished)), session, p.workers[session].(task := Waiting))
  }

  /**
   The other operations: a begin calls the executor, a commit or rollback may lose the connection, an
   invalidation forgets it. The session of a commit or rollback is always known by then.
   */
  function RunControl(p: Pipe, session: Name, op: SessionOp, link: Link): Pipe
    requires session in p.workers && !op.QueryOp?
  {
    var w := p.workers[session];
    var q := SetWorker(p, session, w.(task := Waiting));
    match op
    case BeginOp(readOnly, config) => Called(q, session, None, config, readOnly, link)
    case FinishOp(_) => if link.dropped then q.(connections := q.connections - {session}) else q
    case InvalidateOp(config) =>
      SetWorker(q, session, w.(task := Waiting, front := config)).(connections := q.connections - {session})
    case _ => q
  }

  datatype Action =
    | DoSubmitStart(line: QueryLine)
    | DoSubmitFinish
    | DoCancelStart(id: Name)
    | DoCancelClaim
    | DoCancelCheck
    | DoCancelAcknowledge
    | DoPatch(patch: ConfigPatch, sessions: seq<Name>, policyAllows: bool)
    | DoReserve
    | DoInstall
    | DoSend
    | DoAnnounce
    | DoBegin(requestId: Option<Name>, requested: Option<Name>, readOnly: bool, permission: Option<Permission>, policyAllows: bool)
    | DoTxEnd(requestId: Option<Name>, requested: Option<Name>, commit: bool)
    | DoInfo(requestId: Option<Name>, requested: Option<Name>)
    | DoPing
    | DoTake(session: Name)
    | DoRunQuery(session: Name, policyAllows: bool, link: Link, result: ExecResult)
    | DoEmit(session: Name)
    | DoFinish(session: Name)
    | DoRunControl(session: Name, link: Link)

  predicate WorkerAt(p: Pipe, session: Name) {
    session in p.workers && QueriesOk(p, p.workers[session])
  }

  ghost predicate Enabled(p: Pipe, step: Action) {
    match step
    case DoSubmitFinish => p.dispatcher.Submitting? && TableOk(p)
    case DoCancelClaim => p.dispatcher.Claiming? && p.dispatcher.k < |p.subs|
    case DoCancelCheck => p.dispatcher.Checking? && p.dispatcher.k < |p.subs|
    case DoCancelAcknowledge => p.dispatcher.Asking?
    case DoPatch(patch, sessions, _) =>
      p.dispatcher.Ready? && StrictlySorted(sessions) && forall n :: n in sessions <==> n in AffectedSessions(patch)
    case DoReserve => p.dispatcher.Reserving? && p.dispatcher.taken < |p.dispatcher.sessions|
    case DoInstall => p.dispatcher.Reserving? && p.dispatcher.taken == |p.dispatcher.sessions|
    case DoSend => p.dispatcher.Sending? && p.dispatcher.sent < |p.dispatcher.sessions|
    case DoAnnounce => p.dispatcher.Sending? && p.dispatcher.sent == |p.dispatcher.sessions|
    case DoTake(session) => WorkerAt(p, session) && p.workers[session].task.Waiting? && p.workers[session].queue != []
    case DoRunQuery(session, _, _, result) =>
      && WorkerAt(p, session) && p.workers[session].task.Busy? && p.workers[session].task.op.QueryOp?
      && Honest(p.subs[p.workers[session].task.op.k].cancelRequested, result)
    case DoEmit(session) => WorkerAt(p, session) && p.workers[session].task.Answered?
    case DoFinish(session) => WorkerAt(p, session) && p.workers[session].task.Emitted?
    case DoRunControl(session, _) => WorkerAt(p, session) && p.workers[session].task.Busy? && !p.workers[session].task.op.QueryOp?
    case _ => p.dispatcher.Ready? && TableOk(p)
  }

  ghost function Apply(p: Pipe, step: Action): Pipe
    requires Enabled(p, step)
  {
    match step
    case DoSubmitStart(line) => SubmitStart(p, line)
    case DoSubmitFinish => SubmitFinish(p, p.dispatcher.line)
    case DoCancelStart(id) => CancelStart(p, id)
    case DoCancelClaim => CancelClaim(p, p.dispatcher.id, p.dispatcher.k)
    case DoCancelCheck => CancelCheck(p, p.dispatcher.id, p.dispatcher.k)
    case DoCancelAcknowledge => CancelAcknowledge(p, p.dispatcher.id)
    case DoPatch(patch, sessions, policyAllows) => PatchStart(p, patch, sessions, policyAllows)
    case DoReserve => ReserveNext(p)
    case DoInstall => Install(p)
    case DoSend => SendNext(p)
    case DoAnnounce => Announce(p)
    case DoBegin(id, requested, readOnly, permission, policyAllows) => SubmitBegin(p, id, requested, readOnly, permission, policyAllows)
    case DoTxEnd(id, requested, commit) => SubmitTxEnd(p, id, requested, commit)
    case DoInfo(id, requested) => SubmitInfo(p, id, requested)
    case DoPing => CleanedUp(p)
    case DoTake(session) => Take(p, session)
    case DoRunQuery(session, policyAllows, link, result) =>
      RunQuery(p, session, p.workers[session].task.op.k, policyAllows, link, result)
    case DoEmit(session) => EmitTerminal(p, session, p.workers[session].task.k, p.workers[session].task.result)
    case DoFinish(session) => FinishQuery(p, session, p.workers[session].task.k)
    case DoRunControl(session, link) => RunControl(p, session, p.workers[session].task.op, link)
  }
}
