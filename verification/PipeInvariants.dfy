/**
 What every step of the pipe keeps, for every interleaving of the dispatcher and the workers.
 */
module PipeInvariants {
  import opened Wrappers
  import opened Config
  import opened Executor
  import opened Postgres
  import opened Pipe

  predicate Active(s: Submission) {
    s.phase == Queued || s.phase == Running
  }

  /** The query a worker is running, has run or has just answered for. */
  function InHand(t: Task): Option<nat> {
    match t
    case Waiting => None
    case Busy(op) => if op.QueryOp? then Some(op.k) else None
    case Answered(k, _) => Some(k)
    case Emitted(k) => Some(k)
  }

  ghost predicate EntryOk(p: Pipe, id: Name) {
    id in p.inFlight ==>
      && p.inFlight[id] < |p.subs|
      && p.subs[p.inFlight[id]].id == id
      && (p.subs[p.inFlight[id]].phase == CancelledPhase ==> p.dispatcher == Claiming(id, p.inFlight[id]))
  }

  ghost predicate PlaceOk(p: Pipe, k: nat) {
    k < |p.subs| && Active(p.subs[k]) ==> p.subs[k].id in p.inFlight && p.inFlight[p.subs[k].id] == k
  }

  /** The query a cancel is about keeps its entry until the cancel removes it. */
  ghost predicate DispatcherOk(p: Pipe) {
    match p.dispatcher
    case Claiming(id, k) => id in p.inFlight && p.inFlight[id] == k && k < |p.subs| && p.subs[k].phase == CancelledPhase
    case Checking(id, k) => id in p.inFlight && p.inFlight[id] == k && k < |p.subs| && p.subs[k].phase in {Running, Finished}
    case Asking(id, k) => id in p.inFlight && p.inFlight[id] == k && k < |p.subs| && p.subs[k].phase in {Running, Finished}
    case _ => true
  }

  /** The dispatcher's own table: ids are unique, every active query owns its id, and there are at most 64. */
  ghost predicate TableInv(p: Pipe) {
    && |p.inFlight| <= MAX_ACTIVE_QUERIES
    && DispatcherOk(p)
    && (forall id: Name :: EntryOk(p, id))
    && (forall k: nat :: PlaceOk(p, k))
    && TableOk(p)
  }

  lemma EntriesAreIndexed(p: Pipe)
    requires forall id: Name :: EntryOk(p, id)
    ensures TableOk(p)
  {
    forall id | id in p.inFlight ensures p.inFlight[id] < |p.subs| { assert EntryOk(p, id); }
  }

  lemma SmallerKeys(m: map<Name, nat>, n: map<Name, nat>)
    requires m.Keys <= n.Keys
    ensures |m| <= |n|
  {
    Cardinality(m.Keys, n.Keys);
    assert |m| == |m.Keys| && |n| == |n.Keys|;
  }

  lemma Cardinality(a: set<Name>, b: set<Name>)
    requires a <= b
    ensures |a| <= |b|
  {
    if a != {} {
      var x :| x in a;
      Cardinality(a - {x}, b - {x});
    }
  }

  /** A queued query has not started, belongs to the queue's session, and comes after the one in hand. */
  ghost predicate WaitingOk(subs: seq<Submission>, session: Name, hand: Option<nat>, op: SessionOp) {
    op.QueryOp? ==>
      && op.k < |subs|
      && subs[op.k].session == session
      && subs[op.k].phase in {Queued, CancelledPhase}
      && (hand.Some? ==> hand.value < op.k)
  }

  predicate InOrder(a: SessionOp, b: SessionOp) {
    a.QueryOp? && b.QueryOp? ==> a.k < b.k
  }

  /** One worker's queue: bounded, in acceptance order, holding only queries of its session that have not started. */
  ghost predicate WorkerInv(subs: seq<Submission>, session: Name, w: Worker) {
    && |w.queue| <= MAX_ACTIVE_QUERIES
    && (forall i :: 0 <= i < |w.queue| ==> WaitingOk(subs, session, InHand(w.task), w.queue[i]))
    && (forall i, j :: 0 <= i < j < |w.queue| ==> InOrder(w.queue[i], w.queue[j]))
    && (InHand(w.task).Some? ==>
          var k := InHand(w.task).value;
          k < |subs| && subs[k].session == session && subs[k].phase == Running)
  }

  ghost predicate WorkersInv(p: Pipe) {
    forall s :: s in p.workers ==> WorkerInv(p.subs, s, p.workers[s])
  }

  lemma CleanupKeepsTable(p: Pipe)
    requires TableInv(p) && p.dispatcher.Ready?
    ensures TableInv(CleanedUp(p))
  {
    var q := CleanedUp(p);
    SmallerKeys(q.inFlight, p.inFlight);
    forall k: nat ensures PlaceOk(q, k) { assert PlaceOk(p, k); }
    forall id: Name ensures EntryOk(q, id) { assert EntryOk(p, id); }
    EntriesAreIndexed(q);
  }

  lemma TableVacated(p: Pipe, line: QueryLine)
    requires TableInv(p) && p.dispatcher == Submitting(line) && !ActiveNamesake(p, line.id)
    ensures TableInv(p.(dispatcher := Ready, inFlight := p.inFlight - {line.id}))
  {
    var q := p.(dispatcher := Ready, inFlight := p.inFlight - {line.id});
    SmallerKeys(q.inFlight, p.inFlight);
    assert EntryOk(p, line.id);
    forall k: nat ensures PlaceOk(q, k) { assert PlaceOk(p, k); }
    forall i: Name ensures EntryOk(q, i) { assert EntryOk(p, i); }
    EntriesAreIndexed(q);
  }

  lemma TableEntered(p: Pipe, line: QueryLine)
    requires TableInv(p) && p.dispatcher == Ready && line.id !in p.inFlight && |p.inFlight| < MAX_ACTIVE_QUERIES
    ensures TableInv(Entered(p, line))
  {
    var q := Entered(p, line);
    assert |q.inFlight| == |p.inFlight| + 1;
    forall k: nat ensures PlaceOk(q, k) { assert PlaceOk(p, k); }
    forall i: Name ensures EntryOk(q, i) { assert EntryOk(p, i); }
    EntriesAreIndexed(q);
  }

  lemma TableAdmit(p: Pipe, line: QueryLine)
    requires TableInv(p) && p.dispatcher == Ready && line.id !in p.inFlight
    ensures TableInv(Admit(p, line))
  {
    hide TableInv;
    if |p.inFlight| < MAX_ACTIVE_QUERIES && HasRoom(p, ResolveName(p.config, line.session)) {
      TableEntered(p, line);
      TableFrame(Entered(p, line), Admit(p, line), |p.subs| + 1);
    } else {
      TableFrame(p, Admit(p, line), |p.subs|);
    }
  }

  /** At most query `k` changes, without becoming active, and at most the entries in `gone` go, none of an active query. */
  lemma TableChange(p: Pipe, q: Pipe, k: nat, gone: set<Name>)
    requires TableInv(p) && DispatcherOk(q) && q.inFlight == p.inFlight - gone
    requires |q.subs| == |p.subs| && forall i :: 0 <= i < |p.subs| && i != k ==> q.subs[i] == p.subs[i]
    requires k < |p.subs| ==> q.subs[k].id == p.subs[k].id && (Active(q.subs[k]) ==> Active(p.subs[k]))
    requires k < |p.subs| && q.subs[k].phase == CancelledPhase && p.subs[k].phase != CancelledPhase ==>
               q.dispatcher == Claiming(p.subs[k].id, k)
    requires p.dispatcher.Claiming? ==> q.dispatcher == p.dispatcher || p.dispatcher.id in gone
    requires forall id :: id in gone && id in p.inFlight ==> p.inFlight[id] == k && k < |p.subs| && !Active(q.subs[k])
    ensures TableInv(q)
  {
    SmallerKeys(q.inFlight, p.inFlight);
    forall i: nat ensures PlaceOk(q, i) { assert PlaceOk(p, i); }
    forall id: Name ensures EntryOk(q, id) { assert EntryOk(p, id); }
    EntriesAreIndexed(q);
  }

  lemma TableCancelStart(p: Pipe, id: Name)
    requires TableInv(p) && p.dispatcher.Ready?
    ensures TableInv(CancelStart(p, id))
  {
    hide TableInv;
    InTable(p, id);
    if id !in p.inFlight {
      TableChange(p, CancelStart(p, id), |p.subs|, {});
    } else if p.subs[p.inFlight[id]].phase == Queued {
      TableChange(p, CancelStart(p, id), p.inFlight[id], {});
    } else {
      TableChange(p, CancelStart(p, id), |p.subs|, {});
    }
  }

  lemma TableCancelClaim(p: Pipe)
    requires TableInv(p) && p.dispatcher.Claiming?
    ensures TableInv(CancelClaim(p, p.dispatcher.id, p.dispatcher.k))
  {
    hide TableInv;
    InTable(p, p.dispatcher.id);
    var q := CancelClaim(p, p.dispatcher.id, p.dispatcher.k);
    if p.subs[p.dispatcher.k].claimed {
      TableChange(p, q, p.dispatcher.k, {p.dispatcher.id});
    } else {
      TableChange(p, q, p.dispatcher.k, {p.dispatcher.id});
    }
  }

  lemma TableCancelCheck(p: Pipe)
    requires TableInv(p) && p.dispatcher.Checking?
    ensures TableInv(CancelCheck(p, p.dispatcher.id, p.dispatcher.k))
  {
    hide TableInv;
    InTable(p, p.dispatcher.id);
    var q := CancelCheck(p, p.dispatcher.id, p.dispatcher.k);
    if p.subs[p.dispatcher.k].IsFinished() {
      TableChange(p, q, p.dispatcher.k, {p.dispatcher.id});
    } else {
      TableChange(p, q, p.dispatcher.k, {});
    }
  }

  lemma InTable(p: Pipe, id: Name)
    requires TableInv(p)
    ensures TableOk(p) && EntryOk(p, id) && DispatcherOk(p) && |p.inFlight| <= MAX_ACTIVE_QUERIES
    ensures (p.dispatcher.Claiming? || p.dispatcher.Checking? || p.dispatcher.Asking?) ==> EntryOk(p, p.dispatcher.id)
  {
  }

  /** The dispatcher is not inside the handling of a cancel. */
  predicate AboutNoQuery(d: Dispatcher) {
    d.Ready? || d.Submitting? || d.Reserving? || d.Sending?
  }

  lemma TableFrame(p: Pipe, q: Pipe, k: nat)
    requires TableInv(p) && q.inFlight == p.inFlight
    requires q.dispatcher == p.dispatcher || (AboutNoQuery(q.dispatcher) && (AboutNoQuery(p.dispatcher) || p.dispatcher.Asking?))
    requires |q.subs| == |p.subs| && forall i :: 0 <= i < |p.subs| && i != k ==> q.subs[i] == p.subs[i]
    requires k < |p.subs| ==>
               && q.subs[k].id == p.subs[k].id
               && (q.subs[k].phase == p.subs[k].phase
                   || (p.subs[k].phase == Queued && q.subs[k].phase == Running)
                   || (p.subs[k].phase == Running && q.subs[k].phase == Finished))
    ensures TableInv(q)
  {
    TableChange(p, q, k, {});
  }

  lemma TableTake(p: Pipe, session: Name)
    requires TableInv(p) && Enabled(p, DoTake(session))
    ensures TableInv(Take(p, session))
  {
    hide TableInv;
    var op := p.workers[session].queue[0];
    if !op.QueryOp? {
      TableFrame(p, Take(p, session), |p.subs|);
    } else if p.subs[op.k].phase == Queued {
      TableFrame(p, Take(p, session), op.k);
    } else {
      TableFrame(p, Take(p, session), |p.subs|);
    }
  }

  lemma TableEmit(p: Pipe, session: Name)
    requires TableInv(p) && Enabled(p, DoEmit(session))
    ensures TableInv(Apply(p, DoEmit(session)))
  {
    hide TableInv, SettleCancel;
    var k := p.workers[session].task.k;
    if p.subs[k].claimed {
      TableFrame(p, Apply(p, DoEmit(session)), k);
    } else {
      TableFrame(p, Apply(p, DoEmit(session)), k);
    }
  }

  lemma TableFinish(p: Pipe, session: Name)
    requires TableInv(p) && Enabled(p, DoFinish(session)) && WorkerInv(p.subs, session, p.workers[session])
    ensures TableInv(Apply(p, DoFinish(session)))
  {
    hide TableInv;
    TableFrame(p, Apply(p, DoFinish(session)), p.workers[session].task.k);
  }

  /** The steps of a configuration patch. */
  predicate IsPatch(step: Action) {
    step.DoPatch? || step.DoReserve? || step.DoInstall? || step.DoSend? || step.DoAnnounce?
  }

  /** These steps change neither the queries nor the dispatcher's table. */
  ghost predicate OnlyQueues(step: Action) {
    step.DoRunQuery? || step.DoRunControl? || IsPatch(step) || step.DoBegin? || step.DoTxEnd? || step.DoInfo? || step.DoCancelAcknowledge?
  }

  ghost predicate SameTable(p: Pipe, q: Pipe) {
    && q.inFlight == p.inFlight && q.subs == p.subs
    && (q.dispatcher == p.dispatcher || (AboutNoQuery(q.dispatcher) && (AboutNoQuery(p.dispatcher) || p.dispatcher.Asking?)))
  }

  lemma SubmitOpSameTable(p: Pipe, id: Option<Name>, session: Name, op: SessionOp)
    ensures SameTable(p, SubmitOp(p, id, session, op))
  {
    hide WorkerOf;
    if HasRoom(p, session) {} else {}
  }

  lemma BeginSameTable(p: Pipe, id: Option<Name>, requested: Option<Name>, readOnly: bool, permission: Option<Permission>, policyAllows: bool)
    ensures SameTable(p, SubmitBegin(p, id, requested, readOnly, permission, policyAllows))
  {
    hide ResolveReadOnly, SubmitOp;
    var session := ResolveName(p.config, requested);
    var config := SessionOf(p.config, session);
    if p.readOnlyCapability && (!readOnly || (permission.Some? && !permission.value.IsReadOnly())) {
    } else if config.None? || (p.readOnlyCapability && !policyAllows) {
    } else if !readOnly && ResolveReadOnly(permission, config.value) != Ok(false) {
    } else {
      SubmitOpSameTable(p, id, session, BeginOp(readOnly, config.value));
    }
  }

  lemma PatchSameTable(p: Pipe, step: Action)
    requires Enabled(p, step) && IsPatch(step)
    ensures SameTable(p, Apply(p, step))
  {
    hide Updated, WorkerOf, HasRoom;
    match step {
      case DoPatch(_, _, _) =>
      case DoReserve => if HasRoom(p, p.dispatcher.sessions[p.dispatcher.taken]) {} else {}
      case _ =>
    }
  }

  lemma NotRefused(p: Pipe, s: Submission, policyAllows: bool)
    requires !RefusedEarly(p, s, policyAllows)
    ensures s.config.Some? && ResolveReadOnly(s.permission, s.config.value).Ok?
    ensures p.readOnlyCapability ==> ResolveReadOnly(s.permission, s.config.value).value && s.sqlAllowed && policyAllows
  {
    hide ResolveReadOnly;
  }

  /** Running a query changes its worker's task, and either gives a refusal or touches the connections and the record of calls. */
  lemma RunQueryFrame(p: Pipe, step: Action)
    requires Enabled(p, step) && step.DoRunQuery?
    ensures var s := step.session;
            var k := p.workers[s].task.op.k;
            var q := Apply(p, step);
            if RefusedEarly(p, p.subs[k], step.policyAllows) then
              q == p.(workers := p.workers[s := p.workers[s].(task := Emitted(k))], events := p.events + [Terminal(k, Failed(InvalidRequest), false)])
            else
              q == p.(workers := p.workers[s := p.workers[s].(task := Answered(k, step.result))], connections := q.connections, calls := q.calls)
  {
    hide Connected, UsedConfig, ResolveReadOnly;
    if RefusedEarly(p, p.subs[p.workers[step.session].task.op.k], step.policyAllows) {
    } else if step.link.ran {
    } else {
    }
  }

  /** So does any other operation, and only an invalidation moves its worker to another configuration. */
  lemma RunControlFrame(p: Pipe, step: Action)
    requires Enabled(p, step) && step.DoRunControl?
    ensures var s := step.session;
            var op := p.workers[s].task.op;
            var w := p.workers[s].(task := Waiting);
            var q := Apply(p, step);
            q == p.(workers := p.workers[s := if op.InvalidateOp? then w.(front := op.installed) else w], connections := q.connections, calls := q.calls)
  {
    hide Connected, UsedConfig;
    match p.workers[step.session].task.op {
      case BeginOp(_, _) => if step.link.ran {} else {}
      case FinishOp(_) => if step.link.dropped {} else {}
      case _ =>
    }
  }

  lemma RunSameTable(p: Pipe, step: Action)
    requires Enabled(p, step) && (step.DoRunQuery? || step.DoRunControl?)
    ensures SameTable(p, Apply(p, step))
  {
    hide RefusedEarly, RunQuery, RunControl;
    if step.DoRunQuery? { RunQueryFrame(p, step); } else { RunControlFrame(p, step); }
  }

  lemma QueuesSameTable(p: Pipe, step: Action)
    requires Enabled(p, step) && OnlyQueues(step)
    ensures SameTable(p, Apply(p, step))
  {
    hide RunQuery, RunControl, PatchStart, ReserveNext, Install, SendNext, Announce, SubmitBegin, SubmitOp, SameTable;
    match step {
      case DoBegin(id, requested, readOnly, permission, policyAllows) => BeginSameTable(p, id, requested, readOnly, permission, policyAllows);
      case DoTxEnd(id, requested, commit) =>
        SubmitOpSameTable(p, id, ResolveName(p.config, requested), FinishOp(commit));
        EmitSameTable(p, Rejected(id));
      case DoInfo(id, requested) => SubmitOpSameTable(p, id, ResolveName(p.config, requested), InfoOp);
      case DoCancelAcknowledge => AcknowledgeSameTable(p);
      case _ => if IsPatch(step) { PatchSameTable(p, step); } else { RunSameTable(p, step); }
    }
  }

  lemma EmitSameTable(p: Pipe, e: Event)
    ensures SameTable(p, Emit(p, e))
  {
  }

  lemma AcknowledgeSameTable(p: Pipe)
    requires p.dispatcher.Asking?
    ensures SameTable(p, CancelAcknowledge(p, p.dispatcher.id))
  {
  }

  lemma TableSubmitStart(p: Pipe, line: QueryLine)
    requires TableInv(p) && p.dispatcher.Ready?
    ensures TableInv(SubmitStart(p, line))
  {
    hide TableInv;
    InTable(p, line.id);
    CleanupKeepsTable(p);
    if line.sqlBytes > MAX_SQL_BYTES || line.params > MAX_PARAMS {
      TableFrame(p, SubmitStart(p, line), |p.subs|);
    } else {
      TableFrame(CleanedUp(p), SubmitStart(p, line), |p.subs|);
    }
  }

  lemma TableSubmitFinish(p: Pipe)
    requires TableInv(p) && p.dispatcher.Submitting?
    ensures TableInv(SubmitFinish(p, p.dispatcher.line))
  {
    hide TableInv, Admit;
    var line := p.dispatcher.line;
    InTable(p, line.id);
    if ActiveNamesake(p, line.id) {
      TableFrame(p, SubmitFinish(p, line), |p.subs|);
    } else {
      TableVacated(p, line);
      TableAdmit(p.(dispatcher := Ready, inFlight := p.inFlight - {line.id}), line);
    }
  }

  lemma TableKept(p: Pipe, step: Action)
    requires Enabled(p, step) && TableInv(p) && WorkersInv(p)
    ensures TableInv(Apply(p, step))
  {
    hide TableInv, Take, RunQuery, EmitTerminal, FinishQuery, RunControl, CancelClaim, CancelCheck, CancelStart,
      SubmitStart, SubmitFinish, CleanedUp, SubmitBegin, SubmitTxEnd, SubmitInfo, PatchStart, ReserveNext, Install, SendNext, Announce, CancelAcknowledge;
    match step {
      case DoSubmitStart(line) => TableSubmitStart(p, line);
      case DoPing => CleanupKeepsTable(p);
      case DoSubmitFinish => TableSubmitFinish(p);
      case DoCancelStart(id) => TableCancelStart(p, id);
      case DoCancelClaim => TableCancelClaim(p);
      case DoCancelCheck => TableCancelCheck(p);
      case DoTake(session) => TableTake(p, session);
      case DoEmit(session) => TableEmit(p, session);
      case DoFinish(session) =>
        TableFinish(p, session);
      case _ =>
        QueuesSameTable(p, step);
        TableFrame(p, Apply(p, step), |p.subs|);
    }
  }

  /** A queued query is in its session's queue; a running one is in its worker's hands. */
  ghost predicate Located(p: Pipe, k: nat) {
    k < |p.subs| ==>
      && (p.subs[k].phase == Queued ==> p.subs[k].session in p.workers && QueryOp(k) in p.workers[p.subs[k].session].queue)
      && (p.subs[k].phase == Running ==> p.subs[k].session in p.workers && InHand(p.workers[p.subs[k].session].task) == Some(k))
  }

  ghost predicate QueueInv(p: Pipe) {
    WorkersInv(p) && forall k: nat :: Located(p, k)
  }

  /** An operation is added to one queue that has room: a control operation, or the query just accepted. */
  lemma PushedInOrder(p: Pipe, q: Pipe, session: Name, op: SessionOp)
    requires QueueInv(p) && |WorkerOf(p, session).queue| < MAX_ACTIVE_QUERIES
    requires q.workers == p.workers[session := Queue(WorkerOf(p, session), op)]
    requires !op.QueryOp? ==> q.subs == p.subs
    requires op.QueryOp? ==>
               && op.k == |p.subs| && |q.subs| == |p.subs| + 1 && q.subs[..|p.subs|] == p.subs
               && q.subs[|p.subs|].session == session && q.subs[|p.subs|].phase == Queued
    ensures QueueInv(q)
  {
    forall s | s in q.workers ensures WorkerInv(q.subs, s, q.workers[s]) {
      assert s in p.workers ==> WorkerInv(p.subs, s, p.workers[s]);
      assert forall i :: 0 <= i < |p.subs| ==> q.subs[i] == q.subs[..|p.subs|][i];
    }
    forall k: nat ensures Located(q, k) {
      assert Located(p, k);
      assert k < |p.subs| ==> q.subs[k] == q.subs[..|p.subs|][k];
      var w := q.workers[session];
      assert w.queue[|w.queue| - 1] == op;
    }
  }

  /** Workers that were not there before start with an empty queue. */
  lemma StartedEmpty(p: Pipe, q: Pipe)
    requires QueueInv(p) && q.subs == p.subs && p.workers.Keys <= q.workers.Keys
    requires forall s :: s in q.workers ==> q.workers[s] == WorkerOf(p, s)
    ensures QueueInv(q)
  {
    forall k: nat ensures Located(q, k) { assert Located(p, k); }
  }

  /** Queries change without changing phase, or a queued one is cancelled. */
  lemma SubsChanged(p: Pipe, q: Pipe)
    requires QueueInv(p) && q.workers == p.workers && |q.subs| == |p.subs|
    requires forall k :: 0 <= k < |p.subs| ==>
               && q.subs[k].session == p.subs[k].session
               && (q.subs[k].phase == p.subs[k].phase || (p.subs[k].phase == Queued && q.subs[k].phase == CancelledPhase))
    ensures QueueInv(q)
  {
    forall s | s in q.workers ensures WorkerInv(q.subs, s, q.workers[s]) {
      assert WorkerInv(p.subs, s, p.workers[s]);
      forall i | 0 <= i < |q.workers[s].queue| ensures WaitingOk(q.subs, s, InHand(q.workers[s].task), q.workers[s].queue[i]) {
        assert WaitingOk(p.subs, s, InHand(p.workers[s].task), p.workers[s].queue[i]);
      }
    }
    forall k: nat ensures Located(q, k) { assert Located(p, k); }
  }

  /** A worker keeps the same query in hand, or the same lack of one. */
  lemma TaskChanged(p: Pipe, q: Pipe, session: Name, w: Worker)
    requires QueueInv(p) && session in p.workers
    requires w.queue == p.workers[session].queue && InHand(w.task) == InHand(p.workers[session].task)
    requires q.workers == p.workers[session := w]
    requires |q.subs| == |p.subs| && forall k :: 0 <= k < |p.subs| ==> q.subs[k].session == p.subs[k].session && q.subs[k].phase == p.subs[k].phase
    ensures QueueInv(q)
  {
    forall s | s in q.workers ensures WorkerInv(q.subs, s, q.workers[s]) {
      assert WorkerInv(p.subs, s, p.workers[s]);
      forall i | 0 <= i < |q.workers[s].queue| ensures WaitingOk(q.subs, s, InHand(q.workers[s].task), q.workers[s].queue[i]) {
        assert WaitingOk(p.subs, s, InHand(p.workers[s].task), p.workers[s].queue[i]);
      }
    }
    forall k: nat ensures Located(q, k) { assert Located(p, k); }
  }

  /** The query in hand is finished and put down. */
  lemma PutDown(p: Pipe, q: Pipe, session: Name, k: nat)
    requires QueueInv(p) && session in p.workers && InHand(p.workers[session].task) == Some(k) && k < |p.subs|
    requires q.workers == p.workers[session := p.workers[session].(task := Waiting)]
    requires q.subs == p.subs[k := p.subs[k].(phase := Finished)]
    ensures QueueInv(q)
  {
    forall s | s in q.workers ensures WorkerInv(q.subs, s, q.workers[s]) {
      assert WorkerInv(p.subs, s, p.workers[s]) && WorkerInv(p.subs, session, p.workers[session]);
      forall i | 0 <= i < |q.workers[s].queue| ensures WaitingOk(q.subs, s, InHand(q.workers[s].task), q.workers[s].queue[i]) {
        assert WaitingOk(p.subs, s, InHand(p.workers[s].task), p.workers[s].queue[i]);
      }
    }
    forall i: nat ensures Located(q, i) { assert Located(p, i); }
  }

  /** An operation that is not a waiting query leaves the queue. */
  lemma Dropped(p: Pipe, q: Pipe, session: Name, task: Task)
    requires QueueInv(p) && session in p.workers && p.workers[session].queue != [] && p.workers[session].task == Waiting
    requires InHand(task).None? && q.subs == p.subs
    requires q.workers == p.workers[session := p.workers[session].(queue := p.workers[session].queue[1..], task := task)]
    requires p.workers[session].queue[0].QueryOp? ==> p.workers[session].queue[0].k < |p.subs| && p.subs[p.workers[session].queue[0].k].phase != Queued
    ensures QueueInv(q)
  {
    var w := p.workers[session];
    assert w.queue == [w.queue[0]] + w.queue[1..];
    forall s | s in q.workers ensures WorkerInv(q.subs, s, q.workers[s]) {
      assert WorkerInv(p.subs, s, p.workers[s]);
    }
    forall k: nat ensures Located(q, k) { assert Located(p, k); }
  }

  /** A queued query leaves the queue for its worker's hands. */
  lemma Started(p: Pipe, q: Pipe, session: Name, k: nat)
    requires QueueInv(p) && session in p.workers && p.workers[session].queue != [] && p.workers[session].task == Waiting
    requires p.workers[session].queue[0] == QueryOp(k) && k < |p.subs| && p.subs[k].phase == Queued
    requires q.workers == p.workers[session := p.workers[session].(queue := p.workers[session].queue[1..], task := Busy(QueryOp(k)))]
    requires q.subs == p.subs[k := p.subs[k].(phase := Running)]
    ensures QueueInv(q)
  {
    var w := p.workers[session];
    assert WorkerInv(p.subs, session, w);
    assert WaitingOk(p.subs, session, InHand(w.task), w.queue[0]);
    assert w.queue == [w.queue[0]] + w.queue[1..];
    forall s | s in q.workers ensures WorkerInv(q.subs, s, q.workers[s]) {
      assert WorkerInv(p.subs, s, p.workers[s]);
      var v := q.workers[s];
      forall i | 0 <= i < |v.queue| ensures WaitingOk(q.subs, s, InHand(v.task), v.queue[i]) {
        if s == session {
          assert v.queue[i] == w.queue[i + 1] && InOrder(w.queue[0], w.queue[i + 1]);
          assert WaitingOk(p.subs, s, InHand(w.task), w.queue[i + 1]);
        } else {
          assert WaitingOk(p.subs, s, InHand(v.task), p.workers[s].queue[i]);
        }
      }
      forall i, j | 0 <= i < j < |v.queue| ensures InOrder(v.queue[i], v.queue[j]) {
        if s == session { assert InOrder(w.queue[i + 1], w.queue[j + 1]); }
      }
    }
    forall i: nat ensures Located(q, i) { assert Located(p, i); }
  }

  lemma QueueTake(p: Pipe, session: Name)
    requires QueueInv(p) && Enabled(p, DoTake(session))
    ensures QueueInv(Take(p, session))
  {
    hide QueueInv;
    var w := p.workers[session];
    var op := w.queue[0];
    if !op.QueryOp? {
      Dropped(p, Take(p, session), session, Busy(op));
    } else if p.subs[op.k].phase == Queued {
      Started(p, Take(p, session), session, op.k);
    } else {
      Dropped(p, Take(p, session), session, Waiting);
    }
  }

  lemma QueueSubmitFinish(p: Pipe)
    requires QueueInv(p) && Enabled(p, DoSubmitFinish)
    ensures QueueInv(SubmitFinish(p, p.dispatcher.line))
  {
    hide QueueInv, WorkerOf;
    var line := p.dispatcher.line;
    if ActiveNamesake(p, line.id) {
      SubsChanged(p, SubmitFinish(p, line));
    } else {
      var r := p.(dispatcher := Ready, inFlight := p.inFlight - {line.id});
      SubsChanged(p, r);
      QueueAdmit(r, line);
    }
  }

  lemma QueueAdmit(p: Pipe, line: QueryLine)
    requires QueueInv(p)
    ensures QueueInv(Admit(p, line))
  {
    hide QueueInv, WorkerOf;
    var session := ResolveName(p.config, line.session);
    if |p.inFlight| >= MAX_ACTIVE_QUERIES {
      SubsChanged(p, Admit(p, line));
    } else if HasRoom(p, session) {
      EnteredWorkers(p, line, session);
      PushedInOrder(p, Admit(p, line), session, QueryOp(|p.subs|));
    } else {
      QueueStarted(p, session, Rejected(Some(line.id)));
    }
  }

  lemma EnteredWorkers(p: Pipe, line: QueryLine, session: Name)
    ensures WorkerOf(Entered(p, line), session) == WorkerOf(p, session)
  {
  }

  lemma QueueStarted(p: Pipe, session: Name, e: Event)
    requires QueueInv(p)
    ensures QueueInv(Emit(GetSessionWorker(p, session), e))
  {
    hide QueueInv;
    StartedEmpty(p, Emit(GetSessionWorker(p, session), e));
  }

  lemma QueueSubmitOp(p: Pipe, id: Option<Name>, session: Name, op: SessionOp)
    requires QueueInv(p) && !op.QueryOp?
    ensures QueueInv(SubmitOp(p, id, session, op))
  {
    hide QueueInv, WorkerOf;
    if HasRoom(p, session) {
      PushedInOrder(p, SubmitOp(p, id, session, op), session, op);
    } else {
      QueueStarted(p, session, Rejected(id));
    }
  }

  lemma QueueEmit(p: Pipe, e: Event)
    requires QueueInv(p)
    ensures QueueInv(Emit(p, e))
  {
    hide QueueInv;
    SubsChanged(p, Emit(p, e));
  }

  lemma QueueBegin(p: Pipe, id: Option<Name>, requested: Option<Name>, readOnly: bool, permission: Option<Permission>, policyAllows: bool)
    requires QueueInv(p)
    ensures QueueInv(SubmitBegin(p, id, requested, readOnly, permission, policyAllows))
  {
    hide QueueInv, ResolveReadOnly, SubmitOp;
    QueueEmit(p, Rejected(id));
    var session := ResolveName(p.config, requested);
    var config := SessionOf(p.config, session);
    if config.Some? {
      QueueSubmitOp(p, id, session, BeginOp(readOnly, config.value));
    }
  }

  /** What a patch under way keeps: the places it holds are there, and it affects all that it changes. */
  ghost predicate PatchInv(p: Pipe) {
    match p.dispatcher
    case Reserving(patch, sessions, taken) =>
      && taken <= |sessions| && StrictlySorted(sessions)
      && (forall n :: n in sessions <==> n in AffectedSessions(patch))
      && forall s :: s in sessions[..taken] ==> PlaceIn(p, s)
    case Sending(was, sessions, sent) =>
      && sent <= |sessions| && StrictlySorted(sessions)
      && was.sessions.Keys <= p.config.sessions.Keys
      && (forall s: Name :: s !in sessions ==> SessionOf(p.config, s) == SessionOf(was, s))
      && forall s :: s in sessions[sent..] ==> PlaceIn(p, s)
    case _ => true
  }

  ghost predicate PlaceIn(p: Pipe, s: Name) {
    s in p.workers && |p.workers[s].queue| < MAX_ACTIVE_QUERIES
  }

  lemma QueueReserve(p: Pipe)
    requires QueueInv(p) && Enabled(p, DoReserve)
    ensures QueueInv(ReserveNext(p))
  {
    hide QueueInv;
    StartedEmpty(p, ReserveNext(p));
  }

  lemma QueueSend(p: Pipe)
    requires QueueInv(p) && PatchInv(p) && Enabled(p, DoSend)
    ensures QueueInv(SendNext(p))
  {
    hide QueueInv;
    var session := p.dispatcher.sessions[p.dispatcher.sent];
    assert session == p.dispatcher.sessions[p.dispatcher.sent..][0] && PlaceIn(p, session);
    PushedInOrder(p, SendNext(p), session, InvalidateOp(SessionOf(p.config, session)));
  }

  lemma QueuePatch(p: Pipe, step: Action)
    requires QueueInv(p) && PatchInv(p) && Enabled(p, step) && IsPatch(step)
    ensures QueueInv(Apply(p, step))
  {
    hide QueueInv, PatchInv, Updated, ReserveNext, SendNext;
    if step.DoReserve? {
      QueueReserve(p);
    } else if step.DoSend? {
      QueueSend(p);
    } else {
      SubsChanged(p, Apply(p, step));
    }
  }

  predicate SubCancelled(a: Submission, b: Submission) {
    && b == a.(phase := b.phase, cancelRequested := b.cancelRequested, claimed := b.claimed)
    && (b.phase == a.phase || (a.phase == Queued && b.phase == CancelledPhase))
  }

  /** A cancel moves queries and the dispatcher, and nothing that waits. */
  ghost predicate CancelShape(p: Pipe, q: Pipe) {
    && q == p.(subs := q.subs, inFlight := q.inFlight, dispatcher := q.dispatcher, events := q.events)
    && |q.subs| == |p.subs| && forall k :: 0 <= k < |p.subs| ==> SubCancelled(p.subs[k], q.subs[k])
  }

  lemma CancelStartShape(p: Pipe, id: Name)
    requires TableOk(p)
    ensures CancelShape(p, CancelStart(p, id))
  {
    if id !in p.inFlight {} else if p.subs[p.inFlight[id]].phase == Queued {} else {}
  }

  lemma CancelClaimShape(p: Pipe, id: Name, k: nat)
    requires k < |p.subs|
    ensures CancelShape(p, CancelClaim(p, id, k))
  {
    if p.subs[k].claimed {} else {}
  }

  lemma CancelCheckShape(p: Pipe, id: Name, k: nat)
    requires k < |p.subs|
    ensures CancelShape(p, CancelCheck(p, id, k))
  {
    if p.subs[k].IsFinished() {} else {}
  }

  lemma CancelAcknowledgeShape(p: Pipe, id: Name)
    ensures CancelShape(p, CancelAcknowledge(p, id))
  {
  }

  lemma CancelSteps(p: Pipe, step: Action)
    requires Enabled(p, step)
    requires step.DoCancelStart? || step.DoCancelClaim? || step.DoCancelCheck? || step.DoCancelAcknowledge?
    ensures CancelShape(p, Apply(p, step))
  {
    hide CancelClaim, CancelCheck, CancelStart, CancelShape;
    match step {
      case DoCancelStart(id) => CancelStartShape(p, id);
      case DoCancelClaim => CancelClaimShape(p, p.dispatcher.id, p.dispatcher.k);
      case DoCancelCheck => CancelCheckShape(p, p.dispatcher.id, p.dispatcher.k);
      case DoCancelAcknowledge => CancelAcknowledgeShape(p, p.dispatcher.id);
    }
  }

  /** Answering for a query and putting it down change that query and its worker's task. */
  lemma EndSteps(p: Pipe, step: Action)
    requires Enabled(p, step) && (step.DoEmit? || step.DoFinish?)
    ensures var s, k, q := step.session, p.workers[step.session].task.k, Apply(p, step);
            && k < |p.subs|
            && q == p.(workers := p.workers[s := p.workers[s].(task := if step.DoEmit? then Emitted(k) else Waiting)], subs := q.subs, events := q.events)
            && q.subs == p.subs[k := if step.DoEmit? then p.subs[k].(claimed := true) else p.subs[k].(phase := Finished)]
  {
    hide SettleCancel;
    var k := p.workers[step.session].task.k;
    if step.DoEmit? {
      if p.subs[k].claimed { assert p.subs == p.subs[k := p.subs[k]]; } else {}
    }
  }

  lemma QueueCancel(p: Pipe, step: Action)
    requires QueueInv(p) && Enabled(p, step)
    requires step.DoCancelStart? || step.DoCancelClaim? || step.DoCancelCheck? || step.DoCancelAcknowledge?
    ensures QueueInv(Apply(p, step))
  {
    hide QueueInv, CancelClaim, CancelCheck, CancelStart, Apply;
    CancelSteps(p, step);
    SubsChanged(p, Apply(p, step));
  }

  lemma QueueRun(p: Pipe, step: Action)
    requires QueueInv(p) && Enabled(p, step) && (step.DoRunQuery? || step.DoRunControl?)
    ensures QueueInv(Apply(p, step))
  {
    hide QueueInv, RefusedEarly, RunQuery, RunControl;
    var s := step.session;
    if step.DoRunQuery? {
      RunQueryFrame(p, step);
      TaskChanged(p, Apply(p, step), s, Apply(p, step).workers[s]);
    } else {
      RunControlFrame(p, step);
      TaskChanged(p, Apply(p, step), s, Apply(p, step).workers[s]);
    }
  }

  lemma QueueEnd(p: Pipe, step: Action)
    requires QueueInv(p) && Enabled(p, step) && (step.DoEmit? || step.DoFinish?)
    ensures QueueInv(Apply(p, step))
  {
    hide QueueInv, Apply;
    var s, k := step.session, p.workers[step.session].task.k;
    EndSteps(p, step);
    if step.DoFinish? {
      PutDown(p, Apply(p, step), s, k);
    } else {
      TaskChanged(p, Apply(p, step), s, p.workers[s].(task := Emitted(k)));
    }
  }

  lemma QueueKept(p: Pipe, step: Action)
    requires QueueInv(p) && PatchInv(p) && Enabled(p, step)
    ensures QueueInv(Apply(p, step))
  {
    hide QueueInv, Take, RunQuery, EmitTerminal, FinishQuery, RunControl, CancelClaim, CancelCheck, CancelStart,
      SubmitFinish, SubmitBegin, SubmitOp, PatchStart, ReserveNext, Install, SendNext, Announce, CancelAcknowledge;
    match step {
      case DoSubmitStart(line) =>
        if line.sqlBytes > MAX_SQL_BYTES || line.params > MAX_PARAMS { SubsChanged(p, Apply(p, step)); } else { SubsChanged(p, Apply(p, step)); }
      case DoPing => SubsChanged(p, Apply(p, step));
      case DoSubmitFinish => QueueSubmitFinish(p);
      case DoBegin(id, requested, readOnly, permission, policyAllows) => QueueBegin(p, id, requested, readOnly, permission, policyAllows);
      case DoTxEnd(id, requested, commit) =>
        QueueEmit(p, Rejected(id));
        QueueSubmitOp(p, id, ResolveName(p.config, requested), FinishOp(commit));
      case DoInfo(id, requested) => QueueSubmitOp(p, id, ResolveName(p.config, requested), InfoOp);
      case DoTake(session) => QueueTake(p, session);
      case DoRunQuery(_, _, _, _) => QueueRun(p, step);
      case DoRunControl(_, _) => QueueRun(p, step);
      case DoEmit(_) => QueueEnd(p, step);
      case DoFinish(_) => QueueEnd(p, step);
      case _ => if IsPatch(step) { QueuePatch(p, step); } else { QueueCancel(p, step); }
    }
  }

  predicate IsWorkers(step: Action) {
    step.DoTake? || step.DoRunQuery? || step.DoRunControl? || step.DoEmit? || step.DoFinish?
  }

  /** A worker starts no other worker, adds to no queue, and leaves the dispatcher alone. */
  ghost predicate QueuesShrink(p: Pipe, q: Pipe) {
    && q.dispatcher == p.dispatcher && q.config == p.config && q.workers.Keys == p.workers.Keys
    && forall s :: s in p.workers ==>
         q.workers[s].queue == p.workers[s].queue || (p.workers[s].queue != [] && q.workers[s].queue == p.workers[s].queue[1..])
  }

  lemma TakeShrinks(p: Pipe, s: Name)
    requires Enabled(p, DoTake(s))
    ensures QueuesShrink(p, Take(p, s))
  {
    var op := p.workers[s].queue[0];
    if op.QueryOp? { if p.subs[op.k].phase == Queued {} else {} }
  }

  lemma SameQueueShrinks(p: Pipe, q: Pipe, s: Name)
    requires s in p.workers && s in q.workers && q.workers == p.workers[s := q.workers[s]] && q.workers[s].queue == p.workers[s].queue
    requires q.dispatcher == p.dispatcher && q.config == p.config
    ensures QueuesShrink(p, q)
  {
  }

  lemma WorkersShrink(p: Pipe, step: Action)
    requires Enabled(p, step) && IsWorkers(step)
    ensures QueuesShrink(p, Apply(p, step))
  {
    hide QueuesShrink, Take, RunQuery, RunControl, RefusedEarly, EmitTerminal, FinishQuery;
    match step {
      case DoTake(s) => TakeShrinks(p, s);
      case DoRunQuery(s, _, _, _) => RunQueryFrame(p, step); SameQueueShrinks(p, Apply(p, step), s);
      case DoRunControl(s, _) => RunControlFrame(p, step); SameQueueShrinks(p, Apply(p, step), s);
      case DoEmit(s) => EndSteps(p, step); SameQueueShrinks(p, Apply(p, step), s);
      case DoFinish(s) => EndSteps(p, step); SameQueueShrinks(p, Apply(p, step), s);
    }
  }

  lemma PlacesShrunk(p: Pipe, q: Pipe)
    requires PatchInv(p) && QueuesShrink(p, q)
    ensures PatchInv(q)
  {
    forall s | PlaceIn(p, s) ensures PlaceIn(q, s) {}
  }

  lemma PatchReserve(p: Pipe)
    requires PatchInv(p) && Enabled(p, DoReserve)
    ensures PatchInv(ReserveNext(p))
  {
    hide AffectedSessions;
    var d, q := p.dispatcher, ReserveNext(p);
    var session := d.sessions[d.taken];
    if HasRoom(p, session) {
      forall s | s in d.sessions[..d.taken + 1] ensures PlaceIn(q, s) {
        assert d.sessions[..d.taken + 1] == d.sessions[..d.taken] + [session];
        if s != session { assert PlaceIn(p, s); }
      }
    }
  }

  lemma PatchInstall(p: Pipe)
    requires PatchInv(p) && DefaultKnown(p.config) && Enabled(p, DoInstall)
    ensures PatchInv(Install(p))
  {
    DefaultStaysKnown(p.config, p.dispatcher.patch);
    var d, q := p.dispatcher, Install(p);
    forall s: Name | s !in d.sessions ensures SessionOf(q.config, s) == SessionOf(p.config, s) {
      if SessionOf(q.config, s) != SessionOf(p.config, s) { AffectedCoversEveryChange(p.config, d.patch, s); }
    }
    hide Updated, AffectedSessions;
    assert d.sessions[..d.taken] == d.sessions && d.sessions[0..] == d.sessions;
    forall s | s in d.sessions ensures PlaceIn(q, s) { assert PlaceIn(p, s); }
  }

  /** No session is named twice, so the one whose turn it is is not among those that follow. */
  lemma TurnsAreTaken(sessions: seq<Name>, i: nat)
    requires StrictlySorted(sessions) && i < |sessions|
    ensures forall s :: s in sessions[i..] <==> s == sessions[i] || s in sessions[i + 1..]
    ensures sessions[i] !in sessions[i + 1..]
    ensures forall s :: s in sessions[..i + 1] <==> s == sessions[i] || s in sessions[..i]
    ensures sessions[i] !in sessions[..i]
  {
    assert sessions[i..] == [sessions[i]] + sessions[i + 1..];
    assert sessions[..i + 1] == sessions[..i] + [sessions[i]];
  }

  lemma PatchSend(p: Pipe)
    requires PatchInv(p) && Enabled(p, DoSend)
    ensures PatchInv(SendNext(p))
  {
    var d, q := p.dispatcher, SendNext(p);
    TurnsAreTaken(d.sessions, d.sent);
    forall s | s in d.sessions[d.sent + 1..] ensures PlaceIn(q, s) {
      assert s in d.sessions[d.sent..] && PlaceIn(p, s);
    }
  }

  predicate PatchUnderWay(d: Dispatcher) {
    d.Reserving? || d.Sending?
  }

  lemma SubmissionsPatchNothing(p: Pipe)
    requires Enabled(p, DoSubmitFinish)
    ensures !PatchUnderWay(SubmitFinish(p, p.dispatcher.line).dispatcher)
  {
    var line := p.dispatcher.line;
    if !ActiveNamesake(p, line.id) {
      AdmissionsPatchNothing(p.(dispatcher := Ready, inFlight := p.inFlight - {line.id}), line);
    }
    hide Admit;
  }

  lemma AdmissionsPatchNothing(p: Pipe, line: QueryLine)
    requires p.dispatcher.Ready?
    ensures Admit(p, line).dispatcher.Ready?
  {
    hide WorkerOf;
    if |p.inFlight| >= MAX_ACTIVE_QUERIES {} else if HasRoom(p, ResolveName(p.config, line.session)) {} else {}
  }

  lemma OpsPatchNothing(p: Pipe, id: Option<Name>, session: Name, op: SessionOp)
    ensures SubmitOp(p, id, session, op).dispatcher == p.dispatcher
  {
    hide WorkerOf;
    if HasRoom(p, session) {} else {}
  }

  lemma BeginsPatchNothing(p: Pipe, id: Option<Name>, requested: Option<Name>, readOnly: bool, permission: Option<Permission>, policyAllows: bool)
    ensures SubmitBegin(p, id, requested, readOnly, permission, policyAllows).dispatcher == p.dispatcher
  {
    hide ResolveReadOnly, SubmitOp;
    var session := ResolveName(p.config, requested);
    if SessionOf(p.config, session).Some? {
      OpsPatchNothing(p, id, session, BeginOp(readOnly, SessionOf(p.config, session).value));
    }
  }

  lemma CancelsPatchNothing(p: Pipe, step: Action)
    requires Enabled(p, step)
    requires step.DoCancelStart? || step.DoCancelClaim? || step.DoCancelCheck? || step.DoCancelAcknowledge?
    ensures !PatchUnderWay(Apply(p, step).dispatcher)
  {
    match step {
      case DoCancelStart(id) => if id !in p.inFlight {} else if p.subs[p.inFlight[id]].phase == Queued {} else {}
      case DoCancelClaim => if p.subs[p.dispatcher.k].claimed {} else {}
      case DoCancelCheck => if p.subs[p.dispatcher.k].IsFinished() {} else {}
      case DoCancelAcknowledge =>
    }
  }

  /** The dispatcher's other steps leave it with no patch under way. */
  lemma NoPatchUnderWay(p: Pipe, step: Action)
    requires Enabled(p, step) && !IsWorkers(step) && !IsPatch(step)
    ensures !PatchUnderWay(Apply(p, step).dispatcher)
  {
    hide SubmitFinish, SubmitBegin, SubmitOp, CancelStart, CancelClaim, CancelCheck;
    match step {
      case DoSubmitFinish => SubmissionsPatchNothing(p);
      case DoBegin(id, requested, readOnly, permission, policyAllows) =>
        BeginsPatchNothing(p, id, requested, readOnly, permission, policyAllows);
      case DoTxEnd(id, requested, commit) => OpsPatchNothing(p, id, ResolveName(p.config, requested), FinishOp(commit));
      case DoInfo(id, requested) => OpsPatchNothing(p, id, ResolveName(p.config, requested), InfoOp);
      case DoSubmitStart(_) =>
      case DoPing =>
      case _ => CancelsPatchNothing(p, step);
    }
  }

  lemma PatchKept(p: Pipe, step: Action)
    requires PatchInv(p) && DefaultKnown(p.config) && Enabled(p, step)
    ensures PatchInv(Apply(p, step))
  {
    if IsWorkers(step) {
      hide PatchInv, Apply;
      WorkersShrink(p, step);
      PlacesShrunk(p, Apply(p, step));
    } else if IsPatch(step) {
      match step {
        case DoReserve => PatchReserve(p); hide PatchInv, ReserveNext;
        case DoInstall => PatchInstall(p); hide PatchInv, Install;
        case DoSend => PatchSend(p); hide PatchInv, SendNext;
        case DoPatch(_, sessions, _) => assert sessions[..0] == [];
        case _ =>
      }
    } else {
      hide Apply;
      NoPatchUnderWay(p, step);
    }
  }

  /** The capability never changes, and the configuration only when a patch is installed. */
  ghost predicate SameGroundFor(p: Pipe, q: Pipe, installs: bool) {
    q.readOnlyCapability == p.readOnlyCapability && (!installs ==> q.config == p.config)
  }

  lemma AdmissionsKeepGround(p: Pipe, line: QueryLine)
    ensures SameGroundFor(p, Admit(p, line), false)
  {
    hide WorkerOf;
    if |p.inFlight| >= MAX_ACTIVE_QUERIES {} else if HasRoom(p, ResolveName(p.config, line.session)) {} else {}
  }

  lemma SubmissionsKeepGround(p: Pipe)
    requires Enabled(p, DoSubmitFinish)
    ensures SameGroundFor(p, SubmitFinish(p, p.dispatcher.line), false)
  {
    var line := p.dispatcher.line;
    if !ActiveNamesake(p, line.id) {
      AdmissionsKeepGround(p.(dispatcher := Ready, inFlight := p.inFlight - {line.id}), line);
    }
    hide Admit;
  }

  lemma OpsKeepGround(p: Pipe, id: Option<Name>, session: Name, op: SessionOp)
    ensures SameGroundFor(p, SubmitOp(p, id, session, op), false)
  {
    hide WorkerOf;
    if HasRoom(p, session) {} else {}
  }

  lemma BeginsKeepGround(p: Pipe, id: Option<Name>, requested: Option<Name>, readOnly: bool, permission: Option<Permission>, policyAllows: bool)
    ensures SameGroundFor(p, SubmitBegin(p, id, requested, readOnly, permission, policyAllows), false)
  {
    hide ResolveReadOnly, SubmitOp;
    var session := ResolveName(p.config, requested);
    if SessionOf(p.config, session).Some? {
      OpsKeepGround(p, id, session, BeginOp(readOnly, SessionOf(p.config, session).value));
    }
  }

  lemma TakeKeepsGround(p: Pipe, s: Name)
    requires Enabled(p, DoTake(s))
    ensures SameGroundFor(p, Take(p, s), false)
  {
    var op := p.workers[s].queue[0];
    if op.QueryOp? { if p.subs[op.k].phase == Queued {} else {} }
  }

  lemma PatchesKeepGround(p: Pipe, step: Action)
    requires Enabled(p, step) && IsPatch(step)
    ensures SameGroundFor(p, Apply(p, step), step.DoInstall?)
  {
    hide Updated, WorkerOf, HasRoom;
    if step.DoReserve? {
      if HasRoom(p, p.dispatcher.sessions[p.dispatcher.taken]) {} else {}
    }
  }

  lemma GroundStays(p: Pipe, step: Action)
    requires Enabled(p, step)
    ensures SameGroundFor(p, Apply(p, step), step.DoInstall?)
  {
    if step.DoRunQuery? {
      hide RunQuery, RefusedEarly;
      RunQueryFrame(p, step);
    } else if step.DoRunControl? {
      hide RunControl;
      RunControlFrame(p, step);
    } else if step.DoEmit? || step.DoFinish? {
      hide EmitTerminal, FinishQuery;
      EndSteps(p, step);
    } else if step.DoCancelStart? || step.DoCancelClaim? || step.DoCancelCheck? || step.DoCancelAcknowledge? {
      hide CancelStart, CancelClaim, CancelCheck;
      CancelSteps(p, step);
    } else if IsPatch(step) {
      hide Apply, Enabled;
      PatchesKeepGround(p, step);
    } else {
      hide SubmitFinish, SubmitBegin, SubmitOp, Take;
      match step {
        case DoSubmitFinish => SubmissionsKeepGround(p);
        case DoTake(s) => TakeKeepsGround(p, s);
        case DoBegin(id, requested, readOnly, permission, policyAllows) =>
          BeginsKeepGround(p, id, requested, readOnly, permission, policyAllows);
        case DoTxEnd(id, requested, commit) => OpsKeepGround(p, id, ResolveName(p.config, requested), FinishOp(commit));
        case DoInfo(id, requested) => OpsKeepGround(p, id, ResolveName(p.config, requested), InfoOp);
        case _ =>
      }
    }
  }
}
