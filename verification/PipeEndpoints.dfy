/**
 Every query and every begin runs on a connection opened under the configuration it was accepted
 under, whatever patches arrive while it waits: the invalidations in each queue mark where the
 session's configuration changes.
 */
module PipeEndpoints {
  import opened Wrappers
  import opened Config
  import opened Executor
  import opened Pipe
  import opened PipeInvariants
  import opened PipeOutcomes

  /** What a worker has still to run: the operation in hand, then its queue. */
  function Pending(w: Worker): seq<SessionOp> {
    (if w.task.Busy? then [w.task.op] else []) + w.queue
  }

  /**
   Read from the front, each operation was accepted under the configuration in force at its place, and
   `last` is in force at the end. With `readOnly` every begin asks for a read-only transaction. A
   session that is known stays known, and only a known one is asked to finish a transaction.
   */
  ghost predicate Agrees(readOnly: bool, subs: seq<Submission>, front: Option<SessionConfig>, ops: seq<SessionOp>, last: Option<SessionConfig>)
    decreases |ops|
  {
    if ops == [] then front == last
    else match ops[0]
      case QueryOp(k) => k < |subs| && subs[k].config == front && Agrees(readOnly, subs, front, ops[1..], last)
      case BeginOp(ro, config) => front == Some(config) && (readOnly ==> ro) && Agrees(readOnly, subs, front, ops[1..], last)
      case FinishOp(_) => front.Some? && Agrees(readOnly, subs, front, ops[1..], last)
      case InvalidateOp(config) => (front.Some? ==> config.Some?) && Agrees(readOnly, subs, config, ops[1..], last)
      case _ => Agrees(readOnly, subs, front, ops[1..], last)
  }

  /** The configuration in force at the end of a session's queue: the one before a patch until its invalidation is sent. */
  function InForce(p: Pipe, s: Name): Option<SessionConfig> {
    if p.dispatcher.Sending? && p.dispatcher.Holds(s) then SessionOf(p.dispatcher.was, s) else SessionOf(p.config, s)
  }

  ghost predicate EndpointOk(p: Pipe, s: Name) {
    && (s in p.workers ==>
          Agrees(p.readOnlyCapability, p.subs, p.workers[s].front, Pending(p.workers[s]), InForce(p, s)))
    && (s in p.connections ==> s in p.workers && p.workers[s].front == Some(p.connections[s]))
  }

  ghost predicate CallAgrees(p: Pipe, c: Call) {
    && c.used == c.accepted
    && (p.readOnlyCapability ==> c.readOnly)
    && (c.query.Some? ==>
          && c.query.value < |p.subs|
          && var sub := p.subs[c.query.value];
             && sub.config == Some(c.accepted)
             && ResolveReadOnly(sub.permission, c.accepted) == Ok(c.readOnly)
             && (p.readOnlyCapability ==> sub.sqlAllowed))
  }

  ghost predicate EndpointsInv(p: Pipe) {
    && DefaultKnown(p.config)
    && (forall s: Name :: EndpointOk(p, s))
    && (forall i :: 0 <= i < |p.calls| ==> CallAgrees(p, p.calls[i]))
  }

  /** Queries keep the configuration they were accepted under, their permission and the verdict on their SQL. */
  ghost predicate ConfigsKept(a: seq<Submission>, b: seq<Submission>) {
    |a| <= |b| && forall k :: 0 <= k < |a| ==>
      b[k].config == a[k].config && b[k].permission == a[k].permission && b[k].sqlAllowed == a[k].sqlAllowed
  }

  lemma {:induction false} AgreesStill(
    readOnly: bool, a: seq<Submission>, b: seq<Submission>,
    front: Option<SessionConfig>, ops: seq<SessionOp>, last: Option<SessionConfig>)
    requires Agrees(readOnly, a, front, ops, last) && ConfigsKept(a, b)
    ensures Agrees(readOnly, b, front, ops, last)
    decreases |ops|
  {
    if ops != [] {
      AgreesStill(readOnly, a, b, if ops[0].InvalidateOp? then ops[0].installed else front, ops[1..], last);
    }
  }

  lemma {:induction false} AgreesThen(
    readOnly: bool, subs: seq<Submission>,
    front: Option<SessionConfig>, ops: seq<SessionOp>, last: Option<SessionConfig>, op: SessionOp, next: Option<SessionConfig>)
    requires Agrees(readOnly, subs, front, ops, last) && Agrees(readOnly, subs, last, [op], next)
    ensures Agrees(readOnly, subs, front, ops + [op], next)
    decreases |ops|
  {
    if ops != [] {
      AgreesThen(readOnly, subs, if ops[0].InvalidateOp? then ops[0].installed else front, ops[1..], last, op, next);
      assert (ops + [op])[1..] == ops[1..] + [op];
    } else {
      assert ops + [op] == [op];
    }
  }

  lemma {:induction false} KnownStaysKnown(
    readOnly: bool, subs: seq<Submission>,
    front: Option<SessionConfig>, ops: seq<SessionOp>, last: Option<SessionConfig>)
    requires Agrees(readOnly, subs, front, ops, last) && front.Some?
    ensures last.Some?
    decreases |ops|
  {
    if ops != [] {
      KnownStaysKnown(readOnly, subs, if ops[0].InvalidateOp? then ops[0].installed else front, ops[1..], last);
    }
  }

  ghost predicate SameGround(p: Pipe, q: Pipe) {
    && q.readOnlyCapability == p.readOnlyCapability && q.config == p.config
    && q.connections == p.connections && q.calls == p.calls && ConfigsKept(p.subs, q.subs)
    && SameForce(p, q)
  }

  ghost predicate SameForce(p: Pipe, q: Pipe) {
    q.config == p.config && (q.dispatcher == p.dispatcher || (!p.dispatcher.Sending? && !q.dispatcher.Sending?))
  }

  lemma CallsAgreeStill(p: Pipe, q: Pipe)
    requires EndpointsInv(p) && q.calls == p.calls && q.readOnlyCapability == p.readOnlyCapability && ConfigsKept(p.subs, q.subs)
    ensures forall i :: 0 <= i < |q.calls| ==> CallAgrees(q, q.calls[i])
  {
    forall i | 0 <= i < |q.calls| ensures CallAgrees(q, q.calls[i]) { assert CallAgrees(p, p.calls[i]); }
  }

  /** Nothing pending changes; workers that were not there before start under their session's configuration. */
  lemma SamePending(p: Pipe, q: Pipe)
    requires EndpointsInv(p) && SameGround(p, q) && p.workers.Keys <= q.workers.Keys
    requires q.workers.Keys == p.workers.Keys || !p.dispatcher.Sending?
    requires forall s :: s in q.workers ==>
               q.workers[s].front == WorkerOf(p, s).front && Pending(q.workers[s]) == Pending(WorkerOf(p, s))
    ensures EndpointsInv(q)
  {
    forall s: Name ensures EndpointOk(q, s) {
      assert EndpointOk(p, s);
      if s in p.workers {
        AgreesStill(p.readOnlyCapability, p.subs, q.subs, q.workers[s].front, Pending(q.workers[s]), InForce(p, s));
      }
    }
    CallsAgreeStill(p, q);
  }

  /** An operation accepted under the session's present configuration joins its queue. */
  lemma PendingPushed(p: Pipe, q: Pipe, session: Name, op: SessionOp)
    requires EndpointsInv(p) && SameGround(p, q) && !p.dispatcher.Sending?
    requires q.workers == p.workers[session := Queue(WorkerOf(p, session), op)]
    requires var now := SessionOf(p.config, session); Agrees(p.readOnlyCapability, q.subs, now, [op], now)
    ensures EndpointsInv(q)
  {
    forall s: Name ensures EndpointOk(q, s) {
      assert EndpointOk(p, s);
      var now, w := SessionOf(p.config, s), WorkerOf(p, s);
      if s in q.workers {
        assert Agrees(p.readOnlyCapability, p.subs, w.front, Pending(w), now);
        AgreesStill(p.readOnlyCapability, p.subs, q.subs, w.front, Pending(w), now);
      }
      if s == session {
        AgreesThen(p.readOnlyCapability, q.subs, w.front, Pending(w), now, op, now);
        assert Pending(q.workers[s]) == Pending(w) + [op];
      }
    }
    CallsAgreeStill(p, q);
  }

  /** An installed patch changes nothing at the end of any queue until its invalidation is there. */
  lemma PendingInstalled(p: Pipe)
    requires EndpointsInv(p) && PatchInv(p) && Enabled(p, DoInstall)
    ensures EndpointsInv(Install(p))
  {
    DefaultStaysKnown(p.config, p.dispatcher.patch);
    PatchInstall(p);
    var d, q := p.dispatcher, Install(p);
    hide Updated, Agrees;
    assert d.sessions[0..] == d.sessions;
    forall s: Name ensures EndpointOk(q, s) {
      assert EndpointOk(p, s);
      assert InForce(q, s) == InForce(p, s);
    }
    CallsAgreeStill(p, q);
  }

  /** The invalidation marks, in its queue, where the session's configuration changes. */
  lemma PendingSent(p: Pipe)
    requires EndpointsInv(p) && PatchInv(p) && Enabled(p, DoSend)
    ensures EndpointsInv(SendNext(p))
  {
    var d, q := p.dispatcher, SendNext(p);
    var session := d.sessions[d.sent];
    InForceSent(p, session);
    SentAgrees(p, session, d.was);
    hide PatchInv, Agrees, Pending, InForce;
    forall s: Name ensures EndpointOk(q, s) {
      InForceSent(p, s);
      assert EndpointOk(p, s);
    }
    CallsAgreeStill(p, q);
  }

  lemma InForceSent(p: Pipe, s: Name)
    requires PatchInv(p) && Enabled(p, DoSend)
    ensures var d := p.dispatcher;
            var session := d.sessions[d.sent];
            && PlaceIn(p, session)
            && InForce(p, session) == SessionOf(d.was, session)
            && InForce(SendNext(p), s) == if s == session then SessionOf(p.config, s) else InForce(p, s)
  {
    hide SessionOf, Queue, WorkerOf, TableOk, AffectedSessions;
    var d := p.dispatcher;
    TurnsAreTaken(d.sessions, d.sent);
    assert d.sessions[d.sent] in d.sessions[d.sent..];
  }

  lemma SentAgrees(p: Pipe, s: Name, was: RuntimeConfig)
    requires EndpointsInv(p) && s in p.workers && InForce(p, s) == SessionOf(was, s) && was.sessions.Keys <= p.config.sessions.Keys
    ensures var w, now := p.workers[s], SessionOf(p.config, s);
            Agrees(p.readOnlyCapability, p.subs, w.front, Pending(Queue(w, InvalidateOp(now))), now)
  {
    assert EndpointOk(p, s);
    var w, before, now := p.workers[s], SessionOf(was, s), SessionOf(p.config, s);
    AgreesThen(p.readOnlyCapability, p.subs, w.front, Pending(w), before, InvalidateOp(now), now);
    assert Pending(Queue(w, InvalidateOp(now))) == Pending(w) + [InvalidateOp(now)];
  }

  lemma PendingAnnounced(p: Pipe)
    requires EndpointsInv(p) && Enabled(p, DoAnnounce)
    ensures EndpointsInv(Announce(p))
  {
    hide Agrees;
    forall s: Name ensures EndpointOk(Announce(p), s) {
      assert EndpointOk(p, s);
      assert InForce(Announce(p), s) == InForce(p, s);
    }
    CallsAgreeStill(p, Announce(p));
  }

  /** The front operation of worker `s` is done with; it was run on a connection of its own configuration, if on any. */
  lemma PendingDone(p: Pipe, q: Pipe, s: Name, op: SessionOp)
    requires EndpointsInv(p) && s in p.workers && Pending(p.workers[s]) != [] && op == Pending(p.workers[s])[0]
    requires q.readOnlyCapability == p.readOnlyCapability && SameForce(p, q) && ConfigsKept(p.subs, q.subs)
    requires q.workers.Keys == p.workers.Keys && forall t :: t in p.workers && t != s ==> q.workers[t] == p.workers[t]
    requires Pending(q.workers[s]) == Pending(p.workers[s])[1..]
    requires q.workers[s].front == if op.InvalidateOp? then op.installed else p.workers[s].front
    requires forall t :: t in q.connections && t != s ==> t in p.connections && q.connections[t] == p.connections[t]
    requires s in q.connections ==> q.workers[s].front == Some(q.connections[s])
    requires q.calls == p.calls || (|q.calls| == |p.calls| + 1 && q.calls[..|p.calls|] == p.calls && CallAgrees(q, q.calls[|p.calls|]))
    ensures EndpointsInv(q)
  {
    forall t: Name ensures EndpointOk(q, t) {
      assert EndpointOk(p, t);
      if t in p.workers {
        AgreesStill(p.readOnlyCapability, p.subs, q.subs, q.workers[t].front, Pending(q.workers[t]), InForce(p, t));
      }
    }
    CallsAgreeStill(p, q.(calls := p.calls));
    forall i | 0 <= i < |q.calls| ensures CallAgrees(q, q.calls[i]) {
      if i < |p.calls| {
        assert q.calls[i] == p.calls[i];
        assert CallAgrees(q.(calls := p.calls), p.calls[i]);
      }
    }
  }

  lemma EndpointSubmitOp(p: Pipe, id: Option<Name>, session: Name, op: SessionOp)
    requires EndpointsInv(p) && !op.QueryOp? && !p.dispatcher.Sending?
    requires var now := SessionOf(p.config, session); Agrees(p.readOnlyCapability, p.subs, now, [op], now)
    ensures EndpointsInv(SubmitOp(p, id, session, op))
  {
    hide EndpointsInv, WorkerOf, Agrees;
    if HasRoom(p, session) {
      PendingPushed(p, SubmitOp(p, id, session, op), session, op);
    } else {
      EndpointStarted(p, session, Rejected(id));
    }
  }

  lemma EndpointStarted(p: Pipe, session: Name, e: Event)
    requires EndpointsInv(p) && !p.dispatcher.Sending?
    ensures EndpointsInv(Emit(GetSessionWorker(p, session), e))
  {
    hide EndpointsInv;
    SamePending(p, Emit(GetSessionWorker(p, session), e));
  }

  lemma EndpointEmit(p: Pipe, e: Event)
    requires EndpointsInv(p)
    ensures EndpointsInv(Emit(p, e))
  {
    hide EndpointsInv;
    SamePending(p, Emit(p, e));
  }

  lemma EndpointBegin(p: Pipe, id: Option<Name>, requested: Option<Name>, readOnly: bool, permission: Option<Permission>, policyAllows: bool)
    requires EndpointsInv(p) && !p.dispatcher.Sending?
    ensures EndpointsInv(SubmitBegin(p, id, requested, readOnly, permission, policyAllows))
  {
    hide EndpointsInv, ResolveReadOnly, SubmitOp;
    var session := ResolveName(p.config, requested);
    var config := SessionOf(p.config, session);
    EndpointEmit(p, Rejected(id));
    if config.Some? && !(p.readOnlyCapability && !readOnly) {
      EndpointSubmitOp(p, id, session, BeginOp(readOnly, config.value));
    }
  }

  lemma EndpointReserve(p: Pipe)
    requires EndpointsInv(p) && Enabled(p, DoReserve)
    ensures EndpointsInv(ReserveNext(p))
  {
    hide EndpointsInv, Agrees;
    var session := p.dispatcher.sessions[p.dispatcher.taken];
    StartedWorkers(p, p, session);
    hide WorkerOf, HasRoom;
    if HasRoom(p, session) { SamePending(p, ReserveNext(p)); } else { SamePending(p, ReserveNext(p)); }
  }

  lemma EndpointPatch(p: Pipe, step: Action)
    requires EndpointsInv(p) && PatchInv(p) && Enabled(p, step) && IsPatch(step)
    ensures EndpointsInv(Apply(p, step))
  {
    hide EndpointsInv, PatchInv, Updated, Agrees, ReserveNext, Install, SendNext, Announce;
    match step {
      case DoReserve => EndpointReserve(p);
      case DoInstall => PendingInstalled(p);
      case DoSend => PendingSent(p);
      case DoAnnounce => PendingAnnounced(p);
      case DoPatch(_, _, _) => SamePending(p, Apply(p, step));
    }
  }

  lemma EndpointAdmit(p: Pipe, line: QueryLine)
    requires EndpointsInv(p) && !p.dispatcher.Sending?
    ensures EndpointsInv(Admit(p, line))
  {
    hide EndpointsInv, WorkerOf;
    var session := ResolveName(p.config, line.session);
    if |p.inFlight| >= MAX_ACTIVE_QUERIES {
      EndpointEmit(p, Rejected(Some(line.id)));
    } else if HasRoom(p, session) {
      EnteredWorkers(p, line, session);
      PendingPushed(p, Admit(p, line), session, QueryOp(|p.subs|));
    } else {
      EndpointStarted(p, session, Rejected(Some(line.id)));
    }
  }

  lemma EndpointSubmitFinish(p: Pipe)
    requires EndpointsInv(p) && Enabled(p, DoSubmitFinish)
    ensures EndpointsInv(SubmitFinish(p, p.dispatcher.line))
  {
    hide EndpointsInv, Admit;
    var line := p.dispatcher.line;
    if ActiveNamesake(p, line.id) {
      SamePending(p, SubmitFinish(p, line));
    } else {
      var r := p.(dispatcher := Ready, inFlight := p.inFlight - {line.id});
      SamePending(p, r);
      EndpointAdmit(r, line);
    }
  }

  lemma EndpointTake(p: Pipe, s: Name)
    requires EndpointsInv(p) && Enabled(p, DoTake(s))
    ensures EndpointsInv(Take(p, s))
  {
    hide EndpointsInv, Agrees;
    var w := p.workers[s];
    var op := w.queue[0];
    assert w.queue == [op] + w.queue[1..];
    if !op.QueryOp? || p.subs[op.k].phase == Queued {
      TakenInHand(p, s);
      SamePending(p, Take(p, s));
    } else {
      EndpointHere(p, s);
      PendingDone(p, Take(p, s), s, op);
    }
  }

  /** An operation that is taken in hand is as pending as before. */
  lemma TakenInHand(p: Pipe, s: Name)
    requires Enabled(p, DoTake(s))
    requires p.workers[s].queue[0].QueryOp? ==> p.subs[p.workers[s].queue[0].k].phase == Queued
    ensures var q, w := Take(p, s), p.workers[s].(queue := p.workers[s].queue[1..], task := Busy(p.workers[s].queue[0]));
            && SameGround(p, q) && q.workers == p.workers[s := w] && Pending(w) == Pending(p.workers[s])
  {
    var op := p.workers[s].queue[0];
    assert p.workers[s].queue == [op] + p.workers[s].queue[1..];
    if op.QueryOp? {} else {}
  }

  lemma EndpointHere(p: Pipe, s: Name)
    requires EndpointsInv(p)
    ensures EndpointOk(p, s)
  {
  }

  /** The operation in hand was accepted under the configuration of its worker's connection, if it has one. */
  lemma AtTheFront(p: Pipe, s: Name)
    requires EndpointsInv(p) && s in p.workers && p.workers[s].task.Busy?
    ensures var w, op := p.workers[s], p.workers[s].task.op;
            && Pending(w) != [] && Pending(w)[0] == op && Pending(w)[1..] == w.queue
            && (op.QueryOp? ==> op.k < |p.subs| && p.subs[op.k].config == w.front)
            && (op.BeginOp? ==> w.front == Some(op.config) && (p.readOnlyCapability ==> op.readOnly))
            && (s in p.connections ==> w.front == Some(p.connections[s]))
  {
    assert EndpointOk(p, s);
  }

  lemma EndpointRunQuery(p: Pipe, step: Action)
    requires EndpointsInv(p) && Enabled(p, step) && step.DoRunQuery?
    ensures EndpointsInv(Apply(p, step))
  {
    hide EndpointsInv, EndpointOk, Agrees, RefusedEarly, RunQuery, ResolveReadOnly;
    var s, k := step.session, p.workers[step.session].task.op.k;
    AtTheFront(p, s);
    RunQueryFrame(p, step);
    if RefusedEarly(p, p.subs[k], step.policyAllows) {
      PendingDone(p, Apply(p, step), s, QueryOp(k));
    } else {
      RunQueryCall(p, step);
      NotRefused(p, p.subs[k], step.policyAllows);
      PendingDone(p, Apply(p, step), s, QueryOp(k));
    }
  }

  lemma EndpointRunControl(p: Pipe, step: Action)
    requires EndpointsInv(p) && Enabled(p, step) && step.DoRunControl?
    ensures EndpointsInv(Apply(p, step))
  {
    hide EndpointsInv, EndpointOk, Agrees, RunControl;
    var s, op := step.session, p.workers[step.session].task.op;
    AtTheFront(p, s);
    RunControlFrame(p, step);
    RunControlCall(p, step);
    PendingDone(p, Apply(p, step), s, op);
  }

  lemma EndpointEnd(p: Pipe, step: Action)
    requires EndpointsInv(p) && Enabled(p, step) && (step.DoEmit? || step.DoFinish?)
    ensures EndpointsInv(Apply(p, step))
  {
    hide EndpointsInv, Apply;
    EndSteps(p, step);
    SamePending(p, Apply(p, step));
  }

  lemma EndpointCancel(p: Pipe, step: Action)
    requires EndpointsInv(p) && Enabled(p, step)
    requires step.DoCancelStart? || step.DoCancelClaim? || step.DoCancelCheck? || step.DoCancelAcknowledge?
    ensures EndpointsInv(Apply(p, step))
  {
    hide EndpointsInv, Apply;
    CancelSteps(p, step);
    CancelsPatchNothing(p, step);
    SamePending(p, Apply(p, step));
  }

  lemma EndpointsKept(p: Pipe, step: Action)
    requires EndpointsInv(p) && PatchInv(p) && Enabled(p, step)
    ensures EndpointsInv(Apply(p, step))
  {
    hide EndpointsInv, PatchInv, Take, RunQuery, EmitTerminal, FinishQuery, RunControl, CancelClaim, CancelCheck, CancelStart,
      SubmitFinish, SubmitBegin, SubmitOp, PatchStart, ReserveNext, Install, SendNext, Announce, CancelAcknowledge;
    match step {
      case DoSubmitStart(line) =>
        if line.sqlBytes > MAX_SQL_BYTES || line.params > MAX_PARAMS { SamePending(p, Apply(p, step)); } else { SamePending(p, Apply(p, step)); }
      case DoPing => SamePending(p, Apply(p, step));
      case DoSubmitFinish => EndpointSubmitFinish(p);
      case DoBegin(id, requested, readOnly, permission, policyAllows) => EndpointBegin(p, id, requested, readOnly, permission, policyAllows);
      case DoTxEnd(id, requested, commit) =>
        EndpointEmit(p, Rejected(id));
        if ResolveName(p.config, requested) in p.config.sessions {
          EndpointSubmitOp(p, id, ResolveName(p.config, requested), FinishOp(commit));
        }
      case DoInfo(id, requested) => EndpointSubmitOp(p, id, ResolveName(p.config, requested), InfoOp);
      case DoTake(s) => EndpointTake(p, s);
      case DoRunQuery(_, _, _, _) => EndpointRunQuery(p, step);
      case DoRunControl(_, _) => EndpointRunControl(p, step);
      case DoEmit(_) => EndpointEnd(p, step);
      case DoFinish(_) => EndpointEnd(p, step);
      case _ => if IsPatch(step) { EndpointPatch(p, step); } else { EndpointCancel(p, step); }
    }
  }
}
