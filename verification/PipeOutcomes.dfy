/**
 What the events say of the queries, and which queries reach the executor, for every interleaving of
 the dispatcher and the workers.
 */
module PipeOutcomes {
  import opened Wrappers
  import opened Config
  import opened Executor
  import opened Postgres
  import opened Pipe
  import opened PipeInvariants

  function TaskOf(p: Pipe, s: Name): Task {
    if s in p.workers then p.workers[s].task else Waiting
  }

  function QueueOf(p: Pipe, s: Name): seq<SessionOp> {
    if s in p.workers then p.workers[s].queue else []
  }

  /** How many terminal events speak of query `k`. */
  function TerminalsOf(events: seq<Event>, k: nat): nat {
    if events == [] then 0
    else TerminalsOf(events[..|events| - 1], k) + (if events[|events| - 1].Terminal? && events[|events| - 1].k == k then 1 else 0)
  }

  lemma TerminalsAfter(events: seq<Event>, e: Event, k: nat)
    ensures TerminalsOf(events + [e], k) == TerminalsOf(events, k) + (if e.Terminal? && e.k == k then 1 else 0)
  {
    assert (events + [e])[..|events|] == events;
  }

  /** Whether the outcome of query `k` is out, told from where the query and its worker stand. */
  predicate Spoken(p: Pipe, k: nat)
    requires k < |p.subs|
  {
    match p.subs[k].phase
    case Queued => false
    case Running => TaskOf(p, p.subs[k].session) == Emitted(k)
    case Finished => true
    case CancelledPhase => !(p.dispatcher.Claiming? && p.dispatcher.k == k)
  }

  ghost predicate OutcomeOk(p: Pipe, k: nat) {
    if k < |p.subs| then
      TerminalsOf(p.events, k) == (if Spoken(p, k) then 1 else 0) && (!Spoken(p, k) ==> !p.subs[k].claimed)
    else TerminalsOf(p.events, k) == 0
  }

  /** Cancelled means that a cancel was asked for and nothing was left; so does nothing-left for every settled error. */
  ghost predicate EventOk(subs: seq<Submission>, e: Event) {
    e.Terminal? ==>
      && e.k < |subs|
      && (e.verdict.WasCancelled? ==> subs[e.k].cancelRequested && !e.effect)
      && (e.verdict.Failed? && e.verdict.error != CommitOutcomeUnknown ==> !e.effect)
  }

  ghost predicate HandOk(p: Pipe, s: Name) {
    TaskOf(p, s).Answered? ==>
      TaskOf(p, s).k < |p.subs| && Honest(p.subs[TaskOf(p, s).k].cancelRequested, TaskOf(p, s).result)
  }

  ghost predicate OutcomesInv(p: Pipe) {
    && (forall k: nat :: OutcomeOk(p, k))
    && (forall i :: 0 <= i < |p.events| ==> EventOk(p.subs, p.events[i]))
    && (forall s: Name :: HandOk(p, s))
  }

  /** A called query is not behind: it has started, and it was accepted before all that its session still has to start. */
  ghost predicate CallOk(p: Pipe, c: Call) {
    c.query.Some? ==>
      && c.query.value < |p.subs|
      && p.subs[c.query.value].session == c.session
      && p.subs[c.query.value].phase in {Running, Finished}
      && Before(c.query.value, TaskOf(p, c.session))
      && forall i :: 0 <= i < |QueueOf(p, c.session)| ==> InOrder(QueryOp(c.query.value), QueueOf(p, c.session)[i])
  }

  predicate Before(k: nat, t: Task) {
    t.Busy? ==> InOrder(QueryOp(k), t.op)
  }

  predicate CalledInOrder(a: Call, b: Call) {
    a.session == b.session && a.query.Some? && b.query.Some? ==> a.query.value < b.query.value
  }

  ghost predicate CallsInv(p: Pipe) {
    && (forall i :: 0 <= i < |p.calls| ==> CallOk(p, p.calls[i]))
    && (forall i, j :: 0 <= i < j < |p.calls| ==> CalledInOrder(p.calls[i], p.calls[j]))
  }

  predicate SubKept(a: Submission, b: Submission) {
    b == a || b == a.(cancelRequested := true)
  }

  predicate Grown(a: seq<SessionOp>, b: seq<SessionOp>, n: nat) {
    b == a || (|b| == |a| + 1 && b[..|a|] == a && (b[|a|].QueryOp? ==> b[|a|].k >= n))
  }

  predicate Silent(a: seq<Event>, b: seq<Event>) {
    b == a || (|b| == |a| + 1 && b[..|a|] == a && !b[|a|].Terminal?)
  }

  /** The dispatcher's steps that speak for no query: queues only grow, tasks stay, queries keep their phase. */
  ghost predicate Quiet(p: Pipe, q: Pipe) {
    && |p.subs| <= |q.subs|
    && (forall k :: 0 <= k < |p.subs| ==> SubKept(p.subs[k], q.subs[k]))
    && (forall k :: |p.subs| <= k < |q.subs| ==> q.subs[k].phase == Queued && !q.subs[k].claimed)
    && q.calls == p.calls && q.connections == p.connections
    && (forall s: Name :: TaskOf(q, s) == TaskOf(p, s) && Grown(QueueOf(p, s), QueueOf(q, s), |p.subs|))
    && Silent(p.events, q.events)
    && (p.dispatcher.Claiming? || q.dispatcher.Claiming? ==> q.dispatcher == p.dispatcher)
  }

  lemma QuietOutcomes(p: Pipe, q: Pipe)
    requires OutcomesInv(p) && Quiet(p, q)
    ensures OutcomesInv(q)
  {
    forall k: nat ensures OutcomeOk(q, k) {
      assert OutcomeOk(p, k);
      if q.events != p.events {
        assert q.events == p.events + [q.events[|p.events|]];
        TerminalsAfter(p.events, q.events[|p.events|], k);
      }
      if k < |p.subs| { assert SubKept(p.subs[k], q.subs[k]); }
    }
    forall i | 0 <= i < |q.events| ensures EventOk(q.subs, q.events[i]) {
      if i < |p.events| {
        assert q.events[i] == p.events[i] by { assert q.events[..|p.events|] == p.events; }
        assert EventOk(p.subs, p.events[i]);
      }
    }
    forall s: Name ensures HandOk(q, s) { assert HandOk(p, s); }
  }

  lemma QuietCalls(p: Pipe, q: Pipe)
    requires CallsInv(p) && Quiet(p, q)
    ensures CallsInv(q)
  {
    forall i | 0 <= i < |q.calls| ensures CallOk(q, q.calls[i]) {
      var c := q.calls[i];
      assert CallOk(p, c);
      var a, b := QueueOf(p, c.session), QueueOf(q, c.session);
      assert Grown(a, b, |p.subs|);
      if c.query.Some? {
        assert SubKept(p.subs[c.query.value], q.subs[c.query.value]);
        forall j | 0 <= j < |b| ensures InOrder(QueryOp(c.query.value), b[j]) {
          if j < |a| { assert b[j] == b[..|a|][j] == a[j]; }
        }
      }
    }
  }

  /**
   One query or one worker moves: at most query `k` changes, at most the worker of session `s` changes
   hands, and it held no other query. The events gained are `k`'s outcome if that step gave it one.
   */
  ghost predicate Moved(p: Pipe, q: Pipe, s: Name, k: nat) {
    && |q.subs| == |p.subs|
    && (forall i :: 0 <= i < |p.subs| && i != k ==> q.subs[i] == p.subs[i])
    && (k < |p.subs| ==> q.subs[k].session == p.subs[k].session && (p.subs[k].cancelRequested ==> q.subs[k].cancelRequested))
    && (forall t: Name :: t != s ==> TaskOf(q, t) == TaskOf(p, t))
    && (k < |p.subs| && TaskOf(q, s) != TaskOf(p, s) ==> p.subs[k].session == s)
    && (TaskOf(q, s) != TaskOf(p, s) ==> InHand(TaskOf(p, s)) in {None, Some(k)})
    && (q.dispatcher != p.dispatcher ==>
          && (p.dispatcher.Claiming? ==> p.dispatcher.k == k)
          && (q.dispatcher.Claiming? ==> q.dispatcher.k == k))
    && (k < |p.subs| && !Spoken(q, k) ==> !Spoken(p, k) && !q.subs[k].claimed)
  }

  lemma MovedOutcomes(p: Pipe, q: Pipe, s: Name, k: nat)
    requires OutcomesInv(p) && QueueInv(p) && Moved(p, q, s, k) && HandOk(q, s)
    requires q.events == p.events || (|q.events| == |p.events| + 1 && q.events[..|p.events|] == p.events)
    requires k < |p.subs| && Spoken(q, k) && !Spoken(p, k) ==>
               && |q.events| > |p.events|
               && q.events[|p.events|].Terminal? && q.events[|p.events|].k == k
               && EventOk(q.subs, q.events[|p.events|])
    requires !(k < |p.subs| && Spoken(q, k) && !Spoken(p, k)) ==> q.events == p.events
    ensures OutcomesInv(q)
  {
    forall i: nat ensures OutcomeOk(q, i) {
      assert OutcomeOk(p, i) && Located(p, i);
      if q.events != p.events {
        assert q.events == p.events + [q.events[|p.events|]];
        TerminalsAfter(p.events, q.events[|p.events|], i);
      }
      if i < |p.subs| && i != k {
        assert Spoken(q, i) == Spoken(p, i);
      }
    }
    forall i | 0 <= i < |q.events| ensures EventOk(q.subs, q.events[i]) {
      if i < |p.events| {
        assert q.events[i] == p.events[i] by { if q.events != p.events { assert q.events[..|p.events|] == p.events; } }
        assert EventOk(p.subs, p.events[i]);
      }
    }
    forall t: Name ensures HandOk(q, t) { assert HandOk(p, t); }
  }

  /** The queries and the dispatcher's place move as in a quiet step. */
  ghost predicate QuietTable(p: Pipe, q: Pipe) {
    && |p.subs| <= |q.subs|
    && (forall k :: 0 <= k < |p.subs| ==> SubKept(p.subs[k], q.subs[k]))
    && (forall k :: |p.subs| <= k < |q.subs| ==> q.subs[k].phase == Queued && !q.subs[k].claimed)
    && q.calls == p.calls && q.connections == p.connections
    && Silent(p.events, q.events)
    && (p.dispatcher.Claiming? || q.dispatcher.Claiming? ==> q.dispatcher == p.dispatcher)
  }

  lemma QuietHere(p: Pipe, q: Pipe)
    requires QuietTable(p, q) && q.workers == p.workers
    ensures Quiet(p, q)
  {
  }

  lemma QuietPush(p: Pipe, q: Pipe, session: Name, op: SessionOp)
    requires QuietTable(p, q) && q.workers == p.workers[session := Queue(WorkerOf(p, session), op)]
    requires op.QueryOp? ==> op.k >= |p.subs|
    ensures Quiet(p, q)
  {
    forall s: Name ensures TaskOf(q, s) == TaskOf(p, s) && Grown(QueueOf(p, s), QueueOf(q, s), |p.subs|) {
    }
  }

  lemma QuietWorkers(p: Pipe, q: Pipe)
    requires QuietTable(p, q) && p.workers.Keys <= q.workers.Keys
    requires forall s :: s in q.workers ==>
               || q.workers[s] == WorkerOf(p, s)
               || exists config :: q.workers[s] == Queue(WorkerOf(p, s), InvalidateOp(config))
    ensures Quiet(p, q)
  {
    forall s: Name ensures TaskOf(q, s) == TaskOf(p, s) && Grown(QueueOf(p, s), QueueOf(q, s), |p.subs|) {
    }
  }

  lemma QuietEmit(p: Pipe, e: Event)
    requires !e.Terminal?
    ensures Quiet(p, Emit(p, e))
  {
    QuietHere(p, Emit(p, e));
  }

  lemma QuietStarted(p: Pipe, session: Name, e: Event)
    requires !e.Terminal?
    ensures Quiet(p, Emit(GetSessionWorker(p, session), e))
  {
    hide Quiet;
    QuietWorkers(p, Emit(GetSessionWorker(p, session), e));
  }

  lemma QuietSubmitOp(p: Pipe, id: Option<Name>, session: Name, op: SessionOp)
    requires !op.QueryOp?
    ensures Quiet(p, SubmitOp(p, id, session, op))
  {
    hide Quiet, WorkerOf;
    if HasRoom(p, session) {
      QuietPush(p, SubmitOp(p, id, session, op), session, op);
    } else {
      QuietStarted(p, session, Rejected(id));
    }
  }

  lemma QuietBegin(p: Pipe, id: Option<Name>, requested: Option<Name>, readOnly: bool, permission: Option<Permission>, policyAllows: bool)
    ensures Quiet(p, SubmitBegin(p, id, requested, readOnly, permission, policyAllows))
  {
    hide Quiet, ResolveReadOnly, SubmitOp;
    QuietEmit(p, Rejected(id));
    var session := ResolveName(p.config, requested);
    var config := SessionOf(p.config, session);
    if config.Some? {
      QuietSubmitOp(p, id, session, BeginOp(readOnly, config.value));
    }
  }

  lemma QuietReserve(p: Pipe)
    requires Enabled(p, DoReserve)
    ensures Quiet(p, ReserveNext(p))
  {
    hide Quiet;
    var session := p.dispatcher.sessions[p.dispatcher.taken];
    StartedWorkers(p, p, session);
    hide WorkerOf, HasRoom;
    if HasRoom(p, session) {
      QuietWorkers(p, ReserveNext(p));
    } else {
      QuietWorkers(p, ReserveNext(p));
    }
  }

  lemma QuietPatch(p: Pipe, step: Action)
    requires Enabled(p, step) && IsPatch(step)
    ensures Quiet(p, Apply(p, step))
  {
    hide Quiet, Updated, WorkerOf, ReserveNext;
    if step.DoReserve? {
      QuietReserve(p);
    } else if step.DoSend? {
      var session := p.dispatcher.sessions[p.dispatcher.sent];
      QuietPush(p, Apply(p, step), session, InvalidateOp(SessionOf(p.config, session)));
    } else {
      QuietHere(p, Apply(p, step));
    }
  }

  lemma StartedWorkers(p: Pipe, r: Pipe, session: Name)
    requires r.workers == p.workers && r.config == p.config
    ensures var q := GetSessionWorker(r, session);
            p.workers.Keys <= q.workers.Keys && forall s :: s in q.workers ==> q.workers[s] == WorkerOf(p, s)
  {
  }

  lemma QuietAdmit(p: Pipe, r: Pipe, line: QueryLine)
    requires r.subs == p.subs && r.workers == p.workers && r.config == p.config && r.calls == p.calls
    requires r.connections == p.connections && r.events == p.events
    requires !p.dispatcher.Claiming? && r.dispatcher.Ready?
    ensures Quiet(p, Admit(r, line))
  {
    var session := ResolveName(r.config, line.session);
    assert WorkerOf(r, session) == WorkerOf(p, session);
    hide Quiet, WorkerOf;
    if |r.inFlight| >= MAX_ACTIVE_QUERIES {
      QuietHere(p, Admit(r, line));
    } else if HasRoom(r, session) {
      EnteredWorkers(r, line, session);
      QuietPush(p, Admit(r, line), session, QueryOp(|r.subs|));
    } else {
      StartedWorkers(p, r, session);
      QuietWorkers(p, Admit(r, line));
    }
  }

  /** The dispatcher's steps in which no query's outcome is decided. */
  ghost predicate IsQuiet(p: Pipe, step: Action)
    requires Enabled(p, step)
  {
    match step
    case DoCancelStart(id) => id !in p.inFlight || p.subs[p.inFlight[id]].phase != Queued
    case DoCancelClaim => false
    case DoTake(_) => false
    case DoRunQuery(_, _, _, _) => false
    case DoEmit(_) => false
    case DoFinish(_) => false
    case DoRunControl(_, _) => false
    case _ => true
  }

  lemma QuietCancel(p: Pipe, step: Action)
    requires Enabled(p, step) && IsQuiet(p, step)
    requires step.DoCancelStart? || step.DoCancelCheck? || step.DoCancelAcknowledge?
    ensures Quiet(p, Apply(p, step))
  {
    hide Quiet;
    match step {
      case DoCancelStart(id) =>
        if id !in p.inFlight { QuietHere(p, Apply(p, step)); } else { QuietHere(p, Apply(p, step)); }
      case DoCancelCheck =>
        if p.subs[p.dispatcher.k].IsFinished() { QuietHere(p, Apply(p, step)); } else { QuietHere(p, Apply(p, step)); }
      case DoCancelAcknowledge => QuietHere(p, Apply(p, step));
    }
  }

  lemma QuietSubmit(p: Pipe, step: Action)
    requires Enabled(p, step) && (step.DoSubmitStart? || step.DoSubmitFinish? || step.DoPing?)
    ensures Quiet(p, Apply(p, step))
  {
    hide Quiet, Admit;
    match step {
      case DoSubmitStart(line) =>
        if line.sqlBytes > MAX_SQL_BYTES || line.params > MAX_PARAMS { QuietHere(p, Apply(p, step)); } else { QuietHere(p, Apply(p, step)); }
      case DoPing => QuietHere(p, Apply(p, step));
      case DoSubmitFinish =>
        var line := p.dispatcher.line;
        if ActiveNamesake(p, line.id) {
          QuietHere(p, Apply(p, step));
        } else {
          QuietAdmit(p, p.(dispatcher := Ready, inFlight := p.inFlight - {line.id}), line);
        }
    }
  }

  lemma QuietSteps(p: Pipe, step: Action)
    requires Enabled(p, step) && IsQuiet(p, step)
    ensures Quiet(p, Apply(p, step))
  {
    hide Quiet, CancelCheck, CancelStart, SubmitStart, SubmitFinish, CleanedUp, SubmitBegin, SubmitOp, PatchStart, ReserveNext, Install, SendNext, Announce, CancelAcknowledge;
    match step {
      case DoBegin(id, requested, readOnly, permission, policyAllows) => QuietBegin(p, id, requested, readOnly, permission, policyAllows);
      case DoTxEnd(id, requested, commit) =>
        QuietEmit(p, Rejected(id));
        QuietSubmitOp(p, id, ResolveName(p.config, requested), FinishOp(commit));
      case DoInfo(id, requested) => QuietSubmitOp(p, id, ResolveName(p.config, requested), InfoOp);
      case DoSubmitStart(_) => QuietSubmit(p, step);
      case DoSubmitFinish => QuietSubmit(p, step);
      case DoPing => QuietSubmit(p, step);
      case _ => if IsPatch(step) { QuietPatch(p, step); } else { QuietCancel(p, step); }
    }
  }

  lemma Here(p: Pipe, k: nat, s: Name)
    requires OutcomesInv(p) && QueueInv(p)
    ensures OutcomeOk(p, k) && Located(p, k) && HandOk(p, s)
    ensures s in p.workers ==> WorkerInv(p.subs, s, p.workers[s])
  {
  }

  lemma OutcomeCancel(p: Pipe, step: Action)
    requires OutcomesInv(p) && QueueInv(p) && DispatcherOk(p) && Enabled(p, step) && !IsQuiet(p, step)
    requires step.DoCancelStart? || step.DoCancelClaim?
    ensures OutcomesInv(Apply(p, step))
  {
    hide OutcomesInv, QueueInv;
    var q := Apply(p, step);
    var k := if step.DoCancelStart? then p.inFlight[step.id] else p.dispatcher.k;
    var s := p.subs[k].session;
    Here(p, k, s);
    MovedOutcomes(p, q, s, k);
  }

  lemma OutcomeTake(p: Pipe, s: Name)
    requires OutcomesInv(p) && QueueInv(p) && Enabled(p, DoTake(s))
    ensures OutcomesInv(Take(p, s))
  {
    hide OutcomesInv, QueueInv;
    var op := p.workers[s].queue[0];
    Here(p, if op.QueryOp? then op.k else |p.subs|, s);
    if !op.QueryOp? {
      MovedOutcomes(p, Take(p, s), s, |p.subs|);
    } else {
      assert WaitingOk(p.subs, s, InHand(p.workers[s].task), op);
      if p.subs[op.k].phase == Queued {
        MovedOutcomes(p, Take(p, s), s, op.k);
      } else {
        MovedOutcomes(p, Take(p, s), s, op.k);
      }
    }
  }

  lemma OutcomeRunQuery(p: Pipe, step: Action)
    requires OutcomesInv(p) && QueueInv(p) && Enabled(p, step) && step.DoRunQuery?
    ensures OutcomesInv(Apply(p, step))
  {
    hide OutcomesInv, QueueInv, RefusedEarly, RunQuery;
    var s, k := step.session, p.workers[step.session].task.op.k;
    Here(p, k, s);
    RunQueryFrame(p, step);
    if RefusedEarly(p, p.subs[k], step.policyAllows) {
      MovedOutcomes(p, Apply(p, step), s, k);
    } else {
      MovedOutcomes(p, Apply(p, step), s, k);
    }
  }

  /** The verdict on an honest result is the truth. */
  lemma SettledTruth(r: ExecResult, requested: bool, answered: bool)
    requires Honest(answered, r) && (answered ==> requested)
    ensures SettleCancel(r, requested).WasCancelled? ==> requested && !r.effect
    ensures SettleCancel(r, requested).Failed? && SettleCancel(r, requested).error != CommitOutcomeUnknown ==> !r.effect
  {
  }

  /**
   A query that was not sent because its cancel was there first is told as cancelled; so is one that the
   server stopped, with its own code for that, if its cancel was asked for; every other error is told as it is.
   */
  lemma VerdictIsTold(r: ExecResult, requested: bool)
    ensures var verdict := SettleCancel(r, requested);
            && (verdict == Succeeded <==> r.error.None?)
            && (verdict == WasCancelled <==> r.error == Some(Cancelled) || (requested && r.error == Some(Sql("57014"))))
            && (verdict.Failed? ==> r.error == Some(verdict.error))
  {
  }

  lemma OutcomeEmit(p: Pipe, s: Name)
    requires OutcomesInv(p) && QueueInv(p) && Enabled(p, DoEmit(s))
    ensures OutcomesInv(Apply(p, DoEmit(s)))
  {
    hide OutcomesInv, QueueInv, SettleCancel;
    var k := p.workers[s].task.k;
    Here(p, k, s);
    SettledTruth(p.workers[s].task.result, p.subs[k].cancelRequested, p.subs[k].cancelRequested);
    MovedOutcomes(p, Apply(p, DoEmit(s)), s, k);
  }

  lemma OutcomeFinish(p: Pipe, s: Name)
    requires OutcomesInv(p) && QueueInv(p) && Enabled(p, DoFinish(s))
    ensures OutcomesInv(Apply(p, DoFinish(s)))
  {
    hide OutcomesInv, QueueInv;
    var k := p.workers[s].task.k;
    Here(p, k, s);
    MovedOutcomes(p, Apply(p, DoFinish(s)), s, k);
  }

  lemma OutcomeRunControl(p: Pipe, step: Action)
    requires OutcomesInv(p) && QueueInv(p) && Enabled(p, step) && step.DoRunControl?
    ensures OutcomesInv(Apply(p, step))
  {
    hide OutcomesInv, QueueInv, RunControl;
    Here(p, |p.subs|, step.session);
    RunControlFrame(p, step);
    MovedOutcomes(p, Apply(p, step), step.session, |p.subs|);
  }

  lemma TakeIsApplied(p: Pipe, s: Name)
    requires Enabled(p, DoTake(s))
    ensures Apply(p, DoTake(s)) == Take(p, s)
  {
  }

  lemma OutcomesKept(p: Pipe, step: Action)
    requires OutcomesInv(p) && QueueInv(p) && TableInv(p) && Enabled(p, step)
    ensures OutcomesInv(Apply(p, step))
  {
    hide OutcomesInv, QueueInv, Quiet, Apply, DispatcherOk;
    if IsQuiet(p, step) {
      QuietSteps(p, step);
      QuietOutcomes(p, Apply(p, step));
    } else {
      match step {
        case DoTake(s) => OutcomeTake(p, s); TakeIsApplied(p, s);
        case DoRunQuery(_, _, _, _) => OutcomeRunQuery(p, step);
        case DoEmit(s) => OutcomeEmit(p, s);
        case DoFinish(s) => OutcomeFinish(p, s);
        case DoRunControl(_, _) => OutcomeRunControl(p, step);
        case _ => OutcomeCancel(p, step);
      }
    }
  }

  /** The call that running query `k` may make. */
  function QueryCall(p: Pipe, s: Name, k: nat, link: Link): Call
    requires k < |p.subs| && p.subs[k].config.Some? && ResolveReadOnly(p.subs[k].permission, p.subs[k].config.value).Ok?
  {
    var config := p.subs[k].config.value;
    Call(s, Some(k), config, UsedConfig(p.connections, s, config, link), ResolveReadOnly(p.subs[k].permission, config).value)
  }

  lemma RunQueryCall(p: Pipe, step: Action)
    requires Enabled(p, step) && step.DoRunQuery?
    requires !RefusedEarly(p, p.subs[p.workers[step.session].task.op.k], step.policyAllows)
    ensures var s, k, q := step.session, p.workers[step.session].task.op.k, Apply(p, step);
            && q.calls == (if step.link.ran then p.calls + [QueryCall(p, s, k, step.link)] else p.calls)
            && q.connections == Connected(p.connections, s, p.subs[k].config.value, step.link)
  {
    hide Connected, UsedConfig, ResolveReadOnly;
    if step.link.ran {} else {}
  }

  lemma RunControlCall(p: Pipe, step: Action)
    requires Enabled(p, step) && step.DoRunControl?
    ensures var s, op, q := step.session, p.workers[step.session].task.op, Apply(p, step);
            && q.calls == (if op.BeginOp? && step.link.ran
                           then p.calls + [Call(s, None, op.config, UsedConfig(p.connections, s, op.config, step.link), op.readOnly)] else p.calls)
            && q.connections ==
                 (if op.BeginOp? then Connected(p.connections, s, op.config, step.link)
                  else if op.InvalidateOp? || (op.FinishOp? && step.link.dropped) then p.connections - {s}
                  else p.connections)
  {
    hide Connected, UsedConfig;
    match p.workers[step.session].task.op {
      case BeginOp(_, _) => if step.link.ran {} else {}
      case FinishOp(_) => if step.link.dropped {} else {}
      case _ =>
    }
  }

  predicate HasStarted(a: Phase, b: Phase) {
    a in {Running, Finished} ==> b in {Running, Finished}
  }

  /** Queries do not go back, and worker `s` may take the head of its queue. */
  lemma SameCalls(p: Pipe, q: Pipe, s: Name)
    requires CallsInv(p) && q.calls == p.calls && |q.subs| == |p.subs|
    requires forall k :: 0 <= k < |p.subs| ==> q.subs[k].session == p.subs[k].session && HasStarted(p.subs[k].phase, q.subs[k].phase)
    requires forall t: Name :: t != s ==> TaskOf(q, t) == TaskOf(p, t) && QueueOf(q, t) == QueueOf(p, t)
    requires QueueOf(q, s) == QueueOf(p, s) || (QueueOf(p, s) != [] && QueueOf(q, s) == QueueOf(p, s)[1..])
    requires TaskOf(q, s).Busy? ==> TaskOf(q, s) == TaskOf(p, s) || (QueueOf(p, s) != [] && TaskOf(q, s).op == QueueOf(p, s)[0])
    ensures CallsInv(q)
  {
    forall i | 0 <= i < |q.calls| ensures CallOk(q, q.calls[i]) { assert CallOk(p, p.calls[i]); }
  }

  lemma CallsTake(p: Pipe, s: Name)
    requires CallsInv(p) && Enabled(p, DoTake(s))
    ensures CallsInv(Take(p, s))
  {
    hide CallsInv;
    var op := p.workers[s].queue[0];
    if !op.QueryOp? {
      SameCalls(p, Take(p, s), s);
    } else if p.subs[op.k].phase == Queued {
      SameCalls(p, Take(p, s), s);
    } else {
      SameCalls(p, Take(p, s), s);
    }
  }

  /** The query in hand is called: it comes after all that its session called before. */
  lemma CalledNext(p: Pipe, q: Pipe, s: Name, k: nat, c: Call)
    requires CallsInv(p) && QueueInv(p) && s in p.workers && p.workers[s].task == Busy(QueryOp(k)) && c.query == Some(k) && c.session == s
    requires q.subs == p.subs && q.calls == p.calls + [c] && s in q.workers && q.workers[s].task.Answered?
    requires q.workers == p.workers[s := p.workers[s].(task := q.workers[s].task)]
    ensures CallsInv(q)
  {
    var r := q.(calls := p.calls);
    SameCalls(p, r, s);
    assert WorkerInv(p.subs, s, p.workers[s]);
    forall i | 0 <= i < |QueueOf(q, s)| ensures InOrder(QueryOp(k), QueueOf(q, s)[i]) {
      assert WaitingOk(p.subs, s, InHand(p.workers[s].task), p.workers[s].queue[i]);
    }
    forall i | 0 <= i < |q.calls| ensures CallOk(q, q.calls[i]) {
      if i < |p.calls| { assert CallOk(r, r.calls[i]); }
    }
    forall i, j | 0 <= i < j < |q.calls| ensures CalledInOrder(q.calls[i], q.calls[j]) {
      if j < |p.calls| { assert CalledInOrder(p.calls[i], p.calls[j]); } else { assert CallOk(p, p.calls[i]); }
    }
  }

  lemma CallsRunQuery(p: Pipe, step: Action)
    requires CallsInv(p) && QueueInv(p) && Enabled(p, step) && step.DoRunQuery?
    ensures CallsInv(Apply(p, step))
  {
    hide CallsInv, QueueInv, RefusedEarly, RunQuery, ResolveReadOnly, UsedConfig, Connected;
    var s, k := step.session, p.workers[step.session].task.op.k;
    RunQueryFrame(p, step);
    if RefusedEarly(p, p.subs[k], step.policyAllows) {
      SameCalls(p, Apply(p, step), s);
    } else {
      RunQueryCall(p, step);
      if step.link.ran {
        NotRefused(p, p.subs[k], step.policyAllows);
        CalledNext(p, Apply(p, step), s, k, QueryCall(p, s, k, step.link));
      } else {
        SameCalls(p, Apply(p, step), s);
      }
    }
  }

  lemma CallsRunControl(p: Pipe, step: Action)
    requires CallsInv(p) && Enabled(p, step) && step.DoRunControl?
    ensures CallsInv(Apply(p, step))
  {
    hide CallsInv, RunControl, UsedConfig, Connected;
    var q := Apply(p, step);
    RunControlFrame(p, step);
    RunControlCall(p, step);
    SameCalls(p, q.(calls := p.calls), step.session);
    if q.calls != p.calls {
      CalledForNoQuery(q.(calls := p.calls), q);
    }
  }

  lemma CalledForNoQuery(p: Pipe, q: Pipe)
    requires CallsInv(p) && |q.calls| == |p.calls| + 1 && q == p.(calls := q.calls)
    requires q.calls[..|p.calls|] == p.calls && q.calls[|p.calls|].query.None?
    ensures CallsInv(q)
  {
    forall i | 0 <= i < |q.calls| ensures CallOk(q, q.calls[i]) {
      var c := q.calls[i];
      if i < |p.calls| { assert c == p.calls[i] && CallOk(p, c); }
      assert TaskOf(q, c.session) == TaskOf(p, c.session) && QueueOf(q, c.session) == QueueOf(p, c.session);
    }
    forall i, j | 0 <= i < j < |q.calls| ensures CalledInOrder(q.calls[i], q.calls[j]) {
      if j < |p.calls| { assert q.calls[i] == p.calls[i] && q.calls[j] == p.calls[j]; }
    }
  }

  lemma CallsEnd(p: Pipe, step: Action)
    requires CallsInv(p) && Enabled(p, step) && (step.DoEmit? || step.DoFinish?)
    ensures CallsInv(Apply(p, step))
  {
    hide CallsInv, Apply;
    EndSteps(p, step);
    SameCalls(p, Apply(p, step), step.session);
  }

  lemma CallsCancel(p: Pipe, step: Action)
    requires CallsInv(p) && Enabled(p, step)
    requires step.DoCancelStart? || step.DoCancelClaim?
    ensures CallsInv(Apply(p, step))
  {
    hide CallsInv, Apply;
    CancelSteps(p, step);
    SameCalls(p, Apply(p, step), 0);
  }

  lemma CallsKept(p: Pipe, step: Action)
    requires CallsInv(p) && QueueInv(p) && Enabled(p, step)
    ensures CallsInv(Apply(p, step))
  {
    hide CallsInv, QueueInv, Quiet, Apply;
    if IsQuiet(p, step) {
      QuietSteps(p, step);
      QuietCalls(p, Apply(p, step));
    } else {
      match step {
        case DoTake(s) => CallsTake(p, s); TakeIsApplied(p, s);
        case DoRunQuery(_, _, _, _) => CallsRunQuery(p, step);
        case DoEmit(_) => CallsEnd(p, step);
        case DoFinish(_) => CallsEnd(p, step);
        case DoRunControl(_, _) => CallsRunControl(p, step);
        case _ => CallsCancel(p, step);
      }
    }
  }
}
