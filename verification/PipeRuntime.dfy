/**
 The dispatcher and the session workers as they are written: one object whose tables and queues are
 changed in place. Each method is one step of the transition system and says what it decides.
 */
module PipeRuntime {
  import opened Wrappers
  import opened Config
  import opened Executor
  import opened Pipe
  import opened PipeInvariants
  import opened PipeOutcomes
  import opened PipeRuns
  import opened PipeRequests

  class PipeRuntime {
    const readOnlyCapability: bool
    const lockedProfile: bool
    var config: RuntimeConfig
    var subs: seq<Submission>
    var inFlight: map<Name, nat>
    var workers: map<Name, Worker>
    var connections: map<Name, SessionConfig>
    var dispatcher: Dispatcher
    var events: seq<Event>
    var calls: seq<Call>

    function State(): Pipe
      reads this
    {
      Pipe(readOnlyCapability, lockedProfile, config, subs, inFlight, workers, connections, dispatcher, events, calls)
    }

    /** The object satisfies between any two steps what holds in every reachable state of the pipe. */
    ghost predicate Valid()
      reads this
    {
      PipeInv(State())
    }

    constructor (readOnlyCapability: bool, lockedProfile: bool, session: Option<SessionConfig>, log: seq<string>)
      ensures Valid() && State() == Fresh(readOnlyCapability, lockedProfile, Startup(session, log))
    {
      this.readOnlyCapability, this.lockedProfile, config := readOnlyCapability, lockedProfile, Startup(session, log);
      subs, inFlight, workers, connections := [], map[], map[], map[];
      dispatcher, events, calls := Dispatcher.Ready, [], [];
      new;
      FreshIsFine(readOnlyCapability, lockedProfile, config);
    }

    method Say(e: Event)
      modifies this`events
      ensures State() == Emit(old(State()), e)
    {
      events := events + [e];
    }

    method StartWorker(session: Name)
      modifies this`workers
      ensures State() == GetSessionWorker(old(State()), session)
    {
      if session !in workers {
        workers := workers[session := Worker([], Waiting, SessionOf(config, session))];
      } else {
        assert workers == workers[session := workers[session]];
      }
    }

    /** Put an operation in a session's queue if it has a place left, starting its worker if there is none. */
    method TrySend(session: Name, op: SessionOp) returns (ok: bool)
      modifies this`workers
      ensures ok <==> HasRoom(old(State()), session)
      ensures State() == if ok then Enqueue(old(State()), session, op) else GetSessionWorker(old(State()), session)
    {
      StartWorker(session);
      var held := if dispatcher.Holds(session) then 1 else 0;
      ok := |workers[session].queue| + held < MAX_ACTIVE_QUERIES;
      if ok {
        var w := workers[session];
        workers := workers[session := w.(queue := w.queue + [op])];
      }
    }

    method SendOrReject(id: Option<Name>, session: Name, op: SessionOp)
      modifies this`workers, this`events
      ensures State() == SubmitOp(old(State()), id, session, op)
    {
      var sent := TrySend(session, op);
      if !sent { Say(Rejected(id)); }
    }

    method CleanupFinishedQueries()
      requires TableOk(State())
      modifies this`inFlight
      ensures State() == CleanedUp(old(State()))
    {
      var ids := inFlight.Keys;
      while ids != {}
        invariant ids <= old(inFlight).Keys && inFlight.Keys <= old(inFlight).Keys
        invariant forall id :: id in inFlight ==> inFlight[id] == old(inFlight)[id]
        invariant forall id :: id in old(inFlight) ==> (id in inFlight <==> id in ids || !subs[old(inFlight)[id]].IsFinished())
        decreases ids
      {
        var id :| id in ids;
        if subs[inFlight[id]].IsFinished() {
          inFlight := inFlight - {id};
        }
        ids := ids - {id};
      }
    }

    /** A query line too large is refused; before any other is entered, the table holds the active queries and no others. */
    method DispatchQuery(line: QueryLine)
      requires Valid() && dispatcher.Ready?
      modifies this
      ensures Valid() && Stepped(old(State()), DoSubmitStart(line), State())
      ensures dispatcher.Submitting? <==> line.sqlBytes <= 1_048_576 && line.params <= 65_535
      ensures dispatcher.Submitting? || events == old(events) + [Rejected(Some(line.id))]
      ensures dispatcher.Submitting? ==> events == old(events) && forall id :: id in inFlight <==> HasActive(State(), id)
    {
      hide PipeInv, Enabled, Apply, Stepped, HasActive;
      ghost var p := State();
      TableIsOk(p);
      SubmitStartIsAStep(p, line);
      if line.sqlBytes > MAX_SQL_BYTES || line.params > MAX_PARAMS {
        Say(Rejected(Some(line.id)));
      } else {
        CleanupFinishedQueries();
        dispatcher := Submitting(line);
        CleanTableIsExact(p, line);
      }
      assert State() == SubmitStart(p, line);
    }

    /** The line is accepted under exactly the conditions the caller is told of, and otherwise refused once. */
    method DispatchQueryEnter()
      requires Valid() && dispatcher.Submitting?
      modifies this
      ensures Valid() && Stepped(old(State()), DoSubmitFinish, State())
      ensures var p, line := old(State()), old(dispatcher).line;
              if !HasActive(p, line.id) && |p.inFlight - {line.id}| < MAX_ACTIVE_QUERIES && HasRoom(p, ResolveName(p.config, line.session))
              then subs == p.subs + [Accepted(p, line)] && events == p.events
              else subs == p.subs && events == p.events + [Rejected(Some(line.id))]
    {
      hide PipeInv, Enabled, Apply, Stepped, TerminalsOf, HasActive, HasQueued, Admit, HasRoom, Accepted, ResolveName;
      ghost var p := State();
      TableIsOk(p);
      EntryDecided(p);
      SubmitFinishIsAStep(p);
      hide SubmitFinish;
      EnterUnlessActive();
    }

    /** A finished query of the same id gives its place up, an active one refuses the line. */
    method EnterUnlessActive()
      requires dispatcher.Submitting? && TableOk(State())
      modifies this
      ensures State() == SubmitFinish(old(State()), old(dispatcher).line)
    {
      hide Admit;
      var line := dispatcher.line;
      dispatcher := Dispatcher.Ready;
      if line.id in inFlight && !subs[inFlight[line.id]].IsFinished() {
        Say(Rejected(Some(line.id)));
      } else {
        inFlight := inFlight - {line.id};
        EnterQuery(line);
      }
    }

    /** The query is entered before it is sent, and taken out again if its session's queue is full. */
    method EnterQuery(line: QueryLine)
      requires line.id !in inFlight
      modifies this`inFlight, this`subs, this`workers, this`events
      ensures State() == Admit(old(State()), line)
    {
      if |inFlight| >= MAX_ACTIVE_QUERIES {
        Say(Rejected(Some(line.id)));
        return;
      }
      var k, session := |subs|, GetOr(line.session, config.defaultSession);
      inFlight := inFlight[line.id := k];
      subs := subs + [Submission(line.id, session, SessionOf(config, session), line.sqlAllowed, line.permission, Queued, false, false)];
      assert WorkerOf(State(), session) == WorkerOf(old(State()), session);
      var sent := TrySend(session, QueryOp(k));
      if !sent {
        subs, inFlight := subs[..k], inFlight - {line.id};
        assert subs == old(subs) && inFlight == old(inFlight);
        Say(Rejected(Some(line.id)));
      }
    }

    /** Compare and swap of a query's phase; the cancel and the worker race on it. */
    method TryMove(k: nat, from: Phase, to: Phase) returns (won: bool)
      requires k < |subs|
      modifies this`subs
      ensures won <==> old(subs)[k].phase == from
      ensures subs == if won then old(subs)[k := old(subs)[k].(phase := to)] else old(subs)
    {
      won := subs[k].phase == from;
      if won {
        subs := subs[k := subs[k].(phase := to)];
      }
    }

    /** Whoever claims first may emit the query's terminal event. */
    method ClaimTerminalEmit(k: nat) returns (won: bool)
      requires k < |subs|
      modifies this`subs
      ensures won <==> !old(subs)[k].claimed
      ensures subs == old(subs)[k := old(subs)[k].(claimed := true)]
    {
      won := !subs[k].claimed;
      subs := subs[k := subs[k].(claimed := true)];
    }

    /**
     The cancel wins its query from the worker exactly if there is a queued one of the id, and then no
     other is touched; no outcome is said yet, and an id without an entry is answered for.
     */
    method DispatchCancel(id: Name)
      requires Valid() && dispatcher.Ready?
      modifies this
      ensures Valid() && Stepped(old(State()), DoCancelStart(id), State())
      ensures dispatcher.Claiming? <==> HasQueued(old(State()), id)
      ensures dispatcher.Claiming? ==> dispatcher.k < |subs| && subs[dispatcher.k].id == id && subs[dispatcher.k].phase == CancelledPhase
      ensures !HasQueued(State(), id)
      ensures dispatcher.Ready? ==> !HasActive(State(), id) && events == old(events) + [NoSuchQuery(id)]
      ensures forall k: nat :: TerminalsOf(events, k) == TerminalsOf(old(events), k)
    {
      hide PipeInv, Enabled, Apply, Stepped, TerminalsOf, HasActive, HasQueued;
      ghost var p := State();
      TableIsOk(p);
      CancelTakesQueued(p, id);
      CancelStartIsAStep(p, id);
      if id !in inFlight {
        Say(NoSuchQuery(id));
      } else {
        var k := inFlight[id];
        var taken := TryMove(k, Queued, CancelledPhase);
        dispatcher := if taken then Claiming(id, k) else Checking(id, k);
      }
      assert State() == CancelStart(p, id);
    }

    /** The cancel of a queued query is its one outcome, and the id is free again. */
    method CancelTaken()
      requires Valid() && dispatcher.Claiming?
      modifies this
      ensures Valid() && Stepped(old(State()), DoCancelClaim, State())
      ensures var k := old(dispatcher).k;
              && events == old(events) + [Terminal(k, WasCancelled, false)]
              && TerminalsOf(old(events), k) == 0 && TerminalsOf(events, k) == 1
      ensures !HasActive(State(), old(dispatcher).id) && dispatcher.Ready? && inFlight == old(inFlight) - {old(dispatcher).id}
    {
      hide PipeInv, Enabled, Apply, Stepped, TerminalsOf, HasActive, HasQueued;
      ghost var p := State();
      ClaimIsTheOutcome(p);
      CancelClaimIsAStep(p);
      var id, k := dispatcher.id, dispatcher.k;
      dispatcher := Dispatcher.Ready;
      subs := subs[k := subs[k].(cancelRequested := true)];
      var terminal := ClaimTerminalEmit(k);
      inFlight := inFlight - {id};
      if terminal {
        Say(Terminal(k, WasCancelled, false));
      }
      assert State() == CancelClaim(p, id, k);
    }

    /** A query that had started is told to be over only if its outcome is out; otherwise it runs and its cancel is on record. */
    method CancelNotTaken()
      requires Valid() && dispatcher.Checking?
      modifies this
      ensures Valid() && Stepped(old(State()), DoCancelCheck, State())
      ensures var k := old(dispatcher).k;
              && k < |subs|
              && if dispatcher.Ready? then TerminalsOf(events, k) == 1 && events == old(events) + [AlreadyFinished(old(dispatcher).id)]
                 else subs[k].phase == Running && subs[k].cancelRequested && events == old(events)
      ensures forall k: nat :: TerminalsOf(events, k) == TerminalsOf(old(events), k)
    {
      hide PipeInv, Enabled, Apply, Stepped, TerminalsOf, HasActive, HasQueued;
      ghost var p := State();
      CheckIsTrue(p);
      CancelCheckIsAStep(p);
      var id, k := dispatcher.id, dispatcher.k;
      if subs[k].IsFinished() {
        inFlight := inFlight - {id};
        dispatcher := Dispatcher.Ready;
        Say(AlreadyFinished(id));
      } else {
        subs := subs[k := subs[k].(cancelRequested := true)];
        dispatcher := Asking(id, k);
      }
      assert State() == CancelCheck(p, id, k);
    }

    /** The caller is told that the server was asked to stop a query whose cancel is on record. */
    method CancelAcknowledged()
      requires Valid() && dispatcher.Asking?
      modifies this
      ensures Valid() && Stepped(old(State()), DoCancelAcknowledge, State())
      ensures dispatcher.Ready? && events == old(events) + [CancelAsked(old(dispatcher).id)]
      ensures forall k: nat :: TerminalsOf(events, k) == TerminalsOf(old(events), k)
    {
      hide PipeInv, Enabled, Apply, Stepped, TerminalsOf, HasActive, HasQueued;
      ghost var p := State();
      AcknowledgeIsAStep(p);
      forall k: nat ensures TerminalsOf(p.events + [CancelAsked(p.dispatcher.id)], k) == TerminalsOf(p.events, k) {
        TerminalsAfter(p.events, CancelAsked(p.dispatcher.id), k);
      }
      var id := dispatcher.id;
      dispatcher := Dispatcher.Ready;
      Say(CancelAsked(id));
      assert State() == CancelAcknowledge(p, id);
    }

    /** The sorted affected sessions of a patch the policy admits are on the list to be reserved. */
    method BeginPatch(patch: ConfigPatch, policyAllows: bool)
      requires Valid() && dispatcher.Ready?
      modifies this
      ensures Valid() && (dispatcher.Reserving? <==> PolicyAdmits(old(State()), patch, policyAllows))
      ensures if dispatcher.Reserving? then
                && State() == old(State()).(dispatcher := dispatcher) && dispatcher.patch == patch && dispatcher.taken == 0
                && Names(dispatcher.sessions) == AffectedSessions(patch)
              else State() == old(State()).(events := old(events) + [Rejected(None)])
    {
      hide PipeInv, AffectedSessions, StrictlySorted;
      ghost var p := State();
      var sessions := SessionsToInvalidate(patch);
      PatchStartIsAStep(p, patch, sessions, policyAllows);
      if readOnlyCapability && ((lockedProfile && patch.sessions.Some?) || !policyAllows) {
        Say(Rejected(None));
      } else {
        dispatcher := Reserving(patch, sessions, 0);
      }
      assert State() == PatchStart(p, patch, sessions, policyAllows);
    }

    /** One reservation; the first that fails gives all of them back and ends the patch with a refusal. */
    method ReserveOne() returns (ok: bool)
      requires Valid() && dispatcher.Reserving? && dispatcher.taken < |dispatcher.sessions|
      modifies this
      ensures Valid() && Stepped(old(State()), DoReserve, State())
      ensures ok == HasRoom(old(State()), old(dispatcher).sessions[old(dispatcher).taken])
      ensures ok ==> events == old(events) && dispatcher == old(dispatcher).(taken := old(dispatcher).taken + 1)
      ensures !ok ==> dispatcher.Ready? && events == old(events) + [Rejected(None)]
    {
      hide PipeInv, Enabled, Apply, Stepped, TerminalsOf, HasActive, HasQueued;
      ghost var p := State();
      ReserveIsAStep(p);
      var session := dispatcher.sessions[dispatcher.taken];
      StartWorker(session);
      var held := if dispatcher.Holds(session) then 1 else 0;
      ok := |workers[session].queue| + held < MAX_ACTIVE_QUERIES;
      if ok {
        dispatcher := dispatcher.(taken := dispatcher.taken + 1);
      } else {
        dispatcher := Dispatcher.Ready;
        Say(Rejected(None));
      }
      assert State() == ReserveNext(p);
    }

    /** The default session stays a known one, only affected sessions change, and each has its place for what is still to be sent. */
    method InstallPatch()
      requires Valid() && dispatcher.Reserving? && dispatcher.taken == |dispatcher.sessions|
      modifies this
      ensures Valid() && Stepped(old(State()), DoInstall, State())
      ensures DefaultKnown(config) && events == old(events)
      ensures forall s: Name :: SessionOf(config, s) != SessionOf(old(config), s) ==> s in old(dispatcher).sessions
      ensures forall s :: s in old(dispatcher).sessions ==> PlaceIn(State(), s)
    {
      hide PipeInv, Enabled, Apply, Stepped, TerminalsOf, HasActive, HasQueued, Updated, SessionOf, DefaultKnown, PlaceIn;
      ghost var p := State();
      InstallIsAStep(p);
      InstallKeepsItsWord(p);
      dispatcher, config := Sending(config, dispatcher.sessions, 0), Updated(config, dispatcher.patch);
      assert State() == Install(p);
    }

    /** The place held in the next queue is used for its session's invalidation; there is always one. */
    method SendOne()
      requires Valid() && dispatcher.Sending? && dispatcher.sent < |dispatcher.sessions|
      modifies this
      ensures Valid() && Stepped(old(State()), DoSend, State())
      ensures |QueueOf(State(), old(dispatcher).sessions[old(dispatcher).sent])| <= MAX_ACTIVE_QUERIES
    {
      hide PipeInv, Enabled, Apply, Stepped, TerminalsOf, HasActive, HasQueued;
      ghost var p := State();
      SendHasItsPlace(p);
      SendIsAStep(p);
      var session := dispatcher.sessions[dispatcher.sent];
      var w := workers[session];
      workers := workers[session := w.(queue := w.queue + [InvalidateOp(SessionOf(config, session))])];
      dispatcher := dispatcher.(sent := dispatcher.sent + 1);
      assert State() == SendNext(p);
    }

    method AnnouncePatch()
      requires Valid() && dispatcher.Sending? && dispatcher.sent == |dispatcher.sessions|
      modifies this
      ensures Valid() && Stepped(old(State()), DoAnnounce, State())
    {
      hide PipeInv, Enabled, Apply, Stepped, TerminalsOf, HasActive, HasQueued;
      ghost var p := State();
      AnnounceIsAStep(p);
      dispatcher := Dispatcher.Ready;
      Say(ConfigInstalled(config));
      assert State() == Announce(p);
    }

    /** Reserve a place in each affected queue; without one, nothing is held any more. */
    method ReserveAll(ghost p: Pipe) returns (ok: bool)
      requires Valid() && dispatcher.Reserving? && dispatcher.taken == 0 && p == State().(dispatcher := Dispatcher.Ready)
      modifies this
      ensures Valid() && config == p.config && forall s: Name :: QueueOf(State(), s) == QueueOf(p, s)
      ensures ok <==> forall s :: s in old(dispatcher).sessions ==> HasRoom(p, s)
      ensures if ok then events == p.events && dispatcher == old(dispatcher).(taken := |old(dispatcher).sessions|)
              else dispatcher.Ready? && events == p.events + [Rejected(None)]
    {
      hide PipeInv, Enabled, Apply, Updated, QueueOf, HasRoom, Invalidation;
      QueuesFollow(p, State());
      var sessions := dispatcher.sessions;
      NamesAtEnds(config, sessions);
      while dispatcher.taken < |sessions|
        invariant Valid() && dispatcher.Reserving? && dispatcher == old(dispatcher).(taken := dispatcher.taken)
        invariant dispatcher.taken <= |sessions| && config == p.config && events == p.events
        invariant forall s: Name :: QueueOf(State(), s) == QueueOf(p, s)
        invariant forall s :: s in sessions[..dispatcher.taken] ==> HasRoom(p, s)
        decreases |sessions| - dispatcher.taken
      {
        ghost var before := State();
        RoomAsAtFirst(p, before);
        ReservingKeepsQueues(before);
        ok := ReserveOne();
        if !ok {
          return;
        }
      }
      ok := true;
    }

    /** Send the invalidation of each affected session, and announce the configuration. */
    method SendAll()
      requires Valid() && dispatcher.Sending? && dispatcher.sent == 0
      modifies this
      ensures Valid() && dispatcher.Ready? && config == old(config) && events == old(events) + [ConfigInstalled(config)]
      ensures forall s: Name ::
                QueueOf(State(), s) == QueueOf(old(State()), s) + Invalidation(config, old(dispatcher).sessions, s)
    {
      hide PipeInv, Enabled, Apply, QueueOf, Invalidation;
      ghost var p := State();
      var sessions := dispatcher.sessions;
      NamesAtEnds(config, sessions);
      while dispatcher.sent < |sessions|
        invariant Valid() && dispatcher.Sending? && dispatcher.sessions == sessions && dispatcher.sent <= |sessions|
        invariant config == p.config && events == p.events
        invariant forall s: Name :: QueueOf(State(), s) == QueueOf(p, s) + Invalidation(config, sessions[..dispatcher.sent], s)
        decreases |sessions| - dispatcher.sent
      {
        ghost var before := State();
        SendOne();
        SendingFillsQueue(p, before, State());
      }
      ghost var sent := State();
      AnnouncePatch();
      AnnouncingKeepsQueues(sent, State());
    }

    /**
     The handling of a whole patch line. If no worker moves in between, it is installed exactly if every
     affected queue has a place left to begin with.
     */
    method DispatchConfig(patch: ConfigPatch, policyAllows: bool) returns (installed: bool)
      requires Valid() && dispatcher.Ready?
      modifies this
      ensures Valid() && dispatcher.Ready?
      ensures installed <==>
                PolicyAdmits(old(State()), patch, policyAllows) && forall s :: s in AffectedSessions(patch) ==> HasRoom(old(State()), s)
      ensures config == if installed then Updated(old(config), patch) else old(config)
      ensures Said(events) == Said(old(events)) + [if installed then ConfigInstalled(config) else Rejected(None)]
      ensures forall s: Name ::
                QueueOf(State(), s) ==
                  QueueOf(old(State()), s) + if installed && s in AffectedSessions(patch) then [InvalidateOp(SessionOf(config, s))] else []
    {
      hide PipeInv, Enabled, Apply, Updated, AffectedSessions, Said, QueueOf, HasRoom, PolicyAdmits, Names, Invalidation;
      ghost var p := State();
      BeginPatch(patch, policyAllows);
      QueuesFollow(p, State());
      SaidAfter(p.events, Rejected(None));
      if dispatcher.Ready? {
        return false;
      }
      ghost var sessions := dispatcher.sessions;
      NamesAtEnds(config, sessions);
      var ok := ReserveAll(p);
      if !ok {
        return false;
      }
      ghost var reserved := State();
      InstallPatch();
      InstallingKeepsQueues(reserved, State());
      SaidAfter(p.events, ConfigInstalled(config));
      SendAll();
      InvalidationsAre(config, sessions, patch);
      return true;
    }

    /**
     A begin is queued exactly if its session is known and has a place left, a writing one named the
     write permission of the session's transport, and the capability and its policy allow it.
     */
    method DispatchBegin(id: Option<Name>, requested: Option<Name>, readOnly: bool, permission: Option<Permission>, policyAllows: bool)
      requires Valid() && dispatcher.Ready?
      modifies this
      ensures Valid() && Stepped(old(State()), DoBegin(id, requested, readOnly, permission, policyAllows), State())
      ensures var p := old(State());
              var session := ResolveName(p.config, requested);
              if MayBegin(p, session, readOnly, permission, policyAllows) && HasRoom(p, session)
              then events == p.events && QueueOf(State(), session) == QueueOf(p, session) + [BeginOp(readOnly, p.config.sessions[session])]
              else events == p.events + [Rejected(id)] && QueueOf(State(), session) == QueueOf(p, session)
    {
      hide PipeInv, Enabled, Apply, Stepped, TerminalsOf, HasActive, HasQueued, ResolveReadOnly, SubmitOp, MayBegin, HasRoom;
      ghost var p := State();
      TableIsOk(p);
      BeginDecided(p, id, requested, readOnly, permission, policyAllows, ResolveName(p.config, requested));
      BeginIsAStep(p, id, requested, readOnly, permission, policyAllows);
      var session := GetOr(requested, config.defaultSession);
      if readOnlyCapability && (!readOnly || (permission.Some? && !permission.value.IsReadOnly())) {
        Say(Rejected(id));
      } else if session !in config.sessions || (readOnlyCapability && !policyAllows) {
        Say(Rejected(id));
      } else if !readOnly && ResolveReadOnly(permission, config.sessions[session]) != Ok(false) {
        Say(Rejected(id));
      } else {
        SendOrReject(id, session, BeginOp(readOnly, config.sessions[session]));
      }
      assert State() == SubmitBegin(p, id, requested, readOnly, permission, policyAllows);
    }

    /** A commit or rollback is queued as what it is, exactly if its session is known and has a place left. */
    method DispatchTxEnd(id: Option<Name>, requested: Option<Name>, commit: bool)
      requires Valid() && dispatcher.Ready?
      modifies this
      ensures Valid() && Stepped(old(State()), DoTxEnd(id, requested, commit), State())
      ensures var p := old(State());
              var session := SessionNamed(p, requested);
              if session in p.config.sessions && HasPlace(p, session)
              then events == p.events && QueueOf(State(), session) == QueueOf(p, session) + [FinishOp(commit)]
              else events == p.events + [Rejected(id)] && QueueOf(State(), session) == QueueOf(p, session)
    {
      hide PipeInv, Enabled, Apply, Stepped, TerminalsOf, HasActive, HasQueued, SubmitOp, HasRoom, HasPlace;
      ghost var p := State();
      TableIsOk(p);
      TxEndDecided(p, id, requested, commit, SessionNamed(p, requested));
      TxEndIsAStep(p, id, requested, commit);
      var session := GetOr(requested, config.defaultSession);
      if session !in config.sessions {
        Say(Rejected(id));
      } else {
        SendOrReject(id, session, FinishOp(commit));
      }
      assert State() == SubmitTxEnd(p, id, requested, commit);
    }

    /** A worker receives its next operation; a query it fails to start was cancelled and is skipped. */
    method Receive(session: Name)
      requires Valid() && session in workers && workers[session].queue != [] && workers[session].task.Waiting?
      modifies this
      ensures Valid() && Stepped(old(State()), DoTake(session), State())
      ensures session in workers && workers[session].queue == old(workers)[session].queue[1..]
      ensures var op := old(workers)[session].queue[0];
              if workers[session].task == Waiting then op.QueryOp? && op.k < |subs| && subs[op.k].phase == CancelledPhase
              else workers[session].task == Busy(op) && (op.QueryOp? ==> op.k < |subs| && subs[op.k].phase == Running)
    {
      hide PipeInv, Enabled, Apply, Stepped, QueriesOk, Take;
      ghost var p := State();
      TakeDecides(p, session);
      TakeIsAStep(p, session);
      StartNext(session);
    }

    /** The compare and swap is the whole handover of a query from the queue to its worker. */
    method StartNext(session: Name)
      requires session in workers && workers[session].queue != [] && QueriesOk(State(), workers[session])
      modifies this`workers, this`subs
      ensures State() == Take(old(State()), session)
    {
      var w := workers[session];
      var op := w.queue[0];
      workers := workers[session := w.(queue := w.queue[1..])];
      if op.QueryOp? {
        var started := TryMove(op.k, Queued, Running);
        if !started { return; }
      }
      workers := workers[session := workers[session].(task := Busy(op))];
    }

    /** The worker answers for a query it has run: its claim is never lost, and its event is the only one. */
    method AnswerQuery(session: Name)
      requires Valid() && session in workers && workers[session].task.Answered?
      modifies this
      ensures Valid() && Stepped(old(State()), DoEmit(session), State())
      ensures var task := old(workers)[session].task;
              && task.k < |old(subs)|
              && events == old(events) + [Terminal(task.k, SettleCancel(task.result, old(subs)[task.k].cancelRequested), task.result.effect)]
              && TerminalsOf(old(events), task.k) == 0 && TerminalsOf(events, task.k) == 1
    {
      hide PipeInv, Enabled, Apply, Stepped, TerminalsOf, HasActive, HasQueued, SettleCancel;
      ghost var p := State();
      AnswerIsTheOutcome(p, session);
      EmitIsAStep(p, session);
      var k, result := workers[session].task.k, workers[session].task.result;
      workers := workers[session := workers[session].(task := Emitted(k))];
      var won := ClaimTerminalEmit(k);
      if won {
        Say(Terminal(k, SettleCancel(result, subs[k].cancelRequested), result.effect));
      }
      assert State() == EmitTerminal(p, session, k, result);
    }

    /** Finished is set only when the query's one event is out, and from then on its id may be used again. */
    method MarkFinished(session: Name)
      requires Valid() && session in workers && workers[session].task.Emitted?
      modifies this
      ensures Valid() && Stepped(old(State()), DoFinish(session), State())
      ensures var k := old(workers)[session].task.k;
              && k < |subs| && subs[k].phase == Finished
              && TerminalsOf(events, k) == 1 && events == old(events)
              && !HasActive(State(), subs[k].id)
    {
      hide PipeInv, Enabled, Apply, Stepped, TerminalsOf, HasActive, HasQueued;
      ghost var p := State();
      FinishedIsOut(p, session);
      FinishIsAStep(p, session);
      var k := workers[session].task.k;
      subs := subs[k := subs[k].(phase := Finished)];
      workers := workers[session := workers[session].(task := Waiting)];
      assert State() == FinishQuery(p, session, k);
    }
  }

  function Names(sessions: seq<Name>): set<Name> {
    set s | s in sessions
  }

  ghost predicate HasQueued(p: Pipe, id: Name) {
    exists k :: 0 <= k < |p.subs| && p.subs[k].phase == Queued && p.subs[k].id == id
  }

  lemma TableIsOk(p: Pipe)
    requires PipeInv(p)
    ensures TableOk(p)
  {
  }

  // Each method's step is one the pipe can take, and keeps what holds in every reachable state.

  lemma SubmitStartIsAStep(p: Pipe, line: QueryLine)
    requires PipeInv(p) && p.dispatcher.Ready?
    ensures TableOk(p)
    ensures var q := SubmitStart(p, line); Stepped(p, DoSubmitStart(line), q) && PipeInv(q)
  {
    TableIsOk(p);
    hide PipeInv;
    StepKeeps(p, DoSubmitStart(line));
  }

  lemma PatchStartIsAStep(p: Pipe, patch: ConfigPatch, sessions: seq<Name>, policyAllows: bool)
    requires PipeInv(p) && p.dispatcher.Ready? && StrictlySorted(sessions) && forall n :: n in sessions <==> n in AffectedSessions(patch)
    ensures PipeInv(PatchStart(p, patch, sessions, policyAllows))
  {
    hide PipeInv;
    StepKeeps(p, DoPatch(patch, sessions, policyAllows));
  }

  lemma SubmitFinishIsAStep(p: Pipe)
    requires PipeInv(p) && p.dispatcher.Submitting?
    ensures Enabled(p, DoSubmitFinish)
    ensures var q := SubmitFinish(p, p.dispatcher.line); Stepped(p, DoSubmitFinish, q) && PipeInv(q)
  {
    TableIsOk(p);
    hide PipeInv;
    StepKeeps(p, DoSubmitFinish);
  }

  lemma CancelStartIsAStep(p: Pipe, id: Name)
    requires PipeInv(p) && p.dispatcher.Ready?
    ensures Enabled(p, DoCancelStart(id))
    ensures var q := CancelStart(p, id); Stepped(p, DoCancelStart(id), q) && PipeInv(q)
  {
    TableIsOk(p);
    hide PipeInv;
    StepKeeps(p, DoCancelStart(id));
  }

  lemma CancelClaimIsAStep(p: Pipe)
    requires PipeInv(p) && p.dispatcher.Claiming?
    ensures Enabled(p, DoCancelClaim)
    ensures var q := CancelClaim(p, p.dispatcher.id, p.dispatcher.k); Stepped(p, DoCancelClaim, q) && PipeInv(q)
  {
    assert DispatcherOk(p);
    hide PipeInv;
    StepKeeps(p, DoCancelClaim);
  }

  lemma CancelCheckIsAStep(p: Pipe)
    requires PipeInv(p) && p.dispatcher.Checking?
    ensures Enabled(p, DoCancelCheck)
    ensures var q := CancelCheck(p, p.dispatcher.id, p.dispatcher.k); Stepped(p, DoCancelCheck, q) && PipeInv(q)
  {
    assert DispatcherOk(p);
    hide PipeInv;
    StepKeeps(p, DoCancelCheck);
  }

  lemma ReserveIsAStep(p: Pipe)
    requires PipeInv(p) && p.dispatcher.Reserving? && p.dispatcher.taken < |p.dispatcher.sessions|
    ensures Enabled(p, DoReserve)
    ensures var q := ReserveNext(p); Stepped(p, DoReserve, q) && PipeInv(q)
  {
    hide PipeInv;
    StepKeeps(p, DoReserve);
  }

  lemma InstallIsAStep(p: Pipe)
    requires PipeInv(p) && p.dispatcher.Reserving? && p.dispatcher.taken == |p.dispatcher.sessions|
    ensures Enabled(p, DoInstall)
    ensures var q := Install(p); Stepped(p, DoInstall, q) && PipeInv(q)
  {
    hide PipeInv;
    StepKeeps(p, DoInstall);
  }

  lemma SendIsAStep(p: Pipe)
    requires PipeInv(p) && p.dispatcher.Sending? && p.dispatcher.sent < |p.dispatcher.sessions|
    ensures Enabled(p, DoSend)
    ensures var q := SendNext(p); Stepped(p, DoSend, q) && PipeInv(q)
  {
    hide PipeInv;
    StepKeeps(p, DoSend);
  }

  lemma AnnounceIsAStep(p: Pipe)
    requires PipeInv(p) && p.dispatcher.Sending? && p.dispatcher.sent == |p.dispatcher.sessions|
    ensures Enabled(p, DoAnnounce)
    ensures var q := Announce(p); Stepped(p, DoAnnounce, q) && PipeInv(q)
  {
    hide PipeInv;
    StepKeeps(p, DoAnnounce);
  }

  lemma AcknowledgeIsAStep(p: Pipe)
    requires PipeInv(p) && p.dispatcher.Asking?
    ensures var q := CancelAcknowledge(p, p.dispatcher.id); Stepped(p, DoCancelAcknowledge, q) && PipeInv(q)
  {
    hide PipeInv;
    StepKeeps(p, DoCancelAcknowledge);
  }

  lemma TxEndIsAStep(p: Pipe, id: Option<Name>, requested: Option<Name>, commit: bool)
    requires PipeInv(p) && p.dispatcher.Ready?
    ensures var q := SubmitTxEnd(p, id, requested, commit);
            Stepped(p, DoTxEnd(id, requested, commit), q) && PipeInv(q)
  {
    TableIsOk(p);
    hide PipeInv;
    StepKeeps(p, DoTxEnd(id, requested, commit));
  }

  lemma BeginIsAStep(p: Pipe, id: Option<Name>, requested: Option<Name>, readOnly: bool, permission: Option<Permission>, policyAllows: bool)
    requires PipeInv(p) && p.dispatcher.Ready?
    ensures var q := SubmitBegin(p, id, requested, readOnly, permission, policyAllows); Stepped(p, DoBegin(id, requested, readOnly, permission, policyAllows), q) && PipeInv(q)
  {
    TableIsOk(p);
    hide PipeInv;
    StepKeeps(p, DoBegin(id, requested, readOnly, permission, policyAllows));
  }

  lemma TakeIsAStep(p: Pipe, s: Name)
    requires PipeInv(p) && s in p.workers && p.workers[s].queue != [] && p.workers[s].task.Waiting?
    ensures Enabled(p, DoTake(s))
    ensures QueriesOk(p, p.workers[s])
    ensures var q := Take(p, s); Stepped(p, DoTake(s), q) && PipeInv(q)
  {
    WorkersAreThere(p, s);
    hide PipeInv;
    StepKeeps(p, DoTake(s));
  }

  lemma EmitIsAStep(p: Pipe, s: Name)
    requires PipeInv(p) && s in p.workers && p.workers[s].task.Answered?
    ensures Enabled(p, DoEmit(s))
    ensures var q := EmitTerminal(p, s, p.workers[s].task.k, p.workers[s].task.result); Stepped(p, DoEmit(s), q) && PipeInv(q)
  {
    WorkersAreThere(p, s);
    hide PipeInv;
    StepKeeps(p, DoEmit(s));
  }

  lemma FinishIsAStep(p: Pipe, s: Name)
    requires PipeInv(p) && s in p.workers && p.workers[s].task.Emitted?
    ensures Enabled(p, DoFinish(s))
    ensures var q := FinishQuery(p, s, p.workers[s].task.k); Stepped(p, DoFinish(s), q) && PipeInv(q)
  {
    WorkersAreThere(p, s);
    hide PipeInv;
    StepKeeps(p, DoFinish(s));
  }

  lemma EntryDecided(p: Pipe)
    requires PipeInv(p) && p.dispatcher.Submitting?
    ensures TableOk(p)
    ensures var q, line := SubmitFinish(p, p.dispatcher.line), p.dispatcher.line;
            if !HasActive(p, line.id) && |p.inFlight - {line.id}| < MAX_ACTIVE_QUERIES && HasRoom(p, ResolveName(p.config, line.session))
            then q.subs == p.subs + [Accepted(p, line)] && q.events == p.events
            else q.subs == p.subs && q.events == p.events + [Rejected(Some(line.id))]
  {
    NamesakesAreFound(p, p.dispatcher.line.id);
    hide PipeInv;
    SubmissionDecided(p, 0);
    hide SubmitFinish;
  }

  lemma CleanTableIsExact(p: Pipe, line: QueryLine)
    requires PipeInv(p) && p.dispatcher.Ready?
    ensures var q := CleanedUp(p).(dispatcher := Submitting(line)); forall id :: id in q.inFlight <==> HasActive(q, id)
  {
    var q := CleanedUp(p).(dispatcher := Submitting(line));
    forall id ensures id in q.inFlight <==> HasActive(q, id) { NamesakesAreFound(p, id); assert EntryOk(p, id); }
  }

  /** With one outcome out of the way, no active query is left of an id whose entry was that query's. */
  lemma NoOtherNamesake(p: Pipe, k: nat)
    requires PipeInv(p) && k < |p.subs| && p.subs[k].id in p.inFlight && p.inFlight[p.subs[k].id] == k
    ensures forall n :: 0 <= n < |p.subs| && n != k && Active(p.subs[n]) ==> p.subs[n].id != p.subs[k].id
  {
    forall n: nat | n < |p.subs| && n != k && Active(p.subs[n]) ensures p.subs[n].id != p.subs[k].id { assert PlaceOk(p, n); }
  }

  lemma CancelTakesQueued(p: Pipe, id: Name)
    requires PipeInv(p) && p.dispatcher.Ready?
    ensures TableOk(p)
    ensures var q := CancelStart(p, id);
            && (q.dispatcher.Claiming? <==> HasQueued(p, id))
            && (q.dispatcher.Claiming? ==>
                  q.dispatcher.k < |q.subs| && q.subs[q.dispatcher.k].id == id && q.subs[q.dispatcher.k].phase == CancelledPhase)
            && !HasQueued(q, id)
            && (q.dispatcher.Ready? ==> !HasActive(q, id) && q.events == p.events + [NoSuchQuery(id)])
            && forall k: nat :: TerminalsOf(q.events, k) == TerminalsOf(p.events, k)
  {
    var q := CancelStart(p, id);
    assert EntryOk(p, id);
    forall k: nat ensures TerminalsOf(q.events, k) == TerminalsOf(p.events, k) { TerminalsAfter(p.events, NoSuchQuery(id), k); }
    forall k: nat | k < |p.subs| && Active(p.subs[k]) && p.subs[k].id == id ensures id in p.inFlight && p.inFlight[id] == k { assert PlaceOk(p, k); }
    hide PipeInv;
    if id !in p.inFlight {
    } else if p.subs[p.inFlight[id]].phase == Queued {
    } else {
    }
  }

  lemma ClaimIsTheOutcome(p: Pipe)
    requires PipeInv(p) && p.dispatcher.Claiming?
    ensures var id, k := p.dispatcher.id, p.dispatcher.k;
            && k < |p.subs|
            && var q := CancelClaim(p, id, k);
               && q.events == p.events + [Terminal(k, WasCancelled, false)]
               && TerminalsOf(p.events, k) == 0 && TerminalsOf(q.events, k) == 1
               && !HasActive(q, id)
  {
    var id, k := p.dispatcher.id, p.dispatcher.k;
    assert DispatcherOk(p) && EntryOk(p, id) && OutcomeOk(p, k);
    NoOtherNamesake(p, k);
    TerminalsAfter(p.events, Terminal(k, WasCancelled, false), k);
    hide PipeInv;
  }

  lemma CheckIsTrue(p: Pipe)
    requires PipeInv(p) && p.dispatcher.Checking?
    ensures var id, k := p.dispatcher.id, p.dispatcher.k;
            && k < |p.subs|
            && var q := CancelCheck(p, id, k);
               && (if q.dispatcher.Ready? then TerminalsOf(q.events, k) == 1 && q.events == p.events + [AlreadyFinished(id)]
                   else q.subs[k].phase == Running && q.subs[k].cancelRequested && q.events == p.events)
               && forall n: nat :: TerminalsOf(q.events, n) == TerminalsOf(p.events, n)
  {
    var id, k := p.dispatcher.id, p.dispatcher.k;
    assert DispatcherOk(p) && OutcomeOk(p, k);
    var q := CancelCheck(p, id, k);
    forall n: nat ensures TerminalsOf(q.events, n) == TerminalsOf(p.events, n) { TerminalsAfter(p.events, AlreadyFinished(id), n); }
    hide PipeInv;
    if p.subs[k].IsFinished() {} else {}
  }

  lemma HeadIsKnown(p: Pipe, s: Name)
    requires PipeInv(p) && s in p.workers && p.workers[s].queue != [] && p.workers[s].task.Waiting?
    ensures Enabled(p, DoTake(s))
    ensures var op := p.workers[s].queue[0]; op.QueryOp? ==> op.k < |p.subs| && p.subs[op.k].phase in {Queued, CancelledPhase}
  {
    WorkersAreThere(p, s);
    assert WorkerInv(p.subs, s, p.workers[s]);
    assert WaitingOk(p.subs, s, InHand(p.workers[s].task), p.workers[s].queue[0]);
  }

  lemma TakeDecides(p: Pipe, s: Name)
    requires PipeInv(p) && s in p.workers && p.workers[s].queue != [] && p.workers[s].task.Waiting?
    ensures QueriesOk(p, p.workers[s])
    ensures var op, q := p.workers[s].queue[0], Take(p, s);
            && s in q.workers && q.workers[s].queue == p.workers[s].queue[1..]
            && if q.workers[s].task == Waiting then op.QueryOp? && op.k < |q.subs| && q.subs[op.k].phase == CancelledPhase
               else q.workers[s].task == Busy(op) && (op.QueryOp? ==> op.k < |q.subs| && q.subs[op.k].phase == Running)
  {
    HeadIsKnown(p, s);
    hide PipeInv;
    var op := p.workers[s].queue[0];
    if op.QueryOp? { if p.subs[op.k].phase == Queued {} else {} }
  }

  lemma AnswerIsTheOutcome(p: Pipe, s: Name)
    requires PipeInv(p) && s in p.workers && p.workers[s].task.Answered?
    ensures Enabled(p, DoEmit(s))
    ensures var task := p.workers[s].task;
            && task.k < |p.subs| && !p.subs[task.k].claimed
            && var e := Terminal(task.k, SettleCancel(task.result, p.subs[task.k].cancelRequested), task.result.effect);
               TerminalsOf(p.events, task.k) == 0 && TerminalsOf(p.events + [e], task.k) == 1
  {
    WorkersAreThere(p, s);
    WorkerHolds(p, s);
    var task := p.workers[s].task;
    assert OutcomeOk(p, task.k);
    TerminalsAfter(p.events, Terminal(task.k, SettleCancel(task.result, p.subs[task.k].cancelRequested), task.result.effect), task.k);
  }

  lemma FinishedIsOut(p: Pipe, s: Name)
    requires PipeInv(p) && s in p.workers && p.workers[s].task.Emitted?
    ensures Enabled(p, DoFinish(s))
    ensures var k := p.workers[s].task.k;
            && k < |p.subs| && TerminalsOf(p.events, k) == 1
            && !HasActive(FinishQuery(p, s, k), p.subs[k].id)
  {
    WorkersAreThere(p, s);
    WorkerHolds(p, s);
    var k := p.workers[s].task.k;
    assert OutcomeOk(p, k) && PlaceOk(p, k);
    NoOtherNamesake(p, k);
    hide PipeInv;
  }

  lemma InstallKeepsItsWord(p: Pipe)
    requires PipeInv(p) && p.dispatcher.Reserving? && p.dispatcher.taken == |p.dispatcher.sessions|
    ensures var q := Install(p);
            && DefaultKnown(q.config) && q.events == p.events
            && (forall s: Name :: SessionOf(q.config, s) != SessionOf(p.config, s) ==> s in p.dispatcher.sessions)
            && forall s :: s in p.dispatcher.sessions ==> PlaceIn(q, s)
  {
    InstallIsAStep(p);
    var q := Install(p);
    DefaultIsKnown(q);
    PatchInvIn(q);
    hide PipeInv, Updated, Stepped;
    assert q.dispatcher.sessions[0..] == p.dispatcher.sessions;
  }

  lemma SendHasItsPlace(p: Pipe)
    requires PipeInv(p) && p.dispatcher.Sending? && p.dispatcher.sent < |p.dispatcher.sessions|
    ensures PlaceIn(p, p.dispatcher.sessions[p.dispatcher.sent])
  {
    PatchInvIn(p);
    assert p.dispatcher.sessions[p.dispatcher.sent] == p.dispatcher.sessions[p.dispatcher.sent..][0];
  }

  // The handling of one patch with nobody in between.

  lemma QueuesFollow(p: Pipe, q: Pipe)
    requires q.workers == p.workers
    ensures forall s: Name :: QueueOf(q, s) == QueueOf(p, s)
  {
  }

  lemma NamesAtEnds(config: RuntimeConfig, sessions: seq<Name>)
    ensures sessions[..0] == [] && sessions[..|sessions|] == sessions
    ensures forall s: Name :: Invalidation(config, sessions[..0], s) == []
    ensures forall s: Name, q: seq<SessionOp> :: q + Invalidation(config, sessions[..0], s) == q
    ensures forall s :: s in Names(sessions) <==> s in sessions
  {
  }

  lemma RoomAsAtFirst(p: Pipe, q: Pipe)
    requires p.dispatcher.Ready? && PipeInv(q) && q.dispatcher.Reserving? && q.dispatcher.taken < |q.dispatcher.sessions|
    requires forall s: Name :: QueueOf(q, s) == QueueOf(p, s)
    ensures var session := q.dispatcher.sessions[q.dispatcher.taken];
            && (HasRoom(q, session) <==> HasRoom(p, session))
            && forall s :: s in q.dispatcher.sessions[..q.dispatcher.taken + 1] <==> s == session || s in q.dispatcher.sessions[..q.dispatcher.taken]
  {
    PatchInvIn(q);
    TurnsAreTaken(q.dispatcher.sessions, q.dispatcher.taken);
    var session := q.dispatcher.sessions[q.dispatcher.taken];
    assert QueueOf(q, session) == QueueOf(p, session);
    hide PipeInv;
  }

  lemma ReservingKeepsQueues(p: Pipe)
    requires p.dispatcher.Reserving? && p.dispatcher.taken < |p.dispatcher.sessions|
    ensures var q := ReserveNext(p);
            q.config == p.config && forall s: Name :: QueueOf(q, s) == QueueOf(p, s)
    ensures Enabled(p, DoReserve) && Apply(p, DoReserve) == ReserveNext(p)
  {
    var q := ReserveNext(p);
    hide HasRoom;
    forall s: Name ensures QueueOf(q, s) == QueueOf(p, s) {}
  }

  lemma InstallingKeepsQueues(p: Pipe, q: Pipe)
    requires Stepped(p, DoInstall, q)
    ensures q.dispatcher == Sending(p.config, p.dispatcher.sessions, 0)
    ensures q.config == Updated(p.config, p.dispatcher.patch) && q.events == p.events
    ensures forall s: Name :: QueueOf(q, s) == QueueOf(p, s)
  {
    hide Updated;
  }

  lemma SendingFillsQueue(first: Pipe, p: Pipe, q: Pipe)
    requires Stepped(p, DoSend, q) && PipeInv(p)
    requires forall s: Name :: QueueOf(p, s) == QueueOf(first, s) + Invalidation(p.config, p.dispatcher.sessions[..p.dispatcher.sent], s)
    ensures q.dispatcher == p.dispatcher.(sent := p.dispatcher.sent + 1) && q.config == p.config && q.events == p.events
    ensures forall s: Name :: QueueOf(q, s) == QueueOf(first, s) + Invalidation(q.config, q.dispatcher.sessions[..q.dispatcher.sent], s)
  {
    PatchInvIn(p);
    TurnsAreTaken(p.dispatcher.sessions, p.dispatcher.sent);
    SendHasItsPlace(p);
    hide PipeInv;
    forall s: Name ensures QueueOf(q, s) == QueueOf(first, s) + Invalidation(q.config, q.dispatcher.sessions[..q.dispatcher.sent], s) {
      assert QueueOf(p, s) == QueueOf(first, s) + Invalidation(p.config, p.dispatcher.sessions[..p.dispatcher.sent], s);
    }
  }

  lemma AnnouncingKeepsQueues(p: Pipe, q: Pipe)
    requires Stepped(p, DoAnnounce, q)
    ensures q.dispatcher.Ready? && q.config == p.config && q.events == p.events + [ConfigInstalled(p.config)]
    ensures p.dispatcher.sent == |p.dispatcher.sessions|
    ensures forall s: Name :: QueueOf(q, s) == QueueOf(p, s)
  {
  }

  lemma InvalidationsAre(config: RuntimeConfig, sessions: seq<Name>, patch: ConfigPatch)
    requires Names(sessions) == AffectedSessions(patch)
    ensures sessions[..|sessions|] == sessions
    ensures forall s: Name ::
              Invalidation(config, sessions, s) == if s in AffectedSessions(patch) then [InvalidateOp(SessionOf(config, s))] else []
  {
    hide AffectedSessions;
    forall s: Name ensures s in AffectedSessions(patch) <==> s in sessions { assert s in Names(sessions) <==> s in sessions; }
  }
}
