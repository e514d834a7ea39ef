/**
 What the lines of a run ask of each session: which of them put an operation in its queue, and in what
 order its worker takes them out again.
 */
module PipeRequests {
  import opened Wrappers
  import opened Config
  import opened Executor
  import opened Pipe
  import opened PipeInvariants
  import opened PipeOutcomes
  import opened PipeEndpoints
  import opened PipeRuns

  ghost predicate HasActive(p: Pipe, id: Name) {
    exists k :: 0 <= k < |p.subs| && Active(p.subs[k]) && p.subs[k].id == id
  }

  /**
   A begin is admitted exactly if its session is known, a writing one named the write permission of the
   session's transport, and the capability and its policy allow it.
   */
  predicate MayBegin(p: Pipe, session: Name, readOnly: bool, permission: Option<Permission>, policyAllows: bool) {
    && session in p.config.sessions
    && (p.readOnlyCapability ==> readOnly && policyAllows && (permission.Some? ==> permission.value.IsReadOnly()))
    && (!readOnly ==>
          var transport := Transport(p.config.sessions[session]);
          || (transport == Ok(Direct) && permission == Some(Write))
          || (transport == Ok(Ssh) && permission == Some(SshWrite))
          || (transport == Ok(Container) && permission == Some(ContainerWrite)))
  }

  /** A query line finds no active query of its id and a place in the table. */
  ghost predicate MaySubmit(p: Pipe, line: QueryLine) {
    !HasActive(p, line.id) && |p.inFlight - {line.id}| < 64
  }

  /** The session a line speaks of: the one it names, or the default one. */
  function SessionNamed(p: Pipe, requested: Option<Name>): Name {
    match requested
    case Some(name) => name
    case None => p.config.defaultSession
  }

  /** A queue takes 64 operations, one place less while that is held for an invalidation. */
  predicate HasPlace(p: Pipe, s: Name) {
    |QueueOf(p, s)| < if p.dispatcher.Holds(s) then 63 else 64
  }

  lemma LinesFindTheirSession(p: Pipe, requested: Option<Name>)
    ensures ResolveName(p.config, requested) == SessionNamed(p, requested)
    ensures HasRoom(p, SessionNamed(p, requested)) <==> HasPlace(p, SessionNamed(p, requested))
  {
  }

  /** What a step of the dispatcher adds to the queue of session `s`, told from the line it handles. */
  ghost function Asked(p: Pipe, step: Action, s: Name): seq<SessionOp> {
    match step
    case DoSubmitFinish =>
      if p.dispatcher.Submitting? && s == SessionNamed(p, p.dispatcher.line.session) && MaySubmit(p, p.dispatcher.line) && HasPlace(p, s)
      then [QueryOp(|p.subs|)] else []
    case DoBegin(_, requested, readOnly, permission, policyAllows) =>
      if s == SessionNamed(p, requested) && MayBegin(p, s, readOnly, permission, policyAllows) && HasPlace(p, s)
      then [BeginOp(readOnly, p.config.sessions[s])] else []
    case DoTxEnd(_, requested, commit) =>
      if s == SessionNamed(p, requested) && s in p.config.sessions && HasPlace(p, s) then [FinishOp(commit)] else []
    case DoInfo(_, requested) =>
      if s == SessionNamed(p, requested) && HasPlace(p, s) then [InfoOp] else []
    case DoSend =>
      if p.dispatcher.Sending? && p.dispatcher.sent < |p.dispatcher.sessions| && s == p.dispatcher.sessions[p.dispatcher.sent]
      then [InvalidateOp(SessionOf(p.config, s))] else []
    case _ => []
  }

  lemma OpDecided(p: Pipe, id: Option<Name>, session: Name, op: SessionOp, s: Name)
    ensures var q := SubmitOp(p, id, session, op);
            if HasRoom(p, session) then q.events == p.events && QueueOf(q, s) == QueueOf(p, s) + (if s == session then [op] else [])
            else q.events == p.events + [Rejected(id)] && QueueOf(q, s) == QueueOf(p, s)
  {
    if HasRoom(p, session) {} else {}
  }

  lemma BeginDecided(p: Pipe, id: Option<Name>, requested: Option<Name>, readOnly: bool, permission: Option<Permission>, policyAllows: bool, s: Name)
    ensures var q, session := SubmitBegin(p, id, requested, readOnly, permission, policyAllows), ResolveName(p.config, requested);
            if MayBegin(p, session, readOnly, permission, policyAllows) && HasRoom(p, session)
            then q.events == p.events && QueueOf(q, s) == QueueOf(p, s) + (if s == session then [BeginOp(readOnly, p.config.sessions[session])] else [])
            else q.events == p.events + [Rejected(id)] && QueueOf(q, s) == QueueOf(p, s)
  {
    var session := ResolveName(p.config, requested);
    if session in p.config.sessions {
      WritingIsExplicit(permission, p.config.sessions[session]);
      OpDecided(p, id, session, BeginOp(readOnly, p.config.sessions[session]), s);
    }
    hide ResolveReadOnly, Transport, SubmitOp, HasRoom, QueueOf;
  }

  /**
   A commit line is queued last in its session's queue as a commit, and a rollback line as a rollback,
   exactly if the session is known and has a place left; otherwise one refusal is said.
   */
  lemma TxEndDecided(p: Pipe, id: Option<Name>, requested: Option<Name>, commit: bool, s: Name)
    ensures var q, session := SubmitTxEnd(p, id, requested, commit), SessionNamed(p, requested);
            if session in p.config.sessions && HasPlace(p, session)
            then q.events == p.events && QueueOf(q, s) == QueueOf(p, s) + (if s == session then [FinishOp(commit)] else [])
            else q.events == p.events + [Rejected(id)] && QueueOf(q, s) == QueueOf(p, s)
  {
    LinesFindTheirSession(p, requested);
    OpDecided(p, id, SessionNamed(p, requested), FinishOp(commit), s);
    hide SubmitOp, HasRoom, HasPlace;
  }

  function PendingOf(p: Pipe, s: Name): seq<SessionOp> {
    if s in p.workers then Pending(p.workers[s]) else []
  }

  /** The step is done with the front operation of session `s`: it has run it, or passed over a cancelled query. */
  predicate Disposes(p: Pipe, step: Action, s: Name) {
    match step
    case DoRunQuery(t, _, _, _) => t == s
    case DoRunControl(t, _) => t == s
    case DoTake(t) =>
      && t == s && s in p.workers && p.workers[s].queue != []
      && p.workers[s].queue[0].QueryOp? && p.workers[s].queue[0].k < |p.subs| && p.subs[p.workers[s].queue[0].k].phase != Queued
    case _ => false
  }

  lemma PatchAsks(p: Pipe, step: Action, s: Name)
    requires Enabled(p, step) && IsPatch(step)
    ensures QueueOf(Apply(p, step), s) == QueueOf(p, s) + Asked(p, step, s)
  {
    hide Updated, AffectedSessions, StrictlySorted;
    if step.DoReserve? {
      var session := p.dispatcher.sessions[p.dispatcher.taken];
      StartedWorkers(p, p, session);
      hide WorkerOf;
      if HasRoom(p, session) {} else {}
    }
  }

  lemma SubmissionAsks(p: Pipe, s: Name)
    requires PipeInv(p) && Enabled(p, DoSubmitFinish)
    ensures QueueOf(SubmitFinish(p, p.dispatcher.line), s) == QueueOf(p, s) + Asked(p, DoSubmitFinish, s)
  {
    NamesakesAreFound(p, p.dispatcher.line.id);
    hide PipeInv;
    SubmissionDecided(p, s);
    LinesFindTheirSession(p, p.dispatcher.line.session);
    hide SubmitFinish, Accepted, QueueOf, HasRoom, HasPlace;
  }

  lemma CancelsAskNothing(p: Pipe, step: Action, s: Name)
    requires Enabled(p, step) && (step.DoCancelStart? || step.DoCancelClaim? || step.DoCancelCheck? || step.DoCancelAcknowledge?)
    ensures PendingOf(Apply(p, step), s) == PendingOf(p, s)
  {
    hide Apply;
    CancelSteps(p, step);
  }

  /** Every line adds to the queues what it asks for, and nothing else does. */
  lemma LinesAreQueued(p: Pipe, step: Action, s: Name)
    requires PipeInv(p) && Enabled(p, step) && IsQuiet(p, step) && !step.DoCancelStart? && !step.DoCancelCheck? && !step.DoCancelAcknowledge?
    ensures QueueOf(Apply(p, step), s) == QueueOf(p, s) + Asked(p, step, s)
  {
    hide PipeInv, QueueOf, SubmitBegin, SubmitOp, SubmitFinish, MayBegin, MaySubmit, HasRoom, HasPlace;
    if step.DoSubmitFinish? || step.DoBegin? || step.DoTxEnd? || step.DoInfo? {
      LinesFindTheirSession(p, if step.DoSubmitFinish? then p.dispatcher.line.session else step.requested);
    }
    if IsPatch(step) {
      PatchAsks(p, step, s);
    } else if step.DoSubmitFinish? {
      SubmissionAsks(p, s);
    } else if step.DoBegin? {
      BeginDecided(p, step.requestId, step.requested, step.readOnly, step.permission, step.policyAllows, s);
    } else if step.DoTxEnd? {
      TxEndDecided(p, step.requestId, step.requested, step.commit, s);
    } else if step.DoInfo? {
      OpDecided(p, step.requestId, ResolveName(p.config, step.requested), InfoOp, s);
    } else {
      OthersAskNothing(p, step, s);
    }
  }

  lemma OthersAskNothing(p: Pipe, step: Action, s: Name)
    requires Enabled(p, step) && (step.DoSubmitStart? || step.DoPing?)
    ensures QueueOf(Apply(p, step), s) == QueueOf(p, s)
  {
  }

  lemma TakenIsPending(p: Pipe, s: Name)
    requires Enabled(p, DoTake(s))
    ensures PendingOf(Take(p, s), s) == if Disposes(p, DoTake(s), s) then PendingOf(p, s)[1..] else PendingOf(p, s)
    ensures forall t: Name :: t != s ==> PendingOf(Take(p, s), t) == PendingOf(p, t)
  {
    var op := p.workers[s].queue[0];
    assert p.workers[s].queue == [op] + p.workers[s].queue[1..];
    if op.QueryOp? { if p.subs[op.k].phase == Queued {} else {} }
  }

  lemma WorkersWorkOffTheirs(p: Pipe, step: Action, s: Name)
    requires Enabled(p, step) && IsWorkers(step)
    ensures PendingOf(Apply(p, step), s) == if Disposes(p, step, s) then PendingOf(p, s)[1..] else PendingOf(p, s)
    ensures Disposes(p, step, s) ==> PendingOf(p, s) != []
  {
    hide Take, RunQuery, RunControl, RefusedEarly, EmitTerminal, FinishQuery;
    if step.DoTake? {
      TakenIsPending(p, step.session);
    } else if step.DoRunQuery? {
      RunQueryFrame(p, step);
    } else if step.DoRunControl? {
      RunControlFrame(p, step);
    } else {
      EndSteps(p, step);
    }
  }

  /** From one state to the next a session's operations leave at the front, and come at the end as the lines ask. */
  lemma StepPends(p: Pipe, step: Action, s: Name)
    requires PipeInv(p) && Enabled(p, step)
    ensures Disposes(p, step, s) ==> PendingOf(p, s) != []
    ensures PendingOf(Apply(p, step), s) == (if Disposes(p, step, s) then PendingOf(p, s)[1..] else PendingOf(p, s)) + Asked(p, step, s)
  {
    hide PipeInv, Apply, Enabled, IsQuiet, MayBegin, MaySubmit, HasPlace;
    if IsWorkers(step) {
      WorkersWorkOffTheirs(p, step, s);
    } else if step.DoCancelStart? || step.DoCancelClaim? || step.DoCancelCheck? || step.DoCancelAcknowledge? {
      CancelsAskNothing(p, step, s);
    } else {
      OthersAreQuiet(p, step);
      QuietSteps(p, step);
      LinesAreQueued(p, step, s);
      PendingFollows(p, Apply(p, step), s, Asked(p, step, s));
    }
  }

  lemma OthersAreQuiet(p: Pipe, step: Action)
    requires Enabled(p, step) && !IsWorkers(step) && !step.DoCancelStart? && !step.DoCancelClaim?
    ensures IsQuiet(p, step)
  {
  }

  lemma PendingFollows(p: Pipe, q: Pipe, s: Name, more: seq<SessionOp>)
    requires TaskOf(q, s) == TaskOf(p, s) && QueueOf(q, s) == QueueOf(p, s) + more
    ensures PendingOf(q, s) == PendingOf(p, s) + more
  {
  }

  /** A query line is taken up exactly if its SQL is within a mebibyte and its parameters within what the protocol can number. */
  lemma SubmissionBeginsIff(states: seq<Pipe>, steps: seq<Action>, i: nat)
    requires IsRun(states, steps) && i < |steps| && steps[i].DoSubmitStart?
    ensures var p, q, line := states[i], states[i + 1], steps[i].line;
            if line.sqlBytes <= 1_048_576 && line.params <= 65_535
            then q.dispatcher == Submitting(line) && q.events == p.events
            else q.dispatcher.Ready? && q.events == p.events + [Rejected(Some(line.id))]
  {
    assert Stepped(states[i], steps[i], states[i + 1]);
    hide IsRun;
  }

  /**
   What a cancel is answered. An id without an entry is unknown. A queued query is taken from its worker,
   and its cancellation is the answer, the query's one outcome. Of a query that had started it is said
   that it has finished, only if its outcome is out, or that the server has been asked, only with the
   request on record.
   */
  lemma CancelsAreAnswered(states: seq<Pipe>, steps: seq<Action>, i: nat)
    requires IsRun(states, steps) && i < |steps|
    ensures var p, q := states[i], states[i + 1];
            && (steps[i].DoCancelStart? ==>
                  if q.dispatcher.Ready? then q.events == p.events + [NoSuchQuery(steps[i].id)] && !HasActive(p, steps[i].id)
                  else
                    && q.events == p.events && (q.dispatcher.Claiming? || q.dispatcher.Checking?)
                    && q.dispatcher.id == steps[i].id && q.dispatcher.k < |p.subs| && p.subs[q.dispatcher.k].id == steps[i].id
                    && (q.dispatcher.Claiming? <==> p.subs[q.dispatcher.k].phase == Queued))
            && (steps[i].DoCancelClaim? || (steps[i].DoCancelCheck? && q.dispatcher.Ready?) ==>
                  (p.dispatcher.Claiming? || p.dispatcher.Checking?) && q.inFlight == p.inFlight - {p.dispatcher.id})
            && (steps[i].DoCancelClaim? ==> q.dispatcher.Ready? && q.events == p.events + [Terminal(p.dispatcher.k, WasCancelled, false)])
            && (steps[i].DoCancelCheck? ==>
                  if q.dispatcher.Ready? then
                    && q.events == p.events + [AlreadyFinished(p.dispatcher.id)]
                    && TerminalsOf(q.events, p.dispatcher.k) == 1
                  else
                    && q.dispatcher == Asking(p.dispatcher.id, p.dispatcher.k) && q.events == p.events
                    && q.dispatcher.k < |q.subs| && q.subs[q.dispatcher.k].phase == Running && q.subs[q.dispatcher.k].cancelRequested)
            && (steps[i].DoCancelAcknowledge? ==> q.dispatcher.Ready? && q.events == p.events + [CancelAsked(p.dispatcher.id)])
  {
    AlwaysHolds(states, steps, i);
    assert Stepped(states[i], steps[i], states[i + 1]);
    if steps[i].DoCancelClaim? { NoOutcomeIsSwallowed(states, steps, i); }
    hide IsRun, PipeInv, TerminalsOf, HasActive, CancelStart, CancelCheck;
    var p := states[i];
    if steps[i].DoCancelStart? { CancelFinds(p, steps[i].id); }
    if steps[i].DoCancelCheck? { CancelChecks(p); }
  }

  lemma CancelFinds(p: Pipe, id: Name)
    requires PipeInv(p) && TableOk(p) && p.dispatcher.Ready?
    ensures var q := CancelStart(p, id);
            if q.dispatcher.Ready? then q.events == p.events + [NoSuchQuery(id)] && !HasActive(p, id)
            else
              && q.events == p.events && (q.dispatcher.Claiming? || q.dispatcher.Checking?)
              && q.dispatcher.id == id && q.dispatcher.k < |p.subs| && p.subs[q.dispatcher.k].id == id
              && (q.dispatcher.Claiming? <==> p.subs[q.dispatcher.k].phase == Queued)
  {
    NamesakesAreFound(p, id);
    assert EntryOk(p, id);
    hide PipeInv;
  }

  lemma CancelChecks(p: Pipe)
    requires PipeInv(p) && p.dispatcher.Checking? && p.dispatcher.k < |p.subs|
    ensures var id, k, q := p.dispatcher.id, p.dispatcher.k, CancelCheck(p, p.dispatcher.id, p.dispatcher.k);
            if q.dispatcher.Ready? then
              q.events == p.events + [AlreadyFinished(id)] && TerminalsOf(q.events, k) == 1 && q.inFlight == p.inFlight - {id}
            else
              && q.dispatcher == Asking(id, k) && q.events == p.events
              && k < |q.subs| && q.subs[k].phase == Running && q.subs[k].cancelRequested
  {
    assert OutcomeOk(p, p.dispatcher.k);
    TerminalsAfter(p.events, AlreadyFinished(p.dispatcher.id), p.dispatcher.k);
    hide OutcomesInv, QueueInv, PatchInv, CallsInv, EndpointsInv, TerminalsOf;
  }
}
