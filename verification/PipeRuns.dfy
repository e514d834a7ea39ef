/**
 Whole runs of the pipe, with every interleaving of the dispatcher and the workers: what holds in
 every state that can be reached.
 */
module PipeRuns {
  import opened Wrappers
  import opened Config
  import opened Executor
  import opened Pipe
  import opened PipeInvariants
  import opened PipeOutcomes
  import opened PipeEndpoints
  import S = Session
  import T = Transactions

  /** The states of a run, one more than its steps. */
  ghost predicate IsRun(states: seq<Pipe>, steps: seq<Action>) {
    && |states| == |steps| + 1
    && (exists readOnly, locked, config :: DefaultKnown(config) && states[0] == Fresh(readOnly, locked, config))
    && forall i :: 0 <= i < |steps| ==> Stepped(states[i], steps[i], states[i + 1])
  }

  ghost predicate Stepped(p: Pipe, step: Action, q: Pipe) {
    Enabled(p, step) && q == Apply(p, step)
  }

  ghost predicate PipeInv(p: Pipe) {
    TableInv(p) && QueueInv(p) && PatchInv(p) && OutcomesInv(p) && CallsInv(p) && EndpointsInv(p)
  }

  /** Every way to start the pipe is the start of a run. */
  lemma StartupIsARun(readOnly: bool, locked: bool, session: Option<SessionConfig>, log: seq<string>)
    ensures IsRun([Fresh(readOnly, locked, Startup(session, log))], [])
  {
    var config := Startup(session, log);
    assert DefaultKnown(config);
  }

  lemma FreshIsFine(readOnly: bool, locked: bool, config: RuntimeConfig)
    requires DefaultKnown(config)
    ensures PipeInv(Fresh(readOnly, locked, config))
  {
  }

  lemma DefaultKnownIn(p: Pipe)
    requires EndpointsInv(p)
    ensures DefaultKnown(p.config)
  {
  }

  lemma StepKeeps(p: Pipe, step: Action)
    requires PipeInv(p) && Enabled(p, step)
    ensures PipeInv(Apply(p, step))
  {
    DefaultKnownIn(p);
    hide TableInv, PatchInv, OutcomesInv, CallsInv, EndpointsInv, Apply, WorkersInv, Located, Enabled, DefaultKnown;
    TableKept(p, step);
    PatchKept(p, step);
    QueueKept(p, step);
    OutcomesKept(p, step);
    CallsKept(p, step);
    EndpointsKept(p, step);
  }

  /** Every state of every run satisfies the invariants. */
  lemma {:induction false} AlwaysHolds(states: seq<Pipe>, steps: seq<Action>, i: nat)
    requires IsRun(states, steps) && i < |states|
    ensures PipeInv(states[i])
  {
    hide PipeInv, Enabled, Apply;
    if i == 0 {
      var readOnly, locked, config :| DefaultKnown(config) && states[0] == Fresh(readOnly, locked, config);
      FreshIsFine(readOnly, locked, config);
    } else {
      AlwaysHolds(states, steps, i - 1);
      assert Stepped(states[i - 1], steps[i - 1], states[i]);
      StepKeeps(states[i - 1], steps[i - 1]);
    }
  }

  /**
   Exactly one terminal event for each accepted query: none while it waits, never two, and one as soon
   as it is finished, or cancelled and the cancel has said so.
   */
  lemma ExactlyOneOutcome(states: seq<Pipe>, steps: seq<Action>, i: nat, k: nat)
    requires IsRun(states, steps) && i < |states| && k < |states[i].subs|
    ensures var p := states[i];
            && TerminalsOf(p.events, k) <= 1
            && (p.subs[k].phase == Queued ==> TerminalsOf(p.events, k) == 0)
            && (p.subs[k].phase == Finished ==> TerminalsOf(p.events, k) == 1)
            && (p.subs[k].phase == CancelledPhase && p.dispatcher.Ready? ==> TerminalsOf(p.events, k) == 1)
  {
    AlwaysHolds(states, steps, i);
    assert OutcomeOk(states[i], k);
  }

  /** No claim is ever lost: a cancel that took its query, and a worker that ran one, always get to say so. */
  lemma NoOutcomeIsSwallowed(states: seq<Pipe>, steps: seq<Action>, i: nat)
    requires IsRun(states, steps) && i < |steps|
    ensures var p, q := states[i], states[i + 1];
            && (steps[i].DoCancelClaim? ==> p.dispatcher.Claiming? && q.events == p.events + [Terminal(p.dispatcher.k, WasCancelled, false)])
            && (steps[i].DoEmit? ==>
                  && WorkerAt(p, steps[i].session) && p.workers[steps[i].session].task.Answered?
                  && var task := p.workers[steps[i].session].task;
                     q.events == p.events + [Terminal(task.k, SettleCancel(task.result, p.subs[task.k].cancelRequested), task.result.effect)])
  {
    AlwaysHolds(states, steps, i);
    assert Stepped(states[i], steps[i], states[i + 1]);
    hide IsRun;
    if steps[i].DoCancelClaim? {
      NothingClaimedYet(states[i], states[i].dispatcher.k);
      hide PipeInv;
    } else if steps[i].DoEmit? {
      WorkerHolds(states[i], steps[i].session);
      NothingClaimedYet(states[i], states[i].workers[steps[i].session].task.k);
      hide PipeInv, SettleCancel;
    }
  }

  lemma NothingClaimedYet(p: Pipe, k: nat)
    requires PipeInv(p) && k < |p.subs|
    ensures !Spoken(p, k) ==> !p.subs[k].claimed
  {
    assert OutcomeOk(p, k);
  }

  lemma WorkerHolds(p: Pipe, s: Name)
    requires PipeInv(p) && s in p.workers
    ensures WorkerInv(p.subs, s, p.workers[s])
  {
  }

  /** The table finds an active query of an id exactly if there is one among all that were ever accepted. */
  lemma NamesakesAreFound(p: Pipe, id: Name)
    requires PipeInv(p)
    ensures TableOk(p)
    ensures ActiveNamesake(p, id) <==> exists k :: 0 <= k < |p.subs| && Active(p.subs[k]) && p.subs[k].id == id
  {
    assert EntryOk(p, id);
    if k :| 0 <= k < |p.subs| && Active(p.subs[k]) && p.subs[k].id == id {
      assert PlaceOk(p, k);
    }
  }

  /**
   A query line is accepted if and only if no active query has its id, fewer than 64 others are in the
   table and its session's queue has a place; then it is queued last, under its session's present
   configuration, and nothing is said. Otherwise exactly one refusal is said and nothing is queued.
   */
  lemma AcceptedIff(states: seq<Pipe>, steps: seq<Action>, i: nat, s: Name)
    requires IsRun(states, steps) && i < |steps| && steps[i].DoSubmitFinish?
    ensures var p, q := states[i], states[i + 1];
            && p.dispatcher.Submitting?
            && var line := p.dispatcher.line;
               var session := ResolveName(p.config, line.session);
               var k := |p.subs|;
               if !(exists n :: 0 <= n < k && Active(p.subs[n]) && p.subs[n].id == line.id)
                  && |p.inFlight - {line.id}| < 64 && HasRoom(p, session)
               then
                 && q.subs == p.subs + [Submission(line.id, session, SessionOf(p.config, session), line.sqlAllowed, line.permission, Queued, false, false)]
                 && q.events == p.events
                 && line.id in q.inFlight && q.inFlight[line.id] == k
                 && QueueOf(q, s) == QueueOf(p, s) + (if s == session then [QueryOp(k)] else [])
               else
                 && q.subs == p.subs
                 && q.events == p.events + [Rejected(Some(line.id))]
                 && QueueOf(q, s) == QueueOf(p, s)
  {
    AlwaysHolds(states, steps, i);
    assert Stepped(states[i], steps[i], states[i + 1]);
    var p := states[i];
    NamesakesAreFound(p, p.dispatcher.line.id);
    hide IsRun, PipeInv;
    SubmissionDecided(p, s);
  }

  lemma SubmissionDecided(p: Pipe, s: Name)
    requires p.dispatcher.Submitting? && TableOk(p)
    ensures var line, q := p.dispatcher.line, SubmitFinish(p, p.dispatcher.line);
            var session := ResolveName(p.config, line.session);
            if !ActiveNamesake(p, line.id) && |p.inFlight - {line.id}| < MAX_ACTIVE_QUERIES && HasRoom(p, session)
            then
              && q.subs == p.subs + [Accepted(p, line)] && q.events == p.events
              && line.id in q.inFlight && q.inFlight[line.id] == |p.subs|
              && QueueOf(q, s) == QueueOf(p, s) + (if s == session then [QueryOp(|p.subs|)] else [])
            else
              && q.subs == p.subs && q.events == p.events + [Rejected(Some(line.id))] && QueueOf(q, s) == QueueOf(p, s)
  {
    var line := p.dispatcher.line;
    if ActiveNamesake(p, line.id) {
      NamesakeRefused(p);
    } else {
      var r := p.(dispatcher := Ready, inFlight := p.inFlight - {line.id});
      Vacated(p, r, ResolveName(p.config, line.session));
      AdmissionDecided(r, line, s);
      hide Admit, HasRoom, Accepted, QueueOf;
    }
  }

  lemma NamesakeRefused(p: Pipe)
    requires p.dispatcher.Submitting? && TableOk(p) && ActiveNamesake(p, p.dispatcher.line.id)
    ensures SubmitFinish(p, p.dispatcher.line)
         == p.(dispatcher := Ready, events := p.events + [Rejected(Some(p.dispatcher.line.id))])
  {
  }

  lemma Vacated(p: Pipe, r: Pipe, session: Name)
    requires p.dispatcher.Submitting? && r == p.(dispatcher := Ready, inFlight := r.inFlight)
    ensures HasRoom(r, session) <==> HasRoom(p, session)
    ensures forall line :: Accepted(r, line) == Accepted(p, line)
    ensures forall s: Name :: QueueOf(r, s) == QueueOf(p, s)
  {
  }

  lemma AdmissionDecided(p: Pipe, line: QueryLine, s: Name)
    ensures var q := Admit(p, line);
            var session := ResolveName(p.config, line.session);
            if |p.inFlight| < MAX_ACTIVE_QUERIES && HasRoom(p, session)
            then
              && q.subs == p.subs + [Accepted(p, line)] && q.events == p.events
              && line.id in q.inFlight && q.inFlight[line.id] == |p.subs|
              && QueueOf(q, s) == QueueOf(p, s) + (if s == session then [QueryOp(|p.subs|)] else [])
            else
              && q.subs == p.subs && q.events == p.events + [Rejected(Some(line.id))] && QueueOf(q, s) == QueueOf(p, s)
  {
    var session := ResolveName(p.config, line.session);
    EnteredWorkers(p, line, session);
    if |p.inFlight| >= MAX_ACTIVE_QUERIES {
    } else if HasRoom(p, session) {
    } else {
    }
  }

  predicate Idle(p: Pipe) {
    p.dispatcher.Ready? && forall s :: s in p.workers ==> p.workers[s].queue == [] && p.workers[s].task.Waiting?
  }

  /** When everything has been worked off, every accepted query has had its answer. */
  lemma EveryQueryIsAnswered(states: seq<Pipe>, steps: seq<Action>, i: nat, k: nat)
    requires IsRun(states, steps) && i < |states| && Idle(states[i]) && k < |states[i].subs|
    ensures TerminalsOf(states[i].events, k) == 1
  {
    AlwaysHolds(states, steps, i);
    assert OutcomeOk(states[i], k) && Located(states[i], k);
  }

  /** Cancelled is said only of queries whose cancel was asked for, that left nothing; no settled error leaves anything. */
  lemma OutcomesAreTrue(states: seq<Pipe>, steps: seq<Action>, i: nat, e: Event)
    requires IsRun(states, steps) && i < |states| && e in states[i].events && e.Terminal?
    ensures e.k < |states[i].subs|
    ensures e.verdict == WasCancelled ==> states[i].subs[e.k].cancelRequested && !e.effect
    ensures e.effect ==> e.verdict == Succeeded || e.verdict == Failed(CommitOutcomeUnknown)
  {
    AlwaysHolds(states, steps, i);
    var j :| 0 <= j < |states[i].events| && states[i].events[j] == e;
    assert EventOk(states[i].subs, states[i].events[j]);
  }

  /** A query cancelled while it waited never reaches the executor, in this state or later. */
  lemma CancelledIsNeverCalled(states: seq<Pipe>, steps: seq<Action>, i: nat, j: nat, k: nat, c: Call)
    requires IsRun(states, steps) && i <= j < |states| && k < |states[i].subs|
    requires states[i].subs[k].phase == CancelledPhase && c in states[j].calls
    ensures c.query != Some(k)
  {
    PhasesMoveForward(states, steps, i, j, k);
    AlwaysHolds(states, steps, j);
    var n :| 0 <= n < |states[j].calls| && states[j].calls[n] == c;
    assert CallOk(states[j], states[j].calls[n]);
  }

  /** Each query reaches the executor at most once, and those of one session in the order they were accepted. */
  lemma CallsAreInOrder(states: seq<Pipe>, steps: seq<Action>, i: nat, m: nat, n: nat)
    requires IsRun(states, steps) && i < |states| && m < n < |states[i].calls|
    requires states[i].calls[m].query.Some? && states[i].calls[n].query.Some?
    ensures states[i].calls[m].query != states[i].calls[n].query
    ensures states[i].calls[m].session == states[i].calls[n].session ==>
              states[i].calls[m].query.value < states[i].calls[n].query.value
  {
    AlwaysHolds(states, steps, i);
    var p := states[i];
    assert CallOk(p, p.calls[m]) && CallOk(p, p.calls[n]) && CalledInOrder(p.calls[m], p.calls[n]);
  }

  /** Every call ran on a connection of the configuration it was accepted under. */
  lemma EndpointsAgree(states: seq<Pipe>, steps: seq<Action>, i: nat, c: Call)
    requires IsRun(states, steps) && i < |states| && c in states[i].calls
    ensures c.used == c.accepted
    ensures c.query.Some? ==> c.query.value < |states[i].subs| && states[i].subs[c.query.value].config == Some(c.used)
  {
    AlwaysHolds(states, steps, i);
    var n :| 0 <= n < |states[i].calls| && states[i].calls[n] == c;
    assert CallAgrees(states[i], states[i].calls[n]);
  }

  /**
   A worker that finishes a transaction finds its session in the present configuration: the request
   was refused unless it was known then, and no patch forgets a session.
   */
  lemma FinishKnowsItsSession(states: seq<Pipe>, steps: seq<Action>, i: nat, s: Name)
    requires IsRun(states, steps) && i < |states| && TaskOf(states[i], s).Busy? && TaskOf(states[i], s).op.FinishOp?
    ensures s in states[i].config.sessions
  {
    AlwaysHolds(states, steps, i);
    var p := states[i];
    hide IsRun;
    EndpointHere(p, s) by { assert EndpointsInv(p); }
    assert Pending(p.workers[s])[0] == TaskOf(p, s).op;
    KnownStaysKnown(p.readOnlyCapability, p.subs, p.workers[s].front, Pending(p.workers[s]), InForce(p, s));
    assert PatchInv(p);
  }

  /** With the readonly capability, no query and no begin that reaches the executor asks to write. */
  lemma ReadOnlyCallsOnly(states: seq<Pipe>, steps: seq<Action>, i: nat, c: Call)
    requires IsRun(states, steps) && i < |states| && states[i].readOnlyCapability && c in states[i].calls
    ensures c.readOnly
  {
    AlwaysHolds(states, steps, i);
    var n :| 0 <= n < |states[i].calls| && states[i].calls[n] == c;
    assert CallAgrees(states[i], states[i].calls[n]);
  }

  /** With the readonly capability, no query whose SQL the policy refuses reaches the executor. */
  lemma RefusedSqlIsNeverCalled(states: seq<Pipe>, steps: seq<Action>, i: nat, k: nat, c: Call)
    requires IsRun(states, steps) && i < |states| && states[i].readOnlyCapability
    requires k < |states[i].subs| && !states[i].subs[k].sqlAllowed && c in states[i].calls
    ensures c.query != Some(k)
  {
    AlwaysHolds(states, steps, i);
    var n :| 0 <= n < |states[i].calls| && states[i].calls[n] == c;
    assert CallAgrees(states[i], states[i].calls[n]);
  }

  /** A query reaches the executor read-write exactly if it named the write permission of its session's transport. */
  lemma CallsWriteAsPermitted(states: seq<Pipe>, steps: seq<Action>, i: nat, c: Call)
    requires IsRun(states, steps) && i < |states| && c in states[i].calls && c.query.Some?
    ensures c.query.value < |states[i].subs|
    ensures var permission := states[i].subs[c.query.value].permission;
            !c.readOnly <==>
              || (permission == Some(Write) && Transport(c.accepted) == Ok(Direct))
              || (permission == Some(SshWrite) && Transport(c.accepted) == Ok(Ssh))
              || (permission == Some(ContainerWrite) && Transport(c.accepted) == Ok(Container))
  {
    AlwaysHolds(states, steps, i);
    var n :| 0 <= n < |states[i].calls| && states[i].calls[n] == c;
    assert CallAgrees(states[i], states[i].calls[n]);
    WritingIsExplicit(states[i].subs[c.query.value].permission, c.accepted);
  }

  /**
   A worker that runs its query hands it to the executor exactly if the session was known when it was
   accepted, its permission fits the session's transport, and the capability allows it; otherwise it is
   refused at once, without a call.
   */
  lemma QueriesReachTheExecutorIff(states: seq<Pipe>, steps: seq<Action>, i: nat)
    requires IsRun(states, steps) && i < |steps| && steps[i].DoRunQuery?
    ensures var p, q, s := states[i], states[i + 1], steps[i].session;
            && s in p.workers && s in q.workers && p.workers[s].task.Busy? && p.workers[s].task.op.QueryOp? && p.workers[s].task.op.k < |p.subs|
            && var k := p.workers[s].task.op.k;
               var sub := p.subs[k];
               if sub.config.Some? && Transport(sub.config.value).Ok?
                  && (sub.permission.Some? ==>
                        match Transport(sub.config.value).value
                        case Direct => sub.permission.value in {Read, Write}
                        case Ssh => sub.permission.value in {SshRead, SshWrite}
                        case Container => sub.permission.value in {ContainerRead, ContainerWrite})
                  && (p.readOnlyCapability ==>
                        steps[i].policyAllows && sub.sqlAllowed && (sub.permission.Some? ==> sub.permission.value in {Read, SshRead, ContainerRead}))
               then
                 && q.workers[s].task == Answered(k, steps[i].result) && q.events == p.events
                 && if steps[i].link.ran then |q.calls| == |p.calls| + 1 && q.calls[..|p.calls|] == p.calls && q.calls[|p.calls|].query == Some(k)
                    else q.calls == p.calls
               else q.workers[s].task == Emitted(k) && q.events == p.events + [Terminal(k, Failed(InvalidRequest), false)] && q.calls == p.calls
  {
    var p, step := states[i], steps[i];
    assert Stepped(p, step, states[i + 1]);
    hide IsRun;
    RunQueryFrame(p, step);
    var sub := p.subs[p.workers[step.session].task.op.k];
    if !RefusedEarly(p, sub, step.policyAllows) { RunQueryCall(p, step); }
    if sub.config.Some? {
      if sub.permission.Some? { PermissionsFitTheirTransport(sub.permission.value, sub.config.value); }
      else { PermissionsFitTheirTransport(Read, sub.config.value); }
    }
    hide ResolveReadOnly, Transport, Apply, Enabled, UsedConfig, Connected;
  }

  /** Active queries have different ids, each found under its own, and there are at most 64 entries. */
  lemma ActiveIdsAreUnique(states: seq<Pipe>, steps: seq<Action>, i: nat, k: nat, m: nat)
    requires IsRun(states, steps) && i < |states| && k < |states[i].subs| && m < |states[i].subs| && k != m
    requires Active(states[i].subs[k]) && Active(states[i].subs[m])
    ensures states[i].subs[k].id != states[i].subs[m].id
    ensures states[i].subs[k].id in states[i].inFlight && states[i].inFlight[states[i].subs[k].id] == k
    ensures |states[i].inFlight| <= MAX_ACTIVE_QUERIES
  {
    AlwaysHolds(states, steps, i);
    assert PlaceOk(states[i], k) && PlaceOk(states[i], m);
  }

  predicate Forward(a: Phase, b: Phase) {
    a == b || a == Queued || (a == Running && b == Finished)
  }

  ghost predicate SubsForward(p: Pipe, q: Pipe) {
    |p.subs| <= |q.subs| && forall k :: 0 <= k < |p.subs| ==>
      Forward(p.subs[k].phase, q.subs[k].phase) && q.subs[k].id == p.subs[k].id && q.subs[k].session == p.subs[k].session
  }

  lemma StepForward(p: Pipe, step: Action)
    requires PipeInv(p) && Enabled(p, step)
    ensures SubsForward(p, Apply(p, step))
  {
    hide TableInv, OutcomesInv, CallsInv, EndpointsInv, Apply;
    match step {
      case DoTake(s) => TakeForward(p, s);
      case DoRunQuery(_, _, _, _) => RunSameTable(p, step);
      case DoRunControl(_, _) => RunSameTable(p, step);
      case DoEmit(_) => EndSteps(p, step);
      case DoFinish(s) => EndSteps(p, step); assert WorkerInv(p.subs, s, p.workers[s]);
      case _ =>
        if step.DoCancelStart? || step.DoCancelClaim? || step.DoCancelCheck? || step.DoCancelAcknowledge? {
          CancelSteps(p, step);
        } else {
          QuietSteps(p, step);
        }
    }
  }

  lemma TakeForward(p: Pipe, s: Name)
    requires Enabled(p, DoTake(s))
    ensures SubsForward(p, Apply(p, DoTake(s)))
  {
    var op := p.workers[s].queue[0];
    if op.QueryOp? {
      if p.subs[op.k].phase == Queued {} else {}
    }
  }

  /** A query's phase only moves from queued to running to finished, or from queued to cancelled. */
  lemma {:induction false} PhasesMoveForward(states: seq<Pipe>, steps: seq<Action>, i: nat, j: nat, k: nat)
    requires IsRun(states, steps) && i <= j < |states| && k < |states[i].subs|
    ensures k < |states[j].subs| && Forward(states[i].subs[k].phase, states[j].subs[k].phase)
    ensures states[j].subs[k].id == states[i].subs[k].id && states[j].subs[k].session == states[i].subs[k].session
    decreases j
  {
    hide PipeInv, Enabled, Apply;
    if i < j {
      PhasesMoveForward(states, steps, i, j - 1, k);
      AlwaysHolds(states, steps, j - 1);
      assert Stepped(states[j - 1], steps[j - 1], states[j]);
      StepForward(states[j - 1], steps[j - 1]);
    }
  }

  function Stage(t: Task): nat {
    match t
    case Waiting => 0
    case Emitted(_) => 1
    case Answered(_, _) => 2
    case Busy(_) => 3
  }

  /** How many steps of its own a worker may still take. */
  function Backlog(p: Pipe, s: Name): nat {
    4 * |QueueOf(p, s)| + Stage(TaskOf(p, s))
  }

  predicate StepOf(step: Action, s: Name) {
    match step
    case DoTake(t) => t == s
    case DoRunQuery(t, _, _, _) => t == s
    case DoEmit(t) => t == s
    case DoFinish(t) => t == s
    case DoRunControl(t, _) => t == s
    case _ => false
  }

  /** A worker with anything to do can always take a step, whatever the dispatcher is doing. */
  lemma WorkersNeverStick(states: seq<Pipe>, steps: seq<Action>, i: nat, s: Name)
    requires IsRun(states, steps) && i < |states| && Backlog(states[i], s) > 0
    ensures exists step :: StepOf(step, s) && Enabled(states[i], step)
  {
    AlwaysHolds(states, steps, i);
    var p := states[i];
    CanStep(p, s);
  }

  lemma WorkersAreThere(p: Pipe, s: Name)
    requires WorkersInv(p) && s in p.workers
    ensures WorkerAt(p, s)
  {
    var w := p.workers[s];
    assert WorkerInv(p.subs, s, w);
    forall i | 0 <= i < |w.queue| && w.queue[i].QueryOp? ensures w.queue[i].k < |p.subs| { assert WaitingOk(p.subs, s, InHand(w.task), w.queue[i]); }
  }

  lemma CanStep(p: Pipe, s: Name)
    requires WorkersInv(p) && Backlog(p, s) > 0
    ensures exists step :: StepOf(step, s) && Enabled(p, step)
  {
    WorkersAreThere(p, s);
    hide WorkersInv;
    var link, result := Link(false, false, false), ExecResult(None, false);
    var step := match p.workers[s].task
      case Waiting => DoTake(s)
      case Emitted(_) => DoFinish(s)
      case Answered(_, _) => DoEmit(s)
      case Busy(op) => if op.QueryOp? then DoRunQuery(s, true, link, result) else DoRunControl(s, link);
    assert Enabled(p, step) && StepOf(step, s);
  }

  /** Each step of a worker brings it nearer to having nothing to do. */
  lemma WorkersCountDown(p: Pipe, step: Action, s: Name)
    requires Enabled(p, step) && StepOf(step, s)
    ensures Backlog(Apply(p, step), s) < Backlog(p, s)
  {
    hide RunQuery, RunControl, RefusedEarly, EmitTerminal, FinishQuery;
    match step {
      case DoTake(_) =>
        var op := p.workers[s].queue[0];
        if op.QueryOp? {
          if p.subs[op.k].phase == Queued {} else {}
        }
      case DoRunQuery(_, _, _, _) => RunQueryFrame(p, step);
      case DoRunControl(_, _) => RunControlFrame(p, step);
      case _ => EndSteps(p, step);
    }
  }

  /** How many writes a session's database holds or would hold if its open transaction were committed. */
  function Held(s: S.Session): nat {
    |s.durable + T.AtStake(s)|
  }

  function ResultOf(before: S.Session, after: S.Session, r: Result<Outcome, ExecError>): ExecResult {
    ExecResult(if r.Err? then Some(r.error) else None, Held(after) > Held(before))
  }

  /** The pipe relies on honest results, and after any run of a session that is what the executor returns. */
  lemma TheExecutorIsHonest(ops: seq<T.Op>, req: Request, cancelled: bool, env: S.Env)
    requires T.ValidOps(ops) && ValidRequest(req) && S.ValidEnv(env)
    ensures var s := T.Play(T.START, ops).session;
            var (s', r) := S.Query(s, req, cancelled, env);
            Honest(cancelled, ResultOf(s, s', r))
  {
    hide Reports, Abandons;
    T.PlayIsConsistent(ops);
    T.QueriesAreTruthful(T.Play(T.START, ops).session, req, cancelled, env);
    hide S.Query;
  }

  predicate PolicyAdmits(p: Pipe, patch: ConfigPatch, policyAllows: bool) {
    !p.readOnlyCapability || (policyAllows && !(p.lockedProfile && patch.sessions.Some?))
  }

  /** What the dispatcher has said, without the workers' answers. */
  function Said(events: seq<Event>): seq<Event> {
    if events == [] then []
    else Said(events[..|events| - 1]) + (if events[|events| - 1].Terminal? then [] else [events[|events| - 1]])
  }

  lemma SaidAfter(events: seq<Event>, e: Event)
    ensures Said(events + [e]) == Said(events) + (if e.Terminal? then [] else [e])
  {
    assert (events + [e])[..|events|] == events;
  }

  lemma WorkersSayNothingElse(p: Pipe, step: Action)
    requires Enabled(p, step) && IsWorkers(step)
    ensures Said(Apply(p, step).events) == Said(p.events)
  {
    hide Take, RunQuery, RunControl, RefusedEarly, FinishQuery, SettleCancel;
    match step {
      case DoTake(s) => TakeSaysNothing(p, s);
      case DoRunQuery(s, _, _, _) =>
        RunQueryFrame(p, step);
        SaidAfter(p.events, Terminal(p.workers[s].task.op.k, Failed(InvalidRequest), false));
      case DoRunControl(_, _) => RunControlFrame(p, step);
      case DoEmit(s) =>
        var task := p.workers[s].task;
        SaidAfter(p.events, Terminal(task.k, SettleCancel(task.result, p.subs[task.k].cancelRequested), task.result.effect));
      case DoFinish(_) => FinishSaysNothing(p, step);
    }
  }

  lemma TakeSaysNothing(p: Pipe, s: Name)
    requires Enabled(p, DoTake(s))
    ensures Take(p, s).events == p.events
  {
    var op := p.workers[s].queue[0];
    if op.QueryOp? { if p.subs[op.k].phase == Queued {} else {} }
  }

  lemma FinishSaysNothing(p: Pipe, step: Action)
    requires Enabled(p, step) && step.DoFinish?
    ensures Apply(p, step).events == p.events
  {
  }

  /** The worker has taken operations from the front of the queue, after `extra` joined it at the end. */
  ghost predicate Worked(before: seq<SessionOp>, extra: seq<SessionOp>, after: seq<SessionOp>) {
    exists n :: 0 <= n <= |before + extra| && after == (before + extra)[n..]
  }

  lemma WorkedOn(before: seq<SessionOp>, extra: seq<SessionOp>, a: seq<SessionOp>, b: seq<SessionOp>)
    requires Worked(before, extra, a) && (b == a || (a != [] && b == a[1..]))
    ensures Worked(before, extra, b)
  {
    var n :| 0 <= n <= |before + extra| && a == (before + extra)[n..];
    if b != a { assert b == (before + extra)[n + 1..]; }
  }

  lemma WorkedThenSent(before: seq<SessionOp>, a: seq<SessionOp>, op: SessionOp)
    requires Worked(before, [], a)
    ensures Worked(before, [op], a + [op])
  {
    assert before + [] == before;
    var n :| 0 <= n <= |before + []| && a == (before + [])[n..];
    assert a + [op] == (before + [op])[n..];
  }

  lemma NotWorkedYet(q: seq<SessionOp>)
    ensures Worked(q, [], q)
  {
    assert q == (q + [])[0..];
  }

  /** What a patch under way has done to the pipe since it began, beside what the workers did. */
  ghost predicate PatchProgress(p: Pipe, patch: ConfigPatch, sessions: seq<Name>, q: Pipe) {
    && Said(q.events) == Said(p.events)
    && match q.dispatcher
       case Reserving(patch', sessions', taken) =>
         && patch' == patch && sessions' == sessions
         && q.config == p.config
         && forall s: Name :: Worked(QueueOf(p, s), [], QueueOf(q, s))
       case Sending(was, sessions', sent) =>
         && sessions' == sessions && sent <= |sessions|
         && q.config == Updated(p.config, patch)
         && forall s: Name :: Worked(QueueOf(p, s), Invalidation(q.config, sessions[..sent], s), QueueOf(q, s))
       case _ => false
  }

  function Invalidation(config: RuntimeConfig, sessions: seq<Name>, s: Name): seq<SessionOp> {
    if s in sessions then [InvalidateOp(SessionOf(config, s))] else []
  }

  /** A patch that is through: installed with one invalidation for each session, or refused without a trace. */
  ghost predicate PatchDone(p: Pipe, patch: ConfigPatch, sessions: seq<Name>, installed: bool, q: Pipe) {
    && q.dispatcher.Ready?
    && q.config == (if installed then Updated(p.config, patch) else p.config)
    && Said(q.events) == Said(p.events) + [if installed then ConfigInstalled(q.config) else Rejected(None)]
    && forall s: Name :: Worked(QueueOf(p, s), if installed then Invalidation(q.config, sessions, s) else [], QueueOf(q, s))
  }

  lemma WorkersKeepProgress(p: Pipe, patch: ConfigPatch, sessions: seq<Name>, q: Pipe, step: Action)
    requires PatchProgress(p, patch, sessions, q) && Enabled(q, step) && IsWorkers(step)
    ensures PatchProgress(p, patch, sessions, Apply(q, step))
  {
    hide Apply, Enabled, Updated, Said, Worked, Invalidation;
    WorkersShrink(q, step);
    WorkersSayNothingElse(q, step);
    var r := Apply(q, step);
    forall s: Name ensures
      && (q.dispatcher.Reserving? ==> Worked(QueueOf(p, s), [], QueueOf(r, s)))
      && (q.dispatcher.Sending? ==> Worked(QueueOf(p, s), Invalidation(q.config, sessions[..q.dispatcher.sent], s), QueueOf(r, s)))
    {
      if q.dispatcher.Reserving? {
        WorkedOn(QueueOf(p, s), [], QueueOf(q, s), QueueOf(r, s));
      } else {
        WorkedOn(QueueOf(p, s), Invalidation(q.config, sessions[..q.dispatcher.sent], s), QueueOf(q, s), QueueOf(r, s));
      }
    }
  }

  lemma ReserveKeepsProgress(p: Pipe, patch: ConfigPatch, sessions: seq<Name>, q: Pipe)
    requires PatchProgress(p, patch, sessions, q) && Enabled(q, DoReserve)
    ensures var room := HasRoom(q, q.dispatcher.sessions[q.dispatcher.taken]);
            if room then PatchProgress(p, patch, sessions, ReserveNext(q)) else PatchDone(p, patch, sessions, false, ReserveNext(q))
  {
    hide Updated, Worked, HasRoom;
    var r := ReserveNext(q);
    SaidAfter(q.events, Rejected(None));
    forall s: Name ensures QueueOf(r, s) == QueueOf(q, s) {
    }
  }

  lemma InstallKeepsProgress(p: Pipe, patch: ConfigPatch, sessions: seq<Name>, q: Pipe)
    requires PatchProgress(p, patch, sessions, q) && Enabled(q, DoInstall)
    ensures PatchProgress(p, patch, sessions, Install(q))
  {
    hide Updated, Worked, Said;
    assert sessions[..0] == [];
    forall s: Name ensures QueueOf(Install(q), s) == QueueOf(q, s) && Worked(QueueOf(p, s), [], QueueOf(q, s)) {
    }
  }

  lemma SendKeepsProgress(p: Pipe, patch: ConfigPatch, sessions: seq<Name>, q: Pipe)
    requires PatchProgress(p, patch, sessions, q) && PatchInv(q) && Enabled(q, DoSend)
    ensures PatchProgress(p, patch, sessions, SendNext(q))
  {
    var n, r := q.dispatcher.sent, SendNext(q);
    TurnsAreTaken(sessions, n);
    assert PlaceIn(q, sessions[n]);
    hide Updated, Worked, Said;
    forall s: Name ensures Worked(QueueOf(p, s), Invalidation(r.config, sessions[..n + 1], s), QueueOf(r, s)) {
      assert Worked(QueueOf(p, s), Invalidation(q.config, sessions[..n], s), QueueOf(q, s));
      if s == sessions[n] { WorkedThenSent(QueueOf(p, s), QueueOf(q, s), InvalidateOp(SessionOf(q.config, s))); }
    }
  }

  lemma AnnounceEndsProgress(p: Pipe, patch: ConfigPatch, sessions: seq<Name>, q: Pipe)
    requires PatchProgress(p, patch, sessions, q) && Enabled(q, DoAnnounce)
    ensures PatchDone(p, patch, sessions, true, Announce(q))
  {
    hide Updated, Worked;
    var r := Announce(q);
    assert sessions[..q.dispatcher.sent] == sessions;
    SaidAfter(q.events, ConfigInstalled(q.config));
    forall s: Name ensures QueueOf(r, s) == QueueOf(q, s) && Worked(QueueOf(p, s), Invalidation(q.config, sessions, s), QueueOf(q, s)) {
    }
  }

  /** If this step tries to reserve a place, there is one. */
  predicate HadRoom(p: Pipe, step: Action) {
    step.DoReserve? && p.dispatcher.Reserving? && p.dispatcher.taken < |p.dispatcher.sessions| ==>
      HasRoom(p, p.dispatcher.sessions[p.dispatcher.taken])
  }

  /** A step of a worker or of the patch itself; nothing else can be taken while a patch is under way. */
  lemma StepKeepsProgress(p: Pipe, patch: ConfigPatch, sessions: seq<Name>, q: Pipe, step: Action)
    requires PatchProgress(p, patch, sessions, q) && PatchInv(q) && Enabled(q, step)
    ensures var r := Apply(q, step);
            if !HadRoom(q, step) then PatchDone(p, patch, sessions, false, r)
            else if step.DoAnnounce? then PatchDone(p, patch, sessions, true, r)
            else PatchProgress(p, patch, sessions, r)
  {
    if IsWorkers(step) {
      hide Apply, Enabled, PatchProgress, PatchInv;
      WorkersKeepProgress(p, patch, sessions, q, step);
    } else {
      assert IsPatch(step);
      hide PatchProgress, PatchInv, PatchDone, HasRoom, ReserveNext, Install, SendNext, Announce;
      if step.DoReserve? {
        ReserveKeepsProgress(p, patch, sessions, q);
      } else if step.DoInstall? {
        InstallKeepsProgress(p, patch, sessions, q);
      } else if step.DoSend? {
        SendKeepsProgress(p, patch, sessions, q);
      } else {
        AnnounceEndsProgress(p, patch, sessions, q);
      }
    }
  }

  lemma PatchBegins(p: Pipe, step: Action)
    requires Enabled(p, step) && step.DoPatch?
    ensures if PolicyAdmits(p, step.patch, step.policyAllows) then PatchProgress(p, step.patch, step.sessions, Apply(p, step))
            else Apply(p, step) == p.(events := p.events + [Rejected(None)])
  {
    hide Worked;
    forall s: Name ensures Worked(QueueOf(p, s), [], QueueOf(p, s)) { NotWorkedYet(QueueOf(p, s)); }
  }

  lemma {:induction false} ProgressUntil(states: seq<Pipe>, steps: seq<Action>, i: nat, m: nat)
    requires IsRun(states, steps) && i < m < |states| && steps[i].DoPatch?
    requires PolicyAdmits(states[i], steps[i].patch, steps[i].policyAllows)
    requires forall n :: i < n <= m ==> PatchUnderWay(states[n].dispatcher)
    ensures PatchProgress(states[i], steps[i].patch, steps[i].sessions, states[m])
    ensures forall n :: i < n < m ==> HadRoom(states[n], steps[n])
    decreases m
  {
    hide PatchProgress, PatchDone, PatchInv, Apply, Enabled, HadRoom;
    assert Stepped(states[m - 1], steps[m - 1], states[m]);
    if m == i + 1 {
      PatchBegins(states[i], steps[i]);
    } else {
      ProgressUntil(states, steps, i, m - 1);
      AlwaysHolds(states, steps, m - 1);
      PatchInvIn(states[m - 1]);
      var p := states[i];
      hide PipeInv;
      StepKeepsProgress(p, steps[i].patch, steps[i].sessions, states[m - 1], steps[m - 1]);
      DoneIsReady(p, steps[i].patch, steps[i].sessions, states[m]);
    }
  }

  lemma PatchInvIn(p: Pipe)
    requires PipeInv(p)
    ensures PatchInv(p)
  {
  }

  /**
   From a patch the policy admits to the moment the dispatcher is through with it, whatever the workers
   do in between. It is installed if and only if there was a place left in each affected queue when it
   was asked for. Then the new configuration is there, it has been announced, and each affected queue has
   been given exactly one invalidation, and no other queue anything; otherwise one refusal has been said,
   and configuration and queues are as the workers left them, with no place held.
   */
  lemma PatchIsAllOrNothing(states: seq<Pipe>, steps: seq<Action>, i: nat, j: nat)
    requires IsRun(states, steps) && i < j < |states| && steps[i].DoPatch?
    requires PolicyAdmits(states[i], steps[i].patch, steps[i].policyAllows)
    requires (forall n :: i < n < j ==> PatchUnderWay(states[n].dispatcher)) && !PatchUnderWay(states[j].dispatcher)
    ensures PatchDone(states[i], steps[i].patch, steps[i].sessions, forall n :: i < n < j ==> HadRoom(states[n], steps[n]), states[j])
    ensures forall n :: n in steps[i].sessions <==> n in AffectedSessions(steps[i].patch)
  {
    hide PatchInv, PatchDone, PatchProgress, Apply, Enabled, HadRoom, StrictlySorted, AffectedSessions;
    var p, patch, sessions := states[i], steps[i].patch, steps[i].sessions;
    assert Stepped(p, steps[i], states[i + 1]) && Stepped(states[j - 1], steps[j - 1], states[j]);
    PatchBegins(p, steps[i]);
    ProgressIsUnderWay(p, patch, sessions, states[i + 1]);
    ProgressUntil(states, steps, i, j - 1);
    AlwaysHolds(states, steps, j - 1);
    PatchInvIn(states[j - 1]);
    PatchNames(p, steps[i]);
    hide PipeInv, IsRun;
    PatchEnds(p, patch, sessions, states[j - 1], steps[j - 1]);
    assert (forall n :: i < n < j ==> HadRoom(states[n], steps[n])) <==> HadRoom(states[j - 1], steps[j - 1]);
  }

  lemma PatchNames(p: Pipe, step: Action)
    requires Enabled(p, step) && step.DoPatch?
    ensures forall n :: n in step.sessions <==> n in AffectedSessions(step.patch)
  {
  }

  lemma PatchEnds(p: Pipe, patch: ConfigPatch, sessions: seq<Name>, q: Pipe, step: Action)
    requires PatchProgress(p, patch, sessions, q) && PatchInv(q) && Enabled(q, step) && !PatchUnderWay(Apply(q, step).dispatcher)
    ensures PatchDone(p, patch, sessions, HadRoom(q, step), Apply(q, step))
  {
    hide PatchInv, PatchDone, PatchProgress, Apply, Enabled, HadRoom;
    StepKeepsProgress(p, patch, sessions, q, step);
    ProgressIsUnderWay(p, patch, sessions, Apply(q, step));
  }

  lemma DoneIsReady(p: Pipe, patch: ConfigPatch, sessions: seq<Name>, q: Pipe)
    requires PatchUnderWay(q.dispatcher)
    ensures !PatchDone(p, patch, sessions, false, q) && !PatchDone(p, patch, sessions, true, q)
  {
  }

  lemma ProgressIsUnderWay(p: Pipe, patch: ConfigPatch, sessions: seq<Name>, q: Pipe)
    ensures PatchProgress(p, patch, sessions, q) ==> PatchUnderWay(q.dispatcher)
  {
  }

  /** A patch the policy does not admit is refused at once, and nothing else changes. */
  lemma PatchIsRefused(states: seq<Pipe>, steps: seq<Action>, i: nat)
    requires IsRun(states, steps) && i < |steps| && steps[i].DoPatch?
    requires !PolicyAdmits(states[i], steps[i].patch, steps[i].policyAllows)
    ensures states[i + 1] == states[i].(events := states[i].events + [Rejected(None)])
  {
    assert Stepped(states[i], steps[i], states[i + 1]);
    PatchBegins(states[i], steps[i]);
  }

  /** Only the installation changes the configuration, and it leaves that of every session not affected. */
  lemma UnaffectedSessionsKeepTheirs(states: seq<Pipe>, steps: seq<Action>, i: nat, s: Name)
    requires IsRun(states, steps) && i < |steps|
    requires SessionOf(states[i + 1].config, s) != SessionOf(states[i].config, s)
    ensures steps[i].DoInstall? && states[i].dispatcher.Reserving? && s in states[i].dispatcher.sessions
    ensures DefaultKnown(states[i + 1].config)
  {
    AlwaysHolds(states, steps, i);
    AlwaysHolds(states, steps, i + 1);
    assert Stepped(states[i], steps[i], states[i + 1]);
    DefaultIsKnown(states[i + 1]);
    PatchInvIn(states[i + 1]);
    GroundStays(states[i], steps[i]);
  }

  lemma DefaultIsKnown(p: Pipe)
    requires PipeInv(p)
    ensures DefaultKnown(p.config)
  {
  }
}
