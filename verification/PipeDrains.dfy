/**
 Every reachable state of the pipe can be worked off: without any new input line, in a number of steps
 that can be counted beforehand, everything comes to rest and every accepted query has its answer.
 */
module PipeDrains {
  import opened Wrappers
  import opened Config
  import opened Executor
  import opened Pipe
  import opened PipeInvariants
  import opened PipeOutcomes
  import opened PipeEndpoints
  import opened PipeRuns

  /** How many steps the line in hand may still take the dispatcher, with four for each operation it may queue. */
  function Load(d: Dispatcher): nat {
    match d
    case Ready => 0
    case Submitting(_) => 5
    case Claiming(_, _) => 1
    case Checking(_, _) => 2
    case Asking(_, _) => 1
    case Reserving(_, sessions, taken) => (if taken <= |sessions| then |sessions| - taken else 0) + 2 + 5 * |sessions|
    case Sending(_, sessions, sent) => (if sent <= |sessions| then 5 * (|sessions| - sent) else 0) + 1
  }

  ghost function Total(p: Pipe, names: set<Name>): nat {
    if names == {} then 0
    else
      var s :| s in names;
      Backlog(p, s) + Total(p, names - {s})
  }

  /** The steps it takes at most until everything is at rest. */
  ghost function Work(p: Pipe): nat {
    Load(p.dispatcher) + Total(p, p.workers.Keys)
  }

  lemma {:induction false} TotalWithout(p: Pipe, names: set<Name>, s: Name)
    requires s in names
    ensures Total(p, names) == Backlog(p, s) + Total(p, names - {s})
    decreases |names|
  {
    hide Backlog;
    var t :| t in names && Total(p, names) == Backlog(p, t) + Total(p, names - {t});
    if t != s {
      TotalWithout(p, names - {t}, s);
      TotalWithout(p, names - {s}, t);
      assert names - {t} - {s} == names - {s} - {t};
    }
  }

  lemma {:induction false} TotalSame(p: Pipe, q: Pipe, names: set<Name>)
    requires forall s :: s in names ==> Backlog(q, s) == Backlog(p, s)
    ensures Total(q, names) == Total(p, names)
    decreases |names|
  {
    hide Backlog;
    if names != {} {
      var s :| s in names;
      TotalWithout(p, names, s);
      TotalWithout(q, names, s);
      TotalSame(p, q, names - {s});
    }
  }

  /** Sessions without a worker have nothing to do. */
  lemma {:induction false} TotalMore(p: Pipe, names: set<Name>, more: set<Name>)
    requires names <= more && forall s :: s in more && s !in names ==> Backlog(p, s) == 0
    ensures Total(p, more) == Total(p, names)
    decreases |more|
  {
    hide Backlog;
    if names != more {
      var s :| s in more && s !in names;
      TotalWithout(p, more, s);
      TotalMore(p, names, more - {s});
    }
  }

  /** At most one session's backlog changes, to `after`. */
  lemma TotalChanged(p: Pipe, q: Pipe, session: Name, grown: int)
    requires p.workers.Keys <= q.workers.Keys
    requires forall s: Name :: s != session ==> Backlog(q, s) == Backlog(p, s)
    requires Backlog(q, session) <= Backlog(p, session) + grown
    ensures Total(q, q.workers.Keys) <= Total(p, p.workers.Keys) + (if session in q.workers then grown else 0)
  {
    forall s | s in q.workers.Keys && s !in p.workers.Keys ensures Backlog(p, s) == 0 {}
    hide Backlog;
    var names := q.workers.Keys;
    TotalMore(p, p.workers.Keys, names);
    if session in names {
      TotalWithout(p, names, session);
      TotalWithout(q, names, session);
      TotalSame(p, q, names - {session});
    } else {
      TotalSame(p, q, names);
    }
  }

  /** A new line of input; everything else goes on by itself. */
  predicate IsInput(step: Action) {
    step.DoSubmitStart? || step.DoCancelStart? || step.DoPatch? || step.DoBegin? || step.DoTxEnd? || step.DoInfo? || step.DoPing?
  }

  lemma OthersWait(p: Pipe, step: Action, s: Name, t: Name)
    requires Enabled(p, step) && StepOf(step, s) && t != s
    ensures Backlog(Apply(p, step), t) == Backlog(p, t)
  {
    hide RunQuery, RunControl, RefusedEarly, EmitTerminal, FinishQuery;
    match step {
      case DoTake(_) =>
        var op := p.workers[s].queue[0];
        if op.QueryOp? {
          if p.subs[op.k].phase == Queued {} else {}
        }
      case DoRunQuery(_, _, _, _) => RunQueryFrame(p, step);
      case DoRunControl(_, _) => RunControlFrame(p, step);
      case _ => EndSteps(p, step);
    }
  }

  lemma WorkersWorkOff(p: Pipe, s: Name) returns (step: Action)
    requires WorkersInv(p) && Backlog(p, s) > 0
    ensures !IsInput(step) && Enabled(p, step) && Work(Apply(p, step)) < Work(p)
  {
    CanStep(p, s);
    step :| StepOf(step, s) && Enabled(p, step);
    WorkersShrink(p, step);
    WorkersCountDown(p, step, s);
    forall t: Name | t != s ensures Backlog(Apply(p, step), t) == Backlog(p, t) { OthersWait(p, step, s, t); }
    HasWorker(p, s);
    hide Apply, Enabled, Backlog, WorkersInv;
    TotalChanged(p, Apply(p, step), s, -1);
  }

  lemma HasWorker(p: Pipe, s: Name)
    requires Backlog(p, s) > 0
    ensures s in p.workers
  {
  }

  lemma SubmissionEnds(p: Pipe)
    requires PipeInv(p) && p.dispatcher.Submitting?
    ensures Enabled(p, DoSubmitFinish) && Work(Apply(p, DoSubmitFinish)) < Work(p)
  {
    var line := p.dispatcher.line;
    var session := ResolveName(p.config, line.session);
    QuietSubmit(p, DoSubmitFinish);
    SubmissionsPatchNothing(p);
    var q := Apply(p, DoSubmitFinish);
    assert q.dispatcher.Ready? && p.workers.Keys <= q.workers.Keys by { SubmissionIsOver(p); }
    forall s: Name ensures if s == session then Backlog(q, s) <= Backlog(p, s) + 4 else Backlog(q, s) == Backlog(p, s) {
      SubmissionDecided(p, s);
      TasksStay(p, q, s);
    }
    hide Apply, PipeInv, Backlog;
    TotalChanged(p, q, session, 4);
  }

  lemma TasksStay(p: Pipe, q: Pipe, s: Name)
    requires Quiet(p, q)
    ensures TaskOf(q, s) == TaskOf(p, s)
  {
  }

  lemma AdmissionIsOver(p: Pipe, line: QueryLine)
    requires p.dispatcher.Ready?
    ensures Admit(p, line).dispatcher.Ready? && p.workers.Keys <= Admit(p, line).workers.Keys
  {
    hide WorkerOf;
    if |p.inFlight| >= MAX_ACTIVE_QUERIES {} else if HasRoom(p, ResolveName(p.config, line.session)) {} else {}
  }

  lemma SubmissionIsOver(p: Pipe)
    requires Enabled(p, DoSubmitFinish)
    ensures SubmitFinish(p, p.dispatcher.line).dispatcher.Ready?
    ensures p.workers.Keys <= SubmitFinish(p, p.dispatcher.line).workers.Keys
  {
    var line := p.dispatcher.line;
    if !ActiveNamesake(p, line.id) {
      AdmissionIsOver(p.(dispatcher := Ready, inFlight := p.inFlight - {line.id}), line);
    }
    hide Admit;
  }

  /** A cancel's remaining steps touch no queue and no task. */
  lemma CancelEnds(p: Pipe) returns (step: Action)
    requires PipeInv(p) && (p.dispatcher.Claiming? || p.dispatcher.Checking? || p.dispatcher.Asking?)
    ensures !IsInput(step) && Enabled(p, step) && Work(Apply(p, step)) < Work(p)
  {
    assert DispatcherOk(p);
    step := match p.dispatcher case Claiming(_, _) => DoCancelClaim case Checking(_, _) => DoCancelCheck case _ => DoCancelAcknowledge;
    CancelSteps(p, step);
    CancelIsShorter(p, step);
    hide Apply, PipeInv;
    var q := Apply(p, step);
    forall s: Name ensures Backlog(q, s) == Backlog(p, s) {}
    hide Backlog;
    TotalChanged(p, q, 0, 0);
  }

  lemma CancelIsShorter(p: Pipe, step: Action)
    requires Enabled(p, step) && (step.DoCancelClaim? || step.DoCancelCheck? || step.DoCancelAcknowledge?)
    ensures Load(Apply(p, step).dispatcher) < Load(p.dispatcher)
  {
    match step {
      case DoCancelClaim => if p.subs[p.dispatcher.k].claimed {} else {}
      case DoCancelCheck => if p.subs[p.dispatcher.k].IsFinished() {} else {}
      case DoCancelAcknowledge =>
    }
  }

  lemma ReserveEnds(p: Pipe)
    requires Enabled(p, DoReserve)
    ensures Work(Apply(p, DoReserve)) < Work(p)
  {
    var session, q := p.dispatcher.sessions[p.dispatcher.taken], ReserveNext(p);
    StartedWorkers(p, p, session);
    QuietReserve(p);
    if HasRoom(p, session) {} else {}
    forall s: Name ensures Backlog(q, s) == Backlog(p, s) { TasksStay(p, q, s); assert s in q.workers ==> q.workers[s] == WorkerOf(p, s); }
    hide Backlog, Quiet;
    TotalChanged(p, q, session, 0);
  }

  lemma SendEnds(p: Pipe)
    requires PatchInv(p) && Enabled(p, DoSend)
    ensures Work(Apply(p, DoSend)) < Work(p)
  {
    var session, q := p.dispatcher.sessions[p.dispatcher.sent], SendNext(p);
    assert session == p.dispatcher.sessions[p.dispatcher.sent..][0] && PlaceIn(p, session);
    forall s: Name ensures if s == session then Backlog(q, s) <= Backlog(p, s) + 4 else Backlog(q, s) == Backlog(p, s) {}
    hide Backlog;
    TotalChanged(p, q, session, 4);
  }

  lemma PatchEndsSoon(p: Pipe) returns (step: Action)
    requires PatchInv(p) && PatchUnderWay(p.dispatcher)
    ensures !IsInput(step) && Enabled(p, step) && Work(Apply(p, step)) < Work(p)
  {
    if p.dispatcher.Reserving? && p.dispatcher.taken < |p.dispatcher.sessions| {
      step := DoReserve;
      ReserveEnds(p);
    } else if p.dispatcher.Sending? && p.dispatcher.sent < |p.dispatcher.sessions| {
      step := DoSend;
      SendEnds(p);
    } else {
      step := if p.dispatcher.Reserving? then DoInstall else DoAnnounce;
      var q := Apply(p, step);
      assert q.workers == p.workers;
      TotalSame(p, q, p.workers.Keys);
    }
  }

  lemma NextStep(p: Pipe) returns (step: Action)
    requires PipeInv(p) && !Idle(p)
    ensures !IsInput(step) && Enabled(p, step) && Work(Apply(p, step)) < Work(p)
  {
    if p.dispatcher.Submitting? {
      step := DoSubmitFinish;
      SubmissionEnds(p);
    } else if PatchUnderWay(p.dispatcher) {
      PatchInvIn(p);
      step := PatchEndsSoon(p);
    } else if !p.dispatcher.Ready? {
      step := CancelEnds(p);
    } else {
      var s := SomeoneHasWork(p);
      step := WorkersWorkOff(p, s);
    }
  }

  lemma SomeoneHasWork(p: Pipe) returns (s: Name)
    requires PipeInv(p) && !Idle(p) && p.dispatcher.Ready?
    ensures WorkersInv(p) && Backlog(p, s) > 0
  {
    s :| s in p.workers && !(p.workers[s].queue == [] && p.workers[s].task.Waiting?);
  }

  /** From a state to one at rest. */
  ghost predicate Drains(p: Pipe, states: seq<Pipe>, steps: seq<Action>) {
    && |states| == |steps| + 1 && states[0] == p && Idle(states[|steps|])
    && forall i :: 0 <= i < |steps| ==> !IsInput(steps[i]) && Stepped(states[i], steps[i], states[i + 1])
  }

  lemma {:induction false} CanDrain(p: Pipe) returns (states: seq<Pipe>, steps: seq<Action>)
    requires PipeInv(p)
    ensures Drains(p, states, steps) && |steps| <= Work(p)
    decreases Work(p)
  {
    hide PipeInv, Enabled, Apply, Work, Idle;
    if Idle(p) {
      states, steps := [p], [];
    } else {
      var step := NextStep(p);
      var q := Apply(p, step);
      StepKeeps(p, step);
      var later, more := CanDrain(q);
      states, steps := [p] + later, [step] + more;
      assert Stepped(p, step, q);
      forall i | 0 <= i < |steps| ensures !IsInput(steps[i]) && Stepped(states[i], steps[i], states[i + 1]) {
        if i > 0 { assert Stepped(later[i - 1], more[i - 1], later[i]); }
      }
    }
  }

  /**
   Every run can be brought to rest without another line of input, in no more steps than the backlogs
   and the line in hand allow; and then every query ever accepted has had exactly one terminal event.
   */
  lemma EveryRunComesToRest(states: seq<Pipe>, steps: seq<Action>) returns (later: seq<Pipe>, more: seq<Action>)
    requires IsRun(states, steps)
    ensures var p := states[|steps|];
            && Drains(p, later, more) && |more| <= Work(p)
            && IsRun(states[..|steps|] + later, steps + more)
            && forall k :: 0 <= k < |later[|more|].subs| ==> TerminalsOf(later[|more|].events, k) == 1
  {
    hide PipeInv, Enabled, Apply, Work, Idle;
    var n := |steps|;
    AlwaysHolds(states, steps, n);
    later, more := CanDrain(states[n]);
    var all, path := states[..n] + later, steps + more;
    forall i | 0 <= i < |path| ensures Stepped(all[i], path[i], all[i + 1]) {
      if i < n {
        assert Stepped(states[i], steps[i], states[i + 1]);
        assert all[i + 1] == states[i + 1];
      } else {
        assert Stepped(later[i - n], more[i - n], later[i - n + 1]);
      }
    }
    assert all[0] == states[0];
    assert IsRun(all, path);
    assert all[|path|] == later[|more|];
    forall k | 0 <= k < |later[|more|].subs| ensures TerminalsOf(later[|more|].events, k) == 1 {
      EveryQueryIsAnswered(all, path, |path|, k);
    }
  }
}
