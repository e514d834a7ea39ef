/**
 What the lines of a run ask of a session, and what its database is asked to do: the same, in the same
 order.
 */
module SystemRequests {
  import opened Wrappers
  import opened Config
  import opened Executor
  import opened Pipe
  import opened PipeInvariants
  import opened PipeOutcomes
  import opened PipeEndpoints
  import opened PipeRuns
  import opened PipeRequests
  import opened SystemOutcomes
  import T = Transactions
  import Y = SystemRuns

  /** What is asked of a session besides queries. */
  datatype Control = Begins(readOnly: bool, config: SessionConfig) | Commits | RollsBack | Forgets

  function ControlsOf(op: SessionOp): seq<Control> {
    match op
    case BeginOp(readOnly, config) => [Begins(readOnly, config)]
    case FinishOp(commit) => if commit then [Commits] else [RollsBack]
    case InvalidateOp(_) => [Forgets]
    case _ => []
  }

  function Controls(ops: seq<SessionOp>): seq<Control> {
    if ops == [] then [] else Controls(ops[..|ops| - 1]) + ControlsOf(ops[|ops| - 1])
  }

  function DoneBy(op: T.Op): seq<Control> {
    match op
    case BeginTx(readOnly, config, _) => [Begins(readOnly, config)]
    case CommitTx(_) => [Commits]
    case RollbackTx(_) => [RollsBack]
    case Invalidate => [Forgets]
    case _ => []
  }

  function ControlsDone(history: seq<T.Op>): seq<Control> {
    if history == [] then [] else ControlsDone(history[..|history| - 1]) + DoneBy(history[|history| - 1])
  }

  lemma OneMoreControl(ops: seq<SessionOp>, op: SessionOp)
    ensures Controls(ops + [op]) == Controls(ops) + ControlsOf(op)
  {
    assert (ops + [op])[..|ops|] == ops;
  }

  lemma OneMoreDone(history: seq<T.Op>, op: T.Op)
    ensures ControlsDone(history + [op]) == ControlsDone(history) + DoneBy(op)
  {
    assert (history + [op])[..|history|] == history;
  }

  /** What the lines up to state `i` have put in the queue of session `s`. */
  ghost function AskedUpTo(states: seq<Y.System>, moves: seq<Y.Move>, i: nat, s: Name): seq<SessionOp>
    requires i <= |moves| && i < |states|
  {
    if i == 0 then []
    else AskedUpTo(states, moves, i - 1, s) + (if moves[i - 1].PipeMove? then Asked(states[i - 1].pipe, moves[i - 1].action, s) else [])
  }

  /**
   Of the first `n` lines everything has been done and of the others nothing, and each query was run when
   exactly what was asked before it had been done.
   */
  ghost predicate DoneUpTo(sys: Y.System, lines: seq<SessionOp>, s: Name, n: nat) {
    && n <= |lines| && lines[n..] == PendingOf(sys.pipe, s)
    && ControlsDone(Y.HistoryOf(sys, s)) == Controls(lines[..n])
    && forall k :: k in sys.ran && sys.ran[k].session == s ==> RunInTurn(lines[..n], Y.HistoryOf(sys, s), sys.ran[k].at, k)
  }

  ghost predicate RunInTurn(lines: seq<SessionOp>, history: seq<T.Op>, at: nat, k: nat) {
    at <= |history| && exists m :: 0 <= m < |lines| && RunAfter(lines, history, at, k, m)
  }

  ghost predicate RunAfter(lines: seq<SessionOp>, history: seq<T.Op>, at: nat, k: nat, m: nat)
    requires m < |lines| && at <= |history|
  {
    lines[m] == QueryOp(k) && ControlsDone(history[..at]) == Controls(lines[..m])
  }

  lemma StillInTurn(lines: seq<SessionOp>, history: seq<T.Op>, at: nat, k: nat, longer: seq<SessionOp>, more: seq<T.Op>)
    requires RunInTurn(lines, history, at, k) && lines <= longer && history <= more
    ensures RunInTurn(longer, more, at, k)
  {
    var m :| 0 <= m < |lines| && RunAfter(lines, history, at, k, m);
    assert longer[..m] == lines[..m] && more[..at] == history[..at] && RunAfter(longer, more, at, k, m);
  }

  /** The session is asked nothing and does nothing. */
  lemma NothingDone(sys: Y.System, next: Y.System, lines: seq<SessionOp>, more: seq<SessionOp>, s: Name, n: nat, m: nat)
    requires DoneUpTo(sys, lines, s, n) && n <= m <= |lines|
    requires PendingOf(next.pipe, s) == lines[m..] + more
    requires Y.HistoryOf(sys, s) <= Y.HistoryOf(next, s)
    requires ControlsDone(Y.HistoryOf(next, s)) == ControlsDone(Y.HistoryOf(sys, s)) + Controls(lines[n..m])
    requires forall k :: k in next.ran && next.ran[k].session == s ==>
               || (k in sys.ran && next.ran[k] == sys.ran[k])
               || (m == n + 1 && lines[n] == QueryOp(k) && next.ran[k].at == |Y.HistoryOf(sys, s)|)
    ensures DoneUpTo(next, lines + more, s, m)
  {
    hide Controls, ControlsDone, Y.HistoryOf, PendingOf, RunInTurn;
    var all, h, h' := lines + more, Y.HistoryOf(sys, s), Y.HistoryOf(next, s);
    assert all[m..] == lines[m..] + more && all[..m] == lines[..n] + lines[n..m];
    ControlsConcat(lines[..n], lines[n..m]);
    forall k | k in next.ran && next.ran[k].session == s ensures RunInTurn(all[..m], h', next.ran[k].at, k) {
      if k in sys.ran && next.ran[k] == sys.ran[k] {
        assert lines[..n] <= all[..m];
        StillInTurn(lines[..n], h, sys.ran[k].at, k, all[..m], h');
      } else {
        assert all[..m][n] == lines[n] && all[..m][..n] == lines[..n] && h'[..|h|] == h;
        JustInTurn(all[..m], h', |h|, k, n);
      }
    }
  }

  lemma JustInTurn(lines: seq<SessionOp>, history: seq<T.Op>, at: nat, k: nat, n: nat)
    requires n < |lines| && lines[n] == QueryOp(k) && at <= |history| && ControlsDone(history[..at]) == Controls(lines[..n])
    ensures RunInTurn(lines, history, at, k)
  {
    assert RunAfter(lines, history, at, k, n);
  }

  lemma {:induction false} ControlsConcat(a: seq<SessionOp>, b: seq<SessionOp>)
    ensures Controls(a + b) == Controls(a) + Controls(b)
    decreases |b|
  {
    hide ControlsOf;
    if b == [] {
      assert a + b == a;
    } else {
      var before, last := b[..|b| - 1], b[|b| - 1];
      assert a + b == a + before + [last] && b == before + [last];
      OneMoreControl(a + before, last);
      OneMoreControl(before, last);
      ControlsConcat(a, before);
      hide Controls;
      assert Controls(a) + Controls(before) + ControlsOf(last) == Controls(a) + (Controls(before) + ControlsOf(last));
    }
  }

  lemma OneControl(lines: seq<SessionOp>, n: nat)
    requires n < |lines|
    ensures Controls(lines[n..n + 1]) == ControlsOf(lines[n])
  {
    assert lines[n..n + 1] == [] + [lines[n]];
    OneMoreControl([], lines[n]);
  }

  lemma ActionsWorkOff(sys: Y.System, m: Y.Move, s: Name)
    requires Y.ValidHistories(sys) && Y.CanMove(sys, m) && (m.QueryMove? || m.ControlMove?)
    requires Enabled(sys.pipe, Y.ActionOf(sys, m).value)
    ensures var step := Y.ActionOf(sys, m).value;
            && (Disposes(sys.pipe, step, s) <==> s == m.session)
            && Asked(sys.pipe, step, s) == []
            && PendingOf(sys.pipe, m.session) != [] && PendingOf(sys.pipe, m.session)[0] == sys.pipe.workers[m.session].task.op
  {
    hide T.Do, T.Play, RefusedEarly, ResultOf, Y.LinkOf, Y.Permitted, Enabled;
  }

  /** A call does to the session what the operation in hand asks for. */
  lemma CallsDoAsAsked(sys: Y.System, m: Y.Move)
    requires Y.CanMove(sys, m) && (m.QueryMove? || m.ControlMove?)
    ensures m.session in sys.pipe.workers && sys.pipe.workers[m.session].task.Busy?
    ensures ControlsOf(sys.pipe.workers[m.session].task.op) == if Y.SessionOpOf(sys, m).Some? then DoneBy(Y.SessionOpOf(sys, m).value) else []
    ensures m.QueryMove? ==> sys.pipe.workers[m.session].task.op.QueryOp?
  {
    hide RefusedEarly, Y.Permitted;
  }

  /**
   What a move makes of session `s`: `more` has been asked of it, and it may have done with its front
   operation, which then is in its history if it is a control, and placed there if it is a query that ran.
   */
  ghost predicate Works(sys: Y.System, next: Y.System, s: Name, more: seq<SessionOp>, disposed: bool) {
    var pending, h := PendingOf(sys.pipe, s), Y.HistoryOf(sys, s);
    && (disposed ==> pending != [])
    && PendingOf(next.pipe, s) == (if disposed then pending[1..] else pending) + more
    && h <= Y.HistoryOf(next, s)
    && ControlsDone(Y.HistoryOf(next, s)) == ControlsDone(h) + (if disposed then ControlsOf(pending[0]) else [])
    && forall k :: k in next.ran && next.ran[k].session == s ==>
         (k in sys.ran && next.ran[k] == sys.ran[k]) || (disposed && pending[0] == QueryOp(k) && next.ran[k].at == |h|)
  }

  lemma PipeMoveWorks(sys: Y.System, m: Y.Move, next: Y.System, s: Name)
    requires Y.SystemInv(sys) && Y.MovedTo(sys, m, next) && m.PipeMove?
    ensures Works(sys, next, s, Asked(sys.pipe, m.action, s), Disposes(sys.pipe, m.action, s))
  {
    hide Asked, Apply, Y.ActionOf, Y.SessionOpOf, Disposes, PipeInv, Enabled, Y.ValidHistories, Y.HistoryOf, Y.HistoryAfter, Controls, ControlsDone, PendingOf;
    HistoryGrows(sys, m, next, s);
    Y.MovesAreSteps(sys, m);
    Y.PipeMovesAct(sys, m);
    StepPends(sys.pipe, m.action, s);
    PassedOverIsAQuery(sys.pipe, m.action, s);
    var h := Y.HistoryOf(sys, s);
    assert h + [] == h && ControlsDone(h) + [] == ControlsDone(h);
  }

  lemma LossMoveWorks(sys: Y.System, m: Y.Move, next: Y.System, s: Name)
    requires Y.SystemInv(sys) && Y.MovedTo(sys, m, next) && m.LossMove?
    ensures Works(sys, next, s, [], false)
  {
    HistoryGrows(sys, m, next, s);
    OneMoreDone(Y.HistoryOf(sys, s), T.LoseConnection);
    hide PipeInv, Y.ValidHistories, Y.HistoryOf, ControlsDone, PendingOf;
  }

  lemma CallWorks(sys: Y.System, m: Y.Move, next: Y.System, s: Name)
    requires Y.SystemInv(sys) && Y.MovedTo(sys, m, next) && (m.QueryMove? || m.ControlMove?)
    ensures Works(sys, next, s, [], s == m.session)
  {
    hide Y.SystemInv, Y.MovedTo, Y.SessionOpOf, Y.HistoryOf, Y.RanAfter, ControlsOf, ControlsDone, DoneBy, PendingOf;
    HistoryGrows(sys, m, next, s);
    CallPends(sys, m, next, s);
    CallPlaces(sys, m, s);
    MovedCan(sys, m, next);
    CallsDoAsAsked(sys, m);
    var h := Y.HistoryOf(sys, s);
    assert h + [] == h && ControlsDone(h) + [] == ControlsDone(h);
    if Y.SessionOpOf(sys, m).Some? { OneMoreDone(h, Y.SessionOpOf(sys, m).value); }
  }

  lemma MovedCan(sys: Y.System, m: Y.Move, next: Y.System)
    requires Y.MovedTo(sys, m, next)
    ensures Y.CanMove(sys, m)
  {
  }

  lemma CallPlaces(sys: Y.System, m: Y.Move, s: Name)
    requires m.QueryMove? || m.ControlMove?
    ensures forall k :: k in Y.RanAfter(sys, m) && Y.RanAfter(sys, m)[k].session == s ==>
              || (k in sys.ran && Y.RanAfter(sys, m)[k] == sys.ran[k])
              || (&& s == m.session && m.session in sys.pipe.workers && sys.pipe.workers[m.session].task == Busy(QueryOp(k))
                  && Y.RanAfter(sys, m)[k].at == |Y.HistoryOf(sys, s)|)
  {
    hide Y.SessionOpOf, Y.HistoryOf;
  }

  lemma CallPends(sys: Y.System, m: Y.Move, next: Y.System, s: Name)
    requires Y.SystemInv(sys) && Y.MovedTo(sys, m, next) && (m.QueryMove? || m.ControlMove?)
    ensures m.session in sys.pipe.workers && sys.pipe.workers[m.session].task.Busy?
    ensures PendingOf(sys.pipe, m.session) != [] && PendingOf(sys.pipe, m.session)[0] == sys.pipe.workers[m.session].task.op
    ensures PendingOf(next.pipe, s) == if s == m.session then PendingOf(sys.pipe, s)[1..] else PendingOf(sys.pipe, s)
  {
    Y.MovesAreSteps(sys, m);
    ActionsWorkOff(sys, m, s);
    CallsDoAsAsked(sys, m);
    StepPends(sys.pipe, Y.ActionOf(sys, m).value, s);
    hide Asked, Apply, Enabled, Y.ActionOf, Y.HistoryAfter, Y.RanAfter, Disposes, PipeInv, Y.ValidHistories, Y.CanMove, PendingOf;
  }

  lemma PassedOverIsAQuery(p: Pipe, step: Action, s: Name)
    requires Enabled(p, step) && !step.DoRunQuery? && !step.DoRunControl?
    ensures Disposes(p, step, s) ==> PendingOf(p, s) != [] && PendingOf(p, s)[0].QueryOp?
  {
  }

  lemma HistoryGrows(sys: Y.System, m: Y.Move, next: Y.System, s: Name)
    requires Y.MovedTo(sys, m, next)
    ensures var op := Y.SessionOpOf(sys, m);
            Y.HistoryOf(next, s) == Y.HistoryOf(sys, s) + (if !m.PipeMove? && op.Some? && s == m.session then [op.value] else [])
    ensures next.ran == Y.RanAfter(sys, m)
  {
    hide Apply, Y.ActionOf, Y.SessionOpOf, Y.CanMove;
    Y.PipeMovesKeepSessions(sys, m);
  }

  lemma TurnKept(sys: Y.System, next: Y.System, lines: seq<SessionOp>, more: seq<SessionOp>, s: Name, n: nat, disposed: bool)
    requires DoneUpTo(sys, lines, s, n) && Works(sys, next, s, more, disposed)
    ensures DoneUpTo(next, lines + more, s, if disposed then n + 1 else n)
  {
    var m := if disposed then n + 1 else n;
    if disposed {
      assert lines[n..][1..] == lines[n + 1..] && lines[n..][0] == lines[n];
      OneControl(lines, n);
    } else {
      assert lines[n..n] == [];
    }
    hide DoneUpTo, RunInTurn, Controls, ControlsOf, ControlsDone, Y.HistoryOf, PendingOf;
    NothingDone(sys, next, lines, more, s, n, m);
  }

  lemma MoveWorks(sys: Y.System, m: Y.Move, next: Y.System, s: Name) returns (disposed: bool)
    requires Y.SystemInv(sys) && Y.MovedTo(sys, m, next)
    ensures Works(sys, next, s, if m.PipeMove? then Asked(sys.pipe, m.action, s) else [], disposed)
  {
    hide Y.SystemInv, Y.MovedTo, Works;
    if m.PipeMove? {
      PipeMoveWorks(sys, m, next, s);
      disposed := Disposes(sys.pipe, m.action, s);
    } else if m.LossMove? {
      LossMoveWorks(sys, m, next, s);
      disposed := false;
    } else {
      CallWorks(sys, m, next, s);
      disposed := s == m.session;
    }
  }

  /**
   In every run of the whole system and for every session: what its database has been asked besides
   queries are exactly the first of the begins, commits, rollbacks and invalidations that the lines asked
   of it, each as what it was, in the order they were accepted; the others are still in its queue or its
   worker's hands; and each query was run between the same two of them that it was accepted between.
   */
  lemma {:induction false} SessionsDoAsAsked(states: seq<Y.System>, moves: seq<Y.Move>, i: nat, s: Name) returns (n: nat)
    requires Y.IsSystemRun(states, moves) && i < |states|
    ensures DoneUpTo(states[i], AskedUpTo(states, moves, i, s), s, n)
    decreases i
  {
    hide Y.SystemInv, Y.ValidHistories, Y.CanMove, Y.AfterMove, DoneUpTo, Asked, Works;
    if i == 0 {
      n := 0;
      NothingAsked(states[0], s);
    } else {
      n := SessionsDoAsAsked(states, moves, i - 1, s);
      Y.SystemAlwaysHolds(states, moves, i - 1);
      assert Y.MovedTo(states[i - 1], moves[i - 1], states[i]);
      var disposed := MoveWorks(states[i - 1], moves[i - 1], states[i], s);
      var more := if moves[i - 1].PipeMove? then Asked(states[i - 1].pipe, moves[i - 1].action, s) else [];
      TurnKept(states[i - 1], states[i], AskedUpTo(states, moves, i - 1, s), more, s, n, disposed);
      n := if disposed then n + 1 else n;
    }
  }

  lemma NothingAsked(sys: Y.System, s: Name)
    requires sys.history == map[] && sys.ran == map[] && sys.pipe.workers == map[]
    ensures DoneUpTo(sys, [], s, 0)
  {
  }

  /** A line accepted before state `i` has asked session `s` to finish its transaction in this way. */
  ghost predicate FinishWasAsked(states: seq<Y.System>, moves: seq<Y.Move>, i: nat, s: Name, commit: bool)
    requires i <= |moves| && i < |states|
  {
    exists m :: 0 <= m < i && AsksToFinish(states[m].pipe, moves[m], s, commit)
  }

  ghost predicate AsksToFinish(p: Pipe, m: Y.Move, s: Name, commit: bool) {
    m.PipeMove? && m.action.DoTxEnd? && m.action.commit == commit && ResolveName(p.config, m.action.requested) == s
  }

  /** A database is told to commit only because a commit line was accepted for its session, and to roll back likewise. */
  lemma CommitsWereAsked(states: seq<Y.System>, moves: seq<Y.Move>, i: nat, s: Name, j: nat)
    requires Y.IsSystemRun(states, moves) && i < |states| && j < |Y.HistoryOf(states[i], s)|
    ensures Y.HistoryOf(states[i], s)[j].CommitTx? ==> FinishWasAsked(states, moves, i, s, true)
    ensures Y.HistoryOf(states[i], s)[j].RollbackTx? ==> FinishWasAsked(states, moves, i, s, false)
  {
    hide Y.MovedTo, Y.SystemInv, Y.ValidHistories, Asked, FinishWasAsked, ControlsOf, ControlsDone, Controls, AskedUpTo, Y.HistoryOf;
    var n := SessionsDoAsAsked(states, moves, i, s);
    var h := Y.HistoryOf(states[i], s);
    DoneIsThere(h, j);
    if h[j].CommitTx? || h[j].RollbackTx? {
      ControlHasItsLine(states, moves, i, s, n, h[j].CommitTx?);
    }
  }

  lemma ControlHasItsLine(states: seq<Y.System>, moves: seq<Y.Move>, i: nat, s: Name, n: nat, commit: bool)
    requires i <= |moves| && i < |states| && n <= |AskedUpTo(states, moves, i, s)|
    requires (if commit then Commits else RollsBack) in Controls(AskedUpTo(states, moves, i, s)[..n])
    ensures FinishWasAsked(states, moves, i, s, commit)
  {
    hide Asked, AskedUpTo, Controls;
    var lines := AskedUpTo(states, moves, i, s);
    var at := ControlWasAsked(lines[..n], if commit then Commits else RollsBack);
    assert lines[..n][at] == lines[at] == FinishOp(commit);
    var m := AskedByALine(states, moves, i, s, at);
    AskedToFinish(states[m].pipe, moves[m].action, s, lines[at]);
    assert AsksToFinish(states[m].pipe, moves[m], s, commit);
  }

  lemma {:induction false} DoneIsThere(h: seq<T.Op>, j: nat)
    requires j < |h|
    ensures forall c :: c in DoneBy(h[j]) ==> c in ControlsDone(h)
  {
    if j < |h| - 1 { DoneIsThere(h[..|h| - 1], j); }
  }

  lemma {:induction false} ControlWasAsked(lines: seq<SessionOp>, c: Control) returns (at: nat)
    requires c in Controls(lines)
    ensures at < |lines| && c in ControlsOf(lines[at])
  {
    if c in ControlsOf(lines[|lines| - 1]) { at := |lines| - 1; } else { at := ControlWasAsked(lines[..|lines| - 1], c); }
  }

  lemma {:induction false} AskedByALine(states: seq<Y.System>, moves: seq<Y.Move>, i: nat, s: Name, at: nat) returns (m: nat)
    requires i <= |moves| && i < |states| && at < |AskedUpTo(states, moves, i, s)|
    ensures m < i && moves[m].PipeMove? && AskedUpTo(states, moves, i, s)[at] in Asked(states[m].pipe, moves[m].action, s)
    decreases i
  {
    hide Asked;
    if at < |AskedUpTo(states, moves, i - 1, s)| { m := AskedByALine(states, moves, i - 1, s, at); } else { m := i - 1; }
  }

  lemma AskedToFinish(p: Pipe, step: Action, s: Name, op: SessionOp)
    requires op in Asked(p, step, s) && op.FinishOp?
    ensures step.DoTxEnd? && step.commit == op.commit && ResolveName(p.config, step.requested) == s
  {
    hide HasRoom, MayBegin, MaySubmit;
  }
}
