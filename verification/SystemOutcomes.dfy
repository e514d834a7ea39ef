/**
 What the events of the pipe say about the databases behind its sessions: each answer to a query,
 traced back to the one call that ran it, or to none.
 */
module SystemOutcomes {
  import opened Wrappers
  import opened Config
  import opened Postgres
  import opened Executor
  import opened Pipe
  import opened PipeInvariants
  import opened PipeOutcomes
  import opened PipeEndpoints
  import opened PipeRuns
  import S = Session
  import T = Transactions
  import Y = SystemRuns

  /** The result that the query run as operation `at` of a history came to. */
  ghost function ResultIn(ops: seq<T.Op>, at: nat): ExecResult
    requires T.ValidOps(ops) && at < |ops| && ops[at].RunQuery?
  {
    var before := T.Play(T.START, ops[..at]).session;
    var (after, r) := S.Query(before, ops[at].req, ops[at].cancelled, ops[at].env);
    ResultOf(before, after, r)
  }

  /** A query that was run stands in its session's history, and will not be run again. */
  ghost predicate RanOk(sys: Y.System, k: nat) {
    k in sys.ran ==>
      var place, subs := sys.ran[k], sys.pipe.subs;
      && k < |subs| && subs[k].phase in {Running, Finished} && subs[k].session == place.session
      && TaskOf(sys.pipe, place.session) != Busy(QueryOp(k))
      && place.at < |Y.HistoryOf(sys, place.session)| && Y.HistoryOf(sys, place.session)[place.at].RunQuery?
  }

  ghost function ResultAt(sys: Y.System, k: nat): ExecResult
    requires Y.ValidHistories(sys) && k in sys.ran && RanOk(sys, k)
  {
    ResultIn(Y.HistoryOf(sys, sys.ran[k].session), sys.ran[k].at)
  }

  /** The result a worker holds is the one its query came to. */
  ghost predicate HeldOk(sys: Y.System, s: Name)
    requires Y.ValidHistories(sys)
  {
    var task := TaskOf(sys.pipe, s);
    task.Answered? ==> task.k in sys.ran && RanOk(sys, task.k) && task.result == ResultAt(sys, task.k)
  }

  predicate Settled(e: Event, r: ExecResult) {
    e.Terminal? && e.effect == r.effect && (e.verdict == SettleCancel(r, true) || e.verdict == SettleCancel(r, false))
  }

  /** The answer to a query that never ran. */
  predicate NeverRan(e: Event) {
    e.Terminal? && !e.effect && (e.verdict == WasCancelled || e.verdict == Failed(InvalidRequest))
  }

  ghost predicate ToldOk(sys: Y.System, e: Event)
    requires Y.ValidHistories(sys)
  {
    e.Terminal? ==>
      if e.k in sys.ran then RanOk(sys, e.k) && Settled(e, ResultAt(sys, e.k)) else NeverRan(e)
  }

  ghost predicate TiesInv(sys: Y.System) {
    && Y.ValidHistories(sys)
    && (forall k: nat :: RanOk(sys, k))
    && (forall s: Name :: HeldOk(sys, s))
    && (forall i :: 0 <= i < |sys.pipe.events| ==> ToldOk(sys, sys.pipe.events[i]))
  }

  /** No worker comes to hold a result, and a query comes into its hands only from its queue. */
  ghost predicate HandsFollow(p: Pipe, q: Pipe) {
    forall s: Name :: TaskOf(q, s) != TaskOf(p, s) ==>
      && !TaskOf(q, s).Answered?
      && (TaskOf(q, s).Busy? && TaskOf(q, s).op.QueryOp? ==> TaskOf(q, s).op.k < |p.subs| && p.subs[TaskOf(q, s).op.k].phase == Queued)
  }

  /** A terminal event settles a result that is held, or speaks for a query that was cancelled in its queue or refused in hand. */
  ghost predicate NewsFrom(p: Pipe, e: Event) {
    e.Terminal? ==>
      || (exists s :: TaskOf(p, s).Answered? && TaskOf(p, s).k == e.k && Settled(e, TaskOf(p, s).result))
      || (NeverRan(e) && e.k < |p.subs| && (p.subs[e.k].phase == CancelledPhase || TaskOf(p, p.subs[e.k].session) == Busy(QueryOp(e.k))))
  }

  ghost predicate NewsFollow(p: Pipe, q: Pipe) {
    q.events == p.events || (|q.events| == |p.events| + 1 && q.events[..|p.events|] == p.events && NewsFrom(p, q.events[|p.events|]))
  }

  /** Whether this step of the pipe hands a query to the executor. */
  predicate Executes(p: Pipe, step: Action) {
    step.DoRunQuery? && Y.HoldsQuery(p, step.session) && !RefusedEarly(p, Y.SubInHand(p, step.session), step.policyAllows)
  }

  lemma TakeNews(p: Pipe, s: Name)
    requires Enabled(p, DoTake(s))
    ensures HandsFollow(p, Apply(p, DoTake(s))) && NewsFollow(p, Apply(p, DoTake(s)))
  {
    var op := p.workers[s].queue[0];
    if op.QueryOp? { if p.subs[op.k].phase == Queued {} else {} }
  }

  lemma EmittedNews(p: Pipe, s: Name)
    requires Enabled(p, DoEmit(s))
    ensures HandsFollow(p, Apply(p, DoEmit(s))) && NewsFollow(p, Apply(p, DoEmit(s)))
  {
    hide SettleCancel;
    var task := p.workers[s].task;
    var e := Terminal(task.k, SettleCancel(task.result, p.subs[task.k].cancelRequested), task.result.effect);
    assert Settled(e, task.result) by { if p.subs[task.k].cancelRequested {} else {} }
    assert TaskOf(p, s) == task;
    assert NewsFrom(p, e);
  }

  lemma CancelNews(p: Pipe, step: Action)
    requires DispatcherOk(p) && Enabled(p, step) && !IsQuiet(p, step) && (step.DoCancelStart? || step.DoCancelClaim?)
    ensures HandsFollow(p, Apply(p, step)) && NewsFollow(p, Apply(p, step))
  {
  }

  lemma QuietNews(p: Pipe, q: Pipe)
    requires Quiet(p, q)
    ensures HandsFollow(p, q) && NewsFollow(p, q)
  {
  }

  lemma RefusedNews(p: Pipe, step: Action)
    requires WorkersInv(p) && Enabled(p, step) && step.DoRunQuery? && !Executes(p, step)
    ensures HandsFollow(p, Apply(p, step)) && NewsFollow(p, Apply(p, step))
  {
    hide RefusedEarly, Apply;
    RunQueryFrame(p, step);
    assert WorkerInv(p.subs, step.session, p.workers[step.session]);
  }

  lemma FinishedNews(p: Pipe, step: Action)
    requires Enabled(p, step) && (step.DoFinish? || step.DoRunControl?)
    ensures HandsFollow(p, Apply(p, step)) && NewsFollow(p, Apply(p, step))
  {
    hide RunControl, NewsFrom;
    if step.DoRunControl? {
      RunControlFrame(p, step);
    }
  }

  /** Every step but an execution brings no result and tells nothing new of a query that ran. */
  lemma StepNews(p: Pipe, step: Action)
    requires PipeInv(p) && Enabled(p, step) && !Executes(p, step)
    ensures HandsFollow(p, Apply(p, step)) && NewsFollow(p, Apply(p, step))
  {
    hide OutcomesInv, CallsInv, EndpointsInv, PatchInv, Located, EntryOk, PlaceOk, TableOk, WorkersInv, Quiet, HandsFollow, NewsFollow, Apply, DispatcherOk, Executes, Enabled;
    if step.DoTake? {
      TakeNews(p, step.session);
    } else if step.DoEmit? {
      EmittedNews(p, step.session);
    } else if step.DoRunQuery? {
      RefusedNews(p, step);
    } else if step.DoFinish? || step.DoRunControl? {
      FinishedNews(p, step);
    } else if IsQuiet(p, step) {
      QuietSteps(p, step);
      QuietNews(p, Apply(p, step));
    } else {
      CancelNews(p, step);
    }
  }

  /** Histories only grow, at their end. */
  ghost predicate Longer(sys: Y.System, next: Y.System) {
    forall s: Name :: Y.HistoryOf(sys, s) <= Y.HistoryOf(next, s)
  }

  lemma ResultStays(ops: seq<T.Op>, longer: seq<T.Op>, at: nat)
    requires T.ValidOps(longer) && ops <= longer && at < |ops| && ops[at].RunQuery?
    ensures T.ValidOps(ops) && longer[at].RunQuery? && ResultIn(longer, at) == ResultIn(ops, at)
  {
    hide S.Query, T.Play, ResultOf;
    assert longer[..at] == ops[..at];
  }

  /** What is tied to a call stays tied to it as long as that call is not forgotten. */
  lemma TieStays(sys: Y.System, next: Y.System, k: nat)
    requires RanOk(sys, k) && k in sys.ran && k in next.ran && next.ran[k] == sys.ran[k]
    requires Longer(sys, next) && Y.ValidHistories(sys) && Y.ValidHistories(next)
    requires SubsForward(sys.pipe, next.pipe)
    requires TaskOf(next.pipe, sys.ran[k].session) != Busy(QueryOp(k))
    ensures RanOk(next, k) && ResultAt(next, k) == ResultAt(sys, k)
  {
    hide ResultIn;
    var s := sys.ran[k].session;
    assert Y.HistoryOf(sys, s) <= Y.HistoryOf(next, s);
    ResultStays(Y.HistoryOf(sys, s), Y.HistoryOf(next, s), sys.ran[k].at);
  }

  /** A step that executes nothing leaves every tie as it is, and ties what it tells. */
  lemma TiesStay(sys: Y.System, next: Y.System)
    requires TiesInv(sys) && Y.ValidHistories(next) && Longer(sys, next) && next.ran == sys.ran
    requires SubsForward(sys.pipe, next.pipe) && HandsFollow(sys.pipe, next.pipe) && NewsFollow(sys.pipe, next.pipe)
    ensures TiesInv(next)
  {
    hide ResultAt, Settled, SubsForward, Y.HistoryOf, Y.ValidHistories;
    var p, q := sys.pipe, next.pipe;
    forall k: nat ensures RanOk(next, k) && (k in sys.ran ==> ResultAt(next, k) == ResultAt(sys, k)) {
      assert RanOk(sys, k);
      if k in sys.ran { TieStays(sys, next, k); }
    }
    forall s: Name ensures HeldOk(next, s) {
      assert HeldOk(sys, s);
    }
    forall i | 0 <= i < |q.events| ensures ToldOk(next, q.events[i]) {
      if i < |p.events| {
        assert q.events[i] == p.events[i] by { if q.events != p.events { assert q.events[..|p.events|] == p.events; } }
        assert ToldOk(sys, p.events[i]);
      } else {
        NewsIsTold(sys, q.events[i]);
      }
    }
  }

  lemma NewsIsTold(sys: Y.System, e: Event)
    requires TiesInv(sys) && NewsFrom(sys.pipe, e)
    ensures ToldOk(sys, e)
  {
    hide ResultAt, Settled;
    if e.Terminal? {
      assert RanOk(sys, e.k);
      if s :| TaskOf(sys.pipe, s).Answered? && TaskOf(sys.pipe, s).k == e.k && Settled(e, TaskOf(sys.pipe, s).result) {
        assert HeldOk(sys, s);
      }
    }
  }

  lemma NoneSaid(events: seq<Event>, k: nat, i: nat)
    requires TerminalsOf(events, k) == 0 && i < |events|
    ensures !(events[i].Terminal? && events[i].k == k)
  {
    if i < |events| - 1 {
      NoneSaid(events[..|events| - 1], k, i);
    }
  }

  /** Whether the move hands query `k` to its session. */
  ghost predicate Runs(sys: Y.System, m: Y.Move, k: nat) {
    m.QueryMove? && Y.HoldsQuery(sys.pipe, m.session) && sys.pipe.workers[m.session].task.op.k == k && Y.SessionOpOf(sys, m).Some?
  }

  /** The query in hand is that session's, it has never been run, and nothing has been said of it. */
  lemma InHandIsNew(sys: Y.System, m: Y.Move, k: nat)
    requires PipeInv(sys.pipe) && TiesInv(sys) && Runs(sys, m, k)
    ensures k < |sys.pipe.subs| && sys.pipe.subs[k].session == m.session && sys.pipe.subs[k].phase == Running
    ensures IsNew(sys, k)
  {
    hide TableInv, PatchInv, CallsInv, EndpointsInv, HeldOk, ToldOk, Y.HistoryOf, Y.SessionOpOf;
    WorkerHolds(sys.pipe, m.session);
    assert OutcomeOk(sys.pipe, k) && RanOk(sys, k);
    forall i | 0 <= i < |sys.pipe.events| ensures !(sys.pipe.events[i].Terminal? && sys.pipe.events[i].k == k) {
      NoneSaid(sys.pipe.events, k, i);
    }
  }

  /** A move only adds to the histories. */
  lemma HistoriesLast(sys: Y.System, m: Y.Move, next: Y.System)
    requires Y.MovedTo(sys, m, next)
    ensures Longer(sys, next)
    ensures Y.SessionOpOf(sys, m).Some? ==> Y.HistoryOf(next, m.session) == Y.HistoryOf(sys, m.session) + [Y.SessionOpOf(sys, m).value]
  {
    hide Apply, Y.ActionOf, Y.SessionOpOf, Y.CanMove;
    Y.PipeMovesKeepSessions(sys, m);
  }

  /** What an execution does: the query is placed at the end of its session's history, and the worker holds the result. */
  ghost predicate IsExecution(sys: Y.System, next: Y.System, s: Name, k: nat) {
    var at, ops := |Y.HistoryOf(sys, s)|, Y.HistoryOf(next, s);
    && next.ran == sys.ran[k := Y.Place(s, at)]
    && at < |ops| && ops[at].RunQuery? && T.ValidOps(ops)
    && next.pipe.subs == sys.pipe.subs && next.pipe.events == sys.pipe.events
    && TaskOf(next.pipe, s) == Answered(k, ResultIn(ops, at))
    && forall t: Name :: t != s ==> TaskOf(next.pipe, t) == TaskOf(sys.pipe, t)
  }

  lemma ExecutionShape(sys: Y.System, m: Y.Move, next: Y.System, k: nat)
    requires Y.MovedTo(sys, m, next) && Runs(sys, m, k)
    ensures IsExecution(sys, next, m.session, k)
  {
    ExecutionResult(sys, m, k);
    ExecutionFrame(sys, m, next, k);
    HistoriesLast(sys, m, next);
    hide Y.MovedTo, Y.ActionOf, Y.SessionOpOf, Y.HistoryOf, ResultIn, T.ValidOp;
  }

  lemma ExecutionFrame(sys: Y.System, m: Y.Move, next: Y.System, k: nat)
    requires Y.MovedTo(sys, m, next) && Runs(sys, m, k)
    requires Y.ActionOf(sys, m).value.DoRunQuery?
    requires var action := Y.ActionOf(sys, m).value; action.session == m.session && action.policyAllows == m.policyAllows
    ensures next.ran == sys.ran[k := Y.Place(m.session, |Y.HistoryOf(sys, m.session)|)]
    ensures next.pipe.subs == sys.pipe.subs && next.pipe.events == sys.pipe.events
    ensures TaskOf(next.pipe, m.session) == Answered(k, Y.ActionOf(sys, m).value.result)
    ensures forall t: Name :: t != m.session ==> TaskOf(next.pipe, t) == TaskOf(sys.pipe, t)
  {
    hide Apply, Enabled, RefusedEarly, Y.ActionOf, Y.Permitted, Y.HistoryAfter, Y.HistoryOf, Y.ValidHistories;
    Y.MovesAreSteps(sys, m);
    RunQueryFrame(sys.pipe, Y.ActionOf(sys, m).value);
  }

  lemma ExecutionResult(sys: Y.System, m: Y.Move, k: nat)
    requires Y.ValidHistories(sys) && Y.CanMove(sys, m) && Runs(sys, m, k)
    ensures var ops, op, action := Y.HistoryOf(sys, m.session), Y.SessionOpOf(sys, m).value, Y.ActionOf(sys, m).value;
            && action.DoRunQuery? && action.session == m.session && action.policyAllows == m.policyAllows
            && op.RunQuery? && T.ValidOps(ops + [op])
            && action.result == ResultIn(ops + [op], |ops|)
  {
    hide RefusedEarly, S.Query, T.Play, ResultOf, Y.LinkOf, Y.Permitted;
    var ops := Y.HistoryOf(sys, m.session);
    assert (ops + [Y.SessionOpOf(sys, m).value])[..|ops|] == ops;
  }

  /** The query has not been tied to anything, and nothing has been said of it. */
  ghost predicate IsNew(sys: Y.System, k: nat) {
    && k !in sys.ran
    && forall i :: 0 <= i < |sys.pipe.events| ==> !(sys.pipe.events[i].Terminal? && sys.pipe.events[i].k == k)
  }

  lemma RansGain(sys: Y.System, next: Y.System, s: Name, k: nat, j: nat)
    requires TiesInv(sys) && Longer(sys, next) && Y.ValidHistories(next) && IsExecution(sys, next, s, k) && k !in sys.ran
    requires k < |sys.pipe.subs| && sys.pipe.subs[k].session == s && sys.pipe.subs[k].phase == Running
    ensures RanOk(next, j) && (j in sys.ran ==> RanOk(sys, j) && ResultAt(next, j) == ResultAt(sys, j))
  {
    hide ResultIn, Y.HistoryOf, HeldOk, ToldOk, Y.ValidHistories;
    assert RanOk(sys, j);
    if j in sys.ran { TieStays(sys, next, j); }
  }

  /** An execution ties its query to the operation it has become. */
  lemma TiesGain(sys: Y.System, next: Y.System, s: Name, k: nat)
    requires TiesInv(sys) && Longer(sys, next) && Y.ValidHistories(next) && IsExecution(sys, next, s, k) && IsNew(sys, k)
    requires k < |sys.pipe.subs| && sys.pipe.subs[k].session == s && sys.pipe.subs[k].phase == Running
    ensures TiesInv(next)
  {
    hide Longer, RanOk, ResultIn, Y.HistoryOf, Y.ValidHistories, Settled, NeverRan;
    forall j: nat ensures RanOk(next, j) && (j in sys.ran ==> RanOk(sys, j) && ResultAt(next, j) == ResultAt(sys, j)) {
      RansGain(sys, next, s, k, j);
    }
    forall t: Name ensures HeldOk(next, t) { assert HeldOk(sys, t); }
    forall i | 0 <= i < |next.pipe.events| ensures ToldOk(next, next.pipe.events[i]) { assert ToldOk(sys, sys.pipe.events[i]); }
  }

  lemma SameStays(sys: Y.System, m: Y.Move, next: Y.System)
    requires Y.SystemInv(sys) && Y.MovedTo(sys, m, next) && forall k: nat :: !Runs(sys, m, k)
    ensures SubsForward(sys.pipe, next.pipe) && HandsFollow(sys.pipe, next.pipe) && NewsFollow(sys.pipe, next.pipe)
    ensures next.ran == sys.ran
  {
    hide PipeInv, Apply, Enabled, Y.ValidHistories, Y.HistoryOf, Y.SessionOpOf, HandsFollow, NewsFollow, RefusedEarly, SubsForward, Runs;
    NothingRun(sys, m);
    if m.LossMove? {
      NothingMoves(sys.pipe);
    } else {
      Y.MovesAreSteps(sys, m);
      var step := Y.ActionOf(sys, m).value;
      ExecutionsRun(sys, m, step);
      hide Y.ActionOf, Executes;
      StepNews(sys.pipe, step);
      StepForward(sys.pipe, step);
    }
  }

  lemma NothingRun(sys: Y.System, m: Y.Move)
    requires forall k: nat :: !Runs(sys, m, k)
    ensures Y.RanAfter(sys, m) == sys.ran
  {
    hide Y.SessionOpOf;
    if m.QueryMove? && Y.HoldsQuery(sys.pipe, m.session) {
      assert !Runs(sys, m, sys.pipe.workers[m.session].task.op.k);
    }
  }

  lemma NothingMoves(p: Pipe)
    ensures SubsForward(p, p) && HandsFollow(p, p) && NewsFollow(p, p)
  {
  }

  lemma ExecutionsRun(sys: Y.System, m: Y.Move, step: Action)
    requires Y.ValidHistories(sys) && Y.CanMove(sys, m) && Y.ActionOf(sys, m) == Some(step)
    ensures Executes(sys.pipe, step) ==> exists k: nat :: Runs(sys, m, k)
  {
    hide RefusedEarly, S.Query, T.Play, Y.Permitted;
    if Executes(sys.pipe, step) {
      assert Runs(sys, m, sys.pipe.workers[m.session].task.op.k);
    }
  }

  lemma TiesKept(sys: Y.System, m: Y.Move, next: Y.System)
    requires Y.SystemInv(sys) && TiesInv(sys) && Y.MovedTo(sys, m, next)
    ensures TiesInv(next)
  {
    HistoriesLast(sys, m, next);
    Y.SystemKeeps(sys, m);
    Y.HistoriesAreValid(next);
    hide Y.MovedTo, TiesInv, IsExecution, IsNew, Longer, HandsFollow, NewsFollow, SubsForward;
    if k: nat :| Runs(sys, m, k) {
      InHandIsNew(sys, m, k);
      ExecutionShape(sys, m, next, k);
      TiesGain(sys, next, m.session, k);
    } else {
      SameStays(sys, m, next);
      TiesStay(sys, next);
    }
  }

  lemma {:induction false} TiesAlwaysHold(states: seq<Y.System>, moves: seq<Y.Move>, i: nat)
    requires Y.IsSystemRun(states, moves) && i < |states|
    ensures TiesInv(states[i])
  {
    hide Y.SystemInv, Y.ValidHistories, Y.CanMove, Y.AfterMove, TiesInv;
    if i == 0 {
      NothingTied(states[0]);
    } else {
      TiesAlwaysHold(states, moves, i - 1);
      Y.SystemAlwaysHolds(states, moves, i - 1);
      TiesKept(states[i - 1], moves[i - 1], states[i]);
    }
  }

  lemma NothingTied(sys: Y.System)
    requires sys.history == map[] && sys.ran == map[] && sys.pipe.workers == map[] && sys.pipe.events == []
    ensures TiesInv(sys)
  {
  }

  /** A query that a move has run is at its place from then on. */
  lemma {:induction false} RunsArePlaced(states: seq<Y.System>, moves: seq<Y.Move>, n: nat, i: nat, k: nat)
    requires Y.IsSystemRun(states, moves) && n < i < |states| && Runs(states[n], moves[n], k)
    ensures var s := moves[n].session;
            && k in states[i].ran && states[i].ran[k] == Y.Place(s, |Y.HistoryOf(states[n], s)|)
            && Y.HistoryOf(states[n + 1], s) <= Y.HistoryOf(states[i], s)
    decreases i
  {
    hide Y.SystemInv, Y.ValidHistories, Y.CanMove, Y.AfterMove, TiesInv, Y.HistoryOf, Runs;
    assert Y.MovedTo(states[i - 1], moves[i - 1], states[i]);
    if i == n + 1 {
      ExecutionShape(states[n], moves[n], states[i], k);
    } else {
      RunsArePlaced(states, moves, n, i - 1, k);
      TiesAlwaysHold(states, moves, i - 1);
      Y.SystemAlwaysHolds(states, moves, i - 1);
      PlacesStay(states[i - 1], moves[i - 1], states[i], k);
    }
  }

  lemma PlacesStay(sys: Y.System, m: Y.Move, next: Y.System, k: nat)
    requires Y.SystemInv(sys) && TiesInv(sys) && Y.MovedTo(sys, m, next) && k in sys.ran
    ensures k in next.ran && next.ran[k] == sys.ran[k] && Longer(sys, next) && !Runs(sys, m, k)
  {
    HistoriesLast(sys, m, next);
    hide Y.MovedTo, TiesInv, Longer, HandsFollow, NewsFollow, SubsForward, PipeInv, Runs, ResultIn, Y.HistoryOf, Y.ValidHistories, Y.HistoriesOnlyRead;
    if j: nat :| Runs(sys, m, j) {
      ExecutionKeepsPlaces(sys, m, next, j, k);
    } else {
      SameStays(sys, m, next);
    }
  }

  lemma ExecutionKeepsPlaces(sys: Y.System, m: Y.Move, next: Y.System, j: nat, k: nat)
    requires PipeInv(sys.pipe) && TiesInv(sys) && Y.MovedTo(sys, m, next) && k in sys.ran && Runs(sys, m, j)
    ensures k in next.ran && next.ran[k] == sys.ran[k] && !Runs(sys, m, k)
  {
    InHandIsNew(sys, m, j);
    ExecutionShape(sys, m, next, j);
    OnlyOneInHand(sys, m, j, k);
    hide PipeInv, TiesInv, Y.MovedTo, Runs;
  }

  lemma OnlyOneInHand(sys: Y.System, m: Y.Move, j: nat, k: nat)
    requires Runs(sys, m, j)
    ensures Runs(sys, m, k) <==> k == j
  {
    hide Y.SessionOpOf;
  }

  /** A query is at a place only if a move has run it. */
  lemma {:induction false} PlacesWereRun(states: seq<Y.System>, moves: seq<Y.Move>, i: nat, k: nat)
    requires Y.IsSystemRun(states, moves) && i < |states| && k in states[i].ran
    ensures exists n :: 0 <= n < i && Runs(states[n], moves[n], k)
  {
    hide Y.SystemInv, Y.ValidHistories, Y.CanMove, Y.AfterMove, TiesInv, Runs;
    assert i > 0;
    assert Y.MovedTo(states[i - 1], moves[i - 1], states[i]);
    if k in states[i - 1].ran {
      PlacesWereRun(states, moves, i - 1, k);
    } else {
      Y.SystemAlwaysHolds(states, moves, i - 1);
      NewPlacesAreRun(states[i - 1], moves[i - 1], states[i], k);
    }
  }

  lemma NewPlacesAreRun(sys: Y.System, m: Y.Move, next: Y.System, k: nat)
    requires Y.SystemInv(sys) && Y.MovedTo(sys, m, next) && k !in sys.ran && k in next.ran
    ensures Runs(sys, m, k)
  {
    hide Y.MovedTo, Y.SystemInv, HandsFollow, NewsFollow, SubsForward, Runs;
    if j: nat :| Runs(sys, m, j) {
      ExecutionShape(sys, m, next, j);
    } else {
      SameStays(sys, m, next);
    }
  }

  /** The session has a transaction of the caller's that can still be committed. */
  predicate Open(s: S.Session) {
    S.ExplicitTx(s.tx) && s.client.Some? && s.client.value.alive && s.client.value.status == InTx
  }

  /** Nothing was committed, and a transaction that is still open would commit what it would have before. */
  predicate LeftNothing(before: S.Session, after: S.Session) {
    && after.durable == before.durable
    && (Open(after) ==> Open(before) && after.client.value.pending == before.client.value.pending)
  }

  /** Exactly these writes were committed, or joined those of the open transaction. */
  predicate LeftExactly(before: S.Session, after: S.Session, effects: seq<Effect>) {
    if before.tx == S.Idle then after.durable == before.durable + effects && !Open(after)
    else
      && after.durable == before.durable
      && Open(before) && Open(after) && after.client.value.pending == before.client.value.pending + effects
  }

  /** What is told of a query that ran is what it did to its session's database. */
  ghost predicate Truthful(e: Event, before: S.Session, after: S.Session, effects: seq<Effect>) {
    && e.Terminal?
    && match e.verdict
       case Succeeded => LeftExactly(before, after, effects) && (e.effect <==> effects != [])
       case WasCancelled => LeftNothing(before, after) && !e.effect
       case Failed(error) =>
         if error != CommitOutcomeUnknown then LeftNothing(before, after) && !e.effect
         else before.tx == S.Idle && !Open(after) && (LeftNothing(before, after) || LeftExactly(before, after, effects))
  }

  /** The verdict is the executor's answer; only what a cancel stopped may be told as cancelled. */
  ghost predicate Says(e: Event, r: Result<Outcome, ExecError>) {
    && e.Terminal?
    && (e.verdict == Succeeded <==> r.Ok?)
    && (e.verdict.Failed? ==> r == Err(e.verdict.error))
    && (e.verdict == WasCancelled ==> r == Err(Cancelled) || r == Err(Sql("57014")))
    && (r == Err(Cancelled) ==> e.verdict == WasCancelled)
  }

  lemma SettledSays(e: Event, before: S.Session, after: S.Session, r: Result<Outcome, ExecError>)
    requires Settled(e, ResultOf(before, after, r))
    ensures Says(e, r)
  {
    hide Held;
    VerdictIsTold(ResultOf(before, after, r), true);
    VerdictIsTold(ResultOf(before, after, r), false);
    hide SettleCancel;
  }

  lemma QueriesLeave(s: S.Session, req: Request, cancelled: bool, env: S.Env)
    requires ValidRequest(req) && S.ValidEnv(env) && T.InStep(s)
    ensures var (after, r) := S.Query(s, req, cancelled, env);
            && T.InStep(after)
            && (r.Ok? ==> LeftExactly(s, after, req.statement.effects))
            && (r.Err? && r != Err(CommitOutcomeUnknown) ==> LeftNothing(s, after))
            && (r == Err(CommitOutcomeUnknown) ==>
                  s.tx == S.Idle && !Open(after) && (LeftNothing(s, after) || LeftExactly(s, after, req.statement.effects)))
  {
    hide Reports, Abandons, S.Query;
    T.QueriesAreTruthful(s, req, cancelled, env);
  }

  /** The pipe's mark for writes left says what it means. */
  lemma HeldIsLeft(before: S.Session, after: S.Session, effects: seq<Effect>)
    requires T.InStep(before) && T.InStep(after)
    ensures LeftNothing(before, after) ==> Held(after) <= Held(before)
    ensures LeftExactly(before, after, effects) ==> (Held(after) > Held(before) <==> effects != [])
  {
  }

  lemma QueriesAreTold(ops: seq<T.Op>, req: Request, cancelled: bool, env: S.Env, e: Event)
    requires T.ValidOps(ops) && ValidRequest(req) && S.ValidEnv(env)
    requires var before := T.Play(T.START, ops).session;
             var (after, r) := S.Query(before, req, cancelled, env);
             Settled(e, ResultOf(before, after, r))
    ensures var before := T.Play(T.START, ops).session;
            && Truthful(e, before, S.Query(before, req, cancelled, env).0, req.statement.effects)
            && Says(e, S.Query(before, req, cancelled, env).1)
  {
    hide S.Query, T.Play, LeftNothing, LeftExactly, Open, Held, T.InStep;
    T.PlayIsConsistent(ops);
    StepOfRun(T.Play(T.START, ops));
    var before := T.Play(T.START, ops).session;
    QueriesLeave(before, req, cancelled, env);
    SettledSays(e, before, S.Query(before, req, cancelled, env).0, S.Query(before, req, cancelled, env).1);
    HeldIsLeft(before, S.Query(before, req, cancelled, env).0, req.statement.effects);
  }

  lemma StepOfRun(run: T.Run)
    requires T.Consistent(run)
    ensures T.InStep(run.session)
  {
  }

  /** The session of a run's state before and after a move. */
  ghost function SessionIn(sys: Y.System, s: Name): S.Session
    requires Y.ValidHistories(sys)
  {
    Y.RunOf(sys, s).session
  }

  /** The move ran its query, and did to the database and was answered what the event says. */
  ghost predicate IsTold(sys: Y.System, m: Y.Move, next: Y.System, e: Event)
    requires m.QueryMove? && Y.HoldsQuery(sys.pipe, m.session)
  {
    && Y.ValidHistories(sys) && Y.ValidHistories(next) && ValidRequest(m.req)
    && var before, after := SessionIn(sys, m.session), SessionIn(next, m.session);
       && Truthful(e, before, after, m.req.statement.effects)
       && Says(e, S.Query(before, m.req, Y.SubInHand(sys.pipe, m.session).cancelRequested, m.env).1)
  }

  /** What a move made of its session is what its query did to it. */
  lemma RunsAsPlaced(sys: Y.System, m: Y.Move, next: Y.System, k: nat)
    requires Y.SystemInv(sys) && Y.MovedTo(sys, m, next) && Runs(sys, m, k) && Y.ValidHistories(next)
    ensures ValidRequest(m.req) && S.ValidEnv(m.env)
    ensures var ops, cancelled := Y.HistoryOf(next, m.session), Y.SubInHand(sys.pipe, m.session).cancelRequested;
            var at := |Y.HistoryOf(sys, m.session)|;
            && at < |ops| && ops[at] == T.RunQuery(m.req, cancelled, m.env)
            && SessionIn(next, m.session) == S.Query(SessionIn(sys, m.session), m.req, cancelled, m.env).0
            && ResultIn(ops, at) == ResultOf(SessionIn(sys, m.session), SessionIn(next, m.session), S.Query(SessionIn(sys, m.session), m.req, cancelled, m.env).1)
  {
    hide RefusedEarly, S.Query, T.Play, ResultOf, Y.Permitted, Apply, Y.ActionOf, PipeInv;
    HistoriesLast(sys, m, next);
    var ops, op := Y.HistoryOf(sys, m.session), Y.SessionOpOf(sys, m).value;
    Y.PlayedOn(sys, m.session, op);
    assert (ops + [op])[..|ops|] == ops;
  }

  /**
   Every answer to every query, in every run of the whole system, against the database behind its
   session. A query answered without a move that ran it has touched nothing. The move that ran it, and
   there is only one, did to the database what the answer says: cancelled or failed, nothing was
   committed and an open transaction holds what it held; succeeded, exactly the statement's writes were
   committed or joined the open transaction's; and the verdict is what the executor answered.
   */
  lemma EventsTellTheTruth(states: seq<Y.System>, moves: seq<Y.Move>, i: nat, e: Event)
    requires Y.IsSystemRun(states, moves) && i < |states| && e in states[i].pipe.events && e.Terminal?
    ensures (forall n :: 0 <= n < i ==> !Runs(states[n], moves[n], e.k)) ==> NeverRan(e)
    ensures forall n :: 0 <= n < i && Runs(states[n], moves[n], e.k) ==> IsTold(states[n], moves[n], states[n + 1], e)
    ensures forall m, n :: 0 <= m < n < i && Runs(states[m], moves[m], e.k) ==> !Runs(states[n], moves[n], e.k)
  {
    hide Y.MovedTo, Y.ValidHistories, Y.SessionOpOf, Y.HoldsQuery, IsTold, NeverRan, Settled, Y.SystemInv;
    TiesAlwaysHold(states, moves, i);
    var j :| 0 <= j < |states[i].pipe.events| && states[i].pipe.events[j] == e;
    assert ToldOk(states[i], states[i].pipe.events[j]);
    if e.k in states[i].ran {
      PlacesWereRun(states, moves, i, e.k);
    }
    forall n | 0 <= n < i && Runs(states[n], moves[n], e.k)
      ensures IsTold(states[n], moves[n], states[n + 1], e)
    {
      TruthAtMove(states, moves, i, e, n);
    }
    forall m, n | 0 <= m < n < i && Runs(states[m], moves[m], e.k) ensures !Runs(states[n], moves[n], e.k) {
      RunsArePlaced(states, moves, m, n, e.k);
      RunOnlyOnce(states, moves, n, e.k);
    }
  }

  lemma HistoryIsValid(sys: Y.System, s: Name)
    requires Y.ValidHistories(sys)
    ensures T.ValidOps(Y.HistoryOf(sys, s))
  {
  }

  lemma RunOnlyOnce(states: seq<Y.System>, moves: seq<Y.Move>, n: nat, k: nat)
    requires Y.IsSystemRun(states, moves) && n < |moves| && k in states[n].ran
    ensures !Runs(states[n], moves[n], k)
  {
    hide Y.SystemInv, Y.MovedTo, TiesInv, Runs;
    TiesAlwaysHold(states, moves, n);
    Y.SystemAlwaysHolds(states, moves, n);
    assert Y.MovedTo(states[n], moves[n], states[n + 1]);
    PlacesStay(states[n], moves[n], states[n + 1], k);
  }

  lemma TruthAtMove(states: seq<Y.System>, moves: seq<Y.Move>, i: nat, e: Event, n: nat)
    requires Y.IsSystemRun(states, moves) && n < i < |states| && e.Terminal?
    requires TiesInv(states[i]) && ToldOk(states[i], e) && Runs(states[n], moves[n], e.k)
    ensures IsTold(states[n], moves[n], states[n + 1], e)
  {
    hide Y.SystemInv, Y.MovedTo, Y.ValidHistories, Y.SessionOpOf, Truthful, Says, Settled, Y.HistoryOf, S.Query, T.Play, ResultOf;
    var s, at := moves[n].session, |Y.HistoryOf(states[n], moves[n].session)|;
    RunsArePlaced(states, moves, n, i, e.k);
    Y.SystemAlwaysHolds(states, moves, n);
    Y.SystemAlwaysHolds(states, moves, n + 1);
    Y.HistoriesAreValid(states[n]);
    Y.HistoriesAreValid(states[n + 1]);
    assert Y.MovedTo(states[n], moves[n], states[n + 1]);
    RunsAsPlaced(states[n], moves[n], states[n + 1], e.k);
    HistoryIsValid(states[n], s);
    HistoryIsValid(states[i], s);
    ResultStays(Y.HistoryOf(states[n + 1], s), Y.HistoryOf(states[i], s), at);
    QueriesAreTold(Y.HistoryOf(states[n], s), moves[n].req, Y.SubInHand(states[n].pipe, s).cancelRequested, moves[n].env, e);
  }

  /** The configuration behind the connection that a statement was run on. */
  lemma RunsConnectUnder(s: S.Session, req: Request, cancelled: bool, env: S.Env)
    requires ValidRequest(req)
    ensures var after := S.Query(s, req, cancelled, env).0;
            after.runs != s.runs ==>
              after.openedUnder == if s.client.Some? && !(s.tx == S.Idle && !S.Live(s, env)) then s.openedUnder else req.config
  {
    hide S.Attempt, ExecuteInOpenTx, ExecuteWithClient, Ask;
  }

  /**
   The record of calls the theorems about the pipe speak of is what happened: a query that was run is
   recorded, once, with the configuration of the connection it ran on, and one whose statement was not
   run is not.
   */
  lemma RunsAreRecorded(states: seq<Y.System>, moves: seq<Y.Move>, n: nat, k: nat)
    requires Y.IsSystemRun(states, moves) && n < |moves| && Runs(states[n], moves[n], k)
    ensures Y.ValidHistories(states[n]) && Y.ValidHistories(states[n + 1])
    ensures var sys, next, s := states[n], states[n + 1], moves[n].session;
            if SessionIn(next, s).runs == SessionIn(sys, s).runs then next.pipe.calls == sys.pipe.calls
            else next.pipe.calls == sys.pipe.calls + [Call(s, Some(k), moves[n].req.config, SessionIn(next, s).openedUnder, moves[n].req.readOnly)]
  {
    hide Y.SystemInv, Y.MovedTo, Y.ValidHistories, Runs, SessionIn;
    Y.SystemAlwaysHolds(states, moves, n);
    Y.SystemAlwaysHolds(states, moves, n + 1);
    Y.HistoriesAreValid(states[n]);
    Y.HistoriesAreValid(states[n + 1]);
    Y.ConnectionsMirrorSessions(states, moves, n);
    assert Y.MovedTo(states[n], moves[n], states[n + 1]);
    RunIsRecorded(states[n], moves[n], states[n + 1], k);
  }

  lemma RunIsRecorded(sys: Y.System, m: Y.Move, next: Y.System, k: nat)
    requires Y.SystemInv(sys) && Y.AllMirror(sys) && Y.MovedTo(sys, m, next) && Runs(sys, m, k) && Y.ValidHistories(next)
    ensures var s := m.session;
            if SessionIn(next, s).runs == SessionIn(sys, s).runs then next.pipe.calls == sys.pipe.calls
            else next.pipe.calls == sys.pipe.calls + [Call(s, Some(k), m.req.config, SessionIn(next, s).openedUnder, m.req.readOnly)]
  {
    hide Y.SystemInv, Y.MovedTo, Y.ValidHistories, Y.SessionOpOf, S.Query, S.Live, T.Play, ResultIn, ResultOf, Y.HistoryOf, Y.LinkOf;
    RunsAsPlaced(sys, m, next, k);
    RunIsAnAction(sys, m, next, k);
    var before, after := SessionIn(sys, m.session), SessionIn(next, m.session);
    RunsConnectUnder(before, m.req, Y.SubInHand(sys.pipe, m.session).cancelRequested, m.env);
    ConnectionIsIts(sys, m.session);
    LinkIs(before, after, m.env);
  }

  lemma ConnectionIsIts(sys: Y.System, s: Name)
    requires Y.AllMirror(sys)
    ensures Y.Reflects(sys.pipe.connections, s, SessionIn(sys, s))
  {
    assert Y.Mirrors(sys, s);
  }

  lemma LinkIs(before: S.Session, after: S.Session, env: S.Env)
    ensures var link := Y.LinkOf(before, after, env, false);
            link.ran == (after.runs != before.runs) && link.reopened == (before.tx == S.Idle && !S.Live(before, env))
  {
  }

  lemma RunIsAnAction(sys: Y.System, m: Y.Move, next: Y.System, k: nat)
    requires Y.SystemInv(sys) && Y.MovedTo(sys, m, next) && Runs(sys, m, k) && Y.ValidHistories(next) && ValidRequest(m.req)
    requires SessionIn(next, m.session) == S.Query(SessionIn(sys, m.session), m.req, Y.SubInHand(sys.pipe, m.session).cancelRequested, m.env).0
    ensures var before, after := SessionIn(sys, m.session), SessionIn(next, m.session);
            var link := Y.LinkOf(before, after, m.env, false);
            next.pipe.calls ==
              if link.ran then sys.pipe.calls + [Call(m.session, Some(k), m.req.config, UsedConfig(sys.pipe.connections, m.session, m.req.config, link), m.req.readOnly)]
              else sys.pipe.calls
  {
    hide PipeInv, Apply, Enabled, RefusedEarly, UsedConfig, S.Query, T.Play, ResultOf, ResolveReadOnly, Y.LinkOf;
    Y.MovesAreSteps(sys, m);
    NotRefused(sys.pipe, Y.SubInHand(sys.pipe, m.session), m.policyAllows);
    RunQueryCall(sys.pipe, Y.ActionOf(sys, m).value);
  }
}
