/**
 The pipe and the executor together: the workers of the pipe drive one database session each, and
 every environment may do to every message and every connection what it likes.
 */
module SystemRuns {
  import opened Wrappers
  import opened Config
  import opened Executor
  import opened Pipe
  import opened PipeInvariants
  import opened PipeEndpoints
  import O = PipeOutcomes
  import opened PipeRuns
  import S = Session
  import T = Transactions

  /** Which operation of which session's history a query was run by. */
  datatype Place = Place(session: Name, at: nat)

  /** The pipe, what has happened to each session so far, and where the queries that were run are in that. */
  datatype System = System(pipe: Pipe, history: map<Name, seq<T.Op>>, ran: map<nat, Place>)

  function HistoryOf(sys: System, s: Name): seq<T.Op> {
    if s in sys.history then sys.history[s] else []
  }

  ghost predicate ValidHistories(sys: System) {
    forall s: Name :: T.ValidOps(HistoryOf(sys, s))
  }

  ghost function RunOf(sys: System, s: Name): T.Run
    requires T.ValidOps(HistoryOf(sys, s))
  {
    T.Play(T.START, HistoryOf(sys, s))
  }

  datatype Move =
    | PipeMove(action: Action)
    | QueryMove(session: Name, policyAllows: bool, req: Request, env: S.Env)
    | ControlMove(session: Name, env: S.Env)
    | LossMove(session: Name)

  predicate HoldsQuery(p: Pipe, s: Name) {
    WorkerAt(p, s) && p.workers[s].task.Busy? && p.workers[s].task.op.QueryOp?
  }

  predicate HoldsControl(p: Pipe, s: Name) {
    WorkerAt(p, s) && p.workers[s].task.Busy? && !p.workers[s].task.op.QueryOp?
  }

  function SubInHand(p: Pipe, s: Name): Submission
    requires HoldsQuery(p, s)
  {
    p.subs[p.workers[s].task.op.k]
  }

  /** A request runs under the configuration its query was accepted under, and the permission that resolves to. */
  ghost predicate CanMove(sys: System, m: Move) {
    match m
    case PipeMove(action) => !action.DoRunQuery? && !action.DoRunControl? && Enabled(sys.pipe, action)
    case QueryMove(s, policyAllows, req, env) =>
      && HoldsQuery(sys.pipe, s) && ValidRequest(req) && S.ValidEnv(env)
      && (!RefusedEarly(sys.pipe, SubInHand(sys.pipe, s), policyAllows) ==> Permitted(SubInHand(sys.pipe, s), req))
    case ControlMove(s, env) => HoldsControl(sys.pipe, s) && S.ValidEnv(env)
    case LossMove(_) => true
  }

  predicate Permitted(sub: Submission, req: Request) {
    sub.config == Some(req.config) && ResolveReadOnly(sub.permission, req.config) == Ok(req.readOnly)
  }

  /** What a move does to its session, if it reaches it. */
  function SessionOpOf(sys: System, m: Move): Option<T.Op> {
    match m
    case QueryMove(s, policyAllows, req, env) =>
      if HoldsQuery(sys.pipe, s) && !RefusedEarly(sys.pipe, SubInHand(sys.pipe, s), policyAllows)
      then Some(T.RunQuery(req, SubInHand(sys.pipe, s).cancelRequested, env)) else None
    case ControlMove(s, env) =>
      if !HoldsControl(sys.pipe, s) then None
      else
        (match sys.pipe.workers[s].task.op
         case BeginOp(readOnly, config) => Some(T.BeginTx(readOnly, config, env))
         case FinishOp(commit) => Some(if commit then T.CommitTx(env) else T.RollbackTx(env))
         case InvalidateOp(_) => Some(T.Invalidate)
         case _ => None)
    case LossMove(_) => Some(T.LoseConnection)
    case PipeMove(_) => None
  }

  /** The histories after a move, which may add one operation to that of its session. */
  function HistoryAfter(sys: System, m: Move): map<Name, seq<T.Op>> {
    var op := SessionOpOf(sys, m);
    if m.PipeMove? || op.None? then sys.history else sys.history[m.session := HistoryOf(sys, m.session) + [op.value]]
  }

  function RanAfter(sys: System, m: Move): map<nat, Place> {
    if m.QueryMove? && HoldsQuery(sys.pipe, m.session) && SessionOpOf(sys, m).Some?
    then sys.ran[sys.pipe.workers[m.session].task.op.k := Place(m.session, |HistoryOf(sys, m.session)|)]
    else sys.ran
  }

  /** What the pipe sees of a call: whether a connection was opened or lost, and whether the statement was sent. */
  function LinkOf(before: S.Session, after: S.Session, env: S.Env, begins: bool): Link {
    Link(before.tx == S.Idle && !S.Live(before, env), begins || after.runs != before.runs, after.client.None?)
  }

  const NO_RESULT := ExecResult(Some(InvalidRequest), false)

  /** The step of the pipe that a move is; a lost connection is none. */
  ghost function ActionOf(sys: System, m: Move): (action: Option<Action>)
    requires ValidHistories(sys) && CanMove(sys, m)
    ensures action.None? <==> m.LossMove?
  {
    match m
    case PipeMove(action) => Some(action)
    case QueryMove(s, policyAllows, req, env) =>
      var before := RunOf(sys, s).session;
      if RefusedEarly(sys.pipe, SubInHand(sys.pipe, s), policyAllows) then
        Some(DoRunQuery(s, policyAllows, Link(false, false, false), NO_RESULT))
      else
        var (after, r) := S.Query(before, req, SubInHand(sys.pipe, s).cancelRequested, env);
        Some(DoRunQuery(s, policyAllows, LinkOf(before, after, env, false), ResultOf(before, after, r)))
    case ControlMove(s, env) =>
      var before := RunOf(sys, s).session;
      var op := SessionOpOf(sys, m);
      var after := if op.Some? then T.Do(before, op.value).0 else before;
      Some(DoRunControl(s, LinkOf(before, after, env, true)))
    case LossMove(_) => None
  }

  /** The executor gives the pipe what it relies on, so every move is a step of the pipe that can be taken. */
  lemma MovesAreSteps(sys: System, m: Move)
    requires ValidHistories(sys) && CanMove(sys, m) && !m.LossMove?
    ensures Enabled(sys.pipe, ActionOf(sys, m).value)
  {
    if m.QueryMove? {
      QueriesAreSteps(sys, m);
      hide CanMove, ActionOf, Enabled;
    } else {
      hide T.Do, T.Play, SessionOpOf, LinkOf, TableOk, StrictlySorted, AffectedSessions, S.Query, RefusedEarly, ResultOf, Honest;
    }
  }

  lemma QueriesAreSteps(sys: System, m: Move)
    requires ValidHistories(sys) && CanMove(sys, m) && m.QueryMove?
    ensures Enabled(sys.pipe, ActionOf(sys, m).value)
  {
    hide S.Query, T.Do, T.Play, RefusedEarly, Permitted, ResultOf, LinkOf, Honest;
    var sub := SubInHand(sys.pipe, m.session);
    NoResultIsHonest(sub.cancelRequested);
    TheExecutorIsHonest(HistoryOf(sys, m.session), m.req, sub.cancelRequested, m.env);
  }

  lemma NoResultIsHonest(requested: bool)
    ensures Honest(requested, NO_RESULT)
  {
  }

  ghost function AfterMove(sys: System, m: Move): System
    requires ValidHistories(sys) && CanMove(sys, m)
  {
    var pipe := if m.LossMove? then sys.pipe else (MovesAreSteps(sys, m); Apply(sys.pipe, ActionOf(sys, m).value));
    System(pipe, HistoryAfter(sys, m), RanAfter(sys, m))
  }

  ghost predicate HistoriesOnlyRead(sys: System) {
    forall s: Name :: forall i :: 0 <= i < |HistoryOf(sys, s)| ==> T.OnlyReads(HistoryOf(sys, s)[i])
  }

  ghost predicate SystemInv(sys: System) {
    PipeInv(sys.pipe) && ValidHistories(sys) && (sys.pipe.readOnlyCapability ==> HistoriesOnlyRead(sys))
  }

  ghost predicate IsSystemRun(states: seq<System>, moves: seq<Move>) {
    && |states| == |moves| + 1
    && (exists readOnly, locked, config :: DefaultKnown(config) && states[0] == System(Fresh(readOnly, locked, config), map[], map[]))
    && forall i :: 0 <= i < |moves| ==> MovedTo(states[i], moves[i], states[i + 1])
  }

  ghost predicate MovedTo(sys: System, m: Move, next: System) {
    ValidHistories(sys) && CanMove(sys, m) && next == AfterMove(sys, m)
  }

  /** What a worker hands to its session is valid, and read-only if the capability says so. */
  lemma HandedOver(sys: System, m: Move)
    requires PipeInv(sys.pipe) && CanMove(sys, m) && SessionOpOf(sys, m).Some?
    ensures T.ValidOp(SessionOpOf(sys, m).value)
    ensures sys.pipe.readOnlyCapability ==> T.OnlyReads(SessionOpOf(sys, m).value)
  {
    hide ResolveReadOnly;
    match m {
      case QueryMove(s, policyAllows, req, env) =>
        NotRefused(sys.pipe, SubInHand(sys.pipe, s), policyAllows);
      case ControlMove(s, env) => if sys.pipe.readOnlyCapability { BeginsInHand(sys.pipe, s); }
      case LossMove(_) =>
    }
  }

  lemma BeginsInHand(p: Pipe, s: Name)
    requires PipeInv(p) && HoldsControl(p, s) && p.readOnlyCapability
    ensures p.workers[s].task.op.BeginOp? ==> p.workers[s].task.op.readOnly
  {
    EndpointHere(p, s) by { assert EndpointsInv(p); }
    assert Pending(p.workers[s])[0] == p.workers[s].task.op;
  }

  lemma SystemKeeps(sys: System, m: Move)
    requires SystemInv(sys) && CanMove(sys, m)
    ensures SystemInv(AfterMove(sys, m))
  {
    hide PipeInv, Apply, Enabled, SessionOpOf, ActionOf, T.OnlyReads;
    var next := AfterMove(sys, m);
    if !m.LossMove? {
      MovesAreSteps(sys, m);
      StepKeeps(sys.pipe, ActionOf(sys, m).value);
      GroundStays(sys.pipe, ActionOf(sys, m).value);
    }
    if SessionOpOf(sys, m).Some? {
      HandedOver(sys, m);
    }
    HistoriesGrow(sys, m);
  }

  /** A move adds at most its own operation to the history of its own session. */
  lemma HistoriesGrow(sys: System, m: Move)
    requires ValidHistories(sys) && CanMove(sys, m)
    requires SessionOpOf(sys, m).Some? ==> T.ValidOp(SessionOpOf(sys, m).value)
    ensures ValidHistories(AfterMove(sys, m))
    ensures HistoriesOnlyRead(sys) && (SessionOpOf(sys, m).Some? ==> T.OnlyReads(SessionOpOf(sys, m).value)) ==> HistoriesOnlyRead(AfterMove(sys, m))
  {
    hide Apply, Enabled, SessionOpOf, ActionOf, T.OnlyReads, T.ValidOp;
    var op := SessionOpOf(sys, m);
    forall s: Name ensures HistoryOf(AfterMove(sys, m), s) ==
      HistoryOf(sys, s) + (if !m.PipeMove? && op.Some? && s == m.session then [op.value] else [])
    {
      PipeMovesKeepSessions(sys, m);
    }
  }

  lemma PipeMovesKeepSessions(sys: System, m: Move)
    ensures m.PipeMove? ==> SessionOpOf(sys, m).None?
  {
  }

  /** Every state of every run of the whole system. */
  lemma {:induction false} SystemAlwaysHolds(states: seq<System>, moves: seq<Move>, i: nat)
    requires IsSystemRun(states, moves) && i < |states|
    ensures SystemInv(states[i])
  {
    hide SystemInv, ValidHistories, CanMove, AfterMove;
    if i == 0 {
      var readOnly, locked, config :| DefaultKnown(config) && states[0] == System(Fresh(readOnly, locked, config), map[], map[]);
      FreshIsFine(readOnly, locked, config);
      NothingHappened(states[0]);
    } else {
      SystemAlwaysHolds(states, moves, i - 1);
      assert MovedTo(states[i - 1], moves[i - 1], states[i]);
      SystemKeeps(states[i - 1], moves[i - 1]);
    }
  }

  lemma NothingHappened(sys: System)
    requires PipeInv(sys.pipe) && sys.history == map[]
    ensures SystemInv(sys)
  {
    hide PipeInv;
  }

  /**
   With the ReadOnly capability, whatever lines arrive, however the workers interleave and whatever
   happens to connections and messages, nothing is ever committed, no session has a read-write
   transaction, and every statement that runs does so in a READ ONLY transaction.
   */
  lemma ReadOnlySystemCommitsNothing(states: seq<System>, moves: seq<Move>, i: nat, s: Name)
    requires IsSystemRun(states, moves) && i < |states| && states[i].pipe.readOnlyCapability
    ensures T.ValidOps(HistoryOf(states[i], s))
    ensures var session := RunOf(states[i], s).session;
            && session.durable == []
            && session.tx != S.ReadWriteTx
            && forall n :: 0 <= n < |session.runs| ==> session.runs[n].readOnly
  {
    SystemAlwaysHolds(states, moves, i);
    hide PipeInv, IsSystemRun, T.Play;
    assert HistoriesOnlyRead(states[i]);
    T.ReadOnlyRunsWriteNothing(HistoryOf(states[i], s));
  }

  /**
   In every run of the whole system and for every session, a book kept of the session's answers has been
   what the database had committed at every moment if and only if none of its commits was answered with
   a lie: `Ok` for a transaction that had written something and was spoiled.
   */
  lemma SystemAnswersAreTheTruthIff(states: seq<System>, moves: seq<Move>, i: nat, s: Name)
    requires IsSystemRun(states, moves) && i < |states|
    ensures T.ValidOps(HistoryOf(states[i], s))
    ensures var ops := HistoryOf(states[i], s);
            (forall n :: 0 <= n <= |ops| ==> T.TrueAfter(ops, n)) <==> (forall n :: 0 <= n < |ops| ==> !T.LiesAt(ops, n))
  {
    SystemAlwaysHolds(states, moves, i);
    hide PipeInv, IsSystemRun, T.Play, T.TrueAfter, T.LiesAt;
    T.AnswersAreTheTruthIff(HistoryOf(states[i], s));
  }

  /** The pipe has a connection on its list exactly while the session holds it, under the configuration that opened it. */
  ghost predicate Mirrors(sys: System, s: Name)
    requires ValidHistories(sys)
  {
    Reflects(sys.pipe.connections, s, RunOf(sys, s).session)
  }

  ghost predicate Reflects(connections: map<Name, SessionConfig>, s: Name, session: S.Session) {
    && (s in connections <==> session.client.Some?)
    && (s in connections ==> connections[s] == session.openedUnder)
  }

  lemma OnlyCallsConnect(p: Pipe, step: Action)
    requires Enabled(p, step) && !step.DoRunQuery? && !step.DoRunControl?
    ensures Apply(p, step).connections == p.connections
  {
    hide Apply;
    if step.DoEmit? || step.DoFinish? {
      EndSteps(p, step);
    } else if step.DoTake? {
      TakeConnectsNothing(p, step.session);
    } else if O.IsQuiet(p, step) {
      O.QuietSteps(p, step);
    } else {
      CancelSteps(p, step);
    }
  }

  lemma TakeConnectsNothing(p: Pipe, s: Name)
    requires Enabled(p, DoTake(s))
    ensures Apply(p, DoTake(s)).connections == p.connections
  {
    var op := p.workers[s].queue[0];
    if op.QueryOp? { if p.subs[op.k].phase == Queued {} else {} }
  }

  /** A commit or rollback opens no connection. */
  lemma FinishConnectsNothing(s: S.Session, env: S.Env)
    ensures S.TxCommit(s, env).0.client.Some? ==> s.client.Some?
    ensures S.TxRollback(s, env).0.client.Some? ==> s.client.Some?
    ensures S.TxCommit(s, env).0.openedUnder == s.openedUnder && S.TxRollback(s, env).0.openedUnder == s.openedUnder
  {
  }

  /** The configuration behind the connection that a call leaves: the session's own, or the call's if it had to connect. */
  ghost predicate ConnectsUnder(before: S.Session, after: S.Session, config: SessionConfig, env: S.Env) {
    after.client.Some? ==>
      after.openedUnder == if before.client.Some? && !(before.tx == S.Idle && !S.Live(before, env)) then before.openedUnder else config
  }

  lemma QueryConnectsUnder(s: S.Session, req: Request, cancelled: bool, env: S.Env)
    requires ValidRequest(req)
    ensures ConnectsUnder(s, S.Query(s, req, cancelled, env).0, req.config, env)
  {
    hide S.Attempt, ExecuteInOpenTx, ExecuteWithClient, Ask;
  }

  lemma BeginConnectsUnder(s: S.Session, readOnly: bool, config: SessionConfig, env: S.Env)
    ensures ConnectsUnder(s, S.TxBegin(s, readOnly, config, env).0, config, env)
  {
    hide Ask;
  }

  /** The pipe's list after a call says the same of the connection as the session does. */
  lemma ConnectedReflects(connections: map<Name, SessionConfig>, s: Name, before: S.Session, after: S.Session, config: SessionConfig, env: S.Env, begins: bool)
    requires Reflects(connections, s, before) && ConnectsUnder(before, after, config, env)
    ensures var next := Connected(connections, s, config, LinkOf(before, after, env, begins));
            Reflects(next, s, after) && SameElsewhere(connections, next, s)
  {
  }

  ghost predicate SameElsewhere(a: map<Name, SessionConfig>, b: map<Name, SessionConfig>, s: Name) {
    forall t :: t != s ==> (t in b <==> t in a) && (t in b ==> b[t] == a[t])
  }

  lemma PlayedOn(sys: System, s: Name, op: T.Op)
    requires T.ValidOps(HistoryOf(sys, s)) && T.ValidOp(op)
    ensures var ops := HistoryOf(sys, s) + [op];
            T.ValidOps(ops) && T.Play(T.START, ops).session == T.Do(RunOf(sys, s).session, op).0
  {
    hide T.Do, T.Post, T.Spoils;
    assert (HistoryOf(sys, s) + [op])[..|HistoryOf(sys, s)|] == HistoryOf(sys, s);
  }

  /** What a call makes of its session. */
  ghost function SessionAfter(sys: System, m: Move): S.Session
    requires ValidHistories(sys) && !m.PipeMove?
    requires SessionOpOf(sys, m).Some? ==> T.ValidOp(SessionOpOf(sys, m).value)
  {
    var op, before := SessionOpOf(sys, m), RunOf(sys, m.session).session;
    if op.Some? then T.Do(before, op.value).0 else before
  }

  /** The step of the pipe and the step of the session lose and keep the same connection. */
  lemma QueryMirrors(sys: System, m: Move)
    requires ValidHistories(sys) && CanMove(sys, m) && m.QueryMove? && Mirrors(sys, m.session)
    requires Enabled(sys.pipe, ActionOf(sys, m).value)
    requires SessionOpOf(sys, m).Some? ==> T.ValidOp(SessionOpOf(sys, m).value)
    ensures var connections := Apply(sys.pipe, ActionOf(sys, m).value).connections;
            Reflects(connections, m.session, SessionAfter(sys, m)) && SameElsewhere(sys.pipe.connections, connections, m.session)
  {
    hide Apply, Enabled, RefusedEarly, Connected, UsedConfig, LinkOf, T.Play, S.Query, ResultOf, ResolveReadOnly;
    var step, before := ActionOf(sys, m).value, RunOf(sys, m.session).session;
    RunQueryFrame(sys.pipe, step);
    if !RefusedEarly(sys.pipe, SubInHand(sys.pipe, m.session), m.policyAllows) {
      var cancelled := SubInHand(sys.pipe, m.session).cancelRequested;
      O.RunQueryCall(sys.pipe, step);
      QueryConnectsUnder(before, m.req, cancelled, m.env);
      ConnectedReflects(sys.pipe.connections, m.session, before, S.Query(before, m.req, cancelled, m.env).0, m.req.config, m.env, false);
      hide Reflects, SameElsewhere;
    }
  }

  lemma ControlMirrors(sys: System, m: Move)
    requires ValidHistories(sys) && CanMove(sys, m) && m.ControlMove? && Mirrors(sys, m.session)
    requires Enabled(sys.pipe, ActionOf(sys, m).value)
    requires SessionOpOf(sys, m).Some? ==> T.ValidOp(SessionOpOf(sys, m).value)
    ensures var connections := Apply(sys.pipe, ActionOf(sys, m).value).connections;
            Reflects(connections, m.session, SessionAfter(sys, m)) && SameElsewhere(sys.pipe.connections, connections, m.session)
  {
    hide Apply, Enabled, Connected, UsedConfig, T.Play, S.TxBegin, S.TxCommit, S.TxRollback;
    var step, before := ActionOf(sys, m).value, RunOf(sys, m.session).session;
    O.RunControlCall(sys.pipe, step);
    var op := sys.pipe.workers[m.session].task.op;
    if op.BeginOp? {
      BeginConnectsUnder(before, op.readOnly, op.config, m.env);
      ConnectedReflects(sys.pipe.connections, m.session, before, S.TxBegin(before, op.readOnly, op.config, m.env).0, op.config, m.env, true);
    } else {
      FinishConnectsNothing(before, m.env);
    }
  }

  lemma MirrorsAfterPipe(sys: System, m: Move, s: Name)
    requires SystemInv(sys) && CanMove(sys, m) && m.PipeMove? && Mirrors(sys, s)
    ensures ValidHistories(AfterMove(sys, m)) && Mirrors(AfterMove(sys, m), s)
  {
    hide PipeInv, Apply, Enabled, T.Play, ActionOf;
    MovesAreSteps(sys, m);
    PipeMovesAct(sys, m);
    OnlyCallsConnect(sys.pipe, m.action);
    SystemKeeps(sys, m);
    MirrorsStill(sys, AfterMove(sys, m), s);
  }

  lemma MirrorsStill(sys: System, next: System, s: Name)
    requires ValidHistories(sys) && ValidHistories(next) && Mirrors(sys, s)
    requires next.history == sys.history && next.pipe.connections == sys.pipe.connections
    ensures Mirrors(next, s)
  {
  }

  lemma MirrorsAfterLoss(sys: System, m: Move, s: Name)
    requires SystemInv(sys) && CanMove(sys, m) && m.LossMove? && Mirrors(sys, s)
    ensures ValidHistories(AfterMove(sys, m)) && Mirrors(AfterMove(sys, m), s)
  {
    hide PipeInv, T.Play, T.Do;
    LossKeepsClient(sys, m);
    PlayedOn(sys, m.session, T.LoseConnection);
    SystemKeeps(sys, m);
  }

  lemma MirrorsAfterCall(sys: System, m: Move, s: Name)
    requires SystemInv(sys) && CanMove(sys, m) && (m.QueryMove? || m.ControlMove?) && Mirrors(sys, s) && Mirrors(sys, m.session)
    ensures ValidHistories(AfterMove(sys, m)) && Mirrors(AfterMove(sys, m), s)
  {
    hide PipeInv, Apply, Enabled, T.Play, T.Do, ActionOf, SessionOpOf, CanMove, T.ValidOp, T.OnlyReads;
    var op := SessionOpOf(sys, m);
    if op.Some? {
      HandedOver(sys, m);
      PlayedOn(sys, m.session, op.value);
    }
    MovesAreSteps(sys, m);
    if m.QueryMove? { QueryMirrors(sys, m); } else { ControlMirrors(sys, m); }
    SystemKeeps(sys, m);
  }

  lemma MirrorsKept(sys: System, m: Move, s: Name)
    requires SystemInv(sys) && CanMove(sys, m) && AllMirror(sys)
    ensures ValidHistories(AfterMove(sys, m)) && Mirrors(AfterMove(sys, m), s)
  {
    hide SystemInv, CanMove, AfterMove;
    HistoriesAreValid(sys);
    assert Mirrors(sys, s);
    if m.PipeMove? {
      MirrorsAfterPipe(sys, m, s);
    } else if m.LossMove? {
      MirrorsAfterLoss(sys, m, s);
    } else {
      assert Mirrors(sys, m.session);
      MirrorsAfterCall(sys, m, s);
    }
  }

  ghost predicate AllMirror(sys: System) {
    ValidHistories(sys) && forall s: Name :: Mirrors(sys, s)
  }

  lemma HistoriesAreValid(sys: System)
    requires SystemInv(sys)
    ensures ValidHistories(sys)
  {
  }

  lemma PipeMovesAct(sys: System, m: Move)
    requires ValidHistories(sys) && CanMove(sys, m) && m.PipeMove?
    ensures ActionOf(sys, m) == Some(m.action)
  {
  }

  lemma LossKeepsClient(sys: System, m: Move)
    requires m.LossMove? && T.ValidOps(HistoryOf(sys, m.session))
    ensures SessionOpOf(sys, m) == Some(T.LoseConnection)
    ensures var before := RunOf(sys, m.session).session;
            var after := T.Do(before, T.LoseConnection).0;
            (after.client.Some? <==> before.client.Some?) && after.openedUnder == before.openedUnder
  {
    hide T.Play;
  }

  /** In every run of the whole system a session is on the pipe's list of connections exactly while it holds one. */
  lemma {:induction false} ConnectionsMirrorSessions(states: seq<System>, moves: seq<Move>, i: nat)
    requires IsSystemRun(states, moves) && i < |states|
    ensures AllMirror(states[i])
    decreases i
  {
    hide SystemInv, CanMove, AfterMove;
    if i == 0 {
      NothingMirrored(states[0]);
    } else {
      var before := states[i - 1];
      SystemAlwaysHolds(states, moves, i - 1);
      ConnectionsMirrorSessions(states, moves, i - 1);
      assert MovedTo(before, moves[i - 1], states[i]);
      MirrorsKept(before, moves[i - 1], 0);
      forall s: Name ensures Mirrors(states[i], s) { MirrorsKept(before, moves[i - 1], s); }
    }
  }

  lemma NothingMirrored(sys: System)
    requires sys.history == map[] && sys.pipe.connections == map[]
    ensures AllMirror(sys)
  {
    forall s: Name ensures T.ValidOps(HistoryOf(sys, s)) && RunOf(sys, s).session.client.None? {
      assert HistoryOf(sys, s) == [];
    }
  }
}
