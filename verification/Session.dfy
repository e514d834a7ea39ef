/**
 One database session: the transaction state the client keeps, its optional connection, and the
 operations that move both. The functions say what each operation does to the session's value; the
 class updates its fields in place, step by step, and is proved to do the same.
 */
module Session {
  import opened Wrappers
  import opened Inline
  import opened Postgres
  import opened Executor
  import Config

  datatype TxState = Idle | ReadWriteTx | ReadOnlyTx | FailedTx

  /** `openedUnder` is the configuration the session's connection was opened under, if it has one. */
  datatype Session = Session(
    tx: TxState,
    client: Option<Backend>,
    openedUnder: Config.SessionConfig,
    durable: seq<Effect>,
    runs: seq<Mode>,
    log: seq<Sent>)

  const NEW := Session(Idle, None, map[], [], [], [])

  /**
   What the environment does during one operation: whether the client has noticed that its
   connection died, how a connection attempt ends, and the fate of each message.
   */
  datatype Env = Env(noticed: bool, connectError: Option<ExecError>, fates: seq<Fate>)

  predicate ValidEnv(env: Env) {
    env.connectError.Some? ==> env.connectError.value in {Connect, InvalidRequest, Internal} || env.connectError.value.Sql?
  }

  predicate IsClosed(b: Backend, env: Env) {
    !b.alive && env.noticed
  }

  predicate Live(s: Session, env: Env) {
    s.client.Some? && !IsClosed(s.client.value, env)
  }

  function WireOf(s: Session, b: Backend, env: Env): Wire {
    Wire(b, s.durable, s.runs, s.log, env.fates)
  }

  function Absorb(s: Session, w: Wire): Session {
    s.(client := Some(w.backend), durable := w.durable, runs := w.runs, log := w.log)
  }

  /** The session with a connection: its live one, or a fresh one if none is left and the attempt succeeds. */
  function EnsureConnected(s: Session, config: Config.SessionConfig, env: Env): (r: Result<Session, ExecError>)
    ensures r.Ok? ==> r.value.client.Some? && r.value == s.(client := r.value.client, openedUnder := r.value.openedUnder)
  {
    if Live(s, env) then Ok(s)
    else if env.connectError.Some? then Err(env.connectError.value)
    else Ok(s.(client := Some(FRESH), openedUnder := config))
  }

  predicate ShouldDropConnection<T>(r: Result<T, ExecError>) {
    r.Err? && (r.error.Connect? || r.error.Internal?)
  }

  predicate ExplicitTx(tx: TxState) {
    tx == ReadWriteTx || tx == ReadOnlyTx
  }

  /** The session as a query finds it once it may be sent, or why it is not sent. */
  function Admitted(s: Session, req: Request, cancelled: bool, env: Env): (r: (Session, Option<ExecError>))
    ensures r.1.None? ==> r.0.client.Some?
  {
    if s.tx == FailedTx || (s.tx == ReadWriteTx && req.readOnly) then (s, Some(InvalidRequest))
    else if ExplicitTx(s.tx) && !Live(s, env) then (s.(tx := FailedTx, client := None), Some(InvalidRequest))
    else
      match EnsureConnected(s, req.config, env)
      case Err(e) => (s.(client := None), Some(e))
      case Ok(t) => (t, if cancelled then Some(Cancelled) else None)
  }

  /** What the executor makes of a query on a connected session. */
  function Attempt(s: Session, req: Request, env: Env): Answer
    requires ValidRequest(req) && s.client.Some?
  {
    var w := WireOf(s, s.client.value, env);
    if ExplicitTx(s.tx) then ExecuteInOpenTx(w, req) else ExecuteWithClient(w, req)
  }

  function Query(s: Session, req: Request, cancelled: bool, env: Env): (Session, Result<Outcome, ExecError>)
    requires ValidRequest(req)
  {
    var (t, refusal) := Admitted(s, req, cancelled, env);
    if refusal.Some? then (t, Err(refusal.value))
    else
      var a := Attempt(t, req, env);
      var s' := Absorb(t, a.wire);
      if ShouldDropConnection(a.result) then
        (s'.(client := None, tx := if ExplicitTx(s.tx) then FailedTx else s.tx), a.result)
      else (s', a.result)
  }

  function TxBegin(s: Session, readOnly: bool, config: Config.SessionConfig, env: Env): (Session, Result<(), ExecError>) {
    if s.tx != Idle then (s, Err(InvalidParams))
    else
      match EnsureConnected(s, config, env)
      case Err(e) => (s.(tx := FailedTx, client := None), Err(e))
      case Ok(t) =>
        var begun := Ask(WireOf(t, t.client.value, env), Begin(Mode(readOnly, false)));
        var s' := Absorb(t, begun.wire);
        if begun.error.Some? then (s'.(tx := FailedTx), Err(begun.error.value))
        else (s'.(tx := if readOnly then ReadOnlyTx else ReadWriteTx), Ok(()))
  }

  function TxCommit(s: Session, env: Env): (Session, Result<(), ExecError>) {
    if s.tx == Idle then (s, Err(InvalidParams))
    else if s.tx == FailedTx || !Live(s, env) then (s.(tx := Idle, client := None), Err(TransactionLostRolledBack))
    else
      var (w, reply) := Send(WireOf(s, s.client.value, env), Commit);
      var s' := Absorb(s, w).(tx := Idle);
      match reply
      case Done => (s', Ok(()))
      case SqlError(code) => (s', Err(Sql(code)))
      case NoAnswer => (s'.(client := None), Err(CommitOutcomeUnknown))
  }

  function TxRollback(s: Session, env: Env): (Session, Result<(), ExecError>) {
    if s.tx == Idle then (s, Err(InvalidParams))
    else if s.tx == FailedTx || !Live(s, env) then (s.(tx := Idle, client := None), Ok(()))
    else
      var asked := Ask(WireOf(s, s.client.value, env), Rollback);
      (Absorb(s, asked.wire).(tx := Idle), if asked.error.Some? then Err(asked.error.value) else Ok(()))
  }

  /** The session is forgotten; closing its connection rolls back whatever was open on it. */
  function Invalidated(s: Session): Session {
    s.(tx := Idle, client := None)
  }

  /** The backend goes away between two operations, before the client knows. */
  function ConnectionLost(s: Session): Session {
    if s.client.Some? then s.(client := Some(DEAD)) else s
  }

  class SessionEntry {
    var client: Option<Backend>
    var openedUnder: Config.SessionConfig
    var explicitTx: TxState
    // The database behind the session and what was said to it, for the specification.
    var durable: seq<Effect>
    var runs: seq<Mode>
    var log: seq<Sent>

    function State(): Session
      reads this
    {
      Session(explicitTx, client, openedUnder, durable, runs, log)
    }

    constructor ()
      ensures State() == NEW
    {
      client, openedUnder, explicitTx, durable, runs, log := None, map[], Idle, [], [], [];
    }

    predicate ExplicitTxActive()
      reads this
    {
      explicitTx != Idle
    }

    function ExplicitTxReadOnly(): Option<bool>
      reads this
    {
      match explicitTx
      case ReadWriteTx => Some(false)
      case ReadOnlyTx => Some(true)
      case _ => None
    }

    method EnsureConnection(config: Config.SessionConfig, env: Env) returns (error: Option<ExecError>)
      modifies this
      ensures match EnsureConnected(old(State()), config, env)
              case Ok(t) => error.None? && State() == t
              case Err(e) => error == Some(e) && State() == old(State()).(client := None)
    {
      if client.Some? && IsClosed(client.value, env) {
        client := None;
      }
      if client.None? {
        if env.connectError.Some? {
          return Some(env.connectError.value);
        }
        client, openedUnder := Some(FRESH), config;
      }
      return None;
    }

    method Execute(req: Request, cancelRequested: bool, env: Env) returns (result: Result<Outcome, ExecError>)
      requires ValidRequest(req)
      modifies this
      ensures (State(), result) == Query(old(State()), req, cancelRequested, env)
    {
      if explicitTx == FailedTx {
        return Err(InvalidRequest);
      }
      var explicitTxReadOnly := ExplicitTxReadOnly();
      if explicitTxReadOnly == Some(false) && req.readOnly {
        return Err(InvalidRequest);
      }
      if explicitTxReadOnly.Some? && (client.None? || IsClosed(client.value, env)) {
        client := None;
        explicitTx := FailedTx;
        return Err(InvalidRequest);
      }
      var connectError := EnsureConnection(req.config, env);
      if connectError.Some? {
        return Err(connectError.value);
      }
      if cancelRequested {
        return Err(Cancelled);
      }
      var wire := Wire(client.value, durable, runs, log, env.fates);
      var answer := if explicitTxReadOnly.Some? then ExecuteInOpenTx(wire, req) else ExecuteWithClient(wire, req);
      client, durable, runs, log := Some(answer.wire.backend), answer.wire.durable, answer.wire.runs, answer.wire.log;
      result := answer.result;
      if ShouldDropConnection(result) {
        client := None;
        if explicitTxReadOnly.Some? {
          explicitTx := FailedTx;
        }
      }
    }

    method Begin(readOnly: bool, config: Config.SessionConfig, env: Env) returns (result: Result<(), ExecError>)
      modifies this
      ensures (State(), result) == TxBegin(old(State()), readOnly, config, env)
    {
      if ExplicitTxActive() {
        return Err(InvalidParams);
      }
      // Marked failed before anything that can fail, so that no query slips out of the transaction.
      explicitTx := FailedTx;
      var connectError := EnsureConnection(config, env);
      if connectError.Some? {
        return Err(connectError.value);
      }
      var begun := Ask(Wire(client.value, durable, runs, log, env.fates), Command.Begin(Mode(readOnly, false)));
      client, durable, runs, log := Some(begun.wire.backend), begun.wire.durable, begun.wire.runs, begun.wire.log;
      if begun.error.Some? {
        return Err(begun.error.value);
      }
      explicitTx := if readOnly then ReadOnlyTx else ReadWriteTx;
      return Ok(());
    }

    method Commit(env: Env) returns (result: Result<(), ExecError>)
      modifies this
      ensures (State(), result) == TxCommit(old(State()), env)
    {
      if !ExplicitTxActive() {
        return Err(InvalidParams);
      }
      if explicitTx == FailedTx {
        client := None;
        explicitTx := Idle;
        return Err(TransactionLostRolledBack);
      }
      // Never reconnects: on another connection COMMIT would be answered with success for nothing.
      if client.None? || IsClosed(client.value, env) {
        client := None;
        explicitTx := Idle;
        return Err(TransactionLostRolledBack);
      }
      var (wire, reply) := Send(Wire(client.value, durable, runs, log, env.fates), Command.Commit);
      client, durable, runs, log := Some(wire.backend), wire.durable, wire.runs, wire.log;
      explicitTx := Idle;
      match reply {
        case Done => return Ok(());
        case SqlError(code) => return Err(Sql(code));
        case NoAnswer =>
          client := None;
          return Err(CommitOutcomeUnknown);
      }
    }

    method Rollback(env: Env) returns (result: Result<(), ExecError>)
      modifies this
      ensures (State(), result) == TxRollback(old(State()), env)
    {
      if !ExplicitTxActive() {
        return Err(InvalidParams);
      }
      if explicitTx == FailedTx || client.None? || IsClosed(client.value, env) {
        client := None;
        explicitTx := Idle;
        return Ok(());
      }
      var asked := Ask(Wire(client.value, durable, runs, log, env.fates), Command.Rollback);
      client, durable, runs, log := Some(asked.wire.backend), asked.wire.durable, asked.wire.runs, asked.wire.log;
      explicitTx := Idle;
      if asked.error.Some? {
        return Err(asked.error.value);
      }
      return Ok(());
    }

    method Invalidate()
      modifies this
      ensures State() == Invalidated(old(State()))
    {
      client := None;
      explicitTx := Idle;
    }
  }
}
