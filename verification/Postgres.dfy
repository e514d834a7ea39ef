/**
 The PostgreSQL backend behind one connection, as the executor can observe it.

 The model assumes: a lost backend rolls its transaction back; a SQLSTATE answer to COMMIT means
 nothing was applied; COMMIT on an aborted transaction answers success and rolls back; savepoint
 control on a live connection is refused only by the transaction's own state, and `25P02` is answered
 only in an aborted transaction; a statement that writes is run to its end before its first row is
 sent, so its failure comes in place of its rows, and every failure undoes the writes with the
 transaction or savepoint they belong to; user SQL is not transaction control.
 */
module Postgres {
  import opened Wrappers
  import opened Inline

  type Effect = int
  type SqlState = string

  const IN_FAILED_TRANSACTION: SqlState := "25P02"
  const NO_ACTIVE_TRANSACTION: SqlState := "25P01"
  const READ_ONLY_TRANSACTION: SqlState := "25006"
  const NO_SUCH_SAVEPOINT: SqlState := "3B001"
  const QUERY_CANCELED: SqlState := "57014"

  datatype TxStatus = NoTx | InTx | Aborted

  datatype Savepoint = Savepoint(name: string, mark: seq<Effect>)

  /** How a transaction was opened: READ ONLY or not, and by the executor itself for one query or by a `begin` request. */
  datatype Mode = Mode(readOnly: bool, implicit: bool)

  /** `pending` holds the open transaction's writes; `mark` is `pending` when the savepoint was set. */
  datatype Backend = Backend(
    alive: bool,
    status: TxStatus,
    mode: Mode,
    savepoints: seq<Savepoint>,
    pending: seq<Effect>)

  const FRESH := Backend(true, NoTx, Mode(false, false), [], [])
  const DEAD := Backend(false, NoTx, Mode(false, false), [], [])

  /**
   How the environment treats one message: served, refused with a SQLSTATE, or the connection is
   lost, after the server processed the message (`landed`) and after `delivered` rows came back.
   */
  datatype Fate = Served | Refused(code: SqlState) | Lost(landed: bool, delivered: nat)

  datatype Command =
    | Begin(mode: Mode)
    | Settings
    | Prepare
    | Bind
    | SetSavepoint(name: string)
    | RollbackTo(name: string)
    | Release(name: string)
    | Commit
    | Rollback
    | UserStatement

  datatype Reply = Done | SqlError(code: SqlState) | NoAnswer

  /** A command handed to the connection, whether that was alive then, and how it was answered; `UserStatement` is the user's statement. */
  datatype Sent = Sent(command: Command, alive: bool, reply: Reply)

  /**
   A user statement: how it is described, what it answers and what it writes. It produces `count`
   rows and then completes, or fails with `failure` instead of producing another; if it writes, no row
   of it is sent before it is through.
   */
  datatype Statement = Statement(
    columns: nat,
    duplicateColumns: bool,
    paramsMatch: bool,
    paramsBind: bool,
    wrapperParamsMatch: bool,
    wrapperParamsBind: bool,
    fallbackSupported: bool,
    at: nat -> Row,
    count: nat,
    failure: Option<SqlState>,
    effects: seq<Effect>)
  {
    function Yields(): Finite {
      if failure.None? then Source(at, Some(count), None)
      else Source(at, Some(if effects == [] then count else 0), Some(ServerFailed(failure.value)))
    }
  }

  /**
   The client's end of a connection together with the database behind it. `durable` is everything
   committed so far, `runs` records each execution of a user statement by the mode of the
   transaction it ran in, `log` the commands handed to the connection, and `fates` is the
   environment's script for the coming messages.
   */
  datatype Wire = Wire(backend: Backend, durable: seq<Effect>, runs: seq<Mode>, log: seq<Sent>, fates: seq<Fate>) {
    /** How the next command fares; `25P02` is no refusal of the environment's, only of an aborted transaction. */
    function NextFate(): Fate {
      if fates == [] || fates[0] == Refused(IN_FAILED_TRANSACTION) then Served else fates[0]
    }

    function Log(c: Command, reply: Reply): Wire {
      this.(log := log + [Sent(c, backend.alive, reply)])
    }

    function Advance(c: Command, reply: Reply): Wire {
      Log(c, reply).(fates := if fates == [] then [] else fates[1..])
    }

    function Lose(): Wire {
      this.(backend := DEAD)
    }
  }

  /** The position of the innermost savepoint called `name`. */
  function Innermost(savepoints: seq<Savepoint>, name: string): (k: Option<nat>)
    ensures k.Some? ==> k.value < |savepoints| && savepoints[k.value].name == name
    ensures k.Some? ==> forall i :: k.value < i < |savepoints| ==> savepoints[i].name != name
    ensures k.None? ==> forall i :: 0 <= i < |savepoints| ==> savepoints[i].name != name
  {
    if savepoints == [] then None
    else if savepoints[|savepoints| - 1].name == name then Some(|savepoints| - 1)
    else Innermost(savepoints[..|savepoints| - 1], name)
  }

  /** How a live backend that is not refused the command answers it. */
  function Serve(b: Backend, c: Command): (Backend, Reply) {
    match c
    case Begin(mode) =>
      if b.status == NoTx then (b.(status := InTx, mode := mode, savepoints := [], pending := []), Done)
      else if b.status == InTx then (b, Done)
      else (b, SqlError(IN_FAILED_TRANSACTION))
    case Commit => (FRESH, Done)
    case Rollback => (FRESH, Done)
    case RollbackTo(name) =>
      if b.status == NoTx then (b, SqlError(NO_ACTIVE_TRANSACTION))
      else
        var k := Innermost(b.savepoints, name);
        if k.None? then (b.(status := Aborted), SqlError(NO_SUCH_SAVEPOINT))
        else (b.(status := InTx, savepoints := b.savepoints[..k.value + 1], pending := b.savepoints[k.value].mark), Done)
    case SetSavepoint(name) =>
      if b.status == NoTx then (b, SqlError(NO_ACTIVE_TRANSACTION))
      else if b.status == Aborted then (b, SqlError(IN_FAILED_TRANSACTION))
      else (b.(savepoints := b.savepoints + [Savepoint(name, b.pending)]), Done)
    case Release(name) =>
      if b.status == NoTx then (b, SqlError(NO_ACTIVE_TRANSACTION))
      else if b.status == Aborted then (b, SqlError(IN_FAILED_TRANSACTION))
      else
        var k := Innermost(b.savepoints, name);
        if k.None? then (b.(status := Aborted), SqlError(NO_SUCH_SAVEPOINT))
        else (b.(savepoints := b.savepoints[..k.value]), Done)
    case _ =>
      if b.status == Aborted then (b, SqlError(IN_FAILED_TRANSACTION)) else (b, Done)
  }

  /** The error branch of a refused command; savepoint control and ROLLBACK are never refused by fate. */
  predicate Refusable(c: Command) {
    c.Begin? || c.Settings? || c.Prepare? || c.Bind? || c.Commit?
  }

  function Refuse(b: Backend, c: Command): Backend {
    if c.Commit? then FRESH
    else if b.status == InTx then b.(status := Aborted)
    else b
  }

  /** What a message sent on a live connection does to the database, whether or not its answer returns. */
  function Landing(w: Wire, c: Command): seq<Effect> {
    if c.Commit? && w.backend.status == InTx then w.durable + w.backend.pending else w.durable
  }

  /** Send one message and wait for its answer. */
  function Send(w: Wire, c: Command): (Wire, Reply) {
    if !w.backend.alive then (w.Log(c, NoAnswer), NoAnswer)
    else
      match w.NextFate()
      case Lost(landed, _) =>
        (w.Advance(c, NoAnswer).Lose().(durable := if landed then Landing(w, c) else w.durable), NoAnswer)
      case Refused(code) =>
        if Refusable(c) then (w.Advance(c, SqlError(code)).(backend := Refuse(w.backend, c)), SqlError(code))
        else
          var (b, reply) := Serve(w.backend, c);
          (w.Advance(c, reply).(backend := b, durable := Landing(w, c)), reply)
      case Served =>
        var (b, reply) := Serve(w.backend, c);
        (w.Advance(c, reply).(backend := b, durable := Landing(w, c)), reply)
  }

  /** What the client gets back for an executed statement: a refusal, silence, or rows to read. */
  datatype Stream = Refusal(code: SqlState) | Unanswered | Rows(source: Finite)

  /**
   Execute a user statement without a row limit. The server runs it to its end whether or not the
   client reads the rows, so a late failure has already aborted the transaction.
   */
  function Execute(w: Wire, s: Statement): (Wire, Stream) {
    var b := w.backend;
    if !b.alive then (w.Log(UserStatement, NoAnswer), Unanswered)
    else
      match w.NextFate()
      case Lost(landed, delivered) =>
        var a := w.Advance(UserStatement, NoAnswer).Lose();
        if landed then (a.(runs := a.runs + [b.mode]), Rows(Source(s.at, Some(Min(delivered, s.count)), Some(ConnectionGone))))
        else (a, Unanswered)
      case Refused(code) => (w.Advance(UserStatement, SqlError(code)).(backend := Refuse(b, Bind)), Refusal(code))
      case Served =>
        if b.status == Aborted then (w.Advance(UserStatement, SqlError(IN_FAILED_TRANSACTION)), Refusal(IN_FAILED_TRANSACTION))
        else
          var a := w.Advance(UserStatement, Done);
          var ran := a.(runs := a.runs + [b.mode]);
          if b.mode.readOnly && s.effects != [] then
            (ran.(backend := b.(status := Aborted)), Rows(Source(s.at, Some(0), Some(ServerFailed(READ_ONLY_TRANSACTION)))))
          else if s.failure.Some? then (ran.(backend := b.(status := Aborted)), Rows(s.Yields()))
          else (ran.(backend := b.(pending := b.pending + s.effects)), Rows(s.Yields()))
  }

  /**
   Read a bound portal in batches. The server meets a late failure of a statement that only reads if
   the client asks for the row that raises it; one that writes is run whole by the first fetch.
   */
  function ReadPortal(w: Wire, s: Statement, caps: Caps, batchRows: nat): (Wire, Result<Collected, ReadError>)
    requires batchRows <= USIZE_MAX
  {
    var b := w.backend;
    if !b.alive then (w.Log(UserStatement, NoAnswer), Err(ConnectionGone))
    else
      match w.NextFate()
      case Lost(landed, _) =>
        var a := w.Advance(UserStatement, NoAnswer).Lose();
        (a.(runs := if landed then a.runs + [b.mode] else a.runs), Err(ConnectionGone))
      case Refused(code) =>
        var a := w.Advance(UserStatement, SqlError(code));
        (a.(backend := Refuse(b, Bind), runs := a.runs + [b.mode]), Err(ServerFailed(code)))
      case Served =>
        if b.status == Aborted then (w.Advance(UserStatement, SqlError(IN_FAILED_TRANSACTION)), Err(ServerFailed(IN_FAILED_TRANSACTION)))
        else
          var a := w.Advance(UserStatement, Done);
          var ran := a.(runs := a.runs + [b.mode]);
          if b.mode.readOnly && s.effects != [] then
            (ran.(backend := b.(status := Aborted)), Err(ServerFailed(READ_ONLY_TRANSACTION)))
          else
            var r := PortalRead(s.Yields(), caps, batchRows, NOTHING);
            if r.Err? && r.error.ServerFailed? then (ran.(backend := b.(status := Aborted)), r)
            else (ran.(backend := b.(pending := b.pending + s.effects)), r)
  }
}
