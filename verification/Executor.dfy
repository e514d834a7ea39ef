/**
 Running one query on a connection: the implicit path wraps it in a transaction of its own, the
 explicit path in a savepoint of the caller's transaction. Each path has an inline and a streaming
 form, and each form tries the `to_jsonb` wrapper before the statement itself.
 */
module Executor {
  import opened Wrappers
  import opened Inline
  import opened Postgres
  import Config

  datatype ExecError =
    | Cancelled
    | Connect
    | InvalidRequest
    | InvalidParams
    | Sql(code: SqlState)
    | TransactionLostRolledBack
    | CommitOutcomeUnknown
    | Internal

  datatype Outcome = Collection(collected: Collected) | Streamed(rowCount: nat, payloadBytes: nat) | Affected

  datatype SinkCall = Start | Push(row: Row)

  /** A query as the executor gets it, with the configuration of its session. */
  datatype Request = Request(
    config: Config.SessionConfig,
    readOnly: bool,
    streaming: bool,
    caps: Caps,
    batchRows: nat,
    statement: Statement)

  predicate ValidRequest(req: Request) {
    ValidCaps(req.caps) && 1 <= req.batchRows <= USIZE_MAX
  }

  /** The state of the wire after some messages, and the error that ended them, if one did. */
  datatype Step = Step(wire: Wire, error: Option<ExecError>)

  /** A finished attempt: the wire, the outcome, and what the row sink was given on the way. */
  datatype Answer = Answer(wire: Wire, result: Result<Outcome, ExecError>, sent: seq<SinkCall>)

  const EXPLICIT := "afpsql_explicit"
  const WRAP := "afpsql_wrap"

  function ReadFailure(e: ReadError): ExecError {
    match e
    case ServerFailed(code) => Sql(code)
    case ConnectionGone => Internal
    case Undecodable => Internal
  }

  /** A dead connection holds no transaction. */
  predicate Sound(w: Wire) {
    !w.backend.alive ==> w.backend == DEAD
  }

  /** Send a message and map its answer to an error, as every `?` in the executor does. */
  function Ask(w: Wire, c: Command): (s: Step)
    ensures Sound(w) ==> Sound(s.wire)
    ensures s.wire.runs == w.runs && |s.wire.log| == |w.log| + 1
    ensures !c.Commit? ==> s.wire.durable == w.durable
    ensures w.backend.status == InTx ==> s.error != Some(Sql(IN_FAILED_TRANSACTION))
    ensures s.wire.backend.alive ==> w.backend.alive
    ensures !s.wire.backend.alive <==> s.error == Some(Internal)
    ensures s.error.Some? ==> s.error.value.Internal? || s.error.value.Sql?
    ensures s.wire.backend.alive && (c.Settings? || c.Prepare? || c.Bind?) ==>
              s.wire.backend == if s.error.None? || w.backend.status != InTx then w.backend else w.backend.(status := Aborted)
    ensures w.backend.status == Aborted && (c.Settings? || c.Prepare? || c.Bind?) ==> s.error.Some?
  {
    var (wire, reply) := Send(w, c);
    match reply
    case Done => Step(wire, None)
    case SqlError(code) => Step(wire, Some(Sql(code)))
    case NoAnswer => Step(wire, Some(Internal))
  }

  function Fail(s: Step): Answer
    requires s.error.Some?
  {
    Answer(s.wire, Err(s.error.value), [])
  }

  function Invalid(w: Wire): Answer {
    Answer(w, Err(InvalidParams), [])
  }

  /** Nothing committed, at most one execution, and any live transaction is still the same one. */
  ghost predicate SameTransaction(w: Wire, w': Wire) {
    && Sound(w')
    && |w.log| <= |w'.log|
    && w'.durable == w.durable
    && (w'.runs == w.runs || w'.runs == w.runs + [w.backend.mode])
    && (w'.backend.alive ==>
          && w.backend.alive
          && w'.backend.mode == w.backend.mode
          && w'.backend.status != NoTx
          && w.backend.savepoints <= w'.backend.savepoints)
  }

  function ApplyQuerySettings(w: Wire): (s: Step)
    ensures Sound(w) ==> Sound(s.wire)
    ensures s.wire.runs == w.runs && s.wire.durable == w.durable && |w.log| <= |s.wire.log|
    ensures s.wire.backend.alive ==> w.backend.alive
    ensures s.error.None? ==> s.wire.backend == w.backend
    ensures w.backend.status == InTx ==> s.error != Some(Sql(IN_FAILED_TRANSACTION))
    ensures Sound(w) && w.backend.alive && w.backend.status == InTx ==> SameTransaction(w, s.wire)
    ensures s.wire.backend.alive && w.backend.status == InTx ==> s.wire.backend.savepoints == w.backend.savepoints
  {
    var statementTimeout := Ask(w, Settings);
    if statementTimeout.error.Some? then statementTimeout else Ask(statementTimeout.wire, Settings)
  }

  /** The innermost savepoint of a name is the last one set, below any others of a different name. */
  lemma {:induction false} InnermostBelow(base: seq<Savepoint>, name: string, mark: seq<Effect>, above: seq<Savepoint>)
    requires forall i :: 0 <= i < |above| ==> above[i].name != name
    ensures Innermost(base + [Savepoint(name, mark)] + above, name) == Some(|base|)
  {
    var all := base + [Savepoint(name, mark)] + above;
    if above != [] {
      assert all[..|all| - 1] == base + [Savepoint(name, mark)] + above[..|above| - 1];
      InnermostBelow(base, name, mark, above[..|above| - 1]);
    }
  }

  lemma SavepointIsSet(w: Wire, name: string)
    requires Sound(w) && w.backend.alive && w.backend.status == InTx
    ensures var s := Ask(w, SetSavepoint(name));
            s.wire.backend.alive ==>
              && s.error.None?
              && s.wire.backend == w.backend.(savepoints := w.backend.savepoints + [Savepoint(name, w.backend.pending)])
  {
  }

  lemma SavepointIsReleased(w: Wire, base: seq<Savepoint>, name: string, mark: seq<Effect>)
    requires Sound(w) && w.backend.alive && w.backend.savepoints == base + [Savepoint(name, mark)]
    requires w.backend.status != NoTx
    ensures var s := Ask(w, Release(name));
            s.wire.backend.alive ==>
              if w.backend.status == InTx then s.error.None? && s.wire.backend == w.backend.(savepoints := base)
              else s.error == Some(Sql(IN_FAILED_TRANSACTION)) && s.wire.backend == w.backend
  {
    InnermostBelow(base, name, mark, []);
    assert base + [Savepoint(name, mark)] + [] == base + [Savepoint(name, mark)];
    assert w.backend.savepoints[..|base|] == base;
  }

  lemma SavepointIsRestored(w: Wire, base: seq<Savepoint>, name: string, mark: seq<Effect>, above: seq<Savepoint>)
    requires Sound(w) && w.backend.alive && w.backend.savepoints == base + [Savepoint(name, mark)] + above
    requires forall i :: 0 <= i < |above| ==> above[i].name != name
    requires w.backend.status != NoTx
    ensures var s := Ask(w, RollbackTo(name));
            s.wire.backend.alive ==>
              && s.error.None?
              && s.wire.backend == w.backend.(status := InTx, savepoints := base + [Savepoint(name, mark)], pending := mark)
  {
    InnermostBelow(base, name, mark, above);
    assert w.backend.savepoints[..|base| + 1] == base + [Savepoint(name, mark)];
  }

  /** Roll back to the wrapper's savepoint and forget it. */
  function RollbackWrapSavepoint(w: Wire): Step
  {
    var undone := Ask(w, RollbackTo(WRAP));
    if undone.error.Some? then undone else Ask(undone.wire, Release(WRAP))
  }

  lemma WrapIsRolledBack(w: Wire, b: Backend)
    requires Sound(w) && w.backend.alive && w.backend.status != NoTx && b.status == InTx && b.alive
    requires w.backend.savepoints == b.savepoints + [Savepoint(WRAP, b.pending)] && w.backend.mode == b.mode
    ensures var s := RollbackWrapSavepoint(w);
            && Sound(s.wire) && s.wire.runs == w.runs && s.wire.durable == w.durable && |w.log| <= |s.wire.log|
            && (s.wire.backend.alive ==> s.error.None? && s.wire.backend == b)
            && (!s.wire.backend.alive ==> s.error == Some(Internal))
  {
    assert w.backend.savepoints == b.savepoints + [Savepoint(WRAP, b.pending)] + [];
    SavepointIsRestored(w, b.savepoints, WRAP, b.pending, []);
    var undone := Ask(w, RollbackTo(WRAP));
    if undone.error.None? {
      SavepointIsReleased(undone.wire, b.savepoints, WRAP, b.pending);
    }
  }

  /**
   Parse the `to_jsonb` wrapper under a savepoint of its own, so that a wrapper that does not parse
   leaves the caller's transaction as it was.
   */
  function PrepareWrappedOnClient(w: Wire, st: Statement): Step
  {
    var marked := Ask(w, SetSavepoint(WRAP));
    if marked.error.Some? then marked
    else
      var prepared := Ask(marked.wire, Prepare);
      if prepared.error.None? then
        var released := Ask(prepared.wire, Release(WRAP));
        if released.error.Some? then released
        else if !st.wrapperParamsMatch then Step(released.wire, Some(InvalidParams))
        else released
      else
        var undone := RollbackWrapSavepoint(prepared.wire);
        if undone.error.Some? then undone else Step(undone.wire, prepared.error)
  }

  lemma PrepareWrappedKeepsTransaction(w: Wire, st: Statement)
    requires Sound(w) && w.backend.alive && w.backend.status == InTx
    ensures var s := PrepareWrappedOnClient(w, st);
            && Sound(s.wire) && s.wire.runs == w.runs && s.wire.durable == w.durable && |w.log| <= |s.wire.log|
            && s.error != Some(Sql(IN_FAILED_TRANSACTION))
            && (s.wire.backend.alive ==> s.wire.backend == w.backend)
            && (s.error.None? ==> s.wire.backend.alive)
            && (s.error.Some? ==> s.error.value.Sql? || s.error.value.Internal? || s.error.value.InvalidParams?)
  {
    var b := w.backend;
    SavepointIsSet(w, WRAP);
    var marked := Ask(w, SetSavepoint(WRAP));
    if marked.error.None? {
      var prepared := Ask(marked.wire, Prepare);
      if prepared.error.None? {
        SavepointIsReleased(prepared.wire, b.savepoints, WRAP, b.pending);
      } else if prepared.wire.backend.alive {
        WrapIsRolledBack(prepared.wire, b);
      }
    }
  }

  /** Rows handed to the sink until the answer ends, and how it ended. */
  datatype AllRead = AllRead(rows: seq<Row>, error: Option<ReadError>)

  function ReadAll(src: Finite, i: nat): (r: AllRead)
    requires i <= src.length.value
    ensures |r.rows| <= src.length.value - i
    ensures forall k :: 0 <= k < |r.rows| ==> r.rows[k] == src.at(i + k)
    ensures r.error.None? ==> |r.rows| == src.length.value - i && src.failure.None?
    ensures src.failure.Some? ==> r.error.Some?
    decreases src.length.value - i
  {
    if i == src.length.value then AllRead([], src.failure)
    else if !src.at(i).readable then AllRead([], Some(Undecodable))
    else
      var rest := ReadAll(src, i + 1);
      AllRead([src.at(i)] + rest.rows, rest.error)
  }

  function Pushes(rows: seq<Row>): (calls: seq<SinkCall>)
    ensures |calls| == |rows|
    ensures forall k :: 0 <= k < |rows| ==> calls[k] == Push(rows[k])
  {
    seq(|rows|, i requires 0 <= i < |rows| => Push(rows[i]))
  }

  /** Read a row stream inline, up to the first refused row. */
  function CollectInline(w: Wire, req: Request): (a: Answer)
    requires ValidRequest(req)
  {
    var (wire, stream) := Execute(w, req.statement);
    match stream
    case Refusal(code) => Answer(wire, Err(Sql(code)), [])
    case Unanswered => Answer(wire, Err(Internal), [])
    case Rows(src) =>
      match StreamRead(src, req.caps, NOTHING)
      case Ok(c) => Answer(wire, Ok(Collection(c)), [])
      case Err(e) => Answer(wire, Err(ReadFailure(e)), [])
  }

  /** Hand every row of a stream to the sink, which is started only once the stream exists. */
  function StreamRows(w: Wire, st: Statement): Answer {
    var (wire, stream) := Execute(w, st);
    match stream
    case Refusal(code) => Answer(wire, Err(Sql(code)), [])
    case Unanswered => Answer(wire, Err(Internal), [])
    case Rows(src) =>
      var read := ReadAll(src, 0);
      Answer(
        wire,
        if read.error.Some? then Err(ReadFailure(read.error.value)) else Ok(Streamed(|read.rows|, Bytes(read.rows))),
        [Start] + Pushes(read.rows))
  }

  /** A statement without columns is executed and waited for. */
  function RunCommand(w: Wire, st: Statement): Answer {
    var (wire, stream) := Execute(w, st);
    match stream
    case Refusal(code) => Answer(wire, Err(Sql(code)), [])
    case Unanswered => Answer(wire, Err(Internal), [])
    case Rows(src) =>
      if src.failure.Some? then Answer(wire, Err(ReadFailure(src.failure.value)), []) else Answer(wire, Ok(Affected), [])
  }

  /** The rows of a statement with columns, in the form the request asked for. */
  function ReadRows(w: Wire, req: Request): Answer
    requires ValidRequest(req)
  {
    if req.streaming then StreamRows(w, req.statement) else CollectInline(w, req)
  }

  /** The longest prefix of the statement's rows inside the caps, or all of them, as the request asked. */
  ghost predicate Reports(req: Request, o: Outcome) {
    var st := req.statement;
    if st.columns == 0 then o == Affected
    else if req.streaming then
      o == Streamed(st.count, Bytes(Slice(st.Yields(), 0, st.count)))
    else o.Collection? && LongestPrefix(st.Yields(), req.caps, o.collected)
  }

  /** Sink calls are a start followed by a prefix of the statement's rows; a success has sent them all. */
  ghost predicate Sends(req: Request, sent: seq<SinkCall>, result: Result<Outcome, ExecError>) {
    var st := req.statement;
    && (sent != [] ==>
          && req.streaming && st.columns != 0
          && |sent| - 1 <= st.count
          && sent == [Start] + Pushes(Slice(st.Yields(), 0, |sent| - 1)))
    && (result.Ok? && req.streaming && st.columns != 0 ==> |sent| == st.count + 1)
  }

  /**
   The client would stop reading this stream before it fails on the server: the answer is cut short by
   a cap, so the failure is never seen, yet it aborts the transaction. Only a statement that writes
   nothing sends rows before it fails.
   */
  ghost predicate Abandons(req: Request) {
    var st := req.statement;
    st.columns != 0 && !req.streaming && st.failure.Some? && st.effects == [] && CutsOff(st.Yields(), req.caps)
  }

  /** What that means for the loop that reads inside an explicit transaction, whatever the statement writes. */
  lemma AbandonsIffUnseen(req: Request)
    requires req.statement.columns != 0 && !req.streaming && req.statement.failure.Some?
    ensures Abandons(req) <==> StreamRead(req.statement.Yields(), req.caps, NOTHING).Ok?
  {
    FailuresAreHiddenIff(req.statement.Yields(), req.caps);
  }

  /** A caller who streams, or whose caps hold every row the statement can have, never abandons one, whatever the server does. */
  lemma RoomyQueriesAbandonNothing(req: Request)
    requires req.streaming || Within(Slice(req.statement.Yields(), 0, req.statement.count), req.caps)
    ensures !Abandons(req)
  {
    if !req.streaming && req.statement.effects == [] {
      RoomyCapsCutNothing(req.statement.Yields(), req.caps);
    }
  }

  /** Reading rows inside a transaction: what an execution may do to it, and when it aborts unseen. */
  ghost predicate Executed(w: Wire, req: Request, a: Answer)
    requires ValidRequest(req)
  {
    var b, b' := w.backend, a.wire.backend;
    && SameTransaction(w, a.wire)
    && (b'.alive ==> b'.savepoints == b.savepoints)
    && (a.result.Ok? ==> a.wire.runs == w.runs + [b.mode])
    && (a.result.Ok? && b'.alive ==> Reports(req, a.result.value))
    && (a.result.Ok? && b'.alive && b'.status == InTx ==> b'.pending == b.pending + req.statement.effects)
    && (b'.alive ==>
          ((a.result.Ok? && b'.status == Aborted) <==> (a.wire.runs != w.runs && Abandons(req))))
    && (a.wire.runs == w.runs ==> a.result != Err(Sql(IN_FAILED_TRANSACTION)))
    && (b.mode.readOnly && a.result.Ok? && b'.alive ==> req.statement.effects == [])
    && (a.result.Err? ==> a.result.error.Sql? || a.result.error.Internal? || a.result.error.InvalidParams?)
    && Sends(req, a.sent, a.result)
  }

  lemma SliceOfShorter(src: Source, n: nat, rows: seq<Row>)
    requires |rows| == n && forall k :: 0 <= k < n ==> rows[k] == src.at(k)
    ensures rows == Slice(src, 0, n)
  {
  }

  /** What executing a statement in an open transaction does to it, and what comes back. */
  ghost predicate Ran(w: Wire, st: Statement, wire: Wire, stream: Stream) {
    var b, b' := w.backend, wire.backend;
    && SameTransaction(w, wire)
    && (b'.alive ==> b'.savepoints == b.savepoints)
    && match stream
       case Refusal(code) => wire.runs == w.runs && b'.alive && code != IN_FAILED_TRANSACTION
       case Unanswered => wire.runs == w.runs && !b'.alive
       case Rows(src) =>
         && wire.runs == w.runs + [b.mode]
         && src.at == st.at && src.length.value <= st.count
         && if !b'.alive then src.failure == Some(ConnectionGone)
            else if b.mode.readOnly && st.effects != [] then
              b'.status == Aborted && src == Source(st.at, Some(0), Some(ServerFailed(READ_ONLY_TRANSACTION)))
            else
              && src == st.Yields()
              && (if st.failure.Some? then b'.status == Aborted else b'.status == InTx && b'.pending == b.pending + st.effects)
  }

  lemma ExecutesInTransaction(w: Wire, st: Statement)
    requires Sound(w) && w.backend.alive && w.backend.status == InTx
    ensures Ran(w, st, Execute(w, st).0, Execute(w, st).1)
  {
  }

  lemma StreamRowsExecutes(w: Wire, req: Request)
    requires ValidRequest(req) && Sound(w) && req.streaming
    requires w.backend.alive && w.backend.status == InTx && req.statement.columns != 0
    ensures Executed(w, req, StreamRows(w, req.statement))
  {
    ExecutesInTransaction(w, req.statement);
    RoomyQueriesAbandonNothing(req);
    hide Execute, Abandons;
    var (wire, stream) := Execute(w, req.statement);
    if stream.Rows? {
      var read := ReadAll(stream.source, 0);
      SliceOfShorter(req.statement.Yields(), |read.rows|, read.rows);
    }
  }

  lemma CollectInlineExecutes(w: Wire, req: Request)
    requires ValidRequest(req) && Sound(w) && !req.streaming
    requires w.backend.alive && w.backend.status == InTx && req.statement.columns != 0
    ensures Executed(w, req, CollectInline(w, req))
  {
    ExecutesInTransaction(w, req.statement);
    if req.statement.failure.Some? { AbandonsIffUnseen(req); } else { assert !Abandons(req); }
    hide Execute, Abandons;
    var (wire, stream) := Execute(w, req.statement);
    if stream.Rows? {
      if StreamRead(stream.source, req.caps, NOTHING).Ok? {
        StreamReadIsLongestPrefix(stream.source, req.caps, NOTHING);
      }
    }
  }

  lemma ReadRowsExecutes(w: Wire, req: Request)
    requires ValidRequest(req) && Sound(w)
    requires w.backend.alive && w.backend.status == InTx && req.statement.columns != 0
    ensures Executed(w, req, ReadRows(w, req))
  {
    hide Executed, StreamRows, CollectInline;
    if req.streaming { StreamRowsExecutes(w, req); } else { CollectInlineExecutes(w, req); }
  }

  lemma RunCommandExecutes(w: Wire, req: Request)
    requires ValidRequest(req) && Sound(w)
    requires w.backend.alive && w.backend.status == InTx && req.statement.columns == 0
    ensures Executed(w, req, RunCommand(w, req.statement))
  {
    ExecutesInTransaction(w, req.statement);
    assert !Abandons(req);
    hide Execute, Abandons;
  }

  /** Read through the wrapper if it parses, otherwise read the statement itself if its types allow it. */
  function RowsOnClient(w: Wire, req: Request): Answer
    requires ValidRequest(req)
  {
    var st := req.statement;
    var wrapped := PrepareWrappedOnClient(w, st);
    if wrapped.error.None? then
      if !st.wrapperParamsBind then Invalid(wrapped.wire) else ReadRows(wrapped.wire, req)
    else if wrapped.error.value.InvalidParams? || !st.fallbackSupported then Fail(wrapped)
    else if !st.paramsBind then Invalid(wrapped.wire)
    else ReadRows(wrapped.wire, req)
  }

  lemma RowsOnClientExecutes(w: Wire, req: Request)
    requires ValidRequest(req) && Sound(w)
    requires w.backend.alive && w.backend.status == InTx && req.statement.columns != 0
    ensures Executed(w, req, RowsOnClient(w, req))
  {
    PrepareWrappedKeepsTransaction(w, req.statement);
    var wrapped := PrepareWrappedOnClient(w, req.statement);
    if wrapped.wire.backend.alive {
      ReadRowsExecutes(wrapped.wire, req);
    } else {
      assert ReadRows(wrapped.wire, req) == Answer(wrapped.wire.Log(UserStatement, NoAnswer), Err(Internal), []);
    }
  }

  /** The query inside its savepoint: settings, parse, checks, then the statement. */
  function ExecuteInOpenTxInner(w: Wire, req: Request): Answer
    requires ValidRequest(req)
  {
    var st := req.statement;
    var settings := ApplyQuerySettings(w);
    if settings.error.Some? then Fail(settings)
    else
      var prepared := Ask(settings.wire, Prepare);
      if prepared.error.Some? then Fail(prepared)
      else if st.duplicateColumns || !st.paramsMatch then Invalid(prepared.wire)
      else if st.columns != 0 then RowsOnClient(prepared.wire, req)
      else if !st.paramsBind then Invalid(prepared.wire)
      else RunCommand(prepared.wire, st)
  }

  lemma InnerExecutesAtMostOnce(w: Wire, req: Request)
    requires Sound(w) && ValidRequest(req) && w.backend.alive && w.backend.status == InTx
    ensures Executed(w, req, ExecuteInOpenTxInner(w, req))
  {
    hide RowsOnClient, RunCommand, Reports, Abandons;
    var settings := ApplyQuerySettings(w);
    if settings.error.None? {
      var prepared := Ask(settings.wire, Prepare);
      if prepared.error.None? {
        if req.statement.columns == 0 {
          RunCommandExecutes(prepared.wire, req);
        } else {
          RowsOnClientExecutes(prepared.wire, req);
        }
      }
    }
  }

  /** Wrap a query in a savepoint of the caller's transaction: keep it on success, undo it on failure. */
  function ExecuteInOpenTx(w: Wire, req: Request): Answer
    requires ValidRequest(req)
  {
    var marked := Ask(w, SetSavepoint(EXPLICIT));
    if marked.error.Some? then Fail(marked)
    else
      var a := ExecuteInOpenTxInner(marked.wire, req);
      if a.result.Ok? then
        var released := Ask(a.wire, Release(EXPLICIT));
        if released.error.Some? then Answer(released.wire, Err(released.error.value), a.sent)
        else Answer(released.wire, a.result, a.sent)
      else
        var undone := Ask(a.wire, RollbackTo(EXPLICIT));
        var released := Ask(undone.wire, Release(EXPLICIT));
        Answer(released.wire, a.result, a.sent)
  }

  /**
   The fate of an explicit transaction across one query. On a connection that survives, the query's
   writes are all kept on success and all undone on failure, earlier writes and the savepoint stack
   are as they were, and the transaction is open; the one exception is a query that abandons its
   stream and is answered `25P02`, which leaves the transaction aborted.
   */
  ghost predicate SavepointDiscipline(w: Wire, req: Request, a: Answer)
    requires ValidRequest(req)
  {
    var b, b' := w.backend, a.wire.backend;
    && Sound(a.wire)
    && a.wire.durable == w.durable
    && (a.wire.runs == w.runs || a.wire.runs == w.runs + [b.mode])
    && |w.log| <= |a.wire.log|
    && (b'.alive && a.wire.runs != w.runs && Abandons(req) ==> a.result == Err(Sql(IN_FAILED_TRANSACTION)))
    && (b'.alive ==>
          if Abandons(req) && a.result == Err(Sql(IN_FAILED_TRANSACTION)) then
            && b'.status == Aborted && b'.mode == b.mode
            && a.wire.runs != w.runs
          else
            b' == b.(pending := if a.result.Ok? then b.pending + req.statement.effects else b.pending))
    && (a.result.Ok? ==> b'.alive && a.wire.runs == w.runs + [b.mode] && Reports(req, a.result.value))
    && (a.result.Ok? && b.mode.readOnly ==> req.statement.effects == [])
    && (a.result.Err? ==> a.result.error.Sql? || a.result.error.Internal? || a.result.error.InvalidParams?)
    && Sends(req, a.sent, a.result)
  }

  lemma OpenTxKeepsSavepointDiscipline(w: Wire, req: Request)
    requires Sound(w) && ValidRequest(req) && w.backend.alive && w.backend.status == InTx
    ensures SavepointDiscipline(w, req, ExecuteInOpenTx(w, req))
  {
    hide ExecuteInOpenTxInner, Reports, Abandons;
    var b := w.backend;
    SavepointIsSet(w, EXPLICIT);
    var marked := Ask(w, SetSavepoint(EXPLICIT));
    if marked.error.None? {
      InnerExecutesAtMostOnce(marked.wire, req);
      var a := ExecuteInOpenTxInner(marked.wire, req);
      if a.wire.backend.alive {
        if a.result.Ok? {
          SavepointIsReleased(a.wire, b.savepoints, EXPLICIT, b.pending);
        } else {
          assert a.wire.backend.savepoints == b.savepoints + [Savepoint(EXPLICIT, b.pending)] + [];
          SavepointIsRestored(a.wire, b.savepoints, EXPLICIT, b.pending, []);
          var undone := Ask(a.wire, RollbackTo(EXPLICIT));
          if undone.wire.backend.alive {
            SavepointIsReleased(undone.wire, b.savepoints, EXPLICIT, b.pending);
          }
        }
      }
    }
  }

  function Clamp(n: nat, lo: nat, hi: nat): nat {
    if n < lo then lo else if n > hi then hi else n
  }

  /** Parse the statement and check its columns and parameters. */
  function PrepareBoundStatement(w: Wire, st: Statement): Step {
    var prepared := Ask(w, Prepare);
    if prepared.error.Some? then prepared
    else if st.duplicateColumns || !st.paramsMatch || !st.paramsBind then Step(prepared.wire, Some(InvalidParams))
    else prepared
  }

  function BindWrappedRows(w: Wire, st: Statement): Step {
    var prepared := Ask(w, Prepare);
    if prepared.error.Some? then prepared
    else if !st.wrapperParamsMatch || !st.wrapperParamsBind then Step(prepared.wire, Some(InvalidParams))
    else Ask(prepared.wire, Bind)
  }

  /** Fetch a bound portal under the caps. */
  function CollectPortal(w: Wire, req: Request): Answer
    requires ValidRequest(req)
  {
    var (wire, r) := ReadPortal(w, req.statement, req.caps, Clamp(req.batchRows, 1, INLINE_PORTAL_BATCH_ROWS));
    match r
    case Ok(c) => Answer(wire, Ok(Collection(c)), [])
    case Err(e) => Answer(wire, Err(ReadFailure(e)), [])
  }

  /** Stream a bound portal to its end; the sink is started before the first fetch. */
  function StreamPortal(w: Wire, st: Statement): Answer {
    var a := StreamRows(w, st);
    if a.sent == [] then a.(sent := [Start]) else a
  }

  /** After a read through the wrapper: forget its savepoint, or roll back to it first. */
  function SettleWrapper(a: Answer): Answer {
    if a.result.Err? then
      var undone := RollbackWrapSavepoint(a.wire);
      Answer(undone.wire, if undone.error.Some? then Err(undone.error.value) else a.result, a.sent)
    else
      var released := Ask(a.wire, Release(WRAP));
      Answer(released.wire, if released.error.Some? then Err(released.error.value) else a.result, a.sent)
  }

  /** After a wrapper that did not bind: undo the attempt, then read the statement itself if its types allow it. */
  function FallBack(bound: Step, req: Request): Answer
    requires ValidRequest(req) && bound.error.Some?
  {
    var undone := RollbackWrapSavepoint(bound.wire);
    if undone.error.Some? then Fail(undone)
    else if !req.streaming && bound.error.value.InvalidParams? then Invalid(undone.wire)
    else if !req.statement.fallbackSupported then Fail(Step(undone.wire, bound.error))
    else if req.streaming then StreamRows(undone.wire, req.statement)
    else
      var direct := Ask(undone.wire, Bind);
      if direct.error.Some? then Fail(direct) else CollectPortal(direct.wire, req)
  }

  function RowsWrappedOrDirect(w: Wire, req: Request): Answer
    requires ValidRequest(req)
  {
    var marked := Ask(w, SetSavepoint(WRAP));
    if marked.error.Some? then Fail(marked)
    else
      var bound := BindWrappedRows(marked.wire, req.statement);
      if bound.error.Some? then FallBack(bound, req)
      else SettleWrapper(if req.streaming then StreamPortal(bound.wire, req.statement) else CollectPortal(bound.wire, req))
  }

  function ExecuteInTransaction(w: Wire, req: Request): Answer
    requires ValidRequest(req)
  {
    var settings := ApplyQuerySettings(w);
    if settings.error.Some? then Fail(settings)
    else
      var prepared := PrepareBoundStatement(settings.wire, req.statement);
      if prepared.error.Some? then Fail(prepared)
      else if req.statement.columns == 0 then RunCommand(prepared.wire, req.statement)
      else RowsWrappedOrDirect(prepared.wire, req)
  }

  /** Commit a success and roll back a failure; silence after COMMIT is its own answer. */
  function FinishTransaction(a: Answer): Answer {
    match a.result
    case Ok(outcome) =>
      var (wire, reply) := Send(a.wire, Commit);
      (match reply
       case Done => Answer(wire, Ok(outcome), a.sent)
       case SqlError(code) => Answer(wire, Err(Sql(code)), a.sent)
       case NoAnswer => Answer(wire, Err(CommitOutcomeUnknown), a.sent))
    case Err(e) =>
      var (wire, _) := Send(a.wire, Rollback);
      Answer(wire, Err(e), a.sent)
  }

  function ExecuteWithClient(w: Wire, req: Request): Answer
    requires ValidRequest(req)
  {
    var begun := Ask(w, Begin(Mode(req.readOnly, true)));
    if begun.error.Some? then Fail(begun) else FinishTransaction(ExecuteInTransaction(begun.wire, req))
  }

  /** One attempt inside a transaction the executor opened for it. */
  ghost predicate Attempted(w: Wire, req: Request, a: Answer)
    requires ValidRequest(req)
  {
    var b, b' := w.backend, a.wire.backend;
    && SameTransaction(w, a.wire)
    && (a.result.Ok? ==>
          && b'.alive && b'.status == InTx
          && b'.pending == b.pending + req.statement.effects
          && a.wire.runs == w.runs + [b.mode]
          && Reports(req, a.result.value)
          && (b.mode.readOnly ==> req.statement.effects == []))
    && (a.result.Err? ==> a.result.error.Sql? || a.result.error.Internal? || a.result.error.InvalidParams?)
    && Sends(req, a.sent, a.result)
  }

  lemma PortalIsRead(w: Wire, st: Statement, caps: Caps, batchRows: nat)
    requires Sound(w) && w.backend.alive && w.backend.status == InTx && batchRows <= USIZE_MAX
    ensures var (wire, r) := ReadPortal(w, st, caps, batchRows);
            && SameTransaction(w, wire)
            && (wire.backend.alive ==> wire.backend.savepoints == w.backend.savepoints)
            && (r.Ok? ==>
                  && wire.backend.alive && wire.backend.status == InTx
                  && wire.backend.pending == w.backend.pending + st.effects
                  && wire.runs == w.runs + [w.backend.mode]
                  && (w.backend.mode.readOnly ==> st.effects == [])
                  && r == PortalRead(st.Yields(), caps, batchRows, NOTHING))
  {
  }

  lemma CollectPortalAttempts(w: Wire, req: Request)
    requires ValidRequest(req) && Sound(w) && !req.streaming
    requires w.backend.alive && w.backend.status == InTx && req.statement.columns != 0
    ensures Attempted(w, req, CollectPortal(w, req))
    ensures CollectPortal(w, req).wire.backend.savepoints == w.backend.savepoints || !CollectPortal(w, req).wire.backend.alive
  {
    var st, batch := req.statement, Clamp(req.batchRows, 1, INLINE_PORTAL_BATCH_ROWS);
    PortalIsRead(w, st, req.caps, batch);
    hide ReadPortal;
    if PortalRead(st.Yields(), req.caps, batch, NOTHING).Ok? {
      PortalReadIsLongestPrefix(st.Yields(), req.caps, batch, NOTHING);
    }
  }

  lemma StreamRowsAttempts(w: Wire, req: Request)
    requires ValidRequest(req) && Sound(w) && req.streaming
    requires w.backend.alive && w.backend.status == InTx && req.statement.columns != 0
    ensures Attempted(w, req, StreamRows(w, req.statement)) && Attempted(w, req, StreamPortal(w, req.statement))
    ensures StreamRows(w, req.statement).wire.backend.savepoints == w.backend.savepoints || !StreamRows(w, req.statement).wire.backend.alive
  {
    ReadRowsExecutes(w, req);
    assert ReadRows(w, req) == StreamRows(w, req.statement);
    assert [Start] + Pushes(Slice(req.statement.Yields(), 0, 0)) == [Start];
  }

  lemma SettledWrapperAttempts(w: Wire, marked: Wire, req: Request, a: Answer)
    requires ValidRequest(req) && Sound(w) && w.backend.alive && w.backend.status == InTx
    requires marked.backend == w.backend.(savepoints := w.backend.savepoints + [Savepoint(WRAP, w.backend.pending)])
    requires marked.durable == w.durable && marked.runs == w.runs && |w.log| <= |marked.log|
    requires Attempted(marked, req, a) && (a.wire.backend.alive ==> a.wire.backend.savepoints == marked.backend.savepoints)
    ensures Attempted(w, req, SettleWrapper(a))
  {
    if a.wire.backend.alive {
      if a.result.Err? {
        WrapIsRolledBack(a.wire, w.backend);
      } else {
        SavepointIsReleased(a.wire, w.backend.savepoints, WRAP, w.backend.pending);
      }
    }
  }

  lemma FallBackAttempts(w: Wire, req: Request, bound: Step)
    requires ValidRequest(req) && Sound(w) && w.backend.alive && w.backend.status == InTx && req.statement.columns != 0
    requires bound.error.Some? && Sound(bound.wire) && bound.wire.durable == w.durable && bound.wire.runs == w.runs
    requires |w.log| <= |bound.wire.log|
    requires bound.error.value.Sql? || bound.error.value.Internal? || bound.error.value.InvalidParams?
    requires bound.wire.backend.alive ==>
               && bound.wire.backend.status != NoTx && bound.wire.backend.mode == w.backend.mode
               && bound.wire.backend.savepoints == w.backend.savepoints + [Savepoint(WRAP, w.backend.pending)]
    ensures Attempted(w, req, FallBack(bound, req))
  {
    if bound.wire.backend.alive {
      WrapIsRolledBack(bound.wire, w.backend);
      var undone := RollbackWrapSavepoint(bound.wire);
      if undone.wire.backend.alive {
        if req.streaming {
          StreamRowsAttempts(undone.wire, req);
        } else {
          var direct := Ask(undone.wire, Bind);
          if direct.error.None? {
            CollectPortalAttempts(direct.wire, req);
          }
        }
      }
    }
  }

  lemma RowsWrappedOrDirectAttempts(w: Wire, req: Request)
    requires ValidRequest(req) && Sound(w)
    requires w.backend.alive && w.backend.status == InTx && req.statement.columns != 0
    ensures Attempted(w, req, RowsWrappedOrDirect(w, req))
  {
    SavepointIsSet(w, WRAP);
    var marked := Ask(w, SetSavepoint(WRAP));
    if marked.error.None? {
      var bound := BindWrappedRows(marked.wire, req.statement);
      if bound.error.Some? {
        FallBackAttempts(w, req, bound);
      } else if req.streaming {
        StreamRowsAttempts(bound.wire, req);
        SettledWrapperAttempts(w, bound.wire, req, StreamPortal(bound.wire, req.statement));
      } else {
        CollectPortalAttempts(bound.wire, req);
        SettledWrapperAttempts(w, bound.wire, req, CollectPortal(bound.wire, req));
      }
    }
  }

  lemma TransactionAttempts(w: Wire, req: Request)
    requires ValidRequest(req) && Sound(w)
    requires w.backend.alive && w.backend.status == InTx
    ensures Attempted(w, req, ExecuteInTransaction(w, req))
  {
    hide RowsWrappedOrDirect, Reports;
    var settings := ApplyQuerySettings(w);
    if settings.error.None? {
      var prepared := PrepareBoundStatement(settings.wire, req.statement);
      if prepared.error.None? {
        if req.statement.columns == 0 {
          RunCommandExecutes(prepared.wire, req);
        } else {
          RowsWrappedOrDirectAttempts(prepared.wire, req);
        }
      }
    }
  }

  /** The last command handed to the connection between two moments, if there was one. */
  function LastSent(w: Wire, w': Wire): Option<Sent> {
    if |w.log| < |w'.log| then Some(w'.log[|w'.log| - 1]) else None
  }

  /**
   The truth of an implicit query's answer: `Ok` committed exactly its writes, any error but
   `CommitOutcomeUnknown` left nothing, and that one is only given when the last command handed to a
   live connection was COMMIT, no answer to it came, and the connection is gone.
   The statement ran at most once, in a transaction with the request's read-only flag, and once
   if the answer is `Ok`; a live connection is left without a transaction.
   */
  ghost predicate TruthfulImplicit(w: Wire, req: Request, a: Answer)
    requires ValidRequest(req)
  {
    && Sound(a.wire)
    && |w.log| <= |a.wire.log|
    && (a.wire.backend.alive ==> a.wire.backend == FRESH)
    && (a.wire.runs == w.runs || a.wire.runs == w.runs + [Mode(req.readOnly, true)])
    && (a.result.Ok? ==>
          && a.wire.durable == w.durable + req.statement.effects
          && a.wire.runs == w.runs + [Mode(req.readOnly, true)]
          && LastSent(w, a.wire) == Some(Sent(Commit, true, Done))
          && Reports(req, a.result.value))
    && (a.result.Err? ==>
          match a.result.error
          case CommitOutcomeUnknown =>
            && !a.wire.backend.alive
            && LastSent(w, a.wire) == Some(Sent(Commit, true, NoAnswer))
            && a.wire.runs == w.runs + [Mode(req.readOnly, true)]
            && (a.wire.durable == w.durable || a.wire.durable == w.durable + req.statement.effects)
          case Sql(_) => a.wire.durable == w.durable
          case Internal => a.wire.durable == w.durable
          case InvalidParams => a.wire.durable == w.durable
          case _ => false)
    && (req.readOnly ==> a.wire.durable == w.durable)
    && (LastSent(w, a.wire).Some? && LastSent(w, a.wire).value.command == Commit ==>
          match LastSent(w, a.wire).value.reply
          case Done => a.result.Ok?
          case SqlError(code) => a.result == Err(Sql(code))
          case NoAnswer => a.result == Err(CommitOutcomeUnknown))
    && Sends(req, a.sent, a.result)
  }

  /** What becomes of an open transaction when COMMIT or ROLLBACK is sent. */
  lemma CommitIsSent(w: Wire)
    requires w.backend.alive && w.backend.status == InTx
    ensures var (wire, reply) := Send(w, Commit);
            && wire.runs == w.runs && wire.log == w.log + [Sent(Commit, true, reply)]
            && match reply
               case Done => wire.backend == FRESH && wire.durable == w.durable + w.backend.pending
               case SqlError(_) => wire.backend == FRESH && wire.durable == w.durable
               case NoAnswer => wire.backend == DEAD && (wire.durable == w.durable || wire.durable == w.durable + w.backend.pending)
  {
  }

  lemma RollbackIsSent(w: Wire)
    requires Sound(w)
    ensures var (wire, reply) := Send(w, Rollback);
            && wire.runs == w.runs && wire.durable == w.durable && |w.log| <= |wire.log|
            && (wire.backend == FRESH || wire.backend == DEAD)
  {
  }

  lemma BeginIsAsked(w: Wire, mode: Mode)
    requires w.backend == FRESH || w.backend == DEAD
    ensures var s := Ask(w, Begin(mode));
            && s.wire.runs == w.runs && s.wire.durable == w.durable
            && (s.error.None? ==> s.wire.backend == Backend(true, InTx, mode, [], []))
            && (s.error.Some? ==> s.wire.backend == FRESH || s.wire.backend == DEAD)
  {
  }

  lemma FinishedTransactionIsTruthful(w: Wire, begun: Wire, req: Request, a: Answer)
    requires ValidRequest(req) && Sound(w) && w.backend.alive
    requires begun.backend == Backend(true, InTx, Mode(req.readOnly, true), [], [])
    requires begun.durable == w.durable && begun.runs == w.runs && |w.log| <= |begun.log|
    requires Attempted(begun, req, a)
    ensures TruthfulImplicit(w, req, FinishTransaction(a))
  {
    if a.result.Ok? { CommitIsSent(a.wire); } else { RollbackIsSent(a.wire); }
    hide Reports, Send;
    assert [] + req.statement.effects == req.statement.effects;
    assert w.durable + [] == w.durable;
  }

  lemma ImplicitQueryIsTruthful(w: Wire, req: Request)
    requires ValidRequest(req) && Sound(w)
    requires w.backend == FRESH || w.backend == DEAD
    ensures TruthfulImplicit(w, req, ExecuteWithClient(w, req))
  {
    BeginIsAsked(w, Mode(req.readOnly, true));
    hide Ask, ExecuteInTransaction, FinishTransaction, Reports;
    var begun := Ask(w, Begin(Mode(req.readOnly, true)));
    if begun.error.None? {
      TransactionAttempts(begun.wire, req);
      FinishedTransactionIsTruthful(w, begun.wire, req, ExecuteInTransaction(begun.wire, req));
    }
  }
}
