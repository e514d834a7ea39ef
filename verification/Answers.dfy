/**
 What a caller is answered when the environment does nothing, or refuses one message and nothing else:
 which queries are answered with a result, which are refused, and with which error.
 */
module Answers {
  import opened Wrappers
  import opened Inline
  import opened Postgres
  import opened Executor
  import opened Session
  import T = Transactions
  import Config

  /** Every message is served, except that the one after the first `n` is refused if there is a refusal. */
  ghost predicate Serves(fates: seq<Fate>, n: int, refusal: Option<SqlState>) {
    && (refusal.Some? ==> 0 <= n < |fates| && fates[n] == Refused(refusal.value) && refusal.value != IN_FAILED_TRANSACTION)
    && forall i :: 0 <= i < |fates| && (refusal.Some? ==> i != n) ==> fates[i] == Served
  }

  /** A message before the refused one finds a live server that does as it is told. */
  lemma AskIsServed(w: Wire, c: Command, n: int, refusal: Option<SqlState>)
    requires w.backend.alive && Serves(w.fates, n, refusal) && (refusal.None? || n > 0) && !c.Commit?
    ensures var s, (b, reply) := Ask(w, c), Serve(w.backend, c);
            && s.wire.backend == b && s.wire.durable == w.durable && s.wire.runs == w.runs
            && Serves(s.wire.fates, n - 1, refusal)
            && (reply.Done? ==> s.error.None?)
            && (reply.SqlError? ==> s.error == Some(Sql(reply.code)))
  {
  }

  lemma AskIsRefused(w: Wire, c: Command, code: SqlState)
    requires w.backend.alive && Serves(w.fates, 0, Some(code)) && Refusable(c) && !c.Commit?
    ensures var s := Ask(w, c);
            && s.wire.backend == Refuse(w.backend, c) && s.wire.durable == w.durable && s.wire.runs == w.runs
            && Serves(s.wire.fates, 0, None)
            && s.error == Some(Sql(code))
  {
  }

  /** A transaction in which statements can run. */
  predicate Working(b: Backend) {
    b.alive && b.status == InTx
  }

  /** After some messages the wire is as before but for `served` fewer messages to come, and nothing went wrong. */
  ghost predicate Unchanged(w: Wire, w': Wire, n: int, refusal: Option<SqlState>) {
    w'.backend == w.backend && w'.durable == w.durable && w'.runs == w.runs && Serves(w'.fates, n, refusal)
  }

  lemma SettingsAreServed(w: Wire, n: int, refusal: Option<SqlState>)
    requires Working(w.backend) && Serves(w.fates, n, refusal) && (refusal.None? || n > 1)
    ensures var s := ApplyQuerySettings(w); s.error.None? && Unchanged(w, s.wire, n - 2, refusal)
  {
    AskIsServed(w, Settings, n, refusal);
    AskIsServed(Ask(w, Settings).wire, Settings, n - 1, refusal);
    hide Ask;
  }

  lemma PrepareIsServed(w: Wire, n: int, refusal: Option<SqlState>)
    requires Working(w.backend) && Serves(w.fates, n, refusal) && (refusal.None? || n > 0)
    ensures var s := Ask(w, Prepare); s.error.None? && Unchanged(w, s.wire, n - 1, refusal)
  {
    AskIsServed(w, Prepare, n, refusal);
  }

  lemma BindIsServed(w: Wire)
    requires Working(w.backend) && Serves(w.fates, 0, None)
    ensures var s := Ask(w, Bind); s.error.None? && Unchanged(w, s.wire, 0, None)
  {
    AskIsServed(w, Bind, 0, None);
  }

  function WithMark(b: Backend, name: string): Backend {
    b.(savepoints := b.savepoints + [Savepoint(name, b.pending)])
  }

  lemma MarkIsServed(w: Wire, name: string, n: int, refusal: Option<SqlState>)
    requires Working(w.backend) && Serves(w.fates, n, refusal) && (refusal.None? || n > 0)
    ensures var s := Ask(w, SetSavepoint(name)); s.error.None? && Unchanged(w.(backend := WithMark(w.backend, name)), s.wire, n - 1, refusal)
  {
    AskIsServed(w, SetSavepoint(name), n, refusal);
  }

  /** Releasing and rolling back are not refused by the environment, whatever it was going to refuse. */
  lemma ReleaseIsServed(w: Wire, b: Backend, name: string, mark: seq<Effect>)
    requires Working(b) && w.backend == b.(savepoints := b.savepoints + [Savepoint(name, mark)])
    requires Serves(w.fates, 0, None)
    ensures var s := Ask(w, Release(name)); s.error.None? && Unchanged(w.(backend := b), s.wire, 0, None)
  {
    AskIsServed(w, Release(name), 0, None);
    SavepointIsReleased(w, b.savepoints, name, mark);
  }

  lemma WrapIsUndone(w: Wire, b: Backend)
    requires Working(b) && w.backend.alive && w.backend.status != NoTx && w.backend.mode == b.mode
    requires w.backend.savepoints == b.savepoints + [Savepoint(WRAP, b.pending)] && Serves(w.fates, 0, None)
    ensures var s := RollbackWrapSavepoint(w); s.error.None? && Unchanged(w.(backend := b), s.wire, 0, None)
  {
    AskIsServed(w, RollbackTo(WRAP), 0, None);
    AskIsServed(Ask(w, RollbackTo(WRAP)).wire, Release(WRAP), 0, None);
    WrapIsRolledBack(w, b);
    SavepointIsRestored(w, b.savepoints, WRAP, b.pending, []);
    assert w.backend.savepoints + [] == w.backend.savepoints;
    hide Ask;
  }

  // How a statement is read once it has been accepted.

  const UNCAPPED := Caps(USIZE_MAX, USIZE_MAX)

  function CapsOf(req: Request): Caps {
    if req.streaming then UNCAPPED else req.caps
  }

  /** Reading the statement's answer as the request asks for it comes to row `i`, or its end, and fails with `e`. */
  ghost predicate EndsIn(req: Request, i: nat, e: ReadError) {
    if req.statement.columns == 0 then req.statement.failure.Some? && i == 0 && e == ServerFailed(req.statement.failure.value)
    else Meets(req.statement.Yields(), CapsOf(req), i, e)
  }

  /** Every row can be decoded and the statement does not fail. */
  ghost predicate Clean(st: Statement) {
    st.failure.None? && forall i :: 0 <= i < st.count ==> st.at(i).readable
  }

  /** The transaction does not allow what the statement does. */
  predicate Forbidden(readOnly: bool, st: Statement) {
    readOnly && st.effects != []
  }

  lemma {:induction false} AllReadMeets(src: Finite, i: nat, n: nat, e: ReadError)
    requires i <= n && Meets(src, UNCAPPED, n, e)
    ensures i <= src.length.value && ReadAll(src, i) == AllRead(Slice(src, i, n), Some(e))
    decreases n - i
  {
    hide Within;
    assert n > 0 ==> src.Has(n - 1);
    if i < n {
      AllReadMeets(src, i + 1, n, e);
      assert [src.at(i)] + Slice(src, i + 1, n) == Slice(src, i, n);
    } else {
      assert Slice(src, i, n) == [];
    }
  }

  lemma {:induction false} AllReadMet(src: Finite, i: nat) returns (n: nat)
    requires i <= src.length.value && ReadAll(src, i).error.Some?
    requires forall k :: 0 <= k < i ==> src.at(k).readable
    ensures Meets(src, UNCAPPED, n, ReadAll(src, i).error.value)
    decreases src.length.value - i
  {
    n := i;
    if i < src.length.value && src.at(i).readable {
      n := AllReadMet(src, i + 1);
    }
  }

  lemma {:induction false} AllReadClean(src: Finite, i: nat)
    requires i <= src.length.value && ReadAll(src, i).error.None?
    ensures src.failure.None? && forall k :: i <= k < src.length.value ==> src.at(k).readable
    decreases src.length.value - i
  {
    if i < src.length.value { AllReadClean(src, i + 1); }
  }

  /** The server's failure is told with its code; anything else that keeps rows from being read is an internal error. */
  predicate ToldAs(result: Result<Outcome, ExecError>, e: ReadError) {
    match e
    case ServerFailed(code) => result == Err(Sql(code))
    case ConnectionGone => result == Err(Internal)
    case Undecodable => result == Err(Internal)
  }

  /** The result of a statement that is run. */
  ghost predicate Results(req: Request, readOnly: bool, result: Result<Outcome, ExecError>) {
    if Forbidden(readOnly, req.statement) then result == Err(Sql(READ_ONLY_TRANSACTION))
    else
      && (forall i: nat, e :: EndsIn(req, i, e) ==> ToldAs(result, e))
      && (Clean(req.statement) ==> result.Ok?)
      && (req.streaming || req.statement.columns == 0 ==> (result.Ok? <==> !exists i: nat, e :: EndsIn(req, i, e)))
  }

  /** What a statement that may run is answered in a transaction. */
  ghost predicate RunIsAnswered(w: Wire, req: Request, a: Answer) {
    && a.wire.runs == w.runs + [w.backend.mode] && a.wire.durable == w.durable && a.wire.backend.alive
    && Serves(a.wire.fates, 0, None)
    && Results(req, w.backend.mode.readOnly, a.result)
    && SentAll(req, w.backend.mode.readOnly, a.sent)
  }

  /** The sink of a streaming query is started, and given the rows up to the end or the first trouble; none if the statement is forbidden. */
  ghost predicate SentAll(req: Request, readOnly: bool, sent: seq<SinkCall>) {
    var src := req.statement.Yields();
    if !req.streaming || req.statement.columns == 0 then sent == []
    else if Forbidden(readOnly, req.statement) then sent == [Start]
    else
      && sent != [] && sent[0] == Start
      && (forall i: nat, e :: EndsIn(req, i, e) ==> sent == [Start] + Pushes(Slice(src, 0, i)))
      && (Clean(req.statement) ==> sent == [Start] + Pushes(Slice(src, 0, req.statement.count)))
  }

  lemma CommandIsAnswered(w: Wire, req: Request)
    requires ValidRequest(req) && Working(w.backend) && Serves(w.fates, 0, None) && req.statement.columns == 0
    ensures RunIsAnswered(w, req, RunCommand(w, req.statement))
  {
    var st := req.statement;
    if st.failure.Some? { assert EndsIn(req, 0, ServerFailed(st.failure.value)); }
  }

  /** What the server does with a statement it is given, when nothing goes wrong. */
  lemma StatementIsExecuted(w: Wire, st: Statement)
    requires Working(w.backend) && Serves(w.fates, 0, None)
    ensures var (wire, stream) := Execute(w, st);
            && wire.runs == w.runs + [w.backend.mode] && wire.durable == w.durable && wire.backend.alive && Serves(wire.fates, 0, None)
            && stream == Rows(if Forbidden(w.backend.mode.readOnly, st) then Source(st.at, Some(0), Some(ServerFailed(READ_ONLY_TRANSACTION)))
                              else st.Yields())
  {
  }

  lemma StreamIsAnswered(w: Wire, req: Request)
    requires ValidRequest(req) && Working(w.backend) && Serves(w.fates, 0, None) && req.statement.columns != 0 && req.streaming
    ensures RunIsAnswered(w, req, StreamRows(w, req.statement)) && StreamRows(w, req.statement).sent != []
  {
    StatementIsExecuted(w, req.statement);
    hide Execute;
    var src := req.statement.Yields();
    if Forbidden(w.backend.mode.readOnly, req.statement) {
      assert [Start] + Pushes([]) == [Start];
    } else {
      StreamEnds(req);
      hide EndsIn, ReadAll, Clean;
    }
  }

  /** A stream is read to its end, or to its first trouble. */
  lemma StreamEnds(req: Request)
    requires req.streaming && req.statement.columns != 0
    ensures var src, read := req.statement.Yields(), ReadAll(req.statement.Yields(), 0);
            && (forall i: nat, e :: EndsIn(req, i, e) ==> read == AllRead(Slice(src, 0, i), Some(e)))
            && (read.error.Some? <==> exists i: nat, e :: EndsIn(req, i, e))
            && (Clean(req.statement) ==> read == AllRead(Slice(src, 0, req.statement.count), None))
  {
    var src, read := req.statement.Yields(), ReadAll(req.statement.Yields(), 0);
    forall i: nat, e | EndsIn(req, i, e) ensures read == AllRead(Slice(src, 0, i), Some(e)) {
      AllReadMeets(src, 0, i, e);
    }
    if read.error.Some? {
      var n := AllReadMet(src, 0);
      assert EndsIn(req, n, read.error.value);
      assert !Clean(req.statement);
    } else {
      SliceOfShorter(src, |read.rows|, read.rows);
    }
  }

  lemma InlineEnds(req: Request)
    requires ValidRequest(req) && !req.streaming && req.statement.columns != 0
    ensures var read := StreamRead(req.statement.Yields(), req.caps, NOTHING);
            && (forall i: nat, e :: EndsIn(req, i, e) ==> read == Err(e))
            && (read.Err? <==> exists i: nat, e :: EndsIn(req, i, e))
            && (Clean(req.statement) ==> read.Ok?)
  {
    var src, read := req.statement.Yields(), StreamRead(req.statement.Yields(), req.caps, NOTHING);
    forall i: nat, e | EndsIn(req, i, e) ensures read == Err(e) {
      StreamMeets(src, req.caps, NOTHING, i, e);
    }
    if read.Err? {
      var i := StreamMet(src, req.caps, NOTHING);
      assert EndsIn(req, i, read.error);
    }
    if Clean(req.statement) { CleanReadsAgree(src, req.caps, 1); }
  }

  lemma InlineIsAnswered(w: Wire, req: Request)
    requires ValidRequest(req) && Working(w.backend) && Serves(w.fates, 0, None) && req.statement.columns != 0 && !req.streaming
    ensures RunIsAnswered(w, req, CollectInline(w, req))
    ensures !Forbidden(w.backend.mode.readOnly, req.statement) ==>
              (CollectInline(w, req).result.Ok? <==> !exists i: nat, e :: EndsIn(req, i, e))
  {
    StatementIsExecuted(w, req.statement);
    hide Execute;
    var src := req.statement.Yields();
    if Forbidden(w.backend.mode.readOnly, req.statement) {
    } else {
      InlineEnds(req);
      hide StreamRead, EndsIn, Clean;
    }
  }

  lemma PortalIsAnswered(w: Wire, req: Request)
    requires ValidRequest(req) && Working(w.backend) && Serves(w.fates, 0, None) && req.statement.columns != 0 && !req.streaming
    ensures RunIsAnswered(w, req, CollectPortal(w, req))
  {
    var st, batch := req.statement, Clamp(req.batchRows, 1, INLINE_PORTAL_BATCH_ROWS);
    var src := st.Yields();
    forall i: nat, e | EndsIn(req, i, e) ensures PortalRead(src, req.caps, batch, NOTHING) == Err(e) {
      PortalMeets(src, req.caps, batch, NOTHING, i, e);
    }
    if Clean(st) { CleanReadsAgree(src, req.caps, batch); }
    hide PortalRead, EndsIn, Clean;
  }

  // Which statements are run.

  /**
   Why a statement is not run, if it is not: its columns or parameters do not fit, or neither the
   wrapper nor the statement itself can be read. `refusal` is how the server refuses to parse the
   wrapper, if it does. Inside an explicit transaction the parameters of the statement itself are bound
   only if it is read itself; outside, a streaming query also falls back if the wrapper's do not bind.
   */
  function RefusalOf(req: Request, explicit: bool, refusal: Option<SqlState>): Option<ExecError> {
    var st := req.statement;
    var wrapperBinds := st.wrapperParamsMatch && st.wrapperParamsBind;
    if st.duplicateColumns || !st.paramsMatch then Some(InvalidParams)
    else if st.columns == 0 then if st.paramsBind then None else Some(InvalidParams)
    else if !explicit && !st.paramsBind then Some(InvalidParams)
    else
      match refusal
      case Some(code) =>
        if !st.fallbackSupported then Some(Sql(code)) else if st.paramsBind then None else Some(InvalidParams)
      case None =>
        if wrapperBinds || (!explicit && req.streaming && st.fallbackSupported) then None else Some(InvalidParams)
  }

  ghost predicate NoneLost(fates: seq<Fate>) {
    forall i :: 0 <= i < |fates| ==> !fates[i].Lost?
  }

  /** A statement that is not run leaves no trace. */
  ghost predicate NotRun(w: Wire, a: Answer, e: ExecError) {
    && a.result == Err(e) && a.sent == []
    && a.wire.runs == w.runs && a.wire.durable == w.durable && a.wire.backend.alive && NoneLost(a.wire.fates)
  }

  lemma SettledIsAnswered(w: Wire, bound: Wire, req: Request, a: Answer)
    requires ValidRequest(req) && Sound(w) && Working(w.backend)
    requires bound.backend == WithMark(w.backend, WRAP) && bound.durable == w.durable && bound.runs == w.runs
    requires RunIsAnswered(bound, req, a) && Attempted(bound, req, a)
    requires a.wire.backend.savepoints == bound.backend.savepoints
    ensures RunIsAnswered(w, req, SettleWrapper(a))
  {
    if a.result.Err? {
      WrapIsUndone(a.wire, w.backend);
    } else {
      ReleaseIsServed(a.wire, a.wire.backend.(savepoints := w.backend.savepoints), WRAP, w.backend.pending);
    }
    hide Results, SentAll;
  }

  lemma StreamPortalIsAnswered(w: Wire, req: Request)
    requires ValidRequest(req) && Working(w.backend) && Serves(w.fates, 0, None) && req.statement.columns != 0 && req.streaming
    ensures RunIsAnswered(w, req, StreamPortal(w, req.statement))
  {
    StreamIsAnswered(w, req);
    hide StreamRows;
  }

  lemma FallBackIsAnswered(w: Wire, req: Request, bound: Step)
    requires ValidRequest(req) && Working(w.backend) && req.statement.columns != 0
    requires bound.error.Some? && bound.wire.durable == w.durable && bound.wire.runs == w.runs && Serves(bound.wire.fates, 0, None)
    requires bound.wire.backend.alive && bound.wire.backend.status != NoTx && bound.wire.backend.mode == w.backend.mode
    requires bound.wire.backend.savepoints == w.backend.savepoints + [Savepoint(WRAP, w.backend.pending)]
    ensures if !req.streaming && bound.error.value.InvalidParams? then NotRun(w, FallBack(bound, req), InvalidParams)
            else if !req.statement.fallbackSupported then NotRun(w, FallBack(bound, req), bound.error.value)
            else RunIsAnswered(w, req, FallBack(bound, req))
  {
    WrapIsUndone(bound.wire, w.backend);
    var undone := RollbackWrapSavepoint(bound.wire).wire;
    BindIsServed(undone);
    if req.streaming { StreamIsAnswered(undone, req); } else { PortalIsAnswered(Ask(undone, Bind).wire, req); }
    hide RollbackWrapSavepoint, StreamRows, CollectPortal, Results, SentAll, Ask;
  }

  /** The wrapper is bound, or the statement falls back from it. */
  lemma RowsAreAnswered(w: Wire, req: Request, refusal: Option<SqlState>)
    requires ValidRequest(req) && Sound(w) && Working(w.backend) && req.statement.columns != 0
    requires Serves(w.fates, 1, refusal)
    requires !req.statement.duplicateColumns && req.statement.paramsMatch && req.statement.paramsBind
    ensures match RefusalOf(req, false, refusal)
            case Some(e) => NotRun(w, RowsWrappedOrDirect(w, req), e)
            case None => RunIsAnswered(w, req, RowsWrappedOrDirect(w, req))
  {
    MarkIsServed(w, WRAP, 1, refusal);
    var marked := Ask(w, SetSavepoint(WRAP)).wire;
    if refusal.Some? {
      AskIsRefused(marked, Prepare, refusal.value);
      FallBackIsAnswered(w, req, BindWrappedRows(marked, req.statement));
      hide Ask, FallBack;
    } else {
      PrepareIsServed(marked, 0, None);
      var bound := BindWrappedRows(marked, req.statement);
      if bound.error.Some? {
        FallBackIsAnswered(w, req, bound);
        hide Ask, FallBack;
      } else {
        BindIsServed(Ask(marked, Prepare).wire);
        WrapperIsAnswered(w, bound.wire, req);
        hide Ask, SettleWrapper;
      }
    }
  }

  lemma WrapperIsAnswered(w: Wire, bound: Wire, req: Request)
    requires ValidRequest(req) && Sound(w) && Working(w.backend) && req.statement.columns != 0
    requires Unchanged(w.(backend := WithMark(w.backend, WRAP)), bound, 0, None)
    ensures RunIsAnswered(w, req, SettleWrapper(if req.streaming then StreamPortal(bound, req.statement) else CollectPortal(bound, req)))
  {
    hide Ask, SettleWrapper, Results, SentAll;
    if req.streaming {
      StreamPortalIsAnswered(bound, req);
      StreamRowsAttempts(bound, req);
      SettledIsAnswered(w, bound, req, StreamPortal(bound, req.statement));
    } else {
      PortalIsAnswered(bound, req);
      CollectPortalAttempts(bound, req);
      SettledIsAnswered(w, bound, req, CollectPortal(bound, req));
    }
  }

  lemma TransactionIsAnswered(w: Wire, req: Request, refusal: Option<SqlState>)
    requires ValidRequest(req) && Sound(w) && Working(w.backend) && Serves(w.fates, 4, refusal)
    requires refusal.Some? ==> req.statement.columns != 0
    ensures match RefusalOf(req, false, refusal)
            case Some(e) => NotRun(w, ExecuteInTransaction(w, req), e)
            case None => RunIsAnswered(w, req, ExecuteInTransaction(w, req))
  {
    SettingsAreServed(w, 4, refusal);
    var settled := ApplyQuerySettings(w).wire;
    PrepareIsServed(settled, 2, refusal);
    var prepared := Ask(settled, Prepare).wire;
    if req.statement.columns == 0 {
      CommandIsAnswered(prepared, req);
    } else if !req.statement.duplicateColumns && req.statement.paramsMatch && req.statement.paramsBind {
      RowsAreAnswered(prepared, req, refusal);
    }
    hide Ask, ApplyQuerySettings, RowsWrappedOrDirect, RunCommand, Results, SentAll;
  }

  lemma FinishIsServed(w: Wire, a: Answer)
    requires a.wire.backend.alive && (a.result.Ok? ==> Serves(a.wire.fates, 0, None) && Working(a.wire.backend))
    ensures FinishTransaction(a).sent == a.sent && FinishTransaction(a).result == a.result
    ensures FinishTransaction(a).wire.runs == a.wire.runs
    ensures FinishTransaction(a).wire.durable == if a.result.Ok? then a.wire.durable + a.wire.backend.pending else a.wire.durable
  {
  }

  /**
   An implicit query on a fresh connection, when everything is served or only the parse of the `to_jsonb`
   wrapper, its sixth message, is refused. It is run unless `RefusalOf` says why not, and what becomes of
   a run is told by the statement's rows: trouble met while reading them is the answer, and with none at
   all the answer is a result, with the statement's writes committed.
   */
  lemma ImplicitQueryIsAnswered(w: Wire, req: Request, refusal: Option<SqlState>)
    requires ValidRequest(req) && w.backend == FRESH && Serves(w.fates, 5, refusal)
    requires refusal.Some? ==> req.statement.columns != 0
    ensures var a := ExecuteWithClient(w, req);
            match RefusalOf(req, false, refusal)
            case Some(e) => a.result == Err(e) && a.wire.runs == w.runs && a.wire.durable == w.durable && a.sent == []
            case None =>
              && a.wire.runs == w.runs + [Mode(req.readOnly, true)]
              && Results(req, req.readOnly, a.result) && SentAll(req, req.readOnly, a.sent)
              && a.wire.durable == if a.result.Ok? then w.durable + req.statement.effects else w.durable
  {
    AskIsServed(w, Begin(Mode(req.readOnly, true)), 5, refusal);
    var begun := Ask(w, Begin(Mode(req.readOnly, true))).wire;
    assert begun.backend == Backend(true, InTx, Mode(req.readOnly, true), [], []);
    TransactionIsAnswered(begun, req, refusal);
    TransactionAttempts(begun, req);
    FinishIsServed(begun, ExecuteInTransaction(begun, req));
    hide Ask, ExecuteInTransaction, FinishTransaction, Results, SentAll, Reports, Sends;
    assert [] + req.statement.effects == req.statement.effects;
  }

  // The same inside an explicit transaction.

  /** Reading without a portal, the result says exactly whether the statement's answer could be read. */
  ghost predicate ReadResults(req: Request, readOnly: bool, result: Result<Outcome, ExecError>) {
    && Results(req, readOnly, result)
    && (!Forbidden(readOnly, req.statement) ==> (result.Ok? <==> !exists i: nat, e :: EndsIn(req, i, e)))
  }

  lemma ReadRowsAreAnswered(w: Wire, req: Request)
    requires ValidRequest(req) && Working(w.backend) && Serves(w.fates, 0, None) && req.statement.columns != 0
    ensures RunIsAnswered(w, req, ReadRows(w, req)) && ReadResults(req, w.backend.mode.readOnly, ReadRows(w, req).result)
  {
    if req.streaming { StreamIsAnswered(w, req); } else { InlineIsAnswered(w, req); }
    hide StreamRows, CollectInline, SentAll;
  }

  /** The wrapper parses or it does not; either way the transaction is as before. */
  lemma WrapperIsPrepared(w: Wire, st: Statement, refusal: Option<SqlState>)
    requires Sound(w) && Working(w.backend) && Serves(w.fates, 1, refusal)
    ensures var s := PrepareWrappedOnClient(w, st);
            && Unchanged(w, s.wire, 0, None)
            && s.error == match refusal
                          case Some(code) => Some(Sql(code))
                          case None => if st.wrapperParamsMatch then None else Some(InvalidParams)
  {
    MarkIsServed(w, WRAP, 1, refusal);
    var marked := Ask(w, SetSavepoint(WRAP)).wire;
    if refusal.Some? {
      AskIsRefused(marked, Prepare, refusal.value);
      WrapIsUndone(Ask(marked, Prepare).wire, w.backend);
    } else {
      PrepareIsServed(marked, 0, None);
      ReleaseIsServed(Ask(marked, Prepare).wire, w.backend, WRAP, w.backend.pending);
    }
    hide Ask, RollbackWrapSavepoint;
  }

  lemma RowsOnClientAreAnswered(w: Wire, req: Request, refusal: Option<SqlState>)
    requires ValidRequest(req) && Sound(w) && Working(w.backend) && Serves(w.fates, 1, refusal)
    requires req.statement.columns != 0 && !req.statement.duplicateColumns && req.statement.paramsMatch
    ensures var a := RowsOnClient(w, req);
            match RefusalOf(req, true, refusal)
            case Some(e) => NotRun(w, a, e)
            case None => RunIsAnswered(w, req, a) && ReadResults(req, w.backend.mode.readOnly, a.result)
  {
    hide PrepareWrappedOnClient, ReadRows, ReadResults, Results, SentAll;
    WrapperIsPrepared(w, req.statement, refusal);
    ReadRowsAreAnswered(PrepareWrappedOnClient(w, req.statement).wire, req);
  }

  lemma CommandResultsAreExact(req: Request, readOnly: bool, result: Result<Outcome, ExecError>)
    requires Results(req, readOnly, result) && req.statement.columns == 0
    ensures ReadResults(req, readOnly, result)
  {
  }

  lemma InnerIsAnswered(w: Wire, req: Request, refusal: Option<SqlState>)
    requires ValidRequest(req) && Sound(w) && Working(w.backend) && Serves(w.fates, 4, refusal)
    requires refusal.Some? ==> req.statement.columns != 0
    ensures var a := ExecuteInOpenTxInner(w, req);
            match RefusalOf(req, true, refusal)
            case Some(e) => NotRun(w, a, e)
            case None => RunIsAnswered(w, req, a) && ReadResults(req, w.backend.mode.readOnly, a.result)
  {
    hide Ask, ApplyQuerySettings, RowsOnClient, RunCommand, Results, ReadResults, SentAll;
    var st := req.statement;
    SettingsAreServed(w, 4, refusal);
    var settled := ApplyQuerySettings(w).wire;
    PrepareIsServed(settled, 2, refusal);
    var prepared := Ask(settled, Prepare).wire;
    if st.columns == 0 {
      CommandIsAnswered(prepared, req);
      CommandResultsAreExact(req, w.backend.mode.readOnly, RunCommand(prepared, st).result);
    } else if !st.duplicateColumns && st.paramsMatch {
      RowsOnClientAreAnswered(prepared, req, refusal);
    }
  }

  /** A result of a statement whose failure was abandoned leaves the transaction aborted, and the release is refused. */
  lemma ReleaseIsAnswered(a: Answer)
    requires Sound(a.wire) && a.wire.backend.alive && Serves(a.wire.fates, 0, None) && a.wire.backend.status != NoTx
    requires exists base, mark :: a.wire.backend.savepoints == base + [Savepoint(EXPLICIT, mark)]
    ensures var s := Ask(a.wire, Release(EXPLICIT));
            && s.error == (if a.wire.backend.status == InTx then None else Some(Sql(IN_FAILED_TRANSACTION)))
            && s.wire.runs == a.wire.runs && s.wire.durable == a.wire.durable && s.wire.backend.alive
  {
    var base, mark :| a.wire.backend.savepoints == base + [Savepoint(EXPLICIT, mark)];
    AskIsServed(a.wire, Release(EXPLICIT), 0, None);
    SavepointIsReleased(a.wire, base, EXPLICIT, mark);
  }

  /** The savepoint around a query is released after a result and rolled back to after an error. */
  function SettledExplicit(a: Answer): Answer {
    if a.result.Ok? then
      var released := Ask(a.wire, Release(EXPLICIT));
      Answer(released.wire, if released.error.Some? then Err(released.error.value) else a.result, a.sent)
    else
      var undone := Ask(a.wire, RollbackTo(EXPLICIT));
      Answer(Ask(undone.wire, Release(EXPLICIT)).wire, a.result, a.sent)
  }

  lemma LiveStaysLive(w: Wire, c: Command)
    requires w.backend.alive && NoneLost(w.fates)
    ensures Ask(w, c).wire.backend.alive && NoneLost(Ask(w, c).wire.fates)
  {
  }

  lemma ExplicitIsSettled(w: Wire, marked: Wire, req: Request, a: Answer)
    requires ValidRequest(req) && Sound(a.wire) && a.wire.backend.alive && NoneLost(a.wire.fates)
    requires marked.backend == WithMark(w.backend, EXPLICIT) && marked.runs == w.runs && Executed(marked, req, a)
    requires a.result.Ok? ==> Serves(a.wire.fates, 0, None)
    requires Working(w.backend)
    ensures var s := SettledExplicit(a);
            && s.wire.backend.alive && s.wire.runs == a.wire.runs && s.sent == a.sent
            && s.result == if a.result.Ok? && a.wire.backend.status == Aborted then Err(Sql(IN_FAILED_TRANSACTION)) else a.result
  {
    if a.result.Ok? {
      assert a.wire.backend.savepoints == w.backend.savepoints + [Savepoint(EXPLICIT, w.backend.pending)];
      ReleaseIsAnswered(a);
    } else {
      LiveStaysLive(a.wire, RollbackTo(EXPLICIT));
      LiveStaysLive(Ask(a.wire, RollbackTo(EXPLICIT)).wire, Release(EXPLICIT));
    }
    hide Ask, Reports, Abandons, Sends;
  }

  /**
   A query in an open transaction, when everything is served or only the parse of the `to_jsonb` wrapper,
   here its sixth message too, is refused. A run is answered with a result exactly if its rows could be
   read; the one exception is a query that abandons its stream, which is answered `25P02`.
   */
  lemma ExplicitQueryIsAnswered(w: Wire, req: Request, refusal: Option<SqlState>)
    requires ValidRequest(req) && Sound(w) && Working(w.backend) && Serves(w.fates, 5, refusal)
    requires refusal.Some? ==> req.statement.columns != 0
    ensures var a := ExecuteInOpenTx(w, req);
            match RefusalOf(req, true, refusal)
            case Some(e) => a.result == Err(e) && a.wire.runs == w.runs && a.wire.backend == w.backend && a.sent == []
            case None =>
              && a.wire.runs == w.runs + [w.backend.mode]
              && (Abandons(req) ==> a.result == Err(Sql(IN_FAILED_TRANSACTION)))
              && (!Abandons(req) ==> ReadResults(req, w.backend.mode.readOnly, a.result) && SentAll(req, w.backend.mode.readOnly, a.sent))
  {
    MarkIsServed(w, EXPLICIT, 5, refusal);
    var marked := Ask(w, SetSavepoint(EXPLICIT)).wire;
    InnerIsAnswered(marked, req, refusal);
    InnerExecutesAtMostOnce(marked, req);
    var a := ExecuteInOpenTxInner(marked, req);
    ExplicitIsSettled(w, marked, req, a);
    assert Abandons(req) ==> !Forbidden(w.backend.mode.readOnly, req.statement);
    OpenTxKeepsSavepointDiscipline(w, req);
    hide Ask, ExecuteInOpenTxInner, ReadResults, SentAll, Reports, Abandons, Sends, Executed, SettledExplicit;
  }

  // Whatever the environment does.

  /** The statement's columns or parameters do not fit. */
  predicate IllFormed(st: Statement, explicit: bool) {
    st.duplicateColumns || !st.paramsMatch || (!st.paramsBind && (!explicit || st.columns == 0))
  }

  /** An ill-formed query is never run and never answered with a result, whatever becomes of its messages. */
  lemma IllFormedImplicitIsNotRun(w: Wire, req: Request)
    requires ValidRequest(req) && Sound(w) && IllFormed(req.statement, false)
    ensures var a := ExecuteWithClient(w, req); a.result.Err? && a.wire.runs == w.runs && a.wire.durable == w.durable
  {
    hide ExecuteInTransaction, Ask, Send;
    var begun := Ask(w, Begin(Mode(req.readOnly, true))).wire;
    IllFormedInTransaction(begun, req);
    RollbackIsSent(ExecuteInTransaction(begun, req).wire);
  }

  lemma IllFormedExplicitIsNotRun(w: Wire, req: Request)
    requires ValidRequest(req) && Sound(w) && IllFormed(req.statement, true)
    ensures var a := ExecuteInOpenTx(w, req); a.result.Err? && a.wire.runs == w.runs && a.wire.durable == w.durable
  {
    hide ExecuteInOpenTxInner, Ask;
    IllFormedInOpenTx(Ask(w, SetSavepoint(EXPLICIT)).wire, req);
  }

  lemma IllFormedInTransaction(w: Wire, req: Request)
    requires ValidRequest(req) && Sound(w) && IllFormed(req.statement, false)
    ensures var a := ExecuteInTransaction(w, req); Sound(a.wire) && a.result.Err? && a.wire.runs == w.runs && a.wire.durable == w.durable
  {
    hide RowsWrappedOrDirect, RunCommand;
  }

  lemma IllFormedInOpenTx(w: Wire, req: Request)
    requires ValidRequest(req) && IllFormed(req.statement, true)
    ensures var a := ExecuteInOpenTxInner(w, req); a.result.Err? && a.wire.runs == w.runs && a.wire.durable == w.durable
  {
    hide RowsOnClient, RunCommand;
  }

  lemma RefusedOnTheWay(w: Wire, n: nat, code: SqlState)
    requires w.backend.alive && n <= 2 && Serves(w.fates, n, Some(code)) && Working(w.backend)
    ensures var settled := ApplyQuerySettings(w);
            if n < 2 then settled.error == Some(Sql(code)) && settled.wire.runs == w.runs && settled.wire.durable == w.durable
            else settled.error.None? && Ask(settled.wire, Prepare).error == Some(Sql(code))
  {
    if n == 0 {
      AskIsRefused(w, Settings, code);
    } else {
      AskIsServed(w, Settings, n, Some(code));
      var next := Ask(w, Settings).wire;
      if n == 1 {
        AskIsRefused(next, Settings, code);
      } else {
        AskIsServed(next, Settings, n - 1, Some(code));
        AskIsRefused(Ask(next, Settings).wire, Prepare, code);
      }
    }
    hide Ask;
  }

  /**
   A refusal of the transaction's begin, of a setting or of the statement itself, which is how the server
   tells of a syntax error or a missing table, is the answer, code and all, and nothing is run.
   */
  lemma RefusalIsTheAnswer(w: Wire, req: Request, n: nat, code: SqlState)
    requires ValidRequest(req) && w.backend == FRESH && n <= 3 && Serves(w.fates, n, Some(code))
    ensures var a := ExecuteWithClient(w, req);
            a.result == Err(Sql(code)) && a.wire.runs == w.runs && a.wire.durable == w.durable && a.sent == []
  {
    hide Ask, Send, ApplyQuerySettings, RowsWrappedOrDirect, RunCommand;
    var begin := Begin(Mode(req.readOnly, true));
    if n == 0 {
      AskIsRefused(w, begin, code);
    } else {
      AskIsServed(w, begin, n, Some(code));
      var begun := Ask(w, begin).wire;
      RefusedOnTheWay(begun, n - 1, code);
      RollbackIsSent(ExecuteInTransaction(begun, req).wire);
    }
  }

  lemma RefusalIsTheAnswerInside(w: Wire, req: Request, n: nat, code: SqlState)
    requires ValidRequest(req) && Sound(w) && Working(w.backend) && 1 <= n <= 3 && Serves(w.fates, n, Some(code))
    ensures var a := ExecuteInOpenTx(w, req);
            a.result == Err(Sql(code)) && a.wire.runs == w.runs && a.wire.durable == w.durable && a.sent == []
  {
    hide Ask, ApplyQuerySettings, RowsOnClient, RunCommand;
    MarkIsServed(w, EXPLICIT, n, Some(code));
    RefusedOnTheWay(Ask(w, SetSavepoint(EXPLICIT)).wire, n - 1, code);
  }

  /** A wrapper that parses but is refused when it is bound is fallen back from like one that does not parse. */
  lemma RefusedBindingFallsBack(w: Wire, req: Request, code: SqlState)
    requires ValidRequest(req) && Sound(w) && Working(w.backend) && req.statement.columns != 0 && Serves(w.fates, 2, Some(code))
    requires !req.statement.duplicateColumns && req.statement.paramsMatch && req.statement.paramsBind
    requires req.statement.wrapperParamsMatch && req.statement.wrapperParamsBind
    ensures if req.statement.fallbackSupported then RunIsAnswered(w, req, RowsWrappedOrDirect(w, req))
            else NotRun(w, RowsWrappedOrDirect(w, req), Sql(code))
  {
    MarkIsServed(w, WRAP, 2, Some(code));
    var marked := Ask(w, SetSavepoint(WRAP)).wire;
    PrepareIsServed(marked, 1, Some(code));
    AskIsRefused(Ask(marked, Prepare).wire, Bind, code);
    FallBackIsAnswered(w, req, BindWrappedRows(marked, req.statement));
    hide Ask, FallBack;
  }

  /** The result of a streaming query is begun before its portal is first asked for rows, so a refusal then comes behind a start. */
  lemma RefusedPortalHasStarted(w: Wire, req: Request, code: SqlState)
    requires ValidRequest(req) && Sound(w) && Working(w.backend) && req.statement.columns != 0 && req.streaming && Serves(w.fates, 3, Some(code))
    requires req.statement.wrapperParamsMatch && req.statement.wrapperParamsBind
    ensures var a := RowsWrappedOrDirect(w, req);
            a.result == Err(Sql(code)) && a.sent == [Start] && a.wire.runs == w.runs && a.wire.durable == w.durable
  {
    MarkIsServed(w, WRAP, 3, Some(code));
    var marked := Ask(w, SetSavepoint(WRAP)).wire;
    PrepareIsServed(marked, 2, Some(code));
    var prepared := Ask(marked, Prepare).wire;
    AskIsServed(prepared, Bind, 1, Some(code));
    var bound := Ask(prepared, Bind).wire;
    RefusedStream(bound, req.statement, code);
    WrapIsUndone(StreamPortal(bound, req.statement).wire, w.backend);
    hide Ask, RollbackWrapSavepoint, StreamPortal;
  }

  lemma RefusedStream(w: Wire, st: Statement, code: SqlState)
    requires Working(w.backend) && Serves(w.fates, 0, Some(code))
    ensures var a := StreamPortal(w, st);
            && a.result == Err(Sql(code)) && a.sent == [Start]
            && a.wire.runs == w.runs && a.wire.durable == w.durable && Serves(a.wire.fates, 0, None)
            && a.wire.backend == w.backend.(status := Aborted)
  {
  }

  // What a caller is answered, in whatever state any run has left the session.

  /** Why a query does not come to a transaction that can run it, if it does not. */
  function TurnedAway(s: Session, req: Request, cancelled: bool, env: Env): Option<ExecError> {
    match s.tx
    case FailedTx => Some(InvalidRequest)
    case Idle =>
      if Live(s, env) then
        if cancelled then Some(Cancelled) else if !s.client.value.alive then Some(Internal) else None
      else if env.connectError.Some? then env.connectError
      else if cancelled then Some(Cancelled) else None
    case _ =>
      if (s.tx == ReadWriteTx && req.readOnly) || !Live(s, env) then Some(InvalidRequest)
      else if cancelled then Some(Cancelled)
      else if !s.client.value.alive then Some(Internal)
      else if s.client.value.status == Aborted then Some(Sql(IN_FAILED_TRANSACTION))
      else None
  }

  /** The result of a query, whether it ran, and in which kind of transaction. */
  ghost predicate QueryIsAnswered(s: Session, req: Request, cancelled: bool, env: Env, refusal: Option<SqlState>)
    requires ValidRequest(req)
  {
    var (s', r) := Query(s, req, cancelled, env);
    var readOnly := if s.tx == Idle then req.readOnly else s.tx == ReadOnlyTx;
    var reason := if TurnedAway(s, req, cancelled, env).Some? then TurnedAway(s, req, cancelled, env) else RefusalOf(req, s.tx != Idle, refusal);
    match reason
    case Some(e) => r == Err(e) && s'.runs == s.runs && s'.durable == s.durable
    case None =>
      && s'.runs == s.runs + [Mode(readOnly, s.tx == Idle)]
      && if s.tx == Idle then Results(req, readOnly, r)
         else if Abandons(req) then r == Err(Sql(IN_FAILED_TRANSACTION))
         else ReadResults(req, readOnly, r)
  }

  lemma IdleIsTurnedAway(s: Session, req: Request, cancelled: bool, env: Env)
    requires ValidRequest(req) && T.InStep(s) && s.tx == Idle && TurnedAway(s, req, cancelled, env).Some?
    ensures var (s', r) := Query(s, req, cancelled, env);
            r == Err(TurnedAway(s, req, cancelled, env).value) && s'.runs == s.runs && s'.durable == s.durable
  {
    hide ExecuteInOpenTx, ExecuteInTransaction;
  }

  lemma TurnedIsTheAnswer(s: Session, req: Request, cancelled: bool, env: Env, n: int, refusal: Option<SqlState>)
    requires ValidRequest(req) && ValidEnv(env) && T.InStep(s) && Serves(env.fates, n, refusal) && (refusal.Some? ==> n > 0)
    requires TurnedAway(s, req, cancelled, env).Some?
    ensures var (s', r) := Query(s, req, cancelled, env);
            r == Err(TurnedAway(s, req, cancelled, env).value) && s'.runs == s.runs && s'.durable == s.durable
  {
    if s.tx == Idle {
      IdleIsTurnedAway(s, req, cancelled, env);
    } else {
      hide ExecuteInOpenTxInner, ExecuteWithClient, EnsureConnected;
    }
  }

  lemma IdleQueryIsAnswered(s: Session, req: Request, cancelled: bool, env: Env, refusal: Option<SqlState>)
    requires ValidRequest(req) && ValidEnv(env) && T.InStep(s) && s.tx == Idle && TurnedAway(s, req, cancelled, env).None?
    requires Serves(env.fates, 5, refusal) && (refusal.Some? ==> req.statement.columns != 0)
    ensures QueryIsAnswered(s, req, cancelled, env, refusal)
  {
    hide ExecuteWithClient, ExecuteInOpenTx, Results, SentAll, RefusalOf, Serves;
    var t := Admitted(s, req, cancelled, env).0;
    ImplicitQueryIsAnswered(WireOf(t, t.client.value, env), req, refusal);
  }

  lemma ExplicitTxQueryIsAnswered(s: Session, req: Request, cancelled: bool, env: Env, refusal: Option<SqlState>)
    requires ValidRequest(req) && ValidEnv(env) && T.InStep(s) && s.tx != Idle && TurnedAway(s, req, cancelled, env).None?
    requires Serves(env.fates, 5, refusal) && (refusal.Some? ==> req.statement.columns != 0)
    ensures QueryIsAnswered(s, req, cancelled, env, refusal)
  {
    hide ExecuteWithClient, ExecuteInOpenTx, ReadResults, SentAll, RefusalOf, Serves, Abandons;
    var w := WireOf(s, s.client.value, env);
    ExplicitQueryIsAnswered(w, req, refusal);
    OpenTxDurableStays(w, req);
  }

  lemma OpenTxDurableStays(w: Wire, req: Request)
    requires ValidRequest(req) && Sound(w) && Working(w.backend)
    ensures ExecuteInOpenTx(w, req).wire.durable == w.durable
  {
    OpenTxKeepsSavepointDiscipline(w, req);
  }

  /**
   After any run of a session, for every query: it is turned away, or refused as ill-formed or unreadable,
   and with which error; or it is run, once, and the answer is what reading its rows comes to. A caller
   whose query is well-formed, readable and allowed is answered with a result.
   */
  lemma QueriesAreAnswered(ops: seq<T.Op>, req: Request, cancelled: bool, env: Env, refusal: Option<SqlState>)
    requires T.ValidOps(ops) && ValidRequest(req) && ValidEnv(env)
    requires Serves(env.fates, 5, refusal) && (refusal.Some? ==> req.statement.columns != 0)
    ensures QueryIsAnswered(T.Play(T.START, ops).session, req, cancelled, env, refusal)
  {
    T.PlayIsConsistent(ops);
    var s := T.Play(T.START, ops).session;
    hide T.Play, Query, Serves;
    if TurnedAway(s, req, cancelled, env).Some? {
      TurnedIsTheAnswer(s, req, cancelled, env, 5, refusal);
    } else if s.tx == Idle {
      IdleQueryIsAnswered(s, req, cancelled, env, refusal);
    } else {
      ExplicitTxQueryIsAnswered(s, req, cancelled, env, refusal);
    }
  }

  lemma BeginIsServed(s: Session, readOnly: bool, config: Config.SessionConfig, env: Env)
    requires ValidEnv(env) && T.InStep(s) && Serves(env.fates, 0, None)
    ensures TxBegin(s, readOnly, config, env).1 ==
              (if s.tx != Idle then Err(InvalidParams)
               else if !Live(s, env) && env.connectError.Some? then Err(env.connectError.value)
               else if Live(s, env) && !s.client.value.alive then Err(Internal) else Ok(()))
  {
  }

  /** A refused begin is told with its SQLSTATE, and leaves the session failed. */
  lemma BeginRefusalIsTold(s: Session, readOnly: bool, config: Config.SessionConfig, env: Env, code: SqlState)
    requires ValidEnv(env) && T.InStep(s) && Serves(env.fates, 0, Some(code))
    requires s.tx == Idle && (if Live(s, env) then s.client.value.alive else env.connectError.None?)
    ensures TxBegin(s, readOnly, config, env).1 == Err(Sql(code)) && TxBegin(s, readOnly, config, env).0.tx == FailedTx
  {
  }

  lemma CommitIsServed(s: Session, env: Env)
    requires T.InStep(s) && Serves(env.fates, 0, None)
    ensures TxCommit(s, env).1 ==
              (if s.tx == Idle then Err(InvalidParams)
               else if s.tx == FailedTx || !Live(s, env) then Err(TransactionLostRolledBack)
               else if !s.client.value.alive then Err(CommitOutcomeUnknown) else Ok(()))
    ensures TxCommit(s, env).1.Ok? ==> TxCommit(s, env).0.durable == s.durable + T.AtStake(s)
  {
    assert s.durable + [] == s.durable;
  }

  lemma RollbackIsServed(s: Session, env: Env)
    requires T.InStep(s) && Serves(env.fates, 0, None)
    ensures TxRollback(s, env).1 ==
              (if s.tx == Idle then Err(InvalidParams)
               else if s.tx == FailedTx || !Live(s, env) then Ok(())
               else if !s.client.value.alive then Err(Internal) else Ok(()))
  {
  }

  /** Begin, commit and rollback when every message is served, in whatever state any run has left the session. */
  lemma ControlsAreAnswered(ops: seq<T.Op>, readOnly: bool, config: Config.SessionConfig, env: Env)
    requires T.ValidOps(ops) && ValidEnv(env) && Serves(env.fates, 0, None)
    ensures var s := T.Play(T.START, ops).session;
            var dead := Live(s, env) && !s.client.value.alive;
            && TxBegin(s, readOnly, config, env).1 ==
                 (if s.tx != Idle then Err(InvalidParams)
                  else if !Live(s, env) && env.connectError.Some? then Err(env.connectError.value)
                  else if dead then Err(Internal) else Ok(()))
            && TxCommit(s, env).1 ==
                 (if s.tx == Idle then Err(InvalidParams)
                  else if s.tx == FailedTx || !Live(s, env) then Err(TransactionLostRolledBack)
                  else if dead then Err(CommitOutcomeUnknown) else Ok(()))
            && (TxCommit(s, env).1.Ok? ==> TxCommit(s, env).0.durable == s.durable + T.AtStake(s))
            && TxRollback(s, env).1 ==
                 (if s.tx == Idle then Err(InvalidParams)
                  else if s.tx == FailedTx || !Live(s, env) then Ok(())
                  else if dead then Err(Internal) else Ok(()))
  {
    T.PlayIsConsistent(ops);
    hide T.Play;
    BeginIsServed(T.Play(T.START, ops).session, readOnly, config, env);
    CommitIsServed(T.Play(T.START, ops).session, env);
    RollbackIsServed(T.Play(T.START, ops).session, env);
    hide TxBegin, TxCommit, TxRollback;
  }
}
