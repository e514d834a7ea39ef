/**
 Whole runs of one session: what the answers a caller sees say about what the database holds,
 through any sequence of requests, refusals, reconnections and lost connections.
 */
module Transactions {
  import opened Wrappers
  import opened Inline
  import opened Postgres
  import opened Executor
  import opened Session
  import Config

  datatype Op =
    | BeginTx(readOnly: bool, config: Config.SessionConfig, env: Env)
    | RunQuery(req: Request, cancelled: bool, env: Env)
    | CommitTx(env: Env)
    | RollbackTx(env: Env)
    | Invalidate
    | LoseConnection

  datatype Response = TxReply(tx: Result<(), ExecError>) | QueryReply(query: Result<Outcome, ExecError>) | Silent {
    predicate Fails(e: ExecError) {
      this == TxReply(Err(e)) || this == QueryReply(Err(e))
    }

    predicate Failure() {
      (TxReply? && tx.Err?) || (QueryReply? && query.Err?)
    }
  }

  predicate ValidOp(op: Op) {
    && (op.RunQuery? ==> ValidRequest(op.req) && ValidEnv(op.env))
    && (op.BeginTx? ==> ValidEnv(op.env))
  }

  function Do(s: Session, op: Op): (Session, Response)
    requires ValidOp(op)
  {
    match op
    case BeginTx(readOnly, config, env) => var (s', r) := TxBegin(s, readOnly, config, env); (s', TxReply(r))
    case RunQuery(req, cancelled, env) => var (s', r) := Query(s, req, cancelled, env); (s', QueryReply(r))
    case CommitTx(env) => var (s', r) := TxCommit(s, env); (s', TxReply(r))
    case RollbackTx(env) => var (s', r) := TxRollback(s, env); (s', TxReply(r))
    case Invalidate => (Invalidated(s), Silent)
    case LoseConnection => (ConnectionLost(s), Silent)
  }

  /**
   The caller's book: what the answers so far say is committed, and what was written in the
   transaction that is open. Only requests and answers are used, except that a caller told
   `CommitOutcomeUnknown` reads the data back, which is the only way out of that answer.
   */
  datatype Book = Book(committed: seq<Effect>, inTx: bool, written: seq<Effect>)

  function Post(book: Book, op: Op, reply: Response, readBack: seq<Effect>): Book
    requires ValidOp(op)
  {
    if reply.Fails(CommitOutcomeUnknown) then Book(readBack, false, [])
    else
      match op
      case BeginTx(_, _, _) => if !reply.Failure() then Book(book.committed, true, []) else book
      case RunQuery(req, _, _) =>
        if reply.Failure() then book
        else if book.inTx then book.(written := book.written + req.statement.effects)
        else book.(committed := book.committed + req.statement.effects)
      case CommitTx(_) =>
        if !reply.Failure() then Book(book.committed + book.written, false, []) else Book(book.committed, false, [])
      case RollbackTx(_) => Book(book.committed, false, [])
      case Invalidate => Book(book.committed, false, [])
      case LoseConnection => book
  }

  /**
   A query of the open transaction that would abandon its row stream to a later failure, and was
   answered `25P02`: that much can be told from the request and the answer.
   */
  ghost predicate Spoils(book: Book, op: Op, reply: Response) {
    op.RunQuery? && book.inTx && Abandons(op.req) && reply.Fails(Sql(IN_FAILED_TRANSACTION))
  }

  datatype Run = Run(session: Session, book: Book, spoiled: bool)

  const START := Run(NEW, Book([], false, []), false)

  ghost function Next(run: Run, op: Op): Run
    requires ValidOp(op)
  {
    var (s', reply) := Do(run.session, op);
    var book := Post(run.book, op, reply, s'.durable);
    Run(s', book, book.inTx && (run.spoiled || Spoils(run.book, op, reply)))
  }

  predicate ValidOps(ops: seq<Op>) {
    forall i :: 0 <= i < |ops| ==> ValidOp(ops[i])
  }

  ghost function Play(run: Run, ops: seq<Op>): Run
    requires ValidOps(ops)
  {
    if ops == [] then run else Next(Play(run, ops[..|ops| - 1]), ops[|ops| - 1])
  }

  /** The client's transaction state and the backend it believes in are in step. */
  ghost predicate InStep(s: Session) {
    && (s.client.Some? && !s.client.value.alive ==> s.client.value == DEAD)
    && (!ExplicitTx(s.tx) && s.client.Some? ==> s.client.value == FRESH || s.client.value == DEAD)
    && (ExplicitTx(s.tx) ==>
          && s.client.Some?
          && (s.client.value.alive ==>
                var b := s.client.value;
                && b.status != NoTx
                && b.mode == Mode(s.tx == ReadOnlyTx, false)
                && (b.status == InTx ==> b.savepoints == [])
                && (b.status == InTx && s.tx == ReadOnlyTx ==> b.pending == [])))
  }

  ghost predicate Consistent(run: Run) {
    var s := run.session;
    && InStep(s)
    && (s.tx == Idle ==> !run.book.inTx)
    && (ExplicitTx(s.tx) ==> run.book.inTx)
    && (!run.book.inTx ==> run.book.written == [] && !run.spoiled)
    && (ExplicitTx(s.tx) && s.client.value.alive ==>
          && (s.client.value.status == Aborted <==> run.spoiled)
          && (s.client.value.status == InTx ==> s.client.value.pending == run.book.written))
  }

  /** An aborted transaction refuses every further query without a change. */
  lemma AbortedTxRefuses(w: Wire, req: Request)
    requires ValidRequest(req) && Sound(w) && w.backend.alive && w.backend.status == Aborted
    ensures var a := ExecuteInOpenTx(w, req);
            && a.wire.durable == w.durable && a.wire.runs == w.runs && Sound(a.wire) && |w.log| <= |a.wire.log|
            && (a.wire.backend.alive ==> a.wire.backend == w.backend)
            && a.result.Err? && (a.result.error.Sql? || a.result.error.Internal?) && a.sent == []
  {
  }

  lemma DeadTxFails(w: Wire, req: Request)
    requires ValidRequest(req) && w.backend == DEAD
    ensures var a := ExecuteInOpenTx(w, req);
            && a.wire == w.(log := a.wire.log) && |w.log| <= |a.wire.log|
            && a.result == Err(Internal) && a.sent == []
  {
  }

  /** The last command a session handed to a connection between two moments, if there was one. */
  function LastSaid(s: Session, s': Session): Option<Sent> {
    if |s.log| < |s'.log| then Some(s'.log[|s'.log| - 1]) else None
  }

  /** What one query does to a session, in whichever state it finds it. */
  ghost predicate QueryIsTruthful(s: Session, req: Request, cancelled: bool, env: Env)
    requires ValidRequest(req)
  {
    var (s', r) := Query(s, req, cancelled, env);
    && InStep(s')
    && |s.log| <= |s'.log|
    && (s'.runs == s.runs || s'.runs == s.runs + [Mode(if s.tx == Idle then req.readOnly else s.tx == ReadOnlyTx, s.tx == Idle)])
    && (s'.runs != s.runs && req.readOnly ==> s'.runs == s.runs + [Mode(true, s.tx == Idle)])
    && (s.tx == FailedTx ==> s' == s && r == Err(InvalidRequest))
    && (r.Ok? ==> s'.runs != s.runs && Reports(req, r.value))
    && (r == Err(Cancelled) ==> cancelled && s'.runs == s.runs && s'.durable == s.durable)
    && (s.tx == Idle ==>
          && s'.tx == Idle
          && (r.Ok? ==> s'.durable == s.durable + req.statement.effects && LastSaid(s, s') == Some(Sent(Commit, true, Done)))
          && (r.Err? && r != Err(CommitOutcomeUnknown) ==> s'.durable == s.durable)
          && (r == Err(CommitOutcomeUnknown) ==>
                && s'.client == Some(DEAD)
                && LastSaid(s, s') == Some(Sent(Commit, true, NoAnswer))
                && s'.runs != s.runs
                && (s'.durable == s.durable || s'.durable == s.durable + req.statement.effects))
          && (req.readOnly ==> s'.durable == s.durable))
    && (s.tx != Idle ==>
          && s'.durable == s.durable
          && (s'.tx == s.tx || s'.tx == FailedTx)
          && r != Err(CommitOutcomeUnknown))
    && (ExplicitTx(s'.tx) && s'.client.value.alive ==>
          var b, b' := s.client.value, s'.client.value;
          && ExplicitTx(s.tx) && b.alive
          && (b'.status == Aborted <==> b.status == Aborted || (Abandons(req) && r == Err(Sql(IN_FAILED_TRANSACTION))))
          && (b'.status == Aborted ==> r.Err?)
          && (b'.status == InTx ==>
                b'.pending == if r.Ok? then b.pending + req.statement.effects else b.pending))
    && (r.Ok? && s.tx != Idle ==> ExplicitTx(s'.tx) && s'.client.value.alive)
    && ConnectionIsKept(s, req, s', r, env)
  }

  /**
   An explicit transaction is given up exactly if its connection is known to be lost or this query lost
   it; a query that only failed keeps transaction and connection. Outside of one, the connection is kept
   unless none could be opened or it was lost.
   */
  ghost predicate ConnectionIsKept(s: Session, req: Request, s': Session, r: Result<Outcome, ExecError>, env: Env) {
    && (ExplicitTx(s.tx) && !(s.tx == ReadWriteTx && req.readOnly) ==>
          && (s'.tx == FailedTx <==> !Live(s, env) || r == Err(Internal))
          && (s'.client.None? <==> s'.tx == FailedTx))
    && (s.tx == FailedTx || (s.tx == ReadWriteTx && req.readOnly) ==> s' == s && r == Err(InvalidRequest))
    && (s.tx == Idle ==>
          (s'.client.None? <==> (!Live(s, env) && env.connectError.Some?) || r == Err(Internal)))
  }

  lemma ImplicitQueryKeepsStep(s: Session, req: Request, cancelled: bool, env: Env)
    requires ValidRequest(req) && ValidEnv(env) && InStep(s) && s.tx == Idle
    ensures QueryIsTruthful(s, req, cancelled, env)
  {
    hide ExecuteInOpenTx, ExecuteWithClient, Reports, Sends, Abandons;
    var connected := EnsureConnected(s, req.config, env);
    if connected.Ok? {
      var t := connected.value;
      ImplicitQueryIsTruthful(WireOf(t, t.client.value, env), req);
    }
  }

  lemma ExplicitQueryKeepsStep(s: Session, req: Request, cancelled: bool, env: Env)
    requires ValidRequest(req) && ValidEnv(env) && InStep(s) && s.tx != Idle
    ensures QueryIsTruthful(s, req, cancelled, env)
  {
    hide ExecuteInOpenTx, ExecuteWithClient, Reports, Sends, Abandons;
    if ExplicitTx(s.tx) && Live(s, env) {
      var w := WireOf(s, s.client.value, env);
      if !w.backend.alive {
        DeadTxFails(w, req);
      } else if w.backend.status == Aborted {
        AbortedTxRefuses(w, req);
      } else {
        OpenTxKeepsSavepointDiscipline(w, req);
      }
    }
  }

  lemma QueriesAreTruthful(s: Session, req: Request, cancelled: bool, env: Env)
    requires ValidRequest(req) && ValidEnv(env) && InStep(s)
    ensures QueryIsTruthful(s, req, cancelled, env)
  {
    if s.tx == Idle {
      ImplicitQueryKeepsStep(s, req, cancelled, env);
    } else {
      ExplicitQueryKeepsStep(s, req, cancelled, env);
    }
  }

  /** A begin opens a fresh transaction in the mode asked for, or leaves the session failed. */
  ghost predicate BeginIsTruthful(s: Session, readOnly: bool, config: Config.SessionConfig, env: Env) {
    var (s', r) := TxBegin(s, readOnly, config, env);
    && s'.durable == s.durable && s'.runs == s.runs
    && r != Err(CommitOutcomeUnknown)
    && (s.tx != Idle ==> s' == s && r == Err(InvalidParams))
    && (s.tx == Idle && r.Err? ==> s'.tx == FailedTx && (s'.client.Some? ==> s'.client.value == FRESH || s'.client.value == DEAD))
    && (s.tx == Idle && r.Ok? ==>
          && s'.tx == (if readOnly then ReadOnlyTx else ReadWriteTx)
          && s'.client == Some(Backend(true, InTx, Mode(readOnly, false), [], [])))
  }

  lemma BeginsAreTruthful(s: Session, readOnly: bool, config: Config.SessionConfig, env: Env)
    requires InStep(s) && ValidEnv(env)
    ensures BeginIsTruthful(s, readOnly, config, env)
  {
    var connected := EnsureConnected(s, config, env);
    if s.tx == Idle && connected.Ok? {
      BeginIsAsked(WireOf(connected.value, connected.value.client.value, env), Mode(readOnly, false));
    }
    hide Ask;
  }

  /** The writes a COMMIT on this session's backend would apply. */
  function AtStake(s: Session): seq<Effect> {
    if s.client.Some? && s.client.value.status == InTx then s.client.value.pending else []
  }

  ghost predicate CommitIsTruthful(s: Session, env: Env) {
    var (s', r) := TxCommit(s, env);
    && s'.runs == s.runs
    && s'.tx == Idle
    && (s'.client.Some? ==> s'.client.value == FRESH)
    && (s.tx == Idle ==> s' == s && r == Err(InvalidParams))
    && (r.Ok? ==>
          && ExplicitTx(s.tx) && s.client.value.alive && s'.durable == s.durable + AtStake(s)
          && s'.log == s.log + [Sent(Commit, true, Done)])
    && (r == Err(CommitOutcomeUnknown) ==>
          && ExplicitTx(s.tx) && Live(s, env) && s'.client == None
          && s'.log == s.log + [Sent(Commit, s.client.value.alive, NoAnswer)]
          && (s'.durable == s.durable || (s.client.value.alive && s'.durable == s.durable + AtStake(s))))
    && (r.Err? && r.error.Sql? ==> s'.log == s.log + [Sent(Commit, true, SqlError(r.error.code))])
    && (r == Err(TransactionLostRolledBack) ==> s'.log == s.log)
    && (r.Err? && r != Err(CommitOutcomeUnknown) ==> s'.durable == s.durable)
  }

  lemma CommitsAreTruthful(s: Session, env: Env)
    requires InStep(s)
    ensures CommitIsTruthful(s, env) || (s.tx == Idle && TxCommit(s, env) == (s, Err(InvalidParams)))
  {
    assert s.durable + [] == s.durable;
  }

  /**
   A rollback of a transaction that failed or whose connection is known to be lost succeeds without a
   word; any other is sent, and succeeds exactly if the server answers.
   */
  ghost predicate RollbackIsTold(s: Session, env: Env) {
    var (s', r) := TxRollback(s, env);
    if s.tx == Idle then r == Err(InvalidParams) && s' == s
    else if s.tx == FailedTx || !Live(s, env) then r == Ok(()) && s'.client == None && s'.log == s.log
    else
      && |s'.log| == |s.log| + 1
      && LastSaid(s, s').value == Sent(Rollback, s.client.value.alive, if r.Ok? then Done else NoAnswer)
      && (r.Ok? ==> s'.client == Some(FRESH))
      && (r.Err? ==> r == Err(Internal) && s'.client == Some(DEAD))
  }

  ghost predicate ControlIsTruthful(s: Session, op: Op)
    requires ValidOp(op) && !op.RunQuery?
  {
    var (s', reply) := Do(s, op);
    && InStep(s')
    && match op
       case BeginTx(readOnly, config, env) => BeginIsTruthful(s, readOnly, config, env)
       case CommitTx(env) => CommitIsTruthful(s, env) || (s.tx == Idle && TxCommit(s, env) == (s, Err(InvalidParams)))
       case RollbackTx(env) =>
         s'.tx == Idle && s'.durable == s.durable && s'.runs == s.runs && !reply.Fails(CommitOutcomeUnknown)
         && RollbackIsTold(s, env)
       case Invalidate => s' == s.(tx := Idle, client := None)
       case LoseConnection => s' == s.(client := s'.client) && (ExplicitTx(s.tx) ==> s'.client == Some(DEAD))
  }

  lemma ControlsAreTruthful(s: Session, op: Op)
    requires ValidOp(op) && !op.RunQuery? && InStep(s)
    ensures ControlIsTruthful(s, op)
  {
    match op {
      case BeginTx(readOnly, config, env) =>
        hide TxBegin;
        BeginsAreTruthful(s, readOnly, config, env);
      case CommitTx(env) =>
        hide TxCommit;
        CommitsAreTruthful(s, env);
      case _ =>
    }
  }

  ghost predicate StepIsTruthful(s: Session, op: Op)
    requires ValidOp(op)
  {
    if op.RunQuery? then QueryIsTruthful(s, op.req, op.cancelled, op.env) else ControlIsTruthful(s, op)
  }

  lemma StepsAreTruthful(s: Session, op: Op)
    requires ValidOp(op) && InStep(s)
    ensures StepIsTruthful(s, op)
  {
    hide Query, Do, QueryIsTruthful, ControlIsTruthful;
    if op.RunQuery? {
      QueriesAreTruthful(s, op.req, op.cancelled, op.env);
    } else {
      ControlsAreTruthful(s, op);
    }
  }

  lemma NextIsConsistent(run: Run, op: Op)
    requires ValidOp(op) && Consistent(run)
    ensures Consistent(Next(run, op))
  {
    hide Query, TxBegin, TxCommit, TxRollback, Invalidated, ConnectionLost, Reports, Abandons;
    StepsAreTruthful(run.session, op);
  }

  lemma {:induction false} PlayIsConsistent(ops: seq<Op>)
    requires ValidOps(ops)
    ensures Consistent(Play(START, ops))
  {
    if ops != [] {
      PlayIsConsistent(ops[..|ops| - 1]);
      NextIsConsistent(Play(START, ops[..|ops| - 1]), ops[|ops| - 1]);
    }
  }

  /** The caller's book is what the database has committed. */
  ghost predicate BookIsTrue(run: Run) {
    run.book.committed == run.session.durable
  }

  /** A commit answered `Ok` in a transaction that has written something and was spoiled. */
  ghost predicate Lies(run: Run, op: Op)
    requires ValidOp(op)
  {
    op.CommitTx? && !Do(run.session, op).1.Failure() && run.spoiled && run.book.written != []
  }

  lemma BookStaysTrueIff(run: Run, op: Op)
    requires ValidOp(op) && Consistent(run) && BookIsTrue(run)
    ensures BookIsTrue(Next(run, op)) <==> !Lies(run, op)
  {
    hide Query, TxBegin, TxCommit, TxRollback, Invalidated, ConnectionLost, Reports, Abandons;
    StepsAreTruthful(run.session, op);
    assert run.session.durable + [] == run.session.durable;
    if op.CommitTx? && !Do(run.session, op).1.Failure() {
      CommitsKeepBookIff(run, op);
    }
  }

  lemma CommitsKeepBookIff(run: Run, op: Op)
    requires ValidOp(op) && Consistent(run) && BookIsTrue(run) && op.CommitTx? && !Do(run.session, op).1.Failure()
    ensures BookIsTrue(Next(run, op)) <==> !(run.spoiled && run.book.written != [])
  {
    hide TxCommit;
    CommitsAreTruthful(run.session, op.env);
    assert run.session.durable + [] == run.session.durable;
    if run.book.written != [] {
      assert |run.session.durable + run.book.written| > |run.session.durable|;
    }
  }

  /** Whether the book is true after the first `n` operations, and whether the next one is answered with a lie. */
  ghost predicate TrueAfter(ops: seq<Op>, n: nat)
    requires ValidOps(ops) && n <= |ops|
  {
    BookIsTrue(Play(START, ops[..n]))
  }

  ghost predicate LiesAt(ops: seq<Op>, n: nat)
    requires ValidOps(ops) && n < |ops|
  {
    Lies(Play(START, ops[..n]), ops[n])
  }

  lemma PlayedOneMore(ops: seq<Op>, n: nat)
    requires ValidOps(ops) && n < |ops|
    ensures Play(START, ops[..n + 1]) == Next(Play(START, ops[..n]), ops[n])
  {
    hide Next;
    assert ops[..n + 1][..n] == ops[..n];
  }

  lemma {:induction false} TrueWithoutLies(ops: seq<Op>, n: nat)
    requires ValidOps(ops) && n <= |ops| && forall i :: 0 <= i < n ==> !LiesAt(ops, i)
    ensures TrueAfter(ops, n)
    decreases n
  {
    hide Next, Lies;
    if n > 0 {
      TrueWithoutLies(ops, n - 1);
      PlayIsConsistent(ops[..n - 1]);
      PlayedOneMore(ops, n - 1);
      assert !LiesAt(ops, n - 1);
      BookStaysTrueIff(Play(START, ops[..n - 1]), ops[n - 1]);
    }
  }

  /**
   Over every run, the caller's book is the database at every moment if and only if no commit of a
   spoiled transaction that had written something was answered `Ok`.
   */
  lemma AnswersAreTheTruthIff(ops: seq<Op>)
    requires ValidOps(ops)
    ensures (forall n :: 0 <= n <= |ops| ==> TrueAfter(ops, n)) <==> (forall n :: 0 <= n < |ops| ==> !LiesAt(ops, n))
  {
    hide Next, Lies, Play;
    if forall n :: 0 <= n < |ops| ==> !LiesAt(ops, n) {
      forall n | 0 <= n <= |ops| ensures TrueAfter(ops, n) { TrueWithoutLies(ops, n); }
    }
    if forall n :: 0 <= n <= |ops| ==> TrueAfter(ops, n) {
      forall n | 0 <= n < |ops| ensures !LiesAt(ops, n) {
        assert TrueAfter(ops, n) && TrueAfter(ops, n + 1);
        PlayIsConsistent(ops[..n]);
        PlayedOneMore(ops, n);
        BookStaysTrueIff(Play(START, ops[..n]), ops[n]);
      }
    }
  }

  /**
   After any run, a commit answered `Ok` has committed exactly what the transaction wrote if and only
   if no query since its begin abandoned its stream, or there was nothing to commit.
   */
  lemma CommitOkIsTruthfulIff(ops: seq<Op>, env: Env)
    requires ValidOps(ops)
    requires TxCommit(Play(START, ops).session, env).1.Ok?
    ensures var run := Play(START, ops);
            var durable' := TxCommit(run.session, env).0.durable;
            && run.book.inTx
            && (durable' == run.session.durable + run.book.written <==> !run.spoiled || run.book.written == [])
            && (run.spoiled ==> durable' == run.session.durable)
  {
    PlayIsConsistent(ops);
    var run := Play(START, ops);
    assert run.session.durable + [] == run.session.durable;
    if run.book.written != [] {
      assert |run.session.durable + run.book.written| > |run.session.durable|;
    }
  }

  /** After any run, an error other than `CommitOutcomeUnknown` committed nothing. */
  lemma ErrorsCommitNothing(ops: seq<Op>, op: Op)
    requires ValidOps(ops) && ValidOp(op)
    requires var reply := Do(Play(START, ops).session, op).1; reply.Failure() && !reply.Fails(CommitOutcomeUnknown)
    ensures Do(Play(START, ops).session, op).0.durable == Play(START, ops).session.durable
  {
    hide Query, TxBegin, TxCommit, TxRollback, Invalidated, ConnectionLost, Reports, Abandons;
    PlayIsConsistent(ops);
    StepsAreTruthful(Play(START, ops).session, op);
  }

  /**
   `CommitOutcomeUnknown` is answered only when the last command handed to the connection was COMMIT,
   no answer to it came and the connection is gone; then either nothing or everything the transaction
   wrote is there, and nothing if the connection was dead already, which only an explicit commit can find.
   */
  lemma UnknownMeansCommitWasSent(ops: seq<Op>, op: Op)
    requires ValidOps(ops) && ValidOp(op)
    requires Do(Play(START, ops).session, op).1.Fails(CommitOutcomeUnknown)
    ensures var run := Play(START, ops);
            var s, s' := run.session, Do(run.session, op).0;
            && (s'.client == None || s'.client == Some(DEAD))
            && s'.tx == Idle
            && LastSaid(s, s').Some? && LastSaid(s, s').value.command == Commit && LastSaid(s, s').value.reply == NoAnswer
            && (!LastSaid(s, s').value.alive ==> s'.durable == s.durable)
            && (op.RunQuery? ==>
                  && LastSaid(s, s').value.alive
                  && s.tx == Idle && s'.runs != s.runs
                  && (s'.durable == s.durable || s'.durable == s.durable + op.req.statement.effects))
            && (!op.RunQuery? ==>
                  && op.CommitTx? && ExplicitTx(s.tx) && Live(s, op.env)
                  && |s'.log| == |s.log| + 1 && LastSaid(s, s').value.alive == s.client.value.alive
                  && (s'.durable == s.durable || s'.durable == s.durable + run.book.written))
  {
    hide Query, TxBegin, TxCommit, TxRollback, Invalidated, ConnectionLost, Reports, Abandons;
    PlayIsConsistent(ops);
    StepsAreTruthful(Play(START, ops).session, op);
  }

  /** A begin request raises the fence whether or not it succeeds. */
  lemma BeginRaisesFence(s: Session, readOnly: bool, config: Config.SessionConfig, env: Env)
    ensures TxBegin(s, readOnly, config, env).0.tx != Idle
  {
  }

  predicate Settles(op: Op) {
    op.CommitTx? || op.RollbackTx? || op.Invalidate?
  }

  /**
   Behind the fence, through any number of queries, begins and lost connections, nothing is
   committed and no statement runs in a transaction of the executor's own.
   */
  lemma {:induction false} FenceHolds(run: Run, ops: seq<Op>)
    requires Consistent(run) && run.session.tx != Idle && ValidOps(ops)
    requires forall i :: 0 <= i < |ops| ==> !Settles(ops[i])
    ensures var after := Play(run, ops).session;
            && Consistent(Play(run, ops))
            && after.tx != Idle
            && after.durable == run.session.durable
            && run.session.runs <= after.runs
            && forall i :: |run.session.runs| <= i < |after.runs| ==> !after.runs[i].implicit
  {
    hide Query, TxBegin, TxCommit, TxRollback, Invalidated, ConnectionLost, Reports, Abandons;
    if ops != [] {
      var before, op := ops[..|ops| - 1], ops[|ops| - 1];
      assert forall i :: 0 <= i < |before| ==> before[i] == ops[i];
      FenceHolds(run, before);
      NextIsConsistent(Play(run, before), op);
      StepsAreTruthful(Play(run, before).session, op);
    }
  }

  /** A request whose permission is read-only, or a read-only begin; everything else changes no data by itself. */
  predicate OnlyReads(op: Op) {
    (op.RunQuery? ==> op.req.readOnly) && (op.BeginTx? ==> op.readOnly)
  }

  /** A run of read-only requests writes nothing, and only ever executes in READ ONLY transactions. */
  lemma {:induction false} ReadOnlyRunsWriteNothing(ops: seq<Op>)
    requires ValidOps(ops) && forall i :: 0 <= i < |ops| ==> OnlyReads(ops[i])
    ensures var s := Play(START, ops).session;
            && s.durable == []
            && s.tx != ReadWriteTx
            && (s.client.Some? && s.client.value.status != NoTx ==> s.client.value.mode.readOnly)
            && forall i :: 0 <= i < |s.runs| ==> s.runs[i].readOnly
  {
    hide Query, TxBegin, TxCommit, TxRollback, Invalidated, ConnectionLost, Reports, Abandons;
    PlayIsConsistent(ops);
    if ops != [] {
      var before, op := ops[..|ops| - 1], ops[|ops| - 1];
      assert forall i :: 0 <= i < |before| ==> before[i] == ops[i];
      ReadOnlyRunsWriteNothing(before);
      PlayIsConsistent(before);
      StepsAreTruthful(Play(START, before).session, op);
    }
  }

  /** After any run, a read-only request executes in a READ ONLY transaction or not at all, and writes nothing. */
  lemma ReadOnlyRequestIsConfined(ops: seq<Op>, req: Request, cancelled: bool, env: Env)
    requires ValidOps(ops) && ValidRequest(req) && ValidEnv(env) && req.readOnly
    ensures var s := Play(START, ops).session;
            var s' := Query(s, req, cancelled, env).0;
            && s'.durable == s.durable
            && (s'.runs == s.runs || s'.runs == s.runs + [Mode(true, s.tx == Idle)])
  {
    PlayIsConsistent(ops);
    QueriesAreTruthful(Play(START, ops).session, req, cancelled, env);
  }

  const ROWS := (i: nat) => Row(i, 1, true)
  const INSERT := Request(map[], false, false, Caps(2, 100), 10, Statement(0, false, true, true, true, true, true, ROWS, 0, None, [7]))
  const REPORT := Request(map[], false, false, Caps(2, 100), 10, Statement(1, false, true, true, true, true, true, ROWS, 5, Some("22012"), []))
  const CALM := Env(false, None, [])

  /** An open read-write transaction that has written `pending` under these savepoints, with nothing going wrong. */
  predicate Healthy(w: Wire, savepoints: seq<Savepoint>, pending: seq<Effect>) {
    w.backend == Backend(true, InTx, Mode(false, false), savepoints, pending) && w.durable == [] && w.fates == []
  }

  lemma SavepointIsSetCalmly(w: Wire, savepoints: seq<Savepoint>, pending: seq<Effect>, name: string)
    requires Healthy(w, savepoints, pending)
    ensures var s := Ask(w, SetSavepoint(name));
            s.error.None? && Healthy(s.wire, savepoints + [Savepoint(name, pending)], pending)
  {
  }

  lemma SavepointIsReleasedCalmly(w: Wire, savepoints: seq<Savepoint>, mark: seq<Effect>, pending: seq<Effect>, name: string)
    requires Healthy(w, savepoints + [Savepoint(name, mark)], pending)
    ensures var s := Ask(w, Release(name)); s.error.None? && Healthy(s.wire, savepoints, pending)
  {
    SavepointIsReleased(w, savepoints, name, mark);
  }

  lemma PreparesCalmly(w: Wire, savepoints: seq<Savepoint>, pending: seq<Effect>)
    requires Healthy(w, savepoints, pending)
    ensures var s := Ask(w, Prepare); s.error.None? && Healthy(s.wire, savepoints, pending)
    ensures var s := ApplyQuerySettings(w); s.error.None? && Healthy(s.wire, savepoints, pending)
  {
  }

  lemma InsertIsKept(w: Wire, pending: seq<Effect>)
    requires Healthy(w, [], pending)
    ensures var a := ExecuteInOpenTx(w, INSERT); a.result == Ok(Affected) && Healthy(a.wire, [], pending + [7])
  {
    var marks := [] + [Savepoint(EXPLICIT, pending)];
    SavepointIsSetCalmly(w, [], pending, EXPLICIT);
    var marked := Ask(w, SetSavepoint(EXPLICIT)).wire;
    InsertRuns(marked, marks, pending);
    SavepointIsReleasedCalmly(ExecuteInOpenTxInner(marked, INSERT).wire, [], pending, pending + [7], EXPLICIT);
    hide Ask, ExecuteInOpenTxInner;
  }

  lemma InsertRuns(w: Wire, savepoints: seq<Savepoint>, pending: seq<Effect>)
    requires Healthy(w, savepoints, pending)
    ensures var a := ExecuteInOpenTxInner(w, INSERT); a.result == Ok(Affected) && Healthy(a.wire, savepoints, pending + [7])
  {
    PreparesCalmly(w, savepoints, pending);
    PreparesCalmly(ApplyQuerySettings(w).wire, savepoints, pending);
    hide Ask, ApplyQuerySettings;
  }

  lemma ReportCutsOff()
    ensures Abandons(REPORT)
  {
    var src := REPORT.statement.Yields();
    assert Slice(src, 0, 3) == [ROWS(0), ROWS(1), ROWS(2)];
    assert CutAt(src, REPORT.caps, 0, 2);
  }

  lemma ReportParsesWrapped(w: Wire, savepoints: seq<Savepoint>, pending: seq<Effect>)
    requires Healthy(w, savepoints, pending)
    ensures var s := PrepareWrappedOnClient(w, REPORT.statement); s.error.None? && Healthy(s.wire, savepoints, pending)
  {
    var marks := savepoints + [Savepoint(WRAP, pending)];
    SavepointIsSetCalmly(w, savepoints, pending, WRAP);
    var marked := Ask(w, SetSavepoint(WRAP)).wire;
    PreparesCalmly(marked, marks, pending);
    SavepointIsReleasedCalmly(Ask(marked, Prepare).wire, savepoints, pending, pending, WRAP);
    hide Ask;
  }

  /** The report's execution aborts the transaction, and its reader does not notice. */
  lemma ReportRuns(w: Wire, savepoints: seq<Savepoint>, pending: seq<Effect>)
    requires Healthy(w, savepoints, pending)
    ensures var a := ExecuteInOpenTxInner(w, REPORT);
            && a.result.Ok?
            && a.wire.backend == w.backend.(status := Aborted) && a.wire.durable == [] && a.wire.fates == []
  {
    PreparesCalmly(w, savepoints, pending);
    var settled := ApplyQuerySettings(w).wire;
    PreparesCalmly(settled, savepoints, pending);
    ReportParsesWrapped(Ask(settled, Prepare).wire, savepoints, pending);
    ReportCutsOff();
    AbandonsIffUnseen(REPORT);
    hide Ask, ApplyQuerySettings, PrepareWrappedOnClient, StreamRead, Abandons;
  }

  lemma ReportIsAbandoned(w: Wire, pending: seq<Effect>)
    requires Healthy(w, [], pending)
    ensures var a := ExecuteInOpenTx(w, REPORT);
            && a.result == Err(Sql(IN_FAILED_TRANSACTION))
            && a.wire.backend.alive && a.wire.backend.status == Aborted && a.wire.durable == []
  {
    SavepointIsSetCalmly(w, [], pending, EXPLICIT);
    var marked := Ask(w, SetSavepoint(EXPLICIT)).wire;
    ReportRuns(marked, [] + [Savepoint(EXPLICIT, pending)], pending);
    AbortedIsNotReleased(ExecuteInOpenTxInner(marked, REPORT).wire);
    hide Ask, ExecuteInOpenTxInner;
  }

  lemma AbortedIsNotReleased(w: Wire)
    requires w.backend.alive && w.backend.status == Aborted && w.fates == []
    ensures var s := Ask(w, Release(EXPLICIT));
            s.error == Some(Sql(IN_FAILED_TRANSACTION)) && s.wire.backend == w.backend && s.wire.durable == w.durable
  {
  }

  lemma PlayThree(a: Op, b: Op, c: Op)
    requires ValidOp(a) && ValidOp(b) && ValidOp(c)
    ensures Play(START, [a, b, c]) == Next(Next(Next(START, a), b), c)
  {
    hide Next;
    var ops := [a, b, c];
    assert ops[..2] == [a, b] && [a, b][..1] == [a] && [a][..0] == [];
    assert Play(START, []) == START;
    assert Play(START, [a]) == Next(START, a);
    assert Play(START, [a, b]) == Next(Play(START, [a]), b);
  }

  /** A caller inside a read-write transaction that has written `pending`, with nothing wrong so far. */
  predicate Writing(run: Run, pending: seq<Effect>) {
    && run.session.tx == ReadWriteTx && run.session.durable == []
    && run.session.client == Some(Backend(true, InTx, Mode(false, false), [], pending))
    && run.book == Book([], true, pending) && !run.spoiled
  }

  lemma BeginIsPosted()
    ensures Writing(Next(START, BeginTx(false, map[], CALM)), [])
  {
  }

  lemma QueryInOpenTx(s: Session, req: Request)
    requires ValidRequest(req) && !req.readOnly && s.tx == ReadWriteTx && s.client.Some? && s.client.value.alive
    ensures var a := ExecuteInOpenTx(WireOf(s, s.client.value, CALM), req);
            !ShouldDropConnection(a.result) ==> Query(s, req, false, CALM) == (Absorb(s, a.wire), a.result)
  {
    hide ExecuteInOpenTx, ExecuteWithClient;
  }

  lemma InsertIsPosted(run: Run)
    requires Writing(run, [])
    ensures Writing(Next(run, RunQuery(INSERT, false, CALM)), [7])
  {
    InsertIsKept(WireOf(run.session, run.session.client.value, CALM), []);
    QueryInOpenTx(run.session, INSERT);
    hide ExecuteInOpenTx, Query, Abandons;
    assert [] + [7] == [7];
  }

  lemma ReportIsPosted(run: Run)
    requires Writing(run, [7])
    ensures var next := Next(run, RunQuery(REPORT, false, CALM));
            && next.book == run.book && next.spoiled
            && next.session.tx == ReadWriteTx && next.session.durable == []
            && next.session.client.Some? && next.session.client.value.alive && next.session.client.value.status == Aborted
  {
    ReportIsAbandoned(WireOf(run.session, run.session.client.value, CALM), [7]);
    ReportCutsOff();
    QueryInOpenTx(run.session, REPORT);
    hide ExecuteInOpenTx, Query, Abandons;
  }

  lemma CommitOfAborted(s: Session)
    requires s.tx == ReadWriteTx && s.client.Some? && s.client.value.alive && s.client.value.status == Aborted
    ensures TxCommit(s, CALM).1 == Ok(()) && TxCommit(s, CALM).0.durable == s.durable
  {
  }

  /**
   A transaction whose commit is answered `Ok` although nothing of it was committed: one insert, and
   one report of five rows that is cut off after two and divides by zero after the fifth.
   */
  lemma CommitOkForNothing()
    ensures var ops := [BeginTx(false, map[], CALM), RunQuery(INSERT, false, CALM), RunQuery(REPORT, false, CALM)];
            && ValidOps(ops)
            && Play(START, ops).book.written == [7]
            && TxCommit(Play(START, ops).session, CALM).1 == Ok(())
            && TxCommit(Play(START, ops).session, CALM).0.durable == []
            && Lies(Play(START, ops), CommitTx(CALM))
  {
    var a, b, c := BeginTx(false, map[], CALM), RunQuery(INSERT, false, CALM), RunQuery(REPORT, false, CALM);
    hide Next, Play, TxCommit;
    PlayThree(a, b, c);
    BeginIsPosted();
    InsertIsPosted(Next(START, a));
    ReportIsPosted(Next(Next(START, a), b));
    CommitOfAborted(Play(START, [a, b, c]).session);
  }
}
