# A model of afpsql's pipe and executor, with proofs

`afpsql` lets an agent talk to PostgreSQL through a line protocol. These modules model the parts of it
in which the answers an agent gets could come apart from what the database holds, and prove that they
do not, or exactly when they do. `dafny verify dfyconfig.toml` checks all of it.

| file | what it models |
|---|---|
| `Postgres.dfy` | the server behind one connection: transaction status, savepoints, uncommitted and committed writes, connections that die unnoticed |
| `Inline.dfy` | the capped row collector and the two loops that feed it (`src/db/executor.rs`) |
| `Executor.dfy` | one query on a connection: implicit transaction or savepoint, inline or streaming, `to_jsonb` wrapper or fallback |
| `Session.dfy` | the client's transaction state and connection, as functions and as a class that updates its fields in place |
| `Transactions.dfy` | whole runs of one session |
| `Answers.dfy` | which requests are answered with a result and which with which error, when nothing or only one message goes wrong |
| `Sink.dfy` | streaming batches and the events of one query (`src/handler.rs`) |
| `Config.dfy` | configuration patches and permissions (`src/config.rs`) |
| `Pipe.dfy` | the dispatcher and the session workers as a transition system (`src/pipe.rs`) |
| `PipeInvariants.dfy`, `PipeOutcomes.dfy`, `PipeEndpoints.dfy` | what every step of it keeps |
| `PipeRuns.dfy` | the theorems about every state of every run of the pipe |
| `PipeRequests.dfy` | what each line puts in which queue, and what cancels are answered |
| `PipeDrains.dfy` | how every run comes to rest without further input |
| `SystemRuns.dfy` | the pipe with a session of the executor behind each worker, and the theorems about the whole |
| `SystemOutcomes.dfy` | each answer to a query, traced to the call that ran it and to what that did to the database |
| `SystemRequests.dfy` | what the lines ask of a session against what its database is asked to do |
| `PipeRuntime.dfy` | the dispatcher and the workers as an object that is changed in place; what holds in every reachable state holds of it between any two methods |
| `Lines.dfy`, `LineReader.dfy`, `StderrCapture.dfy` | the two readers that are fed in chunks |
| `Shell.dfy` | shell quoting across SSH hops |
| `Keywords.dfy`, `Conninfo.dfy` | the SQL keyword scanner and the connection string scanner |

## How to read it

Sessions are threaded through functions: the client's state, the server and the environment's script
(which message is lost, refused or served, and whether a lost message had landed) go in, the new state
and the answer come out. The scripts are arbitrary, so a lemma about all scripts is a lemma about every
way the environment can behave. Where the program updates an object or runs a loop, a class or a method
does it step by step and its `ensures` equates the result with the function. Every command handed to a
connection is logged with its answer, so that what was sent can be spoken of.

The pipe is a transition system. Each step is what the dispatcher or one worker does between two points
where the others may move; a query is entered in two steps, and a cancel takes up to three. Steps of
different workers and of the dispatcher interleave freely. Every accepted query has an identity of its
own, the position at which it was accepted, so that an id used twice is two queries. A configuration
patch begins, reserves one place after the other, installs the configuration, sends one invalidation after
the other and announces; workers may move between any two of these. `SystemRuns.dfy` puts pipe and sessions
together: each worker drives one session, and what the pipe assumes of the executor is proved of it there.
It also remembers which operation of which session's history each query was run by.

The environment is assumed to behave as follows, and `Postgres.dfy` is written that way. A lost backend
rolls its transaction back. A SQLSTATE in answer to COMMIT means that nothing was applied, and `57014`
means that the statement was undone. COMMIT on an aborted transaction answers success and rolls back.
Savepoint control on a live connection is refused only because of the transaction's own state, and `25P02`
is answered only in an aborted transaction. User SQL is not transaction control. A statement that writes is
run to its end before its first row is sent, as PostgreSQL runs a modifying statement with `RETURNING`, and a
failure undoes what it wrote. Looking at a connection and reopening it is one step.

## What turned out not to hold

Inside an explicit transaction the inline path stops reading a row stream as soon as a cap is reached
(`src/db/executor.rs:746-753` and `768-775`). If the statement fails on the server after the last row that
was read, the failure is never seen, but the transaction is aborted. The savepoint is then released, not
rolled back to, the server answers `25P02`, and that answer leaves through `?` without a rollback
(`src/db/executor.rs:698-703`). The transaction stays aborted on a live connection, and a later `commit` is
answered `Ok` while the server rolls everything back (`src/db/executor.rs:380-383`).

`Executor.Abandons` is that condition, told from the request and the statement alone: rows are returned
inline, the statement only reads and fails, and before the failure there is a row the caps refuse, with every
row up to it readable. `Executor.AbandonsIffUnseen` proves it to be exact for the loop, and
`Executor.RoomyQueriesAbandonNothing` is the caller's half: streaming, or caps that hold every row, is safe
whatever the server does. `Executor.OpenTxKeepsSavepointDiscipline` proves that it is the only way a query
can break the savepoint discipline, and that it then shows: the answer is `25P02`.

A transaction is spoiled once such a query has been answered so, and a commit lies if it is answered `Ok` for
a spoiled transaction that had written something. `Transactions.AnswersAreTheTruthIff` proves over every run
that a caller's book is the database at every moment if and only if no commit lies;
`Transactions.CommitOkIsTruthfulIff` says the same of one commit, and `Transactions.CommitOkForNothing` is a
run of three requests after which the commit lies. The implicit path reads through a portal and stops asking,
so it is not affected, and neither is a spoiled transaction that is rolled back.

The comment on `execute_in_open_tx` says that the savepoint keeps a failure from poisoning the transaction;
the model follows the code.

The keyword scanner takes five bytes for whitespace. PostgreSQL 16 also skips the vertical tab, so
`Keywords.OnlyWhiteIsIgnored` states the exact set of bytes that can be put in front of every text without a change.

## Model

| member | source | states |
|---|---|---|
| Inline.InlineRowCollector.Push | src/db/executor.rs:1332-1351 | a row is kept if and only if the rows with it stay within both caps; the first refused row sets exactly one flag and nothing is kept afterwards |
| Inline.LongestPrefixIsUnique | src/db/executor.rs:1299-1352 | for given rows and caps there is one collected result that is the longest prefix within both caps with the right flag |
| Inline.NoLongerPrefixFits | src/db/executor.rs:1299-1352 | once a flag is set, no longer prefix of the answer is within the caps |
| Inline.CapsAreMeant | src/db/executor.rs:1332-1351 | in numbers: kept rows and bytes are at most the caps; cut at the row cap there are exactly that many, cut at the byte cap the next row would have passed it; no flag means no row was left out |
| Inline.DrainKeepsPrefix | src/db/executor.rs:1484-1507 | draining one portal batch to its end keeps the collected rows a prefix of the answer, with a flag exactly when a row was left out |
| Inline.StreamReadIsLongestPrefix | src/db/executor.rs:735-754 | the loop that breaks at the first refused row collects the longest prefix within the caps, also of an endless answer |
| Inline.PortalReadIsLongestPrefix | src/db/executor.rs:1440-1452 | so does the loop of portal fetches, for every batch size |
| Inline.CleanReadsAgree | src/db/executor.rs:1440-1507 | on every readable answer that does not fail the two loops return the same rows and flags |
| Inline.FailuresAreHiddenIff | src/db/executor.rs:746-753 | the loop that breaks at the first refused row hides a failing answer's failure if and only if some row before the failure is refused by the caps and all rows up to it are readable |
| Inline.StreamFailsIff | src/db/executor.rs:735-754 | the loop over a stream fails with an error if and only if rows that are readable and within the caps lead up to it: a row that cannot be decoded, or the failure at the end |
| Inline.PortalMeets | src/db/executor.rs:1440-1507 | so does the loop of portal fetches, for every batch size |
| Inline.DrainPortalBatch | src/db/executor.rs:1484-1507 | one fetch moves the portal by at most the rows asked for and reports done exactly when the portal is exhausted or a cap was reached |
| Inline.CollectPortalRows | src/db/executor.rs:1440-1452 | the loop ends for every answer, collects the longest prefix within both caps, and takes at most one row more than the row cap from the server |
| Inline.CollectStream | src/db/executor.rs:735-754 | the explicit path's loop collects that same longest prefix, or returns the first read error it meets |
| Executor.PrepareWrappedKeepsTransaction | src/db/executor.rs:1399-1424 | whether the wrapper parses or not, on a connection that survives the transaction, its writes and its savepoints are as before |
| Executor.RowsOnClientExecutes | src/db/executor.rs:735-777 | wrapper or fallback, the statement is executed at most once, and once if the answer is a result; inline and streaming |
| Executor.InnerExecutesAtMostOnce | src/db/executor.rs:716-785 | the same for the whole body of a query in an explicit transaction, and an abort that goes unseen only if the stream was abandoned |
| Executor.OpenTxKeepsSavepointDiscipline | src/db/executor.rs:688-714 | a query in an explicit transaction keeps all its writes or none, leaves earlier writes and the savepoint stack as they were and the transaction open; it is left aborted if and only if the query abandons its stream and was answered `25P02` |
| Executor.AbandonsIffUnseen | src/db/executor.rs:746-753 | the condition on request and statement under which a later failure is abandoned is exactly that under which the read loop does not see it |
| Executor.RoomyQueriesAbandonNothing | src/db/executor.rs:746-753 | a query that streams, or whose caps hold every row the statement can have, never abandons its stream |
| Executor.FallBackAttempts | src/db/executor.rs:1514-1549 | a wrapper that does not bind is undone completely before the statement itself is read, so it is executed at most once |
| Executor.RowsWrappedOrDirectAttempts | src/db/executor.rs:1354-1391 | the implicit path executes the statement at most once through wrapper and fallback, and a success leaves exactly its writes in the open transaction |
| Executor.TransactionAttempts | src/db/executor.rs:911-942 | settings, preparation and reading inside the executor's own transaction commit nothing and execute at most once |
| Executor.ImplicitQueryIsTruthful | src/db/executor.rs:981-1005 | `Ok` means exactly the statement's writes are committed, it ran once and COMMIT was the last command and was answered; any error but an unknown commit outcome means none are; once COMMIT has been sent its reply is the answer: a result, the SQLSTATE it was refused with, or unknown with no answer and the connection gone; a read-only request commits nothing |
| Answers.ImplicitQueryIsAnswered | src/db/executor.rs:911-942 | from a fresh connection with every message served, or only the wrapper's parse refused: which statements are not run and with which error, and otherwise run once and answered with a result if well-formed, readable and allowed, else with the error reading its rows meets or `25006`; writes are committed exactly with a result |
| Answers.ExplicitQueryIsAnswered | src/db/executor.rs:716-785 | the same inside an open transaction, where a run is answered with a result exactly if its rows could be read and the stream was not abandoned, and `25P02` if it was |
| Answers.IllFormedImplicitIsNotRun | src/db/executor.rs:1036-1051 | a statement with duplicate columns or parameters that do not fit is answered with an error, not run, and commits nothing, whatever becomes of the messages |
| Answers.IllFormedExplicitIsNotRun | src/db/executor.rs:720-734 | the same inside an open transaction |
| Answers.RefusalIsTheAnswer | src/db/executor.rs:911-918 | a refusal of the begin, a setting or the statement itself is the answer with its own SQLSTATE, and nothing is run |
| Answers.RefusalIsTheAnswerInside | src/db/executor.rs:716-722 | the same inside an open transaction |
| Answers.RefusedBindingFallsBack | src/db/executor.rs:1354-1391 | a wrapper that parses but is refused when it is bound is fallen back from like one that does not parse |
| Answers.RefusedPortalHasStarted | src/db/executor.rs:1527-1536 | a streaming result is begun before its portal is asked for rows: a refusal then is told behind a start, with nothing run |
| Session.SessionEntry.EnsureConnection | src/db/executor.rs:487-500 | a live connection is kept, a closed one replaced by a fresh one or by an error |
| Session.SessionEntry.Execute | src/db/executor.rs:190-247 | the class's fields after a query are those of the session the function `Query` describes, with the same answer |
| Session.SessionEntry.Begin | src/db/executor.rs:312-348 | the same for `begin`, in every state and environment |
| Session.SessionEntry.Commit | src/db/executor.rs:350-397 | the same for `commit` |
| Session.SessionEntry.Rollback | src/db/executor.rs:399-431 | the same for `rollback` |
| Session.SessionEntry.Invalidate | src/db/session.rs:207-228 | a forgotten session is idle and has no connection, and the database keeps only what was committed |
| Transactions.QueriesAreTruthful | src/db/executor.rs:190-247 | for a query in every transaction state: which answers leave which writes, in which mode it ran if it ran, what becomes of the transaction, and that transaction and connection are given up exactly if the connection is lost |
| Transactions.BeginsAreTruthful | src/db/executor.rs:312-348 | a begin opens a fresh transaction in the mode asked for or leaves the session failed, never idle |
| Transactions.CommitsAreTruthful | src/db/executor.rs:350-397 | what each answer to a commit says about the database and about what was sent: nothing if the connection was known to be lost, one COMMIT otherwise, unanswered exactly for the unknown outcome, and on a connection that had died unnoticed nothing is committed |
| Transactions.ControlsAreTruthful | src/db/executor.rs:399-431 | a rollback of a failed or lost transaction is answered `Ok` with nothing sent, any other is sent and answered `Ok` exactly if the server answers; and what begin, commit, invalidation and a lost connection do |
| Answers.QueriesAreAnswered | src/db/executor.rs:190-247 | after any run of a session, for every query: turned away and with which error, refused and with which, or run once in the session's kind of transaction with the answer its rows call for |
| Answers.ControlsAreAnswered | src/db/executor.rs:312-431 | after any run, with every message served: exactly which begins, commits and rollbacks are answered `Ok`, the error of each other, and that such a commit applies all that is pending |
| Answers.BeginRefusalIsTold | src/db/executor.rs:319-347 | a refused begin is told with its SQLSTATE and leaves the session failed |
| Transactions.PlayIsConsistent | src/db/session.rs:154-183 | in every run the client's transaction state agrees with the server's, and the open transaction holds exactly the successful queries' writes unless it is spoiled, which is exactly when the server has aborted it |
| Transactions.AnswersAreTheTruthIff | src/db/executor.rs:350-431 | over every run, a book kept of the answers, and read back after an unknown outcome, is what the database has committed at every moment if and only if no commit was answered `Ok` for a spoiled transaction that had written something |
| Transactions.CommitOkIsTruthfulIff | src/db/executor.rs:375-396 | after any run, a commit answered `Ok` committed exactly the transaction's successful writes if and only if the transaction was not spoiled or there were none |
| Transactions.CommitOkForNothing | src/db/executor.rs:698-703 | a run of begin, insert and report after which the commit is answered `Ok`, nothing is committed, and the caller's book says otherwise |
| Transactions.ErrorsCommitNothing | src/db/executor.rs:981-1005 | after any run, an error other than the unknown commit outcome committed nothing, whichever request it answers |
| Transactions.UnknownMeansCommitWasSent | src/db/executor.rs:380-396 | after any run, the unknown outcome is answered only if the last command handed to the connection was COMMIT, no answer to it came and the connection is gone; then all or nothing is committed, and nothing if the connection was dead before the send, which only an explicit commit can meet |
| Transactions.BeginRaisesFence | src/db/executor.rs:319-347 | after a begin request, successful or not, the session is not idle |
| Transactions.FenceHolds | src/db/executor.rs:192-212 | until a commit, rollback or invalidation, through any queries, begins and lost connections, nothing is committed and nothing runs in a transaction of the executor's own |
| Transactions.ReadOnlyRunsWriteNothing | src/db/executor.rs:195-239 | a run of read-only requests commits nothing, never has a read-write transaction open, and executes only in READ ONLY transactions |
| Transactions.ReadOnlyRequestIsConfined | src/db/executor.rs:195-209 | after any run, a read-only request executes in a READ ONLY transaction or not at all |
| Sink.CutIsBatched | src/handler.rs:1055-1062 | the rows handed to a sink are the batches sent and the open one, in order; each sent batch is full and was not full a row earlier |
| Sink.BatchingIsUnique | src/handler.rs:1055-1062 | that is the only way to cut the rows so |
| Sink.BatchIsWithinLimits | src/handler.rs:1055-1062 | a batch is within the row limit and only its last row can have crossed the byte target |
| Sink.OutputRowSink.TakeRow | src/handler.rs:1055-1062 | after any number of rows, what was sent and what is held are the one prompt way to cut them |
| Sink.OutputRowSink.FlushBatch | src/handler.rs:1022-1038 | an open batch is sent as it is, and an empty one is not sent |
| Sink.DrainRowStream | src/db/executor.rs:1551-1569 | the sink has been given exactly the rows read before the end or the first error, and the totals count them |
| Sink.DrainPortalStream | src/db/executor.rs:1571-1598 | the same for portal fetches, which give the same rows, totals and errors as one stream |
| Sink.HandleStreamingResult | src/handler.rs:651-697 | all events of the query: those `Conserved` describes, with the open batch sent before an end and dropped on an error |
| Sink.StreamIsConserved | src/handler.rs:651-697 | the events are a start, batches and an end or error, or a lone result or error; the last event is an error if and only if the result is that error, an end if and only if it succeeded with columns, a command result if and only if without; all batches but a success's last are full, and the batches together are the statement's first rows, all of them with true totals at an end |
| Sink.EveryStreamIsConserved | src/handler.rs:301-339 | this holds of every streaming query after any run of its session, idle, open, aborted, failed or dead without notice, whatever the environment does |
| Sink.ServedStreamsAreComplete | src/db/executor.rs:839-880 | with every message served, or only the wrapper's parse refused, a query that is run hands its sink every row before the end or the first trouble, after any run of its session |
| Config.ApplySessionPatch | src/config.rs:34-134 | each field is set, cleared or left as the patch says, in whatever order the fields are taken; an empty list clears a list field |
| Config.ApplySessionPatches | src/config.rs:31-136 | each session listed is patched, or created and patched, and the others stay |
| Config.ApplyUpdate | src/config.rs:12-141 | each of the four limits, the log and the default session is the patch's if it carries one and the old one otherwise, and each field of each session likewise; nothing else is created but an empty default session |
| Config.OneSettingAtATime | src/config.rs:12-30 | a patch that carries one setting leaves every other as it was |
| Config.StartupTakesTheCommandLine | src/pipe.rs:49-57 | the pipe starts with one session, the default one, with the fields the command line gives it |
| Config.AffectedCoversEveryChange | src/config.rs:224-235 | every session whose configuration a patch changes or creates is on the list of affected sessions |
| Config.DefaultStaysKnown | src/config.rs:137-140 | after any patch the default session is a known session, and none is forgotten |
| Config.SessionsToInvalidate | src/config.rs:224-235 | the affected sessions, each once, in order |
| Config.TransportIsTold | src/types.rs:890-906 | two container drivers are no transport, one is the container's, with SSH fields or without, and otherwise any SSH field makes an SSH session |
| Config.UnsetFieldsDoNotCount | src/types.rs:465-473 | sessions with the same fields set have the same transport, whatever empty lists they carry |
| Config.WritingIsExplicit | src/config.rs:143-197 | a query may write if and only if the caller named the write permission of the session's own transport |
| Config.PermissionsFitTheirTransport | src/config.rs:143-182 | a permission is usable exactly on the transport of its own family, and without one a session may be read |
| PipeInvariants.TableKept | src/pipe.rs:492-572 | every step keeps the in-flight table: ids unique, each active query found under its own, at most 64 entries, a cancel's query in place until it is done |
| PipeInvariants.QueueKept | src/pipe.rs:720-777 | every step keeps the queues bounded and in acceptance order, each queued query in its session's queue and each running one in its worker's hands |
| PipeInvariants.PatchKept | src/pipe.rs:801-818 | every step, of the patch, of a worker or of anyone else, keeps a place in the queue of each session reserved so far and not yet sent to, and no session affected is served twice |
| PipeOutcomes.OutcomesKept | src/handler.rs:57-86 | every step keeps, for every query, the number of terminal events its phase, its worker and the dispatcher call for, and the truth of all events |
| PipeOutcomes.CallsKept | src/pipe.rs:720-777 | every step keeps the calls of each session in acceptance order and ahead of all that is still queued |
| PipeOutcomes.SettledTruth | src/handler.rs:443-459 | settling an honest result says cancelled only of a query whose cancel was asked for and that left nothing |
| PipeOutcomes.VerdictIsTold | src/handler.rs:443-459 | `cancelled` is said exactly of a query that was not sent for its cancel, or that the server stopped with `57014` after a cancel was asked for; every other error is told as it is |
| PipeEndpoints.EndpointsKept | src/pipe.rs:553-568 | every step keeps each queue's operations in agreement with the configuration in force at their place |
| PipeEndpoints.PendingInstalled | src/pipe.rs:815-815 | the installation keeps that agreement while the invalidations are still to be sent: what is in force at the end of each such queue is the configuration that was replaced |
| PipeEndpoints.PendingSent | src/pipe.rs:816-818 | each invalidation marks in its queue the place from which the new configuration is in force |
| PipeRuns.StartupIsARun | src/pipe.rs:49-57 | whatever the command line says of the default session, the pipe starts in a state from which all that follows holds |
| PipeRuns.AlwaysHolds | src/pipe.rs:220-296 | all these invariants hold in every state of every run |
| PipeRuns.ExactlyOneOutcome | src/db/session.rs:132-136 | never two terminal events for an accepted query, none while it is queued, and exactly one once it is finished or its cancel is done |
| PipeRuns.NoOutcomeIsSwallowed | src/handler.rs:461-470 | in every run a cancel that took its query and a worker that ran one win their claim, and the event they emit is the one their knowledge calls for |
| PipeRuns.NamesakesAreFound | src/pipe.rs:498-519 | the table finds an active query of an id exactly if there is one among all that were ever accepted |
| PipeRuns.AcceptedIff | src/pipe.rs:492-572 | in every run a query line is accepted if and only if no active query has its id, fewer than 64 others are in the table and its queue has a place; otherwise one refusal is said and nothing is queued |
| PipeRuns.EveryQueryIsAnswered | src/pipe.rs:720-777 | when nothing is left to do, every accepted query has had exactly one terminal event |
| PipeDrains.EveryRunComesToRest | src/pipe.rs:720-777 | every run can be continued without a new line of input, in no more steps than its backlogs and the line in hand allow, to a state in which nothing is left to do and every query ever accepted has had exactly one terminal event |
| PipeRuns.OutcomesAreTrue | src/handler.rs:443-459 | `cancelled` is emitted only if a cancel was asked for; no event but a success or an unknown commit outcome is marked as leaving writes, a mark that EventsTellTheTruth ties to the database |
| PipeRuns.CancelledIsNeverCalled | src/pipe.rs:618-644 | a query cancelled while queued never reaches the executor, then or later |
| PipeRuns.CallsAreInOrder | src/pipe.rs:720-777 | each query reaches the executor at most once, and those of one session in the order they were accepted |
| PipeRuns.EndpointsAgree | src/pipe.rs:553-568 | every query and begin runs on a connection opened under the configuration it was accepted under |
| PipeRuns.FinishKnowsItsSession | src/pipe.rs:856-882 | in every run the session of a commit or rollback a worker has in hand is known, so that branch of the worker is never taken |
| PipeRuns.ReadOnlyCallsOnly | src/handler.rs:247-297 | with the ReadOnly capability no query and no begin that reaches the executor is read-write |
| PipeRuns.RefusedSqlIsNeverCalled | src/handler.rs:247-297 | with the ReadOnly capability, over every run, no query whose SQL the policy refuses reaches the executor |
| PipeRuns.CallsWriteAsPermitted | src/handler.rs:171-297 | a query reaches the executor read-write exactly if it named the write permission of its session's transport |
| PipeRuns.QueriesReachTheExecutorIff | src/handler.rs:171-297 | a query in hand reaches the executor exactly if its session was known, its permission fits the transport, and capability, policy and SQL allow it; otherwise it is refused once without a call |
| PipeRuns.ActiveIdsAreUnique | src/pipe.rs:492-551 | active queries have different ids, each is found under its own, and the table has at most 64 entries |
| PipeRuns.PhasesMoveForward | src/handler.rs:57-86 | between any two states of a run a phase has moved only from queued to running to finished, or from queued to cancelled |
| PipeRuns.WorkersNeverStick | src/pipe.rs:720-777 | in every reachable state a worker with anything to do can take a step |
| PipeRuns.WorkersCountDown | src/pipe.rs:720-777 | every step of a worker makes what it has left to do smaller |
| PipeRuns.TheExecutorIsHonest | src/db/executor.rs:225-234 | what the pipe relies on is what the executor returns after any run of a session: no false cancellation, no writes behind a settled error |
| PipeRuns.PatchIsAllOrNothing | src/pipe.rs:796-820 | over the whole stretch of a run from an admitted patch to its end, with workers moving in between: it is installed if and only if each affected queue had a place left when it was asked for; then each has been given exactly one invalidation and no other queue anything, and it is announced once; otherwise one refusal is said and configuration and queues are as the workers left them |
| PipeRuns.PatchIsRefused | src/pipe.rs:229-265 | a patch the readonly policy does not admit is refused at once and changes nothing |
| PipeRuns.UnaffectedSessionsKeepTheirs | src/pipe.rs:815-815 | in every run a session's configuration changes only by an installation, and only if the session is on the list of those reserved for |
| PipeRequests.TxEndDecided | src/pipe.rs:401-454 | an accepted commit line queues exactly a commit last in its session's queue, a rollback line a rollback, and any other says one refusal |
| PipeRequests.StepPends | src/pipe.rs:720-777 | from one state to the next each session's pending operations lose at most their front one, and gain at the end exactly what the line asks of that session |
| PipeRequests.LinesFindTheirSession | src/pipe.rs:498-499 | a line speaks of the session it names or of the default one, and a queue takes 64 operations, one less while a place is held |
| PipeRequests.SubmissionBeginsIff | src/pipe.rs:1030-1063 | a query line is taken up exactly if its SQL has at most 1048576 bytes and it at most 65535 parameters |
| PipeRequests.CancelsAreAnswered | src/pipe.rs:591-695 | what each step of a cancel answers, exactly: unknown, cancelled, already finished only with the outcome out, or asked only with the request on record, and when the id leaves the table |
| SystemRuns.MovesAreSteps | src/db/executor.rs:225-234 | whatever the environment does to a call, what the worker gets back is a step the pipe's invariants allow for |
| SystemRuns.SystemAlwaysHolds | src/pipe.rs:720-777 | every state of the whole system, pipe and sessions together, keeps all invariants |
| SystemRuns.ReadOnlySystemCommitsNothing | src/pipe.rs:305-319 | with the ReadOnly capability, over every run of the whole system, no session ever commits anything or has a read-write transaction, and every statement runs in a READ ONLY transaction |
| SystemRuns.SystemAnswersAreTheTruthIff | src/db/executor.rs:350-431 | over every run of the whole system and for every session, the book of its answers is what its database has committed at every moment if and only if none of its commits lies |
| SystemRuns.ConnectionsMirrorSessions | src/db/session.rs:185-228 | the connections the endpoint theorem speaks of are exactly those the sessions hold, each with the configuration it was opened under |
| SystemOutcomes.QueriesAreTold | src/handler.rs:443-470 | after any run of a session, the verdict on a query's result, with its mark for writes left, is what the query did to the database, whether or not a cancel was asked for |
| SystemOutcomes.TiesAlwaysHold | src/handler.rs:328-337 | in every state of the whole system each result in a worker's hands and each event is that of the one operation in its session's history that ran the query, and a query without one was cancelled in its queue or refused |
| SystemOutcomes.EventsTellTheTruth | src/handler.rs:328-337 | for every answer in every run of the whole system: the query was run by at most one move; by none, and it was answered cancelled or refused; or by one, and the verdict is that move's answer; cancelled or failed it committed nothing and left an open transaction's writes as they were, succeeded it added exactly the statement's writes, with an unknown outcome all or none of them |
| SystemOutcomes.RunsAreRecorded | src/db/executor.rs:487-500 | the calls the pipe's theorems speak of are those whose statement was run, each with the configuration its session's connection was opened under |
| SystemRequests.SessionsDoAsAsked | src/pipe.rs:856-912 | in every run and for every session, the begins, commits, rollbacks and invalidations its database was asked are the first of those its lines asked for, in order and each as what it was, the rest is pending, and each query was run between the two it was accepted between |
| SystemRequests.CommitsWereAsked | src/pipe.rs:884-888 | a database is told to commit only for a commit line of its session, and to roll back only for a rollback line |
| PipeRuntime.PipeRuntime.constructor | src/pipe.rs:211-218 | a fresh pipe, of which everything that holds in all reachable states holds |
| PipeRuntime.PipeRuntime.StartWorker | src/pipe.rs:696-718 | a session's worker is started once and found afterwards |
| PipeRuntime.PipeRuntime.CleanupFinishedQueries | src/pipe.rs:915-920 | exactly the entries of finished and cancelled queries go |
| PipeRuntime.PipeRuntime.DispatchQuery | src/pipe.rs:478-492 | a line is taken up exactly if it is within both limits, and refused once otherwise; then the table has an entry for exactly the ids of active queries, and nothing is said |
| PipeRuntime.PipeRuntime.DispatchQueryEnter | src/pipe.rs:494-572 | the query is accepted exactly if no active query among all ever accepted has its id, there is a place in the table and one in its queue; otherwise nothing is accepted and one refusal is said |
| PipeRuntime.PipeRuntime.TryMove | src/handler.rs:57-81 | compare and swap of a phase: it is won if and only if the phase was the expected one |
| PipeRuntime.PipeRuntime.ClaimTerminalEmit | src/db/session.rs:132-136 | the first claim wins and no other does |
| PipeRuntime.PipeRuntime.DispatchCancel | src/pipe.rs:591-620 | the cancel wins its query exactly if a queued one has the id, which none has afterwards; it says at once only that an id without a query is unknown, and no query's outcome is given yet |
| PipeRuntime.PipeRuntime.CancelTaken | src/pipe.rs:620-644 | the cancel that won always gets to say so: the query had no terminal event and now has its only one, and the id is free |
| PipeRuntime.PipeRuntime.CancelNotTaken | src/pipe.rs:646-675 | `already finished` is said only of a query whose one terminal event is out; otherwise the query is running with its cancel on record; no query gains an outcome |
| PipeRuntime.PipeRuntime.CancelAcknowledged | src/pipe.rs:665-695 | the caller is told that the server was asked, and no query gains an outcome |
| PipeRuntime.PipeRuntime.BeginPatch | src/pipe.rs:229-266 | an admitted patch has exactly its affected sessions, sorted, on the list of places to reserve, and one not admitted is refused once |
| PipeRuntime.PipeRuntime.ReserveOne | src/pipe.rs:802-814 | a place is reserved exactly if one is left beside those in use and those held; otherwise all are given back and one refusal is said |
| PipeRuntime.PipeRuntime.InstallPatch | src/pipe.rs:815-815 | with every place held, the installation leaves the default session a known one, changes the configuration of affected sessions only, and finds a place left in each of their queues |
| PipeRuntime.PipeRuntime.SendOne | src/pipe.rs:816-818 | the held place is always there, so the queue does not grow over its bound |
| PipeRuntime.PipeRuntime.DispatchConfig | src/pipe.rs:229-266 | a whole patch line with no worker moving in between: installed exactly if the policy admits it and every affected queue had a place left at first, then one invalidation in each of these queues and one announcement; otherwise one refusal and no other change to configuration or queues |
| PipeRuntime.PipeRuntime.DispatchBegin | src/pipe.rs:298-399 | a begin is queued last under its session's configuration exactly if the session is known and has a place left, a writing one named the write permission of its transport, and capability and policy allow it; otherwise one refusal |
| PipeRuntime.PipeRuntime.DispatchTxEnd | src/pipe.rs:412-454 | a commit or rollback is queued last as what it is exactly if its session is known and has a place left; otherwise one refusal |
| PipeRuntime.PipeRuntime.Receive | src/pipe.rs:720-732 | the worker holds the head of its queue, a query then being marked running; only a query that was cancelled in the queue is passed over |
| PipeRuntime.PipeRuntime.AnswerQuery | src/handler.rs:328-337 | the worker's claim is never lost: the query had no terminal event, and the settled verdict on its result is now its only one |
| PipeRuntime.PipeRuntime.MarkFinished | src/pipe.rs:748-756 | a query is marked finished only with its one terminal event out, and its id can be used again |
| Lines.SplitIsLines | src/pipe.rs:1001-1020 | the lines of a byte string are its bytes, each line with a newline only at its end |
| Lines.LinesAreUnique | src/pipe.rs:1001-1020 | and that is the only way to cut it into lines |
| LineReader.ReadLimitedLine | src/pipe.rs:984-1028 | whatever the chunks, the next line or the mark for one over the limit; reading goes on right behind the line's newline, and the method's buffer never holds more than the limit |
| LineReader.ReadAllLines | src/pipe.rs:984-1028 | repeated calls give the stream's lines in order with exactly the over-limit ones replaced, whatever the chunks; a stream that fails gives those that have ended and then its error |
| StderrCapture.BannerForms | src/container_transport.rs:408-413 | a line is the banner if and only if it is the prefix and the nonce with one of four line endings |
| StderrCapture.Capture.Append | src/container_transport.rs:415-422 | the capture is always a first part, of at most 8192 bytes, of all it was given |
| StderrCapture.Capture.HandleLine | src/container_transport.rs:393-406 | after any lines, the capture and the handshake are those of all lines so far |
| StderrCapture.CaptureStderr | src/container_transport.rs:363-391 | whatever the chunks, the first 8192 bytes of all lines that are not the banner, and a true handshake if and only if some line is |
| StderrCapture.NoiseIsTheOtherLines | src/container_transport.rs:393-406 | what is kept is the lines that are not the banner, whole, in order, and nothing else |
| StderrCapture.WithoutBannerAllIsKept | src/container_transport.rs:363-391 | and all bytes if no line is the banner |
| Shell.QuoteIsOneWord | src/ssh_transport.rs:584-595 | a quoted value is read by a shell as one word with the same characters, for every string |
| Shell.SplitOfJoin | src/ssh_transport.rs:576-582 | splitting a joined list gives the list back, for every list of strings |
| Shell.ResolvedChainIsPositional | src/ssh_transport.rs:453-485 | settings that resolve name hops that are not empty and cannot be taken for options |
| Shell.SettingsResolveIff | src/ssh_transport.rs:453-485 | which fields resolve to settings, to none, or to which error; settings are the fields as they are, hops without the whitespace around them |
| Shell.BuildBaseSshArgs | src/ssh_transport.rs:503-516 | the fixed options and then every configured one |
| Shell.ConfiguredOptionsArrive | src/ssh_transport.rs:503-516 | `ssh` reads its two fixed options and then every configured one, in order |
| Shell.RemoteOptionsArrive | src/ssh_transport.rs:518-531 | every hop's `ssh` is given the two fixed options and a connection timeout, and no other |
| Shell.BuildBridgeSshArgs | src/ssh_transport.rs:487-501 | the loop from the last hop to the second one builds the nested command line |
| Shell.LayersComeOff | src/ssh_transport.rs:487-531 | for every chain and command, splitting the last argument again and again gives the call for each hop in order and then the command |
| Shell.CommandArrivesUnchanged | src/ssh_transport.rs:487-531 | as `ssh` and the shells read it, the call passes every hop in order and the command arrives at the destination unchanged |
| Shell.LauncherArrivesUnchanged | src/ssh_transport.rs:533-557 | so does the launcher through the layer of quoting for another user |
| Keywords.LeadingKeywords | src/readonly_policy.rs:461-502 | the scanner ends on every byte string and returns what `Scan` describes |
| Keywords.BlockEnds | src/readonly_policy.rs:476-491 | a properly nested comment is skipped to its own end, at every depth |
| Keywords.TokensAreRead | src/readonly_policy.rs:461-502 | from words with any trivia before and between them, exactly the words are read, in lower case, up to the limit |
| Keywords.SpelledWordIsRead | src/readonly_policy.rs:492-499 | a word of ASCII letters in either case and underscores is read in lower case up to the first other byte |
| Keywords.OtherBytesEndReading | src/readonly_policy.rs:492-498 | a digit, or any other byte that is no letter, underscore, whitespace or start of a comment, ends the reading |
| Keywords.UnfinishedCommentsTakeAll | src/readonly_policy.rs:469-491 | a comment that is not finished takes everything behind it |
| Keywords.InsertedTriviaAreIgnored | src/readonly_policy.rs:461-502 | whitespace and comments put in front or after any keyword do not change what is read |
| Keywords.ValidateSql | src/readonly_policy.rs:426-448 | the policy's verdict, from the first four keywords |
| Keywords.RefusedIffControlPhrase | src/readonly_policy.rs:426-448 | a text is refused if and only if all its keywords together begin with one of thirteen phrases; looking at four is enough |
| Keywords.ControlIsRefusedInEveryForm | src/readonly_policy.rs:426-448 | every phrase of transaction control is refused in every mix of upper and lower case, with any comments and whitespace before and between its words, and anything behind it that is no ASCII letter and no underscore |
| Keywords.OtherTextsAreAllowed | src/readonly_policy.rs:426-448 | a text of any words is refused exactly if they begin with such a phrase |
| Keywords.VerdictIgnoresTrivia | src/readonly_policy.rs:426-448 | nor do they change the policy's verdict |
| Keywords.OnlyWhiteIsIgnored | src/readonly_policy.rs:466-468 | a single byte in front of every text changes nothing if and only if it is one of the scanner's five whitespace bytes |
| Conninfo.ParseConninfoPairs | src/conn.rs:365-428 | the loops return the pairs that `Parse` describes |
| Conninfo.ParseOfWrite | src/conn.rs:365-428 | every list of pairs with proper keys is read back byte for byte, whatever spacing, quoting and escaping it was written with |
| Conninfo.ParseGoesOn | src/conn.rs:365-428 | what follows a list of pairs is read for itself |
| Conninfo.StrayWordEndsReading | src/conn.rs:377-386 | a word without an equals sign ends the reading |
| Conninfo.LastValueIsRead | src/conn.rs:392-422 | an empty last value, one whose quote is not closed and one that ends in a lone backslash take everything up to the end, the backslash standing for itself |
| Conninfo.EveryListCanBeWritten | src/conn.rs:365-428 | and every such list has a text |

## Left out

- Executor.ImplicitQueryIsTruthful: says nothing about which SQLSTATE an error carries or how long anything takes.
- PipeRuns.EndpointsAgree: takes a `session_info` request as an operation that opens no connection, because the probe reads the configuration current at execution and may connect under a newer one.
- PipeRuns.EveryQueryIsAnswered: speaks of runs that are not shut down; aborted tasks, worker panics, shutdown deadlines and a writer that fails are not modelled.
- PipeRuns.WorkersNeverStick: assumes that the executor returns; timeouts are not modelled.
- PipeDrains.EveryRunComesToRest: gives one continuation; that the scheduler takes it is not modelled.
- PipeRuntime.PipeRuntime.DispatchConfig: runs a patch without workers moving in between; PatchIsAllOrNothing speaks of those that do.
- Functions with side effects called from a `SELECT` whose rows are sent before it is through: a statement either only reads or is run whole before its first row.
- LineReader.ReadLimitedLine: returns bytes; replacing what is not UTF-8 is not modelled.
- Conninfo.ParseOfWrite: takes keys and values as bytes; the scanner turns each byte of a value into one character.
- Shell.CommandArrivesUnchanged: is stated for final commands that are not empty and do not start with a dash, which `ssh` would take for an option; LayersComeOff has no such condition.
- Sockets, TLS, processes, bridge scripts, environment variables and files: the environment's script stands for what can go wrong with them.
- Row encoding, parameter typing and column metadata: a row is an opaque value with a size that decodes or does not, a statement says whether its parameters match.
- Dry runs (`prepare_only`): they execute nothing.
- The readonly policy's checks of a session's configuration: their verdict is a parameter of the steps that ask for it.
- Session names and query ids are numbers in their order; a session's configuration is a map from field names to texts or lists of texts.
- Answers to `begin`, `commit`, `rollback`, `session_info`, `ping` and `close` lines as events: the pipe records the events of queries, refusals, cancels and patches; what a commit answers is in `Session.dfy`.
- Decoding of input lines, and the error for a line that is not a request.
- Parsing of log filters: a patch carries the parsed list.
- Error texts, hints, log events, durations, counters and retry flags.
- Saturation of counters other than the collector's: batch totals are unbounded.
- The command line, the user interface, output formats, skill and psql administration: they would only add easy members.
