/**
 Streaming a result: rows are handed to a sink that gathers them into batches, and the events of one
 query are a start, the batches and an end or an error.
 */
module Sink {
  import opened Wrappers
  import opened Inline
  import opened Postgres
  import opened Executor
  import S = Session
  import T = Transactions
  import A = Answers

  datatype Output =
    | ResultStart
    | ResultRows(rows: seq<Row>)
    | ResultEnd(rowCount: nat, payloadBytes: nat)
    | CommandResult
    | ErrorEvent(error: ExecError)

  datatype BatchLimits = BatchLimits(rows: nat, bytes: nat)

  /** The bounds the resolved options put under both limits. */
  predicate ValidLimits(limits: BatchLimits) {
    1 <= limits.rows && 1024 <= limits.bytes
  }

  predicate Full(batch: seq<Row>, limits: BatchLimits) {
    |batch| >= limits.rows || Bytes(batch) >= limits.bytes
  }

  /** No batch is kept waiting once it is full. */
  ghost predicate Prompt(batch: seq<Row>, limits: BatchLimits) {
    forall n :: 0 <= n < |batch| ==> !Full(batch[..n], limits)
  }

  ghost predicate GoodBatch(batch: seq<Row>, limits: BatchLimits) {
    batch != [] && Full(batch, limits) && Prompt(batch, limits)
  }

  function Concat(batches: seq<seq<Row>>): seq<Row> {
    if batches == [] then [] else Concat(batches[..|batches| - 1]) + batches[|batches| - 1]
  }

  /** `batches` and then `rest` are `rows`, cut as late as promptness allows. */
  ghost predicate Batched(rows: seq<Row>, batches: seq<seq<Row>>, rest: seq<Row>, limits: BatchLimits) {
    && rows == Concat(batches) + rest
    && (forall i :: 0 <= i < |batches| ==> GoodBatch(batches[i], limits))
    && Prompt(rest, limits) && !Full(rest, limits)
  }

  /** A full batch is within the row limit, and only its last row can have crossed the byte target. */
  lemma BatchIsWithinLimits(batch: seq<Row>, limits: BatchLimits)
    requires ValidLimits(limits) && batch != [] && Prompt(batch, limits)
    ensures |batch| <= limits.rows
    ensures Bytes(batch[..|batch| - 1]) < limits.bytes
  {
    assert !Full(batch[..|batch| - 1], limits);
  }

  lemma ConcatOneMore(batches: seq<seq<Row>>, batch: seq<Row>)
    ensures Concat(batches + [batch]) == Concat(batches) + batch
  {
    assert (batches + [batch])[..|batches|] == batches;
  }

  /** How a sink cuts the rows it is given: each row joins the open batch, which is sent when it is full. */
  function Cut(rows: seq<Row>, limits: BatchLimits): (seq<seq<Row>>, seq<Row>) {
    if rows == [] then ([], [])
    else
      var (batches, rest) := Cut(rows[..|rows| - 1], limits);
      var batch := rest + [rows[|rows| - 1]];
      if Full(batch, limits) then (batches + [batch], []) else (batches, batch)
  }

  lemma BatchedOneMore(rows: seq<Row>, batches: seq<seq<Row>>, rest: seq<Row>, limits: BatchLimits, row: Row)
    requires ValidLimits(limits) && Batched(rows, batches, rest, limits)
    ensures var batch := rest + [row];
            if Full(batch, limits) then Batched(rows + [row], batches + [batch], [], limits)
            else Batched(rows + [row], batches, batch, limits)
  {
    var batch := rest + [row];
    EmptyBytes();
    ConcatOneMore(batches, batch);
    hide Bytes, Concat;
    assert rows + [row] == Concat(batches) + batch;
    assert Concat(batches + [batch]) + [] == Concat(batches + [batch]);
    forall n | 0 <= n < |batch| ensures !Full(batch[..n], limits) {
      if n < |rest| { assert batch[..n] == rest[..n]; } else { assert batch[..n] == rest; }
    }
    hide Full;
  }

  lemma NothingBatched(limits: BatchLimits)
    requires ValidLimits(limits)
    ensures Batched([], [], [], limits)
  {
  }

  lemma {:induction false} CutIsBatched(rows: seq<Row>, limits: BatchLimits)
    requires ValidLimits(limits)
    ensures Batched(rows, Cut(rows, limits).0, Cut(rows, limits).1, limits)
  {
    hide Batched, Full;
    if rows == [] {
      NothingBatched(limits);
    } else {
      var before, row := rows[..|rows| - 1], rows[|rows| - 1];
      CutIsBatched(before, limits);
      BatchedOneMore(before, Cut(before, limits).0, Cut(before, limits).1, limits, row);
      assert rows == before + [row];
    }
  }

  /** There is only one way to cut rows promptly. */
  lemma {:induction false} BatchingIsUnique(rows: seq<Row>, batches: seq<seq<Row>>, rest: seq<Row>, limits: BatchLimits)
    requires ValidLimits(limits) && Batched(rows, batches, rest, limits)
    ensures (batches, rest) == Cut(rows, limits)
    decreases |rows|
  {
    hide Bytes;
    EmptyBytes();
    if rest != [] {
      var before := rows[..|rows| - 1];
      var less := rest[..|rest| - 1];
      assert before == Concat(batches) + less;
      assert rest == less + [rows[|rows| - 1]];
      forall n | 0 <= n < |less| ensures !Full(less[..n], limits) { assert less[..n] == rest[..n]; }
      assert !Full(less, limits);
      BatchingIsUnique(before, batches, less, limits);
    } else if batches != [] {
      var before := rows[..|rows| - 1];
      var others, batch := batches[..|batches| - 1], batches[|batches| - 1];
      assert GoodBatch(batch, limits);
      var less := batch[..|batch| - 1];
      assert before == Concat(others) + less;
      assert batch == less + [rows[|rows| - 1]];
      forall n | 0 <= n < |less| ensures !Full(less[..n], limits) { assert less[..n] == batch[..n]; }
      assert !Full(less, limits);
      BatchingIsUnique(before, others, less, limits);
      assert batches == others + [batch];
    }
  }

  function RowEvents(batches: seq<seq<Row>>): (events: seq<Output>)
    ensures |events| == |batches|
    ensures forall i :: 0 <= i < |batches| ==> events[i] == ResultRows(batches[i])
  {
    seq(|batches|, i requires 0 <= i < |batches| => ResultRows(batches[i]))
  }

  class OutputRowSink {
    const limits: BatchLimits
    var batch: seq<Row>
    var batchBytes: nat
    // The events sent for this query so far.
    var out: seq<Output>
    ghost var started: bool
    ghost var rows: seq<Row>

    /** Everything handed to the sink is in the events sent or in the open batch, cut as `Cut` cuts it. */
    ghost predicate Valid()
      reads this
    {
      && ValidLimits(limits)
      && batchBytes == Bytes(batch)
      && batch == Cut(rows, limits).1
      && out == (if started then [ResultStart] + RowEvents(Cut(rows, limits).0) else [])
      && (!started ==> rows == [])
    }

    constructor (limits: BatchLimits)
      requires ValidLimits(limits)
      ensures Valid() && this.limits == limits && !started && rows == []
    {
      this.limits := limits;
      batch, batchBytes, out, started, rows := [], 0, [], false, [];
    }

    method Start()
      requires Valid() && !started
      modifies this
      ensures Valid() && started && rows == []
    {
      out := out + [ResultStart];
      started := true;
    }

    method FlushBatch()
      modifies this`batch, this`batchBytes, this`out
      ensures batch == [] && (old(batch) != [] ==> batchBytes == 0) && (old(batch) == [] ==> batchBytes == old(batchBytes))
      ensures out == old(out) + (if old(batch) == [] then [] else [ResultRows(old(batch))])
    {
      if batch == [] { return; }
      out := out + [ResultRows(batch)];
      batch, batchBytes := [], 0;
    }

    method TakeRow(row: Row, rowBytes: nat)
      requires Valid() && started && rowBytes == row.size
      modifies this
      ensures Valid() && started && rows == old(rows) + [row]
    {
      hide Cut, RowEvents, Bytes;
      ghost var batches := Cut(rows, limits).0;
      CutStep(rows, row, limits);
      BytesStep(batch, row);
      RowEventsStep(batches, batch + [row]);
      batchBytes := batchBytes + rowBytes;
      batch := batch + [row];
      rows := rows + [row];
      if |batch| >= limits.rows || batchBytes >= limits.bytes {
        assert Full(batch, limits);
        FlushBatch();
        EmptyBytes();
      }
    }
  }

  lemma EmptyBytes()
    ensures Bytes([]) == 0
  {
  }

  lemma BytesStep(rows: seq<Row>, row: Row)
    ensures Bytes(rows + [row]) == Bytes(rows) + row.size
  {
    assert (rows + [row])[..|rows|] == rows;
  }

  lemma CutStep(rows: seq<Row>, row: Row, limits: BatchLimits)
    ensures var (batches, rest) := Cut(rows, limits);
            Cut(rows + [row], limits) == if Full(rest + [row], limits) then (batches + [rest + [row]], []) else (batches, rest + [row])
  {
    hide Full;
    assert (rows + [row])[..|rows|] == rows;
  }

  lemma RowEventsStep(batches: seq<seq<Row>>, batch: seq<Row>)
    ensures RowEvents(batches + [batch]) == RowEvents(batches) + [ResultRows(batch)]
  {
  }

  datatype StreamStats = StreamStats(rowCount: nat, payloadBytes: nat)

  /** `stats` counts the rows the sink has been given, and what is left to read completes them. */
  ghost predicate Drained(src: Finite, i: nat, rows: seq<Row>, stats: StreamStats) {
    && i <= src.length.value
    && stats == StreamStats(|rows|, Bytes(rows))
    && ReadAll(src, 0).rows == rows + ReadAll(src, i).rows
    && ReadAll(src, 0).error == ReadAll(src, i).error
  }

  function Counted(stats: StreamStats, row: Row): StreamStats {
    StreamStats(stats.rowCount + 1, stats.payloadBytes + row.size)
  }

  lemma DrainedNone(src: Finite)
    ensures Drained(src, 0, [], StreamStats(0, 0))
  {
  }

  lemma DrainedOneMore(src: Finite, i: nat, rows: seq<Row>, stats: StreamStats)
    requires Drained(src, i, rows, stats) && i < src.length.value && src.at(i).readable
    ensures Drained(src, i + 1, rows + [src.at(i)], Counted(stats, src.at(i)))
  {
    BytesStep(rows, src.at(i));
    assert rows + ([src.at(i)] + ReadAll(src, i + 1).rows) == rows + [src.at(i)] + ReadAll(src, i + 1).rows;
  }

  lemma DrainedUndecodable(src: Finite, i: nat, rows: seq<Row>, stats: StreamStats)
    requires Drained(src, i, rows, stats) && i < src.length.value && !src.at(i).readable
    ensures ReadAll(src, 0) == AllRead(rows, Some(Undecodable))
  {
    assert rows + [] == rows;
  }

  lemma DrainedAll(src: Finite, rows: seq<Row>, stats: StreamStats)
    requires Drained(src, src.length.value, rows, stats)
    ensures ReadAll(src, 0) == AllRead(rows, src.failure) && stats == StreamStats(|rows|, Bytes(rows))
  {
    assert rows + [] == rows;
  }

  function StatsOf(src: Finite): Result<StreamStats, ReadError> {
    var read := ReadAll(src, 0);
    if read.error.Some? then Err(read.error.value) else Ok(StreamStats(|read.rows|, Bytes(read.rows)))
  }

  /** Read a whole row stream into the sink. */
  method DrainRowStream(src: Finite, sink: OutputRowSink) returns (r: Result<StreamStats, ReadError>)
    requires sink.Valid() && sink.started && sink.rows == []
    modifies sink
    ensures sink.Valid() && sink.started && sink.rows == ReadAll(src, 0).rows && r == StatsOf(src)
  {
    hide OutputRowSink.Valid, Drained, ReadAll, Bytes;
    var i, stats := 0, StreamStats(0, 0);
    DrainedNone(src);
    while i < src.length.value
      invariant i <= src.length.value && sink.Valid() && sink.started && Drained(src, i, sink.rows, stats)
    {
      var row := src.at(i);
      if !row.readable {
        DrainedUndecodable(src, i, sink.rows, stats);
        return Err(Undecodable);
      }
      DrainedOneMore(src, i, sink.rows, stats);
      stats := StreamStats(stats.rowCount + 1, stats.payloadBytes + row.size);
      sink.TakeRow(row, row.size);
      i := i + 1;
    }
    DrainedAll(src, sink.rows, stats);
    if src.failure.Some? { return Err(src.failure.value); }
    return Ok(stats);
  }

  /** Read a portal to its end into the sink, a batch at a time; a batch that comes back short is the last. */
  method DrainPortalStream(portal: Portal, sink: OutputRowSink) returns (r: Result<StreamStats, ReadError>)
    requires portal.source.length.Some? && portal.position == 0
    requires sink.Valid() && sink.started && sink.rows == []
    modifies portal, sink
    ensures sink.Valid() && sink.started && sink.rows == ReadAll(portal.source, 0).rows && r == StatsOf(portal.source)
  {
    hide OutputRowSink.Valid, Drained, ReadAll, Bytes;
    var src: Finite := portal.source;
    var stats := StreamStats(0, 0);
    DrainedNone(src);
    while true
      invariant portal.position <= src.length.value && sink.Valid() && sink.started && Drained(src, portal.position, sink.rows, stats)
      decreases src.length.value - portal.position
    {
      ghost var first := portal.position;
      var sent := 0;
      while sent < INLINE_PORTAL_BATCH_ROWS && src.Has(portal.position)
        invariant sent <= INLINE_PORTAL_BATCH_ROWS && portal.position == first + sent <= src.length.value
        invariant sink.Valid() && sink.started && Drained(src, portal.position, sink.rows, stats)
        decreases INLINE_PORTAL_BATCH_ROWS - sent
      {
        var row := src.at(portal.position);
        if !row.readable {
          DrainedUndecodable(src, portal.position, sink.rows, stats);
          return Err(Undecodable);
        }
        DrainedOneMore(src, portal.position, sink.rows, stats);
        stats := StreamStats(stats.rowCount + 1, stats.payloadBytes + row.size);
        sink.TakeRow(row, row.size);
        portal.position := portal.position + 1;
        sent := sent + 1;
      }
      if sent < INLINE_PORTAL_BATCH_ROWS {
        DrainedAll(src, sink.rows, stats);
        if src.failure.Some? { return Err(src.failure.value); }
        return Ok(stats);
      }
    }
  }

  function RowsOf(sent: seq<SinkCall>): seq<Row> {
    if sent == [] then []
    else RowsOf(sent[..|sent| - 1]) + (if sent[|sent| - 1].Push? then [sent[|sent| - 1].row] else [])
  }

  /** The batches the caller sees: a success sends the open one too, a failure drops it. */
  function SentBatches(sent: seq<SinkCall>, result: Result<Outcome, ExecError>, limits: BatchLimits): seq<seq<Row>> {
    var (batches, rest) := Cut(RowsOf(sent), limits);
    if result.Ok? && result.value.Streamed? && rest != [] then batches + [rest] else batches
  }

  /** The events of one query, given what the executor answered and what it handed to the sink. */
  function Transcript(sent: seq<SinkCall>, result: Result<Outcome, ExecError>, limits: BatchLimits): seq<Output> {
    (if sent == [] then [] else [ResultStart] + RowEvents(SentBatches(sent, result, limits))) +
    (match result
     case Ok(Streamed(rowCount, payloadBytes)) => [ResultEnd(rowCount, payloadBytes)]
     case Ok(_) => [CommandResult]
     case Err(e) => [ErrorEvent(e)])
  }

  /** The last event goes out once the executor is done with the query. */
  method HandleStreamingResult(sink: OutputRowSink, sent: seq<SinkCall>, result: Result<Outcome, ExecError>)
    requires sink.Valid() && sink.started == (sent != []) && sink.rows == RowsOf(sent)
    requires result.Ok? && result.value.Streamed? ==> sink.started
    requires result.Ok? ==> !result.value.Collection?
    modifies sink
    ensures sink.out == Transcript(sent, result, sink.limits)
  {
    if result.Err? {
      sink.out := sink.out + [ErrorEvent(result.error)];
    } else if result.value.Streamed? {
      ghost var (batches, rest) := Cut(sink.rows, sink.limits);
      RowEventsStep(batches, rest);
      sink.FlushBatch();
      sink.out := sink.out + [ResultEnd(result.value.rowCount, result.value.payloadBytes)];
    } else {
      sink.out := sink.out + [CommandResult];
    }
  }

  /** Either a single command result or error, or a start, the batches, and the end or an error. */
  ghost predicate WellOrdered(batches: seq<seq<Row>>, events: seq<Output>) {
    || events == [CommandResult]
    || (|events| == 1 && events[0].ErrorEvent?)
    || (&& |events| == |batches| + 2
        && events[0] == ResultStart
        && (forall i :: 0 <= i < |batches| ==> events[i + 1] == ResultRows(batches[i]))
        && (events[|batches| + 1].ResultEnd? || events[|batches| + 1].ErrorEvent?))
  }

  /**
   One query's events, seen whole. Rows only come between a start and the query's last event; every
   batch is nonempty, within the row limit, and passed the byte target with its last row if at all;
   together the batches are the statement's first rows in order, and all of them, with their totals,
   if the last event is the end of a result. The last event tells the result: an error is told as that
   error, a success with columns as the end of a result, one without as a command's, and each only so;
   and there is a start unless it was a command or failed before its rows were there to be read. Only the
   last batch of a success may be less than full, and what an error drops is less than a full batch.
   */
  ghost predicate Conserved(req: Request, sent: seq<SinkCall>, result: Result<Outcome, ExecError>, limits: BatchLimits)
    requires ValidLimits(limits)
  {
    var batches, events := SentBatches(sent, result, limits), Transcript(sent, result, limits);
    var n := |Concat(batches)|;
    && WellOrdered(batches, events)
    && (forall i :: 0 <= i < |batches| ==> BatchWithin(batches[i], limits))
    && n <= req.statement.count && Concat(batches) == Slice(req.statement.Yields(), 0, n)
    && (events[|events| - 1].ResultEnd? ==>
          n == req.statement.count && events[|events| - 1] == ResultEnd(n, Bytes(Concat(batches))))
    && LastTells(req, events[|events| - 1], result)
    && (forall i :: 0 <= i < |batches| - (if result.Ok? then 1 else 0) ==>
          |batches[i]| >= limits.rows || Bytes(batches[i]) >= limits.bytes)
    && (exists dropped :: RowsOf(sent) == Concat(batches) + dropped && |dropped| < limits.rows && Bytes(dropped) < limits.bytes)
    && (events[0] == ResultStart <==> sent != [])
    && (result.Ok? && req.statement.columns != 0 ==> events[0] == ResultStart)
    && (req.statement.columns == 0 ==> |events| == 1)
  }

  /** The event that ends a query is the one its result calls for. */
  ghost predicate LastTells(req: Request, last: Output, result: Result<Outcome, ExecError>) {
    && (last.ErrorEvent? <==> result.Err?)
    && (last.ErrorEvent? ==> result == Err(last.error))
    && (last.ResultEnd? <==> result.Ok? && req.statement.columns != 0)
    && (last.CommandResult? <==> result.Ok? && req.statement.columns == 0)
  }

  predicate BatchWithin(batch: seq<Row>, limits: BatchLimits) {
    batch != [] && |batch| <= limits.rows && Bytes(batch[..|batch| - 1]) < limits.bytes
  }

  lemma {:induction false} RowsOfPushes(rows: seq<Row>)
    ensures RowsOf([Start] + Pushes(rows)) == rows
  {
    var calls := [Start] + Pushes(rows);
    if rows == [] {
      assert calls == [Start] && calls[..0] == [];
    } else {
      var before := rows[..|rows| - 1];
      RowsOfPushes(before);
      assert calls[..|calls| - 1] == [Start] + Pushes(before);
    }
  }

  lemma SentBatchesAreRows(sent: seq<SinkCall>, result: Result<Outcome, ExecError>, limits: BatchLimits)
    requires ValidLimits(limits)
    ensures Concat(SentBatches(sent, result, limits)) <= RowsOf(sent)
    ensures result.Ok? && result.value.Streamed? ==> Concat(SentBatches(sent, result, limits)) == RowsOf(sent)
    ensures forall i :: 0 <= i < |SentBatches(sent, result, limits)| ==> BatchWithin(SentBatches(sent, result, limits)[i], limits)
  {
    hide Bytes, Cut, RowsOf, Concat, Full, Prompt;
    var rows := RowsOf(sent);
    CutIsBatched(rows, limits);
    var (batches, rest) := Cut(rows, limits);
    ConcatOneMore(batches, rest);
    forall i | 0 <= i < |SentBatches(sent, result, limits)| ensures BatchWithin(SentBatches(sent, result, limits)[i], limits) {
      if i < |batches| { assert GoodBatch(batches[i], limits); }
      BatchIsWithinLimits(SentBatches(sent, result, limits)[i], limits);
    }
  }

  lemma TranscriptIsInOrder(req: Request, sent: seq<SinkCall>, result: Result<Outcome, ExecError>, limits: BatchLimits)
    requires req.streaming && Sends(req, sent, result) && (result.Ok? ==> Reports(req, result.value))
    ensures WellOrdered(SentBatches(sent, result, limits), Transcript(sent, result, limits))
  {
    hide SentBatches;
    if sent == [] {
    } else if result.Err? {
    } else {
    }
  }

  lemma TranscriptTells(req: Request, sent: seq<SinkCall>, result: Result<Outcome, ExecError>, limits: BatchLimits)
    requires req.streaming && Sends(req, sent, result) && (result.Ok? ==> Reports(req, result.value))
    ensures var events := Transcript(sent, result, limits);
            && events != [] && LastTells(req, events[|events| - 1], result)
            && (events[0] == ResultStart <==> sent != [])
            && (result.Ok? && req.statement.columns != 0 ==> sent != [])
            && (req.statement.columns == 0 ==> |events| == 1)
  {
    hide SentBatches, Bytes;
    if result.Ok? {}
  }

  lemma BatchesAreFull(sent: seq<SinkCall>, result: Result<Outcome, ExecError>, limits: BatchLimits)
    requires ValidLimits(limits)
    ensures var batches := SentBatches(sent, result, limits);
            && (forall i :: 0 <= i < |batches| - (if result.Ok? then 1 else 0) ==>
                  |batches[i]| >= limits.rows || Bytes(batches[i]) >= limits.bytes)
            && exists dropped :: RowsOf(sent) == Concat(batches) + dropped && |dropped| < limits.rows && Bytes(dropped) < limits.bytes
  {
    hide Bytes, Cut, RowsOf, Concat, Prompt;
    EmptyBytes();
    CutIsBatched(RowsOf(sent), limits);
    var (batches, rest) := Cut(RowsOf(sent), limits);
    ConcatOneMore(batches, rest);
    assert Concat(batches + [rest]) + [] == Concat(batches + [rest]);
    forall i | 0 <= i < |batches| ensures |batches[i]| >= limits.rows || Bytes(batches[i]) >= limits.bytes {
      assert GoodBatch(batches[i], limits);
    }
    if SentBatches(sent, result, limits) == batches {
      assert RowsOf(sent) == Concat(SentBatches(sent, result, limits)) + rest;
    } else {
      assert RowsOf(sent) == Concat(SentBatches(sent, result, limits)) + [];
    }
  }

  lemma SentRows(req: Request, sent: seq<SinkCall>, result: Result<Outcome, ExecError>)
    requires Sends(req, sent, result)
    ensures sent == [] ==> RowsOf(sent) == []
    ensures sent != [] ==> |sent| - 1 <= req.statement.count && RowsOf(sent) == Slice(req.statement.Yields(), 0, |sent| - 1)
  {
    if sent != [] {
      RowsOfPushes(Slice(req.statement.Yields(), 0, |sent| - 1));
    }
  }

  lemma PrefixOfSlice(src: Source, rows: seq<Row>, m: nat)
    requires rows <= Slice(src, 0, m)
    ensures rows == Slice(src, 0, |rows|)
  {
    assert Slice(src, 0, m)[..|rows|] == Slice(src, 0, |rows|);
  }

  lemma RowsAreConserved(req: Request, sent: seq<SinkCall>, result: Result<Outcome, ExecError>, limits: BatchLimits)
    requires ValidLimits(limits) && req.streaming && Sends(req, sent, result) && (result.Ok? ==> Reports(req, result.value))
    ensures var all := Concat(SentBatches(sent, result, limits));
            && |all| <= req.statement.count && all == Slice(req.statement.Yields(), 0, |all|)
            && (result.Ok? && result.value.Streamed? ==>
                  |all| == req.statement.count && result.value == Streamed(|all|, Bytes(all)))
  {
    hide Cut, Bytes, SentBatches, RowsOf, Concat;
    var all := Concat(SentBatches(sent, result, limits));
    SentBatchesAreRows(sent, result, limits);
    SentRows(req, sent, result);
    PrefixOfSlice(req.statement.Yields(), all, if sent == [] then 0 else |sent| - 1);
    if result.Ok? {} else {}
  }

  lemma StreamIsConserved(req: Request, sent: seq<SinkCall>, result: Result<Outcome, ExecError>, limits: BatchLimits)
    requires ValidLimits(limits) && req.streaming && Sends(req, sent, result)
    requires result.Ok? ==> Reports(req, result.value)
    ensures Conserved(req, sent, result, limits)
  {
    hide Sends, Reports, SentBatches, RowEvents, WellOrdered, LastTells;
    TranscriptIsInOrder(req, sent, result, limits);
    TranscriptTells(req, sent, result, limits);
    BatchesAreFull(sent, result, limits);
    RowsAreConserved(req, sent, result, limits);
    SentBatchesAreRows(sent, result, limits);
  }

  /** What a query hands to its sink: nothing if it is refused before it is sent. */
  function CallsOf(s: S.Session, req: Request, cancelled: bool, env: S.Env): seq<SinkCall>
    requires ValidRequest(req)
  {
    var (t, refusal) := S.Admitted(s, req, cancelled, env);
    if refusal.Some? then [] else S.Attempt(t, req, env).sent
  }

  lemma QueriesSend(s: S.Session, req: Request, cancelled: bool, env: S.Env)
    requires ValidRequest(req) && S.ValidEnv(env) && T.InStep(s) && req.streaming
    ensures Sends(req, CallsOf(s, req, cancelled, env), S.Query(s, req, cancelled, env).1)
  {
    T.QueriesAreTruthful(s, req, cancelled, env);
    hide ExecuteWithClient, ExecuteInOpenTx, Reports;
    var (t, refusal) := S.Admitted(s, req, cancelled, env);
    if refusal.None? {
      var w := S.WireOf(t, t.client.value, env);
      if !S.ExplicitTx(t.tx) {
        ImplicitQueryIsTruthful(w, req);
      } else if !w.backend.alive {
        T.DeadTxFails(w, req);
      } else if w.backend.status == Aborted {
        T.AbortedTxRefuses(w, req);
      } else {
        OpenTxKeepsSavepointDiscipline(w, req);
      }
    }
  }

  /**
   So are the events of every streaming query, whatever state any run has left its session in and
   whatever the environment does to it.
   */
  lemma EveryStreamIsConserved(ops: seq<T.Op>, req: Request, cancelled: bool, env: S.Env, limits: BatchLimits)
    requires ValidLimits(limits) && ValidRequest(req) && req.streaming && T.ValidOps(ops) && S.ValidEnv(env)
    ensures var s := T.Play(T.START, ops).session;
            Conserved(req, CallsOf(s, req, cancelled, env), S.Query(s, req, cancelled, env).1, limits)
  {
    hide S.Query, CallsOf, Conserved, Reports, Sends;
    T.PlayIsConsistent(ops);
    var s := T.Play(T.START, ops).session;
    T.QueriesAreTruthful(s, req, cancelled, env);
    QueriesSend(s, req, cancelled, env);
    StreamIsConserved(req, CallsOf(s, req, cancelled, env), S.Query(s, req, cancelled, env).1, limits);
  }

  /**
   When every message is served, or only the parse of the wrapper refused, a streaming query that is run
   hands every row before the end or the first trouble to its sink, and none is left out.
   */
  lemma ServedStreamsAreComplete(ops: seq<T.Op>, req: Request, cancelled: bool, env: S.Env, refusal: Option<SqlState>)
    requires ValidRequest(req) && req.streaming && req.statement.columns != 0 && T.ValidOps(ops) && S.ValidEnv(env)
    requires A.Serves(env.fates, 5, refusal)
    ensures var s := T.Play(T.START, ops).session;
            var readOnly := if s.tx == S.Idle then req.readOnly else s.tx == S.ReadOnlyTx;
            A.TurnedAway(s, req, cancelled, env).None? && A.RefusalOf(req, s.tx != S.Idle, refusal).None? ==>
              A.SentAll(req, readOnly, CallsOf(s, req, cancelled, env))
  {
    T.PlayIsConsistent(ops);
    RoomyQueriesAbandonNothing(req);
    var s := T.Play(T.START, ops).session;
    hide T.Play, ExecuteWithClient, ExecuteInOpenTx, A.SentAll, A.RefusalOf, A.Serves, Abandons, A.Results, A.ReadResults;
    var t := S.Admitted(s, req, cancelled, env).0;
    if A.TurnedAway(s, req, cancelled, env).None? {
      var w := S.WireOf(t, t.client.value, env);
      if s.tx == S.Idle { A.ImplicitQueryIsAnswered(w, req, refusal); } else { A.ExplicitQueryIsAnswered(w, req, refusal); }
    }
  }
}
