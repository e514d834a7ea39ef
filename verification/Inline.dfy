/**
 Inline result collection: the capped row collector and the two loops that feed it.

 A statement's answer is a stream of rows that ends in completion, in a server-side failure, or
 never. Implicit queries read it through a portal in batches and stop asking once a cap fires;
 queries inside an explicit transaction read one unbounded stream and break out of it.
 */
module Inline {
  import opened Wrappers

  const USIZE_MAX: nat := 0xFFFF_FFFF_FFFF_FFFF
  const I32_MAX: nat := 0x7FFF_FFFF
  const INLINE_PORTAL_BATCH_ROWS: nat := 1024

  function SaturatingAdd(a: nat, b: nat): nat {
    Min(a + b, USIZE_MAX)
  }

  /** A row as the client receives it: `readable` is false when its JSON cannot be decoded. */
  datatype Row = Row(value: int, size: nat, readable: bool)

  datatype ReadError = ServerFailed(code: string) | ConnectionGone | Undecodable

  /** Rows `at(0), at(1), ...` up to `length`, then completion or `failure`; no length is an endless answer. */
  datatype Source = Source(at: nat -> Row, length: Option<nat>, failure: Option<ReadError>) {
    predicate Has(i: nat) {
      length.None? || i < length.value
    }
  }

  type Finite = s: Source | s.length.Some? witness Source((i: nat) => Row(0, 0, true), Some(0), None)

  function Slice(src: Source, lo: nat, hi: nat): (rows: seq<Row>)
    requires lo <= hi
    ensures |rows| == hi - lo
    ensures forall i :: 0 <= i < hi - lo ==> rows[i] == src.at(lo + i)
  {
    seq(hi - lo, i requires 0 <= i => src.at(lo + i))
  }

  function Bytes(rows: seq<Row>): nat {
    if rows == [] then 0 else Bytes(rows[..|rows| - 1]) + rows[|rows| - 1].size
  }

  datatype Caps = Caps(rows: nat, bytes: nat)

  /** A saturating counter never passes a cap of `usize::MAX`, so that cap is no cap at all. */
  predicate WithinRows(n: nat, caps: Caps) {
    n <= caps.rows || caps.rows == USIZE_MAX
  }

  predicate WithinBytes(total: nat, caps: Caps) {
    total <= caps.bytes || caps.bytes == USIZE_MAX
  }

  predicate Within(rows: seq<Row>, caps: Caps) {
    WithinRows(|rows|, caps) && WithinBytes(Bytes(rows), caps)
  }

  predicate ValidCaps(caps: Caps) {
    caps.rows <= USIZE_MAX && caps.bytes <= USIZE_MAX
  }

  /** What a collector hands back: accepted rows and the cap that cut them short, if one did. */
  datatype Collected = Collected(rows: seq<Row>, atRows: Option<nat>, atBytes: Option<nat>) {
    predicate Truncated() {
      atRows.Some? || atBytes.Some?
    }
  }

  /** The first `n` rows of `src` were accepted and the next one, if the flags are set, was refused. */
  ghost predicate Prefix(src: Source, caps: Caps, c: Collected) {
    && c.rows == Slice(src, 0, |c.rows|)
    && (c.rows != [] ==> src.Has(|c.rows| - 1))
    && Within(c.rows, caps)
    && (c.Truncated() ==> src.Has(|c.rows|))
    && (c.atRows.Some? <==> c.Truncated() && !WithinRows(|c.rows| + 1, caps))
    && (c.atBytes.Some? <==> c.Truncated() && WithinRows(|c.rows| + 1, caps) && !Within(Slice(src, 0, |c.rows| + 1), caps))
    && (c.atRows.Some? ==> c.atRows.value == caps.rows)
    && (c.atBytes.Some? ==> c.atBytes.value == caps.bytes)
  }

  /**
   The one-shot answer: the longest prefix of the rows inside both caps, with exactly one flag set
   if and only if a row was left out.
   */
  ghost predicate LongestPrefix(src: Source, caps: Caps, c: Collected) {
    && Prefix(src, caps, c)
    && (c.Truncated() <==> src.Has(|c.rows|))
  }

  lemma {:induction false} BytesOfSlice(src: Source, m: nat, n: nat)
    requires m <= n
    ensures Bytes(Slice(src, 0, m)) <= Bytes(Slice(src, 0, n))
    ensures m < n ==> Bytes(Slice(src, 0, n)) == Bytes(Slice(src, 0, n - 1)) + src.at(n - 1).size
    decreases n
  {
    if m < n {
      var s := Slice(src, 0, n);
      assert s[..n - 1] == Slice(src, 0, n - 1);
      BytesOfSlice(src, m, n - 1);
    }
  }

  /** A prefix that was cut short cannot be extended by any number of rows and stay inside the caps. */
  lemma NoLongerPrefixFits(src: Source, caps: Caps, c: Collected, n: nat)
    requires Prefix(src, caps, c) && c.Truncated()
    requires |c.rows| < n
    ensures !Within(Slice(src, 0, n), caps)
  {
    BytesOfSlice(src, |c.rows| + 1, n);
  }

  /** The longest prefix is unique, so any two ways of computing it agree on rows and flags. */
  lemma LongestPrefixIsUnique(src: Source, caps: Caps, c: Collected, d: Collected)
    requires LongestPrefix(src, caps, c) && LongestPrefix(src, caps, d)
    ensures c == d
  {
    if |c.rows| < |d.rows| {
      NoLongerPrefixFits(src, caps, c, |d.rows|);
      assert false;
    }
    if |d.rows| < |c.rows| {
      NoLongerPrefixFits(src, caps, d, |c.rows|);
      assert false;
    }
  }

  /** In numbers: the rows and their bytes are within real caps, and a row that was left out would have passed the cap that is named. */
  lemma CapsAreMeant(src: Source, caps: Caps, c: Collected)
    requires LongestPrefix(src, caps, c) && caps.rows < USIZE_MAX && caps.bytes < USIZE_MAX
    ensures |c.rows| <= caps.rows && Bytes(c.rows) <= caps.bytes
    ensures c.atRows.Some? ==> c.atRows.value == caps.rows == |c.rows| && c.atBytes.None?
    ensures c.atBytes.Some? ==>
              c.atBytes.value == caps.bytes < Bytes(c.rows) + src.at(|c.rows|).size && |c.rows| < caps.rows && c.atRows.None?
    ensures c.atRows.None? && c.atBytes.None? <==> !src.Has(|c.rows|)
  {
    BytesOfSlice(src, |c.rows|, |c.rows| + 1);
  }

  /** One offer to a collector: refused once a cap has fired, refused by the row cap first, then by the byte cap. */
  function Offer(c: Collected, row: Row, caps: Caps): Collected {
    if c.Truncated() then c
    else if !WithinRows(|c.rows| + 1, caps) then c.(atRows := Some(caps.rows))
    else if !WithinBytes(Bytes(c.rows) + row.size, caps) then c.(atBytes := Some(caps.bytes))
    else c.(rows := c.rows + [row])
  }

  const NOTHING := Collected([], None, None)

  lemma OfferKeepsPrefix(src: Source, caps: Caps, c: Collected)
    requires Prefix(src, caps, c) && !c.Truncated() && src.Has(|c.rows|)
    ensures Prefix(src, caps, Offer(c, src.at(|c.rows|), caps))
  {
    var n := |c.rows|;
    var longer := Slice(src, 0, n + 1);
    assert longer == c.rows + [src.at(n)];
    assert longer[..n] == c.rows;
  }

  class InlineRowCollector {
    var rows: seq<Row>
    var rowCount: nat
    var payloadBytes: nat
    const caps: Caps
    var truncatedAtRows: Option<nat>
    var truncatedAtBytes: Option<nat>

    ghost predicate Valid()
      reads this
    {
      && ValidCaps(caps)
      && rowCount == Min(|rows|, USIZE_MAX)
      && payloadBytes == Min(Bytes(rows), USIZE_MAX)
    }

    function Contents(): Collected
      reads this
    {
      Collected(rows, truncatedAtRows, truncatedAtBytes)
    }

    constructor (caps: Caps)
      requires ValidCaps(caps)
      ensures Valid() && this.caps == caps
      ensures Contents() == NOTHING
    {
      rows, rowCount, payloadBytes := [], 0, 0;
      this.caps := caps;
      truncatedAtRows, truncatedAtBytes := None, None;
    }

    predicate IsTruncated()
      reads this
    {
      truncatedAtRows.Some? || truncatedAtBytes.Some?
    }

    /** Accepts the row exactly when nothing was refused before and the longer list is within both caps. */
    method Push(row: Row) returns (accepted: bool)
      requires Valid()
      modifies this
      ensures Valid()
      ensures accepted == (!old(IsTruncated()) && Within(old(rows) + [row], caps))
      ensures Contents() == Offer(old(Contents()), row, caps)
    {
      ghost var longer := rows + [row];
      assert longer[..|rows|] == rows;
      if IsTruncated() {
        return false;
      }
      var nextRowCount := SaturatingAdd(rowCount, 1);
      var nextPayloadBytes := SaturatingAdd(payloadBytes, row.size);
      if nextRowCount > caps.rows {
        truncatedAtRows := Some(caps.rows);
        return false;
      }
      if nextPayloadBytes > caps.bytes {
        truncatedAtBytes := Some(caps.bytes);
        return false;
      }
      rowCount := nextRowCount;
      payloadBytes := nextPayloadBytes;
      rows := rows + [row];
      return true;
    }
  }

  /** The server answers `n` rows from row `i`, or its failure if producing them runs into one. */
  function Drain(src: Source, caps: Caps, c: Collected, i: nat, n: nat): (r: Result<Collected, ReadError>)
    ensures r.Ok? && !r.value.Truncated() && src.Has(i) && n > 0 ==> c.rows < r.value.rows
    ensures r.Ok? && c.Truncated() ==> r.value == c
    decreases n
  {
    if n == 0 then Ok(c)
    else if !src.Has(i) then
      if src.failure.Some? then Err(src.failure.value) else Ok(c)
    else if !src.at(i).readable then Err(Undecodable)
    else Drain(src, caps, Offer(c, src.at(i), caps), i + 1, n - 1)
  }

  /** Reading ends for a finite answer, and for an endless one whenever the row cap is a real cap. */
  predicate Ends(src: Source, caps: Caps) {
    src.length.Some? || caps.rows < USIZE_MAX
  }

  ghost function Left(src: Source, caps: Caps, i: nat): int {
    if src.length.Some? then src.length.value + 1 - i else caps.rows + 2 - i
  }

  function InlineFetchRows(rowCount: nat, caps: Caps, batchRows: nat): (n: nat)
    requires batchRows <= USIZE_MAX
    ensures 1 <= n <= I32_MAX
    ensures caps.rows < USIZE_MAX && rowCount <= caps.rows ==> rowCount + n <= caps.rows + 1
    ensures batchRows >= 1 ==> n <= batchRows
  {
    var remaining := if caps.rows >= rowCount then caps.rows - rowCount else 0;
    var fetchRows := Min(SaturatingAdd(remaining, 1), batchRows);
    Min(if fetchRows >= 1 then fetchRows else 1, I32_MAX)
  }

  /** The break-on-truncation loop of explicit transactions, continued from the rows accepted so far. */
  function StreamRead(src: Source, caps: Caps, c: Collected): Result<Collected, ReadError>
    requires Ends(src, caps) && Prefix(src, caps, c) && !c.Truncated()
    decreases Left(src, caps, |c.rows|)
  {
    var i := |c.rows|;
    if !src.Has(i) then
      if src.failure.Some? then Err(src.failure.value) else Ok(c)
    else if !src.at(i).readable then Err(Undecodable)
    else
      OfferKeepsPrefix(src, caps, c);
      var next := Offer(c, src.at(i), caps);
      if next.Truncated() then Ok(next) else StreamRead(src, caps, next)
  }

  /** The portal loop: batches of at most one row more than the row cap still allows, until the end or a cap. */
  function PortalRead(src: Source, caps: Caps, batchRows: nat, c: Collected): Result<Collected, ReadError>
    requires batchRows <= USIZE_MAX
    requires Ends(src, caps) && Prefix(src, caps, c) && !c.Truncated()
    decreases Left(src, caps, |c.rows|)
  {
    var i := |c.rows|;
    var n := InlineFetchRows(i, caps, batchRows);
    var r := Drain(src, caps, c, i, n);
    if r.Err? then r
    else
      DrainKeepsPrefix(src, caps, c, n);
      if !src.Has(i + n - 1) || r.value.Truncated() then r else PortalRead(src, caps, batchRows, r.value)
  }

  /** A drained batch extends the prefix by every row it read, or stops it at the first row past a cap. */
  lemma {:induction false} DrainKeepsPrefix(src: Source, caps: Caps, c: Collected, n: nat)
    requires Prefix(src, caps, c) && !c.Truncated()
    requires Drain(src, caps, c, |c.rows|, n).Ok?
    ensures var d := Drain(src, caps, c, |c.rows|, n).value;
            && Prefix(src, caps, d)
            && c.rows <= d.rows
            && |d.rows| <= |c.rows| + n
            && (!d.Truncated() ==>
                  && (n > 0 && src.Has(|c.rows| + n - 1) ==> |d.rows| == |c.rows| + n)
                  && (|d.rows| < |c.rows| + n ==> !src.Has(|d.rows|) && src.failure.None?))
    decreases n
  {
    hide Within, Bytes, WithinRows, WithinBytes, Slice;
    if n > 0 && src.Has(|c.rows|) {
      OfferKeepsPrefix(src, caps, c);
      var next := Offer(c, src.at(|c.rows|), caps);
      assert Drain(src, caps, c, |c.rows|, n) == Drain(src, caps, next, |c.rows| + 1, n - 1);
      if !next.Truncated() {
        DrainKeepsPrefix(src, caps, next, n - 1);
      }
    }
  }

  /** Whenever the break loop answers, its answer is the one-shot longest prefix. */
  lemma {:induction false} StreamReadIsLongestPrefix(src: Source, caps: Caps, c: Collected)
    requires Ends(src, caps) && Prefix(src, caps, c) && !c.Truncated()
    requires StreamRead(src, caps, c).Ok?
    ensures LongestPrefix(src, caps, StreamRead(src, caps, c).value)
    decreases Left(src, caps, |c.rows|)
  {
    if src.Has(|c.rows|) {
      OfferKeepsPrefix(src, caps, c);
      var next := Offer(c, src.at(|c.rows|), caps);
      if !next.Truncated() {
        StreamReadIsLongestPrefix(src, caps, next);
      }
    }
  }

  /** Whenever the portal loop answers, its answer is the one-shot longest prefix, whatever the batch size. */
  lemma {:induction false} PortalReadIsLongestPrefix(src: Source, caps: Caps, batchRows: nat, c: Collected)
    requires batchRows <= USIZE_MAX
    requires Ends(src, caps) && Prefix(src, caps, c) && !c.Truncated()
    requires PortalRead(src, caps, batchRows, c).Ok?
    ensures LongestPrefix(src, caps, PortalRead(src, caps, batchRows, c).value)
    decreases Left(src, caps, |c.rows|)
  {
    var n := InlineFetchRows(|c.rows|, caps, batchRows);
    DrainKeepsPrefix(src, caps, c, n);
    var d := Drain(src, caps, c, |c.rows|, n).value;
    if src.Has(|c.rows| + n - 1) && !d.Truncated() {
      PortalReadIsLongestPrefix(src, caps, batchRows, d);
    }
  }

  /** Rows `i` to `n` can be read, and the first `n + 1` are more than the caps allow. */
  predicate CutAt(src: Source, caps: Caps, i: nat, n: nat) {
    i <= n && src.Has(n) && (forall k :: i <= k <= n ==> src.at(k).readable) && !Within(Slice(src, 0, n + 1), caps)
  }

  ghost predicate CutFrom(src: Source, caps: Caps, i: nat) {
    exists n: nat :: CutAt(src, caps, i, n)
  }

  /** An answer has more rows than the caps allow, and the first of them too many can still be read. */
  ghost predicate CutsOff(src: Source, caps: Caps) {
    CutFrom(src, caps, 0)
  }

  lemma CutHere(src: Source, caps: Caps, i: nat)
    requires src.Has(i) && src.at(i).readable && !Within(Slice(src, 0, i + 1), caps)
    ensures CutFrom(src, caps, i)
  {
    assert CutAt(src, caps, i, i);
  }

  lemma CutLater(src: Source, caps: Caps, i: nat)
    requires src.Has(i) && src.at(i).readable && Within(Slice(src, 0, i + 1), caps)
    ensures CutFrom(src, caps, i) <==> CutFrom(src, caps, i + 1)
  {
    hide Within, Slice;
    if CutFrom(src, caps, i) {
      var n: nat :| CutAt(src, caps, i, n);
      assert CutAt(src, caps, i + 1, n);
    }
    if CutFrom(src, caps, i + 1) {
      var n: nat :| CutAt(src, caps, i + 1, n);
      assert CutAt(src, caps, i, n);
    }
  }

  lemma CutNowhere(src: Source, caps: Caps, i: nat)
    requires !src.Has(i) || !src.at(i).readable
    ensures !CutFrom(src, caps, i)
  {
    hide Within, Slice;
  }

  lemma OfferRefuses(src: Source, caps: Caps, c: Collected)
    requires Prefix(src, caps, c) && !c.Truncated() && src.Has(|c.rows|)
    ensures Offer(c, src.at(|c.rows|), caps).Truncated() <==> !Within(Slice(src, 0, |c.rows| + 1), caps)
  {
    OfferKeepsPrefix(src, caps, c);
  }

  lemma {:induction false} ReadsAreCutOff(src: Source, caps: Caps, c: Collected)
    requires Ends(src, caps) && Prefix(src, caps, c) && !c.Truncated()
    ensures var r := StreamRead(src, caps, c);
            r.Ok? && r.value.Truncated() <==> CutFrom(src, caps, |c.rows|)
    decreases Left(src, caps, |c.rows|)
  {
    hide CutFrom;
    var i := |c.rows|;
    if !src.Has(i) || !src.at(i).readable {
      CutNowhere(src, caps, i);
    } else {
      OfferKeepsPrefix(src, caps, c);
      OfferRefuses(src, caps, c);
      var next := Offer(c, src.at(i), caps);
      if next.Truncated() {
        CutHere(src, caps, i);
      } else {
        CutLater(src, caps, i);
        ReadsAreCutOff(src, caps, next);
      }
    }
  }

  /** The break-on-truncation loop hides a failure of the answer exactly if the answer cuts off. */
  lemma FailuresAreHiddenIff(src: Source, caps: Caps)
    requires src.failure.Some? && Ends(src, caps)
    ensures StreamRead(src, caps, NOTHING).Ok? <==> CutsOff(src, caps)
  {
    ReadsAreCutOff(src, caps, NOTHING);
    if StreamRead(src, caps, NOTHING).Ok? {
      FailuresAreSeen(src, caps, NOTHING);
    }
  }

  lemma {:induction false} FailuresAreSeen(src: Source, caps: Caps, c: Collected)
    requires Ends(src, caps) && Prefix(src, caps, c) && !c.Truncated() && src.failure.Some?
    requires StreamRead(src, caps, c).Ok?
    ensures StreamRead(src, caps, c).value.Truncated()
    decreases Left(src, caps, |c.rows|)
  {
    if src.Has(|c.rows|) {
      OfferKeepsPrefix(src, caps, c);
      var next := Offer(c, src.at(|c.rows|), caps);
      if !next.Truncated() { FailuresAreSeen(src, caps, next); }
    }
  }

  /** Caps that hold all the rows of an answer never cut it off. */
  lemma RoomyCapsCutNothing(src: Finite, caps: Caps)
    requires Within(Slice(src, 0, src.length.value), caps)
    ensures !CutsOff(src, caps)
  {
    if CutsOff(src, caps) {
      var n: nat :| CutAt(src, caps, 0, n);
      BytesOfSlice(src, n + 1, src.length.value);
    }
  }

  /**
   Reading the answer under the caps comes to its row `i`, which cannot be decoded, or to its end after
   `i` rows, where it fails: the rows before that are readable and within the caps.
   */
  ghost predicate Meets(src: Source, caps: Caps, i: nat, e: ReadError) {
    && (forall k: nat :: k < i ==> src.Has(k) && src.at(k).readable)
    && Within(Slice(src, 0, i), caps)
    && if src.Has(i) then !src.at(i).readable && e == Undecodable else src.failure == Some(e)
  }

  lemma ShorterFits(src: Source, caps: Caps, m: nat, n: nat)
    requires m <= n && Within(Slice(src, 0, n), caps)
    ensures Within(Slice(src, 0, m), caps)
  {
    BytesOfSlice(src, m, n);
  }

  /** A row that is read before the trouble is accepted. */
  lemma AcceptedBefore(src: Source, caps: Caps, c: Collected, i: nat, e: ReadError)
    requires Meets(src, caps, i, e) && Prefix(src, caps, c) && !c.Truncated() && |c.rows| < i
    ensures src.Has(|c.rows|) && src.at(|c.rows|).readable
    ensures var d := Offer(c, src.at(|c.rows|), caps); Prefix(src, caps, d) && !d.Truncated() && |d.rows| == |c.rows| + 1
  {
    OfferKeepsPrefix(src, caps, c);
    OfferRefuses(src, caps, c);
    ShorterFits(src, caps, |c.rows| + 1, i);
    hide Within;
  }

  lemma {:induction false} StreamMeets(src: Source, caps: Caps, c: Collected, i: nat, e: ReadError)
    requires Ends(src, caps) && Prefix(src, caps, c) && !c.Truncated() && Meets(src, caps, i, e) && |c.rows| <= i
    ensures StreamRead(src, caps, c) == Err(e)
    decreases i - |c.rows|
  {
    if |c.rows| < i {
      AcceptedBefore(src, caps, c, i, e);
      StreamMeets(src, caps, Offer(c, src.at(|c.rows|), caps), i, e);
    }
  }

  lemma {:induction false} StreamMet(src: Source, caps: Caps, c: Collected) returns (i: nat)
    requires Ends(src, caps) && Prefix(src, caps, c) && !c.Truncated() && StreamRead(src, caps, c).Err?
    requires forall k :: 0 <= k < |c.rows| ==> src.Has(k) && src.at(k).readable
    ensures Meets(src, caps, i, StreamRead(src, caps, c).error)
    decreases Left(src, caps, |c.rows|)
  {
    i := |c.rows|;
    if src.Has(i) && src.at(i).readable {
      OfferKeepsPrefix(src, caps, c);
      i := StreamMet(src, caps, Offer(c, src.at(i), caps));
    }
  }

  /** The loop over a stream fails exactly if it meets trouble within the caps, and with that. */
  lemma StreamFailsIff(src: Source, caps: Caps, e: ReadError)
    requires Ends(src, caps)
    ensures StreamRead(src, caps, NOTHING) == Err(e) <==> exists i: nat :: Meets(src, caps, i, e)
  {
    if i: nat :| Meets(src, caps, i, e) {
      StreamMeets(src, caps, NOTHING, i, e);
    }
    if StreamRead(src, caps, NOTHING) == Err(e) {
      var i := StreamMet(src, caps, NOTHING);
    }
  }

  lemma {:induction false} DrainMeets(src: Source, caps: Caps, c: Collected, n: nat, i: nat, e: ReadError)
    requires Prefix(src, caps, c) && !c.Truncated() && Meets(src, caps, i, e) && |c.rows| <= i
    ensures var d := Drain(src, caps, c, |c.rows|, n);
            if |c.rows| + n > i then d == Err(e) else d.Ok? && !d.value.Truncated() && |d.value.rows| == |c.rows| + n
    decreases n
  {
    if n > 0 && |c.rows| < i {
      AcceptedBefore(src, caps, c, i, e);
      DrainMeets(src, caps, Offer(c, src.at(|c.rows|), caps), n - 1, i, e);
    }
  }

  /** So does the loop of portal fetches, which may also fetch trouble that lies behind a refused row. */
  lemma {:induction false} PortalMeets(src: Source, caps: Caps, batchRows: nat, c: Collected, i: nat, e: ReadError)
    requires batchRows <= USIZE_MAX
    requires Ends(src, caps) && Prefix(src, caps, c) && !c.Truncated() && Meets(src, caps, i, e) && |c.rows| <= i
    ensures PortalRead(src, caps, batchRows, c) == Err(e)
    decreases i - |c.rows|
  {
    var n := InlineFetchRows(|c.rows|, caps, batchRows);
    DrainMeets(src, caps, c, n, i, e);
    if |c.rows| + n <= i {
      DrainKeepsPrefix(src, caps, c, n);
      PortalMeets(src, caps, batchRows, Drain(src, caps, c, |c.rows|, n).value, i, e);
    }
  }

  /** A readable answer without a failure is always collected, by both loops and with the same result. */
  lemma CleanReadsAgree(src: Source, caps: Caps, batchRows: nat)
    requires batchRows <= USIZE_MAX && Ends(src, caps) && src.failure.None?
    requires forall i: nat :: src.Has(i) ==> src.at(i).readable
    ensures StreamRead(src, caps, NOTHING).Ok?
    ensures PortalRead(src, caps, batchRows, NOTHING) == StreamRead(src, caps, NOTHING)
    ensures LongestPrefix(src, caps, StreamRead(src, caps, NOTHING).value)
  {
    CleanStreamAnswers(src, caps, NOTHING);
    CleanPortalAnswers(src, caps, batchRows, NOTHING);
    StreamReadIsLongestPrefix(src, caps, NOTHING);
    PortalReadIsLongestPrefix(src, caps, batchRows, NOTHING);
    LongestPrefixIsUnique(src, caps, StreamRead(src, caps, NOTHING).value, PortalRead(src, caps, batchRows, NOTHING).value);
  }

  lemma {:induction false} CleanStreamAnswers(src: Source, caps: Caps, c: Collected)
    requires Ends(src, caps) && Prefix(src, caps, c) && !c.Truncated()
    requires src.failure.None? && forall i: nat :: src.Has(i) ==> src.at(i).readable
    ensures StreamRead(src, caps, c).Ok?
    decreases Left(src, caps, |c.rows|)
  {
    if src.Has(|c.rows|) {
      OfferKeepsPrefix(src, caps, c);
      var next := Offer(c, src.at(|c.rows|), caps);
      if !next.Truncated() {
        CleanStreamAnswers(src, caps, next);
      }
    }
  }

  lemma CleanDrainAnswers(src: Source, caps: Caps, c: Collected, i: nat, n: nat)
    requires src.failure.None? && forall i: nat :: src.Has(i) ==> src.at(i).readable
    ensures Drain(src, caps, c, i, n).Ok?
    decreases n
  {
  }

  lemma {:induction false} CleanPortalAnswers(src: Source, caps: Caps, batchRows: nat, c: Collected)
    requires batchRows <= USIZE_MAX
    requires Ends(src, caps) && Prefix(src, caps, c) && !c.Truncated()
    requires src.failure.None? && forall i: nat :: src.Has(i) ==> src.at(i).readable
    ensures PortalRead(src, caps, batchRows, c).Ok?
    decreases Left(src, caps, |c.rows|)
  {
    var n := InlineFetchRows(|c.rows|, caps, batchRows);
    CleanDrainAnswers(src, caps, c, |c.rows|, n);
    DrainKeepsPrefix(src, caps, c, n);
    var d := Drain(src, caps, c, |c.rows|, n).value;
    if src.Has(|c.rows| + n - 1) && !d.Truncated() {
      CleanPortalAnswers(src, caps, batchRows, d);
    }
  }

  /** A server-side portal: how many rows have been sent to the client. */
  class Portal {
    const source: Source
    var position: nat

    constructor (source: Source)
      ensures this.source == source && position == 0
    {
      this.source := source;
      position := 0;
    }
  }

  /** One portal fetch, drained to its end even after the collector has refused a row. */
  method DrainPortalBatch(portal: Portal, collector: InlineRowCollector, fetchRows: nat) returns (done: Result<bool, ReadError>)
    requires collector.Valid() && fetchRows >= 1
    modifies portal, collector
    ensures collector.Valid()
    ensures portal.position <= old(portal.position) + fetchRows
    ensures match Drain(portal.source, collector.caps, old(collector.Contents()), old(portal.position), fetchRows)
            case Err(e) => done == Err(e)
            case Ok(c) =>
              && collector.Contents() == c
              && done == Ok(!portal.source.Has(old(portal.position) + fetchRows - 1) || c.Truncated())
              && (portal.source.Has(old(portal.position) + fetchRows - 1) ==> portal.position == old(portal.position) + fetchRows)
  {
    var src := portal.source;
    var sent := 0;
    while sent < fetchRows && src.Has(portal.position)
      invariant 0 <= sent <= fetchRows
      invariant portal.position == old(portal.position) + sent
      invariant collector.Valid()
      invariant sent > 0 ==> src.Has(portal.position - 1)
      invariant Drain(src, collector.caps, old(collector.Contents()), old(portal.position), fetchRows)
             == Drain(src, collector.caps, collector.Contents(), portal.position, fetchRows - sent)
      decreases fetchRows - sent
    {
      var row := src.at(portal.position);
      portal.position := portal.position + 1;
      if !row.readable {
        return Err(Undecodable);
      }
      var _ := collector.Push(row);
      sent := sent + 1;
    }
    if sent < fetchRows && src.failure.Some? {
      return Err(src.failure.value);
    }
    var portalExhausted := sent < fetchRows;
    return Ok(portalExhausted || collector.IsTruncated());
  }

  method CollectPortalRows(portal: Portal, collector: InlineRowCollector, batchRows: nat) returns (r: Result<(), ReadError>)
    requires collector.Valid() && collector.Contents() == NOTHING && portal.position == 0
    requires batchRows <= USIZE_MAX && Ends(portal.source, collector.caps)
    modifies portal, collector
    ensures r.Ok? == PortalRead(portal.source, collector.caps, batchRows, NOTHING).Ok?
    ensures r.Err? ==> PortalRead(portal.source, collector.caps, batchRows, NOTHING).error == r.error
    ensures r.Ok? ==> LongestPrefix(portal.source, collector.caps, collector.Contents())
    ensures r.Ok? ==> PortalRead(portal.source, collector.caps, batchRows, NOTHING).value == collector.Contents()
    ensures collector.caps.rows < USIZE_MAX ==> portal.position <= collector.caps.rows + 1
  {
    var src, caps := portal.source, collector.caps;
    while true
      invariant collector.Valid()
      invariant Prefix(src, caps, collector.Contents()) && !collector.IsTruncated()
      invariant portal.position == |collector.rows|
      invariant PortalRead(src, caps, batchRows, NOTHING) == PortalRead(src, caps, batchRows, collector.Contents())
      decreases Left(src, caps, portal.position)
    {
      var fetchRows := InlineFetchRows(collector.rowCount, caps, batchRows);
      ghost var before := collector.Contents();
      var done := DrainPortalBatch(portal, collector, fetchRows);
      if done.Err? {
        return Err(done.error);
      }
      DrainKeepsPrefix(src, caps, before, fetchRows);
      if done.value {
        PortalReadIsLongestPrefix(src, caps, batchRows, NOTHING);
        return Ok(());
      }
    }
  }

  /** The loop over an unbounded row stream, which stops reading at the first refused row. */
  method CollectStream(src: Source, collector: InlineRowCollector) returns (r: Result<(), ReadError>)
    requires collector.Valid() && collector.Contents() == NOTHING
    requires Ends(src, collector.caps)
    modifies collector
    ensures r.Ok? == StreamRead(src, collector.caps, NOTHING).Ok?
    ensures r.Err? ==> StreamRead(src, collector.caps, NOTHING).error == r.error
    ensures r.Ok? ==> StreamRead(src, collector.caps, NOTHING).value == collector.Contents()
    ensures r.Ok? ==> LongestPrefix(src, collector.caps, collector.Contents())
  {
    var caps := collector.caps;
    while src.Has(|collector.rows|)
      invariant collector.Valid()
      invariant Prefix(src, caps, collector.Contents()) && !collector.IsTruncated()
      invariant StreamRead(src, caps, NOTHING) == StreamRead(src, caps, collector.Contents())
      decreases Left(src, caps, |collector.rows|)
    {
      var row := src.at(|collector.rows|);
      if !row.readable {
        return Err(Undecodable);
      }
      OfferKeepsPrefix(src, caps, collector.Contents());
      var _ := collector.Push(row);
      if collector.IsTruncated() {
        StreamReadIsLongestPrefix(src, caps, NOTHING);
        return Ok(());
      }
    }
    if src.failure.Some? {
      return Err(src.failure.value);
    }
    StreamReadIsLongestPrefix(src, caps, NOTHING);
    return Ok(());
  }
}
