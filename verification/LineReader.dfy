/**
 Reading protocol lines of bounded length from a stream that arrives in chunks. A line over the
 limit is read to its end and reported, and the next one starts right behind it.
 */
module LineReader {
  import opened Wrappers
  import opened Lines

  /** A buffered reader: chunks as they will arrive, the first perhaps partly consumed. At the end comes the end of the file, or a read error. */
  class BufReader {
    var chunks: seq<seq<byte>>
    const fails: bool

    /** A read that delivers nothing is the end of the file, so every chunk holds something. */
    ghost predicate Valid()
      reads this
    {
      forall i :: 0 <= i < |chunks| ==> chunks[i] != []
    }

    function Unread(): seq<byte>
      reads this
    {
      Flat(chunks)
    }

    constructor (chunks: seq<seq<byte>>, fails: bool)
      requires forall i :: 0 <= i < |chunks| ==> chunks[i] != []
      ensures Valid() && Unread() == Flat(chunks) && this.fails == fails
    {
      this.chunks, this.fails := chunks, fails;
    }

    /** What is in the buffer; empty only at the end of the file. */
    method FillBuf() returns (r: Result<seq<byte>, ()>)
      requires Valid()
      ensures Unread() == [] ==> r == if fails then Err(()) else Ok([])
      ensures Unread() != [] ==> chunks != [] && r == Ok(chunks[0]) && chunks[0] != []
    {
      if chunks == [] { return if fails then Err(()) else Ok([]); }
      return Ok(chunks[0]);
    }

    method Consume(n: nat)
      requires Valid() && chunks != [] && n <= |chunks[0]|
      modifies this
      ensures Valid() && Unread() == old(Unread())[n..]
    {
      FlatFirst(chunks);
      var left := chunks[0][n..];
      chunks := if left == [] then chunks[1..] else [left] + chunks[1..];
      assert old(Unread())[n..] == left + Flat(old(chunks)[1..]);
    }
  }

  /** A read error, the end of the file, a line over the limit, or a line with its newline if it has one. */
  datatype LineResult = Broken | EndOfFile | TooLong | Line(bytes: seq<byte>)

  /** What the next line of a stream is, however it arrives. */
  function NextLine(unread: seq<byte>, fails: bool, max: nat): LineResult {
    if unread == [] then if fails then Broken else EndOfFile
    else
      var n := FirstLine(unread);
      if n == |unread| && fails && unread[n - 1] != NEWLINE then Broken
      else if n > max then TooLong
      else Line(unread[..n])
  }

  /** `peak` is the most the method ever had in its own buffer. */
  method ReadLimitedLine(reader: BufReader, maxBytes: nat) returns (r: LineResult, ghost peak: nat)
    requires reader.Valid()
    modifies reader
    ensures reader.Valid()
    ensures r == NextLine(old(reader.Unread()), reader.fails, maxBytes)
    ensures reader.Unread() == old(reader.Unread())[FirstLine(old(reader.Unread()))..]
    ensures peak <= maxBytes
  {
    hide FirstLine, Flat, Taken;
    ghost var all := reader.Unread();
    var out, tooLong := [], false;
    ghost var taken := 0;
    peak := 0;
    TakenNone(all);
    while true
      invariant reader.Valid() && peak <= maxBytes
      invariant taken <= |all| && Taken(all, taken, reader.Unread())
      invariant tooLong <==> taken > maxBytes
      invariant !tooLong ==> out == all[..taken]
      decreases |all| - taken
    {
      var filled := reader.FillBuf();
      if filled.Err? {
        WholeLine(all, taken);
        return Broken, peak;
      }
      var available := filled.value;
      if available == [] {
        WholeLine(all, taken);
        if out == [] && !tooLong { return EndOfFile, peak; }
        break;
      }
      var take := TakeOf(available);
      FlatFirst(reader.chunks);
      TakeMore(all, taken, reader.Unread(), available, take);
      if !tooLong {
        if |out| + take <= maxBytes {
          out := out + available[..take];
          peak := |out|;
        } else {
          tooLong := true;
        }
      }
      var ended := available[take - 1] == NEWLINE;
      reader.Consume(take);
      taken := taken + take;
      if ended { break; }
    }
    if tooLong { return TooLong, peak; }
    return Line(out), peak;
  }

  /** What has been taken of the present line, none of it a newline, and what has not. */
  ghost predicate Taken(all: seq<byte>, taken: nat, unread: seq<byte>) {
    && taken <= |all| && unread == all[taken..]
    && forall i :: 0 <= i < taken ==> all[i] != NEWLINE
  }

  lemma TakenNone(all: seq<byte>)
    ensures Taken(all, 0, all)
  {
  }

  lemma TakeMore(all: seq<byte>, taken: nat, unread: seq<byte>, available: seq<byte>, take: nat)
    requires Taken(all, taken, unread) && available != [] && available <= unread && take == FirstLine(available)
    ensures 0 < take && taken + take <= |all|
    ensures all[..taken] + available[..take] == all[..taken + take] && unread[take..] == all[taken + take..]
    ensures available[take - 1] != NEWLINE ==> Taken(all, taken + take, unread[take..])
    ensures available[take - 1] == NEWLINE ==> FirstLine(all) == taken + take && all[taken + take - 1] == NEWLINE
  {
    assert unread[..take] == available[..take] == all[taken..taken + take];
    assert forall i :: 0 <= i < take ==> all[taken + i] == available[i];
    assert forall i :: 0 <= i < taken + take - 1 ==> all[i] != NEWLINE by {
      forall i | 0 <= i < taken + take - 1 ensures all[i] != NEWLINE {
        if i >= taken { assert all[i] == available[i - taken]; }
      }
    }
    if available[take - 1] == NEWLINE {
      FirstLineIs(all, taken + take);
    }
  }

  /** Nothing is left: what was taken, if anything, is a whole line without a newline. */
  lemma WholeLine(all: seq<byte>, taken: nat)
    requires Taken(all, taken, [])
    ensures taken == |all| && FirstLine(all) == |all| && (all != [] ==> all[|all| - 1] != NEWLINE)
  {
    if all != [] {
      assert all[..taken] == all;
      FirstLineIs(all, taken);
    }
  }

  /** How much of a buffer belongs to the present line. */
  method TakeOf(available: seq<byte>) returns (take: nat)
    requires available != []
    ensures take == FirstLine(available)
  {
    var pos := 0;
    while pos < |available| && available[pos] != NEWLINE
      invariant 0 <= pos <= |available|
      invariant forall i :: 0 <= i < pos ==> available[i] != NEWLINE
    {
      pos := pos + 1;
    }
    take := if pos < |available| then pos + 1 else |available|;
    FirstLineIs(available, take);
  }

  function Marked(lines: seq<seq<byte>>, max: nat): (r: seq<LineResult>)
    ensures |r| == |lines|
    ensures forall i :: 0 <= i < |lines| ==> r[i] == if |lines[i]| > max then TooLong else Line(lines[i])
  {
    seq(|lines|, i requires 0 <= i < |lines| => if |lines[i]| > max then TooLong else Line(lines[i]))
  }

  /** The lines that have their newline: the last one may lack it. */
  function EndedOnly(lines: seq<seq<byte>>): seq<seq<byte>> {
    if lines != [] && !Ended(lines[|lines| - 1]) then lines[..|lines| - 1] else lines
  }

  /** The lines a stream delivers: one that is cut off by a read error is lost with it. */
  function Delivered(bytes: seq<byte>, fails: bool): seq<seq<byte>> {
    if fails then EndedOnly(Split(bytes)) else Split(bytes)
  }

  /**
   Reading a whole stream gives its lines in order, each over-limit one replaced by a mark, for every way
   to cut it into chunks; a stream that fails gives those that have ended, and then its error.
   */
  method ReadAllLines(reader: BufReader, maxBytes: nat) returns (lines: seq<LineResult>, end: LineResult)
    requires reader.Valid()
    modifies reader
    ensures lines == Marked(Delivered(old(reader.Unread()), reader.fails), maxBytes)
    ensures end == if reader.fails then Broken else EndOfFile
    ensures reader.Unread() == []
  {
    hide Delivered, NextLine, FirstLine, Flat, Marked, ReadSoFar;
    ghost var all := reader.Unread();
    lines := [];
    ReadNothingYet(all, reader.fails, maxBytes);
    while true
      invariant reader.Valid()
      invariant ReadSoFar(all, lines, reader.Unread(), reader.fails, maxBytes)
      decreases |reader.Unread()|
    {
      ghost var unread := reader.Unread();
      ReadOneMore(all, lines, unread, reader.fails, maxBytes);
      var line, _ := ReadLimitedLine(reader, maxBytes);
      if line.EndOfFile? || line.Broken? {
        return lines, line;
      }
      lines := lines + [line];
    }
  }

  /** The lines read, and those of what is still to be read, are those of the whole stream. */
  ghost predicate ReadSoFar(all: seq<byte>, lines: seq<LineResult>, unread: seq<byte>, fails: bool, max: nat) {
    lines + Marked(Delivered(unread, fails), max) == Marked(Delivered(all, fails), max)
  }

  lemma ReadNothingYet(all: seq<byte>, fails: bool, max: nat)
    ensures ReadSoFar(all, [], all, fails, max)
  {
    hide Marked, Delivered;
  }

  lemma ReadOneMore(all: seq<byte>, lines: seq<LineResult>, unread: seq<byte>, fails: bool, max: nat)
    requires ReadSoFar(all, lines, unread, fails, max)
    ensures var next, rest := NextLine(unread, fails, max), unread[FirstLine(unread)..];
            if next.EndOfFile? || next.Broken? then
              rest == [] && (next.Broken? <==> fails) && lines == Marked(Delivered(all, fails), max)
            else
              |rest| < |unread| && ReadSoFar(all, lines + [next], rest, fails, max)
  {
    MarkedFirst(unread, fails, max);
    NothingMarked(max);
    hide Marked, Delivered;
    var next, more := NextLine(unread, fails, max), Marked(Delivered(unread[FirstLine(unread)..], fails), max);
    assert lines + ([next] + more) == lines + [next] + more && lines + [] == lines;
  }

  lemma NothingMarked(max: nat)
    ensures Marked([], max) == []
  {
  }

  lemma MarkedFirst(unread: seq<byte>, fails: bool, max: nat)
    ensures var next := NextLine(unread, fails, max);
            if next.EndOfFile? || next.Broken? then
              Delivered(unread, fails) == [] && (next.Broken? <==> fails) && unread[FirstLine(unread)..] == []
            else
              Marked(Delivered(unread, fails), max) == [next] + Marked(Delivered(unread[FirstLine(unread)..], fails), max)
  {
    hide Split, FirstLine;
    SplitFirst(unread);
    if unread != [] {
      DeliveredFirst(unread, fails);
      hide Delivered;
    }
  }

  lemma DeliveredFirst(unread: seq<byte>, fails: bool)
    requires unread != []
    ensures var n := FirstLine(unread);
            if n == |unread| && fails && unread[n - 1] != NEWLINE then Delivered(unread, fails) == []
            else Delivered(unread, fails) == [unread[..n]] + Delivered(unread[n..], fails)
  {
    hide Split, FirstLine, EndedOnly;
    var n := FirstLine(unread);
    SplitFirst(unread);
    SplitFirst(unread[n..]);
    EndedOnlyFirst(unread[..n], Split(unread[n..]));
    assert unread[..n][n - 1] == unread[n - 1];
  }

  lemma EndedOnlyFirst(first: seq<byte>, rest: seq<seq<byte>>)
    ensures EndedOnly([first] + rest) == if rest == [] then (if Ended(first) then [first] else []) else [first] + EndedOnly(rest)
    ensures EndedOnly([]) == []
  {
    var lines := [first] + rest;
    if rest == [] {
      assert lines == [first] && lines[..0] == [];
    } else {
      assert lines[|rest|] == rest[|rest| - 1] && lines[..|rest|] == [first] + rest[..|rest| - 1];
    }
  }

  lemma SplitFirst(bytes: seq<byte>)
    ensures Split(bytes) == if bytes == [] then [] else [bytes[..FirstLine(bytes)]] + Split(bytes[FirstLine(bytes)..])
    ensures bytes != [] ==> Split(bytes) != []
  {
  }
}
