/**
 The stderr of a bridge process: lines are separated from the stream as it arrives, the banner that
 says the bridge is ready is recognised, and the first bytes of everything else are kept.
 */
module StderrCapture {
  import opened Wrappers
  import opened Lines

  const STDERR_CAPTURE_LIMIT: nat := 8192
  const RETURN: byte := 13

  /** `AFPSQL_BRIDGE_OK` and a space. */
  const BRIDGE_READY_PREFIX: seq<byte> := [65, 70, 80, 83, 81, 76, 95, 66, 82, 73, 68, 71, 69, 95, 79, 75, 32]

  lemma PrefixIsSpelled()
    ensures |BRIDGE_READY_PREFIX| == |"AFPSQL_BRIDGE_OK "|
    ensures forall i :: 0 <= i < |BRIDGE_READY_PREFIX| ==> BRIDGE_READY_PREFIX[i] as int == "AFPSQL_BRIDGE_OK "[i] as int
  {
  }

  function StripSuffix(line: seq<byte>, b: byte): seq<byte> {
    if line != [] && line[|line| - 1] == b then line[..|line| - 1] else line
  }

  predicate IsBanner(line: seq<byte>, nonce: seq<byte>) {
    StripSuffix(StripSuffix(line, NEWLINE), RETURN) == BRIDGE_READY_PREFIX + nonce
  }

  /** A line is the banner exactly when it is the prefix and the nonce with one of four endings. */
  lemma BannerForms(line: seq<byte>, nonce: seq<byte>)
    requires nonce != [] ==> nonce[|nonce| - 1] != RETURN && nonce[|nonce| - 1] != NEWLINE
    ensures var banner := BRIDGE_READY_PREFIX + nonce;
            IsBanner(line, nonce) <==>
              line == banner || line == banner + [NEWLINE] || line == banner + [RETURN] || line == banner + [RETURN, NEWLINE]
  {
    var banner := BRIDGE_READY_PREFIX + nonce;
    assert banner != [] && banner[|banner| - 1] != RETURN && banner[|banner| - 1] != NEWLINE;
    if IsBanner(line, nonce) {
      var once := StripSuffix(line, NEWLINE);
      assert once == banner || once == banner + [RETURN];
      assert line == once || line == once + [NEWLINE];
      assert banner + [RETURN] + [NEWLINE] == banner + [RETURN, NEWLINE];
    }
    assert StripSuffix(banner + [NEWLINE], NEWLINE) == banner;
    assert StripSuffix(banner + [RETURN], RETURN) == banner;
    assert StripSuffix(banner + [RETURN, NEWLINE], NEWLINE) == banner + [RETURN];
  }

  /** Everything but the banner lines. */
  function Noise(lines: seq<seq<byte>>, nonce: seq<byte>): seq<byte> {
    if lines == [] then []
    else Noise(lines[..|lines| - 1], nonce) + (if IsBanner(lines[|lines| - 1], nonce) then [] else lines[|lines| - 1])
  }

  /** The lines that are not the banner, each where it was. */
  function Others(lines: seq<seq<byte>>, nonce: seq<byte>): (r: seq<seq<byte>>)
    ensures forall line :: line in r <==> line in lines && !IsBanner(line, nonce)
  {
    if lines == [] then []
    else (if IsBanner(lines[0], nonce) then [] else [lines[0]]) + Others(lines[1..], nonce)
  }

  lemma {:induction false} OthersOneMore(lines: seq<seq<byte>>, line: seq<byte>, nonce: seq<byte>)
    ensures Others(lines + [line], nonce) == Others(lines, nonce) + (if IsBanner(line, nonce) then [] else [line])
  {
    hide IsBanner;
    if lines == [] {
      assert lines + [line] == [line] && [line][1..] == [];
    } else {
      assert (lines + [line])[1..] == lines[1..] + [line];
      OthersOneMore(lines[1..], line, nonce);
    }
  }

  /** Every line but the banners is kept whole and in order, and nothing else. */
  lemma {:induction false} NoiseIsTheOtherLines(lines: seq<seq<byte>>, nonce: seq<byte>)
    ensures Noise(lines, nonce) == Join(Others(lines, nonce))
  {
    hide IsBanner, Others, Join;
    if lines == [] {
      NothingElse(nonce);
    } else {
      var before, last := lines[..|lines| - 1], lines[|lines| - 1];
      NoiseIsTheOtherLines(before, nonce);
      OthersOneMore(before, last, nonce);
      assert before + [last] == lines;
      if IsBanner(last, nonce) {
        assert Others(before, nonce) + [] == Others(before, nonce);
      } else {
        JoinOneMore(Others(before, nonce), last);
      }
    }
  }

  lemma NothingElse(nonce: seq<byte>)
    ensures Others([], nonce) == [] && Join([]) == []
  {
  }

  lemma {:induction false} AllAreOthers(lines: seq<seq<byte>>, nonce: seq<byte>)
    requires !Ready(lines, nonce)
    ensures Others(lines, nonce) == lines
  {
    hide IsBanner;
    if lines != [] {
      assert !IsBanner(lines[0], nonce);
      assert forall i :: 0 <= i < |lines[1..]| ==> lines[1..][i] == lines[i + 1];
      AllAreOthers(lines[1..], nonce);
    }
  }

  /** So what is kept is the beginning of the stream itself if the banner does not come. */
  lemma WithoutBannerAllIsKept(all: seq<byte>, nonce: seq<byte>)
    requires !Ready(Split(all), nonce)
    ensures Noise(Split(all), nonce) == all
  {
    NoiseIsTheOtherLines(Split(all), nonce);
    AllAreOthers(Split(all), nonce);
    SplitIsLines(all);
  }

  function Capped(bytes: seq<byte>): (r: seq<byte>)
    ensures r <= bytes && |r| == if |bytes| <= 8192 then |bytes| else 8192
  {
    if |bytes| <= STDERR_CAPTURE_LIMIT then bytes else bytes[..STDERR_CAPTURE_LIMIT]
  }

  predicate Ready(lines: seq<seq<byte>>, nonce: seq<byte>) {
    exists i :: 0 <= i < |lines| && IsBanner(lines[i], nonce)
  }

  class Capture {
    const nonce: seq<byte>
    var captured: seq<byte>
    // What the waiting connection attempt has been told, if anything.
    var handshake: Option<bool>
    ghost var lines: seq<seq<byte>>

    ghost predicate Valid()
      reads this
    {
      && captured == Capped(Noise(lines, nonce))
      && handshake == if Ready(lines, nonce) then Some(true) else None
    }

    constructor (nonce: seq<byte>)
      ensures Valid() && lines == [] && this.nonce == nonce
    {
      this.nonce := nonce;
      captured, handshake, lines := [], None, [];
    }

    method Append(bytes: seq<byte>)
      requires |captured| <= STDERR_CAPTURE_LIMIT
      modifies this`captured
      ensures captured == Capped(old(captured) + bytes)
    {
      var remaining := STDERR_CAPTURE_LIMIT - |captured|;
      if remaining > 0 {
        captured := captured + bytes[..if |bytes| < remaining then |bytes| else remaining];
      }
    }

    method HandleLine(line: seq<byte>)
      requires Valid()
      modifies this
      ensures Valid() && lines == old(lines) + [line]
    {
      ghost var before := lines;
      lines := lines + [line];
      assert lines[..|before|] == before;
      if IsBanner(line, nonce) {
        assert lines[|before|] == line;
        if handshake.None? { handshake := Some(true); }
        assert Noise(lines, nonce) == Noise(before, nonce);
      } else {
        Append(line);
        assert Ready(lines, nonce) ==> Ready(before, nonce) by {
          if Ready(lines, nonce) {
            var i :| 0 <= i < |lines| && IsBanner(lines[i], nonce);
            assert lines[i] == before[i];
          }
        }
        assert Ready(before, nonce) ==> Ready(lines, nonce) by {
          if Ready(before, nonce) {
            var i :| 0 <= i < |before| && IsBanner(before[i], nonce);
            assert lines[i] == before[i];
          }
        }
        CapTwice(Noise(before, nonce), line);
      }
    }
  }

  lemma CapTwice(a: seq<byte>, b: seq<byte>)
    ensures Capped(Capped(a) + b) == Capped(a + b)
  {
  }

  /** Some whole lines, then bytes of a line that has not ended. */
  ghost predicate Separated(all: seq<byte>, lines: seq<seq<byte>>, pending: seq<byte>) {
    && all == Join(lines) + pending
    && (forall i :: 0 <= i < |lines| ==> IsLine(lines[i]) && Ended(lines[i]))
  }

  lemma {:induction false} JoinOneMore(lines: seq<seq<byte>>, line: seq<byte>)
    ensures Join(lines + [line]) == Join(lines) + line
  {
    if lines == [] {
      assert [line][1..] == [];
    } else {
      assert (lines + [line])[1..] == lines[1..] + [line];
      JoinOneMore(lines[1..], line);
    }
  }

  lemma SeparatedMore(all: seq<byte>, lines: seq<seq<byte>>, pending: seq<byte>, chunk: seq<byte>)
    requires Separated(all, lines, pending)
    ensures Separated(all + chunk, lines, pending + chunk)
  {
    assert Join(lines) + pending + chunk == Join(lines) + (pending + chunk);
  }

  lemma SeparatedLine(all: seq<byte>, lines: seq<seq<byte>>, pending: seq<byte>, n: nat)
    requires Separated(all, lines, pending) && n < |pending| && pending[n] == NEWLINE
    requires forall k :: 0 <= k < n ==> pending[k] != NEWLINE
    ensures Separated(all, lines + [pending[..n + 1]], pending[n + 1..])
  {
    JoinOneMore(lines, pending[..n + 1]);
    assert pending == pending[..n + 1] + pending[n + 1..];
    assert Join(lines) + pending == Join(lines) + pending[..n + 1] + pending[n + 1..];
  }

  lemma LastLines(all: seq<byte>, lines: seq<seq<byte>>, pending: seq<byte>)
    requires Separated(all, lines, pending) && forall i :: 0 <= i < |pending| ==> pending[i] != NEWLINE
    ensures Split(all) == if pending == [] then lines else lines + [pending]
  {
    if pending == [] {
      assert all == Join(lines);
      LinesAreUnique(all, lines);
    } else {
      JoinOneMore(lines, pending);
      LinesAreUnique(all, lines + [pending]);
    }
  }

  /**
   Whatever the chunks, what is kept is the first 8192 bytes of all lines that are not the banner, and
   the attempt is told that the bridge is ready if and only if some line is the banner.
   */
  method CaptureStderr(chunks: seq<seq<byte>>, capture: Capture)
    requires capture.Valid() && capture.lines == []
    modifies capture
    ensures capture.captured == Capped(Noise(Split(Flat(chunks)), capture.nonce))
    ensures capture.handshake == Some(Ready(Split(Flat(chunks)), capture.nonce))
  {
    ghost var seen := [];
    var i, pending := 0, [];
    assert chunks[0..] == chunks;
    while i < |chunks|
      invariant i <= |chunks| && capture.Valid()
      invariant Separated(seen, capture.lines, pending)
      invariant forall k :: 0 <= k < |pending| ==> pending[k] != NEWLINE
      invariant Flat(chunks) == seen + Flat(chunks[i..])
    {
      ghost var rest := chunks[i..];
      FlatFirst(rest);
      assert rest[0] == chunks[i] && rest[1..] == chunks[i + 1..];
      assert seen + (chunks[i] + Flat(chunks[i + 1..])) == seen + chunks[i] + Flat(chunks[i + 1..]);
      pending := HandleChunk(seen, pending, chunks[i], capture);
      seen := seen + chunks[i];
      i := i + 1;
    }
    assert chunks[i..] == [] && seen == Flat(chunks);
    LastLines(seen, capture.lines, pending);
    if pending != [] {
      capture.HandleLine(pending);
    }
    if capture.handshake.None? {
      capture.handshake := Some(false);
    }
  }

  /** Add a chunk to the pending bytes and hand over every line it completes. */
  method HandleChunk(ghost seen: seq<byte>, before: seq<byte>, chunk: seq<byte>, capture: Capture) returns (pending: seq<byte>)
    requires capture.Valid() && Separated(seen, capture.lines, before)
    requires forall k :: 0 <= k < |before| ==> before[k] != NEWLINE
    modifies capture
    ensures capture.Valid() && Separated(seen + chunk, capture.lines, pending)
    ensures forall k :: 0 <= k < |pending| ==> pending[k] != NEWLINE
  {
    hide Separated, Noise, Ready;
    pending := before + chunk;
    SeparatedMore(seen, capture.lines, before, chunk);
    var n: nat := NewlineAt(pending);
    while n < |pending|
      invariant capture.Valid() && Separated(seen + chunk, capture.lines, pending)
      invariant n <= |pending| && (n < |pending| ==> pending[n] == NEWLINE)
      invariant forall k :: 0 <= k < n ==> pending[k] != NEWLINE
      decreases |pending|
    {
      var line := pending[..n + 1];
      SeparatedLine(seen + chunk, capture.lines, pending, n);
      pending := pending[n + 1..];
      capture.HandleLine(line);
      n := NewlineAt(pending);
    }
  }

  /** The position of the first newline, or the length if there is none. */
  method NewlineAt(bytes: seq<byte>) returns (n: nat)
    ensures n <= |bytes| && (n < |bytes| ==> bytes[n] == NEWLINE)
    ensures forall k :: 0 <= k < n ==> bytes[k] != NEWLINE
  {
    n := 0;
    while n < |bytes| && bytes[n] != NEWLINE
      invariant n <= |bytes| && forall k :: 0 <= k < n ==> bytes[k] != NEWLINE
    {
      n := n + 1;
    }
  }
}
