/** Bytes, whitespace and newline-terminated lines: how a byte string is cut after each of its newlines. */
module Lines {
  newtype byte = x: int | 0 <= x < 256

  const NEWLINE: byte := 10

  /** The length of the first line, with its newline if it has one. */
  function FirstLine(bytes: seq<byte>): (n: nat)
    ensures n <= |bytes| && (bytes != [] ==> n > 0)
    ensures forall i :: 0 <= i < n - 1 ==> bytes[i] != NEWLINE
    ensures n > 0 ==> bytes[n - 1] == NEWLINE || n == |bytes|
  {
    if bytes == [] then 0 else if bytes[0] == NEWLINE then 1 else 1 + FirstLine(bytes[1..])
  }

  function Split(bytes: seq<byte>): seq<seq<byte>>
    decreases |bytes|
  {
    if bytes == [] then [] else [bytes[..FirstLine(bytes)]] + Split(bytes[FirstLine(bytes)..])
  }

  predicate Ended(line: seq<byte>) {
    line != [] && line[|line| - 1] == NEWLINE
  }

  /** No newline but possibly the last byte. */
  ghost predicate IsLine(line: seq<byte>) {
    line != [] && forall i :: 0 <= i < |line| - 1 ==> line[i] != NEWLINE
  }

  function Join(lines: seq<seq<byte>>): seq<byte> {
    if lines == [] then [] else lines[0] + Join(lines[1..])
  }

  /** Lines whose bytes in order are `bytes`; only the last one may lack its newline. */
  ghost predicate AreLines(bytes: seq<byte>, lines: seq<seq<byte>>) {
    && Join(lines) == bytes
    && (forall i :: 0 <= i < |lines| ==> IsLine(lines[i]))
    && (forall i :: 0 <= i < |lines| - 1 ==> Ended(lines[i]))
  }

  lemma {:induction false} SplitIsLines(bytes: seq<byte>)
    ensures AreLines(bytes, Split(bytes))
    decreases |bytes|
  {
    if bytes != [] {
      var n := FirstLine(bytes);
      SplitIsLines(bytes[n..]);
      assert bytes == bytes[..n] + bytes[n..];
      assert Split(bytes)[1..] == Split(bytes[n..]);
    }
  }

  lemma FirstLineIs(bytes: seq<byte>, n: nat)
    requires n <= |bytes| && IsLine(bytes[..n]) && (Ended(bytes[..n]) || n == |bytes|)
    ensures FirstLine(bytes) == n
  {
    assert forall i :: 0 <= i < n ==> bytes[i] == bytes[..n][i];
  }

  /** Bytes are cut into lines in one way only. */
  lemma {:induction false} LinesAreUnique(bytes: seq<byte>, lines: seq<seq<byte>>)
    requires AreLines(bytes, lines)
    ensures lines == Split(bytes)
    decreases |lines|
  {
    if lines != [] {
      var n := |lines[0]|;
      assert bytes[..n] == lines[0] && bytes[n..] == Join(lines[1..]);
      if |lines| == 1 { assert bytes == lines[0]; } else { assert Ended(lines[0]); }
      assert IsLine(lines[0]);
      FirstLineIs(bytes, n);
      forall i | 0 <= i < |lines[1..]| ensures IsLine(lines[1..][i]) { assert lines[1..][i] == lines[i + 1]; }
      forall i | 0 <= i < |lines[1..]| - 1 ensures Ended(lines[1..][i]) { assert lines[1..][i] == lines[i + 1]; }
      LinesAreUnique(bytes[n..], lines[1..]);
    }
  }

  /** The chunks of a read, one after the other. */
  function Flat(chunks: seq<seq<byte>>): seq<byte> {
    if chunks == [] then [] else chunks[0] + Flat(chunks[1..])
  }

  lemma FlatFirst(chunks: seq<seq<byte>>)
    requires chunks != []
    ensures Flat(chunks) == chunks[0] + Flat(chunks[1..])
  {
  }

  /** ASCII whitespace: space, tab, newline, form feed and carriage return, and nothing else. */
  predicate IsWhite(b: byte) {
    b in {32, 9, 10, 12, 13}
  }

  function SkipWhite(s: seq<byte>): (r: seq<byte>)
    ensures |r| <= |s| && (r != [] ==> !IsWhite(r[0]))
  {
    if s != [] && IsWhite(s[0]) then SkipWhite(s[1..]) else s
  }

  method PassWhite(bytes: seq<byte>, from: nat) returns (index: nat)
    requires from <= |bytes|
    ensures from <= index <= |bytes| && bytes[index..] == SkipWhite(bytes[from..])
    ensures index < |bytes| ==> !IsWhite(bytes[index])
  {
    index := from;
    while index < |bytes| && IsWhite(bytes[index])
      invariant from <= index <= |bytes| && SkipWhite(bytes[index..]) == SkipWhite(bytes[from..])
    {
      assert bytes[index..][1..] == bytes[index + 1..];
      index := index + 1;
    }
  }
}
