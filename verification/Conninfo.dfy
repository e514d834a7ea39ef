/**
 The `keyword=value` connection strings of libpq, section 34.1.1.1 of the PostgreSQL 16
 documentation: the scanner, and the writer it undoes.
 */
module Conninfo {
  import opened Lines

  const EQUALS: byte := 61
  const QUOTE: byte := 39
  const BACKSLASH: byte := 92

  datatype Pair = Pair(key: seq<byte>, value: seq<byte>)

  function KeyLength(s: seq<byte>): (n: nat)
    ensures n <= |s|
  {
    if s != [] && s[0] != EQUALS && !IsWhite(s[0]) then 1 + KeyLength(s[1..]) else 0
  }

  /** The value read up to a closing quote, and what follows it; an unclosed one takes everything. */
  function QuotedValue(s: seq<byte>): (r: (seq<byte>, seq<byte>))
    ensures |r.1| <= |s|
  {
    if s == [] then ([], [])
    else if s[0] == BACKSLASH && |s| > 1 then var (v, rest) := QuotedValue(s[2..]); ([s[1]] + v, rest)
    else if s[0] == QUOTE then ([], s[1..])
    else var (v, rest) := QuotedValue(s[1..]); ([s[0]] + v, rest)
  }

  function BareValue(s: seq<byte>): (r: (seq<byte>, seq<byte>))
    ensures |r.1| <= |s|
  {
    if s == [] || IsWhite(s[0]) then ([], s)
    else if s[0] == BACKSLASH && |s| > 1 then var (v, rest) := BareValue(s[2..]); ([s[1]] + v, rest)
    else var (v, rest) := BareValue(s[1..]); ([s[0]] + v, rest)
  }

  function Value(s: seq<byte>): (r: (seq<byte>, seq<byte>))
    ensures |r.1| <= |s|
  {
    if s != [] && s[0] == QUOTE then QuotedValue(s[1..]) else BareValue(s)
  }

  /** The pairs of a string, up to the first key without an equals sign. */
  function Parse(s: seq<byte>): seq<Pair>
    decreases |s|
  {
    var t := SkipWhite(s);
    if t == [] then []
    else
      var k := KeyLength(t);
      var u := SkipWhite(t[k..]);
      if u == [] || u[0] != EQUALS then []
      else
        var (value, rest) := Value(SkipWhite(u[1..]));
        [Pair(t[..k], value)] + Parse(rest)
  }

  method ParseConninfoPairs(input: seq<byte>) returns (pairs: seq<Pair>)
    ensures pairs == Parse(input)
  {
    hide KeyLength, Value, SkipWhite;
    var i := 0;
    pairs := [];
    assert input[0..] == input;
    while i < |input|
      invariant i <= |input|
      invariant pairs + Parse(input[i..]) == Parse(input)
      decreases |input| - i
    {
      ghost var before := i;
      i := PassWhite(input, i);
      if i >= |input| {
        break;
      }
      var keyStart := i;
      i := PassKey(input, i);
      var key := input[keyStart..i];
      assert key == input[keyStart..][..i - keyStart] && input[i..] == input[keyStart..][i - keyStart..];
      i := PassWhite(input, i);
      if i >= |input| || input[i] != EQUALS {
        break;
      }
      i := i + 1;
      assert input[i - 1..][1..] == input[i..];
      i := PassWhite(input, i);
      var value;
      value, i := ReadValue(input, i);
      assert pairs + ([Pair(key, value)] + Parse(input[i..])) == pairs + [Pair(key, value)] + Parse(input[i..]);
      pairs := pairs + [Pair(key, value)];
    }
  }

  method PassKey(input: seq<byte>, from: nat) returns (i: nat)
    requires from <= |input|
    ensures i == from + KeyLength(input[from..])
  {
    i := from;
    while i < |input| && input[i] != EQUALS && !IsWhite(input[i])
      invariant from <= i <= |input| && i + KeyLength(input[i..]) == from + KeyLength(input[from..])
    {
      assert input[i..][1..] == input[i + 1..];
      i := i + 1;
    }
  }

  method ReadValue(input: seq<byte>, from: nat) returns (value: seq<byte>, i: nat)
    requires from <= |input|
    ensures from <= i <= |input| && value == Value(input[from..]).0 && input[i..] == Value(input[from..]).1
  {
    if from < |input| && input[from] == QUOTE {
      assert input[from..][1..] == input[from + 1..];
      value, i := ReadQuoted(input, from + 1);
    } else {
      value, i := ReadBare(input, from);
    }
  }

  /** One byte of a quoted value, or an escaped one. */
  lemma QuotedStep(s: seq<byte>)
    requires s != [] && s[0] != QUOTE
    ensures var k := if s[0] == BACKSLASH && |s| > 1 then 1 else 0;
            QuotedValue(s).0 == [s[k]] + QuotedValue(s[k + 1..]).0 && QuotedValue(s).1 == QuotedValue(s[k + 1..]).1
  {
  }

  lemma BareStep(s: seq<byte>)
    requires s != [] && !IsWhite(s[0])
    ensures var k := if s[0] == BACKSLASH && |s| > 1 then 1 else 0;
            BareValue(s).0 == [s[k]] + BareValue(s[k + 1..]).0 && BareValue(s).1 == BareValue(s[k + 1..]).1
  {
  }

  lemma ValuesEnd(s: seq<byte>)
    ensures s == [] || s[0] == QUOTE ==> QuotedValue(s).0 == [] && QuotedValue(s).1 == if s == [] then [] else s[1..]
    ensures s == [] || IsWhite(s[0]) ==> BareValue(s).0 == [] && BareValue(s).1 == s
  {
  }

  method ReadQuoted(input: seq<byte>, from: nat) returns (value: seq<byte>, i: nat)
    requires from <= |input|
    ensures from <= i <= |input| && value == QuotedValue(input[from..]).0 && input[i..] == QuotedValue(input[from..]).1
  {
    hide QuotedValue;
    i, value := from, [];
    while i < |input|
      invariant from <= i <= |input|
      invariant QuotedValue(input[from..]).0 == value + QuotedValue(input[i..]).0 && QuotedValue(input[from..]).1 == QuotedValue(input[i..]).1
      decreases |input| - i
    {
      ghost var s := input[i..];
      if input[i] == QUOTE {
        ValuesEnd(s);
        i := i + 1;
        return;
      }
      QuotedStep(s);
      if input[i] == BACKSLASH && i + 1 < |input| {
        i := i + 1;
      }
      value := value + [input[i]];
      i := i + 1;
    }
    ValuesEnd(input[i..]);
  }

  method ReadBare(input: seq<byte>, from: nat) returns (value: seq<byte>, i: nat)
    requires from <= |input|
    ensures from <= i <= |input| && value == BareValue(input[from..]).0 && input[i..] == BareValue(input[from..]).1
  {
    hide BareValue;
    i, value := from, [];
    while i < |input| && !IsWhite(input[i])
      invariant from <= i <= |input|
      invariant BareValue(input[from..]).0 == value + BareValue(input[i..]).0 && BareValue(input[from..]).1 == BareValue(input[i..]).1
      decreases |input| - i
    {
      BareStep(input[i..]);
      if input[i] == BACKSLASH && i + 1 < |input| {
        i := i + 1;
      }
      value := value + [input[i]];
      i := i + 1;
    }
    ValuesEnd(input[i..]);
  }

  // Writing.

  /** How one pair is laid out: the whitespace around its parts, quotes or none, and which bytes are escaped. */
  datatype Layout = Layout(before: seq<byte>, afterKey: seq<byte>, afterEquals: seq<byte>, quoted: bool, escaped: seq<bool>)

  datatype Item = Item(pair: Pair, layout: Layout)

  predicate AllWhite(s: seq<byte>) {
    forall i :: 0 <= i < |s| ==> IsWhite(s[i])
  }

  predicate ProperKey(key: seq<byte>) {
    key != [] && forall i :: 0 <= i < |key| ==> key[i] != EQUALS && !IsWhite(key[i])
  }

  predicate MustEscape(b: byte, quoted: bool) {
    b == BACKSLASH || (if quoted then b == QUOTE else IsWhite(b))
  }

  /** An unquoted value is not empty and does not look like a quoted one. */
  predicate ProperItem(item: Item) {
    var value, layout := item.pair.value, item.layout;
    && ProperKey(item.pair.key)
    && AllWhite(layout.before) && AllWhite(layout.afterKey) && AllWhite(layout.afterEquals)
    && |layout.escaped| == |value|
    && (forall i :: 0 <= i < |value| && MustEscape(value[i], layout.quoted) ==> layout.escaped[i])
    && (!layout.quoted ==> value != [] && (value[0] == QUOTE ==> layout.escaped[0]))
  }

  /** Whitespace separates a pair from an unquoted value before it. */
  predicate ProperItems(items: seq<Item>) {
    && (forall i :: 0 <= i < |items| ==> ProperItem(items[i]))
    && (forall i :: 0 < i < |items| ==> items[i - 1].layout.quoted || items[i].layout.before != [])
  }

  function EscapedText(value: seq<byte>, escaped: seq<bool>): seq<byte>
    requires |escaped| == |value|
  {
    if value == [] then []
    else (if escaped[0] then [BACKSLASH, value[0]] else [value[0]]) + EscapedText(value[1..], escaped[1..])
  }

  function ValueText(value: seq<byte>, layout: Layout): seq<byte>
    requires |layout.escaped| == |value|
  {
    if layout.quoted then [QUOTE] + EscapedText(value, layout.escaped) + [QUOTE] else EscapedText(value, layout.escaped)
  }

  function ItemText(item: Item): seq<byte>
    requires |item.layout.escaped| == |item.pair.value|
  {
    item.layout.before + item.pair.key + item.layout.afterKey + [EQUALS] + item.layout.afterEquals
    + ValueText(item.pair.value, item.layout)
  }

  function Write(items: seq<Item>): seq<byte>
    requires ProperItems(items)
  {
    if items == [] then []
    else
      assert ProperItem(items[0]);
      TailIsProper(items);
      ItemText(items[0]) + Write(items[1..])
  }

  lemma TailIsProper(items: seq<Item>)
    requires ProperItems(items) && items != []
    ensures ProperItem(items[0]) && ProperItems(items[1..])
  {
  }

  function PairsOf(items: seq<Item>): (pairs: seq<Pair>)
    ensures |pairs| == |items| && forall i :: 0 <= i < |items| ==> pairs[i] == items[i].pair
  {
    seq(|items|, i requires 0 <= i < |items| => items[i].pair)
  }

  lemma {:induction false} WhiteIsSkipped(white: seq<byte>, rest: seq<byte>)
    requires AllWhite(white) && (rest != [] ==> !IsWhite(rest[0]))
    ensures SkipWhite(white + rest) == rest
  {
    if white == [] {
      assert white + rest == rest;
    } else {
      assert (white + rest)[1..] == white[1..] + rest;
      WhiteIsSkipped(white[1..], rest);
    }
  }

  lemma {:induction false} KeyIsFound(key: seq<byte>, rest: seq<byte>)
    requires forall i :: 0 <= i < |key| ==> key[i] != EQUALS && !IsWhite(key[i])
    requires rest != [] && (rest[0] == EQUALS || IsWhite(rest[0]))
    ensures KeyLength(key + rest) == |key|
  {
    if key == [] {
      assert key + rest == rest;
    } else {
      assert (key + rest)[1..] == key[1..] + rest;
      KeyIsFound(key[1..], rest);
    }
  }

  lemma {:induction false} QuotedIsRead(value: seq<byte>, escaped: seq<bool>, rest: seq<byte>)
    requires |escaped| == |value| && forall i :: 0 <= i < |value| && MustEscape(value[i], true) ==> escaped[i]
    ensures QuotedValue(EscapedText(value, escaped) + ([QUOTE] + rest)) == (value, rest)
    decreases |value|
  {
    hide QuotedValue;
    var s := EscapedText(value, escaped) + ([QUOTE] + rest);
    if value == [] {
      assert s == [QUOTE] + rest && s[1..] == rest;
      ValuesEnd(s);
    } else {
      QuotedIsRead(value[1..], escaped[1..], rest);
      var tail := EscapedText(value[1..], escaped[1..]) + ([QUOTE] + rest);
      assert s == (if escaped[0] then [BACKSLASH, value[0]] else [value[0]]) + tail;
      assert s[if escaped[0] then 2 else 1..] == tail;
      QuotedStep(s);
      assert value == [value[0]] + value[1..];
    }
  }

  lemma {:induction false} BareIsRead(value: seq<byte>, escaped: seq<bool>, rest: seq<byte>)
    requires |escaped| == |value| && forall i :: 0 <= i < |value| && MustEscape(value[i], false) ==> escaped[i]
    requires rest == [] || IsWhite(rest[0])
    ensures BareValue(EscapedText(value, escaped) + rest) == (value, rest)
    decreases |value|
  {
    hide BareValue;
    var s := EscapedText(value, escaped) + rest;
    if value == [] {
      assert s == rest;
      ValuesEnd(s);
    } else {
      BareIsRead(value[1..], escaped[1..], rest);
      var tail := EscapedText(value[1..], escaped[1..]) + rest;
      assert s == (if escaped[0] then [BACKSLASH, value[0]] else [value[0]]) + tail;
      assert s[if escaped[0] then 2 else 1..] == tail;
      BareStep(s);
      assert value == [value[0]] + value[1..];
    }
  }

  lemma ValueIsRead(item: Item, rest: seq<byte>)
    requires ProperItem(item) && (item.layout.quoted || rest == [] || IsWhite(rest[0]))
    ensures Value(ValueText(item.pair.value, item.layout) + rest) == (item.pair.value, rest)
    ensures var s := ValueText(item.pair.value, item.layout) + rest; s != [] && !IsWhite(s[0])
  {
    var value, layout := item.pair.value, item.layout;
    var text := EscapedText(value, layout.escaped);
    if layout.quoted {
      QuotedIsRead(value, layout.escaped, rest);
      assert ([QUOTE] + text + [QUOTE] + rest)[1..] == text + ([QUOTE] + rest);
    } else {
      BareIsRead(value, layout.escaped, rest);
      assert text[0] == if layout.escaped[0] then BACKSLASH else value[0];
    }
  }

  /** A key, an equals sign and whatever makes a value are read as a pair, and the scanner stands behind the value. */
  lemma PairIsRead(before: seq<byte>, key: seq<byte>, afterKey: seq<byte>, afterEquals: seq<byte>, v: seq<byte>)
    requires AllWhite(before) && ProperKey(key) && AllWhite(afterKey) && AllWhite(afterEquals)
    requires v != [] ==> !IsWhite(v[0])
    ensures Parse(before + key + afterKey + [EQUALS] + afterEquals + v) == [Pair(key, Value(v).0)] + Parse(Value(v).1)
  {
    hide Value, KeyLength, SkipWhite;
    var u := [EQUALS] + (afterEquals + v);
    var t := key + (afterKey + u);
    assert before + key + afterKey + [EQUALS] + afterEquals + v == before + t;
    WhiteIsSkipped(before, t);
    KeyIsFound(key, afterKey + u);
    assert t[..|key|] == key && t[|key|..] == afterKey + u;
    WhiteIsSkipped(afterKey, u);
    assert u[1..] == afterEquals + v;
    WhiteIsSkipped(afterEquals, v);
  }

  /** One written pair is read, and the scanner stands right behind it. */
  lemma ItemIsRead(item: Item, rest: seq<byte>)
    requires ProperItem(item) && (item.layout.quoted || rest == [] || IsWhite(rest[0]))
    ensures Parse(ItemText(item) + rest) == [item.pair] + Parse(rest)
  {
    hide Value, ValueText, Parse;
    var key, layout := item.pair.key, item.layout;
    var v := ValueText(item.pair.value, layout) + rest;
    assert ItemText(item) + rest == layout.before + key + layout.afterKey + [EQUALS] + layout.afterEquals + v;
    ValueIsRead(item, rest);
    PairIsRead(layout.before, key, layout.afterKey, layout.afterEquals, v);
  }

  /** Every list of pairs, however it is laid out, is read back as it was, bytes for bytes. */
  lemma {:induction false} ParseOfWrite(items: seq<Item>, tail: seq<byte>)
    requires ProperItems(items) && AllWhite(tail)
    ensures Parse(Write(items) + tail) == PairsOf(items)
    decreases |items|
  {
    hide Parse, ItemText, ProperItem;
    if items == [] {
      assert Write(items) + tail == tail;
      NothingIsRead(tail);
    } else {
      TailIsProper(items);
      var rest := Write(items[1..]) + tail;
      assert Write(items) + tail == ItemText(items[0]) + rest;
      if |items| > 1 { NextStartsWhite(items[1..], tail); } else { assert rest == tail; }
      ItemIsRead(items[0], rest);
      ParseOfWrite(items[1..], tail);
      assert PairsOf(items) == [items[0].pair] + PairsOf(items[1..]);
    }
  }

  lemma NothingIsRead(tail: seq<byte>)
    requires AllWhite(tail)
    ensures Parse(tail) == []
  {
    WhiteIsSkipped(tail, []);
    assert tail + [] == tail;
  }

  lemma NextStartsWhite(items: seq<Item>, tail: seq<byte>)
    requires ProperItems(items) && items != []
    ensures items[0].layout.before != [] ==> Write(items) + tail != [] && IsWhite((Write(items) + tail)[0])
  {
    assert ProperItem(items[0]);
  }

  // Texts that do not end properly.

  /** What follows a list of pairs is read for itself. */
  lemma {:induction false} ParseGoesOn(items: seq<Item>, rest: seq<byte>)
    requires ProperItems(items) && (items != [] && !items[|items| - 1].layout.quoted ==> rest == [] || IsWhite(rest[0]))
    ensures Parse(Write(items) + rest) == PairsOf(items) + Parse(rest)
    decreases |items|
  {
    hide Parse, ItemText, ProperItem, ProperItems, Write, IsWhite;
    WriteFirst(items);
    if items == [] {
      assert Write(items) + rest == rest;
    } else {
      TailIsProper(items);
      var more := Write(items[1..]) + rest;
      assert Write(items) + rest == ItemText(items[0]) + more;
      FirstIsSeparated(items, rest);
      ItemIsRead(items[0], more);
      ParseGoesOn(items[1..], rest);
      assert PairsOf(items) == [items[0].pair] + PairsOf(items[1..]);
    }
  }

  lemma WriteFirst(items: seq<Item>)
    requires ProperItems(items)
    ensures items == [] ==> Write(items) == []
    ensures items != [] ==> ProperItem(items[0]) && ProperItems(items[1..]) && Write(items) == ItemText(items[0]) + Write(items[1..])
  {
  }

  lemma FirstIsSeparated(items: seq<Item>, rest: seq<byte>)
    requires ProperItems(items) && items != [] && (!items[|items| - 1].layout.quoted ==> rest == [] || IsWhite(rest[0]))
    ensures ProperItems(items[1..])
    ensures var more := Write(items[1..]) + rest; items[0].layout.quoted || more == [] || IsWhite(more[0])
  {
    TailIsProper(items);
    if |items| > 1 { NextStartsWhite(items[1..], rest); }
    hide ItemText;
  }

  /** A word without an equals sign ends the reading, whatever follows it. */
  lemma StrayWordEndsReading(before: seq<byte>, word: seq<byte>, after: seq<byte>, rest: seq<byte>)
    requires AllWhite(before) && ProperKey(word) && AllWhite(after)
    requires rest == [] || (after != [] && rest[0] != EQUALS && !IsWhite(rest[0]))
    ensures Parse(before + word + after + rest) == []
  {
    hide SkipWhite, KeyLength, Value;
    var t := word + (after + rest);
    assert before + word + after + rest == before + t;
    WhiteIsSkipped(before, t);
    WhiteIsSkipped(after, rest);
    WordIsFound(word, after + rest);
    assert t[..|word|] == word && t[|word|..] == after + rest;
  }

  lemma {:induction false} WordIsFound(key: seq<byte>, rest: seq<byte>)
    requires forall i :: 0 <= i < |key| ==> key[i] != EQUALS && !IsWhite(key[i])
    requires rest == [] || rest[0] == EQUALS || IsWhite(rest[0])
    ensures KeyLength(key + rest) == |key|
  {
    if key == [] {
      assert key + rest == rest;
    } else {
      assert (key + rest)[1..] == key[1..] + rest;
      WordIsFound(key[1..], rest);
    }
  }

  lemma {:induction false} OpenValueIsRead(value: seq<byte>, escaped: seq<bool>, dangling: seq<byte>, quoted: bool)
    requires |escaped| == |value| && (forall i :: 0 <= i < |value| && MustEscape(value[i], quoted) ==> escaped[i])
    requires dangling == [] || dangling == [BACKSLASH]
    ensures (if quoted then QuotedValue(EscapedText(value, escaped) + dangling) else BareValue(EscapedText(value, escaped) + dangling))
         == (value + dangling, [])
    decreases |value|
  {
    hide QuotedValue, BareValue;
    var s := EscapedText(value, escaped) + dangling;
    if value == [] {
      assert s == dangling;
      ValuesEnd([]);
      if dangling != [] {
        assert s[1..] == [] && s[0] == BACKSLASH && |s| == 1 && value + dangling == [s[0]] + [];
        if quoted { QuotedStep(s); } else { BareStep(s); }
      } else {
        ValuesEnd(s);
      }
    } else {
      OpenValueIsRead(value[1..], escaped[1..], dangling, quoted);
      var tail := EscapedText(value[1..], escaped[1..]) + dangling;
      assert s == (if escaped[0] then [BACKSLASH, value[0]] else [value[0]]) + tail;
      assert s[if escaped[0] then 2 else 1..] == tail;
      if quoted { QuotedStep(s); } else { BareStep(s); }
      assert value + dangling == [value[0]] + (value[1..] + dangling);
    }
  }

  /**
   A last value that is empty, whose quote is not closed, or that ends in a lone backslash, which stands
   for itself, takes everything up to the end.
   */
  lemma LastValueIsRead(key: seq<byte>, layout: Layout, value: seq<byte>, dangling: seq<byte>)
    requires ProperKey(key) && AllWhite(layout.before) && AllWhite(layout.afterKey) && AllWhite(layout.afterEquals)
    requires |layout.escaped| == |value| && (forall i :: 0 <= i < |value| && MustEscape(value[i], layout.quoted) ==> layout.escaped[i])
    requires dangling == [] || dangling == [BACKSLASH]
    requires !layout.quoted && value != [] && value[0] == QUOTE ==> layout.escaped[0]
    ensures Parse(layout.before + key + layout.afterKey + [EQUALS] + layout.afterEquals
                  + (if layout.quoted then [QUOTE] else []) + EscapedText(value, layout.escaped) + dangling)
         == [Pair(key, value + dangling)]
  {
    hide Parse, QuotedValue, BareValue, EscapedText;
    var open := EscapedText(value, layout.escaped) + dangling;
    var v := (if layout.quoted then [QUOTE] else []) + open;
    assert layout.before + key + layout.afterKey + [EQUALS] + layout.afterEquals
           + (if layout.quoted then [QUOTE] else []) + EscapedText(value, layout.escaped) + dangling
        == layout.before + key + layout.afterKey + [EQUALS] + layout.afterEquals + v;
    OpenValueIsRead(value, layout.escaped, dangling, layout.quoted);
    OpenValueStarts(value, layout.escaped, dangling, layout.quoted);
    assert v[if layout.quoted then 1 else 0..] == open;
    PairIsRead(layout.before, key, layout.afterKey, layout.afterEquals, v);
    NothingIsRead([]);
  }

  lemma OpenValueStarts(value: seq<byte>, escaped: seq<bool>, dangling: seq<byte>, quoted: bool)
    requires |escaped| == |value| && (forall i :: 0 <= i < |value| && MustEscape(value[i], quoted) ==> escaped[i])
    requires dangling == [] || dangling == [BACKSLASH]
    requires !quoted && value != [] && value[0] == QUOTE ==> escaped[0]
    ensures var s := EscapedText(value, escaped) + dangling; !quoted && s != [] ==> !IsWhite(s[0]) && s[0] != QUOTE
  {
  }

  /** The plainest way to write a pair: quoted, with the necessary escapes. */
  function Plainly(pair: Pair): Item {
    Item(pair, Layout([32], [], [], true, seq(|pair.value|, i requires 0 <= i < |pair.value| => MustEscape(pair.value[i], true))))
  }

  /** So there is a text for every list of pairs with proper keys. */
  lemma EveryListCanBeWritten(pairs: seq<Pair>)
    requires forall i :: 0 <= i < |pairs| ==> ProperKey(pairs[i].key)
    ensures var items := seq(|pairs|, i requires 0 <= i < |pairs| => Plainly(pairs[i]));
            ProperItems(items) && Parse(Write(items)) == pairs
  {
    var items := seq(|pairs|, i requires 0 <= i < |pairs| => Plainly(pairs[i]));
    ParseOfWrite(items, []);
    assert Write(items) + [] == Write(items) && PairsOf(items) == pairs;
  }
}
