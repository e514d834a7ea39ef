/**
 The leading keywords of a SQL text: the scanner the readonly policy classifies statements with, and
 what it makes of whitespace and comments.
 */
module Keywords {
  import opened Wrappers
  import opened Lines

  const DASH: byte := 45
  const SLASH: byte := 47
  const STAR: byte := 42

  predicate IsWordByte(b: byte) {
    65 <= b <= 90 || 97 <= b <= 122 || b == 95
  }

  function Lower(word: seq<byte>): (r: string)
    ensures |r| == |word|
    ensures forall i :: 0 <= i < |word| ==> r[i] == (if 65 <= word[i] <= 90 then word[i] + 32 else word[i]) as char
  {
    seq(|word|, i requires 0 <= i < |word| => (if 65 <= word[i] <= 90 then word[i] + 32 else word[i]) as char)
  }

  predicate Starts(s: seq<byte>, a: byte, b: byte) {
    |s| >= 2 && s[0] == a && s[1] == b
  }

  /** What follows a line comment, from its newline on. */
  function SkipLine(s: seq<byte>): seq<byte> {
    if s != [] && s[0] != NEWLINE then SkipLine(s[1..]) else s
  }

  /** What follows a block comment that is `depth` levels deep; an unfinished one takes everything. */
  function SkipBlock(s: seq<byte>, depth: nat): seq<byte>
    decreases |s|
  {
    if s == [] || depth == 0 then s
    else if Starts(s, SLASH, STAR) then SkipBlock(s[2..], depth + 1)
    else if Starts(s, STAR, SLASH) then SkipBlock(s[2..], depth - 1)
    else SkipBlock(s[1..], depth)
  }

  function WordLength(s: seq<byte>): (n: nat)
    ensures n <= |s| && forall i :: 0 <= i < n ==> IsWordByte(s[i])
    ensures n < |s| ==> !IsWordByte(s[n])
  {
    if s != [] && IsWordByte(s[0]) then 1 + WordLength(s[1..]) else 0
  }

  lemma {:induction false} SkippingShortens(s: seq<byte>, depth: nat)
    ensures |SkipWhite(s)| <= |s| && |SkipLine(s)| <= |s| && |SkipBlock(s, depth)| <= |s|
    decreases |s|
  {
    if s != [] {
      SkippingShortens(s[1..], depth);
      if |s| >= 2 {
        SkippingShortens(s[2..], depth + 1);
        if depth > 0 { SkippingShortens(s[2..], depth - 1); }
      }
    }
  }

  /** The first `limit` keywords, in lower case. */
  function Scan(s: seq<byte>, limit: nat): seq<string>
    decreases |s|
  {
    SkippingShortens(s, 0);
    var t := SkipWhite(s);
    if limit == 0 || t == [] then []
    else if Starts(t, DASH, DASH) then SkippingShortens(t[2..], 0); Scan(SkipLine(t[2..]), limit)
    else if Starts(t, SLASH, STAR) then SkippingShortens(t[2..], 1); Scan(SkipBlock(t[2..], 1), limit)
    else
      var n := WordLength(t);
      if n == 0 then [] else [Lower(t[..n])] + Scan(t[n..], limit - 1)
  }

  lemma SkipWhiteTwice(s: seq<byte>)
    ensures SkipWhite(SkipWhite(s)) == SkipWhite(s)
  {
  }

  /** Whitespace in front changes nothing. */
  lemma ScanSkipsWhite(s: seq<byte>, limit: nat)
    ensures Scan(SkipWhite(s), limit) == Scan(s, limit)
  {
    SkipWhiteTwice(s);
  }

  method LeadingKeywords(sql: seq<byte>, limit: nat) returns (words: seq<string>)
    ensures words == Scan(sql, limit)
  {
    hide Scan, SkipWhite, SkipLine, SkipBlock, WordLength, IsWhite, IsWordByte;
    var index := 0;
    words := [];
    assert sql[0..] == sql;
    while index < |sql| && |words| < limit
      invariant index <= |sql| && |words| <= limit
      invariant words + Scan(sql[index..], limit - |words|) == Scan(sql, limit)
      decreases |sql| - index
    {
      ghost var room := limit - |words|;
      ScanSkipsWhite(sql[index..], room);
      index := PassWhite(sql, index);
      ScanAt(sql, index, room);
      if At(sql, index, DASH, DASH) {
        index := PassLine(sql, index + 2);
      } else if At(sql, index, SLASH, STAR) {
        index := PassBlock(sql, index + 2);
      } else {
        var start := index;
        index := PassWord(sql, index);
        if start == index { break; }
        ghost var word, rest := Lower(sql[start..index]), Scan(sql[index..], room - 1);
        assert words + ([word] + rest) == words + [word] + rest;
        words := words + [Lower(sql[start..index])];
      }
    }
    ScanNothing(sql[index..], limit - |words|);
  }

  predicate At(sql: seq<byte>, index: nat, a: byte, b: byte) {
    index + 2 <= |sql| && sql[index] == a && sql[index + 1] == b
  }

  /** The same round, told by positions. */
  lemma ScanAt(sql: seq<byte>, index: nat, limit: nat)
    requires index <= |sql| && limit > 0 && (index < |sql| ==> !IsWhite(sql[index]))
    ensures Scan(sql[index..], limit) ==
              if At(sql, index, DASH, DASH) then Scan(SkipLine(sql[index + 2..]), limit)
              else if At(sql, index, SLASH, STAR) then Scan(SkipBlock(sql[index + 2..], 1), limit)
              else
                var n := WordLength(sql[index..]);
                if n == 0 then [] else [Lower(sql[index..index + n])] + Scan(sql[index + n..], limit - 1)
  {
    hide Scan;
    var t := sql[index..];
    assert SkipWhite(t) == t;
    var n := WordLength(t);
    assert t[..n] == sql[index..index + n] && t[n..] == sql[index + n..] && (|t| >= 2 ==> t[2..] == sql[index + 2..]);
    ScanStep(t, limit);
  }

  /** One round of the scanner, from a place that is not whitespace. */
  lemma ScanStep(t: seq<byte>, limit: nat)
    requires limit > 0 && SkipWhite(t) == t
    ensures Scan(t, limit) ==
              if t == [] then []
              else if Starts(t, DASH, DASH) then Scan(SkipLine(t[2..]), limit)
              else if Starts(t, SLASH, STAR) then Scan(SkipBlock(t[2..], 1), limit)
              else if WordLength(t) == 0 then []
              else [Lower(t[..WordLength(t)])] + Scan(t[WordLength(t)..], limit - 1)
  {
  }

  lemma ScanNothing(s: seq<byte>, limit: nat)
    ensures limit == 0 || s == [] ==> Scan(s, limit) == []
  {
  }

  method PassLine(sql: seq<byte>, from: nat) returns (index: nat)
    requires from <= |sql|
    ensures from <= index <= |sql| && sql[index..] == SkipLine(sql[from..])
  {
    index := from;
    while index < |sql| && sql[index] != NEWLINE
      invariant from <= index <= |sql| && SkipLine(sql[index..]) == SkipLine(sql[from..])
    {
      assert sql[index..][1..] == sql[index + 1..];
      index := index + 1;
    }
  }

  method PassBlock(sql: seq<byte>, from: nat) returns (index: nat)
    requires from <= |sql|
    ensures from <= index <= |sql| && sql[index..] == SkipBlock(sql[from..], 1)
  {
    index := from;
    var depth := 1;
    while index < |sql| && depth > 0
      invariant from <= index <= |sql| && depth >= 0 && SkipBlock(sql[index..], depth) == SkipBlock(sql[from..], 1)
      decreases |sql| - index
    {
      ghost var s := sql[index..];
      assert s[1..] == sql[index + 1..] && (|s| >= 2 ==> s[2..] == sql[index + 2..]);
      if index + 2 <= |sql| && sql[index] == SLASH && sql[index + 1] == STAR {
        depth := depth + 1;
        index := index + 2;
      } else if index + 2 <= |sql| && sql[index] == STAR && sql[index + 1] == SLASH {
        depth := depth - 1;
        index := index + 2;
      } else {
        index := index + 1;
      }
    }
  }

  method PassWord(sql: seq<byte>, from: nat) returns (index: nat)
    requires from <= |sql|
    ensures index == from + WordLength(sql[from..])
  {
    index := from;
    while index < |sql| && IsWordByte(sql[index])
      invariant from <= index <= |sql|
      invariant index + WordLength(sql[index..]) == from + WordLength(sql[from..])
    {
      assert sql[index..][1..] == sql[index + 1..];
      index := index + 1;
    }
  }

  // Trivia, as section 4.1.5 of the PostgreSQL 16 documentation describes comments.

  /** The inside of a block comment and its end: any bytes, and whole comments nested in it. */
  datatype Body = Close | Text(b: byte, rest: Body) | Nested(inner: Body, rest: Body)

  function Inside(body: Body): (s: seq<byte>)
    ensures |s| >= 2
  {
    match body
    case Close => [STAR, SLASH]
    case Text(b, rest) => [b] + Inside(rest)
    case Nested(inner, rest) => [SLASH, STAR] + Inside(inner) + Inside(rest)
  }

  /** A byte of text does not make a comment's start or end with what follows it. */
  predicate ProperBody(body: Body) {
    match body
    case Close => true
    case Text(b, rest) =>
      && !(b == SLASH && Inside(rest)[0] == STAR) && !(b == STAR && Inside(rest)[0] == SLASH)
      && ProperBody(rest)
    case Nested(inner, rest) => ProperBody(inner) && ProperBody(rest)
  }

  datatype Trivium = White(b: byte) | LineComment(text: seq<byte>) | BlockComment(body: Body)

  predicate ProperTrivium(t: Trivium) {
    match t
    case White(b) => IsWhite(b)
    case LineComment(text) => NEWLINE !in text
    case BlockComment(body) => ProperBody(body)
  }

  function TriviumText(t: Trivium): (s: seq<byte>)
    ensures s != []
  {
    match t
    case White(b) => [b]
    case LineComment(text) => [DASH, DASH] + text + [NEWLINE]
    case BlockComment(body) => [SLASH, STAR] + Inside(body)
  }

  predicate ProperTrivia(ts: seq<Trivium>) {
    forall i :: 0 <= i < |ts| ==> ProperTrivium(ts[i])
  }

  function TriviaText(ts: seq<Trivium>): seq<byte> {
    if ts == [] then [] else TriviumText(ts[0]) + TriviaText(ts[1..])
  }

  lemma BlockOpens(tail: seq<byte>, depth: nat)
    requires depth > 0
    ensures SkipBlock([SLASH, STAR] + tail, depth) == SkipBlock(tail, depth + 1)
  {
    assert ([SLASH, STAR] + tail)[2..] == tail;
  }

  lemma BlockCloses(tail: seq<byte>, depth: nat)
    requires depth > 0
    ensures SkipBlock([STAR, SLASH] + tail, depth) == SkipBlock(tail, depth - 1)
  {
    assert ([STAR, SLASH] + tail)[2..] == tail;
  }

  lemma BlockGoesOn(b: byte, tail: seq<byte>, depth: nat)
    requires depth > 0 && !Starts([b] + tail, SLASH, STAR) && !Starts([b] + tail, STAR, SLASH)
    ensures SkipBlock([b] + tail, depth) == SkipBlock(tail, depth)
  {
    assert ([b] + tail)[1..] == tail;
  }

  /** A properly nested comment ends where it says it does. */
  lemma {:induction false} BlockEnds(body: Body, rest: seq<byte>, depth: nat)
    requires ProperBody(body) && depth > 0
    ensures SkipBlock(Inside(body) + rest, depth) == SkipBlock(rest, depth - 1)
    decreases body
  {
    hide SkipBlock;
    match body {
      case Close =>
        BlockCloses(rest, depth);
      case Text(b, more) =>
        var tail := Inside(more) + rest;
        assert Inside(body) + rest == [b] + tail && tail[0] == Inside(more)[0];
        BlockGoesOn(b, tail, depth);
        BlockEnds(more, rest, depth);
      case Nested(inner, more) =>
        var tail := Inside(more) + rest;
        assert Inside(body) + rest == [SLASH, STAR] + (Inside(inner) + tail);
        BlockOpens(Inside(inner) + tail, depth);
        BlockEnds(inner, tail, depth + 1);
        BlockEnds(more, rest, depth);
    }
  }

  lemma {:induction false} LineEnds(text: seq<byte>, rest: seq<byte>)
    requires NEWLINE !in text
    ensures SkipLine(text + ([NEWLINE] + rest)) == [NEWLINE] + rest
  {
    if text != [] {
      assert (text + ([NEWLINE] + rest))[1..] == text[1..] + ([NEWLINE] + rest);
      LineEnds(text[1..], rest);
    } else {
      assert text + ([NEWLINE] + rest) == [NEWLINE] + rest;
    }
  }

  lemma WhiteIsIgnored(b: byte, rest: seq<byte>, limit: nat)
    requires IsWhite(b)
    ensures Scan([b] + rest, limit) == Scan(rest, limit)
  {
    hide Scan;
    assert ([b] + rest)[1..] == rest;
    ScanSkipsWhite([b] + rest, limit);
    ScanSkipsWhite(rest, limit);
  }

  lemma LineIsIgnored(text: seq<byte>, rest: seq<byte>, limit: nat)
    requires NEWLINE !in text && limit > 0
    ensures Scan([DASH, DASH] + text + [NEWLINE] + rest, limit) == Scan(rest, limit)
  {
    hide Scan;
    var after := [NEWLINE] + rest;
    var s := [DASH, DASH] + (text + after);
    assert [DASH, DASH] + text + [NEWLINE] + rest == s && s[2..] == text + after;
    LineEnds(text, rest);
    WhiteIsIgnored(NEWLINE, rest, limit);
    ScanStep(s, limit);
  }

  lemma BlockIsIgnored(body: Body, rest: seq<byte>, limit: nat)
    requires ProperBody(body) && limit > 0
    ensures Scan([SLASH, STAR] + Inside(body) + rest, limit) == Scan(rest, limit)
  {
    hide Scan;
    var s := [SLASH, STAR] + (Inside(body) + rest);
    assert [SLASH, STAR] + Inside(body) + rest == s && s[2..] == Inside(body) + rest;
    BlockEnds(body, rest, 1);
    assert SkipBlock(rest, 0) == rest;
    ScanStep(s, limit);
  }

  lemma OneTriviumIsIgnored(t: Trivium, rest: seq<byte>, limit: nat)
    requires ProperTrivium(t)
    ensures Scan(TriviumText(t) + rest, limit) == Scan(rest, limit)
  {
    hide Scan;
    if limit == 0 {
      ScanZero(TriviumText(t) + rest);
      ScanZero(rest);
    } else {
      match t {
        case White(b) => WhiteIsIgnored(b, rest, limit);
        case LineComment(text) => LineIsIgnored(text, rest, limit);
        case BlockComment(body) => BlockIsIgnored(body, rest, limit);
      }
    }
  }

  lemma ScanZero(s: seq<byte>)
    ensures Scan(s, 0) == []
  {
  }

  /** Trivia in front of a text does not change its keywords. */
  lemma {:induction false} TriviaAreIgnored(ts: seq<Trivium>, rest: seq<byte>, limit: nat)
    requires ProperTrivia(ts)
    ensures Scan(TriviaText(ts) + rest, limit) == Scan(rest, limit)
  {
    if ts == [] {
      assert TriviaText(ts) + rest == rest;
    } else {
      assert TriviaText(ts) + rest == TriviumText(ts[0]) + (TriviaText(ts[1..]) + rest);
      OneTriviumIsIgnored(ts[0], TriviaText(ts[1..]) + rest, limit);
      TriviaAreIgnored(ts[1..], rest, limit);
    }
  }

  /** A keyword and the trivia in front of it. */
  datatype Token = Token(before: seq<Trivium>, word: seq<byte>)

  predicate IsToken(word: seq<byte>) {
    word != [] && forall j :: 0 <= j < |word| ==> IsWordByte(word[j])
  }

  predicate ProperToken(t: Token) {
    ProperTrivia(t.before) && IsToken(t.word)
  }

  predicate ProperTokens(tokens: seq<Token>) {
    && (forall i :: 0 <= i < |tokens| ==> ProperToken(tokens[i]))
    && (forall i :: 0 < i < |tokens| ==> tokens[i].before != [])
  }

  function TokensText(tokens: seq<Token>): seq<byte> {
    if tokens == [] then [] else TriviaText(tokens[0].before) + tokens[0].word + TokensText(tokens[1..])
  }

  function WordsOf(tokens: seq<Token>): (words: seq<string>)
    ensures |words| == |tokens|
    ensures forall i :: 0 <= i < |tokens| ==> words[i] == Lower(tokens[i].word)
  {
    seq(|tokens|, i requires 0 <= i < |tokens| => Lower(tokens[i].word))
  }

  /** A text in which a word would end. */
  predicate EndsWord(s: seq<byte>) {
    s == [] || !IsWordByte(s[0])
  }

  lemma TriviaEndWords(ts: seq<Trivium>, rest: seq<byte>)
    requires ProperTrivia(ts) && ts != []
    ensures EndsWord(TriviaText(ts) + rest)
  {
    assert ProperTrivium(ts[0]);
  }

  lemma WordLengthIs(s: seq<byte>, n: nat)
    requires n <= |s| && (forall i :: 0 <= i < n ==> IsWordByte(s[i])) && (n < |s| ==> !IsWordByte(s[n]))
    ensures WordLength(s) == n
  {
  }

  lemma WordIsRead(word: seq<byte>, rest: seq<byte>, limit: nat)
    requires IsToken(word) && EndsWord(rest) && limit > 0
    ensures Scan(word + rest, limit) == [Lower(word)] + Scan(rest, limit - 1)
  {
    hide Scan;
    var s := word + rest;
    assert s[0] == word[0] && SkipWhite(s) == s;
    var n := WordLength(s);
    WordLengthIs(s, |word|);
    assert s[..n] == word && s[n..] == rest;
    ScanStep(s, limit);
  }

  lemma FirstToken(tokens: seq<Token>, rest: seq<byte>)
    requires tokens != []
    ensures TokensText(tokens) + rest == TriviaText(tokens[0].before) + (tokens[0].word + (TokensText(tokens[1..]) + rest))
  {
    Regrouped(TriviaText(tokens[0].before), tokens[0].word, TokensText(tokens[1..]), rest);
    hide TriviaText;
  }

  lemma Regrouped(a: seq<byte>, b: seq<byte>, c: seq<byte>, d: seq<byte>)
    ensures a + b + c + d == a + (b + (c + d))
  {
  }

  lemma PutInFront(word: string, words: seq<string>, more: seq<string>, n: nat)
    ensures n <= |words| ==> [word] + words[..n] == ([word] + words)[..n + 1]
    ensures [word] + (words + more) == [word] + words + more
  {
  }

  lemma FirstIsProper(tokens: seq<Token>)
    requires ProperTokens(tokens) && tokens != []
    ensures ProperTrivia(tokens[0].before) && IsToken(tokens[0].word) && ProperTokens(tokens[1..])
    ensures |tokens| > 1 ==> tokens[1..][0].before != []
  {
    hide ProperTrivia, IsToken;
    assert ProperToken(tokens[0]);
  }

  lemma FirstWord(tokens: seq<Token>)
    requires tokens != []
    ensures WordsOf(tokens) == [Lower(tokens[0].word)] + WordsOf(tokens[1..])
  {
    hide Lower;
  }

  lemma NoTokens(rest: seq<byte>)
    ensures TokensText([]) + rest == rest
  {
  }

  lemma TokensEndWord(tokens: seq<Token>, rest: seq<byte>)
    requires ProperTokens(tokens) && EndsWord(rest) && (tokens != [] ==> tokens[0].before != [])
    ensures EndsWord(TokensText(tokens) + rest)
  {
    NoTokens(rest);
    hide ProperTokens, ProperTrivia, TriviaText, EndsWord, TokensText;
    if tokens != [] {
      FirstToken(tokens, rest);
      FirstIsProper(tokens);
      TriviaEndWords(tokens[0].before, tokens[0].word + (TokensText(tokens[1..]) + rest));
    }
  }

  /** The scanner reads exactly the words of a text, whatever trivia stand before and between them. */
  lemma {:induction false} TokensAreRead(tokens: seq<Token>, rest: seq<byte>, limit: nat)
    requires ProperTokens(tokens) && EndsWord(rest)
    ensures Scan(TokensText(tokens) + rest, limit) ==
              if limit <= |tokens| then WordsOf(tokens)[..limit] else WordsOf(tokens) + Scan(rest, limit - |tokens|)
    decreases |tokens|
  {
    NoTokens(rest);
    hide Scan, ProperTokens, ProperTrivia, Lower, TriviaText, EndsWord, TokensText, IsToken;
    if tokens == [] {
      ScanZero(rest);
    } else if limit == 0 {
      ScanZero(TokensText(tokens) + rest);
    } else {
      var first, more := tokens[0], TokensText(tokens[1..]) + rest;
      FirstToken(tokens, rest);
      FirstIsProper(tokens);
      FirstWord(tokens);
      TokensEndWord(tokens[1..], rest);
      TriviaAreIgnored(first.before, first.word + more, limit);
      WordIsRead(first.word, more, limit);
      TokensAreRead(tokens[1..], rest, limit - 1);
      var read := if limit > |tokens| then Scan(rest, limit - |tokens|) else [];
      PutInFront(Lower(first.word), WordsOf(tokens[1..]), read, limit - 1);
    }
  }

  /** Trivia put after any number of keywords do not change what is read. */
  lemma InsertedTriviaAreIgnored(tokens: seq<Token>, ts: seq<Trivium>, rest: seq<byte>, limit: nat)
    requires ProperTokens(tokens) && ProperTrivia(ts) && (tokens == [] || EndsWord(rest))
    ensures Scan(TokensText(tokens) + (TriviaText(ts) + rest), limit) == Scan(TokensText(tokens) + rest, limit)
  {
    hide Scan;
    if ts == [] {
      assert TriviaText(ts) + rest == rest;
    } else if tokens == [] {
      assert TokensText(tokens) + (TriviaText(ts) + rest) == TriviaText(ts) + rest && TokensText(tokens) + rest == rest;
      TriviaAreIgnored(ts, rest, limit);
    } else {
      TriviaEndWords(ts, rest);
      TokensAreRead(tokens, TriviaText(ts) + rest, limit);
      TokensAreRead(tokens, rest, limit);
      if limit > |tokens| { TriviaAreIgnored(ts, rest, limit - |tokens|); }
    }
  }

  /** Statements that begin, end or change a transaction, by their first keywords. */
  predicate TransactionControl(words: seq<string>) {
    || (|words| >= 1 && words[0] in {"begin", "commit", "end", "rollback", "abort", "savepoint", "release"})
    || (|words| >= 2 && words[0] in {"start", "prepare", "set"} && words[1] == "transaction")
    || (|words| >= 3 && words[0] == "set" && words[1] == "session" && words[2] == "characteristics")
    || (|words| >= 3 && words[0] == "set" && words[1] in {"local", "session"} && words[2] == "transaction")
  }

  /** The readonly policy's verdict on a statement. */
  predicate ValidSql(sql: seq<byte>) {
    !TransactionControl(Scan(sql, 4))
  }

  method ValidateSql(sql: seq<byte>) returns (ok: bool)
    ensures ok == ValidSql(sql)
  {
    var keywords := LeadingKeywords(sql, 4);
    ok := !TransactionControl(keywords);
  }

  const CONTROL: set<seq<string>> := {
    ["begin"], ["commit"], ["end"], ["rollback"], ["abort"], ["savepoint"], ["release"],
    ["start", "transaction"], ["prepare", "transaction"], ["set", "transaction"],
    ["set", "session", "characteristics"], ["set", "session", "transaction"], ["set", "local", "transaction"]}

  lemma ControlIsAPrefix(words: seq<string>)
    ensures TransactionControl(words) <==> exists c :: c in CONTROL && c <= words
  {
    if TransactionControl(words) {
      if [words[0]] in CONTROL {
        assert [words[0]] <= words;
      } else if [words[0], words[1]] in CONTROL {
        assert [words[0], words[1]] <= words;
      } else {
        assert [words[0], words[1], words[2]] in CONTROL && [words[0], words[1], words[2]] <= words;
      }
    }
    if c :| c in CONTROL && c <= words {
      assert |c| >= 1 && words[0] == c[0] && (|c| >= 2 ==> words[1] == c[1]) && (|c| >= 3 ==> words[2] == c[2]);
    }
  }

  /** A lower limit reads the same words, only fewer. */
  lemma {:induction false} ScanUpTo(s: seq<byte>, m: nat, n: nat)
    requires m <= n
    ensures Scan(s, m) == Scan(s, n)[..Min(m, |Scan(s, n)|)]
    decreases |s|
  {
    hide Scan;
    if m == 0 {
      ScanZero(s);
    } else {
      var t := SkipWhite(s);
      ScanSkipsWhite(s, m);
      ScanSkipsWhite(s, n);
      ScanStep(t, m);
      ScanStep(t, n);
      if t == [] {
      } else if Starts(t, DASH, DASH) {
        SkippingShortens(t[2..], 0);
        ScanUpTo(SkipLine(t[2..]), m, n);
      } else if Starts(t, SLASH, STAR) {
        SkippingShortens(t[2..], 1);
        ScanUpTo(SkipBlock(t[2..], 1), m, n);
      } else if WordLength(t) > 0 {
        ScanUpTo(t[WordLength(t)..], m - 1, n - 1);
      }
    }
  }

  /**
   A text is refused if and only if its keywords, all of them, begin with one of thirteen phrases; the
   four the policy looks at are enough to tell.
   */
  lemma RefusedIffControlPhrase(sql: seq<byte>, limit: nat)
    requires limit >= 4
    ensures !ValidSql(sql) <==> exists c :: c in CONTROL && c <= Scan(sql, limit)
  {
    ScanUpTo(sql, 4, limit);
    ControlIsAPrefix(Scan(sql, 4));
    ShortPrefixes(Scan(sql, limit), Min(4, |Scan(sql, limit)|));
    hide Scan, TransactionControl;
  }

  lemma ShortPrefixes(words: seq<string>, n: nat)
    requires n <= |words| && (n >= 3 || n == |words|)
    ensures (exists c :: c in CONTROL && c <= words) <==> (exists c :: c in CONTROL && c <= words[..n])
  {
    if c :| c in CONTROL && c <= words {
      PhrasesAreShort(c);
      assert c <= words[..n];
    }
    if c :| c in CONTROL && c <= words[..n] {
      assert c <= words;
    }
  }

  lemma PhrasesAreShort(c: seq<string>)
    requires c in CONTROL
    ensures |c| <= 3
  {
  }

  /** So the verdict does not depend on the trivia before or between the first keywords. */
  lemma VerdictIgnoresTrivia(tokens: seq<Token>, ts: seq<Trivium>, rest: seq<byte>)
    requires ProperTokens(tokens) && ProperTrivia(ts) && (tokens == [] || EndsWord(rest))
    ensures ValidSql(TokensText(tokens) + (TriviaText(ts) + rest)) == ValidSql(TokensText(tokens) + rest)
  {
    InsertedTriviaAreIgnored(tokens, ts, rest, 4);
  }

  /**
   A single byte in front of every text changes nothing if and only if it is a space, a tab, a newline,
   a form feed or a carriage return. The vertical tab, which PostgreSQL 16 also skips, is not among them.
   */
  lemma OnlyWhiteIsIgnored(b: byte)
    ensures (forall s, limit: nat :: Scan([b] + s, limit) == Scan(s, limit)) <==> b in {32, 9, 10, 12, 13}
  {
    hide Scan;
    if IsWhite(b) {
      forall s, limit: nat ensures Scan([b] + s, limit) == Scan(s, limit) { OneTriviumIsIgnored(White(b), s, limit); }
    } else {
      var s := [b] + [97 as byte];
      WordIsRead([97], [], 1);
      ScanZero([]);
      assert [97 as byte] + [] == [97 as byte] && |Scan([97], 1)[0]| == 1;
      ScanStep(s, 1);
      if IsWordByte(b) {
        assert WordLength(s) == 2 && |Scan(s, 1)[0]| == 2;
      } else {
        assert WordLength(s) == 0 && Scan(s, 1) == [];
      }
      assert Scan([b] + [97 as byte], 1) != Scan([97 as byte], 1);
    }
  }

  // What the scanner makes of letters, told by the characters they spell.

  /** The bytes of `word` are the characters of `s`, letters in either case. */
  ghost predicate Spells(word: seq<byte>, s: string) {
    && |word| == |s|
    && forall i :: 0 <= i < |s| ==>
         || ('a' <= s[i] <= 'z' && (word[i] as int == s[i] as int || word[i] as int == s[i] as int - 'a' as int + 'A' as int))
         || (s[i] == '_' && word[i] as int == '_' as int)
  }

  /** The byte is no ASCII letter of either case and no underscore. */
  ghost predicate SpellsNothing(b: byte) {
    && b as int != '_' as int
    && !('a' as int <= b as int <= 'z' as int) && !('A' as int <= b as int <= 'Z' as int)
  }

  ghost predicate Stops(rest: seq<byte>) {
    rest == [] || SpellsNothing(rest[0])
  }

  lemma SpelledWordsAreTokens(word: seq<byte>, s: string)
    requires Spells(word, s) && s != ""
    ensures IsToken(word) && Lower(word) == s
  {
  }

  /** A word of letters and underscores is read to its end, and any other byte ends it. */
  lemma SpelledWordIsRead(word: seq<byte>, s: string, rest: seq<byte>, limit: nat)
    requires Spells(word, s) && s != "" && Stops(rest) && limit > 0
    ensures Scan(word + rest, limit) == [s] + Scan(rest, limit - 1)
  {
    SpelledWordsAreTokens(word, s);
    WordIsRead(word, rest, limit);
  }

  /** Nothing is read from a byte on that is no letter, no underscore, no whitespace and starts no comment, such as a digit. */
  lemma OtherBytesEndReading(b: byte, rest: seq<byte>, limit: nat)
    requires SpellsNothing(b) && b !in {32, 9, 10, 12, 13}
    requires !Starts([b] + rest, DASH, DASH) && !Starts([b] + rest, SLASH, STAR)
    ensures Scan([b] + rest, limit) == []
  {
    if limit > 0 {
      assert SkipWhite([b] + rest) == [b] + rest;
      ScanStep([b] + rest, limit);
    }
  }

  lemma {:induction false} NeverClosed(s: seq<byte>, depth: nat)
    requires depth > 0 && forall i :: 0 <= i < |s| - 1 ==> !(s[i] == STAR && s[i + 1] == SLASH)
    ensures SkipBlock(s, depth) == []
    decreases |s|
  {
    if s != [] {
      if Starts(s, SLASH, STAR) { NeverClosed(s[2..], depth + 1); } else { NeverClosed(s[1..], depth); }
    }
  }

  lemma {:induction false} NoNewline(s: seq<byte>)
    requires NEWLINE !in s
    ensures SkipLine(s) == []
  {
    if s != [] { NoNewline(s[1..]); }
  }

  /** A comment that is not finished takes everything to the end of the text. */
  lemma UnfinishedCommentsTakeAll(text: seq<byte>, limit: nat)
    ensures NEWLINE !in text ==> Scan([DASH, DASH] + text, limit) == []
    ensures (forall i :: 0 <= i < |text| - 1 ==> !(text[i] == STAR && text[i + 1] == SLASH)) ==> Scan([SLASH, STAR] + text, limit) == []
  {
    hide Scan;
    var line, block := [DASH, DASH] + text, [SLASH, STAR] + text;
    assert line[2..] == text && block[2..] == text;
    ScanNothing([], limit);
    if limit == 0 {
      ScanZero(line);
      ScanZero(block);
    } else {
      ScanStep(line, limit);
      ScanStep(block, limit);
      if NEWLINE !in text { NoNewline(text); }
      if forall i :: 0 <= i < |text| - 1 ==> !(text[i] == STAR && text[i + 1] == SLASH) { NeverClosed(text, 1); }
    }
  }

  /** The words of a text spell these, with any trivia before the first and at least one between any two. */
  ghost predicate SpelledText(tokens: seq<Token>, words: seq<string>) {
    && |tokens| == |words|
    && (forall i :: 0 <= i < |tokens| ==> ProperTrivia(tokens[i].before) && words[i] != "" && Spells(tokens[i].word, words[i]))
    && (forall i :: 0 < i < |tokens| ==> tokens[i].before != [])
  }

  lemma SpelledTextIsRead(tokens: seq<Token>, words: seq<string>, rest: seq<byte>, limit: nat)
    requires SpelledText(tokens, words) && Stops(rest)
    ensures Scan(TokensText(tokens) + rest, limit) == if limit <= |words| then words[..limit] else words + Scan(rest, limit - |words|)
  {
    hide Scan, Spells, ProperTrivia, IsToken, Lower, TokensText, IsWordByte;
    forall i | 0 <= i < |tokens| ensures ProperToken(tokens[i]) && Lower(tokens[i].word) == words[i] {
      SpelledWordsAreTokens(tokens[i].word, words[i]);
    }
    assert WordsOf(tokens) == words;
    StopsEndWords(rest);
    TokensAreRead(tokens, rest, limit);
  }

  lemma StopsEndWords(rest: seq<byte>)
    requires Stops(rest)
    ensures EndsWord(rest)
  {
  }

  /**
   Every phrase of transaction control is refused in every mix of upper and lower case, with any comments
   and whitespace before and between its words, and whatever follows that is no letter and no underscore.
   */
  lemma ControlIsRefusedInEveryForm(phrase: seq<string>, tokens: seq<Token>, rest: seq<byte>)
    requires phrase in CONTROL && SpelledText(tokens, phrase) && Stops(rest)
    ensures !ValidSql(TokensText(tokens) + rest)
  {
    SpelledTextIsRead(tokens, phrase, rest, 4);
    PhrasesAreShort(phrase);
    ControlIsAPrefix(Scan(TokensText(tokens) + rest, 4));
    hide Scan, SpelledText, TransactionControl;
    assert phrase <= Scan(TokensText(tokens) + rest, 4);
  }

  /** And a text whose words, up to where reading ends, do not begin with such a phrase is allowed. */
  lemma OtherTextsAreAllowed(words: seq<string>, tokens: seq<Token>, rest: seq<byte>)
    requires SpelledText(tokens, words) && Stops(rest)
    requires |words| >= 4 || Scan(rest, 4 - |words|) == []
    ensures ValidSql(TokensText(tokens) + rest) <==> !exists c :: c in CONTROL && c <= words
  {
    hide Scan, SpelledText, Stops, TokensText, TransactionControl;
    SpelledTextIsRead(tokens, words, rest, 4);
    var n := Min(4, |words|);
    assert Scan(TokensText(tokens) + rest, 4) == words[..n] by { assert words[..|words|] == words && words + [] == words; }
    ControlIsAPrefix(words[..n]);
    ShortPrefixes(words, n);
  }
}
