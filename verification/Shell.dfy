/**
 Reaching a host through a chain of SSH hops: every hop's shell takes one layer of quoting off the
 command it is given, and what it finds is the next hop and the rest of the way.
 */
module Shell {
  import opened Wrappers

  predicate IsWord(c: char) {
    'a' <= c <= 'z' || 'A' <= c <= 'Z' || '0' <= c <= '9' || c in {'_', '-', '.', '/', ':', '@'}
  }

  /** Each single quote leaves the quotes, comes escaped, and enters them again. */
  function Escaped(value: string): string {
    if value == "" then ""
    else (if value[0] == '\'' then "'\\''" else [value[0]]) + Escaped(value[1..])
  }

  function ShellQuote(value: string): string {
    if value == "" then "''"
    else if forall i :: 0 <= i < |value| ==> IsWord(value[i]) then value
    else "'" + Escaped(value) + "'"
  }

  function ShellJoin(parts: seq<string>): string {
    if parts == [] then ""
    else if |parts| == 1 then ShellQuote(parts[0])
    else ShellQuote(parts[0]) + " " + ShellJoin(parts[1..])
  }

  // Sections 2.2 and 2.3 of the POSIX.1-2017 Shell Command Language, for one simple command.

  predicate IsBlank(c: char) {
    c == ' ' || c == '\t'
  }

  /** Characters that stand for themselves without quotes wherever they occur in a word. */
  predicate IsPlain(c: char) {
    !IsBlank(c) && c !in {'|', '&', ';', '<', '>', '(', ')', '$', '`', '\\', '"', '\'', '\n', '*', '?', '[', '#', '~', '=', '%', '{', '}', '!'}
  }

  function SoFar(word: Option<string>): string {
    if word.Some? then word.value else ""
  }

  /**
   The words a shell finds in the rest of a command, after `word` if it has begun one. There is no
   answer for an operator, an expansion, a double quote or an unfinished quotation, all of which
   would make the text mean something other than its characters.
   */
  function Words(text: string, word: Option<string>): Option<seq<string>>
    decreases |text|
  {
    if text == "" then Some(if word.Some? then [word.value] else [])
    else if IsBlank(text[0]) then
      match Words(text[1..], None)
      case None => None
      case Some(rest) => Some((if word.Some? then [word.value] else []) + rest)
    else if text[0] == '\'' then Quoted(text[1..], SoFar(word))
    else if text[0] == '\\' then
      if |text| == 1 then None
      else if text[1] == '\n' then Words(text[2..], word)
      else Words(text[2..], Some(SoFar(word) + [text[1]]))
    else if IsPlain(text[0]) then Words(text[1..], Some(SoFar(word) + [text[0]]))
    else None
  }

  /** Inside single quotes every character stands for itself, up to the next single quote. */
  function Quoted(text: string, word: string): Option<seq<string>>
    decreases |text|
  {
    if text == "" then None
    else if text[0] == '\'' then Words(text[1..], Some(word))
    else Quoted(text[1..], word + [text[0]])
  }

  function SplitCommand(command: string): Option<seq<string>> {
    Words(command, None)
  }

  lemma QuotesClose(rest: string, word: string)
    ensures Quoted("'" + rest, word) == Words(rest, Some(word))
  {
    assert ("'" + rest)[1..] == rest;
  }

  lemma InsideIsLiteral(c: char, tail: string, word: string)
    requires c != '\''
    ensures Quoted([c] + tail, word) == Quoted(tail, word + [c])
  {
    assert ([c] + tail)[1..] == tail;
  }

  lemma {:induction false} EscapedIsLiteral(value: string, rest: string, word: string)
    ensures Quoted(Escaped(value) + ("'" + rest), word) == Words(rest, Some(word + value))
    decreases |value|
  {
    hide Words, Quoted;
    if value == "" {
      QuotesClose(rest, word);
      assert Escaped(value) + ("'" + rest) == "'" + rest && word + value == word;
    } else {
      var c, tail := value[0], Escaped(value[1..]) + ("'" + rest);
      EscapedIsLiteral(value[1..], rest, word + [c]);
      assert word + [c] + value[1..] == word + value;
      if c == '\'' {
        LeaveAndEnter(tail, word);
        assert Escaped(value) + ("'" + rest) == "'\\''" + tail;
      } else {
        InsideIsLiteral(c, tail, word);
        assert Escaped(value) + ("'" + rest) == [c] + tail;
      }
    }
  }

  lemma LeaveAndEnter(tail: string, word: string)
    ensures Quoted("'\\''" + tail, word) == Quoted(tail, word + "'")
  {
    var outside, entering := "\\''" + tail, "'" + tail;
    assert ("'\\''" + tail)[1..] == outside && outside[2..] == entering && entering[1..] == tail;
    assert Quoted("'\\''" + tail, word) == Words(outside, Some(word));
    assert Words(outside, Some(word)) == Words(entering, Some(word + "'"));
    assert Words(entering, Some(word + "'")) == Quoted(tail, word + "'");
  }

  lemma {:induction false} PlainIsLiteral(value: string, rest: string, word: Option<string>)
    requires value != "" && forall i :: 0 <= i < |value| ==> IsWord(value[i])
    ensures Words(value + rest, word) == Words(rest, Some(SoFar(word) + value))
    decreases |value|
  {
    assert IsPlain(value[0]) && value[0] != '\\' && value[0] != '\'';
    assert (value + rest)[1..] == value[1..] + rest;
    if |value| == 1 {
      assert value[1..] + rest == rest;
      assert SoFar(word) + [value[0]] == SoFar(word) + value;
    } else {
      PlainIsLiteral(value[1..], rest, Some(SoFar(word) + [value[0]]));
      assert SoFar(word) + [value[0]] + value[1..] == SoFar(word) + value;
    }
  }

  /** A quoted value is read back as one word, whatever its characters. */
  lemma QuoteIsOneWord(value: string, rest: string)
    ensures Words(ShellQuote(value) + rest, None) == Words(rest, Some(value))
  {
    hide Words, Escaped;
    assert "" + value == value;
    if value == "" {
      QuotesOpen("'" + rest);
      QuotesClose(rest, "");
      assert "''" + rest == "'" + ("'" + rest);
    } else if forall i :: 0 <= i < |value| ==> IsWord(value[i]) {
      PlainIsLiteral(value, rest, None);
    } else {
      var inside := Escaped(value) + ("'" + rest);
      assert ShellQuote(value) + rest == "'" + inside;
      QuotesOpen(inside);
      EscapedIsLiteral(value, rest, "");
    }
  }

  lemma QuotesOpen(inside: string)
    ensures Words("'" + inside, None) == Quoted(inside, "")
  {
    assert ("'" + inside)[1..] == inside;
  }

  /** Splitting undoes joining, for every list of strings. */
  lemma {:induction false} SplitOfJoin(parts: seq<string>)
    ensures SplitCommand(ShellJoin(parts)) == Some(parts)
    decreases |parts|
  {
    if parts == [] {
    } else if |parts| == 1 {
      assert ShellQuote(parts[0]) + "" == ShellQuote(parts[0]);
      QuoteIsOneWord(parts[0], "");
      assert Words("", Some(parts[0])) == Some([parts[0]]) && parts == [parts[0]];
    } else {
      var rest := " " + ShellJoin(parts[1..]);
      assert ShellJoin(parts) == ShellQuote(parts[0]) + rest;
      QuoteIsOneWord(parts[0], rest);
      assert rest[1..] == ShellJoin(parts[1..]);
      SplitOfJoin(parts[1..]);
      assert parts == [parts[0]] + parts[1..];
    }
  }

  // Building the command line.

  datatype SshConfig = SshConfig(
    destination: Option<string>,
    via: seq<string>,
    options: seq<string>,
    localHost: Option<string>,
    localPort: Option<nat>,
    remoteSocket: Option<string>,
    sudoUser: Option<string>)

  datatype SshSettings = SshSettings(
    destination: string,
    via: seq<string>,
    options: seq<string>,
    remoteSocket: Option<string>,
    sudoUser: Option<string>)

  datatype SettingsError = DestinationMissing | BadDestination | BadHop | LocalPortRemoved

  /** The characters of the Unicode White_Space property. */
  predicate IsWhitespace(c: char) {
    var n := c as int;
    9 <= n <= 13 || n in {0x20, 0x85, 0xA0, 0x1680} || 0x2000 <= n <= 0x200A || n in {0x2028, 0x2029, 0x202F, 0x205F, 0x3000}
  }

  function TrimStart(s: string): (r: string)
    ensures r != "" ==> !IsWhitespace(r[0])
    ensures s != "" && !IsWhitespace(s[0]) ==> r == s
  {
    if s != "" && IsWhitespace(s[0]) then TrimStart(s[1..]) else s
  }

  function TrimEnd(s: string): (r: string)
    ensures r <= s
  {
    if s != "" && IsWhitespace(s[|s| - 1]) then TrimEnd(s[..|s| - 1]) else s
  }

  function Trim(s: string): string {
    TrimEnd(TrimStart(s))
  }

  predicate IsHostArgument(value: string) {
    var trimmed := Trim(value);
    trimmed != "" && trimmed[0] != '-'
  }

  function Trimmed(hops: seq<string>): (r: seq<string>)
    ensures |r| == |hops| && forall i :: 0 <= i < |hops| ==> r[i] == Trim(hops[i])
  {
    seq(|hops|, i requires 0 <= i < |hops| => Trim(hops[i]))
  }

  predicate HasTransportFields(cfg: SshConfig) {
    cfg.destination.Some? || cfg.via != [] || cfg.options != [] || cfg.localHost.Some? || cfg.localPort.Some?
    || cfg.remoteSocket.Some? || cfg.sudoUser.Some?
  }

  function ResolveSettings(cfg: SshConfig): Result<Option<SshSettings>, SettingsError> {
    if cfg.destination.None? then
      if HasTransportFields(cfg) then Err(DestinationMissing) else Ok(None)
    else if !IsHostArgument(cfg.destination.value) then Err(BadDestination)
    else if exists i :: 0 <= i < |cfg.via| && !IsHostArgument(cfg.via[i]) then Err(BadHop)
    else if cfg.localHost.Some? || cfg.localPort.Some? then Err(LocalPortRemoved)
    else Ok(Some(SshSettings(cfg.destination.value, Trimmed(cfg.via), cfg.options, cfg.remoteSocket, cfg.sudoUser)))
  }

  /** `t` is what is left of `s` without the whitespace around it. */
  ghost predicate IsTrimmed(s: string, t: string) {
    && (t != "" ==> !IsWhitespace(t[0]) && !IsWhitespace(t[|t| - 1]))
    && exists before, after :: AllWhitespace(before) && AllWhitespace(after) && s == before + t + after
  }

  predicate AllWhitespace(s: string) {
    forall i :: 0 <= i < |s| ==> IsWhitespace(s[i])
  }

  lemma {:induction false} TrimStartIs(s: string) returns (before: string)
    ensures AllWhitespace(before) && s == before + TrimStart(s)
  {
    before := "";
    if s != "" && IsWhitespace(s[0]) {
      before := TrimStartIs(s[1..]);
      before := [s[0]] + before;
    }
  }

  lemma {:induction false} TrimEndIs(s: string) returns (after: string)
    ensures AllWhitespace(after) && s == TrimEnd(s) + after
    ensures TrimEnd(s) != "" ==> !IsWhitespace(TrimEnd(s)[|TrimEnd(s)| - 1])
  {
    after := "";
    if s != "" && IsWhitespace(s[|s| - 1]) {
      after := TrimEndIs(s[..|s| - 1]);
      after := after + [s[|s| - 1]];
    }
  }

  lemma TrimIsTrimmed(s: string)
    ensures IsTrimmed(s, Trim(s))
  {
    hide IsWhitespace;
    var before := TrimStartIs(s);
    var after := TrimEndIs(TrimStart(s));
    assert s == before + Trim(s) + after;
    assert Trim(s) != "" ==> Trim(s)[0] == TrimStart(s)[0];
  }

  /** `ssh` could take the value for a host: something is in it, and that does not begin with a dash. */
  ghost predicate NamesHost(value: string) {
    exists i :: 0 <= i < |value| && AllWhitespace(value[..i]) && !IsWhitespace(value[i]) && value[i] != '-'
  }

  lemma HostsAreNamed(value: string)
    ensures IsHostArgument(value) <==> NamesHost(value)
  {
    hide IsWhitespace;
    var before := TrimStartIs(value);
    var rest := TrimStart(value);
    FirstCharacter(value, before, rest);
    if rest != "" {
      var after := TrimEndIs(rest);
      StartIsKept(rest, after);
    }
    hide NamesHost, TrimStart, TrimEnd;
  }

  /** A value that is not all whitespace keeps its first character when its end is trimmed. */
  lemma StartIsKept(rest: string, after: string)
    requires rest != "" && !IsWhitespace(rest[0]) && AllWhitespace(after) && rest == TrimEnd(rest) + after
    ensures TrimEnd(rest) != "" && TrimEnd(rest)[0] == rest[0]
  {
    hide IsWhitespace, TrimEnd;
  }

  lemma FirstCharacter(value: string, before: string, rest: string)
    requires AllWhitespace(before) && value == before + rest && (rest != "" ==> !IsWhitespace(rest[0]))
    ensures NamesHost(value) <==> rest != "" && rest[0] != '-'
  {
    hide IsWhitespace;
    assert value[..|before|] == before;
    if rest != "" && rest[0] != '-' {
      assert value[|before|] == rest[0];
    }
    if NamesHost(value) {
      var i :| 0 <= i < |value| && AllWhitespace(value[..i]) && !IsWhitespace(value[i]) && value[i] != '-';
      FirstIsAt(value, before, rest, i);
    }
  }

  lemma FirstIsAt(value: string, before: string, rest: string, i: nat)
    requires AllWhitespace(before) && value == before + rest && (rest != "" ==> !IsWhitespace(rest[0]))
    requires i < |value| && AllWhitespace(value[..i]) && !IsWhitespace(value[i])
    ensures i == |before| && rest != "" && rest[0] == value[i]
  {
    hide IsWhitespace;
    assert forall k :: 0 <= k < |before| ==> IsWhitespace(before[k]) && value[k] == before[k];
    assert forall k :: 0 <= k < i ==> IsWhitespace(value[..i][k]) && value[k] == value[..i][k];
    assert rest != "" ==> value[|before|] == rest[0];
  }

  /**
   What a session's SSH fields come to. Without a destination there are no settings, and no other field
   may be set; with one, it and every hop must name a host, and no local address may be asked for. The
   settings are then the fields themselves, with whitespace around hops taken off.
   */
  lemma SettingsResolveIff(cfg: SshConfig)
    ensures var r := ResolveSettings(cfg);
            var others := cfg.via != [] || cfg.options != [] || cfg.localHost.Some? || cfg.localPort.Some? || cfg.remoteSocket.Some? || cfg.sudoUser.Some?;
            && (r == Ok(None) <==> cfg.destination.None? && !others)
            && (r == Err(DestinationMissing) <==> cfg.destination.None? && others)
            && (r == Err(BadDestination) <==> cfg.destination.Some? && !NamesHost(cfg.destination.value))
            && (r == Err(BadHop) <==>
                  && cfg.destination.Some? && NamesHost(cfg.destination.value)
                  && exists i :: 0 <= i < |cfg.via| && !NamesHost(cfg.via[i]))
            && (r == Err(LocalPortRemoved) <==>
                  && cfg.destination.Some? && NamesHost(cfg.destination.value)
                  && (forall i :: 0 <= i < |cfg.via| ==> NamesHost(cfg.via[i]))
                  && (cfg.localHost.Some? || cfg.localPort.Some?))
            && (r.Ok? && r.value.Some? ==>
                  var settings := r.value.value;
                  && Some(settings.destination) == cfg.destination && settings.options == cfg.options
                  && settings.remoteSocket == cfg.remoteSocket && settings.sudoUser == cfg.sudoUser
                  && |settings.via| == |cfg.via| && forall i :: 0 <= i < |cfg.via| ==> IsTrimmed(cfg.via[i], settings.via[i]))
  {
    if cfg.destination.Some? { HostsAreNamed(cfg.destination.value); }
    forall i | 0 <= i < |cfg.via| ensures IsTrimmed(cfg.via[i], Trim(cfg.via[i])) && (IsHostArgument(cfg.via[i]) <==> NamesHost(cfg.via[i])) {
      TrimIsTrimmed(cfg.via[i]);
      HostsAreNamed(cfg.via[i]);
    }
    hide IsTrimmed, NamesHost, IsHostArgument, Trim;
  }

  /** What `ssh` takes as a host or as the start of a command, and not as an option. */
  predicate Positional(arg: string) {
    arg != "" && arg[0] != '-'
  }

  function Chain(settings: SshSettings): seq<string> {
    settings.via + [settings.destination]
  }

  lemma TrimKeepsHosts(value: string)
    requires IsHostArgument(value)
    ensures Positional(value) && Positional(Trim(value))
  {
    assert value != "" && !IsWhitespace(value[0]) ==> Trim(value)[0] == value[0];
  }

  /** Settings that resolve name a chain of hosts, none of which `ssh` can mistake for an option. */
  lemma ResolvedChainIsPositional(cfg: SshConfig)
    requires ResolveSettings(cfg).Ok? && ResolveSettings(cfg).value.Some?
    ensures var chain := Chain(ResolveSettings(cfg).value.value);
            |chain| == |cfg.via| + 1 && forall i :: 0 <= i < |chain| ==> Positional(chain[i])
  {
    TrimKeepsHosts(cfg.destination.value);
    forall i | 0 <= i < |cfg.via| ensures Positional(Trim(cfg.via[i])) { TrimKeepsHosts(cfg.via[i]); }
  }

  const REMOTE_OPTIONS: seq<string> := ["-T", "-o", "BatchMode=yes", "-o", "ExitOnForwardFailure=yes", "-o", "ConnectTimeout=10"]

  function RemoteArgs(destination: string, command: string): seq<string> {
    ["ssh"] + REMOTE_OPTIONS + [destination, command]
  }

  function RemoteSshCommand(destination: string, command: string): string {
    ShellJoin(RemoteArgs(destination, command))
  }

  function OptionArgs(options: seq<string>): seq<string> {
    if options == [] then [] else OptionArgs(options[..|options| - 1]) + ["-o", options[|options| - 1]]
  }

  function BaseSshArgs(settings: SshSettings): seq<string> {
    ["-T", "-o", "BatchMode=yes", "-o", "ExitOnForwardFailure=yes"] + OptionArgs(settings.options)
  }

  /** What `ssh` is told by its `-o` arguments, up to the first argument that is no option. */
  function OptionsRead(args: seq<string>): seq<string> {
    if args != [] && args[0] == "-T" then OptionsRead(args[1..])
    else if |args| >= 2 && args[0] == "-o" then [args[1]] + OptionsRead(args[2..])
    else []
  }

  lemma {:induction false} OptionsAreRead(options: seq<string>, rest: seq<string>)
    requires rest == [] || Positional(rest[0])
    ensures OptionsRead(OptionArgs(options) + rest) == options
    decreases |options|
  {
    OptionsFollow(options, rest);
    assert OptionsRead(rest) == [];
  }

  lemma {:induction false} OptionsFollow(options: seq<string>, rest: seq<string>)
    ensures OptionsRead(OptionArgs(options) + rest) == options + OptionsRead(rest)
    decreases |options|
  {
    if options == [] {
      assert OptionArgs(options) + rest == rest;
    } else {
      var before, last := options[..|options| - 1], options[|options| - 1];
      var tail := ["-o", last] + rest;
      assert OptionArgs(options) + rest == OptionArgs(before) + tail;
      OptionsFollow(before, tail);
      assert tail[2..] == rest;
    }
  }

  lemma FixedOptionsAreRead(a: string, b: string, rest: seq<string>)
    ensures OptionsRead(["-T", "-o", a, "-o", b] + rest) == [a, b] + OptionsRead(rest)
  {
    var args := ["-T", "-o", a, "-o", b] + rest;
    var fromFirst, fromSecond := ["-o", a, "-o", b] + rest, ["-o", b] + rest;
    assert args[1..] == fromFirst && fromFirst[2..] == fromSecond && fromSecond[2..] == rest;
    assert args[0] == "-T" && OptionsRead(args) == OptionsRead(fromFirst);
    assert OptionsRead(fromFirst) == [a] + OptionsRead(fromSecond) && OptionsRead(fromSecond) == [b] + OptionsRead(rest);
  }

  /** On the way, each `ssh` is given those two options and a limit to how long it may take to connect, and nothing else. */
  lemma RemoteOptionsArrive(destination: string, command: string)
    requires Positional(destination)
    ensures RemoteArgs(destination, command)[0] == "ssh" && RemoteArgs(destination, command)[1] == "-T"
    ensures OptionsRead(RemoteArgs(destination, command)[1..]) == ["BatchMode=yes", "ExitOnForwardFailure=yes", "ConnectTimeout=10"]
  {
    var timeout := ["-o", "ConnectTimeout=10"] + [destination, command];
    assert RemoteArgs(destination, command)[1..] == ["-T", "-o", "BatchMode=yes", "-o", "ExitOnForwardFailure=yes"] + timeout;
    FixedOptionsAreRead("BatchMode=yes", "ExitOnForwardFailure=yes", timeout);
    assert timeout[2..] == [destination, command];
  }

  /** `ssh` is given the two options that keep it from waiting, and then each configured one, in order. */
  lemma ConfiguredOptionsArrive(settings: SshSettings, rest: seq<string>)
    requires rest == [] || Positional(rest[0])
    ensures OptionsRead(BaseSshArgs(settings) + rest) == ["BatchMode=yes", "ExitOnForwardFailure=yes"] + settings.options
  {
    hide OptionsRead, OptionArgs;
    var fixed, more := ["-T", "-o", "BatchMode=yes", "-o", "ExitOnForwardFailure=yes"], OptionArgs(settings.options) + rest;
    assert BaseSshArgs(settings) + rest == fixed + more;
    FixedOptionsAreRead("BatchMode=yes", "ExitOnForwardFailure=yes", more);
    OptionsAreRead(settings.options, rest);
  }

  method BuildBaseSshArgs(settings: SshSettings) returns (args: seq<string>)
    ensures args == BaseSshArgs(settings)
    ensures OptionsRead(args) == ["BatchMode=yes", "ExitOnForwardFailure=yes"] + settings.options
  {
    ConfiguredOptionsArrive(settings, []);
    assert BaseSshArgs(settings) + [] == BaseSshArgs(settings);
    args := ["-T", "-o", "BatchMode=yes", "-o", "ExitOnForwardFailure=yes"];
    ghost var base := args;
    for i := 0 to |settings.options|
      invariant args == base + OptionArgs(settings.options[..i])
    {
      assert settings.options[..i + 1][..i] == settings.options[..i];
      args := args + ["-o", settings.options[i]];
    }
    assert settings.options[..|settings.options|] == settings.options;
  }

  /** The command for the first host of a chain that makes it pass `command` on along the others. */
  function Wrapped(hops: seq<string>, command: string): string {
    if hops == [] then command else RemoteSshCommand(hops[0], Wrapped(hops[1..], command))
  }

  function BridgeArgs(settings: SshSettings, command: string): seq<string> {
    BaseSshArgs(settings) + [Chain(settings)[0], Wrapped(Chain(settings)[1..], command)]
  }

  /** The command is wrapped for the last hop first and for the second hop last. */
  method BuildBridgeSshArgs(settings: SshSettings, finalCommand: string) returns (args: seq<string>)
    ensures args == BridgeArgs(settings, finalCommand)
  {
    args := BuildBaseSshArgs(settings);
    var chain := settings.via + [settings.destination];
    var command, i := finalCommand, |chain|;
    while i > 1
      invariant 1 <= i <= |chain|
      invariant command == Wrapped(chain[i..], finalCommand)
    {
      i := i - 1;
      assert chain[i..][0] == chain[i] && chain[i..][1..] == chain[i + 1..];
      command := RemoteSshCommand(chain[i], command);
    }
    args := args + [chain[0]] + [command];
  }

  // What happens to the command line on its way.

  datatype SshCall = SshCall(destination: string, command: string)

  /**
   How `ssh` reads its arguments: options, wherever they stand, and then a destination and a command.
   There is no answer for an option this program does not use.
   */
  function ParseSsh(args: seq<string>): Option<SshCall>
    decreases |args|
  {
    if args == [] then None
    else if args[0] == "-T" then ParseSsh(args[1..])
    else if args[0] == "-o" then if |args| >= 2 then ParseSsh(args[2..]) else None
    else if |args| == 2 && Positional(args[0]) && Positional(args[1]) then Some(SshCall(args[0], args[1]))
    else None
  }

  /**
   Follow a call through `n` more hosts: each host's shell splits the command it is given, and runs
   the `ssh` it finds. The answer is the hosts passed and the command that arrives at the last one.
   */
  function Travel(args: seq<string>, n: nat): Option<(seq<string>, string)>
    decreases n
  {
    match ParseSsh(args)
    case None => None
    case Some(call) =>
      if n == 0 then Some(([call.destination], call.command))
      else
        match SplitCommand(call.command)
        case None => None
        case Some(words) =>
          if words == [] || words[0] != "ssh" then None
          else
            match Travel(words[1..], n - 1)
            case None => None
            case Some((hosts, command)) => Some(([call.destination] + hosts, command))
  }

  lemma {:induction false} ParseSkipsOptions(options: seq<string>, rest: seq<string>)
    ensures ParseSsh(OptionArgs(options) + rest) == ParseSsh(rest)
    decreases |options|
  {
    if options == [] {
      assert OptionArgs(options) + rest == rest;
    } else {
      var before, last := options[..|options| - 1], options[|options| - 1];
      var tail := ["-o", last] + rest;
      assert OptionArgs(options) + rest == OptionArgs(before) + tail;
      ParseSkipsOptions(before, tail);
      assert tail[2..] == rest;
    }
  }

  lemma ParseFixed(a: string, b: string, rest: seq<string>)
    ensures ParseSsh(["-T", "-o", a, "-o", b] + rest) == ParseSsh(rest)
  {
    var args := ["-T", "-o", a, "-o", b] + rest;
    var fromFirst, fromSecond := ["-o", a, "-o", b] + rest, ["-o", b] + rest;
    assert args[1..] == fromFirst && fromFirst[2..] == fromSecond && fromSecond[2..] == rest;
    assert args[0] == "-T" && ParseSsh(args) == ParseSsh(fromFirst);
    assert fromFirst[0] == "-o" && fromFirst[0] != "-T" && ParseSsh(fromFirst) == ParseSsh(fromSecond);
  }

  lemma ParseRemoteArgs(destination: string, command: string)
    requires Positional(destination) && Positional(command)
    ensures ParseSsh(RemoteArgs(destination, command)[1..]) == Some(SshCall(destination, command))
  {
    var rest := [destination, command];
    var timeout := ["-o", "ConnectTimeout=10"] + rest;
    assert RemoteArgs(destination, command)[1..] == ["-T", "-o", "BatchMode=yes", "-o", "ExitOnForwardFailure=yes"] + timeout;
    ParseFixed("BatchMode=yes", "ExitOnForwardFailure=yes", timeout);
    assert timeout[2..] == rest;
  }

  lemma WrappedIsPositional(hops: seq<string>, command: string)
    requires Positional(command)
    ensures Positional(Wrapped(hops, command))
  {
    if hops != [] {
      var args := RemoteArgs(hops[0], Wrapped(hops[1..], command));
      assert args[0] == "ssh" && |args| > 1;
      assert ShellQuote("ssh") == "ssh";
    }
  }

  lemma RemoteArgsStart(destination: string, command: string)
    ensures RemoteArgs(destination, command) != [] && RemoteArgs(destination, command)[0] == "ssh"
  {
  }

  lemma {:induction false} WrappedTravels(first: string, hops: seq<string>, command: string, args: seq<string>)
    requires ParseSsh(args) == Some(SshCall(first, Wrapped(hops, command)))
    requires Positional(command) && forall i :: 0 <= i < |hops| ==> Positional(hops[i])
    ensures Travel(args, |hops|) == Some(([first] + hops, command))
    decreases |hops|
  {
    if hops == [] {
      assert [first] + hops == [first];
    } else {
      hide Words, ShellQuote, ShellJoin, ParseSsh, RemoteArgs, Positional;
      var inner := Wrapped(hops[1..], command);
      var words := RemoteArgs(hops[0], inner);
      SplitOfJoin(words);
      WrappedIsPositional(hops[1..], command);
      ParseRemoteArgs(hops[0], inner);
      RemoteArgsStart(hops[0], inner);
      WrappedTravels(hops[0], hops[1..], command, words[1..]);
      assert [first] + ([hops[0]] + hops[1..]) == [first] + hops;
    }
  }

  /**
   Every configured chain and every command: `ssh` passes each hop in order, from the first to the
   destination, and the command arrives there as it was, character for character.
   */
  lemma CommandArrivesUnchanged(cfg: SshConfig, command: string)
    requires ResolveSettings(cfg).Ok? && ResolveSettings(cfg).value.Some? && Positional(command)
    ensures var settings := ResolveSettings(cfg).value.value;
            Travel(BridgeArgs(settings, command), |settings.via|) == Some((Chain(settings), command))
  {
    ResolvedChainIsPositional(cfg);
    var settings := ResolveSettings(cfg).value.value;
    var chain := Chain(settings);
    var last := [chain[0], Wrapped(chain[1..], command)];
    assert BridgeArgs(settings, command)
        == ["-T", "-o", "BatchMode=yes", "-o", "ExitOnForwardFailure=yes"] + (OptionArgs(settings.options) + last);
    ParseFixed("BatchMode=yes", "ExitOnForwardFailure=yes", OptionArgs(settings.options) + last);
    ParseSkipsOptions(settings.options, last);
    WrappedIsPositional(chain[1..], command);
    WrappedTravels(chain[0], chain[1..], command, BridgeArgs(settings, command));
    assert [chain[0]] + chain[1..] == chain;
  }

  /** The last argument of a command line, split again and again. */
  function Peeled(args: seq<string>, n: nat): Option<seq<seq<string>>>
    decreases n
  {
    if n == 0 then Some([args])
    else if args == [] then None
    else
      match SplitCommand(args[|args| - 1])
      case None => None
      case Some(words) =>
        match Peeled(words, n - 1)
        case None => None
        case Some(layers) => Some([args] + layers)
  }

  /** The quoting alone, for all strings: each layer is the `ssh` call for its hop, down to the command itself. */
  lemma {:induction false} LayersComeOff(hops: seq<string>, command: string, args: seq<string>)
    requires args != [] && args[|args| - 1] == Wrapped(hops, command)
    ensures var layers := Peeled(args, |hops|);
            && layers.Some? && |layers.value| == |hops| + 1
            && layers.value[0] == args
            && (forall i :: 0 <= i < |hops| ==> layers.value[i + 1] == RemoteArgs(hops[i], Wrapped(hops[i + 1..], command)))
    decreases |hops|
  {
    if hops != [] {
      var words := RemoteArgs(hops[0], Wrapped(hops[1..], command));
      SplitOfJoin(words);
      assert words[|words| - 1] == Wrapped(hops[1..], command);
      LayersComeOff(hops[1..], command, words);
      forall i | 0 <= i < |hops| - 1 ensures hops[1..][i + 1..] == hops[i + 2..] && hops[1..][i] == hops[i + 1] {}
    }
  }

  /** At the destination, `launcher` is run by a shell of the other user's if one was asked for. */
  function FinalCommand(settings: SshSettings, launcher: string): string {
    match settings.sudoUser
    case None => launcher
    case Some(user) => ShellJoin(["sudo", "-n", "-u", user, "sh", "-c", launcher])
  }

  /** The launcher survives that layer too. */
  lemma LauncherArrivesUnchanged(cfg: SshConfig, launcher: string)
    requires ResolveSettings(cfg).Ok? && ResolveSettings(cfg).value.Some? && Positional(launcher)
    ensures var settings := ResolveSettings(cfg).value.value;
            var arrived := Travel(BridgeArgs(settings, FinalCommand(settings, launcher)), |settings.via|);
            && arrived.Some? && arrived.value.0 == Chain(settings)
            && match settings.sudoUser
               case None => arrived.value.1 == launcher
               case Some(user) => SplitCommand(arrived.value.1) == Some(["sudo", "-n", "-u", user, "sh", "-c", launcher])
  {
    var settings := ResolveSettings(cfg).value.value;
    if settings.sudoUser.Some? {
      var words := ["sudo", "-n", "-u", settings.sudoUser.value, "sh", "-c", launcher];
      assert ShellQuote("sudo") == "sudo";
      SplitOfJoin(words);
    }
    CommandArrivesUnchanged(cfg, FinalCommand(settings, launcher));
  }
}
