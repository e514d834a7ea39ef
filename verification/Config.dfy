/**
 The runtime configuration: patching it, finding the sessions a patch affects, and resolving what a
 query may do under it. A session's configuration is the map of its fields that are set; every
 field is patched the same way: absent leaves it, null or an empty list clears it, a value sets it.
 */
module Config {
  import opened Wrappers

  /** Session names and query ids are only compared and ordered, so they are numbered here in their byte order. */
  type Name = nat

  const DEFAULT_SESSION: Name := 0

  /** A field's value; some fields are lists, and those that are not set are empty lists. */
  datatype FieldValue = One(text: string) | Many(items: seq<string>)

  type SessionConfig = map<string, FieldValue>

  type SessionPatch = map<string, Option<FieldValue>>

  datatype Limits = Limits(inlineMaxRows: nat, inlineMaxBytes: nat, statementTimeoutMs: nat, lockTimeoutMs: nat)

  datatype RuntimeConfig = RuntimeConfig(
    defaultSession: Name,
    sessions: map<Name, SessionConfig>,
    limits: Limits,
    log: seq<string>)

  datatype ConfigPatch = ConfigPatch(
    defaultSession: Option<Name>,
    sessions: Option<map<Name, SessionPatch>>,
    inlineMaxRows: Option<nat>,
    inlineMaxBytes: Option<nat>,
    statementTimeoutMs: Option<nat>,
    lockTimeoutMs: Option<nat>,
    log: Option<seq<string>>)

  const DEFAULT := RuntimeConfig(DEFAULT_SESSION, map[DEFAULT_SESSION := map[]], Limits(1000, 1_048_576, 30_000, 5_000), [])

  function GetOr<T>(o: Option<T>, default: T): T {
    if o.Some? then o.value else default
  }

  function SessionOf(cfg: RuntimeConfig, name: Name): Option<SessionConfig> {
    if name in cfg.sessions then Some(cfg.sessions[name]) else None
  }

  predicate Sets(v: Option<FieldValue>) {
    v.Some? && v.value != Many([])
  }

  function Patched(s: SessionConfig, patch: SessionPatch): SessionConfig {
    map f | f in s.Keys + patch.Keys && (f in patch ==> Sets(patch[f])) ::
      if f in patch then patch[f].value else s[f]
  }

  function SessionPatches(patch: ConfigPatch): map<Name, SessionPatch> {
    GetOr(patch.sessions, map[])
  }

  function PatchedAt(sessions: map<Name, SessionConfig>, patches: map<Name, SessionPatch>, n: Name): SessionConfig {
    Patched(if n in sessions then sessions[n] else map[], if n in patches then patches[n] else map[])
  }

  function PatchedSessions(sessions: map<Name, SessionConfig>, patches: map<Name, SessionPatch>): map<Name, SessionConfig> {
    map n | n in sessions.Keys + patches.Keys :: PatchedAt(sessions, patches, n)
  }

  function UpdatedLimits(limits: Limits, patch: ConfigPatch): Limits {
    Limits(
      GetOr(patch.inlineMaxRows, limits.inlineMaxRows),
      GetOr(patch.inlineMaxBytes, limits.inlineMaxBytes),
      GetOr(patch.statementTimeoutMs, limits.statementTimeoutMs),
      GetOr(patch.lockTimeoutMs, limits.lockTimeoutMs))
  }

  /** The configuration a patch asks for; a default session that does not exist yet is created empty. */
  function Updated(cfg: RuntimeConfig, patch: ConfigPatch): RuntimeConfig {
    var default := GetOr(patch.defaultSession, cfg.defaultSession);
    var sessions := PatchedSessions(cfg.sessions, SessionPatches(patch));
    RuntimeConfig(
      default,
      if default in sessions then sessions else sessions[default := map[]],
      UpdatedLimits(cfg.limits, patch),
      GetOr(patch.log, cfg.log))
  }

  lemma PatchedByNothing(s: SessionConfig)
    ensures Patched(s, map[]) == s
  {
  }

  lemma PatchedByOneMore(entry: SessionConfig, patch: SessionPatch, f: string)
    requires f in patch
    ensures Patched(entry, patch) ==
              if Sets(patch[f]) then Patched(entry, patch - {f})[f := patch[f].value] else Patched(entry, patch - {f}) - {f}
  {
  }

  method ApplySessionPatch(entry: SessionConfig, patch: SessionPatch) returns (r: SessionConfig)
    ensures r == Patched(entry, patch)
    ensures forall f :: TakesField(r, patch, entry, f)
  {
    r := entry;
    var fields := patch.Keys;
    assert patch - fields == map[];
    PatchedByNothing(entry);
    while fields != {}
      invariant fields <= patch.Keys
      invariant r == Patched(entry, patch - fields)
      decreases fields
    {
      hide Patched;
      var f :| f in fields;
      assert (patch - (fields - {f})) - {f} == patch - fields;
      PatchedByOneMore(entry, patch - (fields - {f}), f);
      if patch[f].Some? && patch[f].value != Many([]) {
        r := r[f := patch[f].value];
      } else {
        r := r - {f};
      }
      fields := fields - {f};
    }
    assert patch - {} == patch;
    forall f ensures TakesField(r, patch, entry, f) { FieldIsPatched(entry, patch, f); }
  }

  lemma PatchedOneMoreSession(sessions: map<Name, SessionConfig>, patches: map<Name, SessionPatch>, n: Name)
    requires n in patches
    ensures var before := PatchedSessions(sessions, patches - {n});
            PatchedSessions(sessions, patches) == before[n := Patched(if n in before then before[n] else map[], patches[n])]
  {
    hide Patched;
    if n in sessions { PatchedByNothing(sessions[n]); }
  }

  /** One session at a time, in whatever order the patch lists them. */
  method ApplySessionPatches(sessions: map<Name, SessionConfig>, patches: map<Name, SessionPatch>)
      returns (r: map<Name, SessionConfig>)
    ensures r == PatchedSessions(sessions, patches)
  {
    r := sessions;
    var names := patches.Keys;
    assert patches - names == map[];
    UnpatchedSessions(sessions);
    while names != {}
      invariant names <= patches.Keys
      invariant r == PatchedSessions(sessions, patches - names)
      decreases names
    {
      hide PatchedSessions, Patched;
      var n :| n in names;
      assert (patches - (names - {n})) - {n} == patches - names;
      PatchedOneMoreSession(sessions, patches - (names - {n}), n);
      var entry := if n in r then r[n] else map[];
      entry := ApplySessionPatch(entry, patches[n]);
      r := r[n := entry];
      names := names - {n};
    }
    assert patches - {} == patches;
  }

  method ApplyLimits(limits: Limits, patch: ConfigPatch) returns (r: Limits)
    ensures r == UpdatedLimits(limits, patch)
  {
    r := limits;
    if patch.inlineMaxRows.Some? { r := r.(inlineMaxRows := patch.inlineMaxRows.value); }
    if patch.inlineMaxBytes.Some? { r := r.(inlineMaxBytes := patch.inlineMaxBytes.value); }
    if patch.statementTimeoutMs.Some? { r := r.(statementTimeoutMs := patch.statementTimeoutMs.value); }
    if patch.lockTimeoutMs.Some? { r := r.(lockTimeoutMs := patch.lockTimeoutMs.value); }
  }

  /** The value a setting has after a patch: the one the patch carries, or the one it had. */
  ghost predicate Takes<T>(after: T, patched: Option<T>, before: T) {
    match patched
    case Some(v) => after == v
    case None => after == before
  }

  /** What a field of a session is set to, if it is; an empty list is no setting. */
  function FieldOf(s: SessionConfig, f: string): Option<FieldValue> {
    if f in s && s[f] != Many([]) then Some(s[f]) else None
  }

  /** A field after a patch of its session: absent leaves it, null or an empty list clears it, a value sets it. */
  ghost predicate TakesField(after: SessionConfig, patch: SessionPatch, before: SessionConfig, f: string) {
    if f !in patch then FieldOf(after, f) == FieldOf(before, f)
    else
      match patch[f]
      case None => FieldOf(after, f) == None
      case Some(Many(items)) => FieldOf(after, f) == if items == [] then None else Some(Many(items))
      case Some(One(text)) => FieldOf(after, f) == Some(One(text))
  }

  /** A session after a patch of the configuration; one that did not exist begins with no field set. */
  ghost predicate TakesSession(after: RuntimeConfig, patch: ConfigPatch, before: RuntimeConfig, n: Name) {
    var listed := patch.sessions.Some? && n in patch.sessions.value;
    var was := if n in before.sessions then before.sessions[n] else map[];
    && (n in after.sessions <==> n in before.sessions || listed || n == after.defaultSession)
    && (n in after.sessions && !listed ==> after.sessions[n] == was)
    && (n in after.sessions && listed ==> forall f :: TakesField(after.sessions[n], patch.sessions.value[n], was, f))
  }

  /** Each setting by itself takes what the patch says of it, whatever else the patch says. */
  lemma UpdateIsFieldwise(cfg: RuntimeConfig, patch: ConfigPatch)
    ensures var r := Updated(cfg, patch);
            && Takes(r.defaultSession, patch.defaultSession, cfg.defaultSession)
            && Takes(r.limits.inlineMaxRows, patch.inlineMaxRows, cfg.limits.inlineMaxRows)
            && Takes(r.limits.inlineMaxBytes, patch.inlineMaxBytes, cfg.limits.inlineMaxBytes)
            && Takes(r.limits.statementTimeoutMs, patch.statementTimeoutMs, cfg.limits.statementTimeoutMs)
            && Takes(r.limits.lockTimeoutMs, patch.lockTimeoutMs, cfg.limits.lockTimeoutMs)
            && Takes(r.log, patch.log, cfg.log)
    ensures forall n: Name :: TakesSession(Updated(cfg, patch), patch, cfg, n)
  {
    forall n: Name ensures TakesSession(Updated(cfg, patch), patch, cfg, n) {
      SessionIsPatched(cfg, patch, n);
    }
    hide Patched, PatchedSessions;
  }

  lemma SessionIsPatched(cfg: RuntimeConfig, patch: ConfigPatch, n: Name)
    ensures TakesSession(Updated(cfg, patch), patch, cfg, n)
  {
    if n in cfg.sessions { PatchedByNothing(cfg.sessions[n]); }
    var was, patches := if n in cfg.sessions then cfg.sessions[n] else map[], SessionPatches(patch);
    if n in patches {
      forall f ensures TakesField(Patched(was, patches[n]), patches[n], was, f) { FieldIsPatched(was, patches[n], f); }
    }
    hide Patched, TakesField;
  }

  lemma FieldIsPatched(s: SessionConfig, patch: SessionPatch, f: string)
    ensures TakesField(Patched(s, patch), patch, s, f)
  {
    if f in patch && patch[f].Some? {
      match patch[f].value {
        case One(_) =>
        case Many(_) =>
      }
    }
  }

  const NO_CHANGE := ConfigPatch(None, None, None, None, None, None, None)

  /** A patch that carries one setting leaves every other as it was. */
  lemma OneSettingAtATime(cfg: RuntimeConfig, n: nat, log: seq<string>)
    requires DefaultKnown(cfg)
    ensures Updated(cfg, NO_CHANGE) == cfg
    ensures Updated(cfg, NO_CHANGE.(inlineMaxRows := Some(n))) == cfg.(limits := cfg.limits.(inlineMaxRows := n))
    ensures Updated(cfg, NO_CHANGE.(inlineMaxBytes := Some(n))) == cfg.(limits := cfg.limits.(inlineMaxBytes := n))
    ensures Updated(cfg, NO_CHANGE.(statementTimeoutMs := Some(n))) == cfg.(limits := cfg.limits.(statementTimeoutMs := n))
    ensures Updated(cfg, NO_CHANGE.(lockTimeoutMs := Some(n))) == cfg.(limits := cfg.limits.(lockTimeoutMs := n))
    ensures Updated(cfg, NO_CHANGE.(log := Some(log))) == cfg.(log := log)
    ensures n in cfg.sessions ==> Updated(cfg, NO_CHANGE.(defaultSession := Some(n))) == cfg.(defaultSession := n)
    ensures n !in cfg.sessions ==>
              Updated(cfg, NO_CHANGE.(defaultSession := Some(n))) == cfg.(defaultSession := n, sessions := cfg.sessions[n := map[]])
  {
    UnpatchedSessions(cfg.sessions);
    hide PatchedSessions;
  }

  method ApplyUpdate(cfg: RuntimeConfig, patch: ConfigPatch) returns (r: RuntimeConfig)
    ensures r == Updated(cfg, patch)
    ensures Takes(r.defaultSession, patch.defaultSession, cfg.defaultSession) && Takes(r.log, patch.log, cfg.log)
    ensures Takes(r.limits.inlineMaxRows, patch.inlineMaxRows, cfg.limits.inlineMaxRows)
    ensures Takes(r.limits.inlineMaxBytes, patch.inlineMaxBytes, cfg.limits.inlineMaxBytes)
    ensures Takes(r.limits.statementTimeoutMs, patch.statementTimeoutMs, cfg.limits.statementTimeoutMs)
    ensures Takes(r.limits.lockTimeoutMs, patch.lockTimeoutMs, cfg.limits.lockTimeoutMs)
    ensures forall n: Name :: TakesSession(r, patch, cfg, n)
  {
    UpdateIsFieldwise(cfg, patch);
    hide PatchedSessions, UpdatedLimits, TakesSession, Takes;
    r := cfg;
    if patch.defaultSession.Some? { r := r.(defaultSession := patch.defaultSession.value); }
    var limits := ApplyLimits(cfg.limits, patch);
    r := r.(limits := limits);
    if patch.log.Some? { r := r.(log := patch.log.value); }
    if patch.sessions.Some? {
      var sessions := ApplySessionPatches(r.sessions, patch.sessions.value);
      r := r.(sessions := sessions);
    } else {
      UnpatchedSessions(cfg.sessions);
    }
    if r.defaultSession !in r.sessions {
      r := r.(sessions := r.sessions[r.defaultSession := map[]]);
    }
  }

  lemma UnpatchedSessions(sessions: map<Name, SessionConfig>)
    ensures PatchedSessions(sessions, map[]) == sessions
  {
    forall s: SessionConfig ensures Patched(s, map[]) == s { PatchedByNothing(s); }
  }

  predicate DefaultKnown(cfg: RuntimeConfig) {
    cfg.defaultSession in cfg.sessions
  }

  /** The configuration the pipe starts with; the command line may say what the default session is. */
  function Startup(session: Option<SessionConfig>, log: seq<string>): (cfg: RuntimeConfig)
    ensures DefaultKnown(cfg)
  {
    var cfg := if session.Some? then DEFAULT.(sessions := DEFAULT.sessions[DEFAULT.defaultSession := session.value]) else DEFAULT;
    cfg.(log := log)
  }

  /** It is the default one, with the limits the program comes with, unless the command line says otherwise. */
  lemma StartupTakesTheCommandLine(session: Option<SessionConfig>, log: seq<string>)
    ensures var cfg := Startup(session, log);
            && cfg.sessions.Keys == {DEFAULT_SESSION} && cfg.defaultSession == DEFAULT_SESSION
            && Takes(cfg.sessions[DEFAULT_SESSION], session, map[])
            && cfg.log == log && cfg.limits == Limits(1000, 1_048_576, 30_000, 5_000)
  {
  }

  /** The sessions a patch can touch: its new default and every session it lists. */
  function AffectedSessions(patch: ConfigPatch): set<Name> {
    (if patch.defaultSession.Some? then {patch.defaultSession.value} else {}) + SessionPatches(patch).Keys
  }

  /** Every session whose configuration the patch changes or creates is among the affected ones. */
  lemma AffectedCoversEveryChange(cfg: RuntimeConfig, patch: ConfigPatch, name: Name)
    requires DefaultKnown(cfg) && SessionOf(Updated(cfg, patch), name) != SessionOf(cfg, name)
    ensures name in AffectedSessions(patch)
  {
    if name in cfg.sessions {
      PatchedByNothing(cfg.sessions[name]);
    }
  }

  /** Whatever a patch says, the default session is a known session afterwards and no session is forgotten. */
  lemma DefaultStaysKnown(cfg: RuntimeConfig, patch: ConfigPatch)
    ensures DefaultKnown(Updated(cfg, patch))
    ensures cfg.sessions.Keys <= Updated(cfg, patch).sessions.Keys
  {
  }

  ghost predicate StrictlySorted(names: seq<Name>) {
    forall i, j :: 0 <= i < j < |names| ==> names[i] < names[j]
  }

  /** Put a name in its place in a strictly sorted list, once. */
  method Insert(names: seq<Name>, name: Name) returns (r: seq<Name>)
    requires StrictlySorted(names)
    ensures StrictlySorted(r)
    ensures forall n :: n in r <==> n in names || n == name
  {
    var i := 0;
    while i < |names| && names[i] < name
      invariant 0 <= i <= |names|
      invariant forall k :: 0 <= k < i ==> names[k] < name
    {
      i := i + 1;
    }
    if i < |names| && names[i] == name {
      return names;
    }
    r := names[..i] + [name] + names[i..];
    Inserted(names, name, i);
  }

  lemma Inserted(names: seq<Name>, name: Name, i: nat)
    requires StrictlySorted(names) && i <= |names|
    requires (forall k :: 0 <= k < i ==> names[k] < name) && (i < |names| ==> name < names[i])
    ensures var r := names[..i] + [name] + names[i..];
            StrictlySorted(r) && forall n :: n in r <==> n in names || n == name
  {
    var r := names[..i] + [name] + names[i..];
    InsertedAmong(names, name, i);
    forall j, k | 0 <= j < k < |r| ensures r[j] < r[k] {
      InsertedInOrder(names, name, i, j, k);
    }
  }

  lemma InsertedAmong(names: seq<Name>, name: Name, i: nat)
    requires i <= |names|
    ensures forall n :: n in names[..i] + [name] + names[i..] <==> n in names || n == name
  {
    assert names == names[..i] + names[i..];
  }

  lemma InsertedInOrder(names: seq<Name>, name: Name, i: nat, j: nat, k: nat)
    requires StrictlySorted(names) && i <= |names| && j < k <= |names|
    requires (forall k :: 0 <= k < i ==> names[k] < name) && (i < |names| ==> name < names[i])
    ensures var r := names[..i] + [name] + names[i..]; r[j] < r[k]
  {
    if k <= i { assert j < i; } else if j < i { assert names[j] < names[k - 1]; }
  }

  /** The affected sessions as a sorted list without repeats, so that each gets one reservation. */
  method SessionsToInvalidate(patch: ConfigPatch) returns (sessions: seq<Name>)
    ensures StrictlySorted(sessions)
    ensures forall n :: n in sessions <==> n in AffectedSessions(patch)
  {
    sessions := [];
    if patch.defaultSession.Some? {
      sessions := Insert(sessions, patch.defaultSession.value);
    }
    var names := SessionPatches(patch).Keys;
    while names != {}
      invariant names <= SessionPatches(patch).Keys
      invariant StrictlySorted(sessions)
      invariant forall n :: n in sessions <==> n in AffectedSessions(patch) && (patch.defaultSession == Some(n) || n !in names)
      decreases names
    {
      var n :| n in names;
      sessions := Insert(sessions, n);
      names := names - {n};
    }
  }

  datatype Permission = Read | Write | SshRead | SshWrite | ContainerRead | ContainerWrite {
    predicate IsReadOnly() { Read? || SshRead? || ContainerRead? }
    predicate AllowsSsh() { SshRead? || SshWrite? }
    predicate AllowsContainer() { ContainerRead? || ContainerWrite? }
  }

  datatype TransportKind = Direct | Ssh | Container

  const SSH_FIELDS := {"ssh", "ssh_via", "ssh_options", "ssh_local_host", "ssh_local_port", "ssh_remote_socket", "ssh_sudo_user"}

  const DRIVER_FAMILIES: seq<set<string>> := [
    {"docker_name", "docker_user", "docker_context", "docker_runtime"},
    {"apple_name", "apple_user", "apple_runtime"},
    {"podman_name", "podman_user", "podman_runtime"},
    {"nerdctl_name", "nerdctl_user", "nerdctl_runtime"},
    {"compose_service", "compose_user", "compose_files", "compose_project", "compose_runtime"},
    {"kubectl_pod", "kubectl_container", "kubectl_namespace", "kubectl_context", "kubectl_runtime"}]

  predicate Uses(s: SessionConfig, fields: set<string>) {
    exists f :: f in fields && f in s && s[f] != Many([])
  }

  /** How many container driver families a session names. */
  function DriversNamed(s: SessionConfig, families: seq<set<string>>): nat {
    if families == [] then 0 else (if Uses(s, families[0]) then 1 else 0) + DriversNamed(s, families[1..])
  }

  function Transport(s: SessionConfig): Result<TransportKind, ()> {
    var drivers := DriversNamed(s, DRIVER_FAMILIES);
    if drivers > 1 then Err(())
    else if drivers == 1 then Ok(Container)
    else if Uses(s, SSH_FIELDS) then Ok(Ssh)
    else Ok(Direct)
  }

  /** Whether a query may run on a session, and if so whether its permission is read-only. */
  function ResolveReadOnly(permission: Option<Permission>, s: SessionConfig): Result<bool, ()> {
    match Transport(s)
    case Err(_) => Err(())
    case Ok(transport) =>
      var resolved := GetOr(permission, match transport case Direct => Read case Ssh => SshRead case Container => ContainerRead);
      if transport == Direct && (resolved.AllowsSsh() || resolved.AllowsContainer()) then Err(())
      else if transport == Ssh && !resolved.AllowsSsh() then Err(())
      else if transport == Container && !resolved.AllowsContainer() then Err(())
      else Ok(resolved.IsReadOnly())
  }

  predicate TwoDrivers(s: SessionConfig) {
    exists i, j :: 0 <= i < j < |DRIVER_FAMILIES| && Uses(s, DRIVER_FAMILIES[i]) && Uses(s, DRIVER_FAMILIES[j])
  }

  predicate SomeDriver(s: SessionConfig) {
    exists i :: 0 <= i < |DRIVER_FAMILIES| && Uses(s, DRIVER_FAMILIES[i])
  }

  lemma {:induction false} DriversAreCounted(s: SessionConfig, families: seq<set<string>>)
    ensures DriversNamed(s, families) >= 1 <==> exists i :: 0 <= i < |families| && Uses(s, families[i])
    ensures DriversNamed(s, families) >= 2 <==> exists i, j :: 0 <= i < j < |families| && Uses(s, families[i]) && Uses(s, families[j])
  {
    hide Uses;
    if families != [] {
      var rest := families[1..];
      DriversAreCounted(s, rest);
      assert forall i :: 0 <= i < |rest| ==> rest[i] == families[i + 1];
      if DriversNamed(s, rest) >= 1 {
        var i :| 0 <= i < |rest| && Uses(s, rest[i]);
        assert Uses(s, families[i + 1]);
        if Uses(s, families[0]) { assert 0 < i + 1 < |families|; }
      }
      if DriversNamed(s, rest) >= 2 {
        var i, j :| 0 <= i < j < |rest| && Uses(s, rest[i]) && Uses(s, rest[j]);
        assert Uses(s, families[i + 1]) && Uses(s, families[j + 1]);
      }
      if i :| 0 <= i < |families| && Uses(s, families[i]) {
        assert i > 0 ==> Uses(s, rest[i - 1]);
      }
      if i, j :| 0 <= i < j < |families| && Uses(s, families[i]) && Uses(s, families[j]) {
        assert Uses(s, rest[j - 1]) && (i > 0 ==> Uses(s, rest[i - 1]));
      }
    }
  }

  /**
   A session that names two container drivers has no transport; one that names a driver goes through
   the container, over SSH or not; otherwise any SSH field makes it an SSH session.
   */
  lemma TransportIsTold(s: SessionConfig)
    ensures Transport(s).Err? <==> TwoDrivers(s)
    ensures Transport(s) == Ok(Container) <==> SomeDriver(s) && !TwoDrivers(s)
    ensures Transport(s) == Ok(Ssh) <==> !SomeDriver(s) && Uses(s, SSH_FIELDS)
    ensures Transport(s) == Ok(Direct) <==> !SomeDriver(s) && !Uses(s, SSH_FIELDS)
  {
    DriversAreCounted(s, DRIVER_FAMILIES);
    hide Uses, DriversNamed;
  }

  /** Only what is set counts: an empty list makes no difference to the transport. */
  lemma UnsetFieldsDoNotCount(s: SessionConfig, t: SessionConfig)
    requires forall f :: FieldOf(s, f) == FieldOf(t, f)
    ensures Transport(s) == Transport(t)
  {
    forall fields: set<string> ensures Uses(s, fields) <==> Uses(t, fields) {
      assert forall f :: f in fields ==> FieldOf(s, f) == FieldOf(t, f);
    }
    TransportIsTold(s);
    TransportIsTold(t);
    hide Uses, Transport;
  }

  /** Writing takes exactly the write permission of the session's own transport, spelled out by the caller. */
  lemma WritingIsExplicit(permission: Option<Permission>, s: SessionConfig)
    ensures ResolveReadOnly(permission, s) == Ok(false) <==>
              || (Transport(s) == Ok(Direct) && permission == Some(Write))
              || (Transport(s) == Ok(Ssh) && permission == Some(SshWrite))
              || (Transport(s) == Ok(Container) && permission == Some(ContainerWrite))
  {
  }

  /** A permission is usable exactly on the transport of its family; without one a session may be read. */
  lemma PermissionsFitTheirTransport(p: Permission, s: SessionConfig)
    ensures ResolveReadOnly(Some(p), s).Ok? <==>
              || (p in {Read, Write} && Transport(s) == Ok(Direct))
              || (p in {SshRead, SshWrite} && Transport(s) == Ok(Ssh))
              || (p in {ContainerRead, ContainerWrite} && Transport(s) == Ok(Container))
    ensures ResolveReadOnly(Some(p), s).Ok? ==> (ResolveReadOnly(Some(p), s).value <==> p in {Read, SshRead, ContainerRead})
    ensures ResolveReadOnly(None, s) == if Transport(s).Ok? then Ok(true) else Err(())
  {
  }
}
