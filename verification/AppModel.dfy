/** The app's state, and what each command, engine event and timer does to it, re-entrant events included. */
module AppModel {
  import opened Base
  import opened JsText

  datatype Config = Config(
    id: string,
    name: string,
    country: string,
    proto: string,
    variant: string,
    host: string,
    url: string,
    addedAt: int,
    lastUsedAt: Option<int>,
    ping: Option<int>)

  datatype ConnState =
    | Disconnected
    | Connecting(configId: string)
    | Connected(configId: string, ping: int, egress: string)
    | Disconnecting(configId: string)
    | Failed(configId: string)

  datatype Theme = Light | Dark
  datatype ThemePreference = System | Always(theme: Theme)

  datatype AppState = AppState(
    configs: seq<Config>,
    activeId: Option<string>,
    conn: ConnState,
    theme: Theme,
    themePreference: ThemePreference)

  /** The fields a patch may carry. `id` and `addedAt` are not editable and are dropped. */
  datatype Patch = Patch(
    id: Option<string>,
    addedAt: Option<int>,
    name: Option<string>,
    country: Option<string>,
    proto: Option<string>,
    variant: Option<string>,
    host: Option<string>,
    url: Option<string>,
    lastUsedAt: Option<int>,
    ping: Option<int>)

  datatype Command =
    | SelectConfig(id: string)
    | ToggleConnection
    | AddConfig(config: Config, activate: bool)
    | UpdateConfig(id: string, patch: Patch)
    | DeleteConfig(id: string)
    | DuplicateConfig(id: string)
    | SetThemePreference(preference: ThemePreference)

  datatype Thrown = UnknownId(id: string) | Invalid(field: string)

  /** What a command reads from outside: the clock, a new UUID, the system's colour scheme. */
  datatype Env = Env(now: int, uuid: string, dark: bool)

  datatype Prefs = Prefs(configs: seq<Config>, themePreference: ThemePreference)

  /** Store and engine together; `sent` is every snapshot broadcast, oldest first. */
  datatype App = App(state: AppState, prefs: Prefs, sent: seq<AppState>, conn: ConnState, timer: Option<Config>)

  // ---------- configs ----------

  function Find(cs: seq<Config>, id: string): (r: Option<Config>)
    ensures r.Some? ==> r.value in cs && r.value.id == id
    ensures r.None? ==> forall c :: c in cs ==> c.id != id
  {
    if cs == [] then None else if cs[0].id == id then Some(cs[0]) else Find(cs[1..], id)
  }

  predicate Has(cs: seq<Config>, id: string) {
    Find(cs, id).Some?
  }

  function Replace(cs: seq<Config>, id: string, c: Config): (r: seq<Config>)
    ensures |r| == |cs|
    ensures forall i :: 0 <= i < |cs| ==> r[i] == if cs[i].id == id then c else cs[i]
  {
    if cs == [] then [] else [if cs[0].id == id then c else cs[0]] + Replace(cs[1..], id, c)
  }

  function Remove(cs: seq<Config>, id: string): (r: seq<Config>)
    ensures forall c :: c in r <==> c in cs && c.id != id
  {
    if cs == [] then []
    else (if cs[0].id == id then [] else [cs[0]]) + Remove(cs[1..], id)
  }

  /** The position of the first colon, or the length. */
  function ColonAt(s: string): (i: nat)
    ensures i <= |s| && ':' !in s[..i] && (i < |s| ==> s[i] == ':')
  {
    if s == "" || s[0] == ':' then 0
    else
      var i := ColonAt(s[1..]);
      assert s[..i + 1] == [s[0]] + s[1..][..i];
      1 + i
  }

  /** `host.split(':')[0]` */
  function Egress(host: string): string {
    host[..ColonAt(host)]
  }

  /** A non-empty part without a colon, a colon, and one or more digits. */
  predicate HostOk(host: string) {
    var i := ColonAt(host);
    0 < i && i + 1 < |host| && forall k :: i < k < |host| ==> '0' <= host[k] <= '9'
  }

  /** The first complaint of `validateConfig`; the type checks hold by construction. */
  function Complaint(c: Config): Option<string> {
    if c.id == "" then Some("id")
    else if Trim(c.name) == "" then Some("name")
    else if c.proto !in {"vless", "vmess", "ss", "trojan"} then Some("proto")
    else if !HostOk(c.host) then Some("host")
    else if !(c.proto + "://" <= c.url) then Some("url")
    else None
  }

  function Or<T>(o: Option<T>, d: T): T {
    if o.Some? then o.value else d
  }

  function Merge(c: Config, p: Patch): Config {
    Config(c.id, Or(p.name, c.name), Or(p.country, c.country), Or(p.proto, c.proto), Or(p.variant, c.variant),
           Or(p.host, c.host), Or(p.url, c.url), c.addedAt,
           if p.lastUsedAt.Some? then p.lastUsedAt else c.lastUsedAt, if p.ping.Some? then p.ping else c.ping)
  }

  predicate Structural(p: Patch) {
    p.url.Some? || p.proto.Some? || p.host.Some? || p.name.Some?
  }

  // ---------- engine events ----------

  function Broadcast(a: App): App {
    a.(sent := a.sent + [a.state])
  }

  /** The store's listener: an event about a config that is gone is dropped. */
  function OnState(a: App, s: ConnState): App {
    if s != Disconnected && !Has(a.state.configs, s.configId) then a
    else Broadcast(a.(state := a.state.(conn := s)))
  }

  function EngineSet(a: App, s: ConnState): App {
    OnState(a.(conn := s), s)
  }

  function EngineConnect(a: App, cfg: Config): App {
    EngineSet(a.(timer := None), Connecting(cfg.id)).(timer := Some(cfg))
  }

  function EngineDisconnect(a: App): App {
    EngineSet(a.(timer := None), Disconnected)
  }

  const DEFAULT_PING := 50

  function TimerFires(a: App): App
    requires a.timer.Some?
  {
    var cfg := a.timer.value;
    EngineSet(a.(timer := None), Connected(cfg.id, Or(cfg.ping, DEFAULT_PING), Egress(cfg.host)))
  }

  // ---------- commands ----------

  predicate Live(c: ConnState) {
    c.Connecting? || c.Connected?
  }

  function Select(a: App, id: string, now: int): (App, Option<Thrown>) {
    var cfg := Find(a.state.configs, id);
    if cfg.None? then (a, Some(UnknownId(id)))
    else
      var refreshed := cfg.value.(lastUsedAt := Some(now));
      var configs := Replace(a.state.configs, id, refreshed);
      var a1 := a.(state := a.state.(configs := configs, activeId := Some(id)));
      var a2 := if Live(a1.state.conn) then EngineConnect(a1, refreshed) else a1;
      (Broadcast(a2.(prefs := a2.prefs.(configs := configs))), None)
  }

  /** An empty `activeId` counts as none. */
  function Toggle(a: App): (App, Option<Thrown>) {
    match a.state.conn
    case Connected(_, _, _) => (EngineDisconnect(a), None)
    case Connecting(_) => (EngineDisconnect(a), None)
    case Disconnecting(_) => (EngineDisconnect(a), None)
    case Failed(id) =>
      var cfg := Find(a.state.configs, id);
      if cfg.None? then (a, Some(UnknownId(id))) else (EngineConnect(a, cfg.value), None)
    case Disconnected =>
      if a.state.activeId.None? || a.state.activeId.value == "" then (a, None)
      else
        var cfg := Find(a.state.configs, a.state.activeId.value);
        if cfg.None? then (a, Some(UnknownId(a.state.activeId.value))) else (EngineConnect(a, cfg.value), None)
  }

  function Add(a: App, incoming: Config, activate: bool, env: Env): (App, Option<Thrown>) {
    if Complaint(incoming).Some? then (a, Some(Invalid(Complaint(incoming).value)))
    else
      var stamped := incoming.(id := env.uuid, addedAt := env.now);
      var configs := [stamped] + a.state.configs;
      var activeId := if activate then Some(stamped.id) else a.state.activeId;
      var a1 := a.(state := a.state.(configs := configs, activeId := activeId), prefs := a.prefs.(configs := configs));
      var a2 := if activate && Live(a1.state.conn) then EngineConnect(a1, stamped) else a1;
      (Broadcast(a2), None)
  }

  function Update(a: App, id: string, patch: Patch): (App, Option<Thrown>) {
    var cur := Find(a.state.configs, id);
    if cur.None? then (a, Some(UnknownId(id)))
    else
      var merged := Merge(cur.value, patch);
      if Structural(patch) && Complaint(merged).Some? then (a, Some(Invalid(Complaint(merged).value)))
      else
        var configs := Replace(a.state.configs, id, merged);
        (Broadcast(a.(state := a.state.(configs := configs), prefs := a.prefs.(configs := configs))), None)
  }

  function Delete(a: App, id: string): (App, Option<Thrown>) {
    if !Has(a.state.configs, id) then (a, Some(UnknownId(id)))
    else
      var configs := Remove(a.state.configs, id);
      var activeId, conn := a.state.activeId, a.state.conn;
      var a1 :=
        if activeId == Some(id) then
          var off := EngineDisconnect(a);
          off.(state := off.state.(configs := configs, activeId := None, conn := Disconnected))
        else
          a.(state := a.state.(configs := configs, activeId := activeId, conn := conn));
      (Broadcast(a1.(prefs := a1.prefs.(configs := configs))), None)
  }

  function Duplicate(a: App, id: string, env: Env): (App, Option<Thrown>) {
    var src := Find(a.state.configs, id);
    if src.None? then (a, Some(UnknownId(id)))
    else
      var copy := src.value.(id := env.uuid, name := src.value.name + " (copy)", addedAt := env.now, lastUsedAt := None);
      var configs := [copy] + a.state.configs;
      (Broadcast(a.(state := a.state.(configs := configs), prefs := a.prefs.(configs := configs))), None)
  }

  function SystemTheme(dark: bool): Theme {
    if dark then Dark else Light
  }

  function SetTheme(a: App, preference: ThemePreference, dark: bool): App {
    var theme := if preference == System then SystemTheme(dark) else preference.theme;
    Broadcast(a.(state := a.state.(themePreference := preference, theme := theme),
                 prefs := a.prefs.(themePreference := preference)))
  }

  function SystemThemeChanged(a: App, dark: bool): App {
    if a.state.themePreference != System || SystemTheme(dark) == a.state.theme then a
    else Broadcast(a.(state := a.state.(theme := SystemTheme(dark))))
  }

  function Dispatch(a: App, cmd: Command, env: Env): (App, Option<Thrown>) {
    match cmd
    case SelectConfig(id) => Select(a, id, env.now)
    case ToggleConnection => Toggle(a)
    case AddConfig(config, activate) => Add(a, config, activate, env)
    case UpdateConfig(id, patch) => Update(a, id, patch)
    case DeleteConfig(id) => Delete(a, id)
    case DuplicateConfig(id) => Duplicate(a, id, env)
    case SetThemePreference(preference) => (SetTheme(a, preference, env.dark), None)
  }
}
