/** What each command does to the app, stated on what a window sees, and that the windows always see it. */
module AppEffects {
  import opened Base
  import opened JsText
  import opened AppModel
  import opened AppTheorems
  import opened AppEngines

  // ---------- the connection ----------

  /** Under way to a config: shown, timed and told to the windows once. */
  ghost predicate GoesUp(a: App, b: App, cfg: Config) {
    && b.state == a.state.(conn := Connecting(cfg.id)) && b.conn == Connecting(cfg.id)
    && b.timer == Some(cfg) && b.prefs == a.prefs && b.sent == a.sent + [b.state]
  }

  ghost predicate GoesDown(a: App, b: App) {
    && b.state == a.state.(conn := Disconnected) && b.conn == Disconnected
    && b.timer == None && b.prefs == a.prefs && b.sent == a.sent + [b.state]
  }

  lemma ConnectDoes(a: App, cfg: Config)
    requires Has(a.state.configs, cfg.id)
    ensures GoesUp(a, EngineConnect(a, cfg), cfg)
  {
    hide Find;
  }

  lemma DisconnectDoes(a: App)
    ensures GoesDown(a, EngineDisconnect(a))
  {
    hide Find;
  }

  /**
   * What any engine may report at any time: Disconnected, or a state of a config that is there, is shown and told
   * once; a late report about a config that is gone changes nothing that a window sees.
   */
  lemma EventDoes(a: App, s: ConnState)
    ensures var b := AnyNext(a, Reports(s));
      if s == Disconnected || exists i :: 0 <= i < |a.state.configs| && a.state.configs[i].id == s.configId
      then b == a.(conn := s, state := a.state.(conn := s), sent := a.sent + [b.state])
      else b == a.(conn := s)
  {
    if s != Disconnected {
      HasIs(a.state.configs, s.configId);
    }
    hide Find;
  }

  /** What is up, on its way up or on its way down is taken down, in any state of the store. */
  lemma ToggleEnds(a: App, env: Env)
    requires a.state.conn.Connected? || a.state.conn.Connecting? || a.state.conn.Disconnecting?
    ensures Dispatch(a, ToggleConnection, env).1 == None && GoesDown(a, Dispatch(a, ToggleConnection, env).0)
  {
    DisconnectDoes(a);
    hide EngineDisconnect;
    hide GoesDown;
  }

  /** After a failure the toggle tries the failed config again, if it is still there. */
  lemma ToggleRetries(a: App, cfg: Config, env: Env)
    requires a.state.conn == Failed(cfg.id) && Find(a.state.configs, cfg.id) == Some(cfg)
    ensures Dispatch(a, ToggleConnection, env).1 == None && GoesUp(a, Dispatch(a, ToggleConnection, env).0, cfg)
  {
    ConnectDoes(a, cfg);
    hide EngineConnect;
    hide GoesUp;
    hide Find;
  }

  /**
   * In a consistent state a toggle ends what is live; when nothing is, it starts the active config, which the
   * timer then brings up; and without an active config (or with an empty one) it does nothing at all.
   */
  lemma ToggleDoes(a: App, env: Env)
    requires Ok(a)
    ensures var b := Dispatch(a, ToggleConnection, env).0; var id := a.state.activeId;
      if Live(a.state.conn) then GoesDown(a, b)
      else if id.None? || id.value == "" then b == a
      else
        && (exists cfg :: cfg in a.state.configs && cfg.id == id.value && GoesUp(a, b, cfg))
        && b.timer.Some? && TimerFires(b).state.conn.Connected? && TimerFires(b).state.conn.configId == id.value
  {
    hide GoesUp;
    hide GoesDown;
    var b := Dispatch(a, ToggleConnection, env).0;
    if Live(a.state.conn) {
      ToggleEnds(a, env);
    } else if a.state.activeId.None? || a.state.activeId.value == "" {
    } else {
      var cfg := Find(a.state.configs, a.state.activeId.value).value;
      ConnectDoes(a, cfg);
      assert GoesUp(a, b, cfg);
      ComesUp(a, b, cfg);
    }
  }

  lemma ComesUp(a: App, b: App, cfg: Config)
    requires GoesUp(a, b, cfg) && Has(a.state.configs, cfg.id)
    ensures b.timer.Some? && TimerFires(b).state.conn.Connected? && TimerFires(b).state.conn.configId == cfg.id
  {
    hide Find;
    hide Egress;
  }

  /** The timer shows the config connected, with its latency or 50, and the part of its host before the first colon. */
  lemma TimerDoes(a: App)
    requires Ok(a) && a.timer.Some?
    ensures var b, cfg := TimerFires(a), a.timer.value; var c := b.state.conn;
      && c.Connected? && c.configId == cfg.id && c.ping == (if cfg.ping == None then 50 else cfg.ping.value)
      && c.egress <= cfg.host && ':' !in c.egress && (c.egress == cfg.host || cfg.host[|c.egress|] == ':')
      && b == App(a.state.(conn := c), a.prefs, a.sent + [b.state], c, None)
  {
    hide Find;
    hide ColonAt;
  }

  // ---------- the configs ----------

  /** `now` is `was` with the config of that id exchanged for `c`. */
  ghost predicate Exchanged(was: seq<Config>, now: seq<Config>, id: string, c: Config) {
    && |now| == |was| && c in now
    && forall i :: 0 <= i < |was| ==> now[i] == if was[i].id == id then c else was[i]
  }

  lemma ReplaceExchanges(cs: seq<Config>, id: string, c: Config)
    requires Has(cs, id)
    ensures Exchanged(cs, Replace(cs, id, c), id, c)
  {
    HasIs(cs, id);
    var i :| 0 <= i < |cs| && cs[i].id == id;
    assert Replace(cs, id, c)[i] == c;
  }

  /** Selecting stamps the config as used now and makes it active; the connection moves to it only if one is live. */
  lemma SelectDoes(a: App, src: Config, env: Env)
    requires Ok(a) && Find(a.state.configs, src.id) == Some(src)
    ensures var (b, thrown) := Dispatch(a, SelectConfig(src.id), env); var used := src.(lastUsedAt := Some(env.now));
      && thrown == None && Exchanged(a.state.configs, b.state.configs, src.id, used)
      && b.prefs == Prefs(b.state.configs, a.state.themePreference)
      && b.state.activeId == Some(src.id)
      && b.state.theme == a.state.theme && b.state.themePreference == a.state.themePreference
      && (if Live(a.state.conn) then
            b.state.conn == Connecting(src.id) && b.timer == Some(used) && b.sent == a.sent + [b.state, b.state]
          else
            b.state.conn == a.state.conn && b.timer == a.timer && b.sent == a.sent + [b.state])
  {
    hide Find;
    hide Replace;
    var used := src.(lastUsedAt := Some(env.now));
    var configs := Replace(a.state.configs, src.id, used);
    ReplaceExchanges(a.state.configs, src.id, used);
    ReplaceKeeps(a.state.configs, src.id, used, src.id);
    hide Exchanged;
    hide EngineConnect;
    ConnectDoes(a.(state := a.state.(configs := configs, activeId := Some(src.id))), used);
  }

  /** A new config goes in front under its own new id and date; activating it while live moves the connection to it. */
  lemma AddDoes(a: App, config: Config, activate: bool, env: Env)
    requires Ok(a) && Complaint(config) == None && !Has(a.state.configs, env.uuid)
    ensures var (b, thrown) := Dispatch(a, AddConfig(config, activate), env);
      var added := config.(id := env.uuid, addedAt := env.now);
      && thrown == None && b.state.configs == [added] + a.state.configs
      && b.prefs == Prefs(b.state.configs, a.state.themePreference)
      && b.state.activeId == (if activate then Some(env.uuid) else a.state.activeId)
      && b.state.theme == a.state.theme && b.state.themePreference == a.state.themePreference
      && (if activate && Live(a.state.conn) then
            b.state.conn == Connecting(env.uuid) && b.timer == Some(added) && b.sent == a.sent + [b.state, b.state]
          else
            b.state.conn == a.state.conn && b.timer == a.timer && b.sent == a.sent + [b.state])
  {
    hide Find;
    hide Complaint;
    var added := config.(id := env.uuid, addedAt := env.now);
    var configs := [added] + a.state.configs;
    PrependKeeps(a.state.configs, added, env.uuid);
    var activeId := if activate then Some(env.uuid) else a.state.activeId;
    hide EngineConnect;
    ConnectDoes(a.(state := a.state.(configs := configs, activeId := activeId), prefs := a.prefs.(configs := configs)),
                added);
  }

  /** What a field holds after a patch. */
  ghost predicate Patched<T(!new)>(patch: Option<T>, was: T, now: T) {
    match patch
    case Some(v) => now == v
    case None => now == was
  }

  /** Every editable field is the patch's where the patch carries one; nothing else changes. */
  ghost predicate PatchApplied(p: Patch, was: Config, now: Config) {
    && Patched(p.name, was.name, now.name) && Patched(p.country, was.country, now.country)
    && Patched(p.proto, was.proto, now.proto) && Patched(p.variant, was.variant, now.variant)
    && Patched(p.host, was.host, now.host) && Patched(p.url, was.url, now.url)
    && (p.lastUsedAt == None ==> now.lastUsedAt == was.lastUsedAt)
    && (p.lastUsedAt != None ==> now.lastUsedAt == p.lastUsedAt)
    && (p.ping == None ==> now.ping == was.ping) && (p.ping != None ==> now.ping == p.ping)
    && now.id == was.id && now.addedAt == was.addedAt
  }

  /**
   * An update is refused exactly if the patch touches url, proto, host or name and the result would be invalid.
   * Otherwise the patch is applied to that config, and neither connection nor selection moves.
   */
  lemma UpdateDoes(a: App, src: Config, patch: Patch, now: Config, env: Env)
    requires Ok(a) && Find(a.state.configs, src.id) == Some(src) && PatchApplied(patch, src, now)
    ensures var (b, thrown) := Dispatch(a, UpdateConfig(src.id, patch), env);
      if (patch.url != None || patch.proto != None || patch.host != None || patch.name != None)
        && Complaint(now) != None
      then thrown == Some(Invalid(Complaint(now).value)) && b == a
      else
        && thrown == None && Exchanged(a.state.configs, b.state.configs, src.id, now)
        && b.state == a.state.(configs := b.state.configs)
        && b.prefs == Prefs(b.state.configs, a.state.themePreference)
        && b.conn == a.conn && b.timer == a.timer && b.sent == a.sent + [b.state]
  {
    hide Find;
    hide Complaint;
    hide Replace;
    assert Merge(src, patch) == now;
    ReplaceExchanges(a.state.configs, src.id, now);
    hide Exchanged;
  }

  /** `now` is `was` without the one config of that id. */
  ghost predicate Dropped(was: seq<Config>, now: seq<Config>, id: string) {
    exists i: nat :: i < |was| && was[i].id == id && now == Without(was, i)
  }

  lemma {:induction false} RemoveDrops(cs: seq<Config>, id: string)
    requires Unique(cs) && Has(cs, id)
    ensures Dropped(cs, Remove(cs, id), id)
  {
    hide Find;
    if cs[0].id == id {
      assert !Has(cs[1..], id) by {
        HasIs(cs[1..], id);
      }
      RemoveAbsent(cs[1..], id);
      assert Without(cs, 0) == cs[1..];
    } else {
      assert Unique(cs[1..]);
      HasRest(cs, id);
      RemoveDrops(cs[1..], id);
      hide Unique;
      DroppedCons(cs, Remove(cs[1..], id), id);
    }
  }

  lemma HasRest(cs: seq<Config>, id: string)
    requires Has(cs, id)
    ensures cs != [] && (cs[0].id == id || Has(cs[1..], id))
  {
  }

  lemma DroppedCons(cs: seq<Config>, rest: seq<Config>, id: string)
    requires cs != [] && Dropped(cs[1..], rest, id)
    ensures Dropped(cs, [cs[0]] + rest, id)
  {
    var i: nat :| i < |cs[1..]| && cs[1..][i].id == id && rest == Without(cs[1..], i);
    assert cs[i + 1].id == id && [cs[0]] + rest == Without(cs, i + 1);
  }

  /** Deleting drops that config; the connection and the selection go with it exactly if it was the active one. */
  lemma DeleteDoes(a: App, id: string, env: Env)
    requires Ok(a) && Has(a.state.configs, id)
    ensures var (b, thrown) := Dispatch(a, DeleteConfig(id), env);
      && thrown == None && Dropped(a.state.configs, b.state.configs, id)
      && b.prefs == Prefs(b.state.configs, a.state.themePreference)
      && (if a.state.activeId == Some(id) then
            && b.state == a.state.(configs := b.state.configs, activeId := None, conn := Disconnected)
            && b.conn == Disconnected && b.timer == None
            && b.sent == a.sent + [a.state.(conn := Disconnected), b.state]
          else
            && b.state == a.state.(configs := b.state.configs)
            && b.conn == a.conn && b.timer == a.timer && b.sent == a.sent + [b.state])
  {
    RemoveDrops(a.state.configs, id);
    DisconnectDoes(a);
    hide Find;
    hide Remove;
    hide Dropped;
    hide EngineDisconnect;
  }

  /** A copy goes in front: new id, "(copy)" after the name, added now, never used; all else stays. */
  lemma DuplicateDoes(a: App, src: Config, env: Env)
    requires Ok(a) && Find(a.state.configs, src.id) == Some(src)
    ensures var (b, thrown) := Dispatch(a, DuplicateConfig(src.id), env);
      var copy := src.(id := env.uuid, name := src.name + " (copy)", addedAt := env.now, lastUsedAt := None);
      && thrown == None && b.state == a.state.(configs := [copy] + a.state.configs)
      && b.prefs == Prefs(b.state.configs, a.state.themePreference)
      && b.conn == a.conn && b.timer == a.timer && b.sent == a.sent + [b.state]
  {
    hide Find;
  }

  // ---------- the theme ----------

  /** The theme is what the preference says, or what the system shows where the preference leaves it to the system. */
  predicate ThemeFits(preference: ThemePreference, dark: bool, theme: Theme) {
    match preference
    case System => (theme == Dark) == dark
    case Always(t) => theme == t
  }

  /** Setting a preference is always told; a change of the system's scheme only if it changes the theme. */
  lemma ThemeDoes(a: App, preference: ThemePreference, env: Env)
    ensures var (b, thrown) := Dispatch(a, SetThemePreference(preference), env);
      && thrown == None && ThemeFits(preference, env.dark, b.state.theme)
      && b.state == a.state.(themePreference := preference, theme := b.state.theme)
      && b.prefs == a.prefs.(themePreference := preference)
      && b.conn == a.conn && b.timer == a.timer && b.sent == a.sent + [b.state]
    ensures var b := SystemThemeChanged(a, env.dark);
      && b == a.(state := a.state.(theme := b.state.theme), sent := b.sent)
      && b.sent == (if b.state == a.state then a.sent else a.sent + [b.state])
      && (if a.state.themePreference == System then ThemeFits(System, env.dark, b.state.theme) else b == a)
  {
  }

  // ---------- what is thrown ----------

  const FIELDS := ["id", "name", "proto", "host", "url"]

  /** What `validateConfig` asks of each of those fields. */
  ghost predicate FieldOk(c: Config, k: nat)
    requires k < |FIELDS|
  {
    match k
    case 0 => c.id != ""
    case 1 => !IsBlank(c.name)
    case 2 => c.proto == "vless" || c.proto == "vmess" || c.proto == "ss" || c.proto == "trojan"
    case 3 => exists name: string, port: string ::
      name != "" && ':' !in name && port != "" && AllDigits(port) && c.host == name + ":" + port
    case _ => exists rest: string :: c.url == c.proto + "://" + rest
  }

  lemma UrlOk(c: Config)
    ensures c.proto + "://" <= c.url <==> FieldOk(c, 4)
  {
    var scheme := c.proto + "://";
    if scheme <= c.url {
      assert c.url == scheme + c.url[|scheme|..];
    }
  }

  /** The complaint names the first field that is not as it should be; there is none if they all are. */
  lemma ComplaintIs(c: Config, k: nat)
    requires k < |FIELDS|
    ensures Complaint(c) == None <==> forall j: nat :: j < |FIELDS| ==> FieldOk(c, j)
    ensures Complaint(c) == Some(FIELDS[k]) <==> !FieldOk(c, k) && forall j: nat :: j < k ==> FieldOk(c, j)
  {
    HostOkIs(c.host);
    TrimBlank(c.name);
    UrlOk(c);
    hide HostOk;
    hide Trim;
    hide IsBlank;
    hide AllDigits;
    assert FieldOk(c, 0) <==> c.id != "";
    assert FieldOk(c, 1) <==> Trim(c.name) != "";
    assert FieldOk(c, 2) <==> c.proto in {"vless", "vmess", "ss", "trojan"};
    assert FieldOk(c, 3) <==> HostOk(c.host);
    hide FieldOk;
    if forall j: nat :: j < k ==> FieldOk(c, j) {
      assert (k > 0 ==> FieldOk(c, 0)) && (k > 1 ==> FieldOk(c, 1));
      assert (k > 2 ==> FieldOk(c, 2)) && (k > 3 ==> FieldOk(c, 3));
    }
  }

  /** The config a command is about. */
  function Subject(cmd: Command): Option<string> {
    match cmd
    case SelectConfig(id) => Some(id)
    case UpdateConfig(id, _) => Some(id)
    case DeleteConfig(id) => Some(id)
    case DuplicateConfig(id) => Some(id)
    case _ => None
  }

  /** A command about a config that is not there throws just that; an added config throws its first bad field. */
  lemma ThrownIs(a: App, cmd: Command, env: Env)
    ensures Subject(cmd).Some? && !Has(a.state.configs, Subject(cmd).value) ==>
      Dispatch(a, cmd, env) == (a, Some(UnknownId(Subject(cmd).value)))
    ensures cmd.AddConfig? && Complaint(cmd.config).Some? ==>
      Dispatch(a, cmd, env) == (a, Some(Invalid(Complaint(cmd.config).value)))
  {
    hide Find;
    hide Complaint;
  }

  // ---------- what the windows know ----------

  /** Either nothing happened to the state and nothing was sent, or the last thing sent is the new state. */
  ghost predicate Told(a: App, b: App) {
    || (b.state == a.state && b.sent == a.sent)
    || (a.sent < b.sent && Last(b.sent) == b.state)
  }

  lemma EngineTells(a: App, s: ConnState)
    ensures Told(a, EngineSet(a, s))
  {
    hide Find;
  }

  lemma ToggleTold(a: App)
    ensures Told(a, Toggle(a).0)
  {
    hide Find;
    hide EngineSet;
    EngineTells(a.(timer := None), Disconnected);
    var id := if a.state.conn.Failed? then Some(a.state.conn.configId) else a.state.activeId;
    if id.Some? && Find(a.state.configs, id.value).Some? {
      EngineTells(a.(timer := None), Connecting(Find(a.state.configs, id.value).value.id));
    }
  }

  lemma SelectTold(a: App, id: string, now: int)
    ensures Told(a, Select(a, id, now).0)
  {
    hide Find;
    hide Replace;
    hide EngineSet;
    var cfg := Find(a.state.configs, id);
    if cfg.Some? {
      var refreshed := cfg.value.(lastUsedAt := Some(now));
      var configs := Replace(a.state.configs, id, refreshed);
      EngineTells(a.(state := a.state.(configs := configs, activeId := Some(id)), timer := None),
                  Connecting(refreshed.id));
    }
  }

  lemma AddTold(a: App, incoming: Config, activate: bool, env: Env)
    ensures Told(a, Add(a, incoming, activate, env).0)
  {
    hide Find;
    hide Complaint;
    hide EngineSet;
    var stamped := incoming.(id := env.uuid, addedAt := env.now);
    var configs := [stamped] + a.state.configs;
    var activeId := if activate then Some(stamped.id) else a.state.activeId;
    EngineTells(a.(state := a.state.(configs := configs, activeId := activeId), timer := None,
                   prefs := a.prefs.(configs := configs)), Connecting(stamped.id));
  }

  lemma DeleteTold(a: App, id: string)
    ensures Told(a, Delete(a, id).0)
  {
    hide Find;
    hide Remove;
    hide EngineSet;
    EngineTells(a.(timer := None), Disconnected);
  }

  lemma UpdateTold(a: App, id: string, patch: Patch)
    ensures Told(a, Update(a, id, patch).0)
  {
    hide Find;
    hide Replace;
    hide Complaint;
  }

  lemma DuplicateTold(a: App, id: string, env: Env)
    ensures Told(a, Duplicate(a, id, env).0)
  {
    hide Find;
  }

  lemma ThemeTold(a: App, preference: ThemePreference, dark: bool)
    ensures Told(a, SetTheme(a, preference, dark)) && Told(a, SystemThemeChanged(a, dark))
  {
  }

  lemma TimerTold(a: App)
    requires a.timer.Some?
    ensures Told(a, TimerFires(a))
  {
    hide EngineSet;
    hide Egress;
    var cfg := a.timer.value;
    EngineTells(a.(timer := None), Connected(cfg.id, Or(cfg.ping, DEFAULT_PING), Egress(cfg.host)));
  }

  lemma OwnTold(a: App, e: Event)
    requires Possible(a, e)
    ensures Told(a, Next(a, e))
  {
    hide Told;
    hide Find;
    hide EngineSet;
    hide Select;
    hide Add;
    hide Update;
    hide Delete;
    hide Duplicate;
    hide Toggle;
    hide SetTheme;
    hide SystemThemeChanged;
    match e {
      case TimerFired => TimerTold(a);
      case ThemeChanged(dark) => ThemeTold(a, System, dark);
      case Dispatched(cmd, env) =>
        match cmd {
          case SelectConfig(id) => SelectTold(a, id, env.now);
          case ToggleConnection => ToggleTold(a);
          case AddConfig(config, activate) => AddTold(a, config, activate, env);
          case UpdateConfig(id, patch) => UpdateTold(a, id, patch);
          case DeleteConfig(id) => DeleteTold(a, id);
          case DuplicateConfig(id) => DuplicateTold(a, id, env);
          case SetThemePreference(preference) => ThemeTold(a, preference, env.dark);
        }
    }
  }

  lemma StepTold(a: App, e: AnyEvent)
    requires AnyPossible(a, e)
    ensures Told(a, AnyNext(a, e))
  {
    hide Told;
    hide Next;
    hide EngineSet;
    match e {
      case Reports(conn) => EngineTells(a, conn);
      case Own(event) => OwnTold(a, event);
    }
  }

  /**
   * Under any engine, in every run: what the windows were sent last is the state as it is, and as long as they
   * were sent nothing it is the state they started with.
   */
  lemma {:induction false} WindowsAreCurrent(apps: seq<App>, events: seq<AnyEvent>)
    requires IsAnyRun(apps, events)
    ensures var a := Last(apps); if a.sent == [] then a.state == apps[0].state else Last(a.sent) == a.state
    decreases |events|
  {
    hide AnyNext;
    hide Told;
    if events == [] {
    } else {
      var n := |events| - 1;
      assert IsAnyRun(apps[..n + 1], events[..n]);
      WindowsAreCurrent(apps[..n + 1], events[..n]);
      assert Last(apps[..n + 1]) == apps[n];
      StepTold(apps[n], events[n]);
      ToldOn(apps[n], apps[n + 1]);
    }
  }

  lemma ToldOn(a: App, b: App)
    requires Told(a, b)
    ensures b.sent == [] ==> a.sent == [] && b.state == a.state
    ensures b.sent != [] && (a.sent != [] ==> Last(a.sent) == a.state) ==> Last(b.sent) == b.state
  {
  }
}
