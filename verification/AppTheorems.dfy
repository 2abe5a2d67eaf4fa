/** What every snapshot shows, over every run of commands, timers and theme changes. */
module AppTheorems {
  import opened Base
  import opened JsText
  import opened AppModel

  /** The active config exists, and a connection is always about the active config. */
  predicate SnapshotOk(s: AppState) {
    && (s.activeId.Some? ==> Has(s.configs, s.activeId.value))
    && (s.conn != Disconnected ==> s.activeId == Some(s.conn.configId))
  }

  predicate Unique(cs: seq<Config>) {
    forall i, j :: 0 <= i < j < |cs| ==> cs[i].id != cs[j].id
  }

  /** A pending timer means connecting, to the config that the timer was set for. */
  predicate EngineOk(a: App) {
    && a.conn == a.state.conn
    && !a.conn.Disconnecting? && !a.conn.Failed?
    && (a.timer.Some? <==> a.conn.Connecting?)
    && (a.timer.Some? ==> a.conn.configId == a.timer.value.id)
  }

  predicate Ok(a: App) {
    && SnapshotOk(a.state) && Unique(a.state.configs) && EngineOk(a)
    && a.prefs == Prefs(a.state.configs, a.state.themePreference)
    && AllOk(a.sent)
  }

  predicate AllOk(sent: seq<AppState>) {
    forall i :: 0 <= i < |sent| ==> SnapshotOk(sent[i])
  }

  /** The app as it starts: nothing connected, nothing broadcast, the active config absent or known. */
  predicate Start(a: App) {
    && Unique(a.state.configs)
    && (a.state.activeId.Some? ==> Has(a.state.configs, a.state.activeId.value))
    && a.state.conn == Disconnected && a.conn == Disconnected && a.timer == None
    && a.prefs == Prefs(a.state.configs, a.state.themePreference)
    && a.sent == []
  }

  datatype Event = Dispatched(cmd: Command, env: Env) | TimerFired | ThemeChanged(dark: bool)

  /** New ids are new; a timer fires only if one is set. */
  predicate Possible(a: App, e: Event) {
    match e
    case Dispatched(cmd, env) => cmd.AddConfig? || cmd.DuplicateConfig? ==> !Has(a.state.configs, env.uuid)
    case TimerFired => a.timer.Some?
    case ThemeChanged(_) => true
  }

  function Next(a: App, e: Event): App
    requires Possible(a, e)
  {
    match e
    case Dispatched(cmd, env) => Dispatch(a, cmd, env).0
    case TimerFired => TimerFires(a)
    case ThemeChanged(dark) => SystemThemeChanged(a, dark)
  }

  ghost predicate IsRun(apps: seq<App>, events: seq<Event>) {
    && |apps| == |events| + 1 && Start(apps[0])
    && forall i :: 0 <= i < |events| ==> Possible(apps[i], events[i]) && apps[i + 1] == Next(apps[i], events[i])
  }

  // ---------- configs ----------

  lemma HasIs(cs: seq<Config>, id: string)
    ensures Has(cs, id) <==> exists i :: 0 <= i < |cs| && cs[i].id == id
  {
    if Has(cs, id) {
      var c := Find(cs, id).value;
      var i :| 0 <= i < |cs| && cs[i] == c;
      assert cs[i].id == id;
    }
  }

  /** `find` gives the first config of that id. */
  lemma {:induction false} FindsFirst(cs: seq<Config>, id: string, i: nat)
    requires i < |cs| && cs[i].id == id && forall j :: 0 <= j < i ==> cs[j].id != id
    ensures Find(cs, id) == Some(cs[i])
  {
    if i > 0 {
      assert cs[0].id != id && forall j :: 0 <= j < i - 1 ==> cs[1..][j].id == cs[j + 1].id;
      FindsFirst(cs[1..], id, i - 1);
    }
  }

  /** Replacing a config by one with the same id changes no ids. */
  lemma ReplaceKeeps(cs: seq<Config>, id: string, c: Config, other: string)
    requires c.id == id
    ensures Has(Replace(cs, id, c), other) <==> Has(cs, other)
    ensures Unique(cs) ==> Unique(Replace(cs, id, c))
  {
    var r := Replace(cs, id, c);
    assert forall i :: 0 <= i < |cs| ==> r[i].id == cs[i].id;
    HasIs(r, other);
    HasIs(cs, other);
  }

  lemma RemoveHas(cs: seq<Config>, id: string, other: string)
    ensures Has(Remove(cs, id), other) <==> Has(cs, other) && other != id
  {
  }

  lemma {:induction false} RemoveUnique(cs: seq<Config>, id: string)
    requires Unique(cs)
    ensures Unique(Remove(cs, id))
  {
    if cs == [] {
    } else {
      var rest := Remove(cs[1..], id);
      assert Unique(cs[1..]);
      RemoveUnique(cs[1..], id);
      forall j | 0 <= j < |rest| ensures rest[j].id != cs[0].id {
        assert rest[j] in rest && rest[j] in cs[1..];
        var k :| 0 <= k < |cs[1..]| && cs[1..][k] == rest[j];
        assert cs[k + 1].id == rest[j].id;
      }
    }
  }

  lemma PrependKeeps(cs: seq<Config>, c: Config, other: string)
    requires !Has(cs, c.id)
    ensures Has([c] + cs, other) <==> Has(cs, other) || other == c.id
    ensures Unique(cs) ==> Unique([c] + cs)
  {
    var r := [c] + cs;
    assert r[1..] == cs;
    HasIs(cs, c.id);
  }

  // ---------- every step keeps the invariant ----------

  /** An engine event about the active config is taken over and broadcast. */
  lemma EventTaken(a: App, s: ConnState)
    requires SnapshotOk(a.state.(conn := s)) && AllOk(a.sent)
    ensures var b := EngineSet(a, s);
      && b == a.(conn := s, state := a.state.(conn := s), sent := a.sent + [a.state.(conn := s)])
      && AllOk(b.sent)
  {
    hide Find;
  }

  lemma Broadcasts(a: App)
    requires SnapshotOk(a.state) && AllOk(a.sent)
    ensures AllOk(Broadcast(a).sent)
  {
    hide SnapshotOk;
  }

  lemma ConnectTaken(a: App, cfg: Config)
    requires Has(a.state.configs, cfg.id) && a.state.activeId == Some(cfg.id) && AllOk(a.sent)
    ensures var b := EngineConnect(a, cfg);
      && b == a.(conn := Connecting(cfg.id), timer := Some(cfg), sent := b.sent,
                 state := a.state.(conn := Connecting(cfg.id)))
      && SnapshotOk(b.state) && AllOk(b.sent) && EngineOk(b)
  {
    hide Find;
    hide EngineSet;
    EventTaken(a.(timer := None), Connecting(cfg.id));
  }

  lemma DisconnectTaken(a: App)
    requires (a.state.activeId.Some? ==> Has(a.state.configs, a.state.activeId.value)) && AllOk(a.sent)
    ensures var b := EngineDisconnect(a);
      && b == a.(conn := Disconnected, timer := None, sent := b.sent, state := a.state.(conn := Disconnected))
      && SnapshotOk(b.state) && AllOk(b.sent) && EngineOk(b)
  {
    hide Find;
    hide EngineSet;
    EventTaken(a.(timer := None), Disconnected);
  }

  lemma SelectKeeps(a: App, id: string, now: int)
    requires Ok(a)
    ensures Ok(Select(a, id, now).0)
  {
    hide Find;
    hide Replace;
    hide AllOk;
    hide Unique;
    var cfg := Find(a.state.configs, id);
    if cfg.Some? {
      var refreshed := cfg.value.(lastUsedAt := Some(now));
      var configs := Replace(a.state.configs, id, refreshed);
      ReplaceKeeps(a.state.configs, id, refreshed, id);
      var a1 := a.(state := a.state.(configs := configs, activeId := Some(id)));
      if Live(a1.state.conn) {
        ConnectTaken(a1, refreshed);
        Broadcasts(EngineConnect(a1, refreshed).(prefs := a.prefs.(configs := configs)));
      } else {
        Broadcasts(a1.(prefs := a1.prefs.(configs := configs)));
      }
    }
  }

  lemma ToggleKeeps(a: App)
    requires Ok(a)
    ensures Ok(Toggle(a).0) && Toggle(a).1.None?
  {
    hide AllOk;
    hide Unique;
    if a.state.conn != Disconnected {
      DisconnectTaken(a);
    } else if a.state.activeId.Some? {
      ConnectTaken(a, Find(a.state.configs, a.state.activeId.value).value);
    }
  }

  lemma AddKeeps(a: App, incoming: Config, activate: bool, env: Env)
    requires Ok(a) && !Has(a.state.configs, env.uuid)
    ensures Ok(Add(a, incoming, activate, env).0)
  {
    hide Find;
    hide AllOk;
    hide Unique;
    hide Complaint;
    if Complaint(incoming).None? {
      var stamped := incoming.(id := env.uuid, addedAt := env.now);
      var configs := [stamped] + a.state.configs;
      PrependKeeps(a.state.configs, stamped, stamped.id);
      if a.state.activeId.Some? {
        PrependKeeps(a.state.configs, stamped, a.state.activeId.value);
      }
      var activeId := if activate then Some(stamped.id) else a.state.activeId;
      var a1 := a.(state := a.state.(configs := configs, activeId := activeId), prefs := a.prefs.(configs := configs));
      if activate && Live(a1.state.conn) {
        ConnectTaken(a1, stamped);
        Broadcasts(EngineConnect(a1, stamped));
      } else {
        Broadcasts(a1);
      }
    }
  }

  lemma UpdateKeeps(a: App, id: string, patch: Patch)
    requires Ok(a)
    ensures Ok(Update(a, id, patch).0)
  {
    hide Find;
    hide Replace;
    hide AllOk;
    hide Unique;
    hide Complaint;
    var cur := Find(a.state.configs, id);
    if cur.Some? {
      var merged := Merge(cur.value, patch);
      var configs := Replace(a.state.configs, id, merged);
      ReplaceKeeps(a.state.configs, id, merged, id);
      if a.state.activeId.Some? {
        ReplaceKeeps(a.state.configs, id, merged, a.state.activeId.value);
      }
      var b := a.(state := a.state.(configs := configs), prefs := a.prefs.(configs := configs));
      Broadcasts(b);
    }
  }

  lemma DeleteKeeps(a: App, id: string)
    requires Ok(a)
    ensures Ok(Delete(a, id).0)
  {
    hide Find;
    hide Remove;
    hide AllOk;
    hide Unique;
    if Has(a.state.configs, id) {
      var configs := Remove(a.state.configs, id);
      RemoveUnique(a.state.configs, id);
      if a.state.activeId == Some(id) {
        DisconnectTaken(a);
        var off := EngineDisconnect(a);
        Broadcasts(off.(state := off.state.(configs := configs, activeId := None, conn := Disconnected),
                        prefs := off.prefs.(configs := configs)));
      } else {
        if a.state.activeId.Some? {
          RemoveHas(a.state.configs, id, a.state.activeId.value);
        }
        Broadcasts(a.(state := a.state.(configs := configs), prefs := a.prefs.(configs := configs)));
      }
    }
  }

  lemma DuplicateKeeps(a: App, id: string, env: Env)
    requires Ok(a) && !Has(a.state.configs, env.uuid)
    ensures Ok(Duplicate(a, id, env).0)
  {
    hide Find;
    hide AllOk;
    hide Unique;
    var src := Find(a.state.configs, id);
    if src.Some? {
      var copy := src.value.(id := env.uuid, name := src.value.name + " (copy)", addedAt := env.now, lastUsedAt := None);
      PrependKeeps(a.state.configs, copy, copy.id);
      if a.state.activeId.Some? {
        PrependKeeps(a.state.configs, copy, a.state.activeId.value);
      }
      var configs := [copy] + a.state.configs;
      Broadcasts(a.(state := a.state.(configs := configs), prefs := a.prefs.(configs := configs)));
    }
  }

  lemma TimerKeeps(a: App)
    requires Ok(a) && a.timer.Some?
    ensures Ok(TimerFires(a))
  {
    hide Find;
    hide AllOk;
    hide Unique;
    hide Egress;
    hide EngineSet;
    var cfg := a.timer.value;
    EventTaken(a.(timer := None), Connected(cfg.id, Or(cfg.ping, DEFAULT_PING), Egress(cfg.host)));
  }

  lemma ThemeKeeps(a: App, preference: ThemePreference, dark: bool)
    requires Ok(a)
    ensures Ok(SetTheme(a, preference, dark)) && Ok(SystemThemeChanged(a, dark))
  {
    hide Find;
    hide AllOk;
    hide Unique;
    var theme := if preference == System then SystemTheme(dark) else preference.theme;
    Broadcasts(a.(state := a.state.(themePreference := preference, theme := theme)));
    Broadcasts(a.(state := a.state.(theme := SystemTheme(dark))));
  }

  lemma StepKeeps(a: App, e: Event)
    requires Ok(a) && Possible(a, e)
    ensures Ok(Next(a, e))
  {
    match e {
      case Dispatched(cmd, env) =>
        match cmd {
          case SelectConfig(id) => SelectKeeps(a, id, env.now);
          case ToggleConnection => ToggleKeeps(a);
          case AddConfig(config, activate) => AddKeeps(a, config, activate, env);
          case UpdateConfig(id, patch) => UpdateKeeps(a, id, patch);
          case DeleteConfig(id) => DeleteKeeps(a, id);
          case DuplicateConfig(id) => DuplicateKeeps(a, id, env);
          case SetThemePreference(preference) => ThemeKeeps(a, preference, env.dark);
        }
      case TimerFired => TimerKeeps(a);
      case ThemeChanged(dark) => ThemeKeeps(a, System, dark);
    }
  }

  // ---------- whole runs ----------

  lemma {:induction false} RunKeeps(apps: seq<App>, events: seq<Event>)
    requires IsRun(apps, events)
    ensures forall i :: 0 <= i < |apps| ==> Ok(apps[i])
    decreases |events|
  {
    hide Next;
    hide Ok;
    if events == [] {
      StartOk(apps[0]);
    } else {
      var n := |events| - 1;
      assert IsRun(apps[..n + 1], events[..n]);
      RunKeeps(apps[..n + 1], events[..n]);
      assert apps[..n + 1][n] == apps[n];
      StepKeeps(apps[n], events[n]);
    }
  }

  lemma StartOk(a: App)
    requires Start(a)
    ensures Ok(a)
  {
  }

  /** Everything a window was ever sent, in the middle of a command or at its end, is consistent. */
  lemma EverySnapshotIsConsistent(apps: seq<App>, events: seq<Event>, k: nat)
    requires IsRun(apps, events) && k < |Last(apps).sent|
    ensures var s := Last(apps).sent[k];
      && (s.activeId.Some? ==> exists i :: 0 <= i < |s.configs| && s.configs[i].id == s.activeId.value)
      && (s.conn != Disconnected ==> s.activeId == Some(s.conn.configId))
  {
    hide Next;
    RunKeeps(apps, events);
    var s := Last(apps).sent[k];
    assert SnapshotOk(s);
    if s.activeId.Some? {
      HasIs(s.configs, s.activeId.value);
    }
  }

  /** The engine's timer is running exactly while connecting, for the active config. */
  lemma PendingTimerIsActive(apps: seq<App>, events: seq<Event>)
    requires IsRun(apps, events)
    ensures var a := Last(apps);
      && a.conn == a.state.conn
      && (a.timer.Some? <==> a.state.conn.Connecting?)
      && (a.timer.Some? ==> a.state.activeId == Some(a.timer.value.id) && a.state.conn.configId == a.timer.value.id)
  {
    hide Next;
    RunKeeps(apps, events);
  }

  // ---------- single commands ----------

  /** When a command is refused. */
  predicate Refused(s: AppState, cmd: Command) {
    match cmd
    case SelectConfig(id) => !Has(s.configs, id)
    case ToggleConnection => false
    case AddConfig(config, _) => Complaint(config).Some?
    case UpdateConfig(id, patch) =>
      !Has(s.configs, id) || (Structural(patch) && Complaint(Merge(Find(s.configs, id).value, patch)).Some?)
    case DeleteConfig(id) => !Has(s.configs, id)
    case DuplicateConfig(id) => !Has(s.configs, id)
    case SetThemePreference(_) => false
  }

  /** A command throws exactly when it is refused, and then nothing has changed and nothing was sent. */
  lemma ThrowsIffRefused(a: App, cmd: Command, env: Env)
    requires Ok(a)
    ensures Dispatch(a, cmd, env).1.Some? <==> Refused(a.state, cmd)
    ensures Dispatch(a, cmd, env).1.Some? ==> Dispatch(a, cmd, env).0 == a
  {
    hide Find;
    hide Complaint;
    hide Replace;
    if cmd.ToggleConnection? {
      ToggleKeeps(a);
    }
  }

  lemma {:induction false} RemoveAbsent(cs: seq<Config>, id: string)
    requires !Has(cs, id)
    ensures Remove(cs, id) == cs
  {
    if cs == [] {
    } else {
      RemoveAbsent(cs[1..], id);
    }
  }

  /** Deleting a fresh copy, or a config just added but not activated, restores everything but the history. */
  lemma DeleteUndoes(a: App, cmd: Command, env: Env)
    requires Ok(a) && !Has(a.state.configs, env.uuid) && !Refused(a.state, cmd)
    requires cmd.DuplicateConfig? || (cmd.AddConfig? && !cmd.activate)
    ensures var b := Dispatch(Dispatch(a, cmd, env).0, DeleteConfig(env.uuid), env);
      b.1.None? && b.0 == a.(sent := b.0.sent)
  {
    hide Find;
    hide Complaint;
    hide Remove;
    var b := Dispatch(a, cmd, env).0;
    var cs := b.state.configs;
    assert cs == [cs[0]] + a.state.configs && cs[0].id == env.uuid;
    UndoPrepend(a.state.configs, cs[0]);
    assert b == a.(state := a.state.(configs := cs), prefs := a.prefs.(configs := cs), sent := b.sent);
    assert a.state.activeId != Some(env.uuid);
  }

  lemma UndoPrepend(cs: seq<Config>, c: Config)
    requires !Has(cs, c.id)
    ensures Has([c] + cs, c.id) && Remove([c] + cs, c.id) == cs
  {
    RemoveAbsent(cs, c.id);
    assert ([c] + cs)[1..] == cs;
  }

  /** Selecting while live moves the connection to the selected config at once, and its timer with it. */
  lemma SelectMovesConnection(a: App, id: string, env: Env)
    requires Ok(a) && Has(a.state.configs, id) && Live(a.state.conn)
    ensures var b := Dispatch(a, SelectConfig(id), env).0;
      && b.state.activeId == Some(id) && b.state.conn == Connecting(id)
      && b.timer.Some? && b.timer.value.id == id
      && TimerFires(b).state.conn.Connected? && TimerFires(b).state.conn.configId == id
  {
    SelectKeeps(a, id, env.now);
    hide Find;
    var refreshed := Find(a.state.configs, id).value.(lastUsedAt := Some(env.now));
    ReplaceKeeps(a.state.configs, id, refreshed, id);
    var b := Dispatch(a, SelectConfig(id), env).0;
    TimerKeeps(b);
  }

  predicate AllDigits(s: string) {
    forall k :: 0 <= k < |s| ==> '0' <= s[k] <= '9'
  }

  /** The host check accepts exactly a name without a colon, a colon, and a non-empty run of digits. */
  lemma HostOkIs(host: string)
    ensures HostOk(host) <==> exists name: string, port: string ::
      name != "" && ':' !in name && port != "" && AllDigits(port) && host == name + ":" + port
  {
    var i := ColonAt(host);
    if HostOk(host) {
      var name, port := host[..i], host[i + 1..];
      assert host == name + ":" + port && AllDigits(port);
    }
    if name: string, port: string :|
      name != "" && ':' !in name && port != "" && AllDigits(port) && host == name + ":" + port
    {
      FirstColon(name, port);
      forall k | |name| < k < |host| ensures '0' <= host[k] <= '9' {
        assert host[k] == port[k - |name| - 1];
      }
    }
  }

  lemma {:induction false} FirstColon(name: string, rest: string)
    requires ':' !in name
    ensures ColonAt(name + ":" + rest) == |name|
  {
    if name == "" {
    } else {
      FirstColon(name[1..], rest);
      assert (name + ":" + rest)[1..] == name[1..] + ":" + rest;
    }
  }

  /** An update touches the named config only, and neither its id nor its date of addition, whatever the patch says. */
  lemma UpdateKeepsIdentity(a: App, id: string, patch: Patch, i: nat)
    requires Ok(a) && i < |a.state.configs|
    ensures var was, now := a.state.configs, Update(a, id, patch).0.state.configs;
      && |now| == |was| && now[i].id == was[i].id && now[i].addedAt == was[i].addedAt
      && (was[i].id != id ==> now[i] == was[i])
  {
    hide Complaint;
    var cur := Find(a.state.configs, id);
    if cur.Some? && a.state.configs[i].id == id {
      SameById(a.state.configs, cur.value, a.state.configs[i]);
    }
  }

  lemma SameById(cs: seq<Config>, c: Config, d: Config)
    requires Unique(cs) && c in cs && d in cs && c.id == d.id
    ensures c == d
  {
    var i :| 0 <= i < |cs| && cs[i] == c;
    var j :| 0 <= j < |cs| && cs[j] == d;
    assert i == j;
  }

  /** A copy goes to the front under its new id; it differs from its source only in id, name, date and last use. */
  lemma DuplicateCopies(a: App, id: string, env: Env)
    requires Ok(a) && Has(a.state.configs, id) && !Has(a.state.configs, env.uuid)
    ensures var s := Dispatch(a, DuplicateConfig(id), env).0.state; var src := Find(a.state.configs, id).value;
      && s.configs[1..] == a.state.configs && Find(s.configs, env.uuid) == Some(s.configs[0])
      && s.configs[0].(id := src.id, name := src.name, addedAt := src.addedAt, lastUsedAt := src.lastUsedAt) == src
      && s.activeId == a.state.activeId && s.conn == a.state.conn
  {
  }
}
