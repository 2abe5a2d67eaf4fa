/** The store and the mock engine as objects that call each other. */
module AppObjects {
  import opened Base
  import opened JsText
  import M = AppModel
  import opened AppModel

  class MockEngine {
    var conn: ConnState
    var timer: Option<Config>
    var listener: AppStore?

    constructor ()
      ensures conn == Disconnected && timer == None && listener == null
    {
      conn, timer, listener := Disconnected, None, null;
    }

    method Connect(cfg: Config)
      requires listener != null && listener.engine == this
      modifies this, listener
      ensures listener == old(listener) && listener.Abs() == M.EngineConnect(old(listener.Abs()), cfg)
    {
      ClearTimer();
      Set(Connecting(cfg.id));
      timer := Some(cfg);
    }

    method Disconnect()
      requires listener != null && listener.engine == this
      modifies this, listener
      ensures listener == old(listener) && listener.Abs() == M.EngineDisconnect(old(listener.Abs()))
    {
      ClearTimer();
      Set(Disconnected);
    }

    /** The timeout's callback. */
    method TimerFires()
      requires listener != null && listener.engine == this && timer.Some?
      modifies this, listener
      ensures listener == old(listener) && listener.Abs() == M.TimerFires(old(listener.Abs()))
    {
      var cfg := timer.value;
      timer := None;
      Set(Connected(cfg.id, Or(cfg.ping, DEFAULT_PING), Egress(cfg.host)));
    }

    /** Calls back into the store before it returns. */
    method Set(s: ConnState)
      requires listener != null && listener.engine == this
      modifies this`conn, listener
      ensures listener.Abs() == M.EngineSet(old(listener.Abs()), s)
    {
      conn := s;
      listener.OnState(s);
    }

    method ClearTimer()
      modifies this`timer
      ensures timer == None
    {
      if timer.Some? {
        timer := None;
      }
    }
  }

  class AppStore {
    var state: AppState
    var prefs: Prefs
    var sent: seq<AppState>
    const engine: MockEngine

    /** Everything the commands depend on, as one value. */
    ghost function Abs(): App
      reads this, engine
    {
      App(state, prefs, sent, engine.conn, engine.timer)
    }

    ghost predicate Wired()
      reads engine
    {
      engine.listener == this
    }

    constructor (engine: MockEngine, prefs: Prefs, initial: AppState)
      modifies engine
      ensures Wired() && this.engine == engine
      ensures Abs() == App(initial, prefs, [], old(engine.conn), old(engine.timer))
    {
      this.engine, this.prefs, state, sent := engine, prefs, initial, [];
      new;
      engine.listener := this;
    }

    method OnState(s: ConnState)
      modifies this
      ensures Abs() == M.OnState(old(Abs()), s)
    {
      if s != Disconnected && Find(state.configs, s.configId).None? {
        return;
      }
      state := state.(conn := s);
      Broadcast();
    }

    method Broadcast()
      modifies this`sent
      ensures Abs() == M.Broadcast(old(Abs()))
    {
      sent := sent + [state];
    }

    method SelectConfig(id: string, now: int) returns (thrown: Option<Thrown>)
      requires Wired()
      modifies this, engine
      ensures Wired() && (Abs(), thrown) == M.Select(old(Abs()), id, now)
    {
      var cfg := Find(state.configs, id);
      if cfg.None? {
        return Some(UnknownId(id));
      }
      var refreshed := cfg.value.(lastUsedAt := Some(now));
      var configs := Replace(state.configs, id, refreshed);
      state := state.(configs := configs, activeId := Some(id));
      if state.conn.Connecting? || state.conn.Connected? {
        engine.Connect(refreshed);
      }
      prefs := prefs.(configs := configs);
      Broadcast();
      return None;
    }

    method ToggleConnection() returns (thrown: Option<Thrown>)
      requires Wired()
      modifies this, engine
      ensures Wired() && (Abs(), thrown) == M.Toggle(old(Abs()))
    {
      var c := state.conn;
      if c.Connected? || c.Connecting? || c.Disconnecting? {
        engine.Disconnect();
        return None;
      }
      if c.Failed? {
        var cfg := Find(state.configs, c.configId);
        if cfg.None? {
          return Some(UnknownId(c.configId));
        }
        engine.Connect(cfg.value);
        return None;
      }
      if state.activeId.None? || state.activeId.value == "" {
        return None;
      }
      var cfg := Find(state.configs, state.activeId.value);
      if cfg.None? {
        return Some(UnknownId(state.activeId.value));
      }
      engine.Connect(cfg.value);
      return None;
    }

    method AddConfig(incoming: Config, activate: bool, env: Env) returns (thrown: Option<Thrown>)
      requires Wired()
      modifies this, engine
      ensures Wired() && (Abs(), thrown) == M.Add(old(Abs()), incoming, activate, env)
    {
      var complaint := Complaint(incoming);
      if complaint.Some? {
        return Some(Invalid(complaint.value));
      }
      var stamped := incoming.(id := env.uuid, addedAt := env.now);
      var configs := [stamped] + state.configs;
      var activeId := if activate then Some(stamped.id) else state.activeId;
      state := state.(configs := configs, activeId := activeId);
      prefs := prefs.(configs := configs);
      if activate && (state.conn.Connecting? || state.conn.Connected?) {
        engine.Connect(stamped);
      }
      Broadcast();
      return None;
    }

    method UpdateConfig(id: string, patch: Patch) returns (thrown: Option<Thrown>)
      requires Wired()
      modifies this, engine
      ensures Wired() && (Abs(), thrown) == M.Update(old(Abs()), id, patch)
    {
      var cur := Find(state.configs, id);
      if cur.None? {
        return Some(UnknownId(id));
      }
      var merged := Merge(cur.value, patch);
      if patch.url.Some? || patch.proto.Some? || patch.host.Some? || patch.name.Some? {
        var complaint := Complaint(merged);
        if complaint.Some? {
          return Some(Invalid(complaint.value));
        }
      }
      var configs := Replace(state.configs, id, merged);
      state := state.(configs := configs);
      prefs := prefs.(configs := configs);
      Broadcast();
      return None;
    }

    method DeleteConfig(id: string) returns (thrown: Option<Thrown>)
      requires Wired()
      modifies this, engine
      ensures Wired() && (Abs(), thrown) == M.Delete(old(Abs()), id)
    {
      if Find(state.configs, id).None? {
        return Some(UnknownId(id));
      }
      var configs := Remove(state.configs, id);
      var wasActive := state.activeId == Some(id);
      var activeId, conn := state.activeId, state.conn;
      if wasActive {
        engine.Disconnect();
        activeId := None;
        conn := Disconnected;
      }
      state := state.(configs := configs, activeId := activeId, conn := conn);
      prefs := prefs.(configs := configs);
      Broadcast();
      return None;
    }

    method DuplicateConfig(id: string, env: Env) returns (thrown: Option<Thrown>)
      requires Wired()
      modifies this, engine
      ensures Wired() && (Abs(), thrown) == M.Duplicate(old(Abs()), id, env)
    {
      var src := Find(state.configs, id);
      if src.None? {
        return Some(UnknownId(id));
      }
      var copy := src.value.(id := env.uuid, name := src.value.name + " (copy)", addedAt := env.now);
      copy := copy.(lastUsedAt := None);
      var configs := [copy] + state.configs;
      state := state.(configs := configs);
      prefs := prefs.(configs := configs);
      Broadcast();
      return None;
    }

    method SetThemePreference(preference: ThemePreference, dark: bool)
      requires Wired()
      modifies this
      ensures Wired() && Abs() == M.SetTheme(old(Abs()), preference, dark)
    {
      var theme;
      if preference == System {
        theme := if dark then Dark else Light;
      } else {
        theme := preference.theme;
      }
      state := state.(themePreference := preference, theme := theme);
      prefs := prefs.(themePreference := preference);
      Broadcast();
    }

    method OnSystemThemeChanged(dark: bool)
      requires Wired()
      modifies this
      ensures Wired() && Abs() == M.SystemThemeChanged(old(Abs()), dark)
    {
      if state.themePreference != System {
        return;
      }
      var theme := if dark then Dark else Light;
      if theme == state.theme {
        return;
      }
      state := state.(theme := theme);
      Broadcast();
    }

    method Dispatch(cmd: Command, env: Env) returns (thrown: Option<Thrown>)
      requires Wired()
      modifies this, engine
      ensures Wired() && (Abs(), thrown) == M.Dispatch(old(Abs()), cmd, env)
    {
      match cmd {
        case SelectConfig(id) => thrown := SelectConfig(id, env.now);
        case ToggleConnection => thrown := ToggleConnection();
        case AddConfig(config, activate) => thrown := AddConfig(config, activate, env);
        case UpdateConfig(id, patch) => thrown := UpdateConfig(id, patch);
        case DeleteConfig(id) => thrown := DeleteConfig(id);
        case DuplicateConfig(id) => thrown := DuplicateConfig(id, env);
        case SetThemePreference(preference) =>
          SetThemePreference(preference, env.dark);
          thrown := None;
      }
    }
  }
}
