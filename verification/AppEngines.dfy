/** The store under an engine that, besides what the mock does, may report any state at any time. */
module AppEngines {
  import opened Base
  import opened AppModel
  import opened AppTheorems

  datatype AnyEvent = Own(event: Event) | Reports(conn: ConnState)

  predicate AnyPossible(a: App, e: AnyEvent) {
    e.Own? ==> Possible(a, e.event)
  }

  function AnyNext(a: App, e: AnyEvent): App
    requires AnyPossible(a, e)
  {
    match e
    case Own(event) => Next(a, event)
    case Reports(conn) => EngineSet(a, conn)
  }

  ghost predicate IsAnyRun(apps: seq<App>, events: seq<AnyEvent>) {
    && |apps| == |events| + 1 && Start(apps[0])
    && forall i :: 0 <= i < |events| ==> AnyPossible(apps[i], events[i]) && apps[i + 1] == AnyNext(apps[i], events[i])
  }

  /** A toggle throws exactly if the config it would reconnect to is gone. */
  lemma ToggleThrowsIff(a: App)
    ensures Toggle(a).1.Some? <==>
      || (a.state.conn.Failed? && !Has(a.state.configs, a.state.conn.configId))
      || (a.state.conn == Disconnected && a.state.activeId.Some? && a.state.activeId.value != ""
          && !Has(a.state.configs, a.state.activeId.value))
  {
    hide Find;
  }

  /** What does not depend on the engine's manners: the active config is there. */
  predicate ActiveOk(s: AppState) {
    s.activeId.Some? ==> Has(s.configs, s.activeId.value)
  }

  /** The step does not bring a failure in by itself. */
  predicate NoNewFailure(a: App, b: App) {
    b.state.conn.Failed? ==> a.state.conn.Failed?
  }

  /** Whatever the engine says, only the connection changes, and fails only if the engine says so. */
  lemma EngineLeaves(a: App, s: ConnState)
    ensures var b := EngineSet(a, s);
      && b.state == a.state.(conn := b.state.conn) && (b.state.conn == a.state.conn || b.state.conn == s)
  {
    hide Find;
  }

  lemma ConnectLeaves(a: App, cfg: Config)
    ensures var b := EngineConnect(a, cfg);
      b.state == a.state.(conn := b.state.conn) && NoNewFailure(a, b)
  {
    hide EngineSet;
    EngineLeaves(a.(timer := None), Connecting(cfg.id));
  }

  lemma DisconnectLeaves(a: App)
    ensures var b := EngineDisconnect(a);
      b.state == a.state.(conn := b.state.conn) && NoNewFailure(a, b)
  {
    hide EngineSet;
    EngineLeaves(a.(timer := None), Disconnected);
  }

  lemma SelectActive(a: App, id: string, now: int)
    requires ActiveOk(a.state)
    ensures var b := Select(a, id, now).0; ActiveOk(b.state) && NoNewFailure(a, b)
  {
    hide Find;
    hide Replace;
    hide EngineConnect;
    var cfg := Find(a.state.configs, id);
    if cfg.Some? {
      var refreshed := cfg.value.(lastUsedAt := Some(now));
      var configs := Replace(a.state.configs, id, refreshed);
      ReplaceKeeps(a.state.configs, id, refreshed, id);
      ConnectLeaves(a.(state := a.state.(configs := configs, activeId := Some(id))), refreshed);
    }
  }

  lemma AddActive(a: App, incoming: Config, activate: bool, env: Env)
    requires ActiveOk(a.state) && !Has(a.state.configs, env.uuid)
    ensures var b := Add(a, incoming, activate, env).0; ActiveOk(b.state) && NoNewFailure(a, b)
  {
    hide Find;
    hide Complaint;
    hide EngineConnect;
    var stamped := incoming.(id := env.uuid, addedAt := env.now);
    var configs := [stamped] + a.state.configs;
    PrependKeeps(a.state.configs, stamped, stamped.id);
    if a.state.activeId.Some? {
      PrependKeeps(a.state.configs, stamped, a.state.activeId.value);
    }
    var activeId := if activate then Some(stamped.id) else a.state.activeId;
    ConnectLeaves(a.(state := a.state.(configs := configs, activeId := activeId), prefs := a.prefs.(configs := configs)),
                  stamped);
  }

  lemma UpdateActive(a: App, id: string, patch: Patch)
    requires ActiveOk(a.state)
    ensures var b := Update(a, id, patch).0; ActiveOk(b.state) && NoNewFailure(a, b)
  {
    hide Find;
    hide Replace;
    hide Complaint;
    var cur := Find(a.state.configs, id);
    if cur.Some? && a.state.activeId.Some? {
      ReplaceKeeps(a.state.configs, id, Merge(cur.value, patch), a.state.activeId.value);
    }
  }

  lemma DeleteActive(a: App, id: string)
    requires ActiveOk(a.state)
    ensures var b := Delete(a, id).0; ActiveOk(b.state) && NoNewFailure(a, b)
  {
    hide Find;
    hide Remove;
    hide EngineDisconnect;
    if a.state.activeId.Some? {
      RemoveHas(a.state.configs, id, a.state.activeId.value);
    }
    DisconnectLeaves(a);
  }

  lemma DuplicateActive(a: App, id: string, env: Env)
    requires ActiveOk(a.state) && !Has(a.state.configs, env.uuid)
    ensures var b := Duplicate(a, id, env).0; ActiveOk(b.state) && NoNewFailure(a, b)
  {
    hide Find;
    var src := Find(a.state.configs, id);
    if src.Some? && a.state.activeId.Some? {
      var copy := src.value.(id := env.uuid, name := src.value.name + " (copy)", addedAt := env.now, lastUsedAt := None);
      PrependKeeps(a.state.configs, copy, a.state.activeId.value);
    }
  }

  lemma ToggleActive(a: App)
    requires ActiveOk(a.state)
    ensures var b := Toggle(a).0; ActiveOk(b.state) && NoNewFailure(a, b)
  {
    hide Find;
    hide EngineConnect;
    hide EngineDisconnect;
    DisconnectLeaves(a);
    var wanted := if a.state.conn.Failed? then Some(a.state.conn.configId) else a.state.activeId;
    if wanted.Some? && Has(a.state.configs, wanted.value) {
      ConnectLeaves(a, Find(a.state.configs, wanted.value).value);
    }
  }

  lemma AnyStep(a: App, e: AnyEvent)
    requires AnyPossible(a, e) && ActiveOk(a.state)
    ensures ActiveOk(AnyNext(a, e).state)
    ensures !(e.Reports? && e.conn.Failed?) ==> NoNewFailure(a, AnyNext(a, e))
  {
    hide Find;
    hide EngineSet;
    hide ActiveOk;
    match e {
      case Reports(conn) => EngineLeaves(a, conn); SameActive(a, EngineSet(a, conn));
      case Own(TimerFired) =>
        var cfg := a.timer.value;
        var up := Connected(cfg.id, Or(cfg.ping, DEFAULT_PING), Egress(cfg.host));
        EngineLeaves(a.(timer := None), up);
        SameActive(a, EngineSet(a.(timer := None), up));
      case Own(ThemeChanged(dark)) => SameActive(a, SystemThemeChanged(a, dark));
      case Own(Dispatched(cmd, env)) =>
        match cmd {
          case SelectConfig(id) => SelectActive(a, id, env.now);
          case ToggleConnection => ToggleActive(a);
          case AddConfig(config, activate) => AddActive(a, config, activate, env);
          case UpdateConfig(id, patch) => UpdateActive(a, id, patch);
          case DeleteConfig(id) => DeleteActive(a, id);
          case DuplicateConfig(id) => DuplicateActive(a, id, env);
          case SetThemePreference(preference) => SameActive(a, SetTheme(a, preference, env.dark));
        }
    }
  }

  lemma SameActive(a: App, b: App)
    requires b.state.configs == a.state.configs && b.state.activeId == a.state.activeId
    ensures ActiveOk(a.state) ==> ActiveOk(b.state)
  {
  }

  lemma {:induction false} AnyRunActive(apps: seq<App>, events: seq<AnyEvent>)
    requires IsAnyRun(apps, events)
    ensures ActiveOk(Last(apps).state)
    ensures (forall e :: e in events ==> !(e.Reports? && e.conn.Failed?)) ==> !Last(apps).state.conn.Failed?
    decreases |events|
  {
    hide AnyNext;
    hide ActiveOk;
    if events == [] {
      StartActive(apps[0]);
    } else {
      var n := |events| - 1;
      assert IsAnyRun(apps[..n + 1], events[..n]);
      AnyRunActive(apps[..n + 1], events[..n]);
      assert Last(apps[..n + 1]) == apps[n] && events[n] in events;
      AnyStep(apps[n], events[n]);
    }
  }

  lemma StartActive(a: App)
    requires Start(a)
    ensures ActiveOk(a.state) && !a.state.conn.Failed?
  {
  }

  /**
   * In every run under any such engine, a toggle throws exactly if the connection has failed on a config that
   * has been deleted since; and that takes an engine that reported a failure.
   */
  lemma ToggleThrowsOnlyAfterFailure(apps: seq<App>, events: seq<AnyEvent>)
    requires IsAnyRun(apps, events)
    ensures var a := Last(apps);
      Toggle(a).1.Some? <==> a.state.conn.Failed? && !Has(a.state.configs, a.state.conn.configId)
    ensures Toggle(Last(apps)).1.Some? ==> exists e :: e in events && e.Reports? && e.conn.Failed?
  {
    hide Toggle;
    hide Find;
    AnyRunActive(apps, events);
    ToggleThrowsIff(Last(apps));
  }

  /** The three events after which a toggle throws, from every start with two configs. */
  function FailSelectDelete(x: string, y: string, env: Env): seq<AnyEvent> {
    [Reports(Failed(x)), Own(Dispatched(SelectConfig(y), env)), Own(Dispatched(DeleteConfig(x), env))]
  }

  lemma FailedThenSelected(a: App, x: string, y: string, env: Env)
    requires Has(a.state.configs, x) && Has(a.state.configs, y)
    ensures var b := EngineSet(a, Failed(x)); var c := Select(b, y, env.now).0;
      && b.state == a.state.(conn := Failed(x))
      && c.state.conn == Failed(x) && c.state.activeId == Some(y) && Has(c.state.configs, x)
  {
    hide Find;
    hide Replace;
    var refreshed := Find(a.state.configs, y).value.(lastUsedAt := Some(env.now));
    ReplaceKeeps(a.state.configs, y, refreshed, x);
  }

  /** The failure is about one config, the user selects another and deletes the first: the next toggle throws. */
  lemma ToggleCanThrow(a: App, x: string, y: string, env: Env) returns (apps: seq<App>)
    requires Start(a) && x != y && Has(a.state.configs, x) && Has(a.state.configs, y)
    ensures IsAnyRun(apps, FailSelectDelete(x, y, env)) && apps[0] == a
    ensures Toggle(Last(apps)).1 == Some(UnknownId(x))
  {
    hide Find;
    hide Remove;
    hide Replace;
    FailedThenSelected(a, x, y, env);
    var b := EngineSet(a, Failed(x));
    var c := Select(b, y, env.now).0;
    var d := Delete(c, x).0;
    RemoveHas(c.state.configs, x, x);
    apps := [a, b, c, d];
    hide Select;
    hide EngineSet;
    assert d.state.conn == Failed(x) && !Has(d.state.configs, x);
  }
}
