/** The store's calls as they run when nothing else touches the directory. */
module ConfigStore {
  import opened Base
  import opened Bytes
  import opened UlidText
  import opened Registry

  /** How the outside treats one Add. */
  datatype Script = Script(
    makeDir: bool,
    count: bool,
    newId: Option<Id>,
    write: bool,
    verdict: Verdict,
    publish: bool,
    unlink: bool)

  function Went(ok: bool): Outcome {
    if ok then Works else Fails
  }

  function OutcomeAt(sc: Script, pc: Pc): (o: Outcome)
    requires !pc.Idle?
    ensures OutcomeFits(pc, o)
  {
    match pc
    case Vet(_) => Works
    case MakeDir(_) => Went(sc.makeDir)
    case Count(_) => Went(sc.count)
    case MakeId(_) => if sc.newId.Some? then Fresh(sc.newId.value) else Fails
    case Write(_, _) => Went(sc.write)
    case Test(_, _) => Says(sc.verdict)
    case Publish(_, _) => Went(sc.publish)
    case Unlink(_, _, _) => Went(sc.unlink)
  }

  function StepsLeft(pc: Pc): nat {
    match pc
    case Vet(_) => 8
    case MakeDir(_) => 7
    case Count(_) => 6
    case MakeId(_) => 5
    case Write(_, _) => 4
    case Test(_, _) => 3
    case Publish(_, _) => 2
    case Unlink(_, _, _) => 1
    case Idle => 0
  }

  /** The steps of one Add, one after another, undisturbed. */
  function Alone(c: Config, dir: Dir, pc: Pc, sc: Script): (Dir, AddResult)
    requires !pc.Idle? && (pc.Test? || pc.Publish? ==> Staging(pc.id) in dir)
    decreases StepsLeft(pc)
  {
    var t := AddNext(c, dir, pc, OutcomeAt(sc, pc));
    if t.result.Some? then (t.dir, t.result.value) else Alone(c, t.dir, t.pc, sc)
  }

  datatype RemoveResult = Gone | ConfigUnknown | UnlinkFailed

  datatype ConfigInfo = ConfigInfo(id: Id, sha256: string, addedAt: nat)

  /** Nothing stands in the way up to the count. */
  predicate Counted(c: Config, json: Text, sc: Script) {
    c.Vets(json) && sc.makeDir && sc.count
  }

  /** Nothing stands in the way until the file is staged. */
  predicate Stages(c: Config, dir: Dir, json: Text, sc: Script) {
    Counted(c, json, sc) && CountOf(dir) < c.maxConfigs && sc.newId.Some? && sc.write
  }

  predicate AllGood(c: Config, dir: Dir, json: Text, sc: Script) {
    Stages(c, dir, json, sc) && sc.verdict.Accepts? && sc.publish
  }

  /** Where an Add that never stages its file stops. */
  lemma StopsEarly(c: Config, dir: Dir, json: Text, sc: Script)
    requires !Stages(c, dir, json, sc)
    ensures Alone(c, dir, Vet(json), sc) == (dir, Refused(
      if !c.pathSafe(json) then PathUnsafe else if !c.inboundSafe(json) then InboundUnsafe
      else if !sc.makeDir || !sc.count then IoError
      else if CountOf(dir) >= c.maxConfigs then QuotaExceeded
      else if sc.newId.None? then Internal else IoError))
  {
    hide CountOf;
    if c.Vets(json) && sc.makeDir {
      assert Alone(c, dir, Vet(json), sc) == Alone(c, dir, Count(json), sc);
      if sc.count && CountOf(dir) < c.maxConfigs {
        assert Alone(c, dir, Count(json), sc) == Alone(c, dir, MakeId(json), sc);
        if sc.newId.Some? {
          assert Alone(c, dir, MakeId(json), sc) == Alone(c, dir, Write(json, sc.newId.value), sc);
        }
      }
    }
  }

  lemma GetsStaged(c: Config, dir: Dir, json: Text, sc: Script)
    requires Stages(c, dir, json, sc)
    ensures var id := sc.newId.value;
      Alone(c, dir, Vet(json), sc) == Alone(c, dir[Staging(id) := json], Test(json, id), sc)
  {
    hide CountOf;
    hide Staging;
    assert Alone(c, dir, Vet(json), sc) == Alone(c, dir, Count(json), sc);
    assert Alone(c, dir, Count(json), sc) == Alone(c, dir, Write(json, sc.newId.value), sc);
  }

  class Store {
    const config: Config
    const digest: Text -> string
    var dir: Dir

    constructor (config: Config, digest: Text -> string, dir: Dir)
      ensures this.config == config && this.digest == digest && this.dir == dir
    {
      this.config, this.digest, this.dir := config, digest, dir;
    }

    /** Every name once, in some order. */
    method ReadDir() returns (names: seq<string>)
      ensures forall name :: name in names <==> name in dir
      ensures forall i, j :: 0 <= i < j < |names| ==> names[i] != names[j]
    {
      var left := dir.Keys;
      names := [];
      while left != {}
        invariant left <= dir.Keys
        invariant forall name :: name in names <==> name in dir && name !in left
        invariant forall i, j :: 0 <= i < j < |names| ==> names[i] != names[j]
        decreases |left|
      {
        var name :| name in left;
        names, left := names + [name], left - {name};
      }
    }

    method CountConfigs(readFails: bool) returns (n: Option<nat>)
      ensures n == if readFails then None else Some(CountOf(dir))
    {
      if readFails {
        return None;
      }
      var entries := ReadDir();
      var count := 0;
      ghost var seen: set<string> := {};
      for i := 0 to |entries|
        invariant forall name :: name in seen <==> name in entries[..i] && IsListed(name)
        invariant count == |seen|
      {
        var name := entries[i];
        assert name !in entries[..i];
        if HasSuffix(name, JSON) && ParseStrict(TrimSuffix(name, JSON)).Some? {
          count := count + 1;
          seen := seen + {name};
        }
      }
      assert seen == Listed(dir);
      return Some(count);
    }

    ghost function Info(name: string): ConfigInfo
      requires name in dir && IsListed(name)
      reads this
    {
      ConfigInfo(ListedId(name), digest(dir[name]), TimeOf(ListedId(name)))
    }

    /** One entry for each listed name, with that file's digest; nothing else, nothing twice. */
    method List(readFails: bool, unreadable: set<string>) returns (out: Option<seq<ConfigInfo>>)
      ensures out.None? <==> readFails || unreadable * Listed(dir) != {}
      ensures out.Some? ==> exists names: seq<string> ::
        && (forall name :: name in names <==> name in Listed(dir))
        && (forall i, j :: 0 <= i < j < |names| ==> names[i] != names[j])
        && |out.value| == |names|
        && forall i :: 0 <= i < |names| ==> names[i] in dir && IsListed(names[i]) && out.value[i] == Info(names[i])
    {
      hide HasSuffix;
      hide TrimSuffix;
      hide ParseStrict;
      hide ListedId;
      hide TimeOf;
      if readFails {
        return None;
      }
      var entries := ReadDir();
      var infos := [];
      ghost var names := [];
      for i := 0 to |entries|
        invariant forall name :: name in names <==> name in entries[..i] && IsListed(name)
        invariant forall a, b :: 0 <= a < b < |names| ==> names[a] != names[b]
        invariant forall name :: name in names ==> name !in unreadable && name in dir && IsListed(name)
        invariant |infos| == |names|
        invariant forall k :: 0 <= k < |names| ==> names[k] in names && infos[k] == Info(names[k])
      {
        var name := entries[i];
        assert name !in entries[..i] && name in dir;
        if HasSuffix(name, JSON) && ParseStrict(TrimSuffix(name, JSON)).Some? {
          var id := ListedId(name);
          if name in unreadable {
            assert name in unreadable * Listed(dir);
            return None;
          }
          infos := infos + [ConfigInfo(id, digest(dir[name]), TimeOf(id))];
          names := names + [name];
        }
      }
      assert unreadable * Listed(dir) == {};
      return Some(infos);
    }

    /** `unlinks` is whether the file system lets the file go. */
    method Remove(id: Id, unlinks: bool) returns (r: RemoveResult)
      modifies this
      ensures r == if Final(id) !in old(dir) then ConfigUnknown else if unlinks then Gone else UnlinkFailed
      ensures r.Gone? ==> dir == old(dir) - {Final(id)} && CountOf(dir) == CountOf(old(dir)) - 1
      ensures !r.Gone? ==> dir == old(dir)
    {
      var path := Final(id);
      if path !in dir {
        return ConfigUnknown;
      }
      if !unlinks {
        return UnlinkFailed;
      }
      NamesApart(id);
      assert Listed(dir - {path}) == Listed(dir) - {path};
      dir := dir - {path};
      return Gone;
    }

    method UnlinkStaged(staging: string, ok: bool)
      modifies this
      ensures dir == if ok then old(dir) - {staging} else old(dir)
    {
      if ok {
        dir := dir - {staging};
      }
    }

    /** Does what the small steps do; succeeds exactly if everything does, and else names the first obstacle. */
    method Add(json: Text, sc: Script) returns (r: AddResult)
      modifies this
      ensures (dir, r) == Alone(config, old(dir), Vet(json), sc)
      ensures r.Added? <==> AllGood(config, old(dir), json, sc)
      ensures r.Added? ==> sc.newId == Some(r.id) && dir == (old(dir) - {Staging(r.id)})[Final(r.id) := json]
      ensures r == Refused(PathUnsafe) <==> !config.pathSafe(json)
      ensures r == Refused(InboundUnsafe) <==> config.pathSafe(json) && !config.inboundSafe(json)
      ensures r == Refused(QuotaExceeded) <==> Counted(config, json, sc) && CountOf(old(dir)) >= config.maxConfigs
      ensures r == Refused(ValidationTimeout) <==> Stages(config, old(dir), json, sc) && sc.verdict.TimesOut?
      ensures r == Refused(ConfigInvalid) <==> Stages(config, old(dir), json, sc) && sc.verdict.Rejects?
      ensures r == Refused(Internal) <==>
        || (Counted(config, json, sc) && CountOf(old(dir)) < config.maxConfigs && sc.newId.None?)
        || (Stages(config, old(dir), json, sc) && sc.verdict.Breaks?)
      ensures r.Refused? && !Stages(config, old(dir), json, sc) ==> dir == old(dir)
      ensures r.Refused? && Stages(config, old(dir), json, sc) && !sc.unlink ==>
        dir == old(dir)[Staging(sc.newId.value) := json]
      ensures r.Refused? && sc.unlink && (sc.newId.Some? ==> Staging(sc.newId.value) !in old(dir)) ==> dir == old(dir)
    {
      hide CountOf;
      hide Staging;
      hide Alone;
      if Stages(config, dir, json, sc) {
        GetsStaged(config, dir, json, sc);
      } else {
        StopsEarly(config, dir, json, sc);
      }
      if !config.pathSafe(json) {
        return Refused(PathUnsafe);
      }
      if !config.inboundSafe(json) {
        return Refused(InboundUnsafe);
      }
      if !sc.makeDir {
        return Refused(IoError);
      }
      var n := CountConfigs(!sc.count);
      if n.None? {
        return Refused(IoError);
      }
      if n.value >= config.maxConfigs {
        return Refused(QuotaExceeded);
      }
      if sc.newId.None? {
        return Refused(Internal);
      }
      var id := sc.newId.value;
      var stagingPath := Staging(id);
      if !sc.write {
        return Refused(IoError);
      }
      dir := dir[stagingPath := json];
      r := Finish(json, id, sc);
    }

    /** From the test of the staged file on. */
    method Finish(json: Text, id: Id, sc: Script) returns (r: AddResult)
      requires Staging(id) in dir && dir[Staging(id)] == json
      modifies this
      ensures (dir, r) == Alone(config, old(dir), Test(json, id), sc)
      ensures r.Added? <==> sc.verdict.Accepts? && sc.publish
      ensures r.Added? ==> r.id == id && dir == (old(dir) - {Staging(id)})[Final(id) := json]
      ensures r == Refused(ValidationTimeout) <==> sc.verdict.TimesOut?
      ensures r == Refused(ConfigInvalid) <==> sc.verdict.Rejects?
      ensures r == Refused(Internal) <==> sc.verdict.Breaks?
      ensures r == Refused(IoError) <==> sc.verdict.Accepts? && !sc.publish
      ensures r.Refused? ==> dir == if sc.unlink then old(dir) - {Staging(id)} else old(dir)
    {
      var stagingPath := Staging(id);
      match sc.verdict {
        case Breaks =>
          UnlinkStaged(stagingPath, sc.unlink);
          return Refused(Internal);
        case TimesOut =>
          UnlinkStaged(stagingPath, sc.unlink);
          return Refused(ValidationTimeout);
        case Rejects =>
          UnlinkStaged(stagingPath, sc.unlink);
          return Refused(ConfigInvalid);
        case Accepts =>
      }
      assert Alone(config, dir, Test(json, id), sc) == Alone(config, dir, Publish(json, id), sc);
      if !sc.publish {
        assert Alone(config, dir, Publish(json, id), sc) == Alone(config, dir, Unlink(json, id, IoError), sc);
        UnlinkStaged(stagingPath, sc.unlink);
        return Refused(IoError);
      }
      dir := (dir - {stagingPath})[Final(id) := dir[stagingPath]];
      return Added(id);
    }
  }
}
