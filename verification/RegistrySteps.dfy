/** Every step of every Add, and every Remove, keeps the registry's invariant. */
module RegistrySteps {
  import opened Base
  import opened Bytes
  import opened UlidText
  import opened Registry
  import opened RegistryRuns

  /** A step that leaves the directory and the books alone, apart from refused calls in the log. */
  lemma QuietKeeps(c: Config, s: Reg, t: Reg, i: nat, pc: Pc)
    requires Inv(c, s) && i < |s.adders| && t == s.(adders := s.adders[i := pc], log := t.log)
    requires Replay(t.base, t.log) == Replay(s.base, s.log)
    requires AdderOk(c, s, pc)
    requires HasId(pc) ==> HasId(s.adders[i]) && s.adders[i].id == pc.id
    requires HasStaged(s.adders[i]) ==> HasStaged(pc) && s.adders[i].id == pc.id
    requires Weight(pc) <= Weight(s.adders[i]) || CountOf(s.dir) < c.maxConfigs
    ensures Inv(c, t)
  {
    hide Publishes;
    hide Vetted;
    hide OnlyOwnNames;
    hide CountOf;
    QuietQuota(c, s, t, i, pc);
    QuietAdders(c, s, t, i, pc);
    StagedStays(s, t, i, pc);
  }

  lemma QuietQuota(c: Config, s: Reg, t: Reg, i: nat, pc: Pc)
    requires QuotaOk(c, s) && i < |s.adders| && t.adders == s.adders[i := pc] && t.dir == s.dir
    requires Weight(pc) <= Weight(s.adders[i]) || CountOf(s.dir) < c.maxConfigs
    ensures QuotaOk(c, t)
  {
    hide CountOf;
    QuotaMoves(c, s, i, pc);
    WeightAtMost(t.adders);
  }

  lemma QuietAdders(c: Config, s: Reg, t: Reg, i: nat, pc: Pc)
    requires AddersOk(c, s) && i < |s.adders| && t == s.(adders := s.adders[i := pc], log := t.log)
    requires AdderOk(c, s, pc)
    requires HasId(pc) ==> HasId(s.adders[i]) && s.adders[i].id == pc.id
    ensures AddersOk(c, t)
  {
    forall j | 0 <= j < |s.adders| ensures AdderOk(c, t, s.adders[j]) {
      assert AdderOk(c, s, s.adders[j]);
    }
    assert AdderOk(c, t, pc);
    OneMoves(c, s, t, i, pc);
  }

  /** The staged files that had an adder, still have one. */
  lemma StagedStays(s: Reg, t: Reg, i: nat, pc: Pc)
    requires StagedOk(s) && i < |s.adders| && t.adders == s.adders[i := pc]
    requires s.leaked <= t.leaked
    requires HasStaged(s.adders[i]) ==> s.adders[i].id in t.leaked || Staging(s.adders[i].id) !in t.dir
                                        || (HasStaged(pc) && s.adders[i].id == pc.id)
    requires forall id: Id :: Staging(id) in t.dir ==> Staging(id) in s.dir || (HasStaged(pc) && pc.id == id)
    ensures StagedOk(t)
  {
    forall id: Id | Staging(id) in t.dir && id !in t.leaked
      ensures exists j :: 0 <= j < |t.adders| && HasStaged(t.adders[j]) && t.adders[j].id == id
    {
      if HasStaged(pc) && pc.id == id {
        assert t.adders[i] == pc;
      } else {
        var j :| 0 <= j < |s.adders| && HasStaged(s.adders[j]) && s.adders[j].id == id;
        assert j != i;
        assert t.adders[j] == s.adders[j];
      }
    }
  }

  /** The steps that QuietKeeps covers: everything up to the id, refusals, and a failed publish. */
  predicate Quiet(pc: Pc, o: Outcome)
    requires OutcomeFits(pc, o)
  {
    || pc.Vet? || pc.MakeDir? || pc.Count? || (pc.MakeId? && o.Fails?) || (pc.Write? && o.Fails?)
    || (pc.Test? && !o.verdict.Accepts?) || (pc.Publish? && o.Fails?)
  }

  lemma QuietStep(c: Config, s: Reg, i: nat, o: Outcome)
    requires Inv(c, s) && Enabled(s, Step(i, o)) && OutcomeFits(s.adders[i], o) && Quiet(s.adders[i], o)
    ensures Inv(c, Next(c, s, Step(i, o)))
  {
    hide Inv;
    hide Replay;
    hide CountOf;
    var t, pc := Next(c, s, Step(i, o)), s.adders[i];
    var turn := AddNext(c, s.dir, pc, o);
    AdderHolds(c, s, i);
    if turn.result.Some? {
      ReplayPush(s.base, s.log, Returned(pc.json, turn.result.value));
    }
    QuietKeeps(c, s, t, i, turn.pc);
  }

  lemma AdderHolds(c: Config, s: Reg, i: nat)
    requires Inv(c, s) && i < |s.adders|
    ensures AdderOk(c, s, s.adders[i])
  {
  }

  lemma BeginKeeps(c: Config, s: Reg, i: nat, json: Text)
    requires Inv(c, s) && Enabled(s, Begin(i, json))
    ensures Inv(c, Next(c, s, Begin(i, json)))
  {
    hide Inv;
    QuietKeeps(c, s, Next(c, s, Begin(i, json)), i, Vet(json));
  }

  /** A fresh id belongs to no file, no approval and no other adder. */
  lemma FreshKeeps(c: Config, s: Reg, i: nat, id: Id)
    requires Inv(c, s) && Enabled(s, Step(i, Fresh(id))) && s.adders[i].MakeId?
    ensures Inv(c, Next(c, s, Step(i, Fresh(id))))
  {
    hide Publishes;
    hide Vetted;
    hide OnlyOwnNames;
    hide CountOf;
    hide Total;
    var pc := Write(s.adders[i].json, id);
    var t := Next(c, s, Step(i, Fresh(id)));
    AdderHolds(c, s, i);
    forall j | 0 <= j < |s.adders| ensures AdderOk(c, t, s.adders[j]) && (HasId(s.adders[j]) ==> s.adders[j].id != id) {
      AdderHolds(c, s, j);
    }
    assert AdderOk(c, t, pc);
    OneMoves(c, s, t, i, pc);
    QuotaMoves(c, s, i, pc);
    StagedStays(s, t, i, pc);
  }

  lemma TestKeeps(c: Config, s: Reg, i: nat)
    requires Inv(c, s) && Enabled(s, Step(i, Says(Accepts))) && s.adders[i].Test?
    ensures Inv(c, Next(c, s, Step(i, Says(Accepts))))
  {
    hide OnlyOwnNames;
    hide CountOf;
    hide Total;
    var id := s.adders[i].id;
    var pc := Publish(s.adders[i].json, id);
    var t := Next(c, s, Step(i, Says(Accepts)));
    AdderHolds(c, s, i);
    forall j | 0 <= j < |s.adders| && j != i ensures AdderOk(c, t, s.adders[j]) {
      AdderHolds(c, s, j);
      OthersId(c, s, i, j);
    }
    assert AdderOk(c, t, pc);
    OneMoves(c, s, t, i, pc);
    QuotaMoves(c, s, i, pc);
    StagedStays(s, t, i, pc);
  }

  lemma OthersId(c: Config, s: Reg, i: nat, j: nat)
    requires AddersOk(c, s) && i < |s.adders| && j < |s.adders| && i != j
    ensures HasId(s.adders[i]) && HasId(s.adders[j]) ==> s.adders[i].id != s.adders[j].id
  {
  }

  /** Writing or unlinking the staged file of adder `i` touches no other adder. */
  lemma OthersStay(c: Config, s: Reg, t: Reg, i: nat)
    requires AddersOk(c, s) && i < |s.adders| && HasId(s.adders[i])
    requires SameButStaged(s.dir, t.dir, s.adders[i].id)
    requires t.used == s.used && t.approved == s.approved
    requires t.leaked == s.leaked || t.leaked == s.leaked + {s.adders[i].id}
    ensures forall j :: 0 <= j < |s.adders| && j != i ==> AdderOk(c, t, s.adders[j])
  {
    forall j | 0 <= j < |s.adders| && j != i ensures AdderOk(c, t, s.adders[j]) {
      assert AdderOk(c, s, s.adders[j]);
      OthersId(c, s, i, j);
      StagingInvisible(s.dir, t.dir, s.adders[i].id, map[]);
    }
  }

  lemma WriteKeeps(c: Config, s: Reg, i: nat)
    requires Inv(c, s) && Enabled(s, Step(i, Works)) && s.adders[i].Write?
    ensures Inv(c, Next(c, s, Step(i, Works)))
  {
    hide Publishes;
    hide Vetted;
    hide OnlyOwnNames;
    hide CountOf;
    hide Total;
    var id, json := s.adders[i].id, s.adders[i].json;
    var pc, t := Test(json, id), Next(c, s, Step(i, Works));
    StagingInvisible(s.dir, t.dir, id, Replay(s.base, s.log));
    AdderHolds(c, s, i);
    assert AdderOk(c, t, pc);
    OthersStay(c, s, t, i);
    forall j | 0 <= j < |s.adders| && j != i ensures HasId(s.adders[j]) ==> s.adders[j].id != id {
      OthersId(c, s, i, j);
    }
    OneMoves(c, s, t, i, pc);
    QuotaMoves(c, s, i, pc);
    StagedStays(s, t, i, pc);
  }

  /** After a verdict that refuses, the staged file goes, or is given up. */
  lemma UnlinkKeeps(c: Config, s: Reg, i: nat, o: Outcome)
    requires Inv(c, s) && Enabled(s, Step(i, o)) && s.adders[i].Unlink?
    ensures Inv(c, Next(c, s, Step(i, o)))
  {
    hide Publishes;
    hide Vetted;
    hide OnlyOwnNames;
    hide CountOf;
    hide Total;
    hide Replay;
    var id, why := s.adders[i].id, s.adders[i].why;
    var t := Next(c, s, Step(i, o));
    StagingInvisible(s.dir, t.dir, id, Replay(s.base, s.log));
    ReplayPush(s.base, s.log, Returned(s.adders[i].json, Refused(why)));
    AdderHolds(c, s, i);
    assert AdderOk(c, t, Idle);
    OthersStay(c, s, t, i);
    OneMoves(c, s, t, i, Idle);
    QuotaMoves(c, s, i, Idle);
    StagedStays(s, t, i, Idle);
  }

  // ---------- publishing and removing ----------

  lemma AddListed(dir: Dir, t: Dir, id: Id, json: Text)
    requires Final(id) !in dir && t == dir[Final(id) := json]
    ensures CountOf(t) == CountOf(dir) + 1
    ensures OnlyOwnNames(dir) ==> OnlyOwnNames(t)
  {
    hide Final;
    hide IsListed;
    NamesApart(id);
    assert Listed(t) == Listed(dir) + {Final(id)};
  }

  /** A new published entry, in a directory that does not have one under that id. */
  lemma AddFinal(dir: Dir, t: Dir, id: Id, json: Text, m: map<Id, Text>)
    requires Final(id) !in dir && t == dir[Final(id) := json]
    ensures CountOf(t) == CountOf(dir) + 1
    ensures OnlyOwnNames(dir) ==> OnlyOwnNames(t)
    ensures Publishes(dir, m) ==> Publishes(t, m[id := json])
    ensures forall other: Id :: Staging(other) in t <==> Staging(other) in dir
    ensures forall other: Id :: Staging(other) in dir ==> t[Staging(other)] == dir[Staging(other)]
    ensures forall other: Id :: Final(other) in t <==> Final(other) in dir || other == id
  {
    AddListed(dir, t, id, json);
    hide Final;
    hide Staging;
    hide OnlyOwnNames;
    hide CountOf;
    forall other: Id ensures (Final(other) == Final(id) <==> other == id) && Final(id) != Staging(other) {
      NamesUnique(id, other);
    }
  }

  lemma PublishDir(dir: Dir, t: Dir, id: Id, m: map<Id, Text>)
    requires Staging(id) in dir && Final(id) !in dir
    requires t == (dir - {Staging(id)})[Final(id) := dir[Staging(id)]]
    ensures CountOf(t) == CountOf(dir) + 1
    ensures OnlyOwnNames(dir) ==> OnlyOwnNames(t)
    ensures Publishes(dir, m) ==> Publishes(t, m[id := dir[Staging(id)]])
    ensures forall other: Id :: Staging(other) in t <==> Staging(other) in dir && other != id
    ensures forall other: Id :: other != id && Staging(other) in dir ==> t[Staging(other)] == dir[Staging(other)]
    ensures forall other: Id :: Final(other) in t <==> Final(other) in dir || other == id
  {
    hide Publishes;
    hide OnlyOwnNames;
    hide CountOf;
    hide Final;
    hide Staging;
    var mid := dir - {Staging(id)};
    StagingInvisible(dir, mid, id, m);
    AddFinal(mid, t, id, dir[Staging(id)], m);
  }

  lemma PublishKeeps(c: Config, s: Reg, i: nat)
    requires Inv(c, s) && Enabled(s, Step(i, Works)) && s.adders[i].Publish?
    ensures Inv(c, Next(c, s, Step(i, Works)))
  {
    hide Publishes;
    hide OnlyOwnNames;
    hide CountOf;
    hide Total;
    hide Replay;
    var id, json := s.adders[i].id, s.adders[i].json;
    var t := Next(c, s, Step(i, Works));
    AdderHolds(c, s, i);
    PublishDir(s.dir, t.dir, id, Replay(s.base, s.log));
    ReplayPush(s.base, s.log, Returned(json, Added(id)));
    forall j | 0 <= j < |s.adders| && j != i ensures AdderOk(c, t, s.adders[j]) {
      AdderHolds(c, s, j);
      OthersId(c, s, i, j);
    }
    assert AdderOk(c, t, Idle);
    OneMoves(c, s, t, i, Idle);
    QuotaMoves(c, s, i, Idle);
    StagedStays(s, t, i, Idle);
  }

  lemma RemoveDir(dir: Dir, t: Dir, id: Id, m: map<Id, Text>)
    requires Final(id) in dir && t == dir - {Final(id)}
    ensures CountOf(t) == CountOf(dir) - 1
    ensures OnlyOwnNames(dir) ==> OnlyOwnNames(t)
    ensures Publishes(dir, m) ==> Publishes(t, m - {id})
    ensures forall other: Id :: Staging(other) in t <==> Staging(other) in dir
    ensures forall other: Id :: Staging(other) in dir ==> t[Staging(other)] == dir[Staging(other)]
    ensures forall other: Id :: Final(other) in t <==> Final(other) in dir && other != id
  {
    NamesApart(id);
    assert Listed(t) == Listed(dir) - {Final(id)};
    forall other: Id ensures (Final(other) == Final(id) <==> other == id) && Final(id) != Staging(other) {
      NamesUnique(id, other);
    }
  }

  lemma UnlistKeeps(c: Config, s: Reg, id: Id)
    requires Inv(c, s) && Enabled(s, Unlist(id))
    ensures Inv(c, Next(c, s, Unlist(id)))
  {
    hide Publishes;
    hide OnlyOwnNames;
    hide CountOf;
    hide Total;
    hide Replay;
    var t := Next(c, s, Unlist(id));
    RemoveDir(s.dir, t.dir, id, Replay(s.base, s.log));
    ReplayPush(s.base, s.log, Removed(id));
    forall j | 0 <= j < |s.adders| ensures AdderOk(c, t, s.adders[j]) {
      AdderHolds(c, s, j);
    }
  }

  lemma StepKeeps(c: Config, s: Reg, l: Label)
    requires Inv(c, s) && Enabled(s, l)
    ensures Inv(c, Next(c, s, l))
  {
    hide Inv;
    hide Next;
    match l {
      case Begin(i, json) => BeginKeeps(c, s, i, json);
      case Unlist(id) => UnlistKeeps(c, s, id);
      case Step(i, o) =>
        var pc := s.adders[i];
        if Quiet(pc, o) {
          QuietStep(c, s, i, o);
        } else if pc.MakeId? {
          FreshKeeps(c, s, i, o.id);
        } else if pc.Write? {
          WriteKeeps(c, s, i);
        } else if pc.Test? {
          TestKeeps(c, s, i);
        } else if pc.Publish? {
          PublishKeeps(c, s, i);
        } else {
          UnlinkKeeps(c, s, i, o);
        }
    }
  }

  lemma StartOk(c: Config, s: Reg)
    requires Start(c, s)
    ensures Inv(c, s)
  {
    AllIdleWeight(s.adders);
  }
}
