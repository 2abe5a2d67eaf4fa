/** The registry under any interleaving of Add steps and Removes. */
module RegistryRuns {
  import opened Base
  import opened Bytes
  import opened UlidText
  import opened Registry

  datatype Event = Returned(json: Text, result: AddResult) | Removed(id: Id)

  /**
   * `adders` are the calls that may be in progress at once, each at its own step. `used` are the ids handed
   * out so far; `approved` is what xray accepted under which id; `leaked` are the ids whose unlink failed.
   */
  datatype Reg = Reg(
    dir: Dir,
    adders: seq<Pc>,
    used: set<Id>,
    approved: map<Id, Text>,
    leaked: set<Id>,
    base: map<Id, Text>,   // what was published before the run
    log: seq<Event>)

  datatype Label = Begin(i: nat, json: Text) | Step(i: nat, outcome: Outcome) | Unlist(id: Id)

  predicate Enabled(s: Reg, l: Label) {
    match l
    case Begin(i, _) => i < |s.adders| && s.adders[i].Idle?
    case Step(i, o) =>
      && i < |s.adders| && OutcomeFits(s.adders[i], o)
      && (s.adders[i].Publish? || s.adders[i].Test? ==> Staging(s.adders[i].id) in s.dir)
      && (o.Fresh? ==> o.id !in s.used)
    case Unlist(id) => Final(id) in s.dir
  }

  function Next(c: Config, s: Reg, l: Label): Reg
    requires Enabled(s, l)
  {
    match l
    case Begin(i, json) => s.(adders := s.adders[i := Vet(json)])
    case Step(i, o) =>
      var pc := s.adders[i];
      var t := AddNext(c, s.dir, pc, o);
      s.(dir := t.dir, adders := s.adders[i := t.pc],
         used := if o.Fresh? then s.used + {o.id} else s.used,
         approved := if o == Says(Accepts) then s.approved[pc.id := s.dir[Staging(pc.id)]] else s.approved,
         leaked := if pc.Unlink? && o.Fails? then s.leaked + {pc.id} else s.leaked,
         log := if t.result.Some? then s.log + [Returned(pc.json, t.result.value)] else s.log)
    case Unlist(id) => s.(dir := s.dir - {Final(id)}, log := s.log + [Removed(id)])
  }

  ghost predicate IsRun(c: Config, states: seq<Reg>, labels: seq<Label>) {
    && |states| == |labels| + 1 && Start(c, states[0])
    && forall i :: 0 <= i < |labels| ==> Enabled(states[i], labels[i]) && states[i + 1] == Next(c, states[i], labels[i])
  }

  // ---------- the invariant ----------

  function Apply(m: map<Id, Text>, e: Event): map<Id, Text> {
    match e
    case Returned(json, result) => if result.Added? then m[result.id := json] else m
    case Removed(id) => m - {id}
  }

  /** What the history says is published: what was there, plus successful Adds, minus Removes. */
  function Replay(base: map<Id, Text>, log: seq<Event>): map<Id, Text> {
    if log == [] then base else Apply(Replay(base, log[..|log| - 1]), Last(log))
  }

  /** The directory's published entries are exactly `m`. */
  ghost predicate Publishes(dir: Dir, m: map<Id, Text>) {
    && (forall id: Id :: Final(id) in dir <==> id in m)
    && (forall id: Id :: id in m ==> dir[Final(id)] == m[id])
  }

  ghost predicate OnlyOwnNames(dir: Dir) {
    forall name :: name in dir && IsListed(name) ==> name == Final(ListedId(name))
  }

  ghost predicate Vetted(c: Config, m: map<Id, Text>, approved: map<Id, Text>) {
    forall id: Id :: id in m ==> id in approved && approved[id] == m[id] && c.Vets(m[id])
  }

  predicate HasId(pc: Pc) {
    pc.Write? || pc.Test? || pc.Publish? || pc.Unlink?
  }

  predicate HasStaged(pc: Pc) {
    pc.Test? || pc.Publish? || pc.Unlink?
  }

  /** Past the quota check, not yet finished. */
  predicate Admitted(pc: Pc) {
    pc.MakeId? || HasId(pc)
  }

  function Weight(pc: Pc): nat {
    if Admitted(pc) then 1 else 0
  }

  ghost predicate AdderOk(c: Config, s: Reg, pc: Pc) {
    && (!pc.Idle? && !pc.Vet? ==> c.Vets(pc.json))
    && (HasId(pc) ==> pc.id in s.used && Final(pc.id) !in s.dir && pc.id !in s.leaked)
    && (pc.Write? || pc.Test? ==> pc.id !in s.approved)
    && (pc.Publish? ==> pc.id in s.approved && s.approved[pc.id] == pc.json)
    && (pc.Write? ==> Staging(pc.id) !in s.dir)
    && (HasStaged(pc) ==> Staging(pc.id) in s.dir && s.dir[Staging(pc.id)] == pc.json)
  }

  ghost predicate AddersOk(c: Config, s: Reg) {
    && (forall i :: 0 <= i < |s.adders| ==> AdderOk(c, s, s.adders[i]))
    && (forall i, j :: 0 <= i < j < |s.adders| && HasId(s.adders[i]) && HasId(s.adders[j]) ==>
          s.adders[i].id != s.adders[j].id)
  }

  /** A staged file has an adder that will deal with it, or one that failed to. */
  ghost predicate StagedOk(s: Reg) {
    forall id: Id :: Staging(id) in s.dir ==>
      id in s.leaked || exists i :: 0 <= i < |s.adders| && HasStaged(s.adders[i]) && s.adders[i].id == id
  }

  ghost predicate UsedOk(s: Reg) {
    forall id: Id ::
      Final(id) in s.dir || Staging(id) in s.dir || id in s.approved || id in s.leaked ==> id in s.used
  }

  ghost predicate QuotaOk(c: Config, s: Reg) {
    CountOf(s.dir) + Total(s.adders, Weight) <= c.maxConfigs - 1 + |s.adders|
  }

  ghost predicate Inv(c: Config, s: Reg) {
    && Publishes(s.dir, Replay(s.base, s.log)) && Vetted(c, Replay(s.base, s.log), s.approved)
    && OnlyOwnNames(s.dir)
    && AddersOk(c, s) && StagedOk(s) && UsedOk(s) && QuotaOk(c, s)
  }

  /** A directory that earlier runs left behind, and no Add in progress. */
  ghost predicate Start(c: Config, s: Reg) {
    && s.log == [] && (forall i :: 0 <= i < |s.adders| ==> s.adders[i].Idle?)
    && Publishes(s.dir, s.base) && Vetted(c, s.base, s.approved) && OnlyOwnNames(s.dir)
    && (forall id: Id :: Staging(id) in s.dir ==> id in s.leaked)
    && UsedOk(s)
    && CountOf(s.dir) <= c.maxConfigs - 1 + |s.adders|
  }

  // ---------- parts of a step ----------

  lemma ReplayPush(base: map<Id, Text>, log: seq<Event>, e: Event)
    ensures Replay(base, log + [e]) == Apply(Replay(base, log), e)
  {
    assert (log + [e])[..|log|] == log;
  }

  /** `now` differs from `dir` at most at the staged name of `id`. */
  ghost predicate SameButStaged(dir: Dir, now: Dir, id: Id) {
    forall name :: name != Staging(id) ==> (name in dir <==> name in now) && (name in dir ==> now[name] == dir[name])
  }

  /** Staging is invisible: it changes no published entry, no listing and no count. */
  lemma StagingInvisible(dir: Dir, now: Dir, id: Id, m: map<Id, Text>)
    requires SameButStaged(dir, now, id)
    ensures Listed(now) == Listed(dir) && CountOf(now) == CountOf(dir)
    ensures Publishes(dir, m) ==> Publishes(now, m)
    ensures OnlyOwnNames(dir) ==> OnlyOwnNames(now)
    ensures forall other: Id :: other != id ==> (Staging(other) in now <==> Staging(other) in dir)
    ensures forall other: Id :: other != id && Staging(other) in dir ==> now[Staging(other)] == dir[Staging(other)]
    ensures forall other: Id :: Final(other) in now <==> Final(other) in dir
  {
    NamesApart(id);
    assert Listed(now) == Listed(dir);
    forall other: Id ensures Final(other) != Staging(id) && (other != id ==> Staging(other) != Staging(id)) {
      NamesUnique(other, id);
    }
  }

  /** One adder moves on, the others stand where they stood. */
  lemma OneMoves(c: Config, s: Reg, t: Reg, i: nat, pc: Pc)
    requires AddersOk(c, s) && i < |s.adders| && t.adders == s.adders[i := pc]
    requires AdderOk(c, t, pc)
    requires forall j :: 0 <= j < |s.adders| && j != i ==> AdderOk(c, t, s.adders[j])
    requires HasId(pc) ==> forall j :: 0 <= j < |s.adders| && j != i && HasId(s.adders[j]) ==> s.adders[j].id != pc.id
    ensures AddersOk(c, t)
  {
    hide AdderOk;
  }

  lemma QuotaMoves(c: Config, s: Reg, i: nat, pc: Pc)
    requires i < |s.adders|
    ensures Total(s.adders[i := pc], Weight) == Total(s.adders, Weight) - Weight(s.adders[i]) + Weight(pc)
  {
    TotalUpdate(s.adders, i, pc, Weight);
  }

  lemma {:induction false} WeightAtMost(adders: seq<Pc>)
    ensures Total(adders, Weight) <= |adders|
  {
    if adders == [] {
    } else {
      WeightAtMost(adders[1..]);
    }
  }

  lemma {:induction false} AllIdleWeight(adders: seq<Pc>)
    requires forall i :: 0 <= i < |adders| ==> adders[i].Idle?
    ensures Total(adders, Weight) == 0
  {
    if adders == [] {
    } else {
      AllIdleWeight(adders[1..]);
    }
  }
}
