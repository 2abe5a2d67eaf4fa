/** What every run of the registry guarantees: vetted entries, a bounded overshoot, and a faithful history. */
module RegistryTheorems {
  import opened Base
  import opened Bytes
  import opened UlidText
  import opened Registry
  import opened RegistryRuns
  import opened RegistrySteps

  lemma {:induction false} RunKeeps(c: Config, states: seq<Reg>, labels: seq<Label>)
    requires IsRun(c, states, labels)
    ensures forall i :: 0 <= i < |states| ==> Inv(c, states[i])
    decreases |labels|
  {
    hide Inv;
    hide Next;
    hide Enabled;
    hide Start;
    if labels == [] {
      StartOk(c, states[0]);
    } else {
      var n := |labels| - 1;
      assert IsRun(c, states[..n + 1], labels[..n]);
      RunKeeps(c, states[..n + 1], labels[..n]);
      assert states[..n + 1][n] == states[n];
      StepKeeps(c, states[n], labels[n]);
    }
  }

  // ---------- what is listed ----------

  lemma ListedEntry(c: Config, s: Reg, name: string)
    requires Inv(c, s) && name in s.dir && IsListed(name)
    ensures var id := ListedId(name);
      name == Final(id) && id in s.approved && s.dir[name] == s.approved[id] && c.Vets(s.dir[name])
  {
    hide Final;
    hide IsListed;
    assert name == Final(ListedId(name));
  }

  /** At step `k` xray accepted the bytes `json` in the staged file of `id`. */
  ghost predicate Accepted(states: seq<Reg>, labels: seq<Label>, k: nat, id: Id, json: Text)
    requires |states| == |labels| + 1
  {
    && k < |labels| && labels[k].Step? && labels[k].outcome == Says(Accepts)
    && labels[k].i < |states[k].adders| && states[k].adders[labels[k].i].Test? && states[k].adders[labels[k].i].id == id
    && Staging(id) in states[k].dir && states[k].dir[Staging(id)] == json
  }

  lemma ApprovedStep(c: Config, s: Reg, l: Label, id: Id)
    requires Inv(c, s) && Enabled(s, l)
    ensures var t := Next(c, s, l);
      && (id in s.approved ==> id in t.approved && t.approved[id] == s.approved[id])
      && (id in t.approved && id !in s.approved ==>
            && l.Step? && l.outcome == Says(Accepts) && s.adders[l.i].Test? && s.adders[l.i].id == id
            && t.approved[id] == s.dir[Staging(id)])
  {
    if l.Step? {
      AdderHolds(c, s, l.i);
    }
  }

  lemma {:induction false} ApprovedWasAccepted(c: Config, states: seq<Reg>, labels: seq<Label>, id: Id)
    requires IsRun(c, states, labels) && id in Last(states).approved && id !in states[0].approved
    ensures exists k: nat :: Accepted(states, labels, k, id, Last(states).approved[id])
    decreases |labels|
  {
    hide Inv;
    hide Next;
    hide Enabled;
    hide Start;
    RunKeeps(c, states, labels);
    var n := |labels| - 1;
    var before, steps := states[..n + 1], labels[..n];
    assert Last(before) == states[n];
    ApprovedStep(c, states[n], labels[n], id);
    if id in states[n].approved {
      ApprovedWasAccepted(c, before, steps, id);
      var k: nat :| Accepted(before, steps, k, id, states[n].approved[id]);
      assert before[k] == states[k] && steps[k] == labels[k];
      assert Accepted(states, labels, k, id, Last(states).approved[id]);
    } else {
      EnabledTest(states[n], labels[n]);
      assert Accepted(states, labels, n, id, Last(states).approved[id]);
    }
  }

  lemma EnabledTest(s: Reg, l: Label)
    requires Enabled(s, l) && l.Step? && s.adders[l.i].Test?
    ensures l.i < |s.adders| && Staging(s.adders[l.i].id) in s.dir
  {
  }

  /**
   * Every listed entry holds bytes that pass both safety checks, and either it was approved before the
   * run, or xray accepted those very bytes, staged under that very id, at an earlier step.
   */
  lemma ListedIsVetted(c: Config, states: seq<Reg>, labels: seq<Label>, name: string)
    requires IsRun(c, states, labels) && name in Last(states).dir && IsListed(name)
    ensures var id, json := ListedId(name), Last(states).dir[name];
      && name == Final(id) && c.Vets(json)
      && (id in states[0].approved || exists k: nat :: Accepted(states, labels, k, id, json))
  {
    hide Inv;
    hide Start;
    hide IsListed;
    RunKeeps(c, states, labels);
    ListedEntry(c, Last(states), name);
    if ListedId(name) !in states[0].approved {
      ApprovedWasAccepted(c, states, labels, ListedId(name));
    }
  }

  lemma {:induction false} ApprovedStays(c: Config, states: seq<Reg>, labels: seq<Label>, i: nat, j: nat, id: Id)
    requires IsRun(c, states, labels) && i <= j < |states| && id in states[i].approved
    ensures id in states[j].approved && states[j].approved[id] == states[i].approved[id]
    decreases j
  {
    hide Inv;
    hide Next;
    hide Enabled;
    hide Start;
    if i == j {
    } else {
      RunKeeps(c, states, labels);
      ApprovedStays(c, states, labels, i, j - 1, id);
      ApprovedStep(c, states[j - 1], labels[j - 1], id);
    }
  }

  /** A published entry never changes: a reader that saw the name may read it later and get the same bytes. */
  lemma PublishedIsStable(c: Config, states: seq<Reg>, labels: seq<Label>, i: nat, j: nat, name: string)
    requires IsRun(c, states, labels) && i <= j < |states|
    requires IsListed(name) && name in states[i].dir && name in states[j].dir
    ensures states[j].dir[name] == states[i].dir[name]
  {
    hide Inv;
    hide Start;
    hide IsListed;
    RunKeeps(c, states, labels);
    ListedEntry(c, states[i], name);
    ListedEntry(c, states[j], name);
    ApprovedStays(c, states, labels, i, j, ListedId(name));
  }

  // ---------- how many ----------

  /** With k adders at a time, at most MaxConfigs - 1 + k configs are ever published. */
  lemma QuotaBound(c: Config, states: seq<Reg>, labels: seq<Label>)
    requires IsRun(c, states, labels)
    ensures CountOf(Last(states).dir) <= c.maxConfigs - 1 + |Last(states).adders|
    ensures |Last(states).adders| == |states[0].adders|
  {
    hide Inv;
    RunKeeps(c, states, labels);
    QuotaHolds(c, Last(states));
    SameAdders(c, states, labels);
  }

  lemma QuotaHolds(c: Config, s: Reg)
    requires Inv(c, s)
    ensures CountOf(s.dir) <= c.maxConfigs - 1 + |s.adders|
  {
  }

  lemma {:induction false} SameAdders(c: Config, states: seq<Reg>, labels: seq<Label>)
    requires IsRun(c, states, labels)
    ensures |Last(states).adders| == |states[0].adders|
    decreases |labels|
  {
    hide Start;
    if labels == [] {
    } else {
      var n := |labels| - 1;
      assert IsRun(c, states[..n + 1], labels[..n]);
      SameAdders(c, states[..n + 1], labels[..n]);
      assert states[n + 1] == Next(c, states[n], labels[n]);
    }
  }

  // ---------- what the calls did ----------

  /**
   * The published entries are exactly what was there, plus what successful Adds returned, minus what was
   * removed: a refused Add has left no trace. Once no Add is in progress, nothing is staged either, save
   * files whose unlink failed.
   */
  lemma RegistryIsItsHistory(c: Config, states: seq<Reg>, labels: seq<Label>)
    requires IsRun(c, states, labels)
    ensures var s := Last(states);
      && Publishes(s.dir, Replay(states[0].base, s.log))
      && ((forall i :: 0 <= i < |s.adders| ==> s.adders[i].Idle?) ==>
            forall id: Id :: Staging(id) in s.dir ==> id in s.leaked)
  {
    RunKeeps(c, states, labels);
    hide Publishes;
    hide Replay;
    SameBase(c, states, labels);
    NoneStaged(Last(states));
  }

  lemma NoneStaged(s: Reg)
    requires StagedOk(s)
    ensures (forall i :: 0 <= i < |s.adders| ==> s.adders[i].Idle?) ==>
              forall id: Id :: Staging(id) in s.dir ==> id in s.leaked
  {
  }

  lemma {:induction false} SameBase(c: Config, states: seq<Reg>, labels: seq<Label>)
    requires IsRun(c, states, labels)
    ensures Last(states).base == states[0].base
    decreases |labels|
  {
    hide Start;
    if labels == [] {
    } else {
      var n := |labels| - 1;
      assert IsRun(c, states[..n + 1], labels[..n]);
      SameBase(c, states[..n + 1], labels[..n]);
      assert states[n + 1] == Next(c, states[n], labels[n]);
    }
  }

  /** One step of an Add changes what is published exactly if it returns success, and then by its own entry. */
  lemma OnlySuccessPublishes(c: Config, s: Reg, i: nat, o: Outcome, m: map<Id, Text>)
    requires Inv(c, s) && Enabled(s, Step(i, o)) && OutcomeFits(s.adders[i], o) && Publishes(s.dir, m)
    ensures var pc, t := s.adders[i], AddNext(c, s.dir, s.adders[i], o);
      Publishes(t.dir, if t.result.Some? && t.result.value.Added? then m[t.result.value.id := pc.json] else m)
  {
    hide Inv;
    hide Publishes;
    hide CountOf;
    AdderHolds(c, s, i);
    var pc, t := s.adders[i], AddNext(c, s.dir, s.adders[i], o);
    if pc.Publish? && o.Works? {
      PublishDir(s.dir, t.dir, pc.id, m);
    } else if HasId(pc) {
      StagingInvisible(s.dir, t.dir, pc.id, m);
    }
  }
}
