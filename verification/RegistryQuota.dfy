/** The quota bound is exact: for every number of adders there is a run that reaches it. */
module RegistryQuota {
  import opened Base
  import opened Bytes
  import opened UlidText
  import opened Registry
  import opened RegistryRuns
  import opened RegistrySteps
  import opened RegistryTheorems

  ghost predicate Reaches(c: Config, k: nat, s: Reg) {
    exists states: seq<Reg>, labels: seq<Label> ::
      IsRun(c, states, labels) && |states[0].adders| == k && Last(states) == s
  }

  lemma ReachesStep(c: Config, k: nat, s: Reg, l: Label)
    requires Reaches(c, k, s) && Enabled(s, l)
    ensures Reaches(c, k, Next(c, s, l))
  {
    hide Start;
    hide Next;
    hide Enabled;
    var states: seq<Reg>, labels: seq<Label> :| IsRun(c, states, labels) && |states[0].adders| == k && Last(states) == s;
    var more, steps := states + [Next(c, s, l)], labels + [l];
    assert IsRun(c, more, steps);
  }

  /** Nothing published yet, every adder idle, no id used. */
  function Empty(k: nat): Reg {
    Reg(map[], seq(k, i => Idle), {}, map[], {}, map[], [])
  }

  lemma ReachesEmpty(c: Config, k: nat)
    requires k > 0
    ensures Reaches(c, k, Empty(k))
  {
    var states, labels: seq<Label> := [Empty(k)], [];
    assert Listed(map[]) == {};
    assert IsRun(c, states, labels);
  }

  /** An idle adder gets past the quota check. */
  lemma Admits(c: Config, sample: Text, k: nat, s: Reg, i: nat)
    requires Reaches(c, k, s) && i < |s.adders| && s.adders[i].Idle?
    requires c.Vets(sample) && CountOf(s.dir) < c.maxConfigs
    ensures Reaches(c, k, s.(adders := s.adders[i := MakeId(sample)]))
  {
    hide Reaches;
    hide CountOf;
    ReachesStep(c, k, s, Begin(i, sample));
    var s1 := s.(adders := s.adders[i := Vet(sample)]);
    ReachesStep(c, k, s1, Step(i, Works));
    var s2 := s1.(adders := s1.adders[i := MakeDir(sample)]);
    ReachesStep(c, k, s2, Step(i, Works));
    var s3 := s2.(adders := s2.adders[i := Count(sample)]);
    ReachesStep(c, k, s3, Step(i, Works));
    assert s3.adders[i := MakeId(sample)] == s.adders[i := MakeId(sample)];
  }

  /** All ids used so far are below `n`. */
  ghost predicate UsedBelow(s: Reg, n: nat) {
    forall id :: id in s.used ==> id < n
  }

  /** An adder with an id gets as far as publishing it. */
  lemma Stages(c: Config, sample: Text, k: nat, s: Reg, i: nat, id: Id) returns (t: Reg)
    requires Reaches(c, k, s) && i < |s.adders| && s.adders[i] == MakeId(sample) && id !in s.used
    ensures Reaches(c, k, t) && t.adders == s.adders[i := Publish(sample, id)] && t.used == s.used + {id}
    ensures t.dir == s.dir[Staging(id) := sample]
  {
    hide Reaches;
    hide CountOf;
    hide Staging;
    ReachesStep(c, k, s, Step(i, Fresh(id)));
    var s1 := s.(adders := s.adders[i := Write(sample, id)], used := s.used + {id});
    ReachesStep(c, k, s1, Step(i, Works));
    var s2 := s1.(adders := s1.adders[i := Test(sample, id)], dir := s.dir[Staging(id) := sample]);
    ReachesStep(c, k, s2, Step(i, Says(Accepts)));
    t := s2.(adders := s2.adders[i := Publish(sample, id)], approved := s2.approved[id := sample]);
    assert t.adders == s.adders[i := Publish(sample, id)];
  }

  /** An admitted adder publishes under id `n`. */
  lemma Publishes1(c: Config, sample: Text, k: nat, s: Reg, i: nat, n: nat) returns (t: Reg)
    requires Reaches(c, k, s) && i < |s.adders| && s.adders[i] == MakeId(sample)
    requires UsedBelow(s, n) && Fits(n)
    ensures Reaches(c, k, t) && t.adders == s.adders[i := Idle] && UsedBelow(t, n + 1)
    ensures CountOf(t.dir) == CountOf(s.dir) + 1
  {
    hide Reaches;
    hide CountOf;
    hide Final;
    hide Staging;
    var id: Id := n;
    FinalFree(c, k, s, id);
    NamesUnique(id, id);
    var s3 := Stages(c, sample, k, s, i, id);
    StagingInvisible(s.dir, s3.dir, id, map[]);
    ReachesStep(c, k, s3, Step(i, Works));
    t := Next(c, s3, Step(i, Works));
    PublishDir(s3.dir, t.dir, id, map[]);
    assert t.adders == s.adders[i := Idle];
  }

  lemma FinalFree(c: Config, k: nat, s: Reg, id: Id)
    requires Reaches(c, k, s) && id !in s.used
    ensures Final(id) !in s.dir
  {
    var states: seq<Reg>, labels: seq<Label> :| IsRun(c, states, labels) && |states[0].adders| == k && Last(states) == s;
    RunKeeps(c, states, labels);
    assert UsedOk(s);
  }

  /** One adder alone fills the registry, up to `n` configs. */
  lemma {:induction false} Fill(c: Config, sample: Text, k: nat, n: nat) returns (s: Reg)
    requires k > 0 && c.Vets(sample) && n <= c.maxConfigs && n <= 8 * Pow32(SIZE - 1)
    ensures Reaches(c, k, s) && s.adders == Empty(k).adders && UsedBelow(s, n) && CountOf(s.dir) == n
  {
    hide Reaches;
    hide Pow32;
    if n == 0 {
      s := Empty(k);
      ReachesEmpty(c, k);
      assert Listed(map[]) == {};
    } else {
      s := Fill(c, sample, k, n - 1);
      hide CountOf;
      Admits(c, sample, k, s, 0);
      var t := s.(adders := s.adders[0 := MakeId(sample)]);
      s := Publishes1(c, sample, k, t, 0, n - 1);
      assert s.adders == Empty(k).adders;
    }
  }

  /** While the count stays below the quota, every adder in turn gets past the check. */
  lemma {:induction false} Climb(c: Config, sample: Text, k: nat, s: Reg, j: nat) returns (t: Reg)
    requires Reaches(c, k, s) && s.adders == Empty(k).adders && j <= k
    requires c.Vets(sample) && CountOf(s.dir) < c.maxConfigs
    ensures Reaches(c, k, t) && t == s.(adders := t.adders)
    ensures t.adders == seq(k, i => if i < j then MakeId(sample) else Idle)
  {
    hide Reaches;
    hide CountOf;
    t := s;
    if j == 0 {
    } else {
      t := Climb(c, sample, k, s, j - 1);
      Admits(c, sample, k, t, j - 1);
      t := t.(adders := t.adders[j - 1 := MakeId(sample)]);
    }
    assert t.adders == seq(k, i => if i < j then MakeId(sample) else Idle);
  }

  /** Then every one of them publishes. */
  lemma {:induction false} Overshoot(c: Config, sample: Text, k: nat, s: Reg, n: nat, j: nat) returns (t: Reg)
    requires Reaches(c, k, s) && s.adders == seq(k, i => MakeId(sample)) && j <= k
    requires UsedBelow(s, n) && n + k <= 8 * Pow32(SIZE - 1)
    ensures Reaches(c, k, t) && UsedBelow(t, n + j) && CountOf(t.dir) == CountOf(s.dir) + j
    ensures t.adders == seq(k, i => if i < j then Idle else MakeId(sample))
  {
    hide Reaches;
    hide CountOf;
    hide Pow32;
    t := s;
    if j == 0 {
    } else {
      t := Overshoot(c, sample, k, s, n, j - 1);
      t := Publishes1(c, sample, k, t, j - 1, n + j - 1);
    }
    assert t.adders == seq(k, i => if i < j then Idle else MakeId(sample));
  }

  /**
   * Count and publish are separate steps, so k adders can overshoot the quota by k - 1, and by no more. Any
   * config that the safety checks let through will do.
   */
  lemma QuotaBoundIsReached(c: Config, sample: Text, k: nat) returns (states: seq<Reg>, labels: seq<Label>)
    requires k > 0 && c.maxConfigs > 0 && c.Vets(sample) && c.maxConfigs - 1 + k <= 8 * Pow32(SIZE - 1)
    ensures IsRun(c, states, labels) && |states[0].adders| == k
    ensures CountOf(Last(states).dir) == c.maxConfigs - 1 + k
  {
    hide CountOf;
    hide Pow32;
    hide Next;
    hide Enabled;
    hide Start;
    var s := Fill(c, sample, k, c.maxConfigs - 1);
    s := Climb(c, sample, k, s, k);
    assert s.adders == seq(k, i => MakeId(sample));
    s := Overshoot(c, sample, k, s, c.maxConfigs - 1, k);
    states, labels :| IsRun(c, states, labels) && |states[0].adders| == k && Last(states) == s;
  }
}
