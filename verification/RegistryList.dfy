/** A List whose directory scan and file reads are spread over the steps of a run. */
module RegistryList {
  import opened Base
  import opened Bytes
  import opened UlidText
  import opened Registry
  import opened RegistryRuns
  import opened RegistrySteps
  import opened RegistryTheorems

  datatype Entry = Entry(id: Id, json: Text)

  /** The names of a scan, in the order in which they are read, and the state in which each is read. */
  predicate Reads(states: seq<Reg>, i: nat, names: seq<string>, at: seq<nat>) {
    && i < |states| && |names| == |at|
    && (forall k :: 0 <= k < |names| ==> names[k] in Listed(states[i].dir))
    && (forall k :: 0 <= k < |at| ==> i <= at[k] < |states|)
  }

  /** What the loop returns: the first file that has gone makes the whole call fail. */
  function SpreadList(states: seq<Reg>, i: nat, names: seq<string>, at: seq<nat>): Option<seq<Entry>>
    requires Reads(states, i, names, at)
    decreases |names|
  {
    if names == [] then Some([])
    else
      var n := |names| - 1;
      var es := SpreadList(states, i, names[..n], at[..n]);
      if es.None? || names[n] !in states[at[n]].dir then None
      else Some(es.value + [Entry(ListedId(names[n]), states[at[n]].dir[names[n]])])
  }

  /** The loop's result, entry by entry. */
  lemma {:induction false} SpreadIs(states: seq<Reg>, i: nat, names: seq<string>, at: seq<nat>)
    requires Reads(states, i, names, at)
    ensures var r := SpreadList(states, i, names, at);
      && (r.Some? <==> forall k :: 0 <= k < |names| ==> names[k] in states[at[k]].dir)
      && (r.Some? ==> |r.value| == |names| && forall k :: 0 <= k < |names| ==>
            names[k] in states[at[k]].dir && r.value[k] == Entry(ListedId(names[k]), states[at[k]].dir[names[k]]))
    decreases |names|
  {
    hide IsListed;
    hide ListedId;
    if names == [] {
    } else {
      var n := |names| - 1;
      SpreadIs(states, i, names[..n], at[..n]);
      assert forall k :: 0 <= k < n ==> names[..n][k] == names[k] && at[..n][k] == at[k];
    }
  }

  // ---------- how long a published name stays ----------

  /** Only its own Remove takes a published entry away. */
  lemma EntryStays(c: Config, s: Reg, l: Label, id: Id)
    requires Inv(c, s) && Enabled(s, l) && Final(id) in s.dir && l != Unlist(id)
    ensures Final(id) in Next(c, s, l).dir
  {
    hide Inv;
    hide CountOf;
    if l.Step? && HasId(s.adders[l.i]) {
      NamesUnique(id, s.adders[l.i].id);
    } else if l.Unlist? {
      NamesUnique(id, l.id);
    }
  }

  /** The id was handed out, is not published, and no Add holds it. */
  ghost predicate Gone(s: Reg, id: Id) {
    && id in s.used && Final(id) !in s.dir
    && forall k :: 0 <= k < |s.adders| && HasId(s.adders[k]) ==> s.adders[k].id != id
  }

  lemma RemovedIsGone(c: Config, s: Reg, id: Id)
    requires Inv(c, s) && Enabled(s, Unlist(id))
    ensures Gone(Next(c, s, Unlist(id)), id)
  {
    forall k | 0 <= k < |s.adders| && HasId(s.adders[k]) ensures s.adders[k].id != id {
      AdderHolds(c, s, k);
    }
  }

  /** Ids are not handed out twice, so what is gone stays gone. */
  lemma GoneStays(c: Config, s: Reg, l: Label, id: Id)
    requires Gone(s, id) && Enabled(s, l)
    ensures Gone(Next(c, s, l), id)
  {
    hide CountOf;
    hide Final;
    hide Staging;
    var t := Next(c, s, l);
    if l.Step? {
      var pc := s.adders[l.i];
      if HasId(pc) {
        NamesUnique(id, pc.id);
      }
    }
    forall k | 0 <= k < |t.adders| && HasId(t.adders[k]) ensures t.adders[k].id != id {
      if !(l.Step? && k == l.i) && !(l.Begin? && k == l.i) {
        assert t.adders[k] == s.adders[k];
      }
    }
  }

  lemma {:induction false} GoneLater(c: Config, states: seq<Reg>, labels: seq<Label>, l: nat, j: nat, id: Id)
    requires IsRun(c, states, labels) && l <= j < |states| && Gone(states[l], id)
    ensures Gone(states[j], id)
    decreases j
  {
    hide Gone;
    hide Next;
    hide Enabled;
    hide Start;
    if l == j {
    } else {
      GoneLater(c, states, labels, l, j - 1, id);
      GoneStays(c, states[j - 1], labels[j - 1], id);
    }
  }

  lemma {:induction false} StaysUnlessRemoved(c: Config, states: seq<Reg>, labels: seq<Label>, i: nat, j: nat, id: Id)
    requires IsRun(c, states, labels) && i <= j < |states| && Final(id) in states[i].dir
    requires forall l :: i <= l < j ==> labels[l] != Unlist(id)
    ensures Final(id) in states[j].dir
    decreases j
  {
    hide Inv;
    hide Next;
    hide Enabled;
    hide Start;
    hide Final;
    if i == j {
    } else {
      RunKeeps(c, states, labels);
      StaysUnlessRemoved(c, states, labels, i, j - 1, id);
      EntryStays(c, states[j - 1], labels[j - 1], id);
    }
  }

  /** A published entry is there at a later point of the run iff nobody removed it in between. */
  lemma ThereIffNotRemoved(c: Config, states: seq<Reg>, labels: seq<Label>, i: nat, j: nat, id: Id)
    requires IsRun(c, states, labels) && i <= j < |states| && Final(id) in states[i].dir
    ensures Final(id) in states[j].dir <==> forall l :: i <= l < j ==> labels[l] != Unlist(id)
  {
    hide Inv;
    hide Next;
    hide Enabled;
    hide Start;
    hide Final;
    if l :| i <= l < j && labels[l] == Unlist(id) {
      RunKeeps(c, states, labels);
      RemovedIsGone(c, states[l], id);
      GoneLater(c, states, labels, l + 1, j, id);
    } else {
      StaysUnlessRemoved(c, states, labels, i, j, id);
    }
  }

  // ---------- the spread List ----------

  lemma ScannedName(c: Config, s: Reg, name: string)
    requires Inv(c, s) && name in Listed(s.dir)
    ensures name in s.dir && IsListed(name) && name == Final(ListedId(name))
  {
  }

  /**
   * A List that scans the directory in one state and reads the files in later ones fails iff one of the
   * names was removed between the scan and its read. If it does not fail, it returns exactly what it would
   * have returned had it read everything at the moment of the scan.
   */
  lemma SpreadListIff(c: Config, states: seq<Reg>, labels: seq<Label>, i: nat, names: seq<string>, at: seq<nat>)
    requires IsRun(c, states, labels) && Reads(states, i, names, at)
    ensures var r := SpreadList(states, i, names, at);
      && (r.None? <==> exists k, l ::
            0 <= k < |names| && i <= l < at[k] && l < |labels| && labels[l] == Unlist(ListedId(names[k])))
      && (r.Some? ==> |r.value| == |names| && forall k :: 0 <= k < |names| ==>
            r.value[k] == Entry(ListedId(names[k]), states[i].dir[names[k]]))
  {
    hide Inv;
    hide Next;
    hide Enabled;
    hide Start;
    hide Final;
    hide IsListed;
    hide SpreadList;
    RunKeeps(c, states, labels);
    SpreadIs(states, i, names, at);
    forall k | 0 <= k < |names|
      ensures IsListed(names[k])
      ensures names[k] in states[at[k]].dir
         <==> forall l :: i <= l < at[k] ==> labels[l] != Unlist(ListedId(names[k]))
      ensures names[k] in states[at[k]].dir ==> states[at[k]].dir[names[k]] == states[i].dir[names[k]]
    {
      ScannedName(c, states[i], names[k]);
      ThereIffNotRemoved(c, states, labels, i, at[k], ListedId(names[k]));
      if names[k] in states[at[k]].dir {
        PublishedIsStable(c, states, labels, i, at[k], names[k]);
      }
    }
  }
}
