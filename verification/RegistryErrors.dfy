/** Why an Add is refused, over every run: the answer of each call is the first obstacle it met. */
module RegistryErrors {
  import opened Base
  import opened Bytes
  import opened UlidText
  import opened Registry
  import opened RegistryRuns

  /** What can stand in the way at one step of an Add, and what the caller is to be told then. */
  ghost predicate Meets(c: Config, dir: Dir, pc: Pc, o: Outcome, error: AddError) {
    match error
    case PathUnsafe => pc.Vet? && !c.pathSafe(pc.json)
    case InboundUnsafe => pc.Vet? && c.pathSafe(pc.json) && !c.inboundSafe(pc.json)
    case IoError => (pc.MakeDir? || pc.Count? || pc.Write? || pc.Publish?) && o.Fails?
    case QuotaExceeded => pc.Count? && o.Works? && CountOf(dir) >= c.maxConfigs
    case Internal => (pc.MakeId? && o.Fails?) || (pc.Test? && o == Says(Breaks))
    case ValidationTimeout => pc.Test? && o == Says(TimesOut)
    case ConfigInvalid => pc.Test? && o == Says(Rejects)
  }

  /** Adder `i` meets that obstacle in this step. */
  ghost predicate MeetsAt(c: Config, s: Reg, l: Label, i: nat, error: AddError) {
    l.Step? && l.i == i && i < |s.adders| && Meets(c, s.dir, s.adders[i], l.outcome, error)
  }

  /** It met it after step `b` and before step `m`. */
  ghost predicate Met(c: Config, states: seq<Reg>, labels: seq<Label>, b: nat, m: nat, i: nat, error: AddError)
    requires |labels| <= |states|
  {
    exists j: nat :: b < j < m && j < |labels| && MeetsAt(c, states[j], labels[j], i, error)
  }

  /** One step meets at most one obstacle: it is answered at once, or after the staged file is cleaned up. */
  lemma StepMeets(c: Config, dir: Dir, pc: Pc, o: Outcome, error: AddError)
    requires OutcomeFits(pc, o) && (pc.Publish? ==> Staging(pc.id) in dir)
    ensures var t := AddNext(c, dir, pc, o);
      if pc.Unlink? then !Meets(c, dir, pc, o, error) && t.result == Some(Refused(pc.why))
      else if Meets(c, dir, pc, o, error) then
        t.result == Some(Refused(error)) || (t.result == None && t.pc.Unlink? && t.pc.why == error)
      else t.result != Some(Refused(error)) && (t.pc.Unlink? ==> t.pc.why != error)
  {
    hide CountOf;
    hide Staging;
    hide Final;
  }

  // ---------- one call ----------

  /** From step `b` to state `m`, adder `i` is about the call that began at `b`. */
  ghost predicate InCall(states: seq<Reg>, labels: seq<Label>, b: nat, m: nat, i: nat, json: Text) {
    && b < m < |states| && b < |labels| && labels[b] == Begin(i, json)
    && forall n :: b < n <= m ==>
         i < |states[n].adders| && !states[n].adders[i].Idle? && states[n].adders[i].json == json
  }

  /** A step of the call keeps it going or answers it. */
  lemma StepInCall(c: Config, s: Reg, l: Label, i: nat)
    requires Enabled(s, l) && i < |s.adders|
    ensures var t := Next(c, s, l);
      && |t.adders| == |s.adders|
      && (!t.adders[i].Idle? ==>
            l == Begin(i, t.adders[i].json) || (!s.adders[i].Idle? && s.adders[i].json == t.adders[i].json))
      && (l.Begin? && l.i == i ==> s.adders[i].Idle?)
      && (!(l.Step? && l.i == i) && !s.adders[i].Idle? ==> t.adders[i] == s.adders[i])
  {
    hide CountOf;
    hide Staging;
    hide Final;
  }

  lemma SameCount(c: Config, s: Reg, l: Label)
    requires Enabled(s, l)
    ensures |Next(c, s, l).adders| == |s.adders|
  {
    hide CountOf;
  }

  /** Every call in progress has begun. */
  lemma {:induction false} CallBegan(c: Config, states: seq<Reg>, labels: seq<Label>, m: nat, i: nat) returns (b: nat)
    requires IsRun(c, states, labels) && m < |states| && i < |states[m].adders| && !states[m].adders[i].Idle?
    ensures InCall(states, labels, b, m, i, states[m].adders[i].json)
    decreases m
  {
    hide Start;
    hide Next;
    hide Enabled;
    IdleAtStart(c, states[0]);
    SameCount(c, states[m - 1], labels[m - 1]);
    StepInCall(c, states[m - 1], labels[m - 1], i);
    if labels[m - 1] == Begin(i, states[m].adders[i].json) {
      b := m - 1;
    } else {
      b := CallBegan(c, states, labels, m - 1, i);
    }
  }

  lemma IdleAtStart(c: Config, s: Reg)
    requires Start(c, s)
    ensures s.log == [] && forall i :: 0 <= i < |s.adders| ==> s.adders[i].Idle?
  {
  }

  /** No obstacle so far, or the one that the call is cleaning up after. */
  ghost predicate MetSoFar(
      c: Config, states: seq<Reg>, labels: seq<Label>, b: nat, m: nat, i: nat, pc: Pc, error: AddError)
    requires |labels| <= |states|
  {
    Met(c, states, labels, b, m, i, error) <==> pc.Unlink? && pc.why == error
  }

  lemma MetGrows(c: Config, states: seq<Reg>, labels: seq<Label>, b: nat, m: nat, i: nat, error: AddError)
    requires b < m < |labels| <= |states|
    ensures Met(c, states, labels, b, m + 1, i, error) <==>
      Met(c, states, labels, b, m, i, error) || MeetsAt(c, states[m], labels[m], i, error)
  {
    hide MeetsAt;
  }

  lemma {:induction false} CallMeets(
      c: Config, states: seq<Reg>, labels: seq<Label>, b: nat, m: nat, i: nat, json: Text, error: AddError)
    requires IsRun(c, states, labels) && InCall(states, labels, b, m, i, json)
    ensures MetSoFar(c, states, labels, b, m, i, states[m].adders[i], error)
    decreases m
  {
    hide Start;
    hide Next;
    hide Enabled;
    hide Meets;
    if m == b + 1 {
      BeginsUnmet(c, states[b], i, json);
    } else {
      CallMeets(c, states, labels, b, m - 1, i, json, error);
      MetGrows(c, states, labels, b, m - 1, i, error);
      StepSoFar(c, states[m - 1], labels[m - 1], i, error);
    }
  }

  lemma BeginsUnmet(c: Config, s: Reg, i: nat, json: Text)
    requires Enabled(s, Begin(i, json))
    ensures Next(c, s, Begin(i, json)).adders[i] == Vet(json)
  {
  }

  lemma StepSoFar(c: Config, s: Reg, l: Label, i: nat, error: AddError)
    requires Enabled(s, l) && i < |s.adders| && !s.adders[i].Idle?
    ensures var t := Next(c, s, l);
      && i < |t.adders|
      && (!t.adders[i].Idle? ==>
            ((t.adders[i].Unlink? && t.adders[i].why == error) <==>
               ((s.adders[i].Unlink? && s.adders[i].why == error) || MeetsAt(c, s, l, i, error))))
  {
    SameCount(c, s, l);
    if l.Step? && l.i == i {
      StepMeets(c, s.dir, s.adders[i], l.outcome, error);
    } else {
      StepInCall(c, s, l, i);
    }
    hide AddNext;
    hide Meets;
  }

  // ---------- what was answered ----------

  lemma {:induction false} LoggedAt(c: Config, states: seq<Reg>, labels: seq<Label>, m: nat, n: nat) returns (k: nat)
    requires IsRun(c, states, labels) && m < |states| && n < |states[m].log|
    ensures k < m && |states[k].log| == n && states[k + 1].log == states[k].log + [states[m].log[n]]
    decreases m
  {
    hide Start;
    hide Next;
    hide Enabled;
    IdleAtStart(c, states[0]);
    StepLogs(c, states[m - 1], labels[m - 1]);
    if n < |states[m - 1].log| {
      k := LoggedAt(c, states, labels, m - 1, n);
    } else {
      k := m - 1;
    }
  }

  lemma StepLogs(c: Config, s: Reg, l: Label)
    requires Enabled(s, l)
    ensures var t := Next(c, s, l); t.log == s.log || (|t.log| == |s.log| + 1 && t.log == s.log + [Last(t.log)])
  {
    hide AddNext;
  }

  /** The step that logs an answer is the one that ends the call, with the answer the last obstacle asks for. */
  lemma AnswerIs(c: Config, s: Reg, l: Label, json: Text, result: AddResult, error: AddError)
    requires Enabled(s, l) && Next(c, s, l).log == s.log + [Returned(json, result)]
    ensures l.Step? && l.i < |s.adders| && !s.adders[l.i].Idle? && s.adders[l.i].json == json
    ensures result == Refused(error) <==>
      (s.adders[l.i].Unlink? && s.adders[l.i].why == error) || MeetsAt(c, s, l, l.i, error)
  {
    assert Next(c, s, l).log[|s.log|] == Returned(json, result);
    if l.Step? {
      StepMeets(c, s.dir, s.adders[l.i], l.outcome, error);
    }
    hide AddNext;
    hide Meets;
  }

  /**
   * Every answer in the log ends one call, from its beginning at step `b` to its answer at step `k`. It is a
   * refusal with an error exactly if that call, and no other, met an obstacle that asks for this error; so it is
   * a success exactly if the call met none.
   */
  lemma AnswerIsItsObstacle(c: Config, states: seq<Reg>, labels: seq<Label>, n: nat, error: AddError)
      returns (b: nat, k: nat, i: nat)
    requires IsRun(c, states, labels) && n < |Last(states).log| && Last(states).log[n].Returned?
    ensures b < k < |labels| && |states[k].log| == n && states[k + 1].log == states[k].log + [Last(states).log[n]]
    ensures InCall(states, labels, b, k, i, Last(states).log[n].json) && labels[k].Step? && labels[k].i == i
    ensures Last(states).log[n].result == Refused(error) <==> Met(c, states, labels, b, k + 1, i, error)
  {
    hide Start;
    hide Next;
    hide Enabled;
    hide InCall;
    hide Met;
    hide MeetsAt;
    var e := Last(states).log[n];
    k := LoggedAt(c, states, labels, |states| - 1, n);
    AnswerIs(c, states[k], labels[k], e.json, e.result, error);
    i := labels[k].i;
    b := CallBegan(c, states, labels, k, i);
    CallMeets(c, states, labels, b, k, i, e.json, error);
    assert b < k by {
      CallLasts(states, labels, b, k, i, e.json);
    }
    MetGrows(c, states, labels, b, k, i, error);
  }

  lemma CallLasts(states: seq<Reg>, labels: seq<Label>, b: nat, m: nat, i: nat, json: Text)
    requires InCall(states, labels, b, m, i, json)
    ensures b < m
  {
  }
}
