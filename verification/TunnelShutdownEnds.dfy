/** Shutdown comes to an end: within a bound the actor has exited and every child's stop has returned. */
module TunnelShutdownEnds {
  import opened Base
  import opened Tunnel
  import opened Handlers
  import opened WorkerSteps
  import opened TunnelSystem
  import opened TunnelInvariant
  import opened EffectSteps
  import opened TunnelReplies
  import opened TunnelQuiescence
  import opened TunnelShutdown
  import opened TunnelLone
  import opened TunnelShutdownSafe
  import opened TunnelShutdownExact

  /** Steps that need no caller but the one of Shutdown, who ends the context when it is done waiting. */
  predicate Winding(l: Label) {
    TunnelQuiescence.Internal(l) || l.CancelCtx? || l.BeginDrain? || l.DrainOne? || l.Finish?
  }

  ghost function ModeWeight(mode: Mode): nat {
    match mode
    case Running => 2
    case Draining => 1
    case Exited => 0
  }

  /** The potential of the system, and the stages of shutdown that are still to come. */
  ghost function Whole(s: Sys): nat {
    Potential(s) + ModeWeight(s.mode) + if s.ctxDone then 0 else 1
  }

  // ---------- every step spends some of it ----------

  lemma DrainCost(m: Actor, c: Cmd)
    ensures var o := DrainCommand(m, c); Total(o.fx, FxWeight) + ActorWeight(o.m) < ActorWeight(m) + CmdWeight(c)
  {
    if c.Shutdown? {
      ShutdownCost(m);
    } else {
      FxTotal(ShuttingDownReply(c));
    }
  }

  lemma DrainSpends(s: Sys)
    requires Enabled(s, DrainOne)
    ensures Potential(Next(s, DrainOne)) < Potential(s)
  {
    assert Total(s.todo, FxWeight) == 0;
    assert Total(s.q, CmdWeight) == CmdWeight(s.q[0]) + Total(s.q[1..], CmdWeight);
    hide Total;
    DrainCost(s.m, s.q[0]);
  }

  lemma WindingSpends(s: Sys, l: Label)
    requires Winding(l) && Enabled(s, l) && NoExits(s)
    ensures Whole(Next(s, l)) < Whole(s)
  {
    hide Potential;
    hide ModeWeight;
    if TunnelQuiescence.Internal(l) {
      assert l == Take ==> s.q[0] in s.q;
      StepSpends(s, l);
      KeepsStage(s, l);
    } else if l.DrainOne? {
      DrainSpends(s);
    } else {
      StageSpends(s, l);
    }
  }

  lemma KeepsStage(s: Sys, l: Label)
    requires TunnelQuiescence.Internal(l) && Enabled(s, l)
    ensures Next(s, l).mode == s.mode && Next(s, l).ctxDone == s.ctxDone
  {
    hide TakeCommand;
    hide TakeChildExit;
    hide ExecOne;
    hide WorkerMoves;
    if l.Exec? {
      ExecFlags(s, l.dead);
    } else if l.WorkerStep? {
      WorkerFlags(s, l.i, l.outcome, l.dead);
    }
  }

  lemma StageSpends(s: Sys, l: Label)
    requires Enabled(s, l) && (l.CancelCtx? || l.BeginDrain? || l.Finish?)
    ensures Whole(Next(s, l)) < Whole(s)
  {
    hide Total;
  }

  /** A child's exit never goes through the queue. */
  predicate NoExits(s: Sys) {
    forall c :: c in s.q ==> !c.ChildExit?
  }

  lemma ExitsStayOut(s: Sys, l: Label)
    requires NoExits(s) && Enabled(s, l)
    ensures NoExits(Next(s, l))
  {
    hide TakeCommand;
    hide TakeChildExit;
    hide DrainCommand;
    hide WorkerNext;
    hide CancelWorkers;
    hide Moved;
  }

  lemma {:induction false} RunNoExits(states: seq<Sys>, labels: seq<Label>)
    requires IsRun(states, labels) && NoExits(states[0])
    ensures NoExits(Last(states))
    decreases |labels|
  {
    hide Next;
    hide Enabled;
    hide NoExits;
    if labels == [] {
    } else {
      ExitsStayOut(states[0], labels[0]);
      RunNoExits(states[1..], labels[1..]);
    }
  }

  /** A run of such steps is no longer than what it starts with. */
  lemma {:induction false} WindingRunsEnd(states: seq<Sys>, labels: seq<Label>)
    requires IsRun(states, labels) && NoExits(states[0]) && forall l :: l in labels ==> Winding(l)
    ensures |labels| + Whole(Last(states)) <= Whole(states[0])
    decreases |labels|
  {
    hide Next;
    hide Enabled;
    hide NoExits;
    hide Whole;
    hide Winding;
    if labels == [] {
    } else {
      assert labels[0] in labels;
      WindingSpends(states[0], labels[0]);
      ExitsStayOut(states[0], labels[0]);
      WindingRunsEnd(states[1..], labels[1..]);
    }
  }

  // ---------- where it ends ----------

  /** No step is left but the death of a child. */
  ghost predicate AtEnd(s: Sys) {
    forall l :: Winding(l) && !l.ChildDies? ==> !Enabled(s, l)
  }

  /** Whoever is about to stop a child holds it, so the child is one of the ledger. */
  ghost predicate StopsKids(s: Sys) {
    && (s.todo != [] && s.todo[0].StopChild? ==> s.todo[0].child < |s.kids|)
    && (forall t :: t in s.threads ==>
          && (t.Teardown? && !t.ran ==> t.stack < |s.kids|)
          && (t.Worker? && t.pc.Unwind? ==> t.pc.child < |s.kids|))
  }

  lemma HeldIsKid(s: Sys, c: ChildId)
    requires Owned(s) == Open(s.kids) && c in Owned(s)
    ensures c < |s.kids|
  {
    hide Owned;
  }

  lemma OwnersStopKids(s: Sys)
    requires Owned(s) == Open(s.kids)
    ensures StopsKids(s)
  {
    hide Gather;
    if s.todo != [] && s.todo[0].StopChild? {
      var i := 0;
      GatherSplit(s.todo, i, FxStacks);
      assert FxStacks(s.todo[i])[0] in Gather(s.todo, FxStacks);
      HeldIsKid(s, s.todo[0].child);
    }
    forall t | t in s.threads
      ensures (t.Teardown? && !t.ran ==> t.stack < |s.kids|) && (t.Worker? && t.pc.Unwind? ==> t.pc.child < |s.kids|)
    {
      if ThreadStacks(t) != [] {
        StackIsHeld(s, t);
        HeldIsKid(s, ThreadStacks(t)[0]);
      }
    }
  }

  lemma StackIsHeld(s: Sys, t: Thread)
    requires t in s.threads && ThreadStacks(t) != []
    ensures ThreadStacks(t)[0] in Owned(s)
  {
    hide Gather;
    var i :| 0 <= i < |s.threads| && s.threads[i] == t;
    GatherSplit(s.threads, i, ThreadStacks);
    assert ThreadStacks(t)[0] in Gather(s.threads, ThreadStacks);
  }

  /** With the context done, every goroutine has a step to take. */
  lemma GoroutineStep(s: Sys, i: nat) returns (l: Label)
    requires s.ctxDone && StopsKids(s) && i < |s.threads|
    ensures Winding(l) && !l.ChildDies? && Enabled(s, l)
  {
    var t := s.threads[i];
    assert t in s.threads;
    if PostBackCmd(t).Some? {
      l := PostBack(i, true);
    } else if t.Teardown? {
      l := TeardownStop(i, true);
    } else if t.pc.PreCheck? || t.pc.Preflight? || t.pc.AwaitSocks? || t.pc.Announce? {
      l := WorkerStep(i, Fail(Canceled), true);
    } else {
      l := WorkerStep(i, Pass, true);
    }
  }

  /** So nothing is left to do only once the actor has exited and nobody runs beside it. */
  lemma EndIsOver(s: Sys)
    requires AtEnd(s) && s.shutPosted && StopsKids(s)
    ensures s.ctxDone && s.mode == Exited && s.todo == [] && s.threads == []
  {
    assert !Enabled(s, CancelCtx) by { assert Winding(CancelCtx); }
    assert !Enabled(s, Exec(true)) by { assert Winding(Exec(true)); }
    assert !Enabled(s, BeginDrain) by { assert Winding(BeginDrain); }
    assert !Enabled(s, DrainOne) by { assert Winding(DrainOne); }
    assert !Enabled(s, Finish) by { assert Winding(Finish); }
    if s.threads != [] {
      var l := GoroutineStep(s, 0);
      assert false;
    }
  }

  /** What a safe state leads to keeps its children in hand. */
  lemma SafeHolds(s: Sys, s': Sys)
    requires Facing(s) && ShutSafe(s) && Leads(s, s')
    ensures Owned(s') == Open(s'.kids)
  {
    hide Gather;
    SafeStart(s);
    hide Facing;
    hide ShutSafe;
    hide Lame;
    hide Calm;
    hide Next;
    hide Enabled;
    hide NoSpawn;
    var states: seq<Sys>, labels: seq<Label> :|
      && IsRun(states, labels) && states[0] == s && Last(states) == s'
      && forall i :: 0 <= i < |states| ==> NoSpawn(states[i].todo);
    if Lame(s) {
      RunLame(states, labels);
    } else {
      RunCalm(states, labels);
    }
    HandsFull(s');
  }

  lemma HandsFull(s: Sys)
    requires Lame(s) || Calm(s, false)
    ensures Owned(s) == Open(s.kids)
  {
    hide Gather;
    hide Tame;
  }

  lemma PostedStays(s: Sys, l: Label)
    requires Enabled(s, l) && s.shutPosted
    ensures Next(s, l).shutPosted
  {
    hide TakeCommand;
    hide TakeChildExit;
    hide DrainCommand;
    hide WorkerNext;
    hide CancelWorkers;
    hide Moved;
  }

  lemma {:induction false} RunPosted(states: seq<Sys>, labels: seq<Label>)
    requires IsRun(states, labels) && states[0].shutPosted
    ensures Last(states).shutPosted
    decreases |labels|
  {
    hide Next;
    hide Enabled;
    if labels == [] {
    } else {
      PostedStays(states[0], labels[0]);
      RunPosted(states[1..], labels[1..]);
    }
  }

  /**
   * Shutdown ends: take a point of a daemon run where it is posted, not handled yet, and safe. If from there on
   * nobody calls and no connect starts, the run is bounded; where it can go no further the actor has exited,
   * nothing is pending or running, every child's stop has returned exactly once, the last post is Disconnected,
   * and Shutdown's channel is closed, once.
   */
  lemma ShutdownEnds(states: seq<Sys>, labels: seq<Label>, k: nat)
    requires IsDaemonRun(states, labels) && k < |states|
    requires Idle(states[k]) && !states[k].shut && states[k].shutPosted && ShutSafe(states[k])
    requires forall i :: k <= i < |labels| ==> Winding(labels[i])
    requires forall i :: k <= i < |states| ==> NoSpawn(states[i].todo)
    ensures |labels| - k <= Whole(states[k])
    ensures AtEnd(Last(states)) ==>
      var s := Last(states);
      && s.shut && s.mode == Exited && s.todo == [] && s.threads == []
      && (forall c :: 0 <= c < |s.kids| ==> s.kids[c].stops == 1)
      && Last(Trace(s)).state == Disconnected && Times(Gather(s.log, EventSlips), DoneSlip) == 1
  {
    hide Gather;
    hide Next;
    hide Enabled;
    hide Whole;
    hide AtEnd;
    hide ShutSafe;
    hide Facing;
    hide Leads;
    hide NoSpawn;
    hide Winding;
    hide NoExits;
    hide CleanedUp;
    hide StopsKids;
    var s, start, after, steps := Last(states), states[k], states[k..], labels[k..];
    assert IsDaemonRun(states[..k + 1], labels[..k]) && Last(states[..k + 1]) == start;
    assert IsRun(after, steps) && after[0] == start && Last(after) == s;
    assert NoExits(INIT) by { NoneAtStart(); }
    RunNoExits(states[..k + 1], labels[..k]);
    WindingRunsEnd(after, steps);
    if AtEnd(s) {
      FacingFrom(states[..k + 1], labels[..k]);
      LeadsTo(after, steps);
      SafeHolds(start, s);
      OwnersStopKids(s);
      RunPosted(after, steps);
      EndIsOver(s);
      ExitedIsShut(states, labels);
      SafeIsClean(start, s);
      EndIsClean(s);
      DoneClosedOnce(states, labels);
      GatherNil(FxSlips);
    }
  }

  lemma NoneAtStart()
    ensures NoExits(INIT)
  {
  }

  lemma LeadsTo(states: seq<Sys>, labels: seq<Label>)
    requires IsRun(states, labels) && forall i :: 0 <= i < |states| ==> NoSpawn(states[i].todo)
    ensures Leads(states[0], Last(states))
  {
    hide Next;
    hide Enabled;
    hide NoSpawn;
  }

  lemma ExitedIsShut(states: seq<Sys>, labels: seq<Label>)
    requires IsDaemonRun(states, labels) && Last(states).mode == Exited
    ensures Last(states).shut
  {
    hide Next;
    hide Enabled;
    InitShutOnce();
    RunShutOnce(states, labels);
  }

  lemma EndIsClean(s: Sys)
    requires CleanedUp(s) && s.threads == [] && s.todo == []
    ensures forall c :: 0 <= c < |s.kids| ==> s.kids[c].stops == 1
    ensures Last(Trace(s)).state == Disconnected
  {
    hide Gather;
    GatherNil(ThreadStacks);
    GatherNil(FxStacks);
  }
}
