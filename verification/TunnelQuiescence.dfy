/** Left alone, the daemon comes to rest, within a bound, where the user last asked it to be. */
module TunnelQuiescence {
  import opened Base
  import opened Tunnel
  import opened Handlers
  import opened WorkerSteps
  import opened TunnelSystem
  import opened TunnelInvariant
  import opened EffectSteps
  import opened GoroutineSteps
  import opened InvariantSteps
  import opened TunnelIntent

  /** Steps the system takes by itself: no new request, no shutdown. */
  predicate Internal(l: Label) {
    l.Take? || l.TakeExit? || l.Exec? || l.WorkerStep? || l.TeardownStop? || l.PostBack? || l.TimerFires? || l.ChildDies?
  }

  /** Internal steps that must happen sooner or later; a child is free to live on. */
  predicate Forced(l: Label) {
    Internal(l) && !l.ChildDies?
  }

  // ---------- a potential that counts the internal steps still possible ----------

  ghost function FxWeight(e: Effect): nat {
    match e
    case Spawn(_, _) => 25
    case SpawnTeardown(_, _) => 5
    case _ => 1
  }

  ghost function PcWeight(pc: Pc): nat {
    match pc
    case PreCheck => 24
    case FindPath => 23
    case Validate => 22
    case Announce => 21
    case Preflight => 18
    case Fork => 17
    case AwaitAlive(_) => 15
    case AwaitSocks(_) => 14
    case Handshake(_) => 13
    case Unwind(_, _) => 12
    case Deliver(_) => 11
  }

  ghost function ThreadWeight(t: Thread): nat {
    match t
    case Worker(_, _, _, pc) => PcWeight(pc)
    case Teardown(_, _, ran) => if ran then 3 else 4
    case Revert => 4
  }

  ghost function CmdWeight(c: Cmd): nat {
    match c
    case Connect(_, _) => 28
    case Switch(_, _) => 38
    case Disconnect(_) => 8
    case GetStatus(_) => 2
    case ConnectProgress(_, _) => 2
    case ConnectDone(_, _) => 10
    case DisconnectDone(_) => 2
    case AutoRevert => 3
    case ChildExit => 9
    case Shutdown => 5
  }

  ghost function KidWeight(k: Kid): nat {
    if k.alive then 1 else 0
  }

  ghost function ActorWeight(m: Actor): nat {
    (if m.timer == Ticking then 5 else 0) + (if m.childExitCC.Some? then 8 else 0)
    + (if m.pendingSwitch != ZERO_ULID then 30 else 0)
  }

  ghost function Potential(s: Sys): nat {
    ActorWeight(s.m) + Total(s.todo, FxWeight) + Total(s.q, CmdWeight)
    + Total(s.threads, ThreadWeight) + Total(s.kids, KidWeight)
  }

  // ---------- every internal step spends some of it ----------

  lemma FxTotal(fx: seq<Effect>)
    ensures |fx| == 0 ==> Total(fx, FxWeight) == 0
    ensures |fx| == 1 ==> Total(fx, FxWeight) == FxWeight(fx[0])
    ensures |fx| == 2 ==> Total(fx, FxWeight) == FxWeight(fx[0]) + FxWeight(fx[1])
    ensures |fx| == 3 ==> Total(fx, FxWeight) == FxWeight(fx[0]) + FxWeight(fx[1]) + FxWeight(fx[2])
  {
    if |fx| == 2 {
      FxTotal(fx[1..]);
    } else if |fx| == 3 {
      FxTotal(fx[1..]);
    }
  }

  lemma ReplyTotal(to: Option<ChanId>, code: ReplyCode)
    ensures Total(ReplyOn(to, code), FxWeight) <= 1
  {
    FxTotal(ReplyOn(to, code));
  }

  lemma ConnectCost(m: Actor, id: Ulid, to: Option<ChanId>)
    ensures var o := HandleConnect(m, id, to);
      && Total(o.fx, FxWeight) <= (if to.Some? then 27 else 26)
      && ActorWeight(o.m) <= ActorWeight(m)
  {
    ReplyTotal(to, AlreadyConnected);
    ReplyTotal(to, Accepted);
    FxTotal(ReplyOn(to, Accepted));
    FxTotal(ReplyOn(to, AlreadyConnected));
    var gen, status := m.opGen + 1, Plain(Validating, Some(id));
    FxTotal([Post(status), Spawn(gen, id)]);
    TotalConcat(ReplyOn(to, Accepted), [Post(status), Spawn(gen, id)], FxWeight);
  }

  lemma DisconnectCost(m: Actor, to: Option<ChanId>)
    ensures var o := HandleDisconnect(m, to);
      && Total(o.fx, FxWeight) <= 7 && (to.None? ==> Total(o.fx, FxWeight) <= 6)
      && ActorWeight(o.m) <= ActorWeight(m)
      && o.m.pendingSwitch == ZERO_ULID
  {
    hide Total;
    var o := HandleDisconnect(m, to);
    match m.conn.state {
      case Disconnected => ReplyPlus(to, NotConnected, []); assert o.fx == ReplyOn(to, NotConnected) + [];
      case Disconnecting => ReplyPlus(to, Accepted, []); assert o.fx == ReplyOn(to, Accepted) + [];
      case Validating | Connecting =>
        var tail := [Post(Plain(Disconnecting, m.conn.configId))] + CancelOf(m);
        ReplyPlus(to, Accepted, tail);
        assert o.fx == ReplyOn(to, Accepted) + tail;
      case Connected | Error =>
        var tail := if m.armed.None? then [Post(IDLE)]
                    else [Post(Plain(Disconnecting, m.conn.configId)), SpawnTeardown(m.opGen + 1, m.armed.value)];
        ReplyPlus(to, Accepted, tail);
        assert o.fx == ReplyOn(to, Accepted) + tail;
    }
  }

  lemma ReplyPlus(to: Option<ChanId>, code: ReplyCode, tail: seq<Effect>)
    ensures Total(ReplyOn(to, code) + tail, FxWeight) == (if to.Some? then 1 else 0) + Total(tail, FxWeight)
    ensures |tail| == 0 ==> Total(tail, FxWeight) == 0
    ensures |tail| == 1 ==> Total(tail, FxWeight) == FxWeight(tail[0])
    ensures |tail| == 2 ==> Total(tail, FxWeight) == FxWeight(tail[0]) + FxWeight(tail[1])
  {
    hide Total;
    TotalConcat(ReplyOn(to, code), tail, FxWeight);
    FxTotal(ReplyOn(to, code));
    FxTotal(tail);
  }

  lemma SwitchCost(m: Actor, id: Ulid, to: Option<ChanId>)
    ensures var o := HandleSwitch(m, id, to);
      Total(o.fx, FxWeight) + ActorWeight(o.m) <= ActorWeight(m) + 37
  {
    hide Total;
    hide HandleConnect;
    hide HandleDisconnect;
    ConnectCost(m, id, to);
    DisconnectCost(m, None);
    ReplyTotal(to, Accepted);
    ReplyTotal(to, AlreadyConnected);
    TotalConcat(HandleDisconnect(m, None).fx, ReplyOn(to, Accepted), FxWeight);
  }

  lemma TeardownCost(m: Actor, stack: Option<ChildId>)
    ensures var t := FinishTeardown(m);
      Total(RunStack(stack) + t.fx, FxWeight) + ActorWeight(t.m) <= ActorWeight(m) + (if stack.Some? then 2 else 1)
  {
    var m1 := m.(child := None, childExitCC := None, activeId := ZERO_ULID, conn := IDLE);
    var t := FinishTeardown(m);
    assert t.fx == [Post(IDLE)] + ConsumePendingSwitch(m1).fx;
    TotalConcat(RunStack(stack), t.fx, FxWeight);
    TotalConcat([Post(IDLE)], ConsumePendingSwitch(m1).fx, FxWeight);
    FxTotal(RunStack(stack));
    FxTotal([Post(IDLE)]);
    FxTotal([]);
    if m.pendingSwitch != ZERO_ULID {
      ConnectCost(m1.(pendingSwitch := ZERO_ULID), m.pendingSwitch, None);
    }
  }

  lemma DoneCost(m: Actor, gen: nat, result: ConnectResult)
    requires result.WellFormed()
    ensures var o := HandleConnectDone(m, gen, result);
      Total(o.fx, FxWeight) + ActorWeight(o.m) < ActorWeight(m) + 10
  {
    var o := HandleConnectDone(m, gen, result);
    if gen != m.opGen && m.conn.state == Disconnecting {
      TeardownCost(m, result.cleanup);
    } else {
      FxTotal(o.fx);
    }
  }

  lemma ExitCost(m: Actor)
    requires m.childExitCC.Some?
    ensures var o := TakeChildExit(m); Total(o.fx, FxWeight) + ActorWeight(o.m) < ActorWeight(m)
  {
    FxTotal(TakeChildExit(m).fx);
  }

  lemma ShutdownCost(m: Actor)
    ensures var o := HandleShutdown(m); Total(o.fx, FxWeight) + ActorWeight(o.m) <= ActorWeight(m) + 4
  {
    hide Total;
    var cancel := CancelOf(m);
    var post := if m.conn.state != Disconnected then [Post(IDLE)] else [];
    TotalConcat(cancel + RunStack(m.armed) + post, [CloseDone], FxWeight);
    TotalConcat(cancel + RunStack(m.armed), post, FxWeight);
    TotalConcat(cancel, RunStack(m.armed), FxWeight);
    FxTotal(cancel);
    FxTotal(RunStack(m.armed));
    FxTotal(post);
    FxTotal([CloseDone]);
  }

  lemma TakeCost(m: Actor, c: Cmd)
    requires CmdOk(c) && !c.ChildExit?
    ensures var o := TakeCommand(m, c); Total(o.fx, FxWeight) + ActorWeight(o.m) < ActorWeight(m) + CmdWeight(c)
  {
    hide Total;
    var m1 := CancelTimer(m);
    match c {
      case Connect(id, ch) => ConnectCost(m1, id, Some(ch));
      case Disconnect(ch) => DisconnectCost(m1, Some(ch));
      case Switch(id, ch) => SwitchCost(m1, id, Some(ch));
      case GetStatus(ch) => ReplyTotal(Some(ch), StatusIs(m.conn));
      case ConnectProgress(gen, newState) => FxTotal(HandleConnectProgress(m, gen, newState).fx);
      case ConnectDone(gen, result) => DoneCost(m, gen, result);
      case DisconnectDone(gen) =>
        TeardownCost(m, None);
        FxTotal([]);
        assert RunStack(None) + FinishTeardown(m).fx == FinishTeardown(m).fx;
      case AutoRevert => FxTotal(HandleAutoRevert(m1).fx);
      case Shutdown => ShutdownCost(m1);
    }
  }

  lemma StartSpends(s: Sys, dead: bool)
    requires Enabled(s, Exec(dead)) && (s.todo[0].Spawn? || s.todo[0].SpawnTeardown?)
    ensures Potential(ExecOne(s, dead)) < Potential(s)
  {
    var e := s.todo[0];
    var t := if e.Spawn? then Worker(e.gen, e.id, false, PreCheck) else Teardown(e.gen, e.stack, false);
    assert Total(s.todo, FxWeight) == FxWeight(e) + Total(s.todo[1..], FxWeight);
    hide Total;
    hide CancelWorkers;
    TotalAppend(s.threads, t, ThreadWeight);
  }

  lemma StopSpends(s: Sys, dead: bool)
    requires Enabled(s, Exec(dead)) && s.todo[0].StopChild?
    ensures Potential(ExecOne(s, dead)) < Potential(s)
  {
    var c := s.todo[0].child;
    assert Total(s.todo, FxWeight) == 1 + Total(s.todo[1..], FxWeight);
    hide Total;
    hide CancelWorkers;
    TotalUpdate(s.kids, c, Kid(s.kids[c].alive && !dead, s.kids[c].stops + 1), KidWeight);
  }

  lemma ExecSpends(s: Sys, dead: bool)
    requires Enabled(s, Exec(dead))
    ensures Potential(ExecOne(s, dead)) < Potential(s)
  {
    var e := s.todo[0];
    if e.Spawn? || e.SpawnTeardown? {
      StartSpends(s, dead);
    } else if e.StopChild? {
      StopSpends(s, dead);
    } else {
      assert Total(s.todo, FxWeight) == 1 + Total(s.todo[1..], FxWeight);
      hide Total;
      if e.Cancel? {
        TotalPointwise(CancelWorkers(s.threads, e.gen), s.threads, ThreadWeight);
      }
    }
  }

  /** The worker's program counter moves down; what it queues, spawns or stops costs less than that. */
  lemma PcFalls(t: Thread, o: Outcome, n: ChildId, cancelled: bool)
    requires t.Worker? && !t.pc.Deliver? && Allowed(t.pc, o, cancelled)
    ensures var next := WorkerNext(t.id, t.pc, o, n);
      PcWeight(next) + (if t.pc.Announce? && o.Pass? then 2 else if t.pc.Fork? && o.Pass? then 1 else 0) < PcWeight(t.pc)
  {
  }

  /** A goroutine that moves on, or ends, weighs no more than the point it has come to. */
  lemma MovedWeighs(s: Sys, i: nat, t: Thread)
    requires i < |s.threads|
    ensures Total(Moved(s, i, t), ThreadWeight) + ThreadWeight(s.threads[i])
         <= Total(s.threads, ThreadWeight) + ThreadWeight(t)
  {
    hide Total;
    TotalUpdate(s.threads, i, t, ThreadWeight);
    TotalSplit(s.threads, i, ThreadWeight);
  }

  lemma WorkerSpends(s: Sys, i: nat, o: Outcome, dead: bool)
    requires Enabled(s, WorkerStep(i, o, dead))
    ensures Potential(WorkerMoves(s, i, o, dead)) < Potential(s)
  {
    hide Total;
    var t := s.threads[i];
    PcFalls(t, o, |s.kids|, s.threads[i].cancelled || s.ctxDone);
    MovedWeighs(s, i, t.(pc := WorkerNext(t.id, t.pc, o, |s.kids|)));
    hide Moved;
    hide WorkerNext;
    hide PcWeight;
    hide Allowed;
    if t.pc.Announce? && o.Pass? {
      TotalAppend(s.q, ConnectProgress(t.gen, Connecting), CmdWeight);
    } else if t.pc.Fork? && o.Pass? {
      TotalAppend(s.kids, Kid(true, 0), KidWeight);
    } else if t.pc.Unwind? {
      var c := t.pc.child;
      TotalUpdate(s.kids, c, Kid(s.kids[c].alive && !dead, s.kids[c].stops + 1), KidWeight);
    }
  }

  lemma TeardownSpends(s: Sys, i: nat, dead: bool)
    requires Enabled(s, TeardownStop(i, dead))
    ensures Potential(Next(s, TeardownStop(i, dead))) < Potential(s)
  {
    hide Total;
    var t := s.threads[i];
    MovedWeighs(s, i, t.(ran := true));
    hide Moved;
    TotalUpdate(s.kids, t.stack, Kid(s.kids[t.stack].alive && !dead, s.kids[t.stack].stops + 1), KidWeight);
  }

  lemma PostBackSpends(s: Sys, i: nat, drop: bool)
    requires Enabled(s, PostBack(i, drop))
    ensures Potential(Next(s, PostBack(i, drop))) < Potential(s)
  {
    hide Total;
    TotalSplit(s.threads, i, ThreadWeight);
    TotalAppend(s.q, PostBackCmd(s.threads[i]).value, CmdWeight);
  }

  lemma DispatchSpends(s: Sys, l: Label)
    requires Enabled(s, l) && (l == Take || l == TakeExit)
    requires l == Take ==> !s.q[0].ChildExit?
    ensures Potential(Next(s, l)) < Potential(s)
  {
    assert Total(s.todo, FxWeight) == 0;
    if l == Take {
      assert Total(s.q, CmdWeight) == CmdWeight(s.q[0]) + Total(s.q[1..], CmdWeight);
      hide Total;
      TakeCost(s.m, s.q[0]);
    } else {
      hide Total;
      ExitCost(s.m);
    }
  }

  lemma TimerSpends(s: Sys)
    requires Enabled(s, TimerFires)
    ensures Potential(Next(s, TimerFires)) < Potential(s)
  {
    hide Total;
    TotalAppend(s.threads, Revert, ThreadWeight);
  }

  lemma DeathSpends(s: Sys, c: ChildId)
    requires Enabled(s, ChildDies(c))
    ensures Potential(Next(s, ChildDies(c))) < Potential(s)
  {
    hide Total;
    TotalUpdate(s.kids, c, s.kids[c].(alive := false), KidWeight);
  }

  lemma HeadIsNoExit(s: Sys)
    requires Inv(s) && s.q != []
    ensures !s.q[0].ChildExit?
  {
    assert s.q[0] in s.q;
  }

  /** Every internal step spends potential. */
  lemma InternalSpends(s: Sys, l: Label)
    requires Inv(s) && Internal(l) && Enabled(s, l)
    ensures Potential(Next(s, l)) < Potential(s)
  {
    hide Inv;
    hide Potential;
    hide Next;
    if l == Take {
      HeadIsNoExit(s);
    }
    StepSpends(s, l);
  }

  /** That takes no invariant, as long as nobody queues a child's exit. */
  lemma StepSpends(s: Sys, l: Label)
    requires Internal(l) && Enabled(s, l) && (l == Take ==> !s.q[0].ChildExit?)
    ensures Potential(Next(s, l)) < Potential(s)
  {
    hide Potential;
    hide ExecOne;
    hide WorkerMoves;
    match l {
      case Take => DispatchSpends(s, l);
      case TakeExit => DispatchSpends(s, l);
      case Exec(dead) => ExecSpends(s, dead);
      case WorkerStep(i, o, dead) => WorkerSpends(s, i, o, dead);
      case TeardownStop(i, dead) => TeardownSpends(s, i, dead);
      case PostBack(i, drop) => PostBackSpends(s, i, drop);
      case TimerFires => TimerSpends(s);
      case ChildDies(c) => DeathSpends(s, c);
    }
  }

  /** A run of internal steps is no longer than the potential it starts with. */
  lemma {:induction false} InternalRunsEnd(states: seq<Sys>, labels: seq<Label>)
    requires IsRun(states, labels) && forall l :: l in labels ==> Internal(l)
    requires forall i :: 0 <= i < |states| ==> Inv(states[i])
    ensures |labels| + Potential(Last(states)) <= Potential(states[0])
  {
    hide Inv;
    hide Potential;
    hide Next;
    hide Enabled;
    if labels == [] {
    } else {
      InternalSpends(states[0], labels[0]);
      assert labels[0] in labels;
      InternalRunsEnd(states[1..], labels[1..]);
    }
  }

  // ---------- where it comes to rest ----------

  ghost predicate AtRest(s: Sys) {
    forall l :: Forced(l) ==> !Enabled(s, l)
  }

  /** The two places to rest: down with every child stopped, or up on a live child. */
  predicate Settled(s: Sys) {
    && s.todo == [] && s.q == [] && s.threads == []
    && match s.m.conn.state {
         case Disconnected => forall c :: 0 <= c < |s.kids| ==> s.kids[c].stops == 1
         case Connected => s.m.child.Some? && s.m.child.value < |s.kids| && s.kids[s.m.child.value].alive
         case _ => false
       }
  }

  /** A pending effect can always be carried out. */
  lemma EffectReady(s: Sys)
    requires Inv(s) && s.todo != []
    ensures Enabled(s, Exec(true))
  {
    hide Gather;
    if s.todo[0].StopChild? {
      TodoHead(s);
      assert Owned(s) == Open(s.kids);
      assert s.todo[0].child in Owned(s);
    }
  }

  /** A goroutine that holds a stack holds a child of the ledger. */
  lemma StackIsKid(s: Sys, i: nat, c: ChildId)
    requires Inv(s) && i < |s.threads| && ThreadStacks(s.threads[i]) == [c]
    ensures c < |s.kids|
  {
    hide Gather;
    assert Owned(s) == Open(s.kids);
    GatherHas(s.threads, s.threads[i], ThreadStacks);
    SoloThread(s, i);
    assert c in Owned(s);
  }

  /** With room in the queue, a goroutine whose stack is a child of the ledger has a step to take. */
  lemma ThreadStep(s: Sys, i: nat) returns (l: Label)
    requires i < |s.threads| && HasRoom(s)
    requires s.threads[i].Teardown? && !s.threads[i].ran ==> s.threads[i].stack < |s.kids|
    requires s.threads[i].Worker? && s.threads[i].pc.Unwind? ==> s.threads[i].pc.child < |s.kids|
    ensures Forced(l) && Enabled(s, l)
  {
    var t := s.threads[i];
    if PostBackCmd(t).Some? {
      l := PostBack(i, false);
    } else if t.Teardown? {
      l := TeardownStop(i, true);
    } else if (t.pc.PreCheck? || t.pc.Preflight? || t.pc.AwaitSocks?) && (t.cancelled || s.ctxDone) {
      l := WorkerStep(i, Fail(Canceled), true);
    } else {
      l := WorkerStep(i, Pass, true);
    }
  }

  lemma ThreadReady(s: Sys, i: nat) returns (l: Label)
    requires Inv(s) && i < |s.threads| && HasRoom(s)
    ensures Forced(l) && Enabled(s, l)
  {
    hide Inv;
    hide Enabled;
    var t := s.threads[i];
    if t.Teardown? && !t.ran {
      StackIsKid(s, i, t.stack);
    } else if t.Worker? && t.pc.Unwind? {
      StackIsKid(s, i, t.pc.child);
    }
    l := ThreadStep(s, i);
  }

  /** Anything pending, queued or running has a step to take. */
  lemma BusyHasStep(s: Sys) returns (l: Label)
    requires Inv(s) && Up(s) && (s.todo != [] || s.q != [] || s.threads != [])
    ensures Forced(l) && Enabled(s, l)
  {
    hide Gather;
    hide Core;
    if s.todo != [] {
      EffectReady(s);
      l := Exec(true);
    } else if s.q != [] {
      assert s.q[0] in s.q;
      l := Take;
    } else {
      l := ThreadReady(s, 0);
    }
  }

  /** Rest means rest: nothing pending, queued or running, and the state is one of the two. */
  lemma RestIsSettled(s: Sys)
    requires Inv(s) && Up(s) && AtRest(s)
    ensures Settled(s)
  {
    hide Inv;
    if s.todo != [] || s.q != [] || s.threads != [] {
      var l := BusyHasStep(s);
      assert false;
    }
    RestState(s);
  }

  lemma RestState(s: Sys)
    requires Inv(s) && Up(s) && AtRest(s) && s.todo == [] && s.q == [] && s.threads == []
    ensures Settled(s)
  {
    assert FieldsOk(s.m) && TokensOk(s.m, Tokens(s)) && TimerOk(s) && Owned(s) == Open(s.kids) && KidsOk(s.kids);
    assert Tokens(s) == [] && Owned(s) == OptionSeq(s.m.armed);
    assert !Enabled(s, TimerFires) by { assert Forced(TimerFires); }
    if s.m.conn.state == Connected {
      assert !Enabled(s, TakeExit) by { assert Forced(TakeExit); }
      assert s.m.armed.value in Owned(s);
    }
  }

  lemma HeadIsNoShutdown(s: Sys)
    requires Inv(s) && !s.shutPosted && s.q != []
    ensures !s.q[0].Shutdown?
  {
    assert s.q[0] in s.q;
  }

  lemma FlagsStay(s: Sys, l: Label)
    requires Internal(l) && Enabled(s, l) && (l == Take ==> !s.q[0].Shutdown?)
    ensures var t := Next(s, l);
      t.shut == s.shut && t.ctxDone == s.ctxDone && t.mode == s.mode && t.shutPosted == s.shutPosted
  {
    hide TakeCommand;
    hide TakeChildExit;
    hide ExecOne;
    hide WorkerMoves;
    match l {
      case Exec(dead) => ExecFlags(s, dead);
      case WorkerStep(i, o, dead) => WorkerFlags(s, i, o, dead);
      case _ =>
    }
  }

  lemma InternalStaysUp(s: Sys, l: Label)
    requires Inv(s) && Up(s) && !s.shutPosted && Internal(l) && Enabled(s, l)
    ensures Up(Next(s, l)) && !Next(s, l).shutPosted
  {
    hide Inv;
    hide Next;
    if l == Take {
      HeadIsNoShutdown(s);
    }
    FlagsStay(s, l);
  }

  /** From every reachable state the system can run to rest on its own. */
  lemma {:induction false} CanSettle(s: Sys) returns (states: seq<Sys>, labels: seq<Label>)
    requires Inv(s) && Up(s) && !s.shutPosted
    ensures IsRun(states, labels) && states[0] == s && AtRest(Last(states))
    ensures forall l :: l in labels ==> Forced(l)
    decreases Potential(s)
  {
    hide Inv;
    hide Next;
    hide Enabled;
    hide Potential;
    if AtRest(s) {
      states, labels := [s], [];
    } else {
      var l :| Forced(l) && Enabled(s, l);
      var s' := Next(s, l);
      InternalStaysUp(s, l);
      StepKeeps(s, l);
      InternalSpends(s, l);
      var rest, tail := CanSettle(s');
      states, labels := [s] + rest, [l] + tail;
    }
  }

  // ---------- runs without further requests ----------

  lemma {:induction false} InternalRunKeeps(states: seq<Sys>, labels: seq<Label>)
    requires IsRun(states, labels) && (forall l :: l in labels ==> Internal(l))
    requires Inv(states[0]) && Up(states[0]) && !states[0].shutPosted
    ensures forall i :: 0 <= i < |states| ==> Inv(states[i]) && Up(states[i]) && !states[i].shutPosted
    decreases |labels|
  {
    hide Inv;
    hide Next;
    hide Enabled;
    if labels == [] {
    } else {
      var n := |labels| - 1;
      var before := states[..n + 1];
      assert IsRun(before, labels[..n]);
      InternalRunKeeps(before, labels[..n]);
      assert before[n] == states[n];
      assert labels[n] in labels;
      InternalStaysUp(states[n], labels[n]);
      StepKeeps(states[n], labels[n]);
    }
  }

  /** With no further request, a run is bounded, and one that cannot go on is settled. */
  lemma Quiescence(states: seq<Sys>, labels: seq<Label>)
    requires IsRun(states, labels) && (forall l :: l in labels ==> Internal(l))
    requires Inv(states[0]) && Up(states[0]) && !states[0].shutPosted
    ensures |labels| <= Potential(states[0])
    ensures AtRest(Last(states)) ==> Settled(Last(states))
  {
    hide Inv;
    hide Next;
    hide Enabled;
    hide Potential;
    InternalRunKeeps(states, labels);
    InternalRunsEnd(states, labels);
    if AtRest(Last(states)) {
      RestIsSettled(Last(states));
    }
  }

  // ---------- the wish comes true ----------

  predicate UserCmd(c: Cmd) {
    c.Connect? || c.Switch? || c.Disconnect?
  }

  /** The step delivers a failure of the current attempt, or the death of the connected child. */
  predicate DeliversFailure(s: Sys, l: Label) {
    || (l == Take && s.q != [] && s.q[0].ConnectDone? && s.q[0].gen == s.m.opGen && s.q[0].result.err.Some?)
    || (l == TakeExit && s.m.conn.state == Connected)
  }

  /** A step that delivers neither a request nor a failure leaves the abstract wish alone. */
  lemma NoWishMove(w: Option<Ulid>, s: Sys, l: Label)
    requires Internal(l) && Enabled(s, l)
    requires (l == Take ==> !UserCmd(s.q[0])) && !DeliversFailure(s, l)
    ensures IntentNext(w, s, l) == w
  {
  }

  /** Nobody but a caller puts a request into the queue. */
  lemma NoRequestAdded(s: Sys, l: Label)
    requires Internal(l) && Enabled(s, l) && forall c :: c in s.q ==> !UserCmd(c)
    ensures forall c :: c in Next(s, l).q ==> !UserCmd(c)
  {
    hide TakeCommand;
    hide TakeChildExit;
    hide WorkerNext;
  }

  lemma InternalKeepsWish(s: Sys, l: Label)
    requires Inv(s) && Up(s) && !s.shutPosted && Internal(l) && Enabled(s, l)
    requires (forall c :: c in s.q ==> !UserCmd(c)) && !DeliversFailure(s, l)
    ensures Wanted(Next(s, l).m) == Wanted(s.m)
    ensures forall c :: c in Next(s, l).q ==> !UserCmd(c)
  {
    hide Inv;
    hide Wanted;
    hide Next;
    hide IntentNext;
    hide DeliversFailure;
    InternalStaysUp(s, l);
    IntentRefined(s, l);
    NoRequestAdded(s, l);
    assert l == Take ==> s.q[0] in s.q;
    NoWishMove(Wanted(s.m), s, l);
  }

  lemma {:induction false} RunKeepsWish(states: seq<Sys>, labels: seq<Label>)
    requires IsRun(states, labels) && (forall l :: l in labels ==> Internal(l))
    requires Inv(states[0]) && Up(states[0]) && !states[0].shutPosted
    requires forall c :: c in states[0].q ==> !UserCmd(c)
    requires forall i :: 0 <= i < |labels| ==> !DeliversFailure(states[i], labels[i])
    ensures Wanted(Last(states).m) == Wanted(states[0].m)
    ensures forall c :: c in Last(states).q ==> !UserCmd(c)
    decreases |labels|
  {
    hide Inv;
    hide Next;
    hide Enabled;
    hide Wanted;
    hide DeliversFailure;
    if labels == [] {
    } else {
      var n := |labels| - 1;
      var before := states[..n + 1];
      assert IsRun(before, labels[..n]);
      assert forall i :: 0 <= i < n ==> before[i] == states[i] && labels[..n][i] == labels[i];
      RunKeepsWish(before, labels[..n]);
      InternalRunKeeps(states, labels);
      assert labels[n] in labels && before[n] == states[n];
      InternalKeepsWish(states[n], labels[n]);
    }
  }

  /** If nothing fails, the daemon comes to rest exactly where the user last asked it to be. */
  lemma WishComesTrue(states: seq<Sys>, labels: seq<Label>)
    requires IsRun(states, labels) && (forall l :: l in labels ==> Internal(l))
    requires Inv(states[0]) && Up(states[0]) && !states[0].shutPosted
    requires forall c :: c in states[0].q ==> !UserCmd(c)
    requires forall i :: 0 <= i < |labels| ==> !DeliversFailure(states[i], labels[i])
    requires AtRest(Last(states))
    ensures var w, m := Wanted(states[0].m), Last(states).m;
      && Settled(Last(states))
      && (w.Some? <==> m.conn.state == Connected) && (w.None? <==> m.conn.state == Disconnected)
      && (w.Some? ==> m.conn.configId == w)
  {
    hide Inv;
    hide Next;
    hide Enabled;
    hide DeliversFailure;
    RunKeepsWish(states, labels);
    InternalRunKeeps(states, labels);
    RestIsSettled(Last(states));
    ConnectedHasId(Last(states));
  }

  lemma ConnectedHasId(s: Sys)
    requires Inv(s)
    ensures s.m.conn.state == Connected ==> s.m.conn.configId.Some?
  {
    assert FieldsOk(s.m);
  }
}
