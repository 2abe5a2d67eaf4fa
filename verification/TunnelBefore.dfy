/**
 * What every state of a daemon run satisfies until shutdown has been handled, also once the context is done:
 * reports may then be given up, and the drain may have begun.
 */
module TunnelBefore {
  import opened Base
  import opened Tunnel
  import opened Handlers
  import opened WorkerSteps
  import opened TunnelSystem
  import opened TunnelInvariant
  import opened HandlerEffects
  import opened TakeSteps
  import opened EffectSteps
  import opened GoroutineSteps
  import opened InvariantSteps
  import opened TunnelTheorems
  import opened TunnelCancel
  import opened TunnelReplies
  import opened TunnelShutdown
  import opened TunnelLone

  /** The outstanding report was given up with the context: the actor stays under way, and nobody reports any more. */
  ghost predicate Adrift(s: Sys) {
    && Calm(s, true) && Light(s.todo) && FieldsOk(s.m) && UnderWay(s.m)
    && (forall t :: t in s.threads ==> t.Revert?) && (forall c :: c in s.q ==> !c.DisconnectDone?)
  }

  /** Nothing is lost or held beside one outstanding connect, or nothing is held at all. */
  ghost predicate Settling(s: Sys) {
    Calm(s, false) || Calm(s, true) || Lone(s)
  }

  ghost predicate Before(s: Sys) {
    && Ordered(s)
    && if s.mode == Running then Inv(s) || (s.ctxDone && Adrift(s)) else Settling(s)
  }

  // ---------- the loop, with the context done ----------

  /** While a goroutine holds the token, it holds everything, and the actor is under way. */
  lemma TokenHolds(s: Sys, i: nat)
    requires Inv(s) && i < |s.threads| && ThreadTokens(s.threads[i]) != []
    ensures Light(s.todo) && FieldsOk(s.m) && UnderWay(s.m) && s.m.armed.None? && Last(Trace(s)) == s.m.conn
    ensures forall t :: t in Without(s.threads, i) ==> t.Revert?
    ensures forall c :: c in s.q ==> !c.ConnectDone? && !c.DisconnectDone? && !c.ChildExit?
    ensures Gather(Without(s.threads, i), ThreadStacks) == [] && Gather(s.q, CmdStacks) == []
  {
    hide Gather;
    SoloThread(s, i);
    GatherOnlyExits(s);
    assert TokensOk(s.m, Tokens(s)) && FieldsOk(s.m) && Last(Trace(s)) == s.m.conn;
    hide Inv;
    StacksNeedTokens(Without(s.threads, i), s.q);
    forall e | e in s.todo ensures e.Reply? || e.Post? || e.Cancel? || e.CloseDone? {
      GatherHas(s.todo, e, FxTokens);
      GatherHas(s.todo, e, FxStacks);
    }
  }

  /** The goroutine that holds the token ends without reporting; its stop may have returned. */
  lemma TokenGone(s: Sys, i: nat, s': Sys)
    requires Inv(s) && !s.shut && i < |s.threads| && ThreadTokens(s.threads[i]) != []
    requires s' == s.(threads := Without(s.threads, i), kids := s'.kids, log := s'.log)
    requires KidsOk(s'.kids) && Gather(s'.log, EventPosts) == Gather(s.log, EventPosts)
    ensures Adrift(s')
  {
    hide Gather;
    hide Inv;
    TokenHolds(s, i);
    hide Without;
    hide FieldsOk;
    hide UnderWay;
    LightSilent(s.todo);
    assert Owned(s') == [] && Trace(s') == Trace(s);
  }

  lemma GatherOnlyExits(s: Sys)
    requires Inv(s)
    ensures forall c :: c in s.q ==> !c.ChildExit?
  {
  }

  lemma WorkerTurned(s: Sys, i: nat, o: Outcome, dead: bool)
    requires Inv(s) && !s.shut && Enabled(s, WorkerStep(i, o, dead)) && !StaysOn(s, i, o)
    ensures Adrift(WorkerMoves(s, i, o, dead))
  {
    hide Gather;
    var t, s' := s.threads[i], WorkerMoves(s, i, o, dead);
    SoloThread(s, i);
    assert KidsOk(s.kids) && Owned(s) == Open(s.kids);
    hide Inv;
    if t.pc.Unwind? {
      StopOpen(s.kids, t.pc.child, s.kids[t.pc.child].alive && !dead);
      LogAppend(s.log, Stopped(t.pc.child));
    }
    TokenGone(s, i, s');
  }

  lemma TeardownTurned(s: Sys, i: nat, dead: bool)
    requires Inv(s) && !s.shut && Enabled(s, TeardownStop(i, dead)) && s.ctxDone
    ensures Adrift(Next(s, TeardownStop(i, dead)))
  {
    hide Gather;
    var c := s.threads[i].stack;
    SoloThread(s, i);
    assert KidsOk(s.kids) && Owned(s) == Open(s.kids);
    hide Inv;
    StopOpen(s.kids, c, s.kids[c].alive && !dead);
    LogAppend(s.log, Stopped(c));
    TokenGone(s, i, Next(s, TeardownStop(i, dead)));
  }

  /** A revert goroutine that gives up is none of the invariant's business once the context is done. */
  lemma RevertDropped(s: Sys, i: nat)
    requires Inv(s) && s.ctxDone && i < |s.threads| && s.threads[i].Revert?
    ensures Inv(s.(threads := Without(s.threads, i)))
  {
    hide Gather;
    var s' := s.(threads := Without(s.threads, i));
    WithoutSame(s, i);
    assert ViewOf(s') == ViewOf(s);
    assert Local(s');
  }

  lemma ContextEnds(s: Sys, s': Sys)
    requires Inv(s) && s' == s.(ctxDone := true)
    ensures Inv(s')
  {
    hide Gather;
    assert ViewOf(s') == ViewOf(s);
    assert Local(s');
  }

  lemma LoopKeeps(s: Sys, l: Label)
    requires Inv(s) && Enabled(s, l) && s.mode == Running && !s.shut
    requires Next(s, l).mode == Running && !Next(s, l).shut
    ensures Inv(Next(s, l)) || (s.ctxDone && Adrift(Next(s, l)))
  {
    hide Gather;
    hide Inv;
    hide Adrift;
    match l {
      case Look(_) => SendersKeep(s, Next(s, l));
      case TurnBack(_) => SendersKeep(s, Next(s, l));
      case Call(r) => CallKeeps(s, r);
      case CallShutdown => CallShutdownKeeps(s);
      case CancelCtx => ContextEnds(s, Next(s, l));
      case Take => TakeKeeps(s);
      case TakeExit => TakeExitKeeps(s);
      case Exec(dead) => ExecKeeps(s, dead);
      case WorkerStep(i, o, dead) =>
        if StaysOn(s, i, o) { WorkerStepKeeps(s, i, o, dead); } else { WorkerTurned(s, i, o, dead); }
      case TeardownStop(i, dead) =>
        if s.ctxDone { TeardownTurned(s, i, dead); } else { TeardownStopKeeps(s, i, dead); }
      case PostBack(i, drop) => PostKeeps(s, i, drop);
      case TimerFires => TimerFiresKeeps(s);
      case ChildDies(c) => ChildDiesKeeps(s, c);
    }
  }

  lemma PostKeeps(s: Sys, i: nat, drop: bool)
    requires Inv(s) && !s.shut && Enabled(s, PostBack(i, drop))
    ensures Inv(Next(s, PostBack(i, drop))) || (s.ctxDone && Adrift(Next(s, PostBack(i, drop))))
  {
    hide Gather;
    hide Inv;
    hide Adrift;
    if !drop {
      PostBackKeeps(s, i);
    } else if s.threads[i].Revert? {
      RevertDropped(s, i);
    } else {
      assert KidsOk(s.kids) by { KidsHold(s); }
      TokenGone(s, i, Next(s, PostBack(i, drop)));
    }
  }

  lemma KidsHold(s: Sys)
    requires Inv(s)
    ensures KidsOk(s.kids)
  {
  }

  // ---------- adrift ----------

  lemma AdriftFacts(s: Sys)
    requires Adrift(s)
    ensures Calm(s, true) && Light(s.todo) && FieldsOk(s.m) && UnderWay(s.m) && NoConnect(s) && s.m.armed.None?
    ensures (forall t :: t in s.threads ==> t.Revert?) && (forall c :: c in s.q ==> !c.DisconnectDone?)
  {
    hide Gather;
  }

  lemma AdriftTakes(s: Sys, l: Label)
    requires FieldsOk(s.m) && UnderWay(s.m) && NoConnect(s) && (forall c :: c in s.q ==> !c.DisconnectDone?)
    requires Enabled(s, l) && !Next(s, l).shut && (l == Take || l == TakeExit)
    ensures var s' := Next(s, l); Light(s'.todo) && FieldsOk(s'.m) && UnderWay(s'.m)
  {
    if l == Take {
      assert s.q[0] in s.q;
      PlainStays(s.m, s.q[0]);
    } else {
      assert s.m.conn.state == Disconnecting;
    }
  }

  /** The actor's part: it stays under way and starts nothing. */
  lemma AdriftActor(s: Sys, l: Label)
    requires FieldsOk(s.m) && UnderWay(s.m) && NoConnect(s) && (forall c :: c in s.q ==> !c.DisconnectDone?)
    requires Light(s.todo) && Enabled(s, l) && s.mode == Running && !Next(s, l).shut
    ensures var s' := Next(s, l); Light(s'.todo) && FieldsOk(s'.m) && UnderWay(s'.m)
  {
    if l == Take || l == TakeExit {
      AdriftTakes(s, l);
    } else if l.Exec? {
      ExecLog(s, l.dead);
      ExecFields(s, l.dead);
      hide ExecOne;
    } else {
      assert !l.DrainOne?;
      ElsewhereFields(s, l);
      hide Next;
      hide Enabled;
    }
  }

  lemma ExecFields(s: Sys, dead: bool)
    requires Enabled(s, Exec(dead))
    ensures ExecOne(s, dead).m == s.m
  {
    hide CancelWorkers;
  }

  lemma ElsewhereFields(s: Sys, l: Label)
    requires Enabled(s, l) && !l.Take? && !l.TakeExit? && !l.Exec? && !l.DrainOne?
    ensures Next(s, l).todo == s.todo && Next(s, l).m == s.m.(timer := Next(s, l).m.timer)
    ensures Next(s, l).m.timer == s.m.timer || s.m.timer == Ticking
  {
    hide WorkerNext;
    hide Moved;
    hide Allowed;
  }

  /** Where only revert goroutines are left, no worker and no teardown has a step to take. */
  lemma OnlyReverts(s: Sys, l: Label)
    requires forall t :: t in s.threads ==> t.Revert?
    ensures l.WorkerStep? || l.TeardownStop? ==> !Enabled(s, l)
    ensures l.PostBack? && Enabled(s, l) ==> PostBackCmd(s.threads[l.i]) == Some(AutoRevert)
  {
    assert forall i :: 0 <= i < |s.threads| ==> s.threads[i] in s.threads;
  }

  lemma AdriftThreads(s: Sys, l: Label)
    requires Light(s.todo) && Enabled(s, l) && !l.WorkerStep? && !l.TeardownStop?
    requires forall t :: t in s.threads ==> t.Revert?
    ensures forall t :: t in Next(s, l).threads ==> t.Revert?
  {
    if l.Exec? {
      assert s.todo[0] in s.todo;
      AdriftExec(s, l.dead);
      hide ExecOne;
    } else if l.PostBack? {
      assert forall t :: t in Without(s.threads, l.i) ==> t in s.threads;
    } else {
      hide PostBackCmd;
      hide Without;
    }
  }

  lemma AdriftQueue(s: Sys, l: Label)
    requires Light(s.todo) && Enabled(s, l) && !l.WorkerStep? && !l.TeardownStop?
    requires (forall t :: t in s.threads ==> t.Revert?) && (forall c :: c in s.q ==> !c.DisconnectDone?)
    ensures forall c :: c in Next(s, l).q ==> !c.DisconnectDone?
  {
    if l.Exec? {
      assert s.todo[0] in s.todo;
      AdriftExec(s, l.dead);
      hide ExecOne;
    } else if l.PostBack? {
      assert s.threads[l.i] in s.threads;
    } else {
      hide PostBackCmd;
      hide Without;
    }
  }

  /** Nobody but callers and timers is left. */
  lemma AdriftOthers(s: Sys, l: Label)
    requires Light(s.todo) && Enabled(s, l)
    requires (forall t :: t in s.threads ==> t.Revert?) && (forall c :: c in s.q ==> !c.DisconnectDone?)
    ensures !l.WorkerStep? && !l.TeardownStop?
    ensures forall t :: t in Next(s, l).threads ==> t.Revert?
    ensures forall c :: c in Next(s, l).q ==> !c.DisconnectDone?
  {
    OnlyReverts(s, l);
    AdriftThreads(s, l);
    AdriftQueue(s, l);
    hide Next;
    hide Enabled;
  }

  lemma AdriftExec(s: Sys, dead: bool)
    requires Enabled(s, Exec(dead)) && (forall t :: t in s.threads ==> t.Revert?)
    requires !s.todo[0].Spawn? && !s.todo[0].SpawnTeardown?
    ensures (forall t :: t in ExecOne(s, dead).threads ==> t.Revert?) && ExecOne(s, dead).q == s.q
  {
    var ts := ExecOne(s, dead).threads;
    forall t | t in ts ensures t.Revert? {
      var i :| 0 <= i < |ts| && ts[i] == t;
      assert s.threads[i] in s.threads;
    }
  }

  lemma AdriftKeeps(s: Sys, l: Label)
    requires Adrift(s) && Enabled(s, l) && s.mode == Running && !Next(s, l).shut
    ensures Adrift(Next(s, l))
  {
    hide Gather;
    AdriftFacts(s);
    AdriftActor(s, l);
    AdriftOthers(s, l);
    LightSilent(Next(s, l).todo);
    StepCalm(s, l, true);
    hide Next;
    hide Enabled;
    hide Calm;
    hide Light;
    hide FieldsOk;
  }

  // ---------- the drain ----------

  /** Between two commands the invariant leaves one of two pictures: an outstanding connect or none. */
  lemma InvSettles(s: Sys)
    requires Inv(s) && Idle(s) && !s.shut && Ordered(s)
    ensures Calm(s, false) || Lone(s)
  {
    hide Gather;
    if forall t :: t in Tokens(s) ==> !t.ConnTok? {
      CalmStart(s);
    } else {
      assert Core(ViewOf(s));
      AtMostOneToken(s.m, Tokens(s));
    }
  }

  lemma BeforeSettles(s: Sys)
    requires Before(s) && Idle(s) && !s.shut
    ensures Settling(s) && (!s.ctxDone ==> Calm(s, false) || Lone(s))
  {
    hide Inv;
    hide Calm;
    hide Lone;
    if s.mode == Running && Inv(s) {
      InvSettles(s);
    } else if s.mode == Running {
      AdriftFacts(s);
    }
  }

  /** While draining, before Shutdown has come up, nothing is started. */
  lemma DrainStartsNone(s: Sys, l: Label)
    requires Enabled(s, l) && s.mode != Running && !Next(s, l).shut && NoSpawn(s.todo)
    ensures NoSpawn(Next(s, l).todo)
  {
    if l.DrainOne? {
      DrainLight(s.m, s.q[0]);
    } else if l.Exec? {
      ExecLog(s, l.dead);
    } else {
      ElsewhereFields(s, l);
    }
  }

  lemma LoneDrains(s: Sys, l: Label)
    requires Lone(s) && Enabled(s, l) && s.mode != Running && !Next(s, l).shut
    ensures Lone(Next(s, l)) || Calm(Next(s, l), true)
  {
    hide Gather;
    hide Lone;
    hide Calm;
    hide ExecOne;
    hide DrainCommand;
    hide WorkerMoves;
    assert !l.TeardownStop? by { NoTeardown(s, l); }
    if l.DrainOne? {
      if s.q[0].ConnectDone? { LoneDrainReport(s); } else { LoneDrainPlain(s); }
    } else if l.Exec? {
      LoneExec(s, l.dead);
    } else if l.WorkerStep? {
      LoneWorker(s, l.i, l.outcome, l.dead);
    } else if l.PostBack? {
      LonePosts(s, l.i, l.drop);
    } else if l.TimerFires? {
      LoneTimer(s);
    } else if l.ChildDies? {
      LoneDeath(s, l.child);
    } else if l.Call? {
      LoneEnqueue(s, RequestCmd(l.req, s.nextCh), Next(s, l));
    } else if l.CallShutdown? {
      LoneEnqueue(s, Shutdown, Next(s, l));
    } else {
      LoneFlags(s, l);
    }
  }

  lemma LonePosts(s: Sys, i: nat, drop: bool)
    requires Lone(s) && Enabled(s, PostBack(i, drop))
    ensures Lone(Next(s, PostBack(i, drop))) || Calm(Next(s, PostBack(i, drop)), true)
  {
    hide Gather;
    hide Lone;
    hide Calm;
    if s.threads[i].Revert? {
      LoneRevert(s, i, drop);
    } else {
      LoneThread(s, i);
      if drop { LoneGone(s, i); } else { LoneReport(s, i); }
    }
  }

  lemma SettlingStep(s: Sys, l: Label)
    requires Settling(s) && Enabled(s, l) && s.mode != Running && !Next(s, l).shut
    ensures Settling(Next(s, l))
  {
    hide Gather;
    hide Calm;
    hide Lone;
    hide Next;
    hide Enabled;
    if Lone(s) {
      LoneDrains(s, l);
    } else {
      var lost := !Calm(s, false);
      CalmStartsNone(s, lost);
      DrainStartsNone(s, l);
      NoWorkerSteps(s, l, lost);
      StepCalm(s, l, lost);
    }
  }

  lemma CalmStartsNone(s: Sys, lost: bool)
    requires Calm(s, lost)
    ensures NoSpawn(s.todo)
  {
    hide Gather;
  }

  // ---------- every run ----------

  lemma OrderedStep(s: Sys, l: Label)
    requires Ordered(s) && Enabled(s, l)
    ensures Ordered(Next(s, l))
  {
    hide TakeCommand;
    hide TakeChildExit;
    hide DrainCommand;
    hide ExecOne;
    hide WorkerMoves;
    match l {
      case Take => assert s.q == [s.q[0]] + s.q[1..];
      case DrainOne => assert s.q == [s.q[0]] + s.q[1..];
      case Exec(dead) => ExecFlags(s, dead);
      case WorkerStep(i, o, dead) => WorkerFlags(s, i, o, dead);
      case _ =>
    }
  }

  /** Shutdown stays handled, a context that has ended stays so, and the loop is not entered again. */
  lemma StepForward(s: Sys, l: Label)
    requires Enabled(s, l)
    ensures (s.shut ==> Next(s, l).shut) && (s.ctxDone ==> Next(s, l).ctxDone)
    ensures s.mode != Running ==> Next(s, l).mode != Running
    ensures s.mode == Running && Next(s, l).mode != Running ==> l == BeginDrain
  {
    hide TakeCommand;
    hide TakeChildExit;
    hide DrainCommand;
    hide ExecOne;
    hide WorkerMoves;
    match l {
      case Exec(dead) => ExecFlags(s, dead);
      case WorkerStep(i, o, dead) => WorkerFlags(s, i, o, dead);
      case _ =>
    }
  }

  lemma DrainBegins(s: Sys)
    requires Before(s) && Enabled(s, BeginDrain) && !s.shut
    ensures Settling(Next(s, BeginDrain))
  {
    hide Gather;
    BeforeSettles(s);
    var s' := Next(s, BeginDrain);
    if Lone(s) {
      LoneFlags(s, BeginDrain);
    } else if Calm(s, false) {
      CalmFlags(s, s', false);
    } else {
      CalmFlags(s, s', true);
    }
  }

  lemma StepBefore(s: Sys, l: Label)
    requires Before(s) && Enabled(s, l) && !Next(s, l).shut
    ensures Before(Next(s, l))
  {
    hide Inv;
    hide Adrift;
    hide Settling;
    hide Ordered;
    hide Next;
    hide Enabled;
    OrderedStep(s, l);
    StepForward(s, l);
    if s.mode != Running {
      SettlingStep(s, l);
    } else if Next(s, l).mode != Running {
      DrainBegins(s);
    } else if Inv(s) {
      LoopKeeps(s, l);
    } else {
      AdriftKeeps(s, l);
    }
  }

  lemma {:induction false} RunBefore(states: seq<Sys>, labels: seq<Label>)
    requires IsDaemonRun(states, labels) && !Last(states).shut
    ensures Before(Last(states))
    decreases |labels|
  {
    hide Before;
    hide Next;
    hide Enabled;
    if labels == [] {
      InitBefore();
    } else {
      var n := |labels| - 1;
      StepForward(states[n], labels[n]);
      assert IsDaemonRun(states[..n + 1], labels[..n]);
      RunBefore(states[..n + 1], labels[..n]);
      StepBefore(states[n], labels[n]);
    }
  }

  lemma InitBefore()
    ensures Before(INIT)
  {
    InitOk();
  }
}
