/** What shutdown leaves behind when no connect is outstanding. */
module TunnelShutdown {
  import opened Base
  import opened Tunnel
  import opened Handlers
  import opened WorkerSteps
  import opened TunnelSystem
  import opened TunnelInvariant
  import opened HandlerEffects
  import opened EffectSteps
  import opened GoroutineSteps
  import opened TunnelReplies
  import opened TunnelTheorems

  /** No connect is running, reported, or about to start. */
  predicate NoConnect(s: Sys) {
    && (forall t :: t in s.threads ==> !t.Worker?)
    && (forall c :: c in s.q ==> !c.ConnectDone? && !c.ChildExit?)
    && NoSpawn(s.todo)
  }

  predicate NoSpawn(todo: seq<Effect>) {
    forall e :: e in todo ==> !e.Spawn?
  }

  predicate Down(m: Actor) {
    && m.armed.None? && m.child.None? && m.childExitCC.None?
    && m.pendingSwitch == ZERO_ULID && m.conn.state == Disconnected
  }

  /**
   * What survives shutdown and drain as long as no connect is about. `lost` says that nobody holds anything
   * any more, not even the child whose stop has not returned, if there is one.
   */
  ghost predicate Calm(s: Sys, lost: bool) {
    && NoConnect(s)
    && KidsOk(s.kids) && Owned(s) == (if lost then [] else Open(s.kids))
    && Last(Trace(s)) == s.m.conn
    && (s.shut ==> Down(s.m))
  }

  lemma CalmStart(s: Sys)
    requires Inv(s) && !s.shut
    requires forall t :: t in Tokens(s) ==> !t.ConnTok?
    ensures Calm(s, false)
  {
    hide Gather;
    forall t | t in s.threads ensures !t.Worker? {
      if t.Worker? {
        ThreadTokenSeen(s, t);
      }
    }
    forall c | c in s.q ensures !c.ConnectDone? && !c.ChildExit? {
      if c.ConnectDone? {
        QueueTokenSeen(s, c);
      }
    }
    forall e | e in s.todo ensures !e.Spawn? {
      if e.Spawn? {
        PendingTokenSeen(s, e);
      }
    }
    assert Core(ViewOf(s));
  }

  lemma ThreadTokenSeen(s: Sys, t: Thread)
    requires t in s.threads && t.Worker?
    ensures ConnTok(t.gen, t.id) in Tokens(s)
  {
    hide Gather;
    var i :| 0 <= i < |s.threads| && s.threads[i] == t;
    GatherSplit(s.threads, i, ThreadTokens);
    assert ThreadTokens(t)[0] in Gather(s.threads, ThreadTokens);
  }

  lemma QueueTokenSeen(s: Sys, c: Cmd)
    requires c in s.q && c.ConnectDone?
    ensures ConnTok(c.gen, c.result.id) in Tokens(s)
  {
    hide Gather;
    var i :| 0 <= i < |s.q| && s.q[i] == c;
    GatherSplit(s.q, i, CmdTokens);
    assert CmdTokens(c)[0] in Gather(s.q, CmdTokens);
  }

  lemma PendingTokenSeen(s: Sys, e: Effect)
    requires e in s.todo && e.Spawn?
    ensures ConnTok(e.gen, e.id) in Tokens(s)
  {
    hide Gather;
    var i :| 0 <= i < |s.todo| && s.todo[i] == e;
    GatherSplit(s.todo, i, FxTokens);
    assert FxTokens(e)[0] in Gather(s.todo, FxTokens);
  }

  // ---------- handlers when no connect is about ----------

  /** What a dispatch owes the calm: the armed stack is handed on, and every state change is posted. */
  ghost predicate HandsOn(m: Actor, o: Out) {
    && Gather(o.fx, FxStacks) + OptionSeq(o.m.armed) == OptionSeq(m.armed)
    && Last([m.conn] + Gather(o.fx, FxPosts)) == o.m.conn
  }

  lemma ReplyHandsOn(m: Actor, o: Out, to: Option<ChanId>, code: ReplyCode)
    requires o.m.conn == m.conn && o.m.armed == m.armed
    requires o.fx == ReplyOn(to, code) || o.fx == []
    ensures HandsOn(m, o)
  {
    hide Gather;
    SumNil();
    SumReply(to, code);
  }

  lemma PostHandsOn(m: Actor, o: Out, st: ConnStatus)
    requires o.m.conn == st && o.m.armed == m.armed && o.fx == [Post(st)]
    ensures HandsOn(m, o)
  {
    hide Gather;
    SumSingle(Post(st));
  }

  /** A reply, a post, and perhaps one more effect that is not a post. */
  lemma ReplyPostHandsOn(m: Actor, o: Out, to: Option<ChanId>, st: ConnStatus, more: seq<Effect>)
    requires o.fx == ReplyOn(to, Accepted) + ([Post(st)] + more) && o.m.conn == st
    requires |more| <= 1 && forall e :: e in more ==> !e.Post?
    requires Gather(more, FxStacks) + OptionSeq(o.m.armed) == OptionSeq(m.armed)
    ensures HandsOn(m, o)
  {
    hide Gather;
    SumAfterReply(to, Accepted, [Post(st)] + more);
    SumConcat([Post(st)], more);
    SumSingle(Post(st));
    GatherNone(more, FxPosts);
    assert SumOf(o.fx).posts == [st] && SumOf(o.fx).stacks == Gather(more, FxStacks);
    hide SumOf;
    assert Last([m.conn] + [st]) == st;
  }

  lemma DisconnectHandsOn(m: Actor, to: Option<ChanId>)
    ensures HandsOn(m, HandleDisconnect(m, to))
  {
    hide Gather;
    var o := HandleDisconnect(m, to);
    var r := ReplyOn(to, Accepted);
    SumNil();
    if m.conn.state == Disconnected || m.conn.state == Disconnecting {
      ReplyHandsOn(m, o, to, if m.conn.state == Disconnected then NotConnected else Accepted);
    } else if m.conn.state == Validating || m.conn.state == Connecting {
      var cancel := if m.cancelConnect.Some? then [Cancel(m.cancelConnect.value)] else [];
      if m.cancelConnect.Some? {
        SumSingle(Cancel(m.cancelConnect.value));
      }
      assert r + [Post(o.m.conn)] + cancel == r + ([Post(o.m.conn)] + cancel);
      ReplyPostHandsOn(m, o, to, o.m.conn, cancel);
    } else if m.armed.None? {
      assert [Post(IDLE)] + [] == [Post(IDLE)];
      ReplyPostHandsOn(m, o, to, IDLE, []);
    } else {
      var start := SpawnTeardown(m.opGen + 1, m.armed.value);
      SumSingle(start);
      assert [Post(o.m.conn)] + [start] == [Post(o.m.conn), start];
      ReplyPostHandsOn(m, o, to, o.m.conn, [start]);
    }
  }

  lemma SwitchHandsOn(m: Actor, id: Ulid, to: Option<ChanId>)
    requires NoSpawn(HandleSwitch(m, id, to).fx)
    ensures HandsOn(m, HandleSwitch(m, id, to))
  {
    hide Gather;
    var o := HandleSwitch(m, id, to);
    if m.conn.state == Disconnected || m.conn.state == Error {
      ConnectSpawns(m, id, to);
    } else if m.conn.state == Disconnecting || m.activeId == id {
      ReplyHandsOn(m, o, to, if m.conn.state == Disconnecting then AlreadyConnected else Accepted);
    } else {
      DisconnectHandsOn(m, None);
      SumAfterReply(to, Accepted, HandleDisconnect(m, None).fx);
    }
  }

  /** An accepted connect starts a worker. */
  lemma ConnectSpawns(m: Actor, id: Ulid, to: Option<ChanId>)
    requires m.conn.state == Disconnected || m.conn.state == Error
    ensures !NoSpawn(HandleConnect(m, id, to).fx)
  {
    var fx := HandleConnect(m, id, to).fx;
    assert fx[|fx| - 1].Spawn?;
  }

  /** So does a deferred one. */
  lemma DeferredSpawns(m: Actor)
    requires m.pendingSwitch != ZERO_ULID
    ensures !NoSpawn(FinishTeardown(m).fx)
  {
    var fx := FinishTeardown(m).fx;
    assert fx[|fx| - 1].Spawn?;
  }

  lemma TeardownHandsOn(m: Actor)
    requires NoSpawn(FinishTeardown(m).fx)
    ensures HandsOn(m, FinishTeardown(m)) && m.pendingSwitch == ZERO_ULID
  {
    hide Gather;
    if m.pendingSwitch != ZERO_ULID {
      DeferredSpawns(m);
    }
    assert FinishTeardown(m).fx == [Post(IDLE)];
    PostHandsOn(m, FinishTeardown(m), IDLE);
  }

  lemma ShutdownHandsOn(m: Actor)
    ensures HandsOn(m, HandleShutdown(m)) && Down(HandleShutdown(m).m)
  {
    hide Gather;
    var fx := HandleShutdown(m).fx;
    var cancel := if m.cancelConnect.Some? then [Cancel(m.cancelConnect.value)] else [];
    var post := if m.conn.state != Disconnected then [Post(IDLE)] else [];
    SumNil();
    SumSingle(CloseDone);
    SumSingle(Post(IDLE));
    if m.cancelConnect.Some? {
      SumSingle(cancel[0]);
    }
    if m.armed.Some? {
      SumSingle(StopChild(m.armed.value));
    }
    SumConcat(cancel + RunStack(m.armed) + post, [CloseDone]);
    SumConcat(cancel + RunStack(m.armed), post);
    SumConcat(cancel, RunStack(m.armed));
  }

  lemma ExitHandsOn(m: Actor)
    ensures HandsOn(m, TakeChildExit(m))
  {
    hide Gather;
    var o := TakeChildExit(m);
    if m.conn.state == Disconnecting {
      ReplyHandsOn(m, o, None, Accepted);
    } else {
      var post := Post(Faulty("xray_died_early"));
      SumSingle(post);
      SumConcat(RunStack(m.armed), [post]);
      SumNil();
      if m.armed.Some? {
        SumSingle(StopChild(m.armed.value));
      }
    }
  }

  lemma TakeHandsOn(m: Actor, c: Cmd)
    requires !c.ConnectDone? && !c.ChildExit? && NoSpawn(TakeCommand(m, c).fx)
    ensures HandsOn(m, TakeCommand(m, c))
    ensures c.Shutdown? || Down(m) ==> Down(TakeCommand(m, c).m)
  {
    hide Gather;
    var m1, o := CancelTimer(m), TakeCommand(m, c);
    match c {
      case Connect(id, ch) =>
        if m.conn.state == Disconnected || m.conn.state == Error {
          ConnectSpawns(m1, id, Some(ch));
        }
        ReplyHandsOn(m, o, Some(ch), AlreadyConnected);
      case Disconnect(ch) => DisconnectHandsOn(m1, Some(ch));
      case Switch(id, ch) =>
        SwitchHandsOn(m1, id, Some(ch));
        if m.conn.state == Disconnected {
          ConnectSpawns(m1, id, Some(ch));
        }
      case GetStatus(ch) => ReplyHandsOn(m, o, Some(ch), StatusIs(m.conn));
      case ConnectProgress(_, _) =>
        if o.fx == [] { ReplyHandsOn(m, o, None, Accepted); } else { PostHandsOn(m, o, o.m.conn); }
      case DisconnectDone(gen) =>
        if gen == m.opGen { TeardownHandsOn(m); } else { ReplyHandsOn(m, o, None, Accepted); }
      case AutoRevert =>
        if o.fx == [] { ReplyHandsOn(m, o, None, Accepted); } else { PostHandsOn(m, o, IDLE); }
      case Shutdown => ShutdownHandsOn(m1);
    }
  }

  lemma DrainHandsOn(m: Actor, c: Cmd)
    ensures HandsOn(m, DrainCommand(m, c))
    ensures c.Shutdown? || Down(m) ==> Down(DrainCommand(m, c).m)
  {
    hide Gather;
    var o := DrainCommand(m, c);
    match c {
      case Shutdown => ShutdownHandsOn(m);
      case Connect(_, ch) => ReplyHandsOn(m, o, Some(ch), ShuttingDown);
      case Disconnect(ch) => ReplyHandsOn(m, o, Some(ch), ShuttingDown);
      case Switch(_, ch) => ReplyHandsOn(m, o, Some(ch), ShuttingDown);
      case GetStatus(ch) => ReplyHandsOn(m, o, Some(ch), NoStatus);
      case _ => ReplyHandsOn(m, o, None, Accepted);
    }
  }

  // ---------- steps ----------

  lemma NoStacksQueued(q: seq<Cmd>)
    requires forall c :: c in q ==> !c.ConnectDone?
    ensures Gather(q, CmdStacks) == []
  {
    GatherNone(q, CmdStacks);
  }

  lemma CalmDispatch(s: Sys, o: Out, rest: seq<Cmd>, s': Sys, lost: bool)
    requires Calm(s, lost) && Idle(s) && Dispatched(s, o, rest, s') && HandsOn(s.m, o)
    requires (forall c :: c in rest ==> c in s.q) && NoSpawn(o.fx)
    requires s'.shut ==> Down(o.m)
    ensures Calm(s', lost)
  {
    hide Gather;
    IdleGathers(s);
    NoStacksQueued(s.q);
    NoStacksQueued(rest);
    CalmTrace(Gather(s.log, EventPosts), Gather(o.fx, FxPosts), s.m.conn, o.m.conn);
    CalmOwners(Gather(s.threads, ThreadStacks), Gather(o.fx, FxStacks), OptionSeq(o.m.armed), OptionSeq(s.m.armed));
  }

  lemma CalmTrace(log: seq<ConnStatus>, posts: seq<ConnStatus>, a: ConnStatus, b: ConnStatus)
    requires Last([IDLE] + log) == a && Last([a] + posts) == b
    ensures Last([IDLE] + log + posts) == b
  {
    if posts != [] {
      assert Last([a] + posts) == Last(posts);
    } else {
      assert [IDLE] + log + posts == [IDLE] + log;
    }
  }

  lemma CalmOwners(a: seq<ChildId>, fx: seq<ChildId>, armed': seq<ChildId>, armed: seq<ChildId>)
    requires fx + armed' == armed
    ensures a + [] + fx + armed' == a + [] + armed
  {
  }

  lemma CalmStopped(s: Sys, s': Sys)
    requires Calm(s, false) && s'.threads == s.threads && s'.q == s.q && s'.m == s.m && s'.shut == s.shut
    requires (forall e :: e in s'.todo ==> e in s.todo) && Trace(s') == Trace(s)
    requires KidsOk(s'.kids) && Open(s'.kids) == [] && Owned(s') == []
    ensures Calm(s', false)
  {
    hide Gather;
    hide Trace;
    hide Owned;
  }

  lemma CalmExecStop(s: Sys, dead: bool)
    requires Calm(s, false) && Enabled(s, Exec(dead)) && s.todo[0].StopChild?
    ensures Calm(ExecOne(s, dead), false)
  {
    hide Gather;
    var c := s.todo[0].child;
    ExecStopOwned(s, dead);
    ExecStopTrace(s, dead);
    ExecStopKids(s, dead);
    StopOpen(s.kids, c, s.kids[c].alive && !dead);
    CalmStopped(s, ExecOne(s, dead));
  }

  /** The same holders and the same posts, and still no connect. */
  lemma CalmSame(s: Sys, s': Sys, lost: bool)
    requires Calm(s, lost) && NoConnect(s') && KidsOk(s'.kids) && Open(s'.kids) == Open(s.kids)
    requires Owned(s') == Owned(s) && Trace(s') == Trace(s) && s'.m.conn == s.m.conn && (s'.shut ==> Down(s'.m))
    ensures Calm(s', lost)
  {
    hide Gather;
    hide Trace;
    hide Owned;
    hide NoConnect;
  }

  /** The armed stack's teardown starts: the stack moves from the pending effect to the goroutine. */
  lemma TeardownStarts(s: Sys, dead: bool)
    requires Enabled(s, Exec(dead)) && s.todo[0].SpawnTeardown? && Gather(s.q, CmdStacks) == []
    ensures var s' := ExecOne(s, dead); Owned(s') == Owned(s) && Trace(s') == Trace(s)
  {
    hide Gather;
    var t := Teardown(s.todo[0].gen, s.todo[0].stack, false);
    var s' := s.(threads := s.threads + [t], todo := s.todo[1..]);
    assert ExecOne(s, dead) == s';
    TodoHead(s);
    ThreadAppend(s.threads, t);
    Move(Gather(s.threads, ThreadStacks), Gather(s.q, CmdStacks), [t.stack], Gather(s'.todo, FxStacks));
  }

  lemma CalmExecTeardown(s: Sys, dead: bool, lost: bool)
    requires Calm(s, lost) && Enabled(s, Exec(dead)) && s.todo[0].SpawnTeardown?
    ensures Calm(ExecOne(s, dead), lost)
  {
    hide Gather;
    hide Owned;
    hide Trace;
    NoStacksQueued(s.q);
    TeardownStarts(s, dead);
    CalmSame(s, ExecOne(s, dead), lost);
  }

  /** What is about to be stopped is not lost. */
  lemma StopperOwns(s: Sys, lost: bool)
    requires Calm(s, lost) && s.todo != [] && s.todo[0].StopChild?
    ensures !lost
  {
    hide Gather;
    TodoHead(s);
    assert FxStacks(s.todo[0])[0] in Owned(s);
  }

  lemma CalmExec(s: Sys, dead: bool, lost: bool)
    requires Calm(s, lost) && Enabled(s, Exec(dead))
    ensures Calm(ExecOne(s, dead), lost)
  {
    hide Gather;
    assert s.todo[0] in s.todo;
    if s.todo[0].StopChild? {
      StopperOwns(s, lost);
      CalmExecStop(s, dead);
    } else if s.todo[0].SpawnTeardown? {
      CalmExecTeardown(s, dead, lost);
    } else {
      CalmExecQuiet(s, dead, lost);
    }
  }

  lemma CalmExecQuiet(s: Sys, dead: bool, lost: bool)
    requires Calm(s, lost) && Enabled(s, Exec(dead))
    requires s.todo[0].Cancel? || s.todo[0].Reply? || s.todo[0].Post? || s.todo[0].CloseDone?
    ensures Calm(ExecOne(s, dead), lost)
  {
    hide Gather;
    if s.todo[0].Cancel? {
      ExecCancelView(s, dead);
      CancelKeepsKind(s.threads, s.todo[0].gen);
    } else {
      ExecQuietView(s, dead);
    }
    var v := ViewOf(ExecOne(s, dead));
    assert v.owned == Owned(s) && v.trace == Trace(s);
  }

  lemma CancelKeepsKind(ts: seq<Thread>, gen: nat)
    requires forall t :: t in ts ==> !t.Worker?
    ensures CancelWorkers(ts, gen) == ts
  {
  }

  /** The goroutine at `i` may end, or go on, once its stop has returned. */
  lemma StackGone(s: Sys, i: nat)
    requires i < |s.threads| && s.threads[i].Teardown?
    ensures Gather(Moved(s, i, s.threads[i].(ran := true)), ThreadStacks)
         == Gather(s.threads[..i], ThreadStacks) + [] + Gather(s.threads[i + 1..], ThreadStacks)
    ensures forall u :: u in Moved(s, i, s.threads[i].(ran := true)) && u.Worker? ==> u in s.threads
  {
    hide Gather;
    GatherSplit(s.threads, i, ThreadStacks);
    GatherUpdate(s.threads, i, s.threads[i].(ran := true), ThreadStacks);
  }

  lemma TeardownOwns(s: Sys, i: nat, lost: bool)
    requires Calm(s, lost) && i < |s.threads| && s.threads[i].Teardown? && !s.threads[i].ran
    ensures !lost
  {
    hide Gather;
    GatherHas(s.threads, s.threads[i], ThreadStacks);
  }

  lemma CalmTeardownStop(s: Sys, i: nat, dead: bool)
    requires Calm(s, false) && Enabled(s, TeardownStop(i, dead))
    ensures Calm(Next(s, TeardownStop(i, dead)), false)
  {
    hide Gather;
    var t := s.threads[i];
    var s' := Next(s, TeardownStop(i, dead));
    GatherSplit(s.threads, i, ThreadStacks);
    StackGone(s, i);
    hide Moved;
    LogAppend(s.log, Stopped(t.stack));
    OwnerGone(Gather(s.threads[..i], ThreadStacks), t.stack, Gather(s.threads[i + 1..], ThreadStacks),
              Gather(s.q, CmdStacks) + Gather(s.todo, FxStacks) + OptionSeq(s.m.armed), Owned(s), Owned(s'));
    assert Trace(s') == Trace(s);
    StopOpen(s.kids, t.stack, s.kids[t.stack].alive && !dead);
  }

  lemma OwnerGone(a: seq<ChildId>, c: ChildId, b: seq<ChildId>, rest: seq<ChildId>,
                  owned: seq<ChildId>, owned': seq<ChildId>)
    requires |owned| <= 1 && owned == a + [c] + b + rest && owned' == a + [] + b + rest
    ensures owned == [c] && owned' == []
  {
    assert |owned| == |a| + 1 + |b| + |rest|;
  }

  /** A goroutine without a stack ends. */
  lemma ReportsNothing(s: Sys, i: nat)
    requires i < |s.threads| && ThreadStacks(s.threads[i]) == []
    ensures var s' := s.(threads := Without(s.threads, i)); Owned(s') == Owned(s) && Trace(s') == Trace(s)
  {
    hide Gather;
    GatherSplit(s.threads, i, ThreadStacks);
  }

  lemma CalmPostBack(s: Sys, i: nat, drop: bool, lost: bool)
    requires Calm(s, lost) && Enabled(s, PostBack(i, drop))
    ensures Calm(Next(s, PostBack(i, drop)), lost)
  {
    hide Gather;
    hide Owned;
    hide Trace;
    var t := s.threads[i];
    var s1 := s.(threads := Without(s.threads, i));
    assert t in s.threads;
    assert ThreadStacks(t) == [];
    ReportsNothing(s, i);
    assert forall u :: u in s1.threads ==> u in s.threads;
    CalmSame(s, s1, lost);
    if !drop {
      CalmEnqueue(s1, PostBackCmd(t).value, Next(s, PostBack(i, drop)), lost);
    }
  }

  /** A request of whatever kind enters the queue. */
  lemma CalmEnqueue(s: Sys, c: Cmd, s': Sys, lost: bool)
    requires Calm(s, lost) && !c.ConnectDone? && !c.ChildExit?
    requires s' == s.(q := s.q + [c], nextCh := s'.nextCh, shutPosted := s'.shutPosted, passed := s'.passed)
    ensures Calm(s', lost)
  {
    hide Gather;
    QueueAppend(s.q, c);
    assert Owned(s') == Owned(s) && Trace(s') == Trace(s);
  }

  lemma CalmTimer(s: Sys, lost: bool)
    requires Calm(s, lost) && Enabled(s, TimerFires)
    ensures Calm(Next(s, TimerFires), lost)
  {
    hide Gather;
    var s' := Next(s, TimerFires);
    ThreadAppend(s.threads, Revert);
    assert Owned(s') == Owned(s) && Trace(s') == Trace(s);
  }

  lemma CalmDeath(s: Sys, c: ChildId, lost: bool)
    requires Calm(s, lost) && Enabled(s, ChildDies(c))
    ensures Calm(Next(s, ChildDies(c)), lost)
  {
    hide Gather;
    var s' := Next(s, ChildDies(c));
    AliveIsSilent(s.kids, c, false);
    assert Owned(s') == Owned(s) && Trace(s') == Trace(s);
  }

  /** Flags, and Switch calls that have sent nothing yet, are none of its business. */
  lemma CalmFlags(s: Sys, s': Sys, lost: bool)
    requires Calm(s, lost) && s' == s.(mode := s'.mode, ctxDone := s'.ctxDone, passed := s'.passed)
    ensures Calm(s', lost)
  {
    hide Gather;
    assert Owned(s') == Owned(s) && Trace(s') == Trace(s);
  }

  lemma CalmTake(s: Sys, l: Label, lost: bool)
    requires Calm(s, lost) && Enabled(s, l) && (l == Take || l == DrainOne || l == TakeExit)
    requires NoSpawn(Next(s, l).todo)
    ensures Calm(Next(s, l), lost)
  {
    hide Gather;
    hide Calm;
    var s' := Next(s, l);
    assert NoConnect(s) && (s.shut ==> Down(s.m)) by { CalmFacts(s, lost); }
    if l == Take {
      assert s.q[0] in s.q;
      TakeHandsOn(s.m, s.q[0]);
      CalmDispatch(s, TakeCommand(s.m, s.q[0]), s.q[1..], s', lost);
    } else if l == DrainOne {
      DrainHandsOn(s.m, s.q[0]);
      CalmDispatch(s, DrainCommand(s.m, s.q[0]), s.q[1..], s', lost);
    } else {
      ExitHandsOn(s.m);
      CalmDispatch(s, TakeChildExit(s.m), s.q, s', lost);
    }
  }

  lemma CalmFacts(s: Sys, lost: bool)
    requires Calm(s, lost)
    ensures NoConnect(s) && (s.shut ==> Down(s.m))
  {
  }

  lemma StepCalm(s: Sys, l: Label, lost: bool)
    requires Calm(s, lost) && !l.WorkerStep? && Enabled(s, l) && NoSpawn(Next(s, l).todo)
    ensures Calm(Next(s, l), lost)
  {
    hide Gather;
    hide Calm;
    hide NoSpawn;
    hide ExecOne;
    hide TakeCommand;
    hide TakeChildExit;
    hide DrainCommand;
    match l {
      case Take => CalmTake(s, l, lost);
      case DrainOne => CalmTake(s, l, lost);
      case TakeExit => CalmTake(s, l, lost);
      case Exec(dead) => CalmExec(s, dead, lost);
      case TeardownStop(i, dead) => TeardownOwns(s, i, lost); CalmTeardownStop(s, i, dead);
      case PostBack(i, drop) => CalmPostBack(s, i, drop, lost);
      case TimerFires => CalmTimer(s, lost);
      case ChildDies(c) => CalmDeath(s, c, lost);
      case Call(r) => CalmEnqueue(s, RequestCmd(r, s.nextCh), Next(s, l), lost);
      case CallShutdown => CalmEnqueue(s, Shutdown, Next(s, l), lost);
      case Look(_) => CalmFlags(s, Next(s, l), lost);
      case TurnBack(_) => CalmFlags(s, Next(s, l), lost);
      case CancelCtx => CalmFlags(s, Next(s, l), lost);
      case BeginDrain => CalmFlags(s, Next(s, l), lost);
      case Finish => CalmFlags(s, Next(s, l), lost);
    }
  }

  lemma NoWorkerSteps(s: Sys, l: Label, lost: bool)
    requires Calm(s, lost)
    ensures l.WorkerStep? ==> !Enabled(s, l)
  {
    hide Gather;
  }

  lemma {:induction false} RunCalm(states: seq<Sys>, labels: seq<Label>)
    requires IsRun(states, labels) && Calm(states[0], false)
    requires forall i :: 0 <= i < |states| ==> NoSpawn(states[i].todo)
    ensures Calm(Last(states), false)
    decreases |labels|
  {
    hide Calm;
    hide NoSpawn;
    hide Next;
    hide Enabled;
    if labels == [] {
    } else {
      assert NoSpawn(states[1].todo);
      NoWorkerSteps(states[0], labels[0], false);
      StepCalm(states[0], labels[0], false);
      RunCalm(states[1..], labels[1..]);
    }
  }

  // ---------- the command is handled once ----------

  ghost predicate ShutOnce(s: Sys) {
    SlipsOk(s) && ShutFlags(s)
  }

  lemma DoneSlipSeen(q: seq<Cmd>)
    requires Shutdown in q
    ensures Times(Gather(q, CmdSlips), DoneSlip) >= 1
  {
    hide Gather;
    var i :| 0 <= i < |q| && q[i] == Shutdown;
    GatherSplit(q, i, CmdSlips);
    assert CmdSlips(Shutdown)[0] in Gather(q, CmdSlips);
  }

  /** A queued shutdown command is the only one. */
  lemma OneShutdown(s: Sys)
    requires SlipsOk(s) && s.q != [] && s.q[0].Shutdown?
    ensures Shutdown !in s.q[1..]
  {
    hide Gather;
    GatherHead(s.q, CmdSlips);
    var rest := Gather(s.q[1..], CmdSlips);
    TimesConcat([DoneSlip], rest, DoneSlip);
    assert Slips(s)[DoneSlip] >= 1 + Times(rest, DoneSlip);
    if Shutdown in s.q[1..] {
      DoneSlipSeen(s.q[1..]);
    }
  }

  /** Shutdown is posted, then handled; its caller ends the context, and only then does the actor drain and exit. */
  predicate ShutFlags(s: Sys) {
    && (s.shut ==> s.shutPosted && Shutdown !in s.q)
    && (!s.shut ==> (s.shutPosted <==> Shutdown in s.q))
    && (s.ctxDone ==> s.shutPosted) && (s.mode != Running ==> s.ctxDone) && (s.mode == Exited ==> s.shut)
  }

  lemma StepFlags(s: Sys, l: Label)
    requires ShutFlags(s) && Enabled(s, l)
    requires (l == Take || l == DrainOne) && s.q[0].Shutdown? ==> Shutdown !in s.q[1..]
    ensures ShutFlags(Next(s, l))
  {
    hide TakeCommand;
    hide TakeChildExit;
    hide DrainCommand;
    hide ExecOne;
    hide WorkerMoves;
    match l {
      case Take => assert s.q == [s.q[0]] + s.q[1..];
      case DrainOne => assert s.q == [s.q[0]] + s.q[1..];
      case Exec(dead) => ExecFlags(s, dead);
      case WorkerStep(i, o, dead) => WorkerFlags(s, i, o, dead);
      case _ =>
    }
  }

  lemma StepShutOnce(s: Sys, l: Label)
    requires ShutOnce(s) && Enabled(s, l)
    ensures ShutOnce(Next(s, l))
  {
    hide SlipsOk;
    StepSlips(s, l);
    if (l == Take || l == DrainOne) && s.q[0].Shutdown? {
      OneShutdown(s);
    }
    StepFlags(s, l);
  }

  lemma {:induction false} RunShutOnce(states: seq<Sys>, labels: seq<Label>)
    requires IsRun(states, labels) && ShutOnce(states[0])
    ensures ShutOnce(Last(states))
    decreases |labels|
  {
    hide ShutOnce;
    hide Next;
    hide Enabled;
    if labels == [] {
    } else {
      StepShutOnce(states[0], labels[0]);
      RunShutOnce(states[1..], labels[1..]);
    }
  }

  lemma NoSlipQueued(q: seq<Cmd>)
    requires Shutdown !in q
    ensures Times(Gather(q, CmdSlips), DoneSlip) == 0
  {
    if q == [] {
    } else {
      NoSlipQueued(q[1..]);
      GatherHead(q, CmdSlips);
      TimesConcat(CmdSlips(q[0]), Gather(q[1..], CmdSlips), DoneSlip);
      assert q[0] in q;
    }
  }

  /** Once handled, shutdown has closed its channel, or is about to, exactly once. */
  lemma DoneClosedOnce(states: seq<Sys>, labels: seq<Label>)
    requires IsDaemonRun(states, labels) && Last(states).shut
    ensures var s := Last(states);
      Times(Gather(s.todo, FxSlips), DoneSlip) + Times(Gather(s.log, EventSlips), DoneSlip) == 1
  {
    assert SlipsOk(INIT);
    RunShutOnce(states, labels);
    var s := Last(states);
    assert Slips(s)[DoneSlip] == 1;
    NoSlipQueued(s.q);
  }

  // ---------- what shutdown leaves behind ----------

  /**
   * Nothing is held, the last post is Disconnected, and every child has been stopped or has the one
   * goroutine or pending effect that will stop it.
   */
  ghost predicate CleanedUp(s: Sys) {
    && s.m.armed.None? && s.m.child.None? && s.m.pendingSwitch == ZERO_ULID
    && Last(Trace(s)).state == Disconnected
    && forall c :: 0 <= c < |s.kids| ==>
         s.kids[c].stops + Times(Gather(s.threads, ThreadStacks), c) + Times(Gather(s.todo, FxStacks), c) == 1
  }

  /** The children left without a returned stop after shutdown: one at most, and it has a runner. */
  lemma CalmLeftovers(s: Sys, c: ChildId)
    requires Calm(s, false) && s.shut && c < |s.kids|
    ensures s.kids[c].stops + Times(Gather(s.threads, ThreadStacks), c) + Times(Gather(s.todo, FxStacks), c) == 1
  {
    hide Gather;
    NoStacksQueued(s.q);
    OneOwner(s.kids, c);
    var a, b := Gather(s.threads, ThreadStacks), Gather(s.todo, FxStacks);
    assert Gather(s.q, CmdStacks) == [] && OptionSeq(s.m.armed) == [];
    assert Owned(s) == a + b;
    TimesConcat(a, b, c);
  }

  /**
   * Shutdown cleans up: take a point of the run where neither shutdown has been handled nor the
   * context cancelled, and no connect is outstanding; if no connect starts from there on, then after
   * the shutdown command has been handled, in the event loop or in the drain, the actor holds
   * nothing, every child has been stopped or has the one goroutine or pending effect that will stop
   * it, the last posted state is Disconnected, and Shutdown's channel is closed exactly once.
   */
  lemma ShutdownCleansUp(states: seq<Sys>, labels: seq<Label>, k: nat)
    requires IsDaemonRun(states, labels) && k < |states|
    requires Up(states[k]) && forall t :: t in Tokens(states[k]) ==> !t.ConnTok?
    requires forall i :: k <= i < |states| ==> NoSpawn(states[i].todo)
    requires Last(states).shut
    ensures var s := Last(states);
      && CleanedUp(s)
      && Times(Gather(s.todo, FxSlips), DoneSlip) + Times(Gather(s.log, EventSlips), DoneSlip) == 1
  {
    hide Calm;
    hide NoSpawn;
    hide Next;
    hide Enabled;
    hide Inv;
    hide CleanedUp;
    var s := Last(states);
    var before := states[..k + 1];
    assert IsDaemonRun(before, labels[..k]) && Last(before) == states[k];
    Reachable(before, labels[..k]);
    CalmStart(states[k]);
    var after, ls := states[k..], labels[k..];
    assert IsRun(after, ls);
    RunCalm(after, ls);
    assert Last(after) == s;
    DoneClosedOnce(states, labels);
    CalmEnd(s);
  }

  lemma CalmEnd(s: Sys)
    requires Calm(s, false) && s.shut
    ensures CleanedUp(s)
  {
    hide Gather;
    forall c | 0 <= c < |s.kids|
      ensures s.kids[c].stops + Times(Gather(s.threads, ThreadStacks), c) + Times(Gather(s.todo, FxStacks), c) == 1
    {
      CalmLeftovers(s, c);
    }
  }
}
