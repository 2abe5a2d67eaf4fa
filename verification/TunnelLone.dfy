/**
 * One connect is outstanding and none is started beside it: what every step keeps, before shutdown has been
 * handled and after, until the attempt's report is taken or given up.
 */
module TunnelLone {
  import opened Base
  import opened Tunnel
  import opened Handlers
  import opened WorkerSteps
  import opened TunnelSystem
  import opened TunnelInvariant
  import opened HandlerEffects
  import opened TakeSteps
  import opened EffectSteps
  import opened GoroutineSteps
  import opened TunnelTheorems
  import opened TunnelShutdown

  /** Effects that only reply, post, cancel or close. */
  predicate Light(todo: seq<Effect>) {
    forall e :: e in todo ==> e.Reply? || e.Post? || e.Cancel? || e.CloseDone?
  }

  /** Shutdown is posted before it is handled and before the context ends, and only then does the drain begin. */
  predicate Ordered(s: Sys) {
    && (s.mode != Running ==> s.ctxDone) && (s.ctxDone ==> s.shutPosted)
    && (s.shut ==> s.shutPosted) && (Shutdown in s.q ==> s.shutPosted)
  }

  ghost predicate Lone(s: Sys) {
    && Light(s.todo) && Ordered(s)
    && (forall c :: c in s.q ==> !c.ChildExit? && CmdOk(c)) && (forall t :: t in s.threads ==> ThreadOk(t))
    && KidsOk(s.kids) && Owned(s) == Open(s.kids) && Last(Trace(s)) == s.m.conn
    && |Tokens(s)| == 1 && Tokens(s)[0].ConnTok? && s.m.armed.None?
    && (if s.shut then Down(s.m) else s.mode == Running ==> FieldsOk(s.m) && TokensOk(s.m, Tokens(s)))
  }

  lemma LightSilent(todo: seq<Effect>)
    requires Light(todo)
    ensures NoSpawn(todo) && Gather(todo, FxTokens) == [] && Gather(todo, FxStacks) == []
  {
    GatherNone(todo, FxTokens);
    GatherNone(todo, FxStacks);
  }

  // ---------- the one holder ----------

  /** Threads and queue hold the token and the stack between them. */
  lemma LoneGathers(s: Sys)
    requires Lone(s)
    ensures Gather(s.todo, FxTokens) == [] && Gather(s.todo, FxStacks) == []
    ensures Tokens(s) == Gather(s.threads, ThreadTokens) + Gather(s.q, CmdTokens)
    ensures Owned(s) == Gather(s.threads, ThreadStacks) + Gather(s.q, CmdStacks)
  {
    hide Gather;
    LightSilent(s.todo);
  }

  /** A running worker accounts for every token and every stack. */
  lemma LoneThread(s: Sys, i: nat)
    requires Lone(s) && i < |s.threads| && !s.threads[i].Revert?
    ensures s.threads[i].Worker?
    ensures Gather(s.q, CmdTokens) == [] && Gather(s.q, CmdStacks) == []
    ensures (forall c :: c in s.q ==> !c.ConnectDone? && !c.DisconnectDone?)
    ensures Gather(Without(s.threads, i), ThreadTokens) == [] && Gather(Without(s.threads, i), ThreadStacks) == []
    ensures Gather(s.threads[..i], ThreadTokens) == [] && Gather(s.threads[i + 1..], ThreadTokens) == []
    ensures Gather(s.threads[..i], ThreadStacks) == [] && Gather(s.threads[i + 1..], ThreadStacks) == []
    ensures Owned(s) == ThreadStacks(s.threads[i]) && Tokens(s) == ThreadTokens(s.threads[i])
  {
    hide Gather;
    LoneGathers(s);
    GatherHas(s.threads, s.threads[i], ThreadTokens);
    GatherSolo(s.threads, i, ThreadTokens, ThreadStacks);
    StacksNeedTokens([], s.q);
    assert Tokens(s) == ThreadTokens(s.threads[i]);
  }

  lemma RestReverts(s: Sys, i: nat)
    requires Lone(s) && i < |s.threads| && s.threads[i].Worker?
    ensures forall t :: t in Without(s.threads, i) ==> t.Revert?
  {
    hide Gather;
    LoneThread(s, i);
    StacksNeedTokens(Without(s.threads, i), []);
  }

  /** A queued report accounts for every token and every stack: nothing runs, and the rest of the queue is plain. */
  lemma LoneReported(s: Sys, j: nat)
    requires Lone(s) && j < |s.q| && s.q[j].ConnectDone?
    ensures forall t :: t in s.threads ==> t.Revert?
    ensures Gather(s.threads, ThreadTokens) == [] && Gather(s.threads, ThreadStacks) == []
    ensures Gather(s.q[..j], CmdTokens) == [] && Gather(s.q[j + 1..], CmdTokens) == []
    ensures Gather(s.q[..j], CmdStacks) == [] && Gather(s.q[j + 1..], CmdStacks) == []
    ensures forall c :: c in s.q[..j] || c in s.q[j + 1..] ==> !c.ConnectDone? && !c.DisconnectDone?
    ensures Owned(s) == CmdStacks(s.q[j]) && Tokens(s) == CmdTokens(s.q[j])
  {
    hide Gather;
    LoneGathers(s);
    GatherHas(s.q, s.q[j], CmdTokens);
    GatherSolo(s.q, j, CmdTokens, CmdStacks);
    StacksNeedTokens(s.threads, s.q[..j]);
    StacksNeedTokens([], s.q[j + 1..]);
    assert Tokens(s) == CmdTokens(s.q[j]);
  }

  lemma LoneFacts(s: Sys)
    requires Lone(s)
    ensures Light(s.todo) && Ordered(s) && s.m.armed.None? && KidsOk(s.kids) && Owned(s) == Open(s.kids)
    ensures |Tokens(s)| == 1 && Tokens(s)[0].ConnTok? && Last(Trace(s)) == s.m.conn
    ensures (forall c :: c in s.q ==> !c.ChildExit? && CmdOk(c)) && (forall t :: t in s.threads ==> ThreadOk(t))
    ensures s.shut ==> Down(s.m)
    ensures !s.shut && s.mode == Running ==> FieldsOk(s.m) && TokensOk(s.m, Tokens(s))
  {
  }

  /** Another state with the same holders, the same posts and the same actor. */
  lemma LoneSame(s: Sys, s': Sys)
    requires Lone(s) && Light(s'.todo) && Ordered(s')
    requires (forall c :: c in s'.q ==> !c.ChildExit? && CmdOk(c)) && (forall t :: t in s'.threads ==> ThreadOk(t))
    requires KidsOk(s'.kids) && Owned(s') == Open(s'.kids) && Trace(s') == Trace(s) && Tokens(s') == Tokens(s)
    requires s'.shut == s.shut && s'.m.conn == s.m.conn && s'.m.armed == s.m.armed && (Down(s.m) ==> Down(s'.m))
    requires s'.mode == Running ==> s.mode == Running
    requires FieldsOk(s.m) ==> FieldsOk(s'.m) && s'.m.opGen == s.m.opGen
    ensures Lone(s')
  {
    hide Gather;
    hide Trace;
    hide Owned;
    hide Tokens;
    hide Light;
    hide Ordered;
    hide FieldsOk;
    hide Down;
  }

  // ---------- the queue grows ----------

  /** A command without token or stack enters the queue. */
  lemma LoneEnqueue(s: Sys, c: Cmd, s': Sys)
    requires Lone(s) && !c.ChildExit? && !c.ConnectDone? && !c.DisconnectDone?
    requires s' == s.(q := s.q + [c], nextCh := s'.nextCh, shutPosted := s'.shutPosted, passed := s'.passed)
    requires (c.Shutdown? || s.shutPosted) ==> s'.shutPosted
    ensures Lone(s')
  {
    hide Gather;
    QueueAppend(s.q, c);
    assert Tokens(s') == Tokens(s) && Owned(s') == Owned(s) && Trace(s') == Trace(s);
    LoneSame(s, s');
  }

  // ---------- steps of the worker ----------

  /** The worker's thread is replaced; stacks, children and log move with it. */
  lemma LoneUpdate(s: Sys, s': Sys, i: nat, t: Thread)
    requires Lone(s) && i < |s.threads| && s.threads[i].Worker? && t.Worker?
    requires s' == s.(threads := s.threads[i := t], kids := s'.kids, log := s'.log)
    requires ThreadTokens(t) == ThreadTokens(s.threads[i]) && ThreadOk(t)
    requires Gather(s'.log, EventPosts) == Gather(s.log, EventPosts)
    requires KidsOk(s'.kids) && ThreadStacks(t) == Open(s'.kids)
    ensures Lone(s')
  {
    hide Gather;
    LoneThread(s, i);
    LoneGathers(s);
    GatherUpdate(s.threads, i, t, ThreadTokens);
    GatherUpdate(s.threads, i, t, ThreadStacks);
    GatherSplit(s.threads, i, ThreadTokens);
    assert Tokens(s') == Tokens(s) && Owned(s') == ThreadStacks(t) && Trace(s') == Trace(s);
    forall u | u in s'.threads ensures ThreadOk(u) {
      assert u == t || u in s.threads;
    }
    LoneSame(s, s');
  }

  /** The worker ends without its report getting anywhere: nothing is held any more, nor is its child. */
  lemma LoneGone(s: Sys, i: nat)
    requires Lone(s) && i < |s.threads| && s.threads[i].Worker?
    ensures var s' := s.(threads := Without(s.threads, i));
      Calm(s', true) && (ThreadStacks(s.threads[i]) == [] ==> Calm(s', false))
  {
    hide Gather;
    var s' := s.(threads := Without(s.threads, i));
    LoneThread(s, i);
    LoneGathers(s);
    RestReverts(s, i);
    LightSilent(s.todo);
    assert Owned(s') == [] && Trace(s') == Trace(s);
  }

  lemma StepKeepsToken(t: Thread, o: Outcome, n: ChildId)
    requires t.Worker? && ThreadOk(t) && !t.pc.Deliver?
    ensures var t' := t.(pc := WorkerNext(t.id, t.pc, o, n));
      && ThreadTokens(t') == ThreadTokens(t) && ThreadOk(t')
      && (!t.pc.Unwind? && !(t.pc.Fork? && o.Pass?) ==> ThreadStacks(t') == ThreadStacks(t))
      && (t.pc.Unwind? ==> ThreadStacks(t) == [t.pc.child] && ThreadStacks(t') == [])
      && (t.pc.Fork? && o.Pass? ==> ThreadStacks(t) == [] && ThreadStacks(t') == [n])
  {
  }

  lemma LoneHolder(s: Sys, i: nat)
    requires Lone(s) && i < |s.threads| && s.threads[i].Worker?
    ensures ThreadOk(s.threads[i]) && ThreadStacks(s.threads[i]) == Open(s.kids) && KidsOk(s.kids)
  {
    hide Gather;
    LoneThread(s, i);
    assert s.threads[i] in s.threads;
  }

  /** What a worker's step does to it, its child and the log, whether or not it goes on afterwards. */
  function Afterwards(s: Sys, i: nat, o: Outcome, dead: bool): Sys
    requires Enabled(s, WorkerStep(i, o, dead))
  {
    var t := s.threads[i];
    var s1 := s.(threads := s.threads[i := t.(pc := WorkerNext(t.id, t.pc, o, |s.kids|))]);
    if t.pc.Fork? && o.Pass? then s1.(kids := s.kids + [Kid(true, 0)], log := s.log + [Spawned(|s.kids|)])
    else if t.pc.Unwind? then StopReturns(s1, t.pc.child, dead)
    else s1
  }

  lemma LoneForks(s: Sys, i: nat, dead: bool)
    requires Lone(s) && Enabled(s, WorkerStep(i, Pass, dead)) && s.threads[i].pc.Fork?
    ensures Lone(Afterwards(s, i, Pass, dead))
  {
    hide Gather;
    hide Lone;
    LoneHolder(s, i);
    LogAppend(s.log, Spawned(|s.kids|));
    SpawnKids(s.kids);
    LoneUpdate(s, Afterwards(s, i, Pass, dead), i, s.threads[i].(pc := AwaitAlive(|s.kids|)));
  }

  lemma LoneUnwinds(s: Sys, i: nat, o: Outcome, dead: bool)
    requires Lone(s) && Enabled(s, WorkerStep(i, o, dead)) && s.threads[i].pc.Unwind?
    ensures Lone(Afterwards(s, i, o, dead))
  {
    hide Gather;
    hide Lone;
    var t := s.threads[i];
    var c := t.pc.child;
    LoneHolder(s, i);
    LogAppend(s.log, Stopped(c));
    StopOpen(s.kids, c, s.kids[c].alive && !dead);
    LoneUpdate(s, Afterwards(s, i, o, dead), i, t.(pc := Failed(t.id, Some(c), t.pc.failure)));
  }

  lemma LoneAfterwards(s: Sys, i: nat, o: Outcome, dead: bool)
    requires Lone(s) && Enabled(s, WorkerStep(i, o, dead))
    ensures Lone(Afterwards(s, i, o, dead))
  {
    hide Gather;
    hide Lone;
    var t := s.threads[i];
    if t.pc.Fork? && o.Pass? {
      LoneForks(s, i, dead);
    } else if t.pc.Unwind? {
      LoneUnwinds(s, i, o, dead);
    } else {
      var t' := t.(pc := WorkerNext(t.id, t.pc, o, |s.kids|));
      LoneHolder(s, i);
      StepKeepsToken(t, o, |s.kids|);
      hide WorkerNext;
      hide Allowed;
      hide ThreadStacks;
      hide ThreadTokens;
      LoneUpdate(s, s.(threads := s.threads[i := t']), i, t');
    }
  }

  /** The worker goes on, or it ends at a post it can only give up; then a success is lost with its child. */
  lemma LoneWorker(s: Sys, i: nat, o: Outcome, dead: bool)
    requires Lone(s) && Enabled(s, WorkerStep(i, o, dead))
    ensures var s', t := WorkerMoves(s, i, o, dead), Afterwards(s, i, o, dead).threads[i];
      if s.ctxDone && AtPost(t) then Calm(s', true) && (ThreadStacks(t) == [] ==> Calm(s', false)) else Lone(s')
  {
    hide Gather;
    hide Lone;
    hide Calm;
    LoneAfterwards(s, i, o, dead);
    var s1 := Afterwards(s, i, o, dead);
    var t, note := s.threads[i], ConnectProgress(s.threads[i].gen, Connecting);
    hide ThreadStacks;
    if s.ctxDone && AtPost(s1.threads[i]) {
      LoneGone(s1, i);
      assert Without(s1.threads, i) == Without(s.threads, i);
      assert WorkerMoves(s, i, o, dead) == s1.(threads := Without(s1.threads, i));
    } else if t.pc.Announce? && o.Pass? {
      LoneEnqueue(s1, note, s1.(q := s.q + [note]));
    }
  }

  // ---------- goroutines report ----------

  /** The worker reports: its token and its stack move into the queue. */
  lemma LoneReport(s: Sys, i: nat)
    requires Lone(s) && Enabled(s, PostBack(i, false)) && s.threads[i].Worker?
    ensures Lone(Next(s, PostBack(i, false)))
  {
    hide Gather;
    var t, s' := s.threads[i], Next(s, PostBack(i, false));
    var c := PostBackCmd(t).value;
    LoneHolder(s, i);
    LoneThread(s, i);
    LoneGathers(s);
    QueueAppend(s.q, c);
    assert CmdTokens(c) == ThreadTokens(t) && CmdStacks(c) == ThreadStacks(t);
    assert Tokens(s') == Tokens(s) && Owned(s') == Owned(s) && Trace(s') == Trace(s);
    assert forall u :: u in s'.threads ==> u in s.threads;
    LoneSame(s, s');
  }

  lemma LoneRevert(s: Sys, i: nat, drop: bool)
    requires Lone(s) && Enabled(s, PostBack(i, drop)) && s.threads[i].Revert?
    ensures Lone(Next(s, PostBack(i, drop)))
  {
    hide Gather;
    var s' := s.(threads := Without(s.threads, i));
    WithoutSame(s, i);
    assert Tokens(s') == Tokens(s) && Owned(s') == Owned(s) && Trace(s') == Trace(s);
    LoneSame(s, s');
    if !drop {
      LoneEnqueue(s', AutoRevert, Next(s, PostBack(i, false)));
    }
  }

  // ---------- steps of the actor ----------

  lemma HeadTokenSeen(q: seq<Cmd>)
    requires q != [] && q[0].DisconnectDone?
    ensures TearTok(q[0].gen) in Gather(q, CmdTokens)
  {
    GatherHead(q, CmdTokens);
  }

  /** The token belongs to a connect, so a teardown's report is not in the queue. */
  lemma PlainTokens(s: Sys)
    requires Lone(s) && s.q != [] && !s.q[0].ConnectDone?
    ensures Gather(s.q, CmdTokens) == Gather(s.q[1..], CmdTokens)
    ensures Gather(s.q, CmdStacks) == Gather(s.q[1..], CmdStacks)
    ensures !s.q[0].DisconnectDone?
  {
    hide Gather;
    LoneGathers(s);
    GatherHead(s.q, CmdTokens);
    GatherHead(s.q, CmdStacks);
    if s.q[0].DisconnectDone? {
      HeadTokenSeen(s.q);
    }
  }

  /** A command other than the outstanding report leaves the queue. */
  lemma LonePlain(s: Sys, o: Out, s': Sys)
    requires Lone(s) && Idle(s) && s.q != [] && !s.q[0].ConnectDone?
    requires s' == s.(m := o.m, todo := o.fx, q := s.q[1..], shut := s.shut || s.q[0].Shutdown?)
    requires HandsOn(s.m, o) && Light(o.fx) && o.m.armed.None?
    requires if s'.shut then Down(o.m) else s.mode == Running ==> FieldsOk(o.m) && TokensOk(o.m, Tokens(s))
    ensures Lone(s')
  {
    hide Gather;
    PlainTokens(s);
    LoneGathers(s);
    LightSilent(o.fx);
    GatherNil(FxPosts);
    CalmTrace(Gather(s.log, EventPosts), Gather(o.fx, FxPosts), s.m.conn, o.m.conn);
    assert Tokens(s') == Tokens(s) && Owned(s') == Owned(s);
  }

  /** The outstanding report leaves the queue, and with it the last trace of the attempt. */
  lemma LoneLeaves(s: Sys, o: Out, s': Sys)
    requires Lone(s) && Idle(s) && s.q != [] && s.q[0].ConnectDone?
    requires s' == s.(m := o.m, todo := o.fx, q := s.q[1..]) && NoSpawn(o.fx)
    requires Last([s.m.conn] + Gather(o.fx, FxPosts)) == o.m.conn && (s.shut ==> Down(o.m))
    ensures Gather(o.fx, FxStacks) + OptionSeq(o.m.armed) == CmdStacks(s.q[0]) ==> Calm(s', false)
    ensures Gather(o.fx, FxStacks) + OptionSeq(o.m.armed) == [] ==> Calm(s', true)
  {
    hide Gather;
    LoneReported(s, 0);
    GatherNil(FxPosts);
    CalmTrace(Gather(s.log, EventPosts), Gather(o.fx, FxPosts), s.m.conn, o.m.conn);
    assert Owned(s') == Gather(o.fx, FxStacks) + OptionSeq(o.m.armed);
    assert Owned(s) == Open(s.kids);
  }

  /** Commands that neither report nor shut down. */
  predicate Plainly(c: Cmd) {
    !c.ConnectDone? && !c.DisconnectDone? && !c.ChildExit? && !c.Shutdown?
  }

  /** The command gives the running attempt up. */
  predicate GivesUp(c: Cmd) {
    c.Disconnect? || (c.Switch? && c.id != ZERO_ULID)
  }

  /** The posted state is on an attempt, or on its way down. */
  predicate UnderWay(m: Actor) {
    && m.conn.configId.Some?
    && (m.conn.state == Validating || m.conn.state == Connecting || m.conn.state == Disconnecting)
  }

  /** Under way, taking a plain command starts nothing; only Disconnect and Switch give the attempt up. */
  lemma PlainStays(m: Actor, c: Cmd)
    requires FieldsOk(m) && UnderWay(m) && Plainly(c)
    ensures var o := TakeCommand(m, c);
      && Light(o.fx) && o.m.armed.None? && FieldsOk(o.m) && UnderWay(o.m)
      && if m.conn.state == Disconnecting then o.m.conn == m.conn && o.m.opGen == m.opGen
         else if GivesUp(c) then o.m.conn.state == Disconnecting && o.m.opGen == m.opGen + 1
         else o.m.conn.state != Disconnecting && o.m.conn.configId == m.conn.configId && o.m.opGen == m.opGen
  {
    if c.Switch? && m.conn.state != Disconnecting && c.id != ZERO_ULID {
      DisconnectLight(m, None);
    } else if c.Disconnect? {
      DisconnectLight(m, Some(c.ch));
    }
  }

  lemma DisconnectLight(m: Actor, to: Option<ChanId>)
    requires FieldsOk(m) && m.armed.None?
    ensures Light(HandleDisconnect(m, to).fx)
  {
  }

  /** So the outstanding connect stays the one that the posted state speaks of, or becomes a stale one. */
  lemma PlainTaken(m: Actor, c: Cmd, toks: seq<Token>)
    requires FieldsOk(m) && TokensOk(m, toks) && |toks| == 1 && toks[0].ConnTok? && Plainly(c)
    ensures var o := TakeCommand(m, c);
      && Light(o.fx) && o.m.armed.None? && FieldsOk(o.m) && TokensOk(o.m, toks)
      && (GivesUp(c) ==> toks[0].gen != o.m.opGen) && (!GivesUp(c) ==> o.m.opGen == m.opGen)
  {
    PlainStays(m, c);
  }

  lemma LoneTakePlain(s: Sys)
    requires Lone(s) && !s.shut && Enabled(s, Take) && !s.q[0].ConnectDone? && !s.q[0].Shutdown?
    ensures Lone(Next(s, Take))
  {
    hide Gather;
    LoneFacts(s);
    var c, o := s.q[0], TakeCommand(s.m, s.q[0]);
    assert c in s.q;
    PlainTokens(s);
    PlainTaken(s.m, c, Tokens(s));
    LightSilent(o.fx);
    hide Lone;
    hide FieldsOk;
    hide TokensOk;
    TakeHandsOn(s.m, c);
    LonePlain(s, o, Next(s, Take));
  }

  /** Shutdown with nothing armed. */
  lemma ShutdownPlain(m: Actor, o: Out)
    requires m.armed.None? && (o == HandleShutdown(m) || o == TakeCommand(m, Shutdown))
    ensures HandsOn(m, o) && Down(o.m) && o.m.opGen == m.opGen && Light(o.fx)
  {
    hide Gather;
    ShutdownHandsOn(m);
    ShutdownHandsOn(CancelTimer(m));
  }

  lemma LoneShuts(s: Sys, l: Label)
    requires Lone(s) && Enabled(s, l) && (l == Take || l == DrainOne) && s.q[0].Shutdown?
    ensures Lone(Next(s, l)) && Next(s, l).m.opGen == s.m.opGen
  {
    hide Gather;
    var o := if l == Take then TakeCommand(s.m, Shutdown) else HandleShutdown(s.m);
    LoneFacts(s);
    hide Lone;
    ShutdownPlain(s.m, o);
    LonePlain(s, o, Next(s, l));
  }

  lemma DrainLight(m: Actor, c: Cmd)
    requires !c.Shutdown?
    ensures DrainCommand(m, c).m == m && Light(DrainCommand(m, c).fx)
  {
  }

  lemma LoneDrainPlain(s: Sys)
    requires Lone(s) && Enabled(s, DrainOne) && !s.q[0].ConnectDone? && !s.q[0].Shutdown?
    ensures Lone(Next(s, DrainOne))
  {
    hide Gather;
    LoneFacts(s);
    hide Lone;
    DrainHandsOn(s.m, s.q[0]);
    DrainLight(s.m, s.q[0]);
    LonePlain(s, DrainCommand(s.m, s.q[0]), Next(s, DrainOne));
  }

  /** A drained report is gone; a success takes its child with it. */
  lemma LoneDrainReport(s: Sys)
    requires Lone(s) && Enabled(s, DrainOne) && s.q[0].ConnectDone?
    ensures Calm(Next(s, DrainOne), true) && (CmdStacks(s.q[0]) == [] ==> Calm(Next(s, DrainOne), false))
  {
    hide Gather;
    LoneFacts(s);
    hide Lone;
    GatherNil(FxPosts);
    GatherNil(FxStacks);
    LoneLeaves(s, DrainCommand(s.m, s.q[0]), Next(s, DrainOne));
  }

  /** Before shutdown a report hands its stack on to whoever it makes responsible, and posts what it decides. */
  lemma ReportTaken(m: Actor, c: Cmd)
    requires c.ConnectDone? && CmdOk(c) && FieldsOk(m) && TokensOk(m, CmdTokens(c))
    requires NoSpawn(TakeCommand(m, c).fx)
    ensures var o := TakeCommand(m, c);
      && Gather(o.fx, FxStacks) + OptionSeq(o.m.armed) == CmdStacks(c)
      && Last([m.conn] + Gather(o.fx, FxPosts)) == o.m.conn
  {
    hide Gather;
    var o := TakeCommand(m, c);
    if c.gen != m.opGen {
      if m.pendingSwitch != ZERO_ULID {
        StaleSpawns(m, c);
      }
      TeardownSum(m, c.result.cleanup);
    } else {
      SumSingle(Post(o.m.conn));
      assert o.fx == [Post(o.m.conn)];
    }
  }

  lemma StaleSpawns(m: Actor, c: Cmd)
    requires c.ConnectDone? && CmdOk(c) && c.gen != m.opGen
    requires m.conn.state == Disconnecting && m.pendingSwitch != ZERO_ULID
    ensures !NoSpawn(TakeCommand(m, c).fx)
  {
    var fx := TakeCommand(m, c).fx;
    assert fx[|fx| - 1].Spawn?;
  }

  lemma LoneTakeReport(s: Sys)
    requires Lone(s) && !s.shut && Enabled(s, Take) && s.q[0].ConnectDone? && NoSpawn(Next(s, Take).todo)
    ensures Calm(Next(s, Take), false)
  {
    hide Gather;
    LoneFacts(s);
    LoneReported(s, 0);
    hide Lone;
    ReportTaken(s.m, s.q[0]);
    LoneLeaves(s, TakeCommand(s.m, s.q[0]), Next(s, Take));
  }

  lemma LoneExit(s: Sys)
    requires Lone(s) && Enabled(s, TakeExit)
    ensures Lone(Next(s, TakeExit)) && Next(s, TakeExit).m.opGen == s.m.opGen && !s.shut
  {
    hide Gather;
    var s' := Next(s, TakeExit);
    assert s.m.conn.state == Disconnecting && !s.shut;
    assert s' == s.(m := s'.m) && s'.m.conn == s.m.conn && s'.m.opGen == s.m.opGen && s'.m.armed == s.m.armed;
    assert Tokens(s') == Tokens(s) && Owned(s') == Owned(s) && Trace(s') == Trace(s);
    LoneSame(s, s');
  }

  // ---------- pending effects ----------

  lemma CancelThreads(s: Sys, gen: nat)
    requires forall t :: t in s.threads ==> ThreadOk(t)
    ensures forall t :: t in CancelWorkers(s.threads, gen) ==> ThreadOk(t)
  {
    var us := CancelWorkers(s.threads, gen);
    forall t | t in us ensures ThreadOk(t) {
      var i :| 0 <= i < |us| && us[i] == t;
      assert s.threads[i] in s.threads && t == CancelWorker(s.threads[i], gen);
    }
  }

  lemma LoneExec(s: Sys, dead: bool)
    requires Lone(s) && Enabled(s, Exec(dead))
    ensures Lone(ExecOne(s, dead))
  {
    hide Gather;
    var e, s' := s.todo[0], ExecOne(s, dead);
    assert e in s.todo;
    if e.Cancel? {
      ExecCancelView(s, dead);
      CancelThreads(s, e.gen);
    } else {
      ExecQuietView(s, dead);
    }
    var v := ViewOf(s');
    assert v.owned == Owned(s) && v.tokens == Tokens(s) && v.trace == Trace(s);
    LoneSame(s, s');
  }

  // ---------- everything else ----------

  /** The context ends, the drain begins or ends, a Switch call looks at the context or turns back. */
  lemma LoneFlags(s: Sys, l: Label)
    requires Lone(s) && Enabled(s, l)
    requires l.CancelCtx? || l.BeginDrain? || l.Finish? || l.Look? || l.TurnBack?
    ensures Lone(Next(s, l))
  {
    hide Gather;
    var s' := Next(s, l);
    assert Tokens(s') == Tokens(s) && Owned(s') == Owned(s) && Trace(s') == Trace(s);
    LoneSame(s, s');
  }

  lemma LoneDeath(s: Sys, c: ChildId)
    requires Lone(s) && Enabled(s, ChildDies(c))
    ensures Lone(Next(s, ChildDies(c)))
  {
    hide Gather;
    var s' := Next(s, ChildDies(c));
    AliveIsSilent(s.kids, c, false);
    assert Tokens(s') == Tokens(s) && Owned(s') == Owned(s) && Trace(s') == Trace(s);
    LoneSame(s, s');
  }

  lemma LoneTimer(s: Sys)
    requires Lone(s) && Enabled(s, TimerFires)
    ensures Lone(Next(s, TimerFires))
  {
    hide Gather;
    var s' := Next(s, TimerFires);
    ThreadAppend(s.threads, Revert);
    assert Tokens(s') == Tokens(s) && Owned(s') == Owned(s) && Trace(s') == Trace(s);
    assert FieldsOk(s.m) ==> FieldsOk(s'.m);
    LoneSame(s, s');
  }

  lemma NoTeardown(s: Sys, l: Label)
    requires Lone(s) && Enabled(s, l)
    ensures !l.TeardownStop?
  {
    hide Lone;
    if l.TeardownStop? {
      LoneThread(s, l.i);
    }
  }
}
