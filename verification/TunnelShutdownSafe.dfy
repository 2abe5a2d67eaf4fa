/** Shutdown with a connect outstanding that can do no more harm: every continuation still cleans up. */
module TunnelShutdownSafe {
  import opened Base
  import opened Tunnel
  import opened Handlers
  import opened WorkerSteps
  import opened TunnelSystem
  import opened TunnelInvariant
  import opened HandlerEffects
  import opened TunnelTheorems
  import opened TunnelShutdown
  import opened TunnelLone

  // ---------- which outstanding connects are harmless ----------

  /** Taken by the event loop once shutdown was handled, this request would start a connect. */
  predicate Opens(c: Cmd) {
    c.Connect? || c.Switch?
  }

  /**
   * The event loop can get through `q` without giving the running attempt up before shutdown and without
   * starting another one after it; `down` says that shutdown has been handled already.
   */
  predicate Through(down: bool, q: seq<Cmd>)
    decreases q
  {
    || q == []
    || (!(if down then Opens(q[0]) else GivesUp(q[0])) && Through(down || q[0].Shutdown?, q[1..]))
  }

  /** A current failure behind the first `n` commands cannot be posted after shutdown: the loop does not get there. */
  predicate Hush(s: Sys, n: nat)
    requires n <= |s.q|
  {
    s.mode != Running || !Through(s.shut, s.q[..n])
  }

  /** A report of failure `f` that posts nothing but Disconnected: stale, a cancellation, or kept from being posted. */
  predicate Mute(opGen: nat, gen: nat, f: Failure, hush: bool) {
    gen != opGen || f == Canceled || hush
  }

  /**
   * The worker can neither report a success any more nor a failure that would be posted. Once the context is
   * done, only what was about to be posted, or stands behind the last look, still counts.
   */
  predicate Harmless(opGen: nat, ctxDone: bool, hush: bool, t: Thread)
    requires t.Worker?
  {
    match t.pc
    case Handshake(_) => false
    case Unwind(_, f) => ctxDone || Mute(opGen, t.gen, f, hush)
    case Deliver(r) => r.err.Some? && Mute(opGen, t.gen, r.err.value, hush)
    case _ => ctxDone || (t.cancelled && t.gen != opGen)
  }

  /** Shutdown's caller waits for a place in the queue that only the taking of its head can make. */
  predicate Cornered(s: Sys) {
    !s.shutPosted && !HasRoom(s)
  }

  /**
   * The queued report does no harm: a failure that is mute, or is out of the queue before shutdown is handled;
   * a success only if Shutdown cannot even be queued before it is taken.
   */
  predicate HarmlessReport(s: Sys, j: nat)
    requires j < |s.q| && s.q[j].ConnectDone?
  {
    var c := s.q[j];
    if c.result.err.None? then j == 0 && Cornered(s)
    else Mute(s.m.opGen, c.gen, c.result.err.value, Hush(s, j) || (!s.shut && Shutdown !in s.q[..j]))
  }

  /** The outstanding attempt, if there is one, can do no more harm. */
  ghost predicate Tame(s: Sys) {
    && (forall t :: t in s.threads && t.Worker? ==> Harmless(s.m.opGen, s.ctxDone, Hush(s, |s.q|), t))
    && (forall j :: 0 <= j < |s.q| && s.q[j].ConnectDone? ==> HarmlessReport(s, j))
  }

  ghost predicate Lame(s: Sys) {
    Lone(s) && Tame(s)
  }

  // ---------- the queue's shape ----------

  lemma {:induction false} ThroughInit(down: bool, q: seq<Cmd>, c: Cmd)
    requires Through(down, q + [c])
    ensures Through(down, q)
    decreases q
  {
    if q == [] {
    } else {
      assert (q + [c])[1..] == q[1..] + [c];
      ThroughInit(down || q[0].Shutdown?, q[1..], c);
    }
  }

  /** What the loop gets through with the head still there, it gets through when it has taken the head. */
  lemma ThroughTail(down: bool, q: seq<Cmd>, n: nat)
    requires 0 < n <= |q| && !(if down then Opens(q[0]) else GivesUp(q[0]))
    ensures Through(down, q[..n]) <==> Through(down || q[0].Shutdown?, q[1..][..n - 1])
  {
    assert q[1..][..n - 1] == q[..n][1..];
  }

  /** A command enters the queue; a report must be harmless there. */
  lemma TameAppend(s: Sys, s': Sys, c: Cmd)
    requires Tame(s) && HasRoom(s) && s'.q == s.q + [c]
    requires s'.mode == s.mode && s'.shut == s.shut && s'.ctxDone == s.ctxDone && s'.m.opGen == s.m.opGen
    requires c.ConnectDone? ==> c.result.err.Some? && Mute(s.m.opGen, c.gen, c.result.err.value, Hush(s, |s.q|))
    requires forall t :: t in s'.threads && t.Worker? ==> Harmless(s.m.opGen, s.ctxDone, Hush(s, |s.q|), t)
    ensures Tame(s')
  {
    var n := |s.q|;
    assert s.q[..n] == s.q && s'.q[..n + 1] == s'.q && s'.q[..n] == s.q;
    if Through(s.shut, s'.q) {
      ThroughInit(s.shut, s.q, c);
    }
    assert Hush(s, n) ==> Hush(s', n + 1);
    forall j | 0 <= j < |s'.q| && s'.q[j].ConnectDone? ensures HarmlessReport(s', j) {
      if j < n {
        assert s'.q[j] == s.q[j] && s'.q[..j] == s.q[..j];
      }
    }
    forall t | t in s'.threads && t.Worker? ensures Harmless(s'.m.opGen, s'.ctxDone, Hush(s', n + 1), t) {
      assert Harmless(s.m.opGen, s.ctxDone, Hush(s, n), t);
    }
  }

  /** The head leaves the queue without touching the attempt. */
  lemma TameTail(s: Sys, s': Sys)
    requires Tame(s) && s.q != [] && !s.q[0].ConnectDone? && s'.q == s.q[1..]
    requires s'.mode == s.mode && s'.ctxDone == s.ctxDone && s'.m.opGen == s.m.opGen && s'.threads == s.threads
    requires s'.shut == (s.shut || s.q[0].Shutdown?)
    requires s.mode == Running ==> !(if s.shut then Opens(s.q[0]) else GivesUp(s.q[0]))
    ensures Tame(s')
  {
    var n := |s.q|;
    assert s.q[..n] == s.q && s'.q[..n - 1] == s'.q;
    forall j | 0 < j <= n ensures Hush(s', j - 1) <==> Hush(s, j) {
      if s.mode == Running {
        ThroughTail(s.shut, s.q, j);
      }
    }
    forall j | 0 <= j < |s'.q| && s'.q[j].ConnectDone? ensures HarmlessReport(s', j) {
      assert s'.q[j] == s.q[j + 1] && HarmlessReport(s, j + 1);
      assert Hush(s', j) <==> Hush(s, j + 1);
      assert s.q[..j + 1] == [s.q[0]] + s'.q[..j];
    }
    assert Hush(s', n - 1) <==> Hush(s, n);
  }

  /** The head gives the attempt up: whatever it still reports is stale. */
  lemma TameStale(s: Sys, s': Sys)
    requires Tame(s) && s.q != [] && !s.q[0].ConnectDone? && s'.q == s.q[1..]
    requires s'.ctxDone == s.ctxDone && s'.threads == s.threads
    requires forall t :: t in s.threads && t.Worker? ==> t.gen != s'.m.opGen
    requires forall c :: c in s.q && c.ConnectDone? ==> c.gen != s'.m.opGen
    ensures Tame(s')
  {
    forall j | 0 <= j < |s'.q| && s'.q[j].ConnectDone? ensures HarmlessReport(s', j) {
      assert s'.q[j] == s.q[j + 1] && HarmlessReport(s, j + 1);
    }
  }

  /** Nothing that Tame looks at has changed for the worse. */
  lemma TameSame(s: Sys, s': Sys)
    requires Tame(s) && s'.threads == s.threads && s'.q == s.q && s'.m.opGen == s.m.opGen && s'.shut == s.shut
    requires s'.mode == s.mode || s'.mode != Running
    requires (s.ctxDone ==> s'.ctxDone) && (Cornered(s) ==> Cornered(s'))
    ensures Tame(s')
  {
    forall t | t in s'.threads && t.Worker? ensures Harmless(s'.m.opGen, s'.ctxDone, Hush(s', |s'.q|), t) {
      assert Harmless(s.m.opGen, s.ctxDone, Hush(s, |s.q|), t);
    }
    forall j | 0 <= j < |s'.q| && s'.q[j].ConnectDone? ensures HarmlessReport(s', j) {
      assert HarmlessReport(s, j);
    }
  }

  lemma TameThreads(s: Sys, s': Sys)
    requires Tame(s) && s'.q == s.q && s'.m.opGen == s.m.opGen && s'.shut == s.shut && s'.mode == s.mode
    requires s'.ctxDone == s.ctxDone && s'.shutPosted == s.shutPosted
    requires forall t :: t in s'.threads && t.Worker? ==> Harmless(s.m.opGen, s.ctxDone, Hush(s, |s.q|), t)
    ensures Tame(s')
  {
    forall j | 0 <= j < |s'.q| && s'.q[j].ConnectDone? ensures HarmlessReport(s', j) {
      assert HarmlessReport(s, j);
    }
  }

  // ---------- the attempt's generation ----------

  /** Whoever runs or reports does so for the one outstanding attempt. */
  lemma LoneGens(s: Sys)
    requires Lone(s)
    ensures forall t :: t in s.threads && t.Worker? ==> t.gen == Tokens(s)[0].gen
    ensures forall c :: c in s.q && c.ConnectDone? ==> c.gen == Tokens(s)[0].gen
  {
    hide Gather;
    LoneFacts(s);
    hide Lone;
    forall t | t in s.threads && t.Worker? ensures t.gen == Tokens(s)[0].gen {
      ThreadTokenSeen(s, t);
    }
    forall c | c in s.q && c.ConnectDone? ensures c.gen == Tokens(s)[0].gen {
      QueueTokenSeen(s, c);
    }
  }

  // ---------- steps of the worker ----------

  /** A harmless worker stays harmless: its next look at the context, or its failure, is all that is left. */
  lemma HarmlessMoves(opGen: nat, ctxDone: bool, hush: bool, t: Thread, o: Outcome, n: ChildId)
    requires t.Worker? && !t.pc.Deliver? && Allowed(t.pc, o, t.cancelled || ctxDone)
    requires Harmless(opGen, ctxDone, hush, t)
    ensures var t' := t.(pc := WorkerNext(t.id, t.pc, o, n));
      if ctxDone && AtPost(t') then ThreadStacks(t') == [] else Harmless(opGen, ctxDone, hush, t')
  {
  }

  /** The worker's step as far as Tame is concerned: it goes on from `t'`, and may have queued its announcement. */
  lemma TameWorker(s: Sys, i: nat, o: Outcome, dead: bool, t': Thread)
    requires Tame(s) && Enabled(s, WorkerStep(i, o, dead)) && t'.Worker?
    requires t' == s.threads[i].(pc := WorkerNext(s.threads[i].id, s.threads[i].pc, o, |s.kids|))
    requires !(s.ctxDone && AtPost(t')) && Harmless(s.m.opGen, s.ctxDone, Hush(s, |s.q|), t')
    ensures Tame(WorkerMoves(s, i, o, dead))
  {
    var t, s' := s.threads[i], WorkerMoves(s, i, o, dead);
    hide WorkerNext;
    hide Allowed;
    assert s'.threads == s.threads[i := t'];
    forall u | u in s'.threads && u.Worker? ensures Harmless(s.m.opGen, s.ctxDone, Hush(s, |s.q|), u) {
      assert u == t' || u in s.threads;
    }
    hide Harmless;
    if t.pc.Announce? && o.Pass? {
      TameAppend(s, s', ConnectProgress(t.gen, Connecting));
    } else {
      TameThreads(s, s');
    }
  }

  lemma LameWorker(s: Sys, i: nat, o: Outcome, dead: bool)
    requires Lame(s) && Enabled(s, WorkerStep(i, o, dead))
    ensures Lame(WorkerMoves(s, i, o, dead)) || Calm(WorkerMoves(s, i, o, dead), false)
  {
    hide Gather;
    hide Lone;
    hide Calm;
    var t := s.threads[i];
    var t' := t.(pc := WorkerNext(t.id, t.pc, o, |s.kids|));
    LoneWorker(s, i, o, dead);
    assert Harmless(s.m.opGen, s.ctxDone, Hush(s, |s.q|), t);
    hide Tame;
    HarmlessMoves(s.m.opGen, s.ctxDone, Hush(s, |s.q|), t, o, |s.kids|);
    if !(s.ctxDone && AtPost(t')) {
      TameWorker(s, i, o, dead, t');
    }
  }

  // ---------- the queue grows ----------

  lemma LameEnqueue(s: Sys, c: Cmd, s': Sys)
    requires Lame(s) && HasRoom(s) && !c.ChildExit? && !c.ConnectDone? && !c.DisconnectDone?
    requires s' == s.(q := s.q + [c], nextCh := s'.nextCh, shutPosted := s'.shutPosted, passed := s'.passed)
    requires (c.Shutdown? || s.shutPosted) ==> s'.shutPosted
    ensures Lame(s')
  {
    hide Gather;
    hide Lone;
    TameAppend(s, s', c);
    LoneEnqueue(s, c, s');
  }

  lemma LamePost(s: Sys, i: nat, drop: bool)
    requires Lame(s) && Enabled(s, PostBack(i, drop))
    ensures Lame(Next(s, PostBack(i, drop))) || Calm(Next(s, PostBack(i, drop)), false)
  {
    hide Gather;
    hide Lone;
    hide Calm;
    var t, s' := s.threads[i], Next(s, PostBack(i, drop));
    assert t in s.threads;
    assert forall u :: u in s'.threads ==> u in s.threads;
    if t.Revert? {
      LoneRevert(s, i, drop);
      if drop {
        TameThreads(s, s');
      } else {
        TameAppend(s, s', AutoRevert);
      }
    } else {
      LoneThread(s, i);
      LoneHolder(s, i);
      if drop {
        LoneGone(s, i);
      } else {
        LoneReport(s, i);
        TameAppend(s, s', PostBackCmd(t).value);
      }
    }
  }

  // ---------- steps of the actor ----------

  /** Before shutdown. */
  lemma LameTake(s: Sys)
    requires Lame(s) && !s.shut && Enabled(s, Take) && NoSpawn(Next(s, Take).todo)
    ensures Lame(Next(s, Take)) || Calm(Next(s, Take), false)
  {
    hide Gather;
    hide Lone;
    hide Calm;
    var c, s' := s.q[0], Next(s, Take);
    if c.ConnectDone? {
      LoneTakeReport(s);
    } else if c.Shutdown? {
      LoneShuts(s, Take);
      TameTail(s, s');
    } else {
      LoneTakePlain(s);
      LoneFacts(s);
      assert c in s.q;
      PlainTokens(s);
      PlainTaken(s.m, c, Tokens(s));
      LoneGens(s);
      hide FieldsOk;
      hide TokensOk;
      hide TakeCommand;
      if GivesUp(c) {
        TameStale(s, s');
      } else {
        TameTail(s, s');
      }
    }
  }

  /** After shutdown a plain command starts nothing and keeps the generation. */
  lemma DownPlain(m: Actor, c: Cmd)
    requires Down(m) && !Opens(c) && !c.ConnectDone? && !c.ChildExit? && !c.DisconnectDone?
    ensures var o := TakeCommand(m, c); o.m.opGen == m.opGen && o.m.armed.None? && Light(o.fx)
  {
  }

  /** A harmless report, taken after shutdown, posts nothing but Disconnected. */
  lemma MuteReport(m: Actor, c: Cmd)
    requires Down(m) && c.ConnectDone? && CmdOk(c) && c.result.err.Some?
    requires Mute(m.opGen, c.gen, c.result.err.value, false)
    ensures var o := TakeCommand(m, c); HandsOn(m, o) && NoSpawn(o.fx) && Down(o.m)
  {
    hide Gather;
    var o := TakeCommand(m, c);
    if c.gen != m.opGen {
      ReplyHandsOn(m, o, None, Accepted);
    } else {
      PostHandsOn(m, o, IDLE);
    }
  }

  lemma OpensSpawns(m: Actor, c: Cmd)
    requires Down(m) && CmdOk(c) && NoSpawn(TakeCommand(m, c).fx)
    ensures !Opens(c)
  {
    var m1 := CancelTimer(m);
    if c.Connect? {
      ConnectSpawns(m1, c.id, Some(c.ch));
    } else if c.Switch? {
      ConnectSpawns(m1, c.id, Some(c.ch));
    }
  }

  lemma LameTakeReportDown(s: Sys)
    requires Lame(s) && s.shut && Enabled(s, Take) && s.q[0].ConnectDone?
    ensures Calm(Next(s, Take), false)
  {
    hide Gather;
    var c := s.q[0];
    LoneFacts(s);
    assert HarmlessReport(s, 0) && s.q[..0] == [];
    MuteReport(s.m, c);
    assert CmdStacks(c) == [];
    hide Lone;
    LoneLeaves(s, TakeCommand(s.m, c), Next(s, Take));
  }

  /** After shutdown. */
  lemma LameTakeDown(s: Sys)
    requires Lame(s) && s.shut && Enabled(s, Take) && NoSpawn(Next(s, Take).todo)
    ensures Lame(Next(s, Take)) || Calm(Next(s, Take), false)
  {
    hide Gather;
    hide Lone;
    hide Calm;
    var c, o, s' := s.q[0], TakeCommand(s.m, s.q[0]), Next(s, Take);
    if c.ConnectDone? {
      LameTakeReportDown(s);
    } else {
      assert c in s.q;
      LoneFacts(s);
      OpensSpawns(s.m, c);
      PlainTokens(s);
      DownPlain(s.m, c);
      TakeHandsOn(s.m, c);
      LonePlain(s, o, s');
      TameTail(s, s');
    }
  }

  lemma LameDrain(s: Sys)
    requires Lame(s) && Enabled(s, DrainOne)
    ensures Lame(Next(s, DrainOne)) || Calm(Next(s, DrainOne), false)
  {
    hide Gather;
    hide Lone;
    hide Calm;
    var c, s' := s.q[0], Next(s, DrainOne);
    LoneFacts(s);
    if c.ConnectDone? {
      assert HarmlessReport(s, 0) && c in s.q;
      LoneDrainReport(s);
    } else if c.Shutdown? {
      LoneShuts(s, DrainOne);
      TameTail(s, s');
    } else {
      LoneDrainPlain(s);
      DrainLight(s.m, c);
      TameTail(s, s');
    }
  }

  lemma HarmlessCancelled(opGen: nat, ctxDone: bool, hush: bool, t: Thread)
    requires t.Worker? && Harmless(opGen, ctxDone, hush, t)
    ensures Harmless(opGen, ctxDone, hush, t.(cancelled := true))
  {
  }

  lemma TameCancel(s: Sys, s': Sys, gen: nat)
    requires Tame(s) && s' == s.(todo := s'.todo, threads := CancelWorkers(s.threads, gen))
    ensures Tame(s')
  {
    forall t | t in s'.threads && t.Worker? ensures Harmless(s.m.opGen, s.ctxDone, Hush(s, |s.q|), t) {
      var i :| 0 <= i < |s'.threads| && s'.threads[i] == t;
      assert s.threads[i] in s.threads && t == CancelWorker(s.threads[i], gen);
      HarmlessCancelled(s.m.opGen, s.ctxDone, Hush(s, |s.q|), s.threads[i]);
    }
    TameThreads(s, s');
  }

  lemma LameExec(s: Sys, dead: bool)
    requires Lame(s) && Enabled(s, Exec(dead))
    ensures Lame(ExecOne(s, dead))
  {
    hide Gather;
    LoneFacts(s);
    LoneExec(s, dead);
    hide Lone;
    var e, s' := s.todo[0], ExecOne(s, dead);
    assert e in s.todo;
    if e.Cancel? {
      TameCancel(s, s', e.gen);
    } else {
      TameSame(s, s');
    }
  }

  lemma LameExit(s: Sys)
    requires Lame(s) && Enabled(s, TakeExit)
    ensures Lame(Next(s, TakeExit))
  {
    hide Gather;
    LoneExit(s);
    hide Lone;
    TameSame(s, Next(s, TakeExit));
  }

  lemma LameTimer(s: Sys)
    requires Lame(s) && Enabled(s, TimerFires)
    ensures Lame(Next(s, TimerFires))
  {
    hide Gather;
    LoneTimer(s);
    hide Lone;
    TameThreads(s, Next(s, TimerFires));
  }

  lemma LameDeath(s: Sys, c: ChildId)
    requires Lame(s) && Enabled(s, ChildDies(c))
    ensures Lame(Next(s, ChildDies(c)))
  {
    hide Gather;
    LoneDeath(s, c);
    hide Lone;
    TameSame(s, Next(s, ChildDies(c)));
  }

  lemma LameFlags(s: Sys, l: Label)
    requires Lame(s) && Enabled(s, l)
    requires l.CancelCtx? || l.BeginDrain? || l.Finish? || l.Look? || l.TurnBack?
    ensures Lame(Next(s, l))
  {
    hide Gather;
    LoneFlags(s, l);
    hide Lone;
    TameSame(s, Next(s, l));
  }

  /** With a harmless attempt outstanding, every step keeps it harmless or leaves no attempt at all. */
  lemma StepLame(s: Sys, l: Label)
    requires Lame(s) && Enabled(s, l) && NoSpawn(Next(s, l).todo)
    ensures Lame(Next(s, l)) || Calm(Next(s, l), false)
  {
    hide Gather;
    hide Lame;
    hide Calm;
    hide NoSpawn;
    hide ExecOne;
    hide WorkerMoves;
    hide TakeCommand;
    hide DrainCommand;
    hide TakeChildExit;
    assert !l.TeardownStop? by { LameNoTeardown(s, l); }
    if l.Take? {
      if s.shut { LameTakeDown(s); } else { LameTake(s); }
    } else if l.DrainOne? {
      LameDrain(s);
    } else if l.TakeExit? {
      LameExit(s);
    } else if l.Exec? {
      LameExec(s, l.dead);
    } else if l.WorkerStep? {
      LameWorker(s, l.i, l.outcome, l.dead);
    } else if l.PostBack? {
      LamePost(s, l.i, l.drop);
    } else if l.TimerFires? {
      LameTimer(s);
    } else if l.ChildDies? {
      LameDeath(s, l.child);
    } else if l.Call? {
      LameEnqueue(s, RequestCmd(l.req, s.nextCh), Next(s, l));
    } else if l.CallShutdown? {
      LameEnqueue(s, Shutdown, Next(s, l));
    } else {
      LameFlags(s, l);
    }
  }

  lemma LameNoTeardown(s: Sys, l: Label)
    requires Lame(s) && Enabled(s, l)
    ensures !l.TeardownStop?
  {
    NoTeardown(s, l);
  }

  lemma {:induction false} RunLame(states: seq<Sys>, labels: seq<Label>)
    requires IsRun(states, labels) && Lame(states[0])
    requires forall i :: 0 <= i < |states| ==> NoSpawn(states[i].todo)
    ensures Lame(Last(states)) || Calm(Last(states), false)
    decreases |labels|
  {
    hide Lame;
    hide Calm;
    hide NoSpawn;
    hide Next;
    hide Enabled;
    if labels == [] {
    } else {
      assert NoSpawn(states[1].todo);
      StepLame(states[0], labels[0]);
      if Lame(states[1]) {
        RunLame(states[1..], labels[1..]);
      } else {
        RunCalm(states[1..], labels[1..]);
      }
    }
  }

  /** Reports are failures once Shutdown is posted, so the queue holds no stack. */
  lemma LameQueueEmpty(s: Sys)
    requires Lame(s) && s.shutPosted
    ensures Gather(s.q, CmdStacks) == []
  {
    hide Gather;
    LoneFacts(s);
    hide Lone;
    forall c | c in s.q ensures CmdStacks(c) == [] {
      if c.ConnectDone? {
        var j :| 0 <= j < |s.q| && s.q[j] == c;
        assert HarmlessReport(s, j);
      }
    }
    GatherNone(s.q, CmdStacks);
  }

  lemma LameEnd(s: Sys)
    requires Lame(s) && s.shut
    ensures CleanedUp(s)
  {
    hide Gather;
    LoneFacts(s);
    LoneGathers(s);
    LameQueueEmpty(s);
    hide Tame;
    hide Lone;
    forall c | 0 <= c < |s.kids|
      ensures s.kids[c].stops + Times(Gather(s.threads, ThreadStacks), c) + Times(Gather(s.todo, FxStacks), c) == 1
    {
      OneOwner(s.kids, c);
      assert Owned(s) == Gather(s.threads, ThreadStacks) + [];
    }
  }
}
