/** Exactly when shutdown keeps its word: for every state in which it has not been handled yet. */
module TunnelShutdownExact {
  import opened Base
  import opened Tunnel
  import opened Handlers
  import opened WorkerSteps
  import opened TunnelSystem
  import opened TunnelInvariant
  import opened HandlerEffects
  import opened EffectSteps
  import opened TunnelReplies
  import opened TunnelTheorems
  import opened TunnelCancel
  import opened TunnelQuiescence
  import opened TunnelShutdown
  import opened TunnelLone
  import opened TunnelBefore
  import opened TunnelShutdownSafe

  // ---------- runs from a given state in which no connect is started ----------

  ghost predicate Leads(s: Sys, s': Sys) {
    exists states: seq<Sys>, labels: seq<Label> ::
      && IsRun(states, labels) && states[0] == s && Last(states) == s'
      && forall i :: 0 <= i < |states| ==> NoSpawn(states[i].todo)
  }

  lemma LeadsSelf(s: Sys)
    requires NoSpawn(s.todo)
    ensures Leads(s, s)
  {
    var states, labels: seq<Label> := [s], [];
    assert IsRun(states, labels) && Last(states) == s;
  }

  lemma LeadsOn(s: Sys, s1: Sys, l: Label)
    requires Leads(s, s1) && Enabled(s1, l) && NoSpawn(Next(s1, l).todo)
    ensures Leads(s, Next(s1, l))
  {
    hide Next;
    hide Enabled;
    hide NoSpawn;
    var states: seq<Sys>, labels: seq<Label> :|
      && IsRun(states, labels) && states[0] == s && Last(states) == s1
      && forall i :: 0 <= i < |states| ==> NoSpawn(states[i].todo);
    var more, steps := states + [Next(s1, l)], labels + [l];
    assert IsRun(more, steps) && more[0] == s && Last(more) == Next(s1, l);
  }

  /** The last post is not Disconnected, or a child is left that was never stopped and that nobody owns. */
  ghost predicate Broken(s: Sys) {
    || Last(Trace(s)).state != Disconnected
    || exists c :: 0 <= c < |s.kids| && s.kids[c].stops == 0 && Times(Owned(s), c) == 0
  }

  lemma BrokenIsNotClean(s: Sys)
    requires Broken(s)
    ensures !CleanedUp(s)
  {
    hide Gather;
    if Last(Trace(s)).state == Disconnected {
      var c :| 0 <= c < |s.kids| && s.kids[c].stops == 0 && Times(Owned(s), c) == 0;
      var a, b, d := Gather(s.threads, ThreadStacks), Gather(s.q, CmdStacks), Gather(s.todo, FxStacks);
      TimesConcat(a + b + d, OptionSeq(s.m.armed), c);
      TimesConcat(a + b, d, c);
      TimesConcat(a, b, c);
    }
  }

  // ---------- stretches of a run ----------

  /** The same goroutines at the same points, some of them newly cancelled. */
  predicate SamePcs(ts: seq<Thread>, us: seq<Thread>) {
    && |ts| == |us|
    && forall i :: 0 <= i < |ts| ==> us[i] == ts[i] || (ts[i].Worker? && us[i] == ts[i].(cancelled := true))
  }

  lemma SamePcsTwice(a: seq<Thread>, b: seq<Thread>, c: seq<Thread>)
    requires SamePcs(a, b) && SamePcs(b, c)
    ensures SamePcs(a, c)
  {
  }

  /** Children, goroutines and flags are as they were. */
  predicate SameBut(s: Sys, t: Sys) {
    && t.kids == s.kids && t.mode == s.mode && t.ctxDone == s.ctxDone && t.shutPosted == s.shutPosted
    && SamePcs(s.threads, t.threads)
  }

  lemma ExecLight(s: Sys)
    requires s.todo != [] && Light(s.todo)
    ensures Enabled(s, Exec(true))
    ensures var t := ExecOne(s, true);
      && SameBut(s, t) && t.m == s.m && t.shut == s.shut && t.q == s.q && t.todo == s.todo[1..]
      && Light(t.todo) && NoSpawn(t.todo)
  {
    assert s.todo[0] in s.todo;
  }

  /** The actor carries out what is pending. */
  lemma {:induction false} RunTodo(s: Sys, s1: Sys) returns (s2: Sys)
    requires Leads(s, s1) && Light(s1.todo)
    ensures Leads(s, s2) && SameBut(s1, s2) && Idle(s2) && s2.m == s1.m && s2.shut == s1.shut && s2.q == s1.q
    ensures (Lone(s1) ==> Lone(s2)) && (Calm(s1, true) ==> Calm(s2, true))
    decreases |s1.todo|
  {
    hide Leads;
    hide Lone;
    hide Calm;
    if s1.todo == [] {
      s2 := s1;
    } else {
      ExecLight(s1);
      var t := ExecOne(s1, true);
      assert Next(s1, Exec(true)) == t;
      LeadsOn(s, s1, Exec(true));
      if Lone(s1) {
        LoneExec(s1, true);
      }
      if Calm(s1, true) {
        CalmExec(s1, true, true);
      }
      hide Next;
      hide Enabled;
      hide ExecOne;
      s2 := RunTodo(s, t);
      SamePcsTwice(s1.threads, t.threads, s2.threads);
    }
  }

  lemma CalmFree(s: Sys)
    requires Calm(s, true)
    ensures s.m.armed.None? && Owned(s) == [] && NoSpawn(s.todo)
  {
    hide Gather;
  }

  /** The drain takes one command; with nothing armed it only replies, posts, cancels and closes. */
  lemma DrainStep(s: Sys)
    requires s.mode == Draining && Idle(s) && s.q != [] && s.m.armed.None?
    ensures Enabled(s, DrainOne)
    ensures var t := Next(s, DrainOne);
      && Light(t.todo) && NoSpawn(t.todo) && t.m.armed.None? && SameBut(s, t)
      && t.q == s.q[1..] && t.shut == (s.shut || s.q[0].Shutdown?)
  {
  }

  /** A child that nobody holds on to is still there. */
  ghost predicate LostKid(s: Sys) {
    exists c :: 0 <= c < |s.kids| && s.kids[c].stops == 0
  }

  lemma LostIsBroken(s: Sys)
    requires Calm(s, true) && LostKid(s)
    ensures Broken(s)
  {
    hide Gather;
    hide Trace;
    CalmFree(s);
    var c :| 0 <= c < |s.kids| && s.kids[c].stops == 0;
    assert Times(Owned(s), c) == 0;
  }

  /** With a child lost, the drain gets to Shutdown, and the child stays lost. */
  lemma {:induction false} DrainOut(s: Sys, s1: Sys) returns (s': Sys)
    requires Leads(s, s1) && Calm(s1, true) && LostKid(s1) && Idle(s1) && s1.mode == Draining
    requires s1.shut || Shutdown in s1.q
    ensures Leads(s, s') && s'.shut && Broken(s')
    decreases |s1.q|
  {
    hide Leads;
    hide Calm;
    hide Broken;
    if s1.shut {
      s' := s1;
      LostIsBroken(s1);
    } else {
      CalmFree(s1);
      DrainStep(s1);
      var t := Next(s1, DrainOne);
      LeadsOn(s, s1, DrainOne);
      StepCalm(s1, DrainOne, true);
      assert s1.q == [s1.q[0]] + s1.q[1..];
      hide Next;
      hide Enabled;
      hide SamePcs;
      var u := RunTodo(s, t);
      s' := DrainOut(s, u);
    }
  }

  /** The context is done: the drain begins, if it has not yet, and goes through. */
  lemma LostForGood(s: Sys, s1: Sys) returns (s': Sys)
    requires Leads(s, s1) && Calm(s1, true) && LostKid(s1) && Idle(s1) && s1.ctxDone && s1.mode != Exited
    requires s1.shut || Shutdown in s1.q
    ensures Leads(s, s') && s'.shut && Broken(s')
  {
    hide Leads;
    hide Calm;
    hide Broken;
    if s1.mode == Draining {
      s' := DrainOut(s, s1);
    } else {
      var t := s1.(mode := Draining);
      assert Next(s1, BeginDrain) == t;
      CalmFree(s1);
      LeadsOn(s, s1, BeginDrain);
      CalmFlags(s1, t, true);
      hide Next;
      hide Enabled;
      s' := DrainOut(s, t);
    }
  }

  // ---------- the loop ----------

  /** The head of the queue leaves the outstanding attempt as it is. */
  predicate Passes(s: Sys)
    requires s.q != []
  {
    !s.q[0].ConnectDone? && !(if s.shut then Opens(s.q[0]) else GivesUp(s.q[0]))
  }

  lemma LoneTakeDown(s: Sys)
    requires Lone(s) && s.shut && Enabled(s, Take) && !s.q[0].ConnectDone? && !Opens(s.q[0])
    ensures var t := Next(s, Take); Lone(t) && t.m.opGen == s.m.opGen
  {
    hide Gather;
    LoneFacts(s);
    var c := s.q[0];
    assert c in s.q;
    PlainTokens(s);
    hide Lone;
    DownPlain(s.m, c);
    LightSilent(TakeCommand(s.m, c).fx);
    TakeHandsOn(s.m, c);
    LonePlain(s, TakeCommand(s.m, c), Next(s, Take));
  }

  lemma HeadReady(s: Sys)
    requires Lone(s) && s.mode == Running && Idle(s) && s.q != []
    ensures Enabled(s, Take)
    ensures var t := Next(s, Take);
      && t.q == s.q[1..] && t.threads == s.threads && t.kids == s.kids && t.mode == s.mode
      && t.ctxDone == s.ctxDone && t.shutPosted == s.shutPosted && t.shut == (s.shut || s.q[0].Shutdown?)
  {
    hide Gather;
    LoneFacts(s);
    assert s.q[0] in s.q;
  }

  /** Before shutdown the loop can take any head but the report itself, and nothing is started. */
  lemma HeadTaken(s: Sys)
    requires Lone(s) && !s.shut && s.mode == Running && Idle(s) && s.q != [] && !s.q[0].ConnectDone?
    ensures Enabled(s, Take) && Lone(Next(s, Take)) && Light(Next(s, Take).todo)
    ensures !GivesUp(s.q[0]) ==> Next(s, Take).m.opGen == s.m.opGen
  {
    hide Gather;
    HeadReady(s);
    LoneFacts(s);
    if s.q[0].Shutdown? {
      LoneShuts(s, Take);
    } else {
      assert s.q[0] in s.q;
      PlainTokens(s);
      PlainTaken(s.m, s.q[0], Tokens(s));
      LoneTakePlain(s);
    }
    LoneFacts(Next(s, Take));
  }

  lemma HeadPasses(s: Sys)
    requires Lone(s) && s.mode == Running && Idle(s) && s.q != [] && Passes(s)
    ensures Enabled(s, Take) && Lone(Next(s, Take)) && Light(Next(s, Take).todo)
    ensures Next(s, Take).m.opGen == s.m.opGen
  {
    HeadReady(s);
    if s.shut {
      LoneTakeDown(s);
      LoneFacts(Next(s, Take));
    } else {
      HeadTaken(s);
    }
  }

  /** The loop gets through the first `n` commands without touching the attempt. */
  lemma {:induction false} TakePast(s: Sys, s1: Sys, n: nat) returns (s2: Sys)
    requires Leads(s, s1) && Lone(s1) && s1.mode == Running && Idle(s1) && n <= |s1.q| && Through(s1.shut, s1.q[..n])
    requires forall k :: 0 <= k < n ==> !s1.q[k].ConnectDone?
    ensures Leads(s, s2) && Lone(s2) && SameBut(s1, s2) && Idle(s2) && s2.m.opGen == s1.m.opGen
    ensures s2.q == s1.q[n..] && s2.shut == (s1.shut || Shutdown in s1.q[..n])
    decreases n
  {
    hide Leads;
    hide Lone;
    if n == 0 {
      s2 := s1;
    } else {
      assert s1.q[..n][1..] == s1.q[1..][..n - 1] && s1.q[..n] == [s1.q[0]] + s1.q[1..][..n - 1];
      HeadReady(s1);
      HeadPasses(s1);
      var t := Next(s1, Take);
      LightSilent(t.todo);
      LeadsOn(s, s1, Take);
      hide Next;
      hide Enabled;
      var u := RunTodo(s, t);
      s2 := TakePast(s, u, n - 1);
      assert s1.q[1..][n - 1..] == s1.q[n..];
      SamePcsTwice(s1.threads, u.threads, s2.threads);
    }
  }

  // ---------- a worker that can still succeed ----------

  /** Only time stands between the worker and success: it has not failed, and every look at its context passes. */
  predicate CanSucceed(t: Thread) {
    && t.Worker? && !t.pc.Unwind? && (t.pc.Deliver? ==> t.pc.result.err.None?)
    && (t.cancelled ==> t.pc.Handshake? || t.pc.Deliver?)
  }

  predicate BeforeNotice(pc: Pc) {
    pc.PreCheck? || pc.FindPath? || pc.Validate? || pc.Announce?
  }

  lemma PassStep(s: Sys, i: nat)
    requires i < |s.threads| && CanSucceed(s.threads[i]) && !s.threads[i].pc.Deliver? && !s.ctxDone
    requires BeforeNotice(s.threads[i].pc) ==> HasRoom(s)
    ensures Enabled(s, WorkerStep(i, Pass, true))
    ensures var t := WorkerMoves(s, i, Pass, true);
      && t == s.(threads := t.threads, q := t.q, kids := t.kids, log := t.log)
      && |t.threads| == |s.threads| && CanSucceed(t.threads[i])
      && PcWeight(t.threads[i].pc) < PcWeight(s.threads[i].pc)
      && (t.q == s.q || t.q == s.q + [ConnectProgress(s.threads[i].gen, Connecting)])
      && (BeforeNotice(t.threads[i].pc) ==> HasRoom(t)) && (|s.q| <= QUEUE_CAP ==> |t.q| <= QUEUE_CAP)
  {
  }

  /** While the context is alive, a worker's step keeps it the one outstanding connect. */
  lemma LoneGoesOn(s: Sys, i: nat, o: Outcome)
    requires Lone(s) && Enabled(s, WorkerStep(i, o, true)) && !s.ctxDone
    ensures Lone(WorkerMoves(s, i, o, true)) && NoSpawn(WorkerMoves(s, i, o, true).todo)
  {
    hide Lone;
    LoneWorker(s, i, o, true);
    hide Enabled;
    LoneFacts(WorkerMoves(s, i, o, true));
    LightSilent(WorkerMoves(s, i, o, true).todo);
  }

  /** Such a worker succeeds if nobody interferes. */
  lemma {:induction false} DriveOn(s: Sys, s1: Sys, i: nat) returns (s2: Sys)
    requires Leads(s, s1) && Lone(s1) && !s1.ctxDone
    requires i < |s1.threads| && CanSucceed(s1.threads[i]) && (BeforeNotice(s1.threads[i].pc) ==> HasRoom(s1))
    ensures Leads(s, s2) && Lone(s2) && i < |s2.threads| && CanSucceed(s2.threads[i]) && s2.threads[i].pc.Deliver?
    ensures s2 == s1.(threads := s2.threads, q := s2.q, kids := s2.kids, log := s2.log)
    ensures (|s1.q| <= QUEUE_CAP ==> |s2.q| <= QUEUE_CAP) && (Shutdown in s1.q ==> Shutdown in s2.q)
    decreases PcWeight(s1.threads[i].pc)
  {
    hide Leads;
    hide Lone;
    if s1.threads[i].pc.Deliver? {
      s2 := s1;
    } else {
      var l, t := WorkerStep(i, Pass, true), WorkerMoves(s1, i, Pass, true);
      hide NoSpawn;
      hide WorkerMoves;
      PassStep(s1, i);
      LoneGoesOn(s1, i, Pass);
      assert Next(s1, l) == t;
      hide CanSucceed;
      hide Next;
      hide Enabled;
      LeadsOn(s, s1, l);
      s2 := DriveOn(s, t, i);
    }
  }

  // ---------- a success is lost ----------

  /** The stack that is given up is that of a child whose stop has not returned. */
  lemma HeldKid(s: Sys, c: ChildId)
    requires Lone(s) && Owned(s) == [c]
    ensures LostKid(s)
  {
    hide Gather;
    hide Owned;
    assert c in Owned(s);
    assert Open(s.kids) == [c];
  }

  lemma SuccessHolds(s: Sys, i: nat)
    requires Lone(s) && i < |s.threads| && s.threads[i].Worker?
    requires s.threads[i].pc.Handshake? || (s.threads[i].pc.Deliver? && s.threads[i].pc.result.err.None?)
    ensures LostKid(s)
  {
    hide Gather;
    LoneThread(s, i);
    LoneHolder(s, i);
    HeldKid(s, ThreadStacks(s.threads[i])[0]);
  }

  /** With the context done, a success that is not queued yet is given up, and its child with it. */
  lemma SuccessLost(s: Sys, s1: Sys, i: nat) returns (s': Sys)
    requires Leads(s, s1) && Lone(s1) && Idle(s1) && s1.ctxDone && s1.mode != Exited
    requires i < |s1.threads| && s1.threads[i].Worker?
    requires s1.threads[i].pc.Handshake? || (s1.threads[i].pc.Deliver? && s1.threads[i].pc.result.err.None?)
    requires s1.shut || Shutdown in s1.q
    ensures Leads(s, s') && s'.shut && Broken(s')
  {
    hide Leads;
    hide Lone;
    hide Calm;
    hide Broken;
    var l := if s1.threads[i].pc.Handshake? then WorkerStep(i, Pass, true) else PostBack(i, true);
    SuccessHolds(s1, i);
    assert Enabled(s1, l);
    var t := s1.(threads := Without(s1.threads, i));
    if s1.threads[i].pc.Handshake? {
      LoneWorker(s1, i, Pass, true);
      assert WorkerMoves(s1, i, Pass, true) == t;
    } else {
      LoneGone(s1, i);
    }
    assert Next(s1, l) == t;
    CalmFree(t);
    LeadsOn(s, s1, l);
    hide Next;
    hide Enabled;
    s' := LostForGood(s, t);
  }

  /** The context ends. */
  lemma ContextDone(s: Sys, s1: Sys) returns (s2: Sys)
    requires Leads(s, s1) && Lone(s1) && s1.shutPosted && !s1.ctxDone
    ensures Leads(s, s2) && Lone(s2) && s2 == s1.(ctxDone := true)
  {
    hide Leads;
    hide Lone;
    s2 := s1.(ctxDone := true);
    assert Next(s1, CancelCtx) == s2;
    LoneFacts(s1);
    LightSilent(s1.todo);
    LoneFlags(s1, CancelCtx);
    LeadsOn(s, s1, CancelCtx);
  }

  /** Shutdown is called; if the queue is full, the loop takes its head first. */
  lemma Posted(s: Sys, s1: Sys) returns (s2: Sys)
    requires Leads(s, s1) && Lone(s1) && Idle(s1) && s1.mode == Running && !s1.ctxDone && !s1.shut
    requires |s1.q| <= QUEUE_CAP && (!s1.shutPosted && !HasRoom(s1) ==> !s1.q[0].ConnectDone?)
    requires s1.shutPosted ==> Shutdown in s1.q
    ensures Leads(s, s2) && Lone(s2) && Idle(s2) && s2.mode == Running && !s2.ctxDone && !s2.shut
    ensures s2.shutPosted && Shutdown in s2.q && SamePcs(s1.threads, s2.threads)
    ensures forall c :: c in s1.q && c.ConnectDone? ==> c in s2.q
  {
    hide Leads;
    hide Lone;
    if s1.shutPosted {
      s2 := s1;
    } else {
      var u := s1;
      if !HasRoom(s1) {
        HeadReady(s1);
        HeadTaken(s1);
        LoneFacts(s1);
        var t := Next(s1, Take);
        assert s1.q == [s1.q[0]] + t.q;
        LightSilent(t.todo);
        LeadsOn(s, s1, Take);
        hide Next;
        hide Enabled;
        u := RunTodo(s, t);
      }
      s2 := ShutdownCalled(s, u);
    }
  }

  lemma ShutdownCalled(s: Sys, s1: Sys) returns (s2: Sys)
    requires Leads(s, s1) && Lone(s1) && HasRoom(s1) && !s1.shutPosted && Idle(s1)
    ensures Leads(s, s2) && Lone(s2) && s2 == s1.(q := s1.q + [Shutdown], shutPosted := true)
  {
    hide Leads;
    hide Lone;
    s2 := s1.(q := s1.q + [Shutdown], shutPosted := true);
    assert Next(s1, CallShutdown) == s2;
    LoneEnqueue(s1, Shutdown, s2);
    LeadsOn(s, s1, CallShutdown);
  }

  // ---------- the states the theorem is about ----------

  /** Shutdown has not been handled, and what every daemon run gives in such a state. */
  ghost predicate Facing(s: Sys) {
    && Idle(s) && !s.shut && ShutFlags(s) && Settling(s) && |s.q| <= QUEUE_CAP
    && (!s.ctxDone ==> CancelOk(s) && (Calm(s, false) || Lone(s)))
  }

  lemma {:induction false} QueueBound(states: seq<Sys>, labels: seq<Label>)
    requires IsRun(states, labels) && |states[0].q| <= QUEUE_CAP
    ensures |Last(states).q| <= QUEUE_CAP
    decreases |labels|
  {
    hide Next;
    hide Enabled;
    if labels == [] {
    } else {
      QueueStep(states[0], labels[0]);
      QueueBound(states[1..], labels[1..]);
    }
  }

  lemma QueueStep(s: Sys, l: Label)
    requires Enabled(s, l) && |s.q| <= QUEUE_CAP
    ensures |Next(s, l).q| <= QUEUE_CAP
  {
    hide TakeCommand;
    hide TakeChildExit;
    hide DrainCommand;
    hide ExecOne;
    hide WorkerMoves;
    match l {
      case Exec(dead) => ExecFlags(s, dead);
      case WorkerStep(i, o, dead) => WorkerRoom(s, i, o, dead);
      case _ =>
    }
  }

  lemma WorkerRoom(s: Sys, i: nat, o: Outcome, dead: bool)
    requires Enabled(s, WorkerStep(i, o, dead)) && |s.q| <= QUEUE_CAP
    ensures |WorkerMoves(s, i, o, dead).q| <= QUEUE_CAP
  {
    hide WorkerNext;
  }

  lemma FacingFrom(states: seq<Sys>, labels: seq<Label>)
    requires IsDaemonRun(states, labels) && Idle(Last(states)) && !Last(states).shut
    ensures Facing(Last(states))
  {
    hide Next;
    hide Enabled;
    hide CancelOk;
    hide Inv;
    hide Before;
    hide Settling;
    var s := Last(states);
    RunBefore(states, labels);
    BeforeSettles(s);
    QueueBound(states, labels);
    InitShutOnce();
    RunShutOnce(states, labels);
    if !s.ctxDone {
      RunCancels(states, labels);
    }
  }

  lemma InitShutOnce()
    ensures ShutOnce(INIT)
  {
  }

  /**
   * Nobody has lost a child, and the outstanding attempt, should there be one, can do no more harm. A look at
   * the state decides it.
   */
  ghost predicate ShutSafe(s: Sys) {
    && (forall c :: 0 <= c < |s.kids| && s.kids[c].stops == 0 ==> c in Owned(s))
    && Tame(s)
  }

  // ---------- from an unsafe state ----------

  /** A current attempt's worker has not been cancelled; a stale one's has. */
  lemma CancelledIffStale(s: Sys, i: nat)
    requires Facing(s) && Lone(s) && !s.ctxDone && i < |s.threads| && s.threads[i].Worker?
    ensures s.threads[i].cancelled <==> s.threads[i].gen != s.m.opGen
  {
    hide Gather;
    LoneThread(s, i);
    assert TokensOk(s.m, Tokens(s));
    hide Lone;
    assert WorkerOk(s.m, s.todo, s.threads[i]);
  }

  /** A worker that has yet to announce itself needs a place in the queue; the loop makes one and stops there. */
  lemma RoomMade(s: Sys, i: nat) returns (u: Sys)
    requires Leads(s, s) && Lone(s) && Idle(s) && s.mode == Running && !s.shut && |s.q| <= QUEUE_CAP
    requires i < |s.threads| && s.threads[i].Worker?
    ensures Leads(s, u) && Lone(u) && (BeforeNotice(s.threads[i].pc) ==> HasRoom(u))
    ensures u.threads == s.threads && u.ctxDone == s.ctxDone && u.shutPosted == s.shutPosted && u.mode == s.mode
    ensures |u.q| <= QUEUE_CAP && (Shutdown in s.q ==> u.shut || Shutdown in u.q)
  {
    hide Leads;
    hide Lone;
    u := s;
    if BeforeNotice(s.threads[i].pc) && !HasRoom(s) {
      LoneThread(s, i);
      assert s.q[0] in s.q;
      HeadReady(s);
      HeadTaken(s);
      u := Next(s, Take);
      assert s.q == [s.q[0]] + u.q;
      LightSilent(u.todo);
      LeadsOn(s, s, Take);
    }
  }

  /** Nothing holds the worker back: it succeeds, the context ends, and its report is given up. */
  lemma WorkerLost(s: Sys, i: nat) returns (s': Sys)
    requires Facing(s) && Lone(s) && !s.ctxDone && i < |s.threads| && CanSucceed(s.threads[i])
    ensures Leads(s, s') && s'.shut && Broken(s')
  {
    hide Leads;
    hide Lone;
    hide Settling;
    hide CancelOk;
    hide Broken;
    assert s.mode == Running && (s.shutPosted ==> Shutdown in s.q) && |s.q| <= QUEUE_CAP;
    LeadsSelf(s);
    var u := RoomMade(s, i);
    hide Facing;
    var v := DriveOn(s, u, i);
    hide Next;
    hide Enabled;
    s' := DeliveredLost(s, v, i);
  }

  /** The worker has succeeded but not reported; whatever is pending is carried out, and the context ends. */
  lemma DeliveredLost(s: Sys, s1: Sys, i: nat) returns (s': Sys)
    requires Leads(s, s1) && Lone(s1) && !s1.ctxDone && s1.mode == Running && |s1.q| <= QUEUE_CAP
    requires i < |s1.threads| && s1.threads[i].Worker?
    requires s1.threads[i].pc.Deliver? && s1.threads[i].pc.result.err.None?
    requires s1.shutPosted ==> s1.shut || Shutdown in s1.q
    ensures Leads(s, s') && s'.shut && Broken(s')
  {
    hide Leads;
    hide Lone;
    hide Broken;
    LoneFacts(s1);
    var u := RunTodo(s, s1);
    LoneThread(u, i);
    LoneFacts(u);
    var v := u;
    if !u.shut {
      if u.q != [] { assert u.q[0] in u.q; }
      v := Posted(s, u);
    }
    SamePcsAt(u.threads, v.threads, i);
    var w := ContextDone(s, v);
    s' := SuccessLost(s, w, i);
  }

  lemma SamePcsAt(ts: seq<Thread>, us: seq<Thread>, i: nat)
    requires i < |ts| && (SamePcs(ts, us) || us == ts) && ts[i].Worker?
    ensures i < |us| && us[i].Worker? && us[i].pc == ts[i].pc && us[i].gen == ts[i].gen
  {
  }

  /** A queued success is drained away, whether Shutdown is ahead of it or behind it. */
  lemma {:induction false} ReportDrained(s: Sys, s1: Sys, j: nat) returns (s': Sys)
    requires Leads(s, s1) && Lone(s1) && Idle(s1) && s1.mode == Draining && (s1.shut || Shutdown in s1.q)
    requires j < |s1.q| && s1.q[j].ConnectDone? && s1.q[j].result.err.None?
    ensures Leads(s, s') && s'.shut && Broken(s')
    decreases j
  {
    hide Leads;
    hide Lone;
    hide Calm;
    hide Broken;
    LoneFacts(s1);
    DrainStep(s1);
    var t := Next(s1, DrainOne);
    LeadsOn(s, s1, DrainOne);
    assert s1.q == [s1.q[0]] + s1.q[1..];
    if j == 0 {
      assert s1.q[0] in s1.q;
      ReportHolds(s1, 0);
      LoneDrainReport(s1);
      hide Next;
      hide Enabled;
      var u := RunTodo(s, t);
      s' := LostForGood(s, u) by {
        LoneDone(s1);
      }
    } else {
      ReportAhead(s1, j);
      if s1.q[0].Shutdown? { LoneShuts(s1, DrainOne); } else { LoneDrainPlain(s1); }
      assert t.q[j - 1] == s1.q[j];
      hide Next;
      hide Enabled;
      var u := RunTodo(s, t);
      s' := ReportDrained(s, u, j - 1);
    }
  }

  lemma LoneDone(s: Sys)
    requires Lone(s) && s.mode != Running
    ensures s.ctxDone
  {
    LoneFacts(s);
  }

  lemma ReportAhead(s: Sys, j: nat)
    requires Lone(s) && 0 < j < |s.q| && s.q[j].ConnectDone?
    ensures forall k :: 0 <= k < j ==> !s.q[k].ConnectDone?
  {
    hide Gather;
    LoneReported(s, j);
    assert forall k :: 0 <= k < j ==> s.q[k] == s.q[..j][k];
  }

  lemma ReportHolds(s: Sys, j: nat)
    requires Lone(s) && j < |s.q| && s.q[j].ConnectDone? && s.q[j].result.err.None?
    ensures LostKid(s)
  {
    hide Gather;
    LoneFacts(s);
    assert s.q[j] in s.q;
    LoneReported(s, j);
    HeldKid(s, CmdStacks(s.q[j])[0]);
  }

  /** The drain begins. */
  lemma DrainStarts(s: Sys, s1: Sys) returns (s2: Sys)
    requires Leads(s, s1) && Lone(s1) && Idle(s1) && s1.ctxDone && s1.mode != Exited
    ensures Leads(s, s2) && Lone(s2) && s2 == s1.(mode := Draining)
  {
    hide Leads;
    hide Lone;
    if s1.mode == Draining {
      s2 := s1;
    } else {
      s2 := s1.(mode := Draining);
      assert Next(s1, BeginDrain) == s2;
      LoneFlags(s1, BeginDrain);
      LeadsOn(s, s1, BeginDrain);
    }
  }

  lemma ReportLost(s: Sys, j: nat) returns (s': Sys)
    requires Facing(s) && Lone(s) && j < |s.q| && s.q[j].ConnectDone? && s.q[j].result.err.None?
    requires !(j == 0 && Cornered(s))
    ensures Leads(s, s') && s'.shut && Broken(s')
  {
    hide Leads;
    hide Lone;
    hide Settling;
    hide CancelOk;
    hide Broken;
    LeadsSelf(s);
    var c := s.q[j];
    assert c in s.q;
    var u := s;
    if !s.ctxDone {
      if j > 0 { ReportAhead(s, j); }
      var v := Posted(s, s);
      u := ContextDone(s, v);
    }
    var w := DrainStarts(s, u);
    var k :| 0 <= k < |w.q| && w.q[k] == c;
    s' := ReportDrained(s, w, k);
  }

  /** A current failure other than a cancellation, taken after shutdown, is posted as an error. */
  lemma FailureShows(s: Sys, s1: Sys) returns (s': Sys)
    requires Leads(s, s1) && s1.shut && s1.mode == Running && Idle(s1) && s1.q != [] && s1.q[0].ConnectDone?
    requires CmdOk(s1.q[0]) && s1.q[0].gen == s1.m.opGen
    requires s1.q[0].result.err.Some? && s1.q[0].result.err.value != Canceled
    ensures Leads(s, s') && s'.shut && Broken(s')
  {
    hide Gather;
    hide Leads;
    s' := Next(s1, Take);
    assert s'.todo == [Post(s'.m.conn)] && s'.m.conn.state == Error;
    LeadsOn(s, s1, Take);
    GatherOne(Post(s'.m.conn), FxPosts);
    assert Last(Trace(s')) == s'.m.conn;
  }

  /** A queued failure that the loop gets to after shutdown is taken and posted. */
  lemma ReportShows(s: Sys, j: nat) returns (s': Sys)
    requires Facing(s) && Lone(s) && j < |s.q| && s.q[j].ConnectDone? && s.q[j].result.err.Some?
    requires !HarmlessReport(s, j)
    ensures Leads(s, s') && s'.shut && Broken(s')
  {
    hide Leads;
    hide Lone;
    hide Settling;
    hide CancelOk;
    hide Broken;
    LeadsSelf(s);
    LoneFacts(s);
    assert s.q[j] in s.q;
    if j > 0 { ReportAhead(s, j); }
    var u := TakePast(s, s, j);
    assert u.q[0] == s.q[j];
    s' := FailureShows(s, u);
  }

  /** Shutdown is called on an empty queue, and taken. */
  lemma ShutNext(s: Sys, s1: Sys) returns (s2: Sys)
    requires Leads(s, s1) && Lone(s1) && Idle(s1) && s1.q == [] && s1.mode == Running && !s1.shutPosted && !s1.shut
    ensures Leads(s, s2) && Lone(s2) && Idle(s2) && s2.q == [] && s2.shut && s2.mode == Running
    ensures s2.m.opGen == s1.m.opGen && SamePcs(s1.threads, s2.threads) && s2.ctxDone == s1.ctxDone
  {
    hide Leads;
    hide Lone;
    hide Next;
    hide Enabled;
    hide SamePcs;
    var t := ShutdownCalled(s, s1);
    assert t.q == [Shutdown] && t.q[..1] == [Shutdown];
    s2 := TakePast(s, t, 1);
  }

  /** The loop takes everything that is queued, and Shutdown if it was not among it. */
  lemma QueueTaken(s: Sys, i: nat) returns (s2: Sys)
    requires Lone(s) && Idle(s) && !s.shut && (s.shutPosted ==> Shutdown in s.q)
    requires s.mode == Running && Through(s.shut, s.q) && i < |s.threads| && s.threads[i].Worker?
    ensures Leads(s, s2) && Lone(s2) && Idle(s2) && s2.q == [] && s2.shut && s2.mode == Running
    ensures s2.m.opGen == s.m.opGen && SamePcs(s.threads, s2.threads) && s2.ctxDone == s.ctxDone
  {
    hide Leads;
    hide Lone;
    hide Next;
    hide Enabled;
    hide Through;
    LeadsSelf(s);
    LoneThread(s, i);
    assert s.q[..|s.q|] == s.q && s.q[|s.q|..] == [];
    assert forall k :: 0 <= k < |s.q| ==> s.q[k] in s.q;
    var u := TakePast(s, s, |s.q|);
    s2 := u;
    if !u.shut {
      hide SamePcs;
      s2 := ShutNext(s, u);
      SamePcsTwice(s.threads, u.threads, s2.threads);
    }
  }

  /** The worker's failure is reported, taken and posted. */
  lemma WorkerShows(s: Sys, i: nat) returns (s': Sys)
    requires Facing(s) && Lone(s) && i < |s.threads| && s.threads[i].Worker?
    requires s.threads[i].pc.Unwind? || (s.threads[i].pc.Deliver? && s.threads[i].pc.result.err.Some?)
    requires !Harmless(s.m.opGen, s.ctxDone, Hush(s, |s.q|), s.threads[i])
    ensures Leads(s, s') && s'.shut && Broken(s')
  {
    hide Leads;
    hide Lone;
    hide Broken;
    assert s.q[..|s.q|] == s.q;
    var u := QueueTaken(s, i);
    hide Facing;
    SamePcsAt(s.threads, u.threads, i);
    var v := Unwound(s, u, i);
    s' := FailsThrough(s, v, i);
  }

  /** The worker's stop returns, if it is still running it. */
  lemma Unwound(s: Sys, s2: Sys, i: nat) returns (s3: Sys)
    requires Leads(s, s2) && Lone(s2) && Idle(s2) && i < |s2.threads| && s2.threads[i].Worker?
    requires (s2.threads[i].pc.Unwind? && !s2.ctxDone) || s2.threads[i].pc.Deliver?
    ensures Leads(s, s3) && Lone(s3) && i < |s3.threads| && s3.threads[i].Worker? && s3.threads[i].pc.Deliver?
    ensures s3 == s2.(threads := s3.threads, kids := s3.kids, log := s3.log)
    ensures s3.threads[i].gen == s2.threads[i].gen
    ensures s3.threads[i].pc.result.err
      == if s2.threads[i].pc.Unwind? then Some(s2.threads[i].pc.failure) else s2.threads[i].pc.result.err
  {
    hide Leads;
    hide Lone;
    if s2.threads[i].pc.Deliver? {
      s3 := s2;
    } else {
      UnwindReady(s2, i);
      s3 := WorkerMoves(s2, i, Pass, true);
      LoneWorker(s2, i, Pass, true);
      assert Next(s2, WorkerStep(i, Pass, true)) == s3;
      LeadsOn(s, s2, WorkerStep(i, Pass, true));
    }
  }

  lemma UnwindReady(s: Sys, i: nat)
    requires Lone(s) && i < |s.threads| && s.threads[i].Worker? && s.threads[i].pc.Unwind?
    ensures Enabled(s, WorkerStep(i, Pass, true))
  {
    hide Gather;
    LoneHolder(s, i);
    hide Lone;
    assert s.threads[i].pc.child in Open(s.kids);
  }

  /** A worker with a failure to report, after shutdown, with nothing ahead of it. */
  lemma FailsThrough(s: Sys, s1: Sys, i: nat) returns (s': Sys)
    requires Leads(s, s1) && Lone(s1) && s1.shut && s1.mode == Running && Idle(s1) && s1.q == []
    requires i < |s1.threads| && s1.threads[i].Worker? && s1.threads[i].pc.Deliver?
    requires s1.threads[i].gen == s1.m.opGen
    requires s1.threads[i].pc.result.err.Some? && s1.threads[i].pc.result.err.value != Canceled
    ensures Leads(s, s') && s'.shut && Broken(s')
  {
    hide Leads;
    hide Lone;
    hide Broken;
    LoneHolder(s1, i);
    var t := Next(s1, PostBack(i, false));
    LeadsOn(s, s1, PostBack(i, false));
    assert t.q == [ConnectDone(s1.threads[i].gen, s1.threads[i].pc.result)];
    hide Next;
    hide Enabled;
    s' := FailureShows(s, t);
  }

  lemma UnsafeWorker(s: Sys, i: nat) returns (s': Sys)
    requires Facing(s) && Lone(s) && i < |s.threads| && s.threads[i].Worker?
    requires !Harmless(s.m.opGen, s.ctxDone, Hush(s, |s.q|), s.threads[i])
    ensures Leads(s, s') && s'.shut && Broken(s')
  {
    hide Leads;
    hide Lone;
    hide Broken;
    var t := s.threads[i];
    if t.pc.Unwind? || (t.pc.Deliver? && t.pc.result.err.Some?) {
      s' := WorkerShows(s, i);
    } else if s.ctxDone {
      LeadsSelf(s);
      s' := SuccessLost(s, s, i);
    } else {
      CancelledIffStale(s, i);
      s' := WorkerLost(s, i);
    }
  }

  lemma UnsafeReport(s: Sys, j: nat) returns (s': Sys)
    requires Facing(s) && Lone(s) && j < |s.q| && s.q[j].ConnectDone? && !HarmlessReport(s, j)
    ensures Leads(s, s') && s'.shut && Broken(s')
  {
    hide Leads;
    hide Lone;
    hide Broken;
    hide Facing;
    if s.q[j].result.err.None? {
      s' := ReportLost(s, j);
    } else {
      s' := ReportShows(s, j);
    }
  }

  /** With no connect about there is nobody to do harm. */
  lemma CalmIsTame(s: Sys, lost: bool)
    requires Calm(s, lost)
    ensures Tame(s)
  {
    hide Gather;
  }

  lemma LoneLosesNone(s: Sys)
    requires Lone(s) || Calm(s, false)
    ensures forall c :: 0 <= c < |s.kids| && s.kids[c].stops == 0 ==> c in Owned(s)
  {
    hide Gather;
    assert KidsOk(s.kids) && Owned(s) == Open(s.kids);
    hide Owned;
    forall c | 0 <= c < |s.kids| && s.kids[c].stops == 0 ensures c in Owned(s) {
      assert c == |s.kids| - 1;
    }
  }

  lemma Unsafe(s: Sys) returns (s': Sys)
    requires Facing(s) && !ShutSafe(s)
    ensures Leads(s, s') && s'.shut && Broken(s')
  {
    hide Leads;
    hide Lone;
    hide Calm;
    hide Broken;
    if Lone(s) {
      LoneLosesNone(s);
      hide Facing;
      if t :| t in s.threads && t.Worker? && !Harmless(s.m.opGen, s.ctxDone, Hush(s, |s.q|), t) {
        var i :| 0 <= i < |s.threads| && s.threads[i] == t;
        s' := UnsafeWorker(s, i);
      } else {
        var j :| 0 <= j < |s.q| && s.q[j].ConnectDone? && !HarmlessReport(s, j);
        s' := UnsafeReport(s, j);
      }
    } else {
      UnsafeIsLost(s);
      LeadsSelf(s);
      s' := LostForGood(s, s);
    }
  }

  /** With no connect about, only a child that was lost before can spoil it; then the context is done. */
  lemma UnsafeIsLost(s: Sys)
    requires Facing(s) && !ShutSafe(s) && !Lone(s)
    ensures Calm(s, true) && LostKid(s) && s.ctxDone
  {
    hide Lone;
    hide Calm;
    if Calm(s, false) {
      CalmIsTame(s, false);
      LoneLosesNone(s);
    } else {
      CalmIsTame(s, true);
    }
  }

  // ---------- from a safe state ----------

  lemma SafeStart(s: Sys)
    requires Facing(s) && ShutSafe(s)
    ensures Lame(s) || Calm(s, false)
  {
    hide Lone;
    hide Tame;
    if Calm(s, true) {
      NothingLost(s);
    }
  }

  lemma NothingLost(s: Sys)
    requires Calm(s, true) && ShutSafe(s)
    ensures Calm(s, false)
  {
    hide Gather;
    hide Tame;
    CalmFree(s);
    hide Owned;
    assert Open(s.kids) == [];
  }

  lemma SafeIsClean(s: Sys, s': Sys)
    requires Facing(s) && ShutSafe(s) && Leads(s, s') && s'.shut
    ensures CleanedUp(s')
  {
    SafeStart(s);
    hide Facing;
    hide ShutSafe;
    hide Lame;
    hide Calm;
    hide CleanedUp;
    hide Next;
    hide Enabled;
    hide NoSpawn;
    var states: seq<Sys>, labels: seq<Label> :|
      && IsRun(states, labels) && states[0] == s && Last(states) == s'
      && forall i :: 0 <= i < |states| ==> NoSpawn(states[i].todo);
    if Lame(s) {
      RunLame(states, labels);
    } else {
      RunCalm(states, labels);
    }
    if Lame(s') {
      LameEnd(s');
    } else {
      CalmEnd(s');
    }
  }

  // ---------- the theorem ----------

  /**
   * Take any state of any daemon run in which shutdown has not been handled and the actor is between two
   * commands: Shutdown may be anywhere in the queue or not posted yet, the context alive or done, the drain
   * begun or not. Every continuation that starts no connect ends cleaned up once shutdown was handled if and
   * only if no child has been lost and the outstanding attempt, should there be one, can do no more harm.
   * If not, some continuation ends with a last post other than Disconnected, or with a child that was never
   * stopped and that nobody owns.
   */
  lemma ShutdownCleansUpIff(states: seq<Sys>, labels: seq<Label>)
    requires IsDaemonRun(states, labels) && Idle(Last(states)) && !Last(states).shut
    ensures (forall s' :: Leads(Last(states), s') && s'.shut ==> CleanedUp(s')) <==> ShutSafe(Last(states))
    ensures !ShutSafe(Last(states)) ==> exists s' :: Leads(Last(states), s') && s'.shut && Broken(s')
  {
    hide Next;
    hide Enabled;
    hide Leads;
    hide CleanedUp;
    hide Broken;
    hide Facing;
    hide ShutSafe;
    var s := Last(states);
    FacingFrom(states, labels);
    if ShutSafe(s) {
      forall s' | Leads(s, s') && s'.shut ensures CleanedUp(s') {
        SafeIsClean(s, s');
      }
    } else {
      var s' := Unsafe(s);
      BrokenIsNotClean(s');
    }
  }
}
