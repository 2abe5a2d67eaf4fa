/** Callers, timers, dying children and goroutines keep the invariant. */
module GoroutineSteps {
  import opened Base
  import opened Tunnel
  import opened Handlers
  import opened WorkerSteps
  import opened TunnelSystem
  import opened TunnelInvariant
  import opened HandlerEffects
  import opened EffectSteps

  // ---------- callers, timers and dying children ----------

  /** Appending a command that is not a success report keeps the announcement order. */
  lemma LocalAppend(s: Sys, c: Cmd)
    requires Local(s) && CmdOk(c) && !c.ChildExit? && (c.Shutdown? ==> s.shutPosted)
    requires c.ConnectDone? && c.result.err.None? && s.m.conn.state == Validating ==>
               ConnectProgress(s.m.opGen, Connecting) in s.q
    ensures Local(s.(q := s.q + [c]))
  {
    hide Gather;
    var q := s.q + [c];
    if s.m.conn.state == Validating {
      forall j | 0 <= j < |q| && q[j].ConnectDone? && q[j].result.err.None?
        ensures ConnectProgress(s.m.opGen, Connecting) in q[..j]
      {
        if j < |s.q| {
          assert q[j] == s.q[j] && q[..j] == s.q[..j];
        } else {
          assert q[..j] == s.q;
        }
      }
    }
  }

  /** A silent command enters the queue. */
  lemma EnqueueKeeps(s: Sys, c: Cmd, s': Sys)
    requires Inv(s) && CmdOk(c) && !c.ChildExit? && CmdTokens(c) == [] && CmdStacks(c) == []
    requires s' == s.(q := s.q + [c], nextCh := s'.nextCh, shutPosted := s'.shutPosted, passed := s'.passed)
    requires s'.shutPosted == (s.shutPosted || c.Shutdown?)
    ensures Inv(s')
  {
    hide Gather;
    QueueAppend(s.q, c);
    LocalAppend(s.(shutPosted := s'.shutPosted), c);
    assert Local(s');
    assert ViewOf(s') == ViewOf(s);
  }

  lemma NextCall(s: Sys, r: Request)
    requires Enabled(s, Call(r))
    ensures var s' := Next(s, Call(r));
      s' == s.(q := s.q + [RequestCmd(r, s.nextCh)], nextCh := s.nextCh + 1, passed := s'.passed)
  {
  }

  lemma CallKeeps(s: Sys, r: Request)
    requires Inv(s) && Enabled(s, Call(r))
    ensures Inv(Next(s, Call(r)))
  {
    hide Gather;
    NextCall(s, r);
    EnqueueKeeps(s, RequestCmd(r, s.nextCh), Next(s, Call(r)));
  }

  /** Switch calls that have not sent anything yet are nobody's business. */
  lemma SendersKeep(s: Sys, s': Sys)
    requires Inv(s) && s' == s.(passed := s'.passed)
    ensures Inv(s')
  {
    hide Gather;
    assert ViewOf(s') == ViewOf(s);
    assert Local(s');
  }

  lemma CallShutdownKeeps(s: Sys)
    requires Inv(s) && Enabled(s, CallShutdown)
    ensures Inv(Next(s, CallShutdown))
  {
    hide Gather;
    var s' := s.(q := s.q + [Shutdown], shutPosted := true);
    EnqueueKeeps(s, Shutdown, s');
    assert Next(s, CallShutdown) == s';
  }

  lemma TimerFiresKeeps(s: Sys)
    requires Inv(s) && Enabled(s, TimerFires)
    ensures Inv(Next(s, TimerFires))
  {
    hide Gather;
    var s' := Next(s, TimerFires);
    ThreadAppend(s.threads, Revert);
    assert ViewOf(s') == ViewOf(s).(m := s'.m);
    TimerLocal(s, s');
    hide Local;
  }

  lemma TimerLocal(s: Sys, s': Sys)
    requires Local(s)
    requires s' == s.(m := s.m.(timer := Fired), threads := if s.ctxDone then s.threads else s.threads + [Revert])
    ensures Local(s')
  {
    hide Gather;
    assert !s.ctxDone ==> s'.threads[|s.threads|] == Revert;
  }

  lemma {:induction false} AliveIsSilent(kids: seq<Kid>, c: ChildId, alive: bool)
    requires c < |kids|
    ensures var kids' := kids[c := kids[c].(alive := alive)];
      Open(kids') == Open(kids) && Alternating(kids') == Alternating(kids) && (KidsOk(kids) ==> KidsOk(kids'))
  {
    hide Gather;
    var kids' := kids[c := kids[c].(alive := alive)];
    if c < |kids| - 1 {
      AliveIsSilent(kids[..|kids| - 1], c, alive);
      assert kids'[..|kids| - 1] == kids[..|kids| - 1][c := kids[c].(alive := alive)];
    } else {
      assert kids'[..|kids| - 1] == kids[..|kids| - 1];
    }
  }

  lemma ChildDiesKeeps(s: Sys, c: ChildId)
    requires Inv(s) && Enabled(s, ChildDies(c))
    ensures Inv(Next(s, ChildDies(c)))
  {
    hide Gather;
    hide LegalTrace;
    hide FieldsOk;
    hide TokensOk;
    var s' := s.(kids := s.kids[c := s.kids[c].(alive := false)]);
    AliveIsSilent(s.kids, c, false);
    assert ViewOf(s') == ViewOf(s).(kids := s'.kids);
    assert Core(ViewOf(s'));
    hide Core;
    assert Local(s');
  }

  // ---------- goroutines ----------

  /** The one thread that holds the token accounts for every token and every stack but the armed one. */
  lemma SoloThread(s: Sys, i: nat)
    requires Core(ViewOf(s)) && CleanupAlone(s)
    requires i < |s.threads| && ThreadTokens(s.threads[i]) != []
    ensures Tokens(s) == ThreadTokens(s.threads[i])
    ensures Gather(s.q, CmdTokens) == [] && Gather(s.todo, FxTokens) == [] && Gather(s.todo, FxStops) == []
    ensures Gather(s.q, CmdStacks) == [] && Gather(s.todo, FxStacks) == [] && s.m.armed == None
    ensures Gather(s.threads[..i], ThreadTokens) == [] && Gather(s.threads[i + 1..], ThreadTokens) == []
    ensures Gather(s.threads[..i], ThreadStacks) == [] && Gather(s.threads[i + 1..], ThreadStacks) == []
    ensures Owned(s) == ThreadStacks(s.threads[i])
    ensures Gather(Without(s.threads, i), ThreadTokens) == [] && Gather(Without(s.threads, i), ThreadStacks) == []
  {
    hide Gather;
    AtMostOneToken(s.m, Tokens(s));
    GatherHas(s.threads, s.threads[i], ThreadTokens);
    GatherSolo(s.threads, i, ThreadTokens, ThreadStacks);
    StacksNeedTokens([], s.q);
    TodoSilent(s.todo);
  }

  lemma TodoSilent(todo: seq<Effect>)
    requires Gather(todo, FxTokens) == [] && Gather(todo, FxStops) == []
    ensures Gather(todo, FxStacks) == []
  {
    hide Gather;
    forall e | e in todo ensures FxStacks(e) == [] {
      GatherHas(todo, e, FxTokens);
      GatherHas(todo, e, FxStops);
    }
    GatherNone(todo, FxStacks);
  }

  /** The gathers after the token's holder has changed. */
  lemma SoloUpdate(s: Sys, i: nat, t: Thread)
    requires Core(ViewOf(s)) && CleanupAlone(s)
    requires i < |s.threads| && ThreadTokens(s.threads[i]) != [] && ThreadTokens(t) == ThreadTokens(s.threads[i])
    ensures var s' := s.(threads := s.threads[i := t]);
      Tokens(s') == Tokens(s) && Owned(s') == ThreadStacks(t) && CleanupAlone(s')
  {
    hide Gather;
    SoloThread(s, i);
    GatherUpdate(s.threads, i, t, ThreadTokens);
    GatherUpdate(s.threads, i, t, ThreadStacks);
  }

  /** A step inside one goroutine that neither spawns nor stops nor announces. */
  lemma QuietThreadStep(s: Sys, i: nat, t: Thread)
    requires Inv(s) && i < |s.threads| && ThreadTokens(s.threads[i]) != []
    requires ThreadTokens(t) == ThreadTokens(s.threads[i]) && ThreadStacks(t) == ThreadStacks(s.threads[i])
    requires ThreadOk(t) && (t.Worker? && PastAnnounce(t.pc) ==> s.threads[i].Worker? && PastAnnounce(s.threads[i].pc))
    ensures Inv(s.(threads := s.threads[i := t]))
  {
    hide Gather;
    var s' := s.(threads := s.threads[i := t]);
    SoloThread(s, i);
    SoloUpdate(s, i, t);
    assert ViewOf(s') == ViewOf(s);
    LocalUpdate(s, i, t);
  }

  /** Replacing one thread keeps the order of announcements if it was past its own already. */
  lemma LocalUpdate(s: Sys, i: nat, t: Thread)
    requires Local(s) && i < |s.threads| && !s.threads[i].Revert? && ThreadOk(t)
    requires t.Worker? && PastAnnounce(t.pc) && s.m.conn.state == Validating ==>
      (s.threads[i].Worker? && PastAnnounce(s.threads[i].pc)) || ConnectProgress(s.m.opGen, Connecting) in s.q
    ensures Local(s.(threads := s.threads[i := t]))
  {
    var ts := s.threads[i := t];
    if Revert in s.threads {
      var j :| 0 <= j < |s.threads| && s.threads[j] == Revert;
      assert ts[j] == Revert;
    }
    assert forall u :: u in ts ==> u == t || u in s.threads;
  }

  /** The worker posts its announcement and moves on in one step. */
  lemma AnnounceKeeps(s: Sys, i: nat, t: Thread)
    requires Inv(s) && i < |s.threads| && s.threads[i].Worker? && s.threads[i].pc.Announce?
    requires t == s.threads[i].(pc := Preflight)
    ensures Inv(s.(threads := s.threads[i := t], q := s.q + [ConnectProgress(t.gen, Connecting)]))
  {
    hide Gather;
    var note := ConnectProgress(t.gen, Connecting);
    SoloThread(s, i);
    assert s.m.conn.state == Validating ==> t.gen == s.m.opGen;
    EnqueueKeeps(s, note, s.(q := s.q + [note]));
    var s1 := s.(q := s.q + [note]);
    SoloThread(s1, i);
    SoloUpdate(s1, i, t);
    var s' := s1.(threads := s1.threads[i := t]);
    assert ViewOf(s') == ViewOf(s1);
    LocalUpdate(s1, i, t);
  }

  lemma {:induction false} SpawnKids(kids: seq<Kid>)
    requires KidsOk(kids) && Open(kids) == []
    ensures var kids' := kids + [Kid(true, 0)];
      KidsOk(kids') && Open(kids') == [|kids|] && Alternating(kids') == Alternating(kids) + [Spawned(|kids|)]
  {
    var kids' := kids + [Kid(true, 0)];
    assert kids'[..|kids|] == kids;
  }

  /** The worker spawns a child: nothing unstopped is left, and it becomes the child's one owner. */
  lemma SpawnView(v: View, v': View)
    requires Core(v) && v.owned == []
    requires v' == v.(owned := [|v.kids|], kids := v.kids + [Kid(true, 0)], life := v.life + [Spawned(|v.kids|)])
    ensures Core(v')
  {
    SpawnKids(v.kids);
  }

  lemma ForkKeeps(s: Sys, i: nat, t: Thread)
    requires Inv(s) && i < |s.threads| && s.threads[i].Worker? && s.threads[i].pc.Fork?
    requires t == s.threads[i].(pc := AwaitAlive(|s.kids|))
    ensures Open(s.kids) == []
    ensures Inv(s.(threads := s.threads[i := t], kids := s.kids + [Kid(true, 0)], log := s.log + [Spawned(|s.kids|)]))
  {
    hide Gather;
    var s' := s.(threads := s.threads[i := t], kids := s.kids + [Kid(true, 0)], log := s.log + [Spawned(|s.kids|)]);
    SoloThread(s, i);
    SoloUpdate(s, i, t);
    LogAppend(s.log, Spawned(|s.kids|));
    assert ViewOf(s').tokens == ViewOf(s).tokens && ViewOf(s').owned == [|s.kids|];
    assert ViewOf(s').trace == ViewOf(s).trace;
    SpawnView(ViewOf(s), ViewOf(s'));
    LocalUpdate(s, i, t);
    assert Local(s');
  }

  /** The holder of the token runs its stack. */
  lemma ThreadStopKeeps(s: Sys, i: nat, t: Thread, c: ChildId, dead: bool)
    requires Inv(s) && i < |s.threads| && ThreadTokens(s.threads[i]) != []
    requires ThreadStacks(s.threads[i]) == [c] && c < |s.kids|
    requires ThreadTokens(t) == ThreadTokens(s.threads[i]) && ThreadStacks(t) == []
    requires ThreadOk(t) && (t.Worker? ==> !PastAnnounce(t.pc))
    ensures Inv(StopReturns(s.(threads := s.threads[i := t]), c, dead))
  {
    hide Gather;
    var s' := StopReturns(s.(threads := s.threads[i := t]), c, dead);
    SoloThread(s, i);
    SoloUpdate(s, i, t);
    LogAppend(s.log, Stopped(c));
    assert ViewOf(s').owned == [] && ViewOf(s').trace == ViewOf(s).trace;
    StopView(ViewOf(s), ViewOf(s'), c, s.kids[c].alive && !dead);
    LocalUpdate(s, i, t);
    assert Local(s');
  }

  /** A worker step that stays inside the worker keeps its token, its stack and its promise. */
  lemma InsideWorker(t: Thread, o: Outcome, n: ChildId)
    requires t.Worker? && ThreadOk(t) && !t.pc.Unwind? && !t.pc.Deliver?
    requires !(o.Pass? && (t.pc.Announce? || t.pc.Fork?))
    ensures var t' := t.(pc := WorkerNext(t.id, t.pc, o, n));
      && ThreadTokens(t') == ThreadTokens(t) != [] && ThreadStacks(t') == ThreadStacks(t)
      && ThreadOk(t') && (PastAnnounce(t'.pc) ==> PastAnnounce(t.pc))
  {
  }

  lemma ThreadHolds(s: Sys, i: nat)
    requires Inv(s) && i < |s.threads|
    ensures ThreadOk(s.threads[i])
  {
    hide Core;
    assert s.threads[i] in s.threads;
  }

  /** The worker's step does not end it before a post that it can only give up. */
  predicate StaysOn(s: Sys, i: nat, o: Outcome)
    requires i < |s.threads| && s.threads[i].Worker?
  {
    var t := s.threads[i];
    !s.ctxDone || !AtPost(t.(pc := WorkerNext(t.id, t.pc, o, |s.kids|)))
  }

  lemma WorkerInsideKeeps(s: Sys, i: nat, o: Outcome, dead: bool)
    requires Inv(s) && Enabled(s, WorkerStep(i, o, dead)) && !s.threads[i].pc.Unwind?
    requires !(o.Pass? && (s.threads[i].pc.Announce? || s.threads[i].pc.Fork?)) && StaysOn(s, i, o)
    ensures Inv(WorkerMoves(s, i, o, dead))
  {
    hide Gather;
    hide Inv;
    hide WorkerNext;
    var t := s.threads[i];
    ThreadHolds(s, i);
    InsideWorker(t, o, |s.kids|);
    hide ThreadOk;
    hide Allowed;
    QuietThreadStep(s, i, t.(pc := WorkerNext(t.id, t.pc, o, |s.kids|)));
  }

  lemma WorkerStepKeeps(s: Sys, i: nat, o: Outcome, dead: bool)
    requires Inv(s) && Enabled(s, WorkerStep(i, o, dead)) && StaysOn(s, i, o)
    ensures Inv(WorkerMoves(s, i, o, dead))
  {
    hide Gather;
    hide Inv;
    var t := s.threads[i];
    var t' := t.(pc := WorkerNext(t.id, t.pc, o, |s.kids|));
    if t.pc.Announce? && o.Pass? {
      AnnounceKeeps(s, i, t');
    } else if t.pc.Fork? && o.Pass? {
      ForkKeeps(s, i, t');
    } else if t.pc.Unwind? {
      ThreadStopKeeps(s, i, t', t.pc.child, dead);
    } else {
      WorkerInsideKeeps(s, i, o, dead);
    }
  }

  lemma TeardownStopKeeps(s: Sys, i: nat, dead: bool)
    requires Inv(s) && Enabled(s, TeardownStop(i, dead)) && !s.ctxDone
    ensures Inv(Next(s, TeardownStop(i, dead)))
  {
    hide Gather;
    var t := s.threads[i];
    ThreadStopKeeps(s, i, t.(ran := true), t.stack, dead);
  }

  lemma WithoutSame(s: Sys, i: nat)
    requires i < |s.threads|
    ensures Gather(Without(s.threads, i), ThreadTokens)
         == Gather(s.threads[..i], ThreadTokens) + Gather(s.threads[i + 1..], ThreadTokens)
    ensures Gather(Without(s.threads, i), ThreadStacks)
         == Gather(s.threads[..i], ThreadStacks) + Gather(s.threads[i + 1..], ThreadStacks)
    ensures s.threads[i].Revert? ==> Gather(Without(s.threads, i), ThreadTokens) == Gather(s.threads, ThreadTokens)
    ensures s.threads[i].Revert? ==> Gather(Without(s.threads, i), ThreadStacks) == Gather(s.threads, ThreadStacks)
    ensures forall t :: t in Without(s.threads, i) ==> t in s.threads
    ensures Revert in s.threads && !s.threads[i].Revert? ==> Revert in Without(s.threads, i)
  {
    hide Gather;
    GatherSplit(s.threads, i, ThreadTokens);
    GatherSplit(s.threads, i, ThreadStacks);
    if Revert in s.threads && !s.threads[i].Revert? {
      var j :| 0 <= j < |s.threads| && s.threads[j] == Revert;
      assert Revert in s.threads[..i] || Revert in s.threads[i + 1..];
    }
  }

  lemma Padded<T>(x: seq<T>)
    ensures [] + ([] + x) + [] == x && [] + ([] + x) + [] + [] == x
  {
  }

  /** A worker or teardown reports back: its token and stack move into the queue. */
  lemma ReportView(s: Sys, i: nat)
    requires Core(ViewOf(s)) && CleanupAlone(s)
    requires i < |s.threads| && ThreadTokens(s.threads[i]) != [] && PostBackCmd(s.threads[i]).Some?
    requires ThreadOk(s.threads[i])
    ensures var s' := s.(threads := Without(s.threads, i), q := s.q + [PostBackCmd(s.threads[i]).value]);
      ViewOf(s') == ViewOf(s) && CleanupAlone(s')
  {
    hide Gather;
    hide Core;
    hide Without;
    var t, c := s.threads[i], PostBackCmd(s.threads[i]).value;
    SoloThread(s, i);
    QueueAppend(s.q, c);
    assert CmdTokens(c) == ThreadTokens(t) && CmdStacks(c) == ThreadStacks(t);
    Padded(CmdTokens(c));
    Padded(CmdStacks(c));
  }

  /** The revert timer's goroutine posts its command. */
  lemma RevertView(s: Sys, i: nat)
    requires CleanupAlone(s) && i < |s.threads| && s.threads[i].Revert?
    ensures var s' := s.(threads := Without(s.threads, i), q := s.q + [AutoRevert]);
      ViewOf(s') == ViewOf(s) && CleanupAlone(s')
  {
    hide Gather;
    WithoutSame(s, i);
    QueueAppend(s.q, AutoRevert);
  }

  lemma PostBackLocal(s: Sys, i: nat)
    requires Local(s) && Enabled(s, PostBack(i, false))
    ensures Local(s.(threads := Without(s.threads, i), q := s.q + [PostBackCmd(s.threads[i]).value]))
  {
    hide Gather;
    var t, c := s.threads[i], PostBackCmd(s.threads[i]).value;
    var s' := s.(threads := Without(s.threads, i), q := s.q + [c]);
    assert t in s.threads;
    WithoutSame(s, i);
    LocalAppend(s, c);
    assert AutoRevert in s.q ==> AutoRevert in s'.q;
    assert t.Revert? ==> s'.q[|s.q|] == AutoRevert;
  }

  lemma PostBackKeeps(s: Sys, i: nat)
    requires Inv(s) && Enabled(s, PostBack(i, false))
    ensures Inv(Next(s, PostBack(i, false)))
  {
    hide Gather;
    hide Core;
    hide ProgressOk;
    hide TimerOk;
    hide CleanupAlone;
    hide Without;
    assert s.threads[i] in s.threads;
    if s.threads[i].Revert? {
      RevertView(s, i);
    } else {
      ReportView(s, i);
    }
    PostBackLocal(s, i);
  }
}
