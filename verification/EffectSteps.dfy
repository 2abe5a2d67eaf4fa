/** Carrying out a pending effect keeps the invariant. */
module EffectSteps {
  import opened Base
  import opened Tunnel
  import opened Handlers
  import opened WorkerSteps
  import opened TunnelSystem
  import opened TunnelInvariant
  import opened HandlerEffects

  // ---------- carrying out an effect ----------

  /** The gathers over the pending effects, with the oldest split off. */
  lemma TodoHead(s: Sys)
    requires s.todo != []
    ensures Gather(s.todo, FxTokens) == FxTokens(s.todo[0]) + Gather(s.todo[1..], FxTokens)
    ensures Gather(s.todo, FxStacks) == FxStacks(s.todo[0]) + Gather(s.todo[1..], FxStacks)
    ensures Gather(s.todo, FxStops) == FxStops(s.todo[0]) + Gather(s.todo[1..], FxStops)
    ensures Gather(s.todo, FxPosts) == FxPosts(s.todo[0]) + Gather(s.todo[1..], FxPosts)
    ensures FxTokens(s.todo[0]) == [] ==> Gather(s.todo, FxTokens) == Gather(s.todo[1..], FxTokens)
    ensures FxStacks(s.todo[0]) == [] ==> Gather(s.todo, FxStacks) == Gather(s.todo[1..], FxStacks)
    ensures FxPosts(s.todo[0]) == [] ==> Gather(s.todo, FxPosts) == Gather(s.todo[1..], FxPosts)
  {
    hide Gather;
    GatherHead(s.todo, FxTokens);
    GatherHead(s.todo, FxStacks);
    GatherHead(s.todo, FxStops);
    GatherHead(s.todo, FxPosts);
  }

  lemma NoLaterStop(todo: seq<Effect>)
    requires todo != [] && StopFirst(todo)
    ensures Gather(todo[1..], FxStops) == [] && StopFirst(todo[1..])
  {
    hide Gather;
    GatherNone(todo[1..], FxStops);
  }

  lemma LogAppend(log: seq<Event>, e: Event)
    ensures Gather(log + [e], EventPosts) == Gather(log, EventPosts) + EventPosts(e)
    ensures Gather(log + [e], EventLife) == Gather(log, EventLife) + EventLife(e)
    ensures EventPosts(e) == [] ==> Gather(log + [e], EventPosts) == Gather(log, EventPosts)
    ensures EventLife(e) == [] ==> Gather(log + [e], EventLife) == Gather(log, EventLife)
  {
    hide Gather;
    GatherAppend(log, e, EventPosts);
    GatherAppend(log, e, EventLife);
  }

  lemma ThreadAppend(ts: seq<Thread>, t: Thread)
    ensures Gather(ts + [t], ThreadTokens) == Gather(ts, ThreadTokens) + ThreadTokens(t)
    ensures Gather(ts + [t], ThreadStacks) == Gather(ts, ThreadStacks) + ThreadStacks(t)
    ensures t.Revert? ==> Gather(ts + [t], ThreadTokens) == Gather(ts, ThreadTokens)
    ensures t.Revert? ==> Gather(ts + [t], ThreadStacks) == Gather(ts, ThreadStacks)
  {
    hide Gather;
    GatherAppend(ts, t, ThreadTokens);
    GatherAppend(ts, t, ThreadStacks);
  }

  lemma QueueAppend(q: seq<Cmd>, c: Cmd)
    ensures Gather(q + [c], CmdTokens) == Gather(q, CmdTokens) + CmdTokens(c)
    ensures Gather(q + [c], CmdStacks) == Gather(q, CmdStacks) + CmdStacks(c)
    ensures CmdTokens(c) == [] ==> Gather(q + [c], CmdTokens) == Gather(q, CmdTokens)
    ensures CmdStacks(c) == [] ==> Gather(q + [c], CmdStacks) == Gather(q, CmdStacks)
  {
    hide Gather;
    GatherAppend(q, c, CmdTokens);
    GatherAppend(q, c, CmdStacks);
  }

  /** A post leaves the pending list and enters the log, at the same place in the trace. */
  lemma PostMoves(log: seq<ConnStatus>, p: seq<ConnStatus>, rest: seq<ConnStatus>)
    ensures [IDLE] + (log + p) + rest == [IDLE] + log + (p + rest)
  {
  }

  lemma ExecQuietView(s: Sys, dead: bool)
    requires Enabled(s, Exec(dead))
    requires s.todo[0].Reply? || s.todo[0].CloseDone? || s.todo[0].Post?
    ensures ViewOf(ExecOne(s, dead)) == ViewOf(s)
  {
    hide Gather;
    var s' := ExecOne(s, dead);
    var e := if s.todo[0].Reply? then Replied(s.todo[0].ch, s.todo[0].code)
             else if s.todo[0].Post? then Posted(s.todo[0].status) else DoneClosed;
    TodoHead(s);
    LogAppend(s.log, e);
    PostMoves(Gather(s.log, EventPosts), FxPosts(s.todo[0]), Gather(s.todo[1..], FxPosts));
    assert EventPosts(e) == FxPosts(s.todo[0]);
    assert Tokens(s') == Tokens(s);
    assert Owned(s') == Owned(s);
  }

  /** Moving an item between two lists with nothing in between. */
  lemma Move<T>(a: seq<T>, mid: seq<T>, x: seq<T>, b: seq<T>)
    requires mid == []
    ensures (a + x) + mid + b == a + mid + (x + b)
  {
  }

  lemma ExecSpawnView(s: Sys, dead: bool)
    requires Enabled(s, Exec(dead)) && |Tokens(s)| <= 1
    requires s.todo[0].Spawn? || s.todo[0].SpawnTeardown?
    ensures ViewOf(ExecOne(s, dead)) == ViewOf(s)
    ensures Gather(s.threads, ThreadTokens) == [] && Gather(s.q, CmdTokens) == []
  {
    hide Gather;
    var s' := ExecOne(s, dead);
    var e := s.todo[0];
    var t := if e.Spawn? then Worker(e.gen, e.id, false, PreCheck) else Teardown(e.gen, e.stack, false);
    TodoHead(s);
    assert FxTokens(e) == ThreadTokens(t) && |FxTokens(e)| == 1 && FxStacks(e) == ThreadStacks(t);
    StacksNeedTokens(s.threads, s.q);
    ThreadAppend(s.threads, t);
    Move(Gather(s.threads, ThreadTokens), Gather(s.q, CmdTokens), ThreadTokens(t), Gather(s'.todo, FxTokens));
    Move(Gather(s.threads, ThreadStacks), Gather(s.q, CmdStacks), ThreadStacks(t), Gather(s'.todo, FxStacks));
  }

  lemma CancelSame(ts: seq<Thread>, gen: nat)
    ensures Gather(CancelWorkers(ts, gen), ThreadTokens) == Gather(ts, ThreadTokens)
    ensures Gather(CancelWorkers(ts, gen), ThreadStacks) == Gather(ts, ThreadStacks)
    ensures Revert in ts ==> Revert in CancelWorkers(ts, gen)
    ensures forall t :: t in CancelWorkers(ts, gen) && t.Worker? ==> t in ts || t.(cancelled := false) in ts
  {
    hide Gather;
    var us := CancelWorkers(ts, gen);
    GatherPointwise(us, ts, ThreadTokens);
    GatherPointwise(us, ts, ThreadStacks);
    if Revert in ts {
      var i :| 0 <= i < |ts| && ts[i] == Revert;
      assert us[i] == Revert;
    }
    forall t | t in us && t.Worker?
      ensures t in ts || t.(cancelled := false) in ts
    {
      var i :| 0 <= i < |us| && us[i] == t;
      assert ts[i] == t || ts[i] == t.(cancelled := false);
    }
  }

  lemma ExecCancelView(s: Sys, dead: bool)
    requires Enabled(s, Exec(dead)) && s.todo[0].Cancel?
    ensures ViewOf(ExecOne(s, dead)) == ViewOf(s)
  {
    hide Gather;
    TodoHead(s);
    CancelSame(s.threads, s.todo[0].gen);
  }

  /** The stop of the one open child returns. */
  lemma {:induction false} StopOpen(kids: seq<Kid>, c: ChildId, alive: bool)
    requires KidsOk(kids) && Open(kids) == [c]
    ensures c == |kids| - 1 && kids[c].stops == 0
    ensures var kids' := kids[c := Kid(alive, kids[c].stops + 1)];
      KidsOk(kids') && Open(kids') == [] && Alternating(kids') == Alternating(kids) + [Stopped(c)]
  {
    hide Gather;
    var kids' := kids[c := Kid(alive, kids[c].stops + 1)];
    assert kids'[..|kids| - 1] == kids[..|kids| - 1];
  }

  /** The view after the stop of its one owned child. */
  lemma StopView(v: View, v': View, c: ChildId, alive: bool)
    requires Core(v) && v.owned == [c]
    requires v'.m == v.m && v'.tokens == v.tokens && v'.trace == v.trace && v'.owned == []
    requires c < |v.kids| && v'.kids == v.kids[c := Kid(alive, v.kids[c].stops + 1)]
    requires v'.life == v.life + [Stopped(c)]
    ensures Core(v')
  {
    hide Gather;
    StopOpen(v.kids, c, alive);
  }

  /** Dropping the only element of a join. */
  lemma DropOnly<T>(a: seq<T>, b: seq<T>, x: T, c: seq<T>, d: seq<T>)
    requires |a + b + ([x] + c) + d| <= 1
    ensures a + b + ([x] + c) + d == [x] && a + b + c + d == []
  {
    hide Gather;
    assert |a + b + ([x] + c) + d| == |a| + |b| + 1 + |c| + |d|;
  }

  lemma ExecStopOwned(s: Sys, dead: bool)
    requires Enabled(s, Exec(dead)) && s.todo[0].StopChild? && |Owned(s)| <= 1
    ensures Owned(s) == [s.todo[0].child] && Owned(ExecOne(s, dead)) == []
  {
    hide Gather;
    TodoHead(s);
    DropOnly(Gather(s.threads, ThreadStacks), Gather(s.q, CmdStacks), s.todo[0].child,
             Gather(s.todo[1..], FxStacks), OptionSeq(s.m.armed));
  }

  lemma ExecStopTrace(s: Sys, dead: bool)
    requires Enabled(s, Exec(dead)) && s.todo[0].StopChild?
    ensures Trace(ExecOne(s, dead)) == Trace(s) && Tokens(ExecOne(s, dead)) == Tokens(s)
  {
    hide Gather;
    TodoHead(s);
    LogAppend(s.log, Stopped(s.todo[0].child));
  }

  lemma ExecStopKids(s: Sys, dead: bool)
    requires Enabled(s, Exec(dead)) && s.todo[0].StopChild?
    ensures var s', c := ExecOne(s, dead), s.todo[0].child;
      && s'.m == s.m && s'.kids == s.kids[c := Kid(s.kids[c].alive && !dead, s.kids[c].stops + 1)]
      && Gather(s'.log, EventLife) == Gather(s.log, EventLife) + [Stopped(c)]
  {
    hide Gather;
    LogAppend(s.log, Stopped(s.todo[0].child));
  }

  lemma ExecStopView(s: Sys, dead: bool)
    requires Core(ViewOf(s)) && Enabled(s, Exec(dead)) && s.todo[0].StopChild?
    ensures Core(ViewOf(ExecOne(s, dead)))
  {
    hide Gather;
    var c := s.todo[0].child;
    var v, v' := ViewOf(s), ViewOf(ExecOne(s, dead));
    assert |v.owned| <= 1;
    ExecStopOwned(s, dead);
    ExecStopTrace(s, dead);
    ExecStopKids(s, dead);
    StopView(v, v', c, s.kids[c].alive && !dead);
  }

  lemma ExecCore(s: Sys, dead: bool)
    requires Core(ViewOf(s)) && Enabled(s, Exec(dead))
    ensures Core(ViewOf(ExecOne(s, dead)))
  {
    hide Gather;
    match s.todo[0] {
      case Reply(_, _) => ExecQuietView(s, dead);
      case CloseDone => ExecQuietView(s, dead);
      case Post(_) => ExecQuietView(s, dead);
      case Spawn(_, _) => AtMostOneToken(s.m, Tokens(s)); ExecSpawnView(s, dead);
      case SpawnTeardown(_, _) => AtMostOneToken(s.m, Tokens(s)); ExecSpawnView(s, dead);
      case Cancel(_) => ExecCancelView(s, dead);
      case StopChild(_) => ExecStopView(s, dead);
    }
  }

  /** New goroutines that have announced nothing, and none lost, leave the queue's promises alone. */
  lemma LocalThreads(s: Sys, s': Sys)
    requires Local(s) && s'.m == s.m && s'.q == s.q && s'.shutPosted == s.shutPosted && s'.ctxDone == s.ctxDone
    requires Revert in s.threads ==> Revert in s'.threads
    requires forall t :: t in s'.threads ==>
      t in s.threads || (ThreadOk(t) && (t.Worker? ==> t.(cancelled := false) in s.threads || !PastAnnounce(t.pc)))
    ensures Local(s')
  {
  }

  lemma ExecLocal(s: Sys, dead: bool)
    requires Local(s) && Enabled(s, Exec(dead))
    ensures Local(ExecOne(s, dead))
  {
    hide Gather;
    hide Local;
    if s.todo[0].Cancel? {
      CancelSame(s.threads, s.todo[0].gen);
      CancelThreadsOk(s, s.todo[0].gen);
      LocalThreads(s, s.(todo := s.todo[1..], threads := CancelWorkers(s.threads, s.todo[0].gen)));
    } else {
      ExecStarts(s, dead);
      hide ExecOne;
      assert forall t :: t in Started(s.todo[0]) ==> ThreadOk(t) && (t.Worker? ==> !PastAnnounce(t.pc));
      LocalThreads(s, ExecOne(s, dead));
    }
  }

  /** The goroutine that an effect starts, if it starts one. */
  function Started(e: Effect): seq<Thread> {
    match e
    case Spawn(gen, id) => [Worker(gen, id, false, PreCheck)]
    case SpawnTeardown(gen, stack) => [Teardown(gen, stack, false)]
    case _ => []
  }

  lemma ExecStarts(s: Sys, dead: bool)
    requires Enabled(s, Exec(dead)) && !s.todo[0].Cancel?
    ensures var s' := ExecOne(s, dead);
      && s'.m == s.m && s'.q == s.q && s'.shutPosted == s.shutPosted && s'.ctxDone == s.ctxDone
      && s'.threads == s.threads + Started(s.todo[0])
  {
    hide CancelWorkers;
  }

  lemma CancelThreadsOk(s: Sys, gen: nat)
    requires Local(s)
    ensures forall t :: t in CancelWorkers(s.threads, gen) ==> ThreadOk(t) && (t.Worker? || t in s.threads)
  {
    var us := CancelWorkers(s.threads, gen);
    forall t | t in us ensures ThreadOk(t) && (t.Worker? || t in s.threads) {
      var i :| 0 <= i < |us| && us[i] == t;
      assert s.threads[i] in s.threads && t == CancelWorker(s.threads[i], gen);
    }
  }

  lemma ExecAlone(s: Sys, dead: bool)
    requires CleanupAlone(s) && StopFirst(s.todo) && Enabled(s, Exec(dead))
    ensures CleanupAlone(ExecOne(s, dead)) && StopFirst(ExecOne(s, dead).todo)
  {
    hide Gather;
    NoLaterStop(s.todo);
  }

  lemma ExecKeeps(s: Sys, dead: bool)
    requires Inv(s) && Enabled(s, Exec(dead))
    ensures Inv(Next(s, Exec(dead)))
  {
    hide Gather;
    ExecCore(s, dead);
    ExecLocal(s, dead);
    ExecAlone(s, dead);
    assert Next(s, Exec(dead)) == ExecOne(s, dead);
  }

  lemma ExecFlags(s: Sys, dead: bool)
    requires Enabled(s, Exec(dead))
    ensures var t := ExecOne(s, dead);
      t.shut == s.shut && t.ctxDone == s.ctxDone && t.mode == s.mode && t.shutPosted == s.shutPosted && t.q == s.q
  {
    hide CancelWorkers;
  }

  lemma WorkerFlags(s: Sys, i: nat, o: Outcome, dead: bool)
    requires Enabled(s, WorkerStep(i, o, dead))
    ensures var t := WorkerMoves(s, i, o, dead);
      && t.shut == s.shut && t.ctxDone == s.ctxDone && t.mode == s.mode && t.shutPosted == s.shutPosted
      && (t.q == s.q || t.q == s.q + [ConnectProgress(s.threads[i].gen, Connecting)])
  {
    hide WorkerNext;
  }
}
