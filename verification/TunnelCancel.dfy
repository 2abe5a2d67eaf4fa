/**
 * What giving an attempt up does to its worker: the worker does not pass its next look at the context. It
 * can still fork a child exactly if it was past the last look before the fork when the cancel was carried out.
 */
module TunnelCancel {
  import opened Base
  import opened Tunnel
  import opened Handlers
  import opened WorkerSteps
  import opened TunnelSystem
  import opened TunnelInvariant
  import opened HandlerEffects
  import opened TakeSteps
  import opened GoroutineSteps
  import opened InvariantSteps
  import opened TunnelTheorems

  /** The attempt `gen` is the one the posted state speaks of. */
  predicate Current(m: Actor, gen: nat) {
    gen == m.opGen && (m.conn.state == Validating || m.conn.state == Connecting)
  }

  /** A worker is cancelled, or about to be, exactly if it is not the current attempt's. */
  predicate WorkerOk(m: Actor, todo: seq<Effect>, t: Thread) {
    t.Worker? ==>
      && t.gen <= m.opGen
      && if Current(m, t.gen) then !t.cancelled else t.cancelled || Cancel(t.gen) in todo
  }

  predicate SpawnsOk(m: Actor, todo: seq<Effect>) {
    forall e :: e in todo ==> (e.Spawn? ==> Current(m, e.gen)) && (e.Cancel? ==> !Current(m, e.gen))
  }

  ghost predicate CancelOk(s: Sys) {
    SpawnsOk(s.m, s.todo) && forall t :: t in s.threads ==> WorkerOk(s.m, s.todo, t)
  }

  // ---------- what the handlers spawn and cancel ----------

  lemma ConnectSpawnsCurrent(m: Actor, id: Ulid, to: Option<ChanId>)
    ensures var o := HandleConnect(m, id, to); SpawnsOk(o.m, o.fx)
  {
  }

  lemma DisconnectSpawnsNone(m: Actor, to: Option<ChanId>)
    ensures var o := HandleDisconnect(m, to);
      && (forall e :: e in o.fx ==> !e.Spawn?) && (FieldsOk(m) ==> SpawnsOk(o.m, o.fx))
      && (FieldsOk(m) ==> !Current(o.m, o.m.opGen) && forall e :: e in o.fx && e.Cancel? ==> e.gen < o.m.opGen)
  {
  }

  lemma SwitchSpawnsCurrent(m: Actor, id: Ulid, to: Option<ChanId>)
    requires FieldsOk(m)
    ensures var o := HandleSwitch(m, id, to); SpawnsOk(o.m, o.fx)
  {
    hide HandleConnect;
    hide HandleDisconnect;
    ConnectSpawnsCurrent(m, id, to);
    DisconnectSpawnsNone(m, None);
  }

  lemma TeardownSpawnsCurrent(m: Actor)
    ensures var o := FinishTeardown(m); SpawnsOk(o.m, o.fx)
  {
    hide HandleConnect;
    var m1 := m.(child := None, childExitCC := None, activeId := ZERO_ULID, conn := IDLE);
    ConnectSpawnsCurrent(m1.(pendingSwitch := ZERO_ULID), m.pendingSwitch, None);
  }

  lemma HandlersSpawnCurrent(m: Actor, c: Cmd)
    requires FieldsOk(m) && CmdOk(c) && !c.ChildExit?
    ensures var o := TakeCommand(m, c); SpawnsOk(o.m, o.fx)
  {
    hide HandleConnect;
    hide HandleDisconnect;
    hide HandleSwitch;
    hide FinishTeardown;
    var m1 := CancelTimer(m);
    match c {
      case Connect(id, ch) => ConnectSpawnsCurrent(m1, id, Some(ch));
      case Disconnect(ch) => DisconnectSpawnsNone(m1, Some(ch));
      case Switch(id, ch) => SwitchSpawnsCurrent(m1, id, Some(ch));
      case ConnectDone(_, _) => TeardownSpawnsCurrent(m);
      case DisconnectDone(_) => TeardownSpawnsCurrent(m);
      case _ =>
    }
  }

  // ---------- generations ----------

  /** Generations only grow, what is spawned gets a new one, and no old one becomes current again. */
  predicate NewOnly(m: Actor, o: Out) {
    && o.m.opGen >= m.opGen
    && (forall e :: e in o.fx && e.Spawn? ==> e.gen > m.opGen)
    && (o.m.opGen == m.opGen && Current(o.m, m.opGen) ==> Current(m, m.opGen))
  }

  lemma ConnectNewOnly(m: Actor, id: Ulid, to: Option<ChanId>)
    ensures NewOnly(m, HandleConnect(m, id, to))
  {
  }

  lemma DisconnectNewOnly(m: Actor, to: Option<ChanId>)
    ensures NewOnly(m, HandleDisconnect(m, to))
  {
  }

  lemma SwitchNewOnly(m: Actor, id: Ulid, to: Option<ChanId>)
    ensures NewOnly(m, HandleSwitch(m, id, to))
  {
    hide HandleConnect;
    hide HandleDisconnect;
    ConnectNewOnly(m, id, to);
    DisconnectNewOnly(m, None);
  }

  lemma TeardownNewOnly(m: Actor)
    ensures NewOnly(m, FinishTeardown(m))
  {
    hide HandleConnect;
    var m1 := m.(child := None, childExitCC := None, activeId := ZERO_ULID, conn := IDLE);
    ConnectNewOnly(m1.(pendingSwitch := ZERO_ULID), m.pendingSwitch, None);
  }

  lemma TakeNewOnly(m: Actor, c: Cmd)
    requires CmdOk(c)
    ensures NewOnly(m, TakeCommand(m, c))
  {
    hide HandleConnect;
    hide HandleDisconnect;
    hide HandleSwitch;
    hide FinishTeardown;
    var m1 := CancelTimer(m);
    match c {
      case Connect(id, ch) => ConnectNewOnly(m1, id, Some(ch));
      case Disconnect(ch) => DisconnectNewOnly(m1, Some(ch));
      case Switch(id, ch) => SwitchNewOnly(m1, id, Some(ch));
      case ConnectDone(_, _) => TeardownNewOnly(m);
      case DisconnectDone(_) => TeardownNewOnly(m);
      case _ =>
    }
  }

  lemma ExitNewOnly(m: Actor)
    ensures NewOnly(m, TakeChildExit(m)) && TakeChildExit(m).m.opGen == m.opGen
  {
  }

  lemma DrainNewOnly(m: Actor, c: Cmd)
    ensures NewOnly(m, DrainCommand(m, c))
  {
  }

  /** A disconnect of the running attempt cancels that very attempt. */
  lemma DisconnectCancels(m: Actor, to: Option<ChanId>)
    requires FieldsOk(m) && Current(m, m.opGen)
    ensures Cancel(m.opGen) in HandleDisconnect(m, to).fx
  {
    var head := ReplyOn(to, Accepted) + [Post(Plain(Disconnecting, m.conn.configId))];
    assert HandleDisconnect(m, to).fx == head + [Cancel(m.opGen)];
  }

  /** No command but a report ends the running attempt without cancelling it. */
  lemma EndedIsCancelled(m: Actor, c: Cmd)
    requires FieldsOk(m) && Current(m, m.opGen) && CmdOk(c) && !c.ConnectDone? && !c.DisconnectDone? && !c.ChildExit?
    ensures var o := TakeCommand(m, c); Current(o.m, m.opGen) || Cancel(m.opGen) in o.fx
  {
    hide HandleDisconnect;
    var m1 := CancelTimer(m);
    match c {
      case Disconnect(ch) => DisconnectCancels(m1, Some(ch));
      case Switch(id, ch) => DisconnectCancels(m1, None);
      case Shutdown =>
        assert HandleShutdown(m1).fx[0] == Cancel(m.opGen);
      case _ =>
    }
  }

  // ---------- every step ----------

  /** Taking a command, shutdown included, leaves no worker running that is neither wanted nor being cancelled. */
  lemma TakeCancels(s: Sys)
    requires Inv(s) && CancelOk(s) && Enabled(s, Take)
    ensures CancelOk(Next(s, Take))
  {
    hide Gather;
    var c := s.q[0];
    assert c in s.q && !c.ChildExit?;
    var o := TakeCommand(s.m, c);
    FieldsHold(s);
    HandlersSpawnCurrent(s.m, c);
    if CmdTokens(c) != [] {
      TokenHead(s);
      hide Inv;
      assert forall t :: t in s.threads ==> !t.Worker?;
    } else {
      TakeNewOnly(s.m, c);
      hide Inv;
      hide FieldsOk;
      forall t | t in s.threads ensures WorkerOk(o.m, o.fx, t) {
        assert WorkerOk(s.m, [], t);
        if t.Worker? && Current(s.m, t.gen) {
          EndedIsCancelled(s.m, c);
        }
      }
    }
  }

  lemma ExitFindsNoAttempt(m: Actor, gen: nat)
    requires FieldsOk(m) && m.childExitCC.Some?
    ensures !Current(m, gen)
  {
  }

  lemma ExitSpawnsNone(m: Actor)
    ensures forall e :: e in TakeChildExit(m).fx ==> !e.Spawn? && !e.Cancel?
  {
  }

  lemma TakeExitCancels(s: Sys)
    requires Inv(s) && CancelOk(s) && Enabled(s, TakeExit)
    ensures CancelOk(Next(s, TakeExit))
  {
    hide Inv;
    FieldsHold(s);
    hide FieldsOk;
    ExitSpawnsNone(s.m);
    ExitNewOnly(s.m);
    var o := TakeChildExit(s.m);
    hide TakeChildExit;
    forall t | t in s.threads ensures WorkerOk(o.m, o.fx, t) {
      assert WorkerOk(s.m, s.todo, t);
      if t.Worker? {
        ExitFindsNoAttempt(s.m, t.gen);
      }
    }
  }

  /** Carrying out a cancel settles it for every worker of that generation. */
  lemma CancelCancels(m: Actor, todo: seq<Effect>, gen: nat, ts: seq<Thread>)
    requires !Current(m, gen) && forall t :: t in ts ==> WorkerOk(m, [Cancel(gen)] + todo, t)
    ensures forall t :: t in CancelWorkers(ts, gen) ==> WorkerOk(m, todo, t)
  {
    var us := CancelWorkers(ts, gen);
    forall t | t in us ensures WorkerOk(m, todo, t) {
      var i :| 0 <= i < |us| && us[i] == t;
      assert ts[i] in ts && t == CancelWorker(ts[i], gen);
    }
  }

  lemma ExecThreads(s: Sys, dead: bool)
    requires Enabled(s, Exec(dead))
    ensures var e, t := s.todo[0], ExecOne(s, dead);
      && t.m == s.m && t.todo == s.todo[1..]
      && (e.Cancel? ==> t.threads == CancelWorkers(s.threads, e.gen))
      && (e.Spawn? ==> t.threads == s.threads + [Worker(e.gen, e.id, false, PreCheck)])
      && (!e.Cancel? && !e.Spawn? ==> forall u :: u in t.threads && u.Worker? ==> u in s.threads)
  {
    hide CancelWorkers;
  }

  lemma ExecCancels(s: Sys, dead: bool)
    requires CancelOk(s) && Enabled(s, Exec(dead))
    ensures CancelOk(ExecOne(s, dead))
  {
    ExecThreads(s, dead);
    hide CancelWorkers;
    hide ExecOne;
    hide Enabled;
    var e, rest := s.todo[0], s.todo[1..];
    assert s.todo == [e] + rest;
    if e.Cancel? {
      CancelCancels(s.m, rest, e.gen, s.threads);
    } else {
      forall t | t in s.threads ensures WorkerOk(s.m, rest, t) {
        assert WorkerOk(s.m, s.todo, t);
      }
    }
  }

  lemma ThreadStepCancels(s: Sys, s': Sys)
    requires CancelOk(s) && s'.m.conn == s.m.conn && s'.m.opGen == s.m.opGen && s'.todo == s.todo
    requires forall t :: t in s'.threads && t.Worker? ==>
      exists u :: u in s.threads && u.Worker? && u.gen == t.gen && u.cancelled == t.cancelled
    ensures CancelOk(s')
  {
    forall t | t in s'.threads ensures WorkerOk(s'.m, s'.todo, t) {
      if t.Worker? {
        var u :| u in s.threads && u.Worker? && u.gen == t.gen && u.cancelled == t.cancelled;
        assert WorkerOk(s.m, s.todo, u);
      }
    }
  }

  /** The steps outside the actor's handlers start no worker and lose no cancellation. */
  lemma SameWorkers(s: Sys, l: Label)
    requires Enabled(s, l) && !l.Take? && !l.TakeExit? && !l.Exec? && !l.DrainOne?
    ensures var s' := Next(s, l);
      && s'.m.conn == s.m.conn && s'.m.opGen == s.m.opGen && s'.todo == s.todo
      && forall t :: t in s'.threads && t.Worker? ==>
           exists u :: u in s.threads && u.Worker? && u.gen == t.gen && u.cancelled == t.cancelled
  {
    OutsideHandlers(s, l);
    if l.WorkerStep? {
      SteppedWorker(s, l.i, l.outcome, l.dead);
    } else {
      OldWorkers(s, l);
    }
    hide Next;
    hide Enabled;
  }

  lemma OutsideHandlers(s: Sys, l: Label)
    requires Enabled(s, l) && !l.Take? && !l.TakeExit? && !l.Exec? && !l.DrainOne?
    ensures var s' := Next(s, l); s'.m.conn == s.m.conn && s'.m.opGen == s.m.opGen && s'.todo == s.todo
  {
    hide WorkerNext;
    hide Allowed;
    hide Moved;
  }

  lemma SteppedWorker(s: Sys, i: nat, o: Outcome, dead: bool)
    requires Enabled(s, WorkerStep(i, o, dead))
    ensures forall t :: t in WorkerMoves(s, i, o, dead).threads && t.Worker? ==>
      exists u :: u in s.threads && u.Worker? && u.gen == t.gen && u.cancelled == t.cancelled
  {
    hide WorkerNext;
    hide Allowed;
    assert s.threads[i] in s.threads;
    forall t | t in WorkerMoves(s, i, o, dead).threads && t.Worker?
      ensures exists u :: u in s.threads && u.Worker? && u.gen == t.gen && u.cancelled == t.cancelled
    {
      assert t in s.threads || t.(pc := s.threads[i].pc) == s.threads[i];
    }
  }

  lemma OldWorkers(s: Sys, l: Label)
    requires Enabled(s, l) && !l.Take? && !l.TakeExit? && !l.Exec? && !l.DrainOne? && !l.WorkerStep?
    ensures forall t :: t in Next(s, l).threads && t.Worker? ==> t in s.threads
  {
    hide Allowed;
    hide PostBackCmd;
  }

  lemma StepCancels(s: Sys, l: Label)
    requires Inv(s) && CancelOk(s) && Up(s) && Enabled(s, l) && Up(Next(s, l))
    ensures CancelOk(Next(s, l))
  {
    hide Inv;
    hide CancelOk;
    if l.Take? {
      TakeCancels(s);
    } else if l.TakeExit? {
      TakeExitCancels(s);
    } else if l.Exec? {
      ExecCancels(s, l.dead);
    } else {
      SameWorkers(s, l);
      ThreadStepCancels(s, Next(s, l));
    }
  }

  lemma {:induction false} RunCancels(states: seq<Sys>, labels: seq<Label>)
    requires IsDaemonRun(states, labels) && Up(Last(states))
    ensures CancelOk(Last(states))
    decreases |labels|
  {
    hide Inv;
    hide Next;
    hide Enabled;
    hide CancelOk;
    Reachable(states, labels);
    if labels == [] {
      InitCancels();
    } else {
      var n := |labels| - 1;
      assert IsDaemonRun(states[..n + 1], labels[..n]);
      RunCancels(states[..n + 1], labels[..n]);
      StepCancels(states[n], labels[n]);
    }
  }

  lemma InitCancels()
    ensures CancelOk(INIT)
  {
  }

  // ---------- what it means ----------

  /**
   * A worker passes the last look at its context only for the attempt that the posted state speaks of and
   * the config that it names, unless the actor is at this moment carrying out that attempt's cancellation.
   */
  lemma PreflightIsWanted(states: seq<Sys>, labels: seq<Label>, i: nat, dead: bool)
    requires IsDaemonRun(states, labels) && Up(Last(states))
    requires Enabled(Last(states), WorkerStep(i, Pass, dead)) && Last(states).threads[i].pc.Preflight?
    ensures var s := Last(states); var t := s.threads[i];
      Cancel(t.gen) in s.todo || (Current(s.m, t.gen) && s.m.conn.configId == Some(t.id))
  {
    hide Gather;
    var s := Last(states);
    var t := s.threads[i];
    Reachable(states, labels);
    RunCancels(states, labels);
    assert WorkerOk(s.m, s.todo, t);
    if Current(s.m, t.gen) {
      GatherHas(s.threads, t, ThreadTokens);
      assert TokensOk(s.m, Tokens(s));
      OnlyToken(s, t);
    }
  }

  lemma OnlyToken(s: Sys, t: Thread)
    requires t in s.threads && t.Worker? && s.m.conn.configId.Some?
    requires Tokens(s) == [ConnTok(s.m.opGen, s.m.conn.configId.value)]
    ensures s.m.conn.configId == Some(t.id)
  {
    hide Gather;
    var i :| 0 <= i < |s.threads| && s.threads[i] == t;
    GatherSplit(s.threads, i, ThreadTokens);
    assert ConnTok(t.gen, t.id) in Gather(s.threads, ThreadTokens);
    assert ConnTok(t.gen, t.id) in Tokens(s);
  }

  /** Shutdown cancels the running attempt: every worker it finds is cancelled, or about to be. */
  lemma ShutdownCancels(states: seq<Sys>, labels: seq<Label>, t: Thread)
    requires IsDaemonRun(states, labels) && Up(Last(states))
    requires Enabled(Last(states), Take) && Last(states).q[0] == Shutdown
    requires t in Last(states).threads && t.Worker?
    ensures t.cancelled || Cancel(t.gen) in Next(Last(states), Take).todo
  {
    hide Gather;
    hide Inv;
    hide TakeCommand;
    var s := Last(states);
    Reachable(states, labels);
    RunCancels(states, labels);
    TakeCancels(s);
    EndedNow(s.m, s.q[0]);
    assert WorkerOk(Next(s, Take).m, Next(s, Take).todo, t);
  }

  lemma EndedNow(m: Actor, c: Cmd)
    requires c == Shutdown
    ensures TakeCommand(m, c).m.conn.state == Disconnected
  {
  }

  // ---------- when a worker that was given up still forks ----------

  /** The step forks a child for the attempt `gen`. */
  predicate ForksFor(s: Sys, l: Label, gen: nat) {
    && l.WorkerStep? && l.outcome.Pass? && l.i < |s.threads|
    && s.threads[l.i].Worker? && s.threads[l.i].gen == gen && s.threads[l.i].pc.Fork?
  }

  ghost predicate RunForks(states: seq<Sys>, labels: seq<Label>, gen: nat) {
    exists k :: 0 <= k < |labels| && k < |states| && ForksFor(states[k], labels[k], gen)
  }

  /** The attempt is over for good: its workers are cancelled and not between the last look and the fork. */
  ghost predicate Barren(s: Sys, gen: nat) {
    && gen <= s.m.opGen
    && (forall e :: e in s.todo && e.Spawn? ==> e.gen != gen)
    && (forall t :: t in s.threads && t.Worker? && t.gen == gen ==> t.cancelled && !t.pc.Fork?)
  }

  lemma BarrenDispatch(s: Sys, o: Out, s': Sys, gen: nat)
    requires Barren(s, gen) && NewOnly(s.m, o) && s'.m == o.m && s'.todo == o.fx && s'.threads == s.threads
    ensures Barren(s', gen)
  {
  }

  lemma BarrenExec(s: Sys, dead: bool, gen: nat)
    requires Barren(s, gen) && Enabled(s, Exec(dead))
    ensures Barren(ExecOne(s, dead), gen)
  {
    ExecThreads(s, dead);
    hide ExecOne;
    var e, s' := s.todo[0], ExecOne(s, dead);
    assert s.todo == [e] + s.todo[1..];
    forall t | t in s'.threads && t.Worker? && t.gen == gen ensures t.cancelled && !t.pc.Fork? {
      if e.Cancel? {
        var i :| 0 <= i < |s'.threads| && s'.threads[i] == t;
        assert s.threads[i] in s.threads && t == CancelWorker(s.threads[i], e.gen);
      }
    }
  }

  /** A cancelled worker's own step never takes it to the fork. */
  lemma BarrenWorker(s: Sys, i: nat, o: Outcome, dead: bool, gen: nat)
    requires Barren(s, gen) && Enabled(s, WorkerStep(i, o, dead))
    ensures Barren(WorkerMoves(s, i, o, dead), gen)
  {
    var u, s' := s.threads[i], WorkerMoves(s, i, o, dead);
    assert u in s.threads;
    var u' := u.(pc := WorkerNext(u.id, u.pc, o, |s.kids|));
    assert s'.threads == Moved(s, i, u');
    assert u.cancelled && !u.pc.Fork? ==> !u'.pc.Fork?;
    hide WorkerNext;
    forall t | t in s'.threads && t.Worker? && t.gen == gen ensures t.cancelled && !t.pc.Fork? {
      assert t == u' || t in s.threads;
    }
  }

  lemma BarrenStep(s: Sys, l: Label, gen: nat)
    requires Barren(s, gen) && Enabled(s, l)
    ensures Barren(Next(s, l), gen) && !ForksFor(s, l, gen)
  {
    var s' := Next(s, l);
    if l.WorkerStep? {
      assert s.threads[l.i] in s.threads;
      BarrenWorker(s, l.i, l.outcome, l.dead, gen);
    } else if l.Exec? {
      BarrenExec(s, l.dead, gen);
    } else if l.Take? {
      TakeNewOnly(s.m, s.q[0]);
      BarrenDispatch(s, TakeCommand(s.m, s.q[0]), s', gen);
    } else if l.TakeExit? {
      ExitNewOnly(s.m);
      BarrenDispatch(s, TakeChildExit(s.m), s', gen);
    } else if l.DrainOne? {
      DrainNewOnly(s.m, s.q[0]);
      BarrenDispatch(s, DrainCommand(s.m, s.q[0]), s', gen);
    } else {
      BarrenElsewhere(s, l, gen);
    }
  }

  lemma BarrenElsewhere(s: Sys, l: Label, gen: nat)
    requires Barren(s, gen) && Enabled(s, l)
    requires !l.WorkerStep? && !l.Exec? && !l.Take? && !l.TakeExit? && !l.DrainOne?
    ensures Barren(Next(s, l), gen)
  {
    var s' := Next(s, l);
    assert s'.m.opGen == s.m.opGen && s'.todo == s.todo;
    assert forall t :: t in s'.threads && t.Worker? ==> t in s.threads;
  }

  lemma {:induction false} BarrenRun(states: seq<Sys>, labels: seq<Label>, gen: nat)
    requires IsRun(states, labels) && Barren(states[0], gen)
    ensures !RunForks(states, labels, gen)
    decreases |labels|
  {
    hide Next;
    hide Enabled;
    hide Barren;
    hide ForksFor;
    if labels == [] {
    } else {
      BarrenStep(states[0], labels[0], gen);
      BarrenRun(states[1..], labels[1..], gen);
      forall k | 0 <= k < |labels| ensures !ForksFor(states[k], labels[k], gen) {
        if k > 0 {
          assert states[k] == states[1..][k - 1] && labels[k] == labels[1..][k - 1];
        }
      }
    }
  }

  /** From a state in which its one worker is cancelled, an attempt can still fork iff that worker is at the fork. */
  lemma ForkIff(s: Sys, i: nat)
    requires i < |s.threads| && s.threads[i].Worker? && s.threads[i].cancelled && s.threads[i].gen <= s.m.opGen
    requires forall e :: e in s.todo && e.Spawn? ==> e.gen != s.threads[i].gen
    requires forall t :: t in s.threads && t.Worker? ==> t == s.threads[i]
    ensures (exists states, labels ::
               IsRun(states, labels) && states[0] == s && RunForks(states, labels, s.threads[i].gen))
       <==> s.threads[i].pc.Fork?
  {
    var gen := s.threads[i].gen;
    if s.threads[i].pc.Fork? {
      var l := WorkerStep(i, Pass, true);
      assert Enabled(s, l);
      var states, labels := [s, Next(s, l)], [l];
      assert IsRun(states, labels);
      assert ForksFor(states[0], labels[0], gen);
    } else {
      assert Barren(s, gen);
      forall states, labels | IsRun(states, labels) && states[0] == s ensures !RunForks(states, labels, gen) {
        BarrenRun(states, labels, gen);
      }
    }
  }

  /** While a worker runs it is the only one, and nothing is about to start. */
  lemma OneWorker(s: Sys, i: nat)
    requires Inv(s) && i < |s.threads| && s.threads[i].Worker?
    ensures forall t :: t in s.threads && t.Worker? ==> t == s.threads[i]
    ensures forall e :: e in s.todo ==> !e.Spawn?
  {
    hide Gather;
    SoloThread(s, i);
    forall t | t in s.threads && t.Worker? ensures t == s.threads[i] {
      if t != s.threads[i] {
        var j :| 0 <= j < |s.threads| && s.threads[j] == t;
        if j < i {
          assert t in s.threads[..i];
          GatherHas(s.threads[..i], t, ThreadTokens);
        } else {
          assert s.threads[i + 1..][j - i - 1] == t;
          GatherHas(s.threads[i + 1..], t, ThreadTokens);
        }
      }
    }
    forall e | e in s.todo ensures !e.Spawn? {
      GatherHas(s.todo, e, FxTokens);
    }
  }

  /** Carrying out the cancel leaves the one worker where it is, cancelled. */
  lemma CancelledSolo(s: Sys, i: nat)
    requires i < |s.threads| && s.threads[i].Worker? && s.todo != [] && s.todo[0] == Cancel(s.threads[i].gen)
    requires forall t :: t in s.threads && t.Worker? ==> t == s.threads[i]
    ensures var s' := ExecOne(s, true);
      && s'.m == s.m && s'.todo == s.todo[1..] && |s'.threads| == |s.threads|
      && s'.threads[i] == s.threads[i].(cancelled := true)
      && forall u :: u in s'.threads && u.Worker? ==> u == s'.threads[i]
  {
    var t, s' := s.threads[i], ExecOne(s, true);
    forall u | u in s'.threads && u.Worker? ensures u == s'.threads[i] {
      var j :| 0 <= j < |s'.threads| && s'.threads[j] == u;
      assert s.threads[j] in s.threads && u == CancelWorker(s.threads[j], t.gen);
    }
  }

  lemma RunningGen(states: seq<Sys>, labels: seq<Label>, i: nat)
    requires IsDaemonRun(states, labels) && Up(Last(states))
    requires i < |Last(states).threads| && Last(states).threads[i].Worker?
    ensures Last(states).threads[i].gen <= Last(states).m.opGen
  {
    hide Next;
    hide Enabled;
    RunCancels(states, labels);
    assert WorkerOk(Last(states).m, Last(states).todo, Last(states).threads[i]);
  }

  /**
   * Take the moment at which the actor carries out the cancellation of an attempt whose worker is running.
   * Some continuation still forks a child for it exactly if the worker was then past its last look at the
   * context and had not forked yet; it does not matter what anybody does afterwards.
   */
  lemma GivenUpForksIff(states: seq<Sys>, labels: seq<Label>, i: nat)
    requires IsDaemonRun(states, labels) && Up(Last(states)) && Last(states).todo != []
    requires i < |Last(states).threads| && Last(states).threads[i].Worker?
    requires Last(states).todo[0] == Cancel(Last(states).threads[i].gen)
    ensures var s := Last(states);
      (exists after, more ::
         IsRun(after, more) && after[0] == ExecOne(s, true) && RunForks(after, more, s.threads[i].gen))
      <==> s.threads[i].pc.Fork?
  {
    hide Inv;
    hide Next;
    hide ExecOne;
    hide RunForks;
    var s := Last(states);
    Reachable(states, labels);
    RunningGen(states, labels, i);
    OneWorker(s, i);
    CancelledSolo(s, i);
    assert forall e :: e in s.todo[1..] ==> e in s.todo;
    ForkIff(ExecOne(s, true), i);
  }
}
