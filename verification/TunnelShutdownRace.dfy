/** Runs in which a connect is outstanding when shutdown is posted, and a call that comes too late. */
module TunnelShutdownRace {
  import opened Base
  import opened Tunnel
  import opened Handlers
  import opened WorkerSteps
  import opened TunnelSystem
  import opened TunnelInvariant
  import opened TunnelReplies
  import opened TunnelShutdown

  const WAITING := Actor(Plain(Validating, Some(7)), None, None, None, ZERO_ULID, Some(1), Off, 1, ZERO_ULID)
  const SUCCESS := ConnectResult(7, Some(0), Some(0), None)
  const NOTE := ConnectProgress(1, Connecting)
  const LOG1 := [Replied(0, Accepted), Posted(Plain(Validating, Some(7)))]
  const LOG2 := LOG1 + [Spawned(0)]
  const LOG3 := LOG2 + [Posted(IDLE), DoneClosed]
  const GONE := FRESH_ACTOR.(opGen := 1)

  /** A worker for config 7 has just been started. */
  const LAUNCHED := Sys(WAITING, [], [], [Worker(1, 7, false, PreCheck)], [], LOG1, 1, Running, false, false, false,
                         multiset{})

  /** The worker has succeeded but not reported; shutdown is queued before its announcement. */
  const READY := Sys(WAITING, [], [Shutdown, NOTE], [Worker(1, 7, false, Deliver(SUCCESS))], [Kid(true, 0)],
                     LOG2, 1, Running, true, false, false, multiset{})

  /** Shutdown has been handled; the worker reports afterwards. */
  const REPORTED := Sys(GONE, [], [NOTE, ConnectDone(1, SUCCESS)], [], [Kid(true, 0)],
                        LOG3, 1, Running, true, true, false, multiset{})

  lemma Push(states: seq<Sys>, labels: seq<Label>, l: Label) returns (states': seq<Sys>, labels': seq<Label>)
    requires IsDaemonRun(states, labels) && Enabled(Last(states), l)
    ensures IsDaemonRun(states', labels') && states' != [] && Last(states') == Next(Last(states), l)
    ensures states' == states + [Last(states')] && labels' == labels + [l]
  {
    hide Next;
    hide Enabled;
    states', labels' := states + [Next(Last(states), l)], labels + [l];
  }

  lemma Launch() returns (states: seq<Sys>, labels: seq<Label>)
    ensures IsDaemonRun(states, labels) && states != [] && Last(states) == LAUNCHED
  {
    hide IsRun;
    states, labels := Start();
    states, labels := Push(states, labels, Call(ReqConnect(7)));
    states, labels := Push(states, labels, Take);
    assert Last(states).todo == [Reply(0, Accepted), Post(Plain(Validating, Some(7))), Spawn(1, 7)];
    states, labels := Push(states, labels, Exec(true));
    states, labels := Push(states, labels, Exec(true));
    states, labels := Push(states, labels, Exec(true));
    assert Last(states).log == LOG1 && Last(states).todo == [] && Last(states).q == [];
  }

  lemma Start() returns (states: seq<Sys>, labels: seq<Label>)
    ensures IsDaemonRun(states, labels) && states != [] && Last(states) == INIT
  {
    states, labels := [INIT], [];
  }

  /** One step of the only worker. */
  lemma Work(states: seq<Sys>, labels: seq<Label>, pc: Pc) returns (states': seq<Sys>, labels': seq<Label>)
    requires IsDaemonRun(states, labels) && Last(states).threads == [Worker(1, 7, false, pc)] && !Last(states).ctxDone
    requires !pc.Deliver? && !pc.Unwind? && !pc.Announce? && !pc.Fork?
    ensures IsDaemonRun(states', labels') && states' != []
    ensures Last(states') == Last(states).(threads := [Worker(1, 7, false, WorkerNext(7, pc, Pass, |Last(states).kids|))])
  {
    hide IsRun;
    states', labels' := Push(states, labels, WorkerStep(0, Pass, true));
  }

  /** The worker just started announces itself. */
  lemma Announces(states: seq<Sys>, labels: seq<Label>) returns (states': seq<Sys>, labels': seq<Label>)
    requires IsDaemonRun(states, labels) && Last(states).threads == [Worker(1, 7, false, PreCheck)]
    requires !Last(states).ctxDone && HasRoom(Last(states))
    ensures IsDaemonRun(states', labels') && states' != []
    ensures var s := Last(states);
      Last(states') == s.(threads := [Worker(1, 7, false, Preflight)], q := s.q + [NOTE])
  {
    hide IsRun;
    states', labels' := Work(states, labels, PreCheck);
    states', labels' := Work(states', labels', FindPath);
    states', labels' := Work(states', labels', Validate);
    states', labels' := Push(states', labels', WorkerStep(0, Pass, true));
  }

  /** It starts its child and succeeds. */
  lemma Succeeds(states: seq<Sys>, labels: seq<Label>) returns (states': seq<Sys>, labels': seq<Label>)
    requires IsDaemonRun(states, labels) && Last(states).threads == [Worker(1, 7, false, Preflight)]
    requires !Last(states).ctxDone && Last(states).kids == []
    ensures IsDaemonRun(states', labels') && states' != []
    ensures var s := Last(states);
      Last(states') == s.(threads := [Worker(1, 7, false, Deliver(SUCCESS))], kids := [Kid(true, 0)],
                          log := s.log + [Spawned(0)])
  {
    hide IsRun;
    states', labels' := Work(states, labels, Preflight);
    states', labels' := Push(states', labels', WorkerStep(0, Pass, true));
    assert Last(states').threads == [Worker(1, 7, false, AwaitAlive(0))] && Last(states').kids == [Kid(true, 0)];
    states', labels' := Work(states', labels', AwaitAlive(0));
    states', labels' := Work(states', labels', AwaitSocks(0));
    states', labels' := Work(states', labels', Handshake(0));
  }

  lemma Succeed() returns (states: seq<Sys>, labels: seq<Label>)
    ensures IsDaemonRun(states, labels) && states != [] && Last(states) == READY
  {
    hide IsRun;
    states, labels := Launch();
    states, labels := Push(states, labels, CallShutdown);
    states, labels := Announces(states, labels);
    assert Last(states).q == [Shutdown, NOTE];
    states, labels := Succeeds(states, labels);
  }

  /** Shutdown is handled while the successful worker has yet to report. */
  lemma ShutFirst() returns (states: seq<Sys>, labels: seq<Label>)
    ensures IsDaemonRun(states, labels) && states != []
    ensures Last(states) == READY.(m := GONE, todo := [Cancel(1), Post(IDLE), CloseDone], q := [NOTE], shut := true)
  {
    hide IsRun;
    states, labels := Succeed();
    states, labels := Push(states, labels, Take);
  }

  lemma ReportLate() returns (states: seq<Sys>, labels: seq<Label>)
    ensures IsDaemonRun(states, labels) && states != [] && Last(states) == REPORTED
  {
    hide IsRun;
    states, labels := ShutFirst();
    states, labels := Push(states, labels, Exec(true));
    assert Last(states).threads == [Worker(1, 7, true, Deliver(SUCCESS))];
    states, labels := Push(states, labels, Exec(true));
    states, labels := Push(states, labels, Exec(true));
    assert Last(states).log == LOG3 && Last(states).todo == [];
    states, labels := Push(states, labels, PostBack(0, false));
    assert Last(states).threads == [] && Last(states).q == [NOTE, ConnectDone(1, SUCCESS)];
  }

  /** Shutdown's caller ends the context, and the drain discards the report. */
  lemma DrainLate(states: seq<Sys>, labels: seq<Label>) returns (states': seq<Sys>, labels': seq<Label>)
    requires IsDaemonRun(states, labels) && Last(states) == REPORTED.(passed := Last(states).passed)
    ensures IsDaemonRun(states', labels') && |states'| == |labels'| + 1 && |labels'| == |labels| + 5
    ensures states <= states' && labels <= labels'
    ensures Last(states') == Last(states).(q := [], mode := Exited, ctxDone := true)
  {
    assert |states| == |labels| + 1;
    hide IsRun;
    states', labels' := Push(states, labels, CancelCtx);
    states', labels' := Push(states', labels', BeginDrain);
    states', labels' := Push(states', labels', DrainOne);
    assert Last(states').q == [ConnectDone(1, SUCCESS)] && Last(states').todo == [];
    states', labels' := Push(states', labels', DrainOne);
    assert Last(states').q == [] && Last(states').todo == [];
    states', labels' := Push(states', labels', Finish);
  }

  /** The daemon exits with a live child that nobody will ever stop. */
  lemma ShutdownCanLeak() returns (states: seq<Sys>, labels: seq<Label>)
    ensures IsDaemonRun(states, labels) && states != []
    ensures var s := Last(states);
      && s.shut && s.mode == Exited && s.m.armed.None? && s.threads == [] && s.q == [] && s.todo == []
      && Owned(s) == [] && |s.kids| == 1 && s.kids[0].alive && s.kids[0].stops == 0
  {
    hide IsRun;
    states, labels := ReportLate();
    states, labels := DrainLate(states, labels);
  }

  /** Or the event loop still takes the report: the tunnel is up again after shutdown was handled. */
  lemma ShutdownCanBeUndone() returns (states: seq<Sys>, labels: seq<Label>)
    ensures IsDaemonRun(states, labels) && states != []
    ensures var s := Last(states);
      && s.shut && s.m.conn.state == Connected && s.m.armed == Some(0)
      && |s.kids| == 1 && s.kids[0].alive && s.kids[0].stops == 0
  {
    hide IsRun;
    states, labels := ReportLate();
    states, labels := Push(states, labels, Take);
    assert Last(states).q == [ConnectDone(1, SUCCESS)] && Last(states).todo == [] && Last(states).m == GONE;
    states, labels := Push(states, labels, Take);
  }

  /** Shutdown is handled, and its cancel carried out, while the worker validates the config. */
  lemma ShutWhileValidating() returns (states: seq<Sys>, labels: seq<Label>)
    ensures IsDaemonRun(states, labels) && states != []
    ensures Last(states) == LAUNCHED.(m := GONE, threads := [Worker(1, 7, true, Validate)],
                                      log := LOG1 + [Posted(IDLE), DoneClosed], shutPosted := true, shut := true)
  {
    hide IsRun;
    states, labels := Launch();
    states, labels := Work(states, labels, PreCheck);
    states, labels := Work(states, labels, FindPath);
    states, labels := Push(states, labels, CallShutdown);
    states, labels := Push(states, labels, Take);
    assert Last(states).todo == [Cancel(1), Post(IDLE), CloseDone];
    states, labels := Push(states, labels, Exec(true));
    assert Last(states).threads == [Worker(1, 7, true, Validate)];
    states, labels := Push(states, labels, Exec(true));
    states, labels := Push(states, labels, Exec(true));
    assert Last(states).log == LOG1 + [Posted(IDLE), DoneClosed] && Last(states).todo == [] && Last(states).q == [];
  }

  const REJECTED := ConnectResult(7, None, None, Some(Fault("config_invalid")))

  /** The validation that the cancellation killed counts as a rejected config. */
  lemma RejectLate() returns (states: seq<Sys>, labels: seq<Label>)
    ensures IsDaemonRun(states, labels) && states != []
    ensures Last(states) == LAUNCHED.(m := GONE, threads := [Worker(1, 7, true, Deliver(REJECTED))],
                                      log := LOG1 + [Posted(IDLE), DoneClosed], shutPosted := true, shut := true)
  {
    hide IsRun;
    states, labels := ShutWhileValidating();
    states, labels := Push(states, labels, WorkerStep(0, Fail(Fault("config_invalid")), true));
  }

  /** The report is current, so it is posted: after shutdown the tunnel is in Error, with the revert timer running. */
  lemma ShutdownCanEndInError() returns (states: seq<Sys>, labels: seq<Label>)
    ensures IsDaemonRun(states, labels) && states != []
    ensures var s := Last(states);
      && s.shut && s.m.conn == Faulty("config_invalid") && s.m.timer == Ticking
      && s.todo == [] && s.log == LOG1 + [Posted(IDLE), DoneClosed, Posted(Faulty("config_invalid"))]
  {
    hide IsRun;
    states, labels := RejectLate();
    states, labels := Push(states, labels, PostBack(0, false));
    assert Last(states).threads == [] && Last(states).q == [ConnectDone(1, REJECTED)];
    states, labels := Push(states, labels, Take);
    assert Last(states).todo == [Post(Faulty("config_invalid"))];
    states, labels := Push(states, labels, Exec(true));
  }

  // ---------- the report is ahead of Shutdown ----------

  const AHEAD := READY.(q := [NOTE, ConnectDone(1, SUCCESS), Shutdown], threads := [])

  /** The worker has succeeded and reported before shutdown is called. */
  lemma ReportFirst() returns (states: seq<Sys>, labels: seq<Label>)
    ensures IsDaemonRun(states, labels) && states != [] && Last(states) == AHEAD
  {
    hide IsRun;
    states, labels := Launch();
    states, labels := Announces(states, labels);
    assert Last(states).q == [NOTE];
    states, labels := Succeeds(states, labels);
    states, labels := Push(states, labels, PostBack(0, false));
    assert Last(states).threads == [] && Last(states).q == [NOTE, ConnectDone(1, SUCCESS)];
    states, labels := Push(states, labels, CallShutdown);
    assert Last(states).q == [NOTE, ConnectDone(1, SUCCESS), Shutdown];
  }

  /** The context ends first: the drain discards the report and then handles Shutdown. */
  lemma DrainBoth() returns (states: seq<Sys>, labels: seq<Label>)
    ensures IsDaemonRun(states, labels) && states != []
    ensures Last(states) == AHEAD.(m := GONE, todo := [Cancel(1), Post(IDLE), CloseDone], q := [],
                                   mode := Draining, ctxDone := true, shut := true)
  {
    hide IsRun;
    states, labels := ReportFirst();
    states, labels := Push(states, labels, CancelCtx);
    states, labels := Push(states, labels, BeginDrain);
    states, labels := Push(states, labels, DrainOne);
    assert Last(states).q == [ConnectDone(1, SUCCESS), Shutdown] && Last(states).todo == [];
    states, labels := Push(states, labels, DrainOne);
    assert Last(states).q == [Shutdown] && Last(states).todo == [] && Last(states).m == WAITING;
    states, labels := Push(states, labels, DrainOne);
    assert Last(states).q == [];
  }

  /** A report that is ahead of Shutdown does not save the child: it is drained, and the daemon exits beside it. */
  lemma ReportCanBeDrained() returns (states: seq<Sys>, labels: seq<Label>)
    ensures IsDaemonRun(states, labels) && states != []
    ensures var s := Last(states);
      && s.shut && s.mode == Exited && s.q == [] && s.todo == [] && s.threads == [] && Owned(s) == []
      && |s.kids| == 1 && s.kids[0].alive && s.kids[0].stops == 0 && !CleanedUp(s)
  {
    hide IsRun;
    states, labels := DrainBoth();
    states, labels := Push(states, labels, Exec(true));
    assert Last(states).todo == [Post(IDLE), CloseDone] && Last(states).threads == [];
    states, labels := Push(states, labels, Exec(true));
    assert Last(states).todo == [CloseDone];
    states, labels := Push(states, labels, Exec(true));
    assert Last(states).todo == [];
    states, labels := Push(states, labels, Finish);
    NotClean(Last(states));
  }

  lemma NotClean(s: Sys)
    requires |s.kids| == 1 && s.kids[0].stops == 0 && s.threads == [] && s.todo == []
    ensures !CleanedUp(s)
  {
    assert Times(Gather(s.threads, ThreadStacks), 0) == 0 && Times(Gather(s.todo, FxStacks), 0) == 0;
  }

  // ---------- a call that comes too late ----------

  /**
   * A Switch looks at the context while it is alive. By the time it sends, the context has ended and the actor
   * has exited: it waits in the queue for good.
   */
  lemma SwitchCanBeStranded() returns (states: seq<Sys>, labels: seq<Label>, look: nat)
    ensures IsDaemonRun(states, labels) && look < |labels| - 1 && |states| == |labels| + 1
    ensures labels[look] == Look(8) && !states[look].ctxDone
    ensures Over(states[|labels| - 1]) && Last(labels) == Call(ReqSwitch(8))
  {
    states, labels := ReportLate();
    look := |labels|;
    states, labels := Push(states, labels, Look(8));
    assert labels[look] == Look(8) && states[look] == REPORTED && Last(states).passed == multiset{8};
    hide IsRun;
    var more, steps := DrainLate(states, labels);
    assert steps[look] == labels[look] && more[look] == states[look];
    var l := Call(ReqSwitch(8));
    states, labels := Push(more, steps, l);
  }
}
