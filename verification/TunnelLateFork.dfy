/** A run in which a worker forks its child after the disconnect that gave it up was carried out. */
module TunnelLateFork {
  import opened Base
  import opened Tunnel
  import opened Handlers
  import opened WorkerSteps
  import opened TunnelSystem
  import opened TunnelInvariant
  import opened TunnelCancel
  import opened TunnelShutdownRace

  const LEAVING := Actor(Plain(Disconnecting, Some(7)), None, None, None, ZERO_ULID, None, Off, 2, ZERO_ULID)

  /** The worker is past its last look at the context; the user's disconnect is queued. */
  lemma ReachFork() returns (states: seq<Sys>, labels: seq<Label>)
    ensures IsDaemonRun(states, labels) && states != []
    ensures var s := Last(states);
      s == LAUNCHED.(threads := [Worker(1, 7, false, Fork)], q := [NOTE, Disconnect(1)], nextCh := 2)
  {
    hide IsRun;
    states, labels := Launch();
    states, labels := Announces(states, labels);
    assert Last(states).q == [NOTE];
    states, labels := Work(states, labels, Preflight);
    states, labels := Push(states, labels, Call(ReqDisconnect));
    assert Last(states).q == [NOTE, Disconnect(1)];
  }

  /** The disconnect is handled and its cancel carried out while the worker stands before the fork. */
  lemma GiveUp() returns (states: seq<Sys>, labels: seq<Label>)
    ensures IsDaemonRun(states, labels) && states != []
    ensures var s := Last(states);
      && s.m == LEAVING && s.todo == [] && s.threads == [Worker(1, 7, true, Fork)] && s.kids == [] && Up(s)
  {
    hide IsRun;
    states, labels := ReachFork();
    states, labels := Push(states, labels, Take);
    states, labels := Push(states, labels, Exec(true));
    states, labels := Push(states, labels, Take);
    assert Last(states).todo == [Reply(1, Accepted), Post(Plain(Disconnecting, Some(7))), Cancel(1)];
    states, labels := Push(states, labels, Exec(true));
    states, labels := Push(states, labels, Exec(true));
    states, labels := Push(states, labels, Exec(true));
    assert Last(states).threads == [Worker(1, 7, true, Fork)];
  }

  /** Then the worker forks: in Disconnecting, with no cancel pending, a child for the attempt that was given up. */
  lemma ForkAfterCancel() returns (states: seq<Sys>, labels: seq<Label>)
    ensures IsDaemonRun(states, labels) && |labels| > 0 && |states| == |labels| + 1
    ensures var before, s := states[|labels| - 1], Last(states);
      && before.m.conn.state == Disconnecting && before.todo == [] && before.threads == [Worker(1, 7, true, Fork)]
      && ForksFor(before, Last(labels), 1)
      && s.kids == [Kid(true, 0)] && s.threads == [Worker(1, 7, true, AwaitAlive(0))]
  {
    states, labels := GiveUp();
    var l := WorkerStep(0, Pass, true);
    var s := Last(states);
    states, labels := states + [Next(s, l)], labels + [l];
  }
}
