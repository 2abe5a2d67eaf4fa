/** What each handler of the actor does, as a function of the actor's fields. */
module Handlers {
  import opened Base
  import opened Tunnel

  datatype Out = Out(m: Actor, fx: seq<Effect>)

  /** A reply to a caller, or (for a nested call) into a channel the actor reads back itself. */
  function ReplyOn(to: Option<ChanId>, code: ReplyCode): seq<Effect> {
    if to.Some? then [Reply(to.value, code)] else []
  }

  function PostState(m: Actor, next: ConnStatus): Out {
    Out(m.(conn := next), [Post(next)])
  }

  function CancelTimer(m: Actor): Actor {
    m.(timer := Off)
  }

  function HandleConnect(m: Actor, id: Ulid, to: Option<ChanId>): Out {
    if m.conn.state != Disconnected && m.conn.state != Error then
      Out(m, ReplyOn(to, AlreadyConnected))
    else
      var gen := m.opGen + 1;
      var status := Plain(Validating, Some(id));
      Out(m.(opGen := gen, cancelConnect := Some(gen), conn := status),
          ReplyOn(to, Accepted) + [Post(status), Spawn(gen, id)])
  }

  function HandleConnectProgress(m: Actor, gen: nat, newState: TunnelState): Out {
    if gen == m.opGen && newState == Connecting && m.conn.state == Validating then
      PostState(m, Plain(Connecting, m.conn.configId))
    else
      Out(m, [])
  }

  function HandleSwitch(m: Actor, id: Ulid, to: Option<ChanId>): Out {
    if m.conn.state == Disconnecting then
      Out(m, ReplyOn(to, AlreadyConnected))
    else if m.conn.state == Disconnected || m.conn.state == Error then
      HandleConnect(m, id, to)
    else if m.activeId == id then
      Out(m, ReplyOn(to, Accepted))
    else
      var d := HandleDisconnect(m, None);
      Out(d.m.(pendingSwitch := id), d.fx + ReplyOn(to, Accepted))
  }

  /** Start the deferred connect, if a Switch left one. */
  function ConsumePendingSwitch(m: Actor): Out {
    if m.pendingSwitch != ZERO_ULID then
      HandleConnect(m.(pendingSwitch := ZERO_ULID), m.pendingSwitch, None)
    else
      Out(m, [])
  }

  /** Post Disconnected at the end of a teardown, then any deferred connect. */
  function FinishTeardown(m: Actor): Out {
    var p := PostState(m.(child := None, childExitCC := None, activeId := ZERO_ULID), IDLE);
    var c := ConsumePendingSwitch(p.m);
    Out(c.m, p.fx + c.fx)
  }

  function RunStack(stack: Option<ChildId>): seq<Effect> {
    if stack.Some? then [StopChild(stack.value)] else []
  }

  function FailConnect(m: Actor, f: Failure): Out {
    match f
    case Canceled => PostState(m, IDLE)
    case DeadlineExceeded => PostState(m.(timer := Ticking), Faulty("connect_timeout"))
    case Fault(symbol) => PostState(m.(timer := Ticking), Faulty(symbol))
  }

  function HandleConnectDone(m: Actor, gen: nat, result: ConnectResult): Out
    requires result.WellFormed()
  {
    if gen != m.opGen then
      var cleaned := RunStack(result.cleanup);
      if m.conn.state == Disconnecting then
        var t := FinishTeardown(m);
        Out(t.m, cleaned + t.fx)
      else
        Out(m, cleaned)
    else
      var m1 := m.(cancelConnect := None);
      if result.err.Some? then
        FailConnect(m1, result.err.value)
      else
        PostState(
          m1.(child := result.child, childExitCC := result.child, armed := result.cleanup, activeId := result.id),
          ConnStatus(Connected, Some(result.id), result.child, ""))
  }

  function CancelOf(m: Actor): seq<Effect> {
    if m.cancelConnect.Some? then [Cancel(m.cancelConnect.value)] else []
  }

  function HandleDisconnect(m: Actor, to: Option<ChanId>): Out {
    var m0 := m.(pendingSwitch := ZERO_ULID);
    match m.conn.state
    case Disconnected =>
      Out(m0, ReplyOn(to, NotConnected))
    case Disconnecting =>
      Out(m0, ReplyOn(to, Accepted))
    case Validating | Connecting =>
      var status := Plain(Disconnecting, m.conn.configId);
      Out(m0.(opGen := m.opGen + 1, conn := status, cancelConnect := None),
          ReplyOn(to, Accepted) + [Post(status)] + CancelOf(m))
    case Connected | Error =>
      if m.armed.None? then
        Out(m0.(child := None, childExitCC := None, activeId := ZERO_ULID, conn := IDLE),
            ReplyOn(to, Accepted) + [Post(IDLE)])
      else
        var gen := m.opGen + 1;
        var status := Plain(Disconnecting, m.conn.configId);
        Out(m0.(opGen := gen, armed := None, conn := status),
            ReplyOn(to, Accepted) + [Post(status), SpawnTeardown(gen, m.armed.value)])
  }

  function HandleDisconnectDone(m: Actor, gen: nat): Out {
    if gen != m.opGen then Out(m, []) else FinishTeardown(m)
  }

  function HandleAutoRevert(m: Actor): Out {
    if m.conn.state != Error then Out(m, []) else PostState(m.(activeId := ZERO_ULID), IDLE)
  }

  function HandleChildExit(m: Actor): Out {
    var m0 := m.(child := None, childExitCC := None);
    if m.conn.state == Disconnecting then
      Out(m0, [])
    else
      var p := PostState(m0.(armed := None, activeId := ZERO_ULID, timer := Ticking), Faulty("xray_died_early"));
      Out(p.m, RunStack(m.armed) + p.fx)
  }

  function HandleGetStatus(m: Actor, to: Option<ChanId>): Out {
    Out(m, ReplyOn(to, StatusIs(m.conn)))
  }

  function HandleShutdown(m: Actor): Out {
    var post := if m.conn.state != Disconnected then [Post(IDLE)] else [];
    Out(m.(cancelConnect := None, armed := None, child := None, childExitCC := None,
           activeId := ZERO_ULID, pendingSwitch := ZERO_ULID, timer := Off,
           conn := if m.conn.state != Disconnected then IDLE else m.conn),
        CancelOf(m) + RunStack(m.armed) + post + [CloseDone])
  }

  /** The dispatcher. */
  function Handle(m: Actor, c: Cmd): Out
    requires c.ConnectDone? ==> c.result.WellFormed()
  {
    match c
    case Connect(id, ch) => HandleConnect(m, id, Some(ch))
    case Disconnect(ch) => HandleDisconnect(m, Some(ch))
    case Switch(id, ch) => HandleSwitch(m, id, Some(ch))
    case GetStatus(ch) => HandleGetStatus(m, Some(ch))
    case ConnectProgress(gen, newState) => HandleConnectProgress(m, gen, newState)
    case ConnectDone(gen, result) => HandleConnectDone(m, gen, result)
    case DisconnectDone(gen) => HandleDisconnectDone(m, gen)
    case AutoRevert => HandleAutoRevert(m)
    case ChildExit => HandleChildExit(m)
    case Shutdown => HandleShutdown(m)
  }

  /** One command out of the queue, in the event loop. */
  function TakeCommand(m: Actor, c: Cmd): Out
    requires c.ConnectDone? ==> c.result.WellFormed()
  {
    Handle(if ShouldCancelAutoRevert(c) then CancelTimer(m) else m, c)
  }

  /** The child-exit arm of the event loop. */
  function TakeChildExit(m: Actor): Out {
    Handle(CancelTimer(m).(childExitCC := None), ChildExit)
  }

  /** What a drained command is answered with once the actor's context is done. */
  function ShuttingDownReply(c: Cmd): seq<Effect> {
    match c
    case Connect(_, ch) => [Reply(ch, ShuttingDown)]
    case Disconnect(ch) => [Reply(ch, ShuttingDown)]
    case Switch(_, ch) => [Reply(ch, ShuttingDown)]
    case GetStatus(ch) => [Reply(ch, NoStatus)]
    case Shutdown => [CloseDone]
    case _ => []
  }

  /** One command out of the queue while draining. */
  function DrainCommand(m: Actor, c: Cmd): Out {
    if c.Shutdown? then HandleShutdown(m) else Out(m, ShuttingDownReply(c))
  }

  /** The whole drain of a queue that nobody fills any more. */
  function DrainAll(m: Actor, q: seq<Cmd>): Out
    decreases q
  {
    if q == [] then Out(m, [])
    else
      var o := DrainCommand(m, q[0]);
      var r := DrainAll(o.m, q[1..]);
      Out(r.m, o.fx + r.fx)
  }
}
