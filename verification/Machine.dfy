/**
 * The actor as an object: one goroutine owns these fields, and each handler changes them in place.
 * Every method is proved to do to the fields and to the world exactly what its handler function says.
 */
module MachineActor {
  import opened Base
  import opened Tunnel
  import H = Handlers
  import opened Cleanup
  import opened ConnectWorker

  datatype Command =
    | CmdConnect(id: Ulid, reply: ReplyChan)
    | CmdDisconnect(reply: ReplyChan)
    | CmdSwitch(id: Ulid, reply: ReplyChan)
    | CmdGetStatus(reply: ReplyChan)
    | CmdConnectProgress(gen: nat, newState: TunnelState)
    | CmdConnectDone(gen: nat, result: RawResult)
    | CmdDisconnectDone(gen: nat)
    | CmdAutoRevert
    | CmdChildExit
    | CmdShutdown
  {
    predicate HasReply() {
      CmdConnect? || CmdDisconnect? || CmdSwitch? || CmdGetStatus?
    }

    /** The objects a command brings along: its reply channel, or a finished worker's stack. */
    function Objects(): set<object> {
      if HasReply() then {reply}
      else if CmdConnectDone? && result.cleanup != null then {result.cleanup}
      else {}
    }

    /** A caller's channel is named and still empty; a worker's result is what doConnect promises. */
    ghost predicate Ready()
      reads Objects()
    {
      && (HasReply() ==> reply.to.Some? && reply.buf == [])
      && (CmdConnectDone? ==> ResultOk(result))
    }

    ghost function Value(): Cmd
      requires Ready()
      reads Objects()
    {
      match this
      case CmdConnect(id, reply) => Connect(id, reply.to.value)
      case CmdDisconnect(reply) => Disconnect(reply.to.value)
      case CmdSwitch(id, reply) => Switch(id, reply.to.value)
      case CmdGetStatus(reply) => GetStatus(reply.to.value)
      case CmdConnectProgress(gen, newState) => ConnectProgress(gen, newState)
      case CmdConnectDone(gen, result) => ConnectDone(gen, ResultValue(result))
      case CmdDisconnectDone(gen) => DisconnectDone(gen)
      case CmdAutoRevert => AutoRevert
      case CmdChildExit => ChildExit
      case CmdShutdown => Shutdown
    }
  }

  /** Every queued command is ready, and no two commands share a reply channel or a stack. */
  ghost predicate QueueReady(q: seq<Command>)
    reads AllObjects(q)
  {
    && (forall i :: 0 <= i < |q| ==> q[i].Ready())
    && (forall i, j :: 0 <= i < j < |q| ==> q[i].Objects() !! q[j].Objects())
  }

  ghost function AllObjects(q: seq<Command>): set<object> {
    set i, o | 0 <= i < |q| && o in q[i].Objects() :: o
  }

  ghost function Values(q: seq<Command>): (vs: seq<Cmd>)
    requires QueueReady(q)
    reads AllObjects(q)
    ensures |vs| == |q| && forall i :: 0 <= i < |q| ==> vs[i] == q[i].Value()
  {
    seq(|q|, i requires 0 <= i < |q| && q[i].Ready() reads AllObjects(q) => q[i].Value())
  }

  predicate ShouldCancel(c: Command) {
    c.CmdConnect? || c.CmdDisconnect? || c.CmdSwitch? || c.CmdAutoRevert? || c.CmdChildExit? || c.CmdShutdown?
  }

  lemma DrainStep(m: Actor, q: seq<Cmd>, done: seq<Effect>)
    requires q != []
    ensures var d := H.DrainCommand(m, q[0]);
      && H.DrainAll(m, q).m == H.DrainAll(d.m, q[1..]).m
      && done + H.DrainAll(m, q).fx == (done + d.fx) + H.DrainAll(d.m, q[1..]).fx
  {
    var d := H.DrainCommand(m, q[0]);
    var rest := H.DrainAll(d.m, q[1..]);
    assert H.DrainAll(m, q) == H.Out(rest.m, d.fx + rest.fx);
    hide H.DrainCommand;
    hide H.DrainAll;
    assert done + (d.fx + rest.fx) == (done + d.fx) + rest.fx;
  }

  lemma DrainNone(m: Actor)
    ensures H.DrainAll(m, []) == H.Out(m, [])
  {
  }

  class Machine {
    var conn: ConnStatus
    var armed: CleanupStack?
    var child: Option<ChildId>
    var childExitCC: Option<ChildId>
    var activeId: Ulid
    var cancelConnect: Option<nat>
    var timer: Timer
    var opGen: nat
    var pendingSwitch: Ulid
    var cmds: seq<Command>
    const world: World

    constructor (world: World)
      ensures this.world == world && Valid() && Abs() == FRESH_ACTOR && cmds == []
    {
      this.world := world;
      conn, armed, child, childExitCC := IDLE, null, None, None;
      activeId, cancelConnect, timer, opGen, pendingSwitch := ZERO_ULID, None, Off, 0, ZERO_ULID;
      cmds := [];
    }

    /** An armed stack has not run and holds the one entry that doConnect pushed. */
    ghost predicate Valid()
      reads this, armed
    {
      armed != null ==> !armed.ran && |armed.entries| == 1
    }

    ghost function Abs(): Actor
      requires Valid()
      reads this, armed
    {
      Actor(conn, if armed == null then None else Some(armed.entries[0].child), child, childExitCC, activeId,
            cancelConnect, timer, opGen, pendingSwitch)
    }

    /** The new state and the world's record are what `o` says, starting from what they were. */
    twostate predicate Does(o: H.Out)
      reads this, armed, world
    {
      Valid() && Abs() == o.m && world.fx == old(world.fx) + o.fx
    }

    method PostState(next: ConnStatus)
      requires Valid()
      modifies this`conn, world
      ensures Does(H.PostState(old(Abs()), next))
    {
      conn := next;
      world.Do(Post(next));
    }

    method CancelAutoRevert()
      requires Valid()
      modifies this`timer
      ensures Does(H.Out(H.CancelTimer(old(Abs())), []))
    {
      if timer != Off {
        timer := Off;
      }
    }

    method ArmAutoRevert()
      requires Valid()
      modifies this`timer
      ensures Does(H.Out(old(Abs()).(timer := Ticking), []))
    {
      CancelAutoRevert();
      timer := Ticking;
    }

    method HandleConnect(id: Ulid, reply: ReplyChan)
      requires Valid() && reply.buf == []
      modifies this, world, reply
      ensures Does(H.HandleConnect(old(Abs()), id, reply.to)) && |reply.buf| == 1
      ensures armed == old(armed) && cmds == old(cmds)
    {
      if conn.state != Disconnected && conn.state != Error {
        reply.Send(AlreadyConnected, world);
        return;
      }
      reply.Send(Accepted, world);
      opGen := opGen + 1;
      var gen := opGen;
      cancelConnect := Some(gen);
      PostState(Plain(Validating, Some(id)));
      world.Do(Spawn(gen, id));
    }

    method HandleConnectProgress(gen: nat, newState: TunnelState)
      requires Valid()
      modifies this`conn, world
      ensures Does(H.HandleConnectProgress(old(Abs()), gen, newState))
    {
      if gen != opGen {
        return;
      }
      if newState == Connecting && conn.state == Validating {
        PostState(Plain(Connecting, conn.configId));
      }
    }

    method HandleSwitch(id: Ulid, reply: ReplyChan)
      requires Valid() && reply.buf == []
      modifies this, world, reply
      ensures Does(H.HandleSwitch(old(Abs()), id, reply.to)) && |reply.buf| == 1
      ensures cmds == old(cmds)
    {
      if conn.state == Disconnecting {
        reply.Send(AlreadyConnected, world);
        return;
      }
      if conn.state == Disconnected || conn.state == Error {
        HandleConnect(id, reply);
        return;
      }
      if activeId == id {
        reply.Send(Accepted, world);
        return;
      }
      var discardReply := new ReplyChan(None);
      HandleDisconnect(discardReply);
      var _ := discardReply.Recv();
      pendingSwitch := id;
      reply.Send(Accepted, world);
    }

    /** The tail shared by both teardown reports: back to Disconnected, then any deferred connect. */
    method FinishTeardown()
      requires Valid()
      modifies this, world
      ensures Does(H.FinishTeardown(old(Abs()))) && armed == old(armed) && cmds == old(cmds)
    {
      child := None;
      childExitCC := None;
      activeId := ZERO_ULID;
      PostState(IDLE);
      if pendingSwitch != ZERO_ULID {
        var id := pendingSwitch;
        pendingSwitch := ZERO_ULID;
        var discardReply := new ReplyChan(None);
        HandleConnect(id, discardReply);
        var _ := discardReply.Recv();
      }
    }

    method HandleConnectDone(gen: nat, result: RawResult)
      requires Valid() && ResultOk(result)
      requires result.cleanup != null ==> result.cleanup != armed
      modifies this, world, result.cleanup
      ensures Does(H.HandleConnectDone(old(Abs()), gen, old(ResultValue(result))))
      ensures cmds == old(cmds)
    {
      if gen != opGen {
        if result.cleanup != null {
          result.cleanup.Run(world);
        }
        if conn.state == Disconnecting {
          FinishTeardown();
        }
        return;
      }
      cancelConnect := None;
      match result.err {
        case Some(Canceled) =>
          PostState(IDLE);
        case Some(DeadlineExceeded) =>
          PostState(Faulty("connect_timeout"));
          ArmAutoRevert();
        case Some(Fault(symbol)) =>
          PostState(Faulty(symbol));
          ArmAutoRevert();
        case None =>
          child := result.child;
          childExitCC := result.child;
          armed := result.cleanup;
          activeId := result.id;
          PostState(ConnStatus(Connected, Some(result.id), result.child, ""));
      }
    }

    method HandleDisconnect(reply: ReplyChan)
      requires Valid() && reply.buf == []
      modifies this, world, reply
      ensures Does(H.HandleDisconnect(old(Abs()), reply.to)) && |reply.buf| == 1
      ensures cmds == old(cmds)
    {
      pendingSwitch := ZERO_ULID;
      match conn.state {
        case Disconnected =>
          reply.Send(NotConnected, world);
        case Disconnecting =>
          reply.Send(Accepted, world);
        case Validating | Connecting =>
          DisconnectWorker(reply);
        case Connected | Error =>
          DisconnectArmed(reply);
      }
    }

    /** The Validating and Connecting arm of a disconnect. */
    method DisconnectWorker(reply: ReplyChan)
      requires Valid() && reply.buf == [] && (conn.state == Validating || conn.state == Connecting)
      requires pendingSwitch == ZERO_ULID
      modifies this, world, reply
      ensures Does(H.HandleDisconnect(old(Abs()), reply.to)) && |reply.buf| == 1
      ensures cmds == old(cmds)
    {
      reply.Send(Accepted, world);
      opGen := opGen + 1;
      PostState(Plain(Disconnecting, conn.configId));
      if cancelConnect.Some? {
        world.Do(Cancel(cancelConnect.value));
        cancelConnect := None;
      }
    }

    /** The Connected and Error arm of a disconnect. */
    method DisconnectArmed(reply: ReplyChan)
      requires Valid() && reply.buf == [] && (conn.state == Connected || conn.state == Error)
      requires pendingSwitch == ZERO_ULID
      modifies this, world, reply
      ensures Does(H.HandleDisconnect(old(Abs()), reply.to)) && |reply.buf| == 1
      ensures cmds == old(cmds)
    {
      if armed == null {
        reply.Send(Accepted, world);
        child := None;
        childExitCC := None;
        activeId := ZERO_ULID;
        PostState(IDLE);
        return;
      }
      reply.Send(Accepted, world);
      opGen := opGen + 1;
      var gen := opGen;
      var stack := armed.entries[0].child;
      armed := null;
      PostState(Plain(Disconnecting, conn.configId));
      world.Do(SpawnTeardown(gen, stack));
    }

    method HandleDisconnectDone(gen: nat)
      requires Valid()
      modifies this, world
      ensures Does(H.HandleDisconnectDone(old(Abs()), gen)) && cmds == old(cmds)
    {
      if gen != opGen {
        return;
      }
      FinishTeardown();
    }

    method HandleChildExit()
      requires Valid()
      modifies this, world, armed
      ensures Does(H.HandleChildExit(old(Abs()))) && cmds == old(cmds)
    {
      child := None;
      childExitCC := None;
      if conn.state == Disconnecting {
        return;
      }
      var stack := armed;
      armed := null;
      if stack != null {
        stack.Run(world);
      }
      activeId := ZERO_ULID;
      PostState(Faulty("xray_died_early"));
      ArmAutoRevert();
    }

    method HandleAutoRevert()
      requires Valid()
      modifies this, world
      ensures Does(H.HandleAutoRevert(old(Abs()))) && cmds == old(cmds) && armed == old(armed)
    {
      if conn.state != Error {
        return;
      }
      activeId := ZERO_ULID;
      PostState(IDLE);
    }

    method HandleGetStatus(reply: ReplyChan)
      requires Valid() && reply.buf == []
      modifies world, reply
      ensures Does(H.HandleGetStatus(old(Abs()), reply.to)) && |reply.buf| == 1
    {
      reply.Send(StatusIs(conn), world);
    }

    /** Gives up everything the actor holds: a running worker's context, the armed stack, every field. */
    method Release()
      requires Valid()
      modifies this, world, armed
      ensures Valid() && armed == null && cmds == old(cmds)
      ensures Abs() == old(Abs()).(cancelConnect := None, armed := None, child := None, childExitCC := None,
                                   activeId := ZERO_ULID, pendingSwitch := ZERO_ULID, timer := Off)
      ensures world.fx == old(world.fx) + (H.CancelOf(old(Abs())) + H.RunStack(old(Abs()).armed))
    {
      ghost var cancel := H.CancelOf(Abs());
      if cancelConnect.Some? {
        world.Do(Cancel(cancelConnect.value));
        cancelConnect := None;
      }
      assert world.fx == old(world.fx) + cancel;
      if armed != null {
        armed.Run(world);
        armed := null;
      }
      child := None;
      childExitCC := None;
      activeId := ZERO_ULID;
      pendingSwitch := ZERO_ULID;
      CancelAutoRevert();
    }

    method HandleShutdown()
      requires Valid()
      modifies this, world, armed
      ensures Does(H.HandleShutdown(old(Abs()))) && cmds == old(cmds)
      ensures armed == null
    {
      Release();
      if conn.state != Disconnected {
        PostState(IDLE);
      }
      world.Do(CloseDone);
    }

    method Handle(c: Command)
      requires Valid() && c.Ready() && (armed != null ==> armed !in c.Objects())
      modifies this, world, armed, c.Objects()
      ensures Does(H.Handle(old(Abs()), old(c.Value()))) && cmds == old(cmds)
      ensures c.HasReply() ==> |c.reply.buf| == 1
    {
      match c {
        case CmdConnect(id, reply) => HandleConnect(id, reply);
        case CmdDisconnect(reply) => HandleDisconnect(reply);
        case CmdSwitch(id, reply) => HandleSwitch(id, reply);
        case CmdGetStatus(reply) => HandleGetStatus(reply);
        case CmdConnectProgress(gen, newState) => HandleConnectProgress(gen, newState);
        case CmdConnectDone(gen, result) => HandleConnectDone(gen, result);
        case CmdDisconnectDone(gen) => HandleDisconnectDone(gen);
        case CmdAutoRevert => HandleAutoRevert();
        case CmdChildExit => HandleChildExit();
        case CmdShutdown => HandleShutdown();
      }
    }

    /** The command arm of the event loop. */
    method TakeCommand(c: Command)
      requires Valid() && c.Ready() && (armed != null ==> armed !in c.Objects())
      modifies this, world, armed, c.Objects()
      ensures Does(H.TakeCommand(old(Abs()), old(c.Value()))) && cmds == old(cmds)
      ensures c.HasReply() ==> |c.reply.buf| == 1
    {
      if ShouldCancel(c) {
        CancelAutoRevert();
      }
      Handle(c);
    }

    /** The child-exit arm of the event loop. */
    method TakeChildExit()
      requires Valid()
      modifies this, world, armed
      ensures Does(H.TakeChildExit(old(Abs()))) && cmds == old(cmds)
    {
      CancelAutoRevert();
      childExitCC := None;
      Handle(CmdChildExit);
    }

    method ReplyShuttingDown(c: Command)
      requires Valid() && c.Ready() && !c.CmdShutdown?
      modifies world, c.Objects()
      ensures armed == old(armed) && Valid()
      ensures Does(H.DrainCommand(old(Abs()), old(c.Value())))
      ensures c.HasReply() ==> |c.reply.buf| == 1
    {
      match c {
        case CmdConnect(_, reply) => reply.Send(ShuttingDown, world);
        case CmdDisconnect(reply) => reply.Send(ShuttingDown, world);
        case CmdSwitch(_, reply) => reply.Send(ShuttingDown, world);
        case CmdGetStatus(reply) => reply.Send(NoStatus, world);
        case _ =>
      }
    }

    method DrainOne(c: Command)
      requires Valid() && c.Ready() && (armed != null ==> armed !in c.Objects())
      modifies this, world, armed, c.Objects()
      ensures Does(H.DrainCommand(old(Abs()), old(c.Value())))
      ensures cmds == old(cmds) && (armed == old(armed) || armed == null)
      ensures c.HasReply() ==> |c.reply.buf| == 1
    {
      if c.CmdShutdown? {
        HandleShutdown();
      } else {
        ReplyShuttingDown(c);
      }
    }

    /** Answering one command leaves the others as they were. */
    method DrainHead()
      requires Valid() && cmds != [] && QueueReady(cmds) && (armed != null ==> armed !in AllObjects(cmds))
      modifies this, world, armed, cmds[0].Objects()
      ensures cmds == old(cmds)[1..] && QueueReady(cmds) && Values(cmds) == old(Values(cmds))[1..]
      ensures Does(H.DrainCommand(old(Abs()), old(Values(cmds))[0]))
      ensures armed == old(armed) || armed == null
      ensures old(cmds)[0].HasReply() ==> |old(cmds)[0].reply.buf| == 1
    {
      var c := cmds[0];
      ghost var q0, vs := cmds, Values(cmds);
      assert forall o :: o in c.Objects() ==> o in AllObjects(cmds);
      cmds := cmds[1..];
      DrainOne(c);
      forall i | 0 <= i < |cmds| ensures cmds[i].Ready() && cmds[i].Value() == vs[i + 1] {
        assert cmds[i] == q0[i + 1] && q0[i + 1].Objects() !! c.Objects();
        assert armed != null ==> armed !in q0[i + 1].Objects();
      }
    }

    /** Answers everything still queued; a queued shutdown gets its full treatment. */
    method DrainOnShutdown()
      requires Valid() && QueueReady(cmds) && (armed != null ==> armed !in AllObjects(cmds))
      modifies this, world, armed, AllObjects(cmds)
      ensures Does(H.DrainAll(old(Abs()), old(Values(cmds)))) && cmds == []
    {
      hide H.DrainAll;
      hide H.DrainCommand;
      ghost var m0, vs, done := Abs(), Values(cmds), [];
      while cmds != []
        invariant Valid() && QueueReady(cmds) && (armed == old(armed) || armed == null)
        invariant AllObjects(cmds) <= old(AllObjects(cmds))
        invariant world.fx == old(world.fx) + done
        invariant H.DrainAll(m0, vs)
          == H.Out(H.DrainAll(Abs(), Values(cmds)).m, done + H.DrainAll(Abs(), Values(cmds)).fx)
        decreases |cmds|
      {
        ghost var q0, rest := cmds, Values(cmds);
        ghost var d := H.DrainCommand(Abs(), rest[0]);
        DrainStep(Abs(), rest, done);
        DrainHead();
        assert forall i :: 0 <= i < |cmds| ==> cmds[i] == q0[i + 1];
        done := done + d.fx;
      }
      DrainNone(Abs());
    }
  }
}
