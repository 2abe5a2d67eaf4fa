/** The vocabulary of the tunnel state actor: states, commands, results and effects. */
module Tunnel {
  import opened Base

  /** A configuration id. Zero is the all-zero id, which the actor uses to mean "no id". */
  type Ulid = nat
  const ZERO_ULID: Ulid := 0

  /** A spawned child, named by its position in the order of spawning. */
  type ChildId = nat

  /** A one-slot reply channel, named by its position in the order of creation. */
  type ChanId = nat

  datatype TunnelState = Disconnected | Validating | Connecting | Connected | Disconnecting | Error

  /** The snapshot the actor broadcasts. Timestamps and free-text messages are not modelled. */
  datatype ConnStatus = ConnStatus(
    state: TunnelState,
    configId: Option<Ulid>,
    xrayPid: Option<ChildId>,
    errorSymbol: string)

  function Plain(state: TunnelState, configId: Option<Ulid>): ConnStatus {
    ConnStatus(state, configId, None, "")
  }

  function Faulty(symbol: string): ConnStatus {
    ConnStatus(Error, None, None, symbol)
  }

  const IDLE := Plain(Disconnected, None)

  /** What the actor can tell apart about a worker's error: `errors.Is` and the stable symbol. */
  datatype Failure = Canceled | DeadlineExceeded | Fault(symbol: string)

  /** A worker's result. `cleanup` names the child that the stack's one entry stops. */
  datatype ConnectResult = ConnectResult(
    id: Ulid,
    child: Option<ChildId>,
    cleanup: Option<ChildId>,
    err: Option<Failure>)
  {
    /** On success there is a child and a stack that stops it; on failure the stack is gone. */
    predicate WellFormed() {
      if err.None? then child.Some? && cleanup == child else cleanup.None?
    }
  }

  datatype ReplyCode =
    | Accepted
    | AlreadyConnected
    | NotConnected
    | Internal
    | ShuttingDown
    | StatusIs(conn: ConnStatus)
    | NoStatus

  datatype Cmd =
    | Connect(id: Ulid, ch: ChanId)
    | Disconnect(ch: ChanId)
    | Switch(id: Ulid, ch: ChanId)
    | GetStatus(ch: ChanId)
    | ConnectProgress(gen: nat, newState: TunnelState)
    | ConnectDone(gen: nat, result: ConnectResult)
    | DisconnectDone(gen: nat)
    | AutoRevert
    | ChildExit
    | Shutdown

  /** What a handler does to the world outside the actor's own fields, in program order. */
  datatype Effect =
    | Reply(ch: ChanId, code: ReplyCode)
    | Post(status: ConnStatus)
    | Spawn(gen: nat, id: Ulid)
    | Cancel(gen: nat)
    | SpawnTeardown(gen: nat, stack: ChildId)
    | StopChild(child: ChildId)
    | CloseDone

  /** `Off` is no timer at all. */
  datatype Timer = Off | Ticking | Fired

  /** The fields only the actor goroutine touches. */
  datatype Actor = Actor(
    conn: ConnStatus,
    armed: Option<ChildId>,
    child: Option<ChildId>,
    childExitCC: Option<ChildId>,
    activeId: Ulid,
    cancelConnect: Option<nat>,
    timer: Timer,
    opGen: nat,
    pendingSwitch: Ulid)

  const FRESH_ACTOR := Actor(IDLE, None, None, None, ZERO_ULID, None, Off, 0, ZERO_ULID)

  /** The read-only whitelist: these commands stop a running revert timer. */
  predicate ShouldCancelAutoRevert(c: Cmd) {
    c.Connect? || c.Disconnect? || c.Switch? || c.AutoRevert? || c.ChildExit? || c.Shutdown?
  }
}
