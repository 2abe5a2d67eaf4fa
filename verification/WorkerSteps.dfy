/**
 * The connect worker as a program counter: one step per blocking point of doConnect. Starting the child
 * takes two steps, since its context is looked at once, before the pipes are made and the process is
 * forked. Waiting for the inbound takes two as well: the dial looks at the context, the exchange on the
 * open connection does not.
 */
module WorkerSteps {
  import opened Base
  import opened Tunnel

  datatype Pc =
    | PreCheck
    | FindPath
    | Validate
    | Announce
    | Preflight
    | Fork
    | AwaitAlive(child: ChildId)
    | AwaitSocks(child: ChildId)
    | Handshake(child: ChildId)
    | Unwind(child: ChildId, failure: Failure)
    | Deliver(result: ConnectResult)

  /** How a blocking point comes back. */
  datatype Outcome = Pass | Fail(failure: Failure)

  function Failed(id: Ulid, child: Option<ChildId>, f: Failure): Pc {
    Deliver(ConnectResult(id, child, None, Some(f)))
  }

  /** One step of the worker; `spawned` names the child a successful start spawns. */
  function WorkerNext(id: Ulid, pc: Pc, o: Outcome, spawned: ChildId): Pc {
    match pc
    case PreCheck => if o.Pass? then FindPath else Failed(id, None, o.failure)
    case FindPath => if o.Pass? then Validate else Failed(id, None, o.failure)
    case Validate => if o.Pass? then Announce else Failed(id, None, o.failure)
    case Announce => if o.Pass? then Preflight else Failed(id, None, o.failure)
    case Preflight => if o.Pass? then Fork else Failed(id, None, o.failure)
    case Fork => if o.Pass? then AwaitAlive(spawned) else Failed(id, None, o.failure)
    case AwaitAlive(c) => if o.Pass? then AwaitSocks(c) else Unwind(c, o.failure)
    case AwaitSocks(c) => if o.Pass? then Handshake(c) else Unwind(c, o.failure)
    case Handshake(c) =>
      if o.Pass? then Deliver(ConnectResult(id, Some(c), Some(c), None)) else Unwind(c, o.failure)
    case Unwind(c, f) => Failed(id, Some(c), f)
    case Deliver(_) => pc
  }

  /**
   * Which outcomes the context allows: a cancelled worker gets no further than its next check. Between
   * two checks nothing holds it back.
   */
  predicate Allowed(pc: Pc, o: Outcome, cancelled: bool) {
    match pc
    case PreCheck => if cancelled then o == Fail(Canceled) || o == Fail(DeadlineExceeded)
                     else o == Pass || o == Fail(DeadlineExceeded)
    case Preflight => cancelled ==> o.Fail?
    case AwaitSocks(_) => cancelled ==> o.Fail?
    case Unwind(_, _) => o.Pass?
    case _ => true
  }
}
