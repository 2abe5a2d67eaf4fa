/** doConnect as one sequential routine, and its agreement with the worker's program counter. */
module ConnectWorker {
  import opened Base
  import opened Tunnel
  import opened Handlers
  import opened WorkerSteps
  import opened Cleanup

  /** What an error chain contains, as far as anyone looks: a context error, or a stable symbol. */
  datatype Raw = RawCanceled | RawDeadline | RawOther(symbol: string)

  datatype Validation = Broken(err: Raw) | Rejected | Good

  /** A wait that failed, and whether the attempt's own deadline had passed by then. */
  datatype Wait = Wait(err: Raw, ctxDeadline: bool)

  /** How each blocking point of one connect attempt turns out. */
  datatype Script = Script(
    preCheck: Option<Raw>,
    path: Option<Raw>,
    validate: Validation,
    announce: Option<Raw>,
    preflight: Option<Raw>,
    fork: Option<Raw>,
    alive: Option<Wait>,
    socks: Option<Wait>)

  /** An error passed on as it is. */
  function Bare(e: Raw): Failure {
    match e
    case RawCanceled => Canceled
    case RawDeadline => DeadlineExceeded
    case RawOther(symbol) => Fault(symbol)
  }

  /** An error wrapped under a symbol; a context error stays visible through the wrapping. */
  function Wrap(symbol: string, e: Raw): Failure {
    match e
    case RawCanceled => Canceled
    case RawDeadline => DeadlineExceeded
    case RawOther(_) => Fault(symbol)
  }

  /** A failed wait is a connect timeout if any deadline is behind it. */
  function WrapWait(symbol: string, w: Wait): Failure {
    if w.err.RawDeadline? || w.ctxDeadline then Wrap("connect_timeout", w.err) else Wrap(symbol, w.err)
  }

  function Outcome1(e: Option<Raw>): Outcome {
    if e.Some? then Fail(Bare(e.value)) else Pass
  }

  /** The outcome the script holds for the point the worker has reached. */
  function OutcomeAt(sc: Script, pc: Pc): Outcome {
    match pc
    case PreCheck => Outcome1(sc.preCheck)
    case FindPath => Outcome1(sc.path)
    case Validate =>
      (match sc.validate
       case Broken(e) => Fail(Bare(e))
       case Rejected => Fail(Fault("config_invalid"))
       case Good => Pass)
    case Announce => Outcome1(sc.announce)
    case Preflight => if sc.preflight.Some? then Fail(Wrap("xray_spawn_failed", sc.preflight.value)) else Pass
    case Fork => if sc.fork.Some? then Fail(Wrap("xray_spawn_failed", sc.fork.value)) else Pass
    case AwaitAlive(_) => if sc.alive.Some? then Fail(WrapWait("xray_died_early", sc.alive.value)) else Pass
    case AwaitSocks(_) => if sc.socks.Some? then Fail(WrapWait("inbound_not_ready", sc.socks.value)) else Pass
    case Handshake(_) => Pass
    case Unwind(_, _) => Pass
    case Deliver(_) => Pass
  }

  function StepsLeft(pc: Pc): nat {
    match pc
    case PreCheck => 10
    case FindPath => 9
    case Validate => 8
    case Announce => 7
    case Preflight => 6
    case Fork => 5
    case AwaitAlive(_) => 4
    case AwaitSocks(_) => 3
    case Handshake(_) => 2
    case Unwind(_, _) => 1
    case Deliver(_) => 0
  }

  /** The worker's small steps, iterated under the script until it has a result. */
  function Drive(sc: Script, id: Ulid, pc: Pc, spawned: ChildId): (r: Pc)
    ensures r.Deliver?
    decreases StepsLeft(pc)
  {
    if pc.Deliver? then pc else Drive(sc, id, WorkerNext(id, pc, OutcomeAt(sc, pc), spawned), spawned)
  }

  /** The children the small steps stop on the way, and whether they announce and spawn. */
  function DriveStops(sc: Script, id: Ulid, pc: Pc, spawned: ChildId): seq<Effect>
    decreases StepsLeft(pc)
  {
    if pc.Deliver? then []
    else (if pc.Unwind? then [StopChild(pc.child)] else [])
         + DriveStops(sc, id, WorkerNext(id, pc, OutcomeAt(sc, pc), spawned), spawned)
  }

  /** What the worker hands back; `cleanup` is the stack itself. */
  datatype RawResult = RawResult(id: Ulid, child: Option<ChildId>, cleanup: CleanupStack?, err: Option<Failure>)

  ghost predicate ResultOk(r: RawResult)
    reads r.cleanup
  {
    if r.err.None? then
      r.child.Some? && r.cleanup != null && !r.cleanup.ran && r.cleanup.entries == [Entry("stop-xray", r.child.value)]
    else
      r.cleanup == null
  }

  /** The result as the actor's specification sees it: a stack is the child it stops. */
  ghost function ResultValue(r: RawResult): ConnectResult
    requires ResultOk(r)
    reads r.cleanup
  {
    ConnectResult(r.id, r.child, if r.cleanup == null then None else Some(r.cleanup.entries[0].child), r.err)
  }

  function Failing(o: Outcome): Option<Failure> {
    if o.Pass? then None else Some(o.failure)
  }

  /** The failure of the first point that does not pass. */
  function FirstFailure(sc: Script, c: ChildId): Option<Failure> {
    if OutcomeAt(sc, PreCheck).Fail? then Failing(OutcomeAt(sc, PreCheck))
    else if OutcomeAt(sc, FindPath).Fail? then Failing(OutcomeAt(sc, FindPath))
    else if OutcomeAt(sc, Validate).Fail? then Failing(OutcomeAt(sc, Validate))
    else if OutcomeAt(sc, Announce).Fail? then Failing(OutcomeAt(sc, Announce))
    else if OutcomeAt(sc, Preflight).Fail? then Failing(OutcomeAt(sc, Preflight))
    else if OutcomeAt(sc, Fork).Fail? then Failing(OutcomeAt(sc, Fork))
    else if OutcomeAt(sc, AwaitAlive(c)).Fail? then Failing(OutcomeAt(sc, AwaitAlive(c)))
    else Failing(OutcomeAt(sc, AwaitSocks(c)))
  }

  predicate Spawns(sc: Script) {
    sc.preCheck.None? && sc.path.None? && sc.validate.Good? && sc.announce.None?
    && sc.preflight.None? && sc.fork.None?
  }

  /** The supervisor's Start: the check of its context, then the fork. */
  method Start(sc: Script) returns (err: Option<Raw>)
    ensures err.None? <==> sc.preflight.None? && sc.fork.None?
    ensures err.Some? ==> err == if sc.preflight.Some? then sc.preflight else sc.fork
  {
    if sc.preflight.Some? {
      return sc.preflight;
    }
    return sc.fork;
  }

  /** The phases up to the hand-over decision; the caller runs or hands over `cu`. */
  method Phases(sc: Script, spawned: ChildId, cu: CleanupStack)
    returns (child: Option<ChildId>, err: Option<Failure>)
    requires cu.entries == [] && !cu.ran
    modifies cu
    ensures !cu.ran
    ensures cu.entries == if Spawns(sc) then [Entry("stop-xray", spawned)] else []
    ensures child == if Spawns(sc) then Some(spawned) else None
    ensures err == FirstFailure(sc, spawned)
  {
    child, err := None, None;
    if sc.preCheck.Some? {
      err := Some(Bare(sc.preCheck.value));
      return;
    }
    if sc.path.Some? {
      err := Some(Bare(sc.path.value));
      return;
    }
    match sc.validate {
      case Broken(e) =>
        err := Some(Bare(e));
        return;
      case Rejected =>
        err := Some(Fault("config_invalid"));
        return;
      case Good =>
    }
    if sc.announce.Some? {
      err := Some(Bare(sc.announce.value));
      return;
    }
    var starting := Start(sc);
    if starting.Some? {
      err := Some(Wrap("xray_spawn_failed", starting.value));
      return;
    }
    cu.Push("stop-xray", spawned);
    child := Some(spawned);
    if sc.alive.Some? {
      var w := sc.alive.value;
      if w.err.RawDeadline? || w.ctxDeadline {
        err := Some(Wrap("connect_timeout", w.err));
      } else {
        err := Some(Wrap("xray_died_early", w.err));
      }
      return;
    }
    if sc.socks.Some? {
      var w := sc.socks.value;
      if w.err.RawDeadline? || w.ctxDeadline {
        err := Some(Wrap("connect_timeout", w.err));
      } else {
        err := Some(Wrap("inbound_not_ready", w.err));
      }
      return;
    }
  }

  /**
   * One connect attempt. Whatever the script, the result is the one the small steps reach, a failure
   * after the spawn stops the child exactly once, and a success hands over a stack that will.
   */
  method DoConnect(sc: Script, id: Ulid, spawned: ChildId, world: World) returns (result: RawResult)
    modifies world
    ensures ResultOk(result)
    ensures result.cleanup != null ==> fresh(result.cleanup)
    ensures Deliver(ResultValue(result)) == Drive(sc, id, PreCheck, spawned)
    ensures world.fx == old(world.fx) + DriveStops(sc, id, PreCheck, spawned)
    ensures result.err.None? ==> world.fx == old(world.fx)
    ensures result.err.Some? && result.child.Some? ==> world.fx == old(world.fx) + [StopChild(spawned)]
  {
    var cu := new CleanupStack();
    var child, err := Phases(sc, spawned, cu);
    if err.Some? {
      cu.Run(world);
      result := RawResult(id, child, null, err);
    } else {
      result := RawResult(id, child, cu, None);
    }
    DriveUnrolled(sc, id, spawned);
  }

  /** The small steps, all the way: who fails first decides, and a spawned child is stopped or handed over. */
  lemma DriveUnrolled(sc: Script, id: Ulid, spawned: ChildId)
    ensures Drive(sc, id, PreCheck, spawned)
      == Deliver(ConnectResult(id, if Spawns(sc) then Some(spawned) else None,
                               if FirstFailure(sc, spawned).None? then Some(spawned) else None,
                               FirstFailure(sc, spawned)))
    ensures DriveStops(sc, id, PreCheck, spawned)
      == if Spawns(sc) && FirstFailure(sc, spawned).Some? then [StopChild(spawned)] else []
  {
    DriveTail(sc, id, spawned);
    if Spawns(sc) {
      assert Drive(sc, id, Fork, spawned) == Drive(sc, id, AwaitAlive(spawned), spawned);
      assert DriveStops(sc, id, Fork, spawned) == DriveStops(sc, id, AwaitAlive(spawned), spawned);
    }
    DriveHead(sc, id, spawned);
  }

  function TailFailure(sc: Script, c: ChildId): Option<Failure> {
    if sc.alive.Some? then Failing(OutcomeAt(sc, AwaitAlive(c))) else Failing(OutcomeAt(sc, AwaitSocks(c)))
  }

  /** One small step of the drive. */
  lemma DriveOn(sc: Script, id: Ulid, pc: Pc, c: ChildId)
    requires !pc.Deliver? && !pc.Unwind?
    ensures var next := WorkerNext(id, pc, OutcomeAt(sc, pc), c);
      && Drive(sc, id, pc, c) == Drive(sc, id, next, c)
      && DriveStops(sc, id, pc, c) == DriveStops(sc, id, next, c)
  {
  }

  lemma UnwindTail(sc: Script, id: Ulid, c: ChildId, f: Failure)
    ensures Drive(sc, id, Unwind(c, f), c) == Failed(id, Some(c), f)
    ensures DriveStops(sc, id, Unwind(c, f), c) == [StopChild(c)]
  {
  }

  lemma DriveTail(sc: Script, id: Ulid, c: ChildId)
    ensures Drive(sc, id, AwaitAlive(c), c)
      == Deliver(ConnectResult(id, Some(c), if sc.alive.None? && sc.socks.None? then Some(c) else None,
                               TailFailure(sc, c)))
    ensures DriveStops(sc, id, AwaitAlive(c), c)
      == if sc.alive.None? && sc.socks.None? then [] else [StopChild(c)]
  {
    if sc.alive.Some? {
      UnwindTail(sc, id, c, TailFailure(sc, c).value);
      DriveOn(sc, id, AwaitAlive(c), c);
    } else {
      DriveOn(sc, id, AwaitAlive(c), c);
      DriveOn(sc, id, AwaitSocks(c), c);
      if sc.socks.Some? {
        UnwindTail(sc, id, c, TailFailure(sc, c).value);
      } else {
        DriveOn(sc, id, Handshake(c), c);
      }
    }
  }

  lemma DriveHead(sc: Script, id: Ulid, c: ChildId)
    ensures Spawns(sc) ==> Drive(sc, id, PreCheck, c) == Drive(sc, id, Fork, c)
    ensures Spawns(sc) ==> DriveStops(sc, id, PreCheck, c) == DriveStops(sc, id, Fork, c)
    ensures !Spawns(sc) ==> Drive(sc, id, PreCheck, c) == Failed(id, None, FirstFailure(sc, c).value)
    ensures !Spawns(sc) ==> DriveStops(sc, id, PreCheck, c) == []
  {
    DriveOn(sc, id, PreCheck, c);
    if sc.preCheck.None? {
      DriveOn(sc, id, FindPath, c);
      if sc.path.None? {
        DriveOn(sc, id, Validate, c);
        if sc.validate.Good? {
          DriveOn(sc, id, Announce, c);
          if sc.announce.None? {
            DriveOn(sc, id, Preflight, c);
            if sc.preflight.None? {
              DriveOn(sc, id, Fork, c);
            }
          }
        }
      }
    }
  }

  /** A wait that fails past a deadline, and was not cancelled, is posted as a connect timeout. */
  lemma TimeoutIsPosted(m: Actor, symbol: string, w: Wait)
    requires w.err.RawDeadline? || (w.ctxDeadline && !w.err.RawCanceled?)
    ensures FailConnect(m, WrapWait(symbol, w)).m.conn == Faulty("connect_timeout")
    ensures FailConnect(m, WrapWait(symbol, w)).m.timer == Ticking
  {
  }

  // ---------- what is posted for each way an attempt can fail ----------

  /** A cancellation is no error, a deadline is a timeout, and anything else shows under `symbol`. */
  function Shows(e: Raw, symbol: string): ConnStatus {
    match e
    case RawCanceled => ConnStatus(Disconnected, None, None, "")
    case RawDeadline => ConnStatus(Error, None, None, "connect_timeout")
    case RawOther(_) => ConnStatus(Error, None, None, symbol)
  }

  /** The symbol an error brings along itself. */
  function Own(e: Raw): string {
    if e.RawOther? then e.symbol else ""
  }

  /** A wait behind which the attempt's own deadline had passed shows as a timeout, unless it was cancelled. */
  function ShowsWait(w: Wait, symbol: string): ConnStatus {
    Shows(w.err, if w.ctxDeadline then "connect_timeout" else symbol)
  }

  /** The actor posts `shown` for this failure, and starts the revert timer exactly if that is an Error. */
  predicate Posts(m: Actor, f: Failure, shown: ConnStatus) {
    var o := FailConnect(m, f);
    o.fx == [Post(shown)] && o.m == m.(conn := shown, timer := if shown.state == Error then Ticking else m.timer)
  }

  /**
   * The first point that fails decides what is posted: before the spawn an error shows under its own symbol, a
   * rejected config as config_invalid, a failed start as xray_spawn_failed; after it a wait shows as
   * xray_died_early or inbound_not_ready, unless a deadline is behind it. Nothing is posted as failed if nothing
   * fails.
   */
  lemma FailureSymbols(sc: Script, c: ChildId, m: Actor)
    ensures var f := FirstFailure(sc, c);
      if sc.preCheck.Some? then f.Some? && Posts(m, f.value, Shows(sc.preCheck.value, Own(sc.preCheck.value)))
      else if sc.path.Some? then f.Some? && Posts(m, f.value, Shows(sc.path.value, Own(sc.path.value)))
      else if sc.validate.Broken? then f.Some? && Posts(m, f.value, Shows(sc.validate.err, Own(sc.validate.err)))
      else if sc.validate.Rejected? then f.Some? && Posts(m, f.value, ConnStatus(Error, None, None, "config_invalid"))
      else if sc.announce.Some? then f.Some? && Posts(m, f.value, Shows(sc.announce.value, Own(sc.announce.value)))
      else if sc.preflight.Some? then f.Some? && Posts(m, f.value, Shows(sc.preflight.value, "xray_spawn_failed"))
      else if sc.fork.Some? then f.Some? && Posts(m, f.value, Shows(sc.fork.value, "xray_spawn_failed"))
      else if sc.alive.Some? then f.Some? && Posts(m, f.value, ShowsWait(sc.alive.value, "xray_died_early"))
      else if sc.socks.Some? then f.Some? && Posts(m, f.value, ShowsWait(sc.socks.value, "inbound_not_ready"))
      else f.None?
  {
  }
}
