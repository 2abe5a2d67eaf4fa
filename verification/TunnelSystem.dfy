/**
 * The actor together with everything that runs beside it: its command queue, the connect
 * workers, the teardown goroutines, the revert timer and the ledger of spawned children.
 * A label resolves every choice of scheduler, network and user; `Next` is then a function.
 */
module TunnelSystem {
  import opened Base
  import opened Tunnel
  import opened Handlers
  import opened WorkerSteps

  const QUEUE_CAP := 32

  datatype Thread =
    | Worker(gen: nat, id: Ulid, cancelled: bool, pc: Pc)
    | Teardown(gen: nat, stack: ChildId, ran: bool)
    | Revert

  /** `stops` counts how often a stop entry for this child has returned. */
  datatype Kid = Kid(alive: bool, stops: nat)

  datatype Event =
    | Posted(status: ConnStatus)
    | Replied(ch: ChanId, code: ReplyCode)
    | DoneClosed
    | Spawned(child: ChildId)
    | Stopped(child: ChildId)

  datatype Mode = Running | Draining | Exited

  datatype Request = ReqConnect(id: Ulid) | ReqSwitch(id: Ulid) | ReqDisconnect | ReqGetStatus

  datatype Sys = Sys(
    m: Actor,
    todo: seq<Effect>,     // effects of the handler in progress, oldest first
    q: seq<Cmd>,
    threads: seq<Thread>,
    kids: seq<Kid>,
    log: seq<Event>,
    nextCh: ChanId,
    mode: Mode,
    shutPosted: bool,      // Shutdown has put its command into the queue
    shut: bool,            // the shutdown command has been handled
    ctxDone: bool,
    passed: multiset<Ulid>) // Switch calls that have looked at the context and not sent their command yet

  const INIT := Sys(FRESH_ACTOR, [], [], [], [], [], 0, Running, false, false, false, multiset{})

  datatype Label =
    | Look(id: Ulid)
    | TurnBack(id: Ulid)
    | Call(req: Request)
    | CallShutdown
    | CancelCtx
    | Take
    | TakeExit
    | Exec(dead: bool)
    | BeginDrain
    | DrainOne
    | Finish
    | WorkerStep(i: nat, outcome: Outcome, dead: bool)
    | TeardownStop(i: nat, dead: bool)
    | PostBack(i: nat, drop: bool)
    | TimerFires
    | ChildDies(child: ChildId)

  function RequestCmd(r: Request, ch: ChanId): Cmd {
    match r
    case ReqConnect(id) => Connect(id, ch)
    case ReqSwitch(id) => Switch(id, ch)
    case ReqDisconnect => Disconnect(ch)
    case ReqGetStatus => GetStatus(ch)
  }

  /** The command a finished goroutine posts back, if it has reached that point. */
  function PostBackCmd(t: Thread): Option<Cmd> {
    match t
    case Worker(gen, _, _, pc) => if pc.Deliver? then Some(ConnectDone(gen, pc.result)) else None
    case Teardown(gen, _, ran) => if ran then Some(DisconnectDone(gen)) else None
    case Revert => Some(AutoRevert)
  }

  /**
   * The goroutine is about to post to the actor. A post looks at the context before it sends. The look is
   * taken on arrival: a context that has ended stays ended, so a goroutine that arrives too late ends at
   * once, and one that looks late and fails does what one that gives up its send does.
   */
  predicate AtPost(t: Thread) {
    PostBackCmd(t).Some? || (t.Worker? && t.pc.Announce?)
  }

  predicate HasRoom(s: Sys) {
    |s.q| < QUEUE_CAP
  }

  /** The actor is between two commands. */
  predicate Idle(s: Sys) {
    s.todo == []
  }

  predicate CmdOk(c: Cmd) {
    c.ConnectDone? ==> c.result.WellFormed()
  }

  predicate Enabled(s: Sys, l: Label) {
    match l
    case Look(_) => !s.ctxDone
    case TurnBack(id) => s.ctxDone && id in s.passed
    case Call(r) => HasRoom(s) && (r.ReqSwitch? ==> r.id in s.passed)
    case CallShutdown => HasRoom(s) && !s.shutPosted
    case CancelCtx => s.shutPosted && !s.ctxDone
    case Take => s.mode == Running && Idle(s) && s.q != [] && CmdOk(s.q[0])
    case TakeExit =>
      && s.mode == Running && Idle(s)
      && s.m.childExitCC.Some? && s.m.childExitCC.value < |s.kids| && !s.kids[s.m.childExitCC.value].alive
    case Exec(_) =>
      && s.todo != []
      && (s.todo[0].StopChild? ==> s.todo[0].child < |s.kids|)
    case BeginDrain => s.mode == Running && Idle(s) && s.ctxDone
    case DrainOne => s.mode == Draining && Idle(s) && s.q != []
    case Finish => s.mode == Draining && Idle(s) && s.q == []
    case WorkerStep(i, o, _) =>
      && i < |s.threads| && s.threads[i].Worker? && !s.threads[i].pc.Deliver?
      && Allowed(s.threads[i].pc, o, s.threads[i].cancelled || s.ctxDone)
      && (s.threads[i].pc.Announce? ==> if o.Pass? then HasRoom(s) else s.ctxDone)
      && (s.threads[i].pc.Unwind? ==> s.threads[i].pc.child < |s.kids|)
    case TeardownStop(i, _) =>
      && i < |s.threads| && s.threads[i].Teardown? && !s.threads[i].ran && s.threads[i].stack < |s.kids|
    case PostBack(i, drop) =>
      && i < |s.threads| && PostBackCmd(s.threads[i]).Some?
      && (if drop then s.ctxDone else HasRoom(s))
    case TimerFires => s.m.timer == Ticking
    case ChildDies(c) => c < |s.kids| && s.kids[c].alive
  }

  /** A stop entry for `c` returns; `dead` says whether the child is really gone. */
  function StopReturns(s: Sys, c: ChildId, dead: bool): Sys
    requires c < |s.kids|
  {
    s.(kids := s.kids[c := Kid(s.kids[c].alive && !dead, s.kids[c].stops + 1)],
       log := s.log + [Stopped(c)])
  }

  function CancelWorker(t: Thread, gen: nat): Thread {
    if t.Worker? && t.gen == gen then t.(cancelled := true) else t
  }

  function CancelWorkers(ts: seq<Thread>, gen: nat): seq<Thread> {
    seq(|ts|, i requires 0 <= i < |ts| => CancelWorker(ts[i], gen))
  }

  /** Carry out the oldest pending effect. */
  function ExecOne(s: Sys, dead: bool): Sys
    requires Enabled(s, Exec(dead))
  {
    var s0 := s.(todo := s.todo[1..]);
    match s.todo[0]
    case Reply(ch, code) => s0.(log := s.log + [Replied(ch, code)])
    case Post(status) => s0.(log := s.log + [Posted(status)])
    case Spawn(gen, id) => s0.(threads := s.threads + [Worker(gen, id, false, PreCheck)])
    case Cancel(gen) => s0.(threads := CancelWorkers(s.threads, gen))
    case SpawnTeardown(gen, stack) => s0.(threads := s.threads + [Teardown(gen, stack, false)])
    case StopChild(c) => StopReturns(s0, c, dead)
    case CloseDone => s0.(log := s.log + [DoneClosed])
  }

  /** The goroutine at `i` has become `t`, or has ended if it got to a post that it can only give up. */
  function Moved(s: Sys, i: nat, t: Thread): seq<Thread>
    requires i < |s.threads|
  {
    if s.ctxDone && AtPost(t) then Without(s.threads, i) else s.threads[i := t]
  }

  function WorkerMoves(s: Sys, i: nat, o: Outcome, dead: bool): Sys
    requires Enabled(s, WorkerStep(i, o, dead))
  {
    var t := s.threads[i];
    var s1 := s.(threads := Moved(s, i, t.(pc := WorkerNext(t.id, t.pc, o, |s.kids|))));
    if t.pc.Announce? && o.Pass? then
      s1.(q := s.q + [ConnectProgress(t.gen, Connecting)])
    else if t.pc.Fork? && o.Pass? then
      s1.(kids := s.kids + [Kid(true, 0)], log := s.log + [Spawned(|s.kids|)])
    else if t.pc.Unwind? then
      StopReturns(s1, t.pc.child, dead)
    else
      s1
  }

  function Dispatch(s: Sys, o: Out): Sys {
    s.(m := o.m, todo := o.fx)
  }

  function Next(s: Sys, l: Label): Sys
    requires Enabled(s, l)
  {
    match l
    case Look(id) => s.(passed := s.passed + multiset{id})
    case TurnBack(id) => s.(passed := s.passed - multiset{id})
    case Call(r) =>
      s.(q := s.q + [RequestCmd(r, s.nextCh)], nextCh := s.nextCh + 1,
         passed := if r.ReqSwitch? then s.passed - multiset{r.id} else s.passed)
    case CallShutdown => s.(q := s.q + [Shutdown], shutPosted := true)
    case CancelCtx => s.(ctxDone := true)
    case Take =>
      Dispatch(s, TakeCommand(s.m, s.q[0])).(q := s.q[1..], shut := s.shut || s.q[0].Shutdown?)
    case TakeExit => Dispatch(s, TakeChildExit(s.m))
    case Exec(dead) => ExecOne(s, dead)
    case BeginDrain => s.(mode := Draining)
    case DrainOne =>
      Dispatch(s, DrainCommand(s.m, s.q[0])).(q := s.q[1..], shut := s.shut || s.q[0].Shutdown?)
    case Finish => s.(mode := Exited)
    case WorkerStep(i, o, dead) => WorkerMoves(s, i, o, dead)
    case TeardownStop(i, dead) =>
      var t := s.threads[i];
      StopReturns(s.(threads := Moved(s, i, t.(ran := true))), t.stack, dead)
    case PostBack(i, drop) =>
      var s1 := s.(threads := Without(s.threads, i));
      if drop then s1 else s1.(q := s.q + [PostBackCmd(s.threads[i]).value])
    case TimerFires =>
      s.(m := s.m.(timer := Fired), threads := if s.ctxDone then s.threads else s.threads + [Revert])
    case ChildDies(c) => s.(kids := s.kids[c := s.kids[c].(alive := false)])
  }

  /** `states` is a run: it takes the steps `labels` one after another. */
  ghost predicate IsRun(states: seq<Sys>, labels: seq<Label>) {
    && |states| == |labels| + 1
    && forall i :: 0 <= i < |labels| ==> Enabled(states[i], labels[i]) && states[i + 1] == Next(states[i], labels[i])
  }

  /** A run from the start of the daemon. */
  ghost predicate IsDaemonRun(states: seq<Sys>, labels: seq<Label>) {
    IsRun(states, labels) && states[0] == INIT
  }
}
