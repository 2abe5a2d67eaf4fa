/** What holds in every state a run can reach before shutdown. */
module TunnelInvariant {
  import opened Base
  import opened Tunnel
  import opened Handlers
  import opened WorkerSteps
  import opened TunnelSystem

  // ---------- tokens: who will report back to the actor ----------

  datatype Token = ConnTok(gen: nat, id: Ulid) | TearTok(gen: nat)

  ghost function ThreadTokens(t: Thread): seq<Token> {
    match t
    case Worker(gen, id, _, _) => [ConnTok(gen, id)]
    case Teardown(gen, _, _) => [TearTok(gen)]
    case Revert => []
  }

  ghost function CmdTokens(c: Cmd): seq<Token> {
    match c
    case ConnectDone(gen, result) => [ConnTok(gen, result.id)]
    case DisconnectDone(gen) => [TearTok(gen)]
    case _ => []
  }

  ghost function FxTokens(e: Effect): seq<Token> {
    match e
    case Spawn(gen, id) => [ConnTok(gen, id)]
    case SpawnTeardown(gen, _) => [TearTok(gen)]
    case _ => []
  }

  /** Every outstanding operation: running, reported but not yet taken, or about to be started. */
  ghost function Tokens(s: Sys): seq<Token> {
    Gather(s.threads, ThreadTokens) + Gather(s.q, CmdTokens) + Gather(s.todo, FxTokens)
  }

  ghost predicate TokensOk(m: Actor, toks: seq<Token>) {
    match m.conn.state
    case Validating | Connecting =>
      m.conn.configId.Some? && toks == [ConnTok(m.opGen, m.conn.configId.value)]
    case Disconnecting =>
      && |toks| == 1
      && match toks[0] { case ConnTok(gen, _) => gen + 1 == m.opGen case TearTok(gen) => gen == m.opGen }
    case Disconnected | Connected | Error => toks == []
  }

  // ---------- ownership: who will run the stop entry of a child ----------

  ghost function ThreadStacks(t: Thread): seq<ChildId> {
    match t
    case Worker(_, _, _, pc) =>
      (match pc
       case AwaitAlive(c) => [c]
       case AwaitSocks(c) => [c]
       case Handshake(c) => [c]
       case Unwind(c, _) => [c]
       case Deliver(result) => OptionSeq(result.cleanup)
       case _ => [])
    case Teardown(_, stack, ran) => if ran then [] else [stack]
    case Revert => []
  }

  ghost function CmdStacks(c: Cmd): seq<ChildId> {
    if c.ConnectDone? then OptionSeq(c.result.cleanup) else []
  }

  ghost function FxStops(e: Effect): seq<ChildId> {
    if e.StopChild? then [e.child] else []
  }

  ghost function FxStacks(e: Effect): seq<ChildId> {
    match e
    case StopChild(c) => [c]
    case SpawnTeardown(_, c) => [c]
    case _ => []
  }

  /** One entry per holder of a cleanup stack that has not been run. */
  ghost function Owned(s: Sys): seq<ChildId> {
    Gather(s.threads, ThreadStacks) + Gather(s.q, CmdStacks) + Gather(s.todo, FxStacks) + OptionSeq(s.m.armed)
  }

  /** Every child but the newest has been stopped once; the newest at most once. */
  ghost predicate KidsOk(kids: seq<Kid>) {
    && (forall i :: 0 <= i < |kids| - 1 ==> kids[i].stops == 1)
    && (kids != [] ==> Last(kids).stops <= 1)
  }

  /** The child whose stop has not returned, if there is one. */
  ghost function Open(kids: seq<Kid>): seq<ChildId> {
    if kids != [] && Last(kids).stops == 0 then [|kids| - 1] else []
  }

  // ---------- the log of spawns and stops ----------

  ghost function EventLife(e: Event): seq<Event> {
    if e.Spawned? || e.Stopped? then [e] else []
  }

  /** Spawned 0, Stopped 0, Spawned 1, Stopped 1, ... */
  ghost function Alternating(kids: seq<Kid>): seq<Event> {
    if kids == [] then []
    else Alternating(kids[..|kids| - 1]) + [Spawned(|kids| - 1)]
         + if Last(kids).stops == 0 then [] else [Stopped(|kids| - 1)]
  }

  // ---------- the trace of posted states ----------

  ghost function EventPosts(e: Event): seq<ConnStatus> {
    if e.Posted? then [e.status] else []
  }

  ghost function FxPosts(e: Effect): seq<ConnStatus> {
    if e.Post? then [e.status] else []
  }

  /** The initial state and everything posted since, including posts still pending. */
  ghost function Trace(s: Sys): seq<ConnStatus> {
    [IDLE] + Gather(s.log, EventPosts) + Gather(s.todo, FxPosts)
  }

  /** The legal transitions between two consecutive posts, with the config id they carry. */
  predicate LegalStep(a: ConnStatus, b: ConnStatus) {
    && (b.xrayPid.Some? <==> b.state == Connected)
    && match b.state {
         case Disconnected => b == IDLE && a.state != Disconnected && a.state != Connected
         case Validating => b.configId.Some? && (a.state == Disconnected || a.state == Error)
         case Connecting => a.state == Validating && b.configId == a.configId
         case Connected => a.state == Connecting && b.configId == a.configId
         case Disconnecting =>
           (a.state == Validating || a.state == Connecting || a.state == Connected) && b.configId == a.configId
         case Error => a.state == Validating || a.state == Connecting || a.state == Connected
       }
  }

  ghost predicate LegalTrace(t: seq<ConnStatus>) {
    forall i :: 0 <= i < |t| - 1 ==> LegalStep(t[i], t[i + 1])
  }

  // ---------- the actor's fields ----------

  predicate FieldsOk(m: Actor) {
    && (m.conn.state == Connected <==> m.armed.Some?)
    && (m.conn.state == Connected ==>
          m.child == m.armed && m.conn.configId == Some(m.activeId) && m.conn.xrayPid == m.child)
    && m.child == m.childExitCC
    && (m.child.Some? ==> m.conn.state == Connected || m.conn.state == Disconnecting)
    && (m.pendingSwitch != ZERO_ULID ==> m.conn.state == Disconnecting)
    && (m.activeId != ZERO_ULID ==> m.conn.state == Connected || m.conn.state == Disconnecting)
    && m.cancelConnect == (if m.conn.state == Validating || m.conn.state == Connecting then Some(m.opGen) else None)
    && (m.conn.state == Disconnecting ==> m.conn.configId.Some?)
    && (m.timer != Off ==> m.conn.state == Error)
  }

  // ---------- progress is announced before success is reported ----------

  predicate PastAnnounce(pc: Pc) {
    || pc.Preflight? || pc.Fork? || pc.AwaitAlive? || pc.AwaitSocks? || pc.Handshake?
    || (pc.Deliver? && pc.result.err.None?)
  }

  ghost predicate ProgressOk(s: Sys) {
    var note := ConnectProgress(s.m.opGen, Connecting);
    s.m.conn.state == Validating ==>
      && (forall t :: t in s.threads && t.Worker? && PastAnnounce(t.pc) ==> note in s.q)
      && (forall j :: 0 <= j < |s.q| && s.q[j].ConnectDone? && s.q[j].result.err.None? ==> note in s.q[..j])
  }

  // ---------- an error has an exit, as long as the context lives ----------

  ghost predicate TimerOk(s: Sys) {
    s.m.conn.state == Error && !s.ctxDone ==> s.m.timer == Ticking || Revert in s.threads || AutoRevert in s.q
  }

  predicate ThreadOk(t: Thread) {
    t.Worker? && t.pc.Deliver? ==> t.pc.result.WellFormed() && t.pc.result.id == t.id
  }

  /** A cleanup run inside a handler leaves nothing running beside it. */
  ghost predicate CleanupAlone(s: Sys) {
    Gather(s.todo, FxStops) != [] ==>
      Gather(s.threads, ThreadTokens) == [] && Gather(s.q, CmdTokens) == []
  }

  /** A handler cleans up before it does anything else. */
  ghost predicate StopFirst(todo: seq<Effect>) {
    forall j :: 0 < j < |todo| ==> !todo[j].StopChild?
  }

  /** The part of a state that carrying out a pending effect mostly leaves alone. */
  datatype View = View(
    m: Actor,
    tokens: seq<Token>,
    owned: seq<ChildId>,
    kids: seq<Kid>,
    life: seq<Event>,
    trace: seq<ConnStatus>)

  ghost function ViewOf(s: Sys): View {
    View(s.m, Tokens(s), Owned(s), s.kids, Gather(s.log, EventLife), Trace(s))
  }

  ghost predicate Core(v: View) {
    && FieldsOk(v.m)
    && TokensOk(v.m, v.tokens)
    && KidsOk(v.kids) && v.owned == Open(v.kids)
    && v.life == Alternating(v.kids)
    && v.trace != [] && LegalTrace(v.trace) && Last(v.trace) == v.m.conn
  }

  ghost predicate Local(s: Sys) {
    && ProgressOk(s)
    && TimerOk(s)
    && (forall t :: t in s.threads ==> ThreadOk(t))
    && (forall c :: c in s.q ==> CmdOk(c) && !c.ChildExit? && (c.Shutdown? ==> s.shutPosted))
  }

  ghost predicate Inv(s: Sys) {
    Core(ViewOf(s)) && Local(s) && CleanupAlone(s) && StopFirst(s.todo)
  }

  /** Shutdown has neither been handled nor cancelled the actor's context. */
  predicate Up(s: Sys) {
    !s.shut && !s.ctxDone && s.mode == Running
  }
}
