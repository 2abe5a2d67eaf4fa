/** What each handler does, boiled down to what the invariant looks at. */
module HandlerEffects {
  import opened Base
  import opened Tunnel
  import opened Handlers
  import opened WorkerSteps
  import opened TunnelSystem
  import opened TunnelInvariant

  // ---------- what the token count says about the threads and the queue ----------

  lemma StacksNeedTokens(ts: seq<Thread>, q: seq<Cmd>)
    ensures Gather(ts, ThreadTokens) == [] ==> Gather(ts, ThreadStacks) == []
    ensures Gather(q, CmdTokens) == [] ==> Gather(q, CmdStacks) == []
    ensures Gather(ts, ThreadTokens) == [] ==> forall t :: t in ts ==> t.Revert?
    ensures Gather(q, CmdTokens) == [] ==> forall c :: c in q ==> !c.ConnectDone? && !c.DisconnectDone?
  {
    hide Gather;
    if Gather(ts, ThreadTokens) == [] {
      GatherSilent(ts, ThreadTokens, ThreadStacks);
      forall t | t in ts ensures t.Revert? {
        GatherHas(ts, t, ThreadTokens);
      }
    }
    if Gather(q, CmdTokens) == [] {
      GatherSilent(q, CmdTokens, CmdStacks);
      forall c | c in q ensures !c.ConnectDone? && !c.DisconnectDone? {
        GatherHas(q, c, CmdTokens);
      }
    }
  }

  lemma AtMostOneToken(m: Actor, toks: seq<Token>)
    requires TokensOk(m, toks)
    ensures |toks| <= 1
  {
  }

  // ---------- taking a command ----------

  /** The parts of the state a dispatch leaves alone, with the head command gone. */
  ghost predicate Dispatched(s: Sys, o: Out, rest: seq<Cmd>, s': Sys) {
    && s'.m == o.m && s'.todo == o.fx && s'.q == rest
    && s'.threads == s.threads && s'.kids == s.kids && s'.log == s.log && s'.shutPosted == s.shutPosted
    && s'.ctxDone == s.ctxDone
  }

  /** What is held beside the actor at a dispatch: tokens and stacks of threads and remaining queue. */
  datatype Around = Around(tt: seq<Token>, tq: seq<Token>, st: seq<ChildId>, sq: seq<ChildId>)

  ghost function Beside(s: Sys, rest: seq<Cmd>): Around {
    Around(Gather(s.threads, ThreadTokens), Gather(rest, CmdTokens),
           Gather(s.threads, ThreadStacks), Gather(rest, CmdStacks))
  }

  /** A handler's effects, boiled down to what the invariant looks at. */
  datatype Sum = Sum(tokens: seq<Token>, stacks: seq<ChildId>, stops: seq<ChildId>, posts: seq<ConnStatus>)

  ghost function SumOf(fx: seq<Effect>): Sum {
    Sum(Gather(fx, FxTokens), Gather(fx, FxStacks), Gather(fx, FxStops), Gather(fx, FxPosts))
  }

  ghost predicate PostsOk(conn: ConnStatus, posts: seq<ConnStatus>, conn': ConnStatus) {
    LegalTrace([conn] + posts) && Last([conn] + posts) == conn'
  }

  /** What a handler owes the invariant, given the state it started from. */
  ghost predicate CoreOk(conn: ConnStatus, ar: Around, open: seq<ChildId>, o: Out) {
    var sum := SumOf(o.fx);
    && FieldsOk(o.m)
    && TokensOk(o.m, ar.tt + ar.tq + sum.tokens)
    && ar.st + ar.sq + sum.stacks + OptionSeq(o.m.armed) == open
    && PostsOk(conn, sum.posts, o.m.conn)
    && (sum.stops != [] ==> ar.tt == [] && ar.tq == [])
  }

  ghost predicate OrderOk(s: Sys, m: Actor, rest: seq<Cmd>) {
    ProgressOk(s.(m := m, q := rest)) && TimerOk(s.(m := m, q := rest))
  }

  ghost predicate OutOk(s: Sys, o: Out, rest: seq<Cmd>) {
    CoreOk(s.m.conn, Beside(s, rest), Open(s.kids), o) && OrderOk(s, o.m, rest)
  }

  lemma LegalJoin(a: seq<ConnStatus>, b: seq<ConnStatus>)
    requires a != [] && LegalTrace(a) && LegalTrace([Last(a)] + b)
    ensures LegalTrace(a + b)
    ensures Last(a + b) == Last([Last(a)] + b)
  {
    hide Gather;
    forall i | 0 <= i < |a + b| - 1 ensures LegalStep((a + b)[i], (a + b)[i + 1]) {
      if i >= |a| - 1 {
        var c := [Last(a)] + b;
        assert (a + b)[i] == c[i - |a| + 1] && (a + b)[i + 1] == c[i - |a| + 2];
      }
    }
  }

  lemma DispatchView(s: Sys, o: Out, rest: seq<Cmd>, s': Sys)
    requires Core(ViewOf(s)) && Idle(s) && Dispatched(s, o, rest, s')
    requires CoreOk(s.m.conn, Beside(s, rest), Open(s.kids), o)
    ensures Core(ViewOf(s')) && CleanupAlone(s')
  {
    hide Gather;
    hide FieldsOk;
    hide TokensOk;
    hide LegalTrace;
    hide Alternating;
    IdleGathers(s);
    LegalJoin(Trace(s), Gather(o.fx, FxPosts));
  }

  lemma DispatchKeeps(s: Sys, o: Out, rest: seq<Cmd>, s': Sys)
    requires Inv(s) && Idle(s) && Dispatched(s, o, rest, s') && OutOk(s, o, rest)
    requires (forall c :: c in rest ==> c in s.q) && StopFirst(o.fx)
    ensures Inv(s')
  {
    hide Gather;
    hide Core;
    DispatchView(s, o, rest, s');
    assert Local(s');
  }

  ghost function SumAdd(a: Sum, b: Sum): Sum {
    Sum(a.tokens + b.tokens, a.stacks + b.stacks, a.stops + b.stops, a.posts + b.posts)
  }

  ghost function SumOne(e: Effect): Sum {
    Sum(FxTokens(e), FxStacks(e), FxStops(e), FxPosts(e))
  }

  lemma SumConcat(a: seq<Effect>, b: seq<Effect>)
    ensures SumOf(a + b) == SumAdd(SumOf(a), SumOf(b))
  {
    hide Gather;
    GatherConcat(a, b, FxTokens);
    GatherConcat(a, b, FxStacks);
    GatherConcat(a, b, FxStops);
    GatherConcat(a, b, FxPosts);
  }

  lemma SumSingle(e: Effect)
    ensures SumOf([e]) == SumOne(e)
  {
    hide Gather;
    GatherOne(e, FxTokens);
    GatherOne(e, FxStacks);
    GatherOne(e, FxStops);
    GatherOne(e, FxPosts);
  }

  const NOTHING := Sum([], [], [], [])

  lemma SumNil()
    ensures SumOf([]) == NOTHING
  {
  }

  lemma SumReply(to: Option<ChanId>, code: ReplyCode)
    ensures SumOf(ReplyOn(to, code)) == NOTHING
  {
    hide Gather;
    SumNil();
    if to.Some? {
      SumSingle(Reply(to.value, code));
    }
  }

  /** A reply in front changes nothing. */
  lemma SumAfterReply(to: Option<ChanId>, code: ReplyCode, fx: seq<Effect>)
    ensures SumOf(ReplyOn(to, code) + fx) == SumOf(fx) && SumOf(fx + ReplyOn(to, code)) == SumOf(fx)
  {
    hide Gather;
    SumReply(to, code);
    SumConcat(ReplyOn(to, code), fx);
    SumConcat(fx, ReplyOn(to, code));
  }

  lemma SumTwo(a: Effect, b: Effect)
    ensures SumOf([a, b]) == SumAdd(SumOne(a), SumOne(b))
  {
    hide Gather;
    SumSingle(a);
    SumSingle(b);
    SumConcat([a], [b]);
    assert [a] + [b] == [a, b];
  }

  /** Between two commands nothing is pending. */
  lemma IdleGathers(s: Sys)
    requires Idle(s)
    ensures Tokens(s) == Gather(s.threads, ThreadTokens) + Gather(s.q, CmdTokens)
    ensures Owned(s) == Gather(s.threads, ThreadStacks) + Gather(s.q, CmdStacks) + OptionSeq(s.m.armed)
    ensures Trace(s) == [IDLE] + Gather(s.log, EventPosts)
  {
    hide Gather;
    GatherNil(FxTokens);
    GatherNil(FxStacks);
    GatherNil(FxPosts);
  }

  /** Without an outstanding operation the only possible owner is the armed stack. */
  lemma QuietOwners(s: Sys)
    requires Inv(s) && Idle(s)
    ensures Tokens(s) == Gather(s.threads, ThreadTokens) + Gather(s.q, CmdTokens)
    ensures Tokens(s) == [] ==>
      && Gather(s.threads, ThreadTokens) == [] && Gather(s.q, CmdTokens) == []
      && Gather(s.threads, ThreadStacks) == [] && Gather(s.q, CmdStacks) == []
      && (forall t :: t in s.threads ==> t.Revert?)
      && (forall c :: c in s.q ==> !c.ConnectDone? && !c.DisconnectDone?)
  {
    hide Gather;
    IdleGathers(s);
    StacksNeedTokens(s.threads, s.q);
  }

  // ---------- the handlers on their own ----------

  const QUIET := Around([], [], [], [])

  /** What is beside the actor agrees with its fields. */
  ghost predicate AroundOk(m: Actor, ar: Around, open: seq<ChildId>) {
    TokensOk(m, ar.tt + ar.tq) && ar.st + ar.sq + OptionSeq(m.armed) == open
  }

  /** A handler whose effects mean nothing to the invariant. */
  lemma SilentCore(m: Actor, ar: Around, open: seq<ChildId>, o: Out)
    requires FieldsOk(o.m) && o.m.conn == m.conn && o.m.armed == m.armed && o.m.opGen == m.opGen
    requires AroundOk(m, ar, open) && SumOf(o.fx) == NOTHING
    ensures CoreOk(m.conn, ar, open, o)
  {
    hide Gather;
    assert ar.tt + ar.tq + [] == ar.tt + ar.tq;
    assert ar.st + ar.sq + [] == ar.st + ar.sq;
  }

  /** A handler that posts one state and neither starts nor cleans anything. */
  lemma PostCore(m: Actor, ar: Around, open: seq<ChildId>, o: Out)
    requires FieldsOk(o.m) && o.m.armed == m.armed
    requires AroundOk(m, ar, open) && TokensOk(o.m, ar.tt + ar.tq)
    requires SumOf(o.fx) == Sum([], [], [], [o.m.conn]) && LegalStep(m.conn, o.m.conn)
    ensures CoreOk(m.conn, ar, open, o)
  {
    hide Gather;
    assert ar.tt + ar.tq + [] == ar.tt + ar.tq;
    assert ar.st + ar.sq + [] == ar.st + ar.sq;
  }

  lemma ConnectSum(m: Actor, id: Ulid, to: Option<ChanId>)
    requires m.conn.state == Disconnected || m.conn.state == Error
    ensures SumOf(HandleConnect(m, id, to).fx)
         == Sum([ConnTok(m.opGen + 1, id)], [], [], [Plain(Validating, Some(id))])
  {
    hide Gather;
    var post, spawn := Post(Plain(Validating, Some(id))), Spawn(m.opGen + 1, id);
    SumAfterReply(to, Accepted, [post, spawn]);
    SumTwo(post, spawn);
  }

  lemma ConnectCore(m: Actor, id: Ulid, to: Option<ChanId>)
    requires FieldsOk(m) && (m.conn.state == Disconnected || m.conn.state == Error) && m.timer == Off
    ensures CoreOk(m.conn, QUIET, [], HandleConnect(m, id, to))
  {
    hide Gather;
    ConnectSum(m, id, to);
  }

  lemma DisconnectSum(m: Actor, to: Option<ChanId>)
    requires FieldsOk(m)
    ensures var sum := SumOf(HandleDisconnect(m, to).fx);
      match m.conn.state {
        case Disconnected | Disconnecting => sum == NOTHING
        case Validating | Connecting => sum == Sum([], [], [], [Plain(Disconnecting, m.conn.configId)])
        case Error => sum == Sum([], [], [], [IDLE])
        case Connected => sum == Sum([TearTok(m.opGen + 1)], [m.armed.value], [], [Plain(Disconnecting, m.conn.configId)])
      }
  {
    hide Gather;
    var post := Post(Plain(Disconnecting, m.conn.configId));
    match m.conn.state {
      case Disconnected | Disconnecting =>
        SumReply(to, NotConnected);
        SumReply(to, Accepted);
      case Validating | Connecting =>
        var cancel := Cancel(m.cancelConnect.value);
        SumAfterReply(to, Accepted, [post, cancel]);
        SumTwo(post, cancel);
        assert ReplyOn(to, Accepted) + [post] + [cancel] == ReplyOn(to, Accepted) + [post, cancel];
      case Error =>
        SumAfterReply(to, Accepted, [Post(IDLE)]);
        SumSingle(Post(IDLE));
      case Connected =>
        var start := SpawnTeardown(m.opGen + 1, m.armed.value);
        SumAfterReply(to, Accepted, [post, start]);
        SumTwo(post, start);
    }
  }

  lemma DisconnectCore(m: Actor, to: Option<ChanId>, ar: Around, open: seq<ChildId>, pending: Ulid)
    requires FieldsOk(m) && m.timer == Off && AroundOk(m, ar, open)
    requires ar.tt + ar.tq == [] ==> ar == QUIET
    requires pending != ZERO_ULID ==> m.conn.state in {Validating, Connecting, Connected}
    ensures var d := HandleDisconnect(m, to);
            CoreOk(m.conn, ar, open, Out(d.m.(pendingSwitch := pending), d.fx))
  {
    hide Gather;
    DisconnectSum(m, to);
    var d := HandleDisconnect(m, to);
    var o := Out(d.m.(pendingSwitch := pending), d.fx);
    match m.conn.state {
      case Disconnected | Disconnecting => SilentCore(m, ar, open, o);
      case Validating | Connecting | Error => PostCore(m, ar, open, o);
      case Connected =>
    }
  }

  lemma SwitchCore(m: Actor, id: Ulid, to: Option<ChanId>, ar: Around, open: seq<ChildId>)
    requires FieldsOk(m) && m.timer == Off && AroundOk(m, ar, open)
    requires ar.tt + ar.tq == [] ==> ar == QUIET
    ensures CoreOk(m.conn, ar, open, HandleSwitch(m, id, to))
  {
    hide Gather;
    var o := HandleSwitch(m, id, to);
    if m.conn.state == Disconnected || m.conn.state == Error {
      ConnectCore(m, id, to);
    } else if m.conn.state != Disconnecting && m.activeId != id {
      var d := HandleDisconnect(m, None);
      DisconnectCore(m, None, ar, open, id);
      SumAfterReply(to, Accepted, d.fx);
    } else {
      SumReply(to, Accepted);
      SumReply(to, AlreadyConnected);
      SilentCore(m, ar, open, o);
    }
  }

  lemma ProgressCore(m: Actor, gen: nat, newState: TunnelState, ar: Around, open: seq<ChildId>)
    requires FieldsOk(m) && AroundOk(m, ar, open)
    ensures CoreOk(m.conn, ar, open, HandleConnectProgress(m, gen, newState))
  {
    hide Gather;
    SumNil();
    var o := HandleConnectProgress(m, gen, newState);
    if o.fx == [] {
      SilentCore(m, ar, open, o);
    } else {
      SumSingle(Post(o.m.conn));
      PostCore(m, ar, open, o);
    }
  }

  lemma TeardownSum(m: Actor, stack: Option<ChildId>)
    requires FieldsOk(m) && m.conn.state == Disconnecting
    ensures SumOf(RunStack(stack) + FinishTeardown(m).fx)
      == if m.pendingSwitch != ZERO_ULID
         then Sum([ConnTok(m.opGen + 1, m.pendingSwitch)], OptionSeq(stack), OptionSeq(stack),
                  [IDLE, Plain(Validating, Some(m.pendingSwitch))])
         else Sum([], OptionSeq(stack), OptionSeq(stack), [IDLE])
  {
    hide Gather;
    SumNil();
    SumConcat(RunStack(stack), FinishTeardown(m).fx);
    if stack.Some? {
      SumSingle(StopChild(stack.value));
    }
    var m1 := m.(child := None, childExitCC := None, activeId := ZERO_ULID, conn := IDLE);
    SumConcat([Post(IDLE)], ConsumePendingSwitch(m1).fx);
    SumSingle(Post(IDLE));
    if m.pendingSwitch != ZERO_ULID {
      ConnectSum(m1.(pendingSwitch := ZERO_ULID), m.pendingSwitch, None);
    }
  }

  /** Where a teardown ends: down, or on the way up to the deferred target. */
  lemma TeardownFields(m: Actor)
    requires FieldsOk(m) && m.conn.state == Disconnecting
    ensures var t := FinishTeardown(m).m;
      && FieldsOk(t) && t.armed.None?
      && (if m.pendingSwitch != ZERO_ULID
          then t.conn == Plain(Validating, Some(m.pendingSwitch)) && t.opGen == m.opGen + 1
          else t.conn == IDLE)
  {
  }

  /** The end of a teardown: one stack at most is cleaned inline, then perhaps a deferred connect. */
  lemma TeardownCore(m: Actor, stack: Option<ChildId>)
    requires FieldsOk(m) && m.conn.state == Disconnecting
    ensures var t := FinishTeardown(m);
            CoreOk(m.conn, QUIET, OptionSeq(stack), Out(t.m, RunStack(stack) + t.fx))
  {
    hide Gather;
    TeardownSum(m, stack);
    TeardownFields(m);
    hide FieldsOk;
    hide SumOf;
    var sum := SumOf(RunStack(stack) + FinishTeardown(m).fx);
    var t := FinishTeardown(m).m;
    hide FinishTeardown;
    assert PostsOk(m.conn, sum.posts, t.conn);
    assert [] + [] + sum.tokens == sum.tokens;
    assert [] + [] + sum.stacks + OptionSeq(t.armed) == OptionSeq(stack);
  }

  lemma ReportedCore(m: Actor, result: ConnectResult)
    requires FieldsOk(m) && result.WellFormed()
    requires m.conn.state in {Validating, Connecting} && m.conn.configId == Some(result.id)
    requires result.err.None? ==> m.conn.state == Connecting
    ensures CoreOk(m.conn, QUIET, OptionSeq(result.cleanup), HandleConnectDone(m, m.opGen, result))
  {
    hide Gather;
    var o := HandleConnectDone(m, m.opGen, result);
    SumSingle(Post(o.m.conn));
    assert SumOf(o.fx) == Sum([], [], [], [o.m.conn]);
    assert PostsOk(m.conn, [o.m.conn], o.m.conn);
  }

  lemma ConnectDoneCore(m: Actor, gen: nat, result: ConnectResult)
    requires FieldsOk(m) && result.WellFormed()
    requires TokensOk(m, [ConnTok(gen, result.id)])
    requires gen == m.opGen && result.err.None? ==> m.conn.state == Connecting
    ensures CoreOk(m.conn, QUIET, OptionSeq(result.cleanup), HandleConnectDone(m, gen, result))
  {
    hide Gather;
    if gen != m.opGen {
      TeardownCore(m, result.cleanup);
    } else {
      ReportedCore(m, result);
    }
  }

  lemma DisconnectDoneCore(m: Actor, gen: nat)
    requires FieldsOk(m) && TokensOk(m, [TearTok(gen)])
    ensures CoreOk(m.conn, QUIET, [], HandleDisconnectDone(m, gen))
  {
    hide Gather;
    TeardownCore(m, None);
    assert RunStack(None) + FinishTeardown(m).fx == FinishTeardown(m).fx;
  }

  lemma ChildExitCore(m: Actor, ar: Around, open: seq<ChildId>)
    requires FieldsOk(m) && m.childExitCC.Some? && AroundOk(m, ar, open)
    requires ar.tt + ar.tq == [] ==> ar == QUIET
    ensures CoreOk(m.conn, ar, open, TakeChildExit(m))
  {
    hide Gather;
    SumNil();
    var o := TakeChildExit(m);
    if m.conn.state == Disconnecting {
      SilentCore(m, ar, open, o);
    } else {
      var stop, post := StopChild(m.armed.value), Post(Faulty("xray_died_early"));
      SumTwo(stop, post);
      assert RunStack(m.armed) + [post] == [stop, post];
    }
  }

  lemma AutoRevertCore(m: Actor, ar: Around, open: seq<ChildId>)
    requires FieldsOk(m) && m.timer == Off && AroundOk(m, ar, open)
    ensures CoreOk(m.conn, ar, open, HandleAutoRevert(m))
  {
    hide Gather;
    SumNil();
    var o := HandleAutoRevert(m);
    if m.conn.state != Error {
      SilentCore(m, ar, open, o);
    } else {
      SumSingle(Post(IDLE));
      PostCore(m, ar, open, o);
    }
  }
}
