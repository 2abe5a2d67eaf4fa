/**
 * What a caller is told: in every run each reply is the one that the last posted status warrants at the moment
 * the call is taken, or the one for a call that is drained.
 */
module TunnelAnswers {
  import opened Base
  import opened Tunnel
  import opened Handlers
  import opened WorkerSteps
  import opened TunnelSystem
  import opened TunnelInvariant
  import opened HandlerEffects
  import opened EffectSteps
  import opened TunnelCancel
  import opened TunnelReplies
  import opened TunnelShutdown

  /** The channel that the command's caller waits on. */
  function Caller(c: Cmd): Option<ChanId> {
    match c
    case Connect(_, ch) => Some(ch)
    case Disconnect(ch) => Some(ch)
    case Switch(_, ch) => Some(ch)
    case GetStatus(ch) => Some(ch)
    case _ => None
  }

  /**
   * Connect is refused unless the tunnel is down, Disconnect if it is down already, Switch while it is being
   * taken down; GetStatus is told what was posted last.
   */
  function Answer(c: Cmd, posted: ConnStatus): ReplyCode
    requires Caller(c).Some?
  {
    match c
    case Connect(_, _) => if posted.state in {Disconnected, Error} then Accepted else AlreadyConnected
    case Disconnect(_) => if posted.state == Disconnected then NotConnected else Accepted
    case Switch(_, _) => if posted.state == Disconnecting then AlreadyConnected else Accepted
    case GetStatus(_) => StatusIs(posted)
  }

  /** A request that is drained is refused with the shutdown; a drained GetStatus gets an empty status. */
  function DrainedAnswer(c: Cmd): ReplyCode
    requires Caller(c).Some?
  {
    if c.GetStatus? then NoStatus else ShuttingDown
  }

  // ---------- one command ----------

  lemma TakeTells(m: Actor, c: Cmd, e: Effect)
    requires CmdOk(c) && e in TakeCommand(m, c).fx && e.Reply?
    ensures Caller(c) == Some(e.ch) && e.code == Answer(c, m.conn)
  {
    NestedSilent(m, ZERO_ULID);
    if c.Switch? {
      SwitchTells(CancelTimer(m), c.id, c.ch, e);
    } else if c.ConnectDone? || c.DisconnectDone? {
      ReportsTellNobody(m, c);
    }
  }

  lemma SwitchTells(m: Actor, id: Ulid, ch: ChanId, e: Effect)
    requires e in HandleSwitch(m, id, Some(ch)).fx && e.Reply?
    ensures e.ch == ch && e.code == Answer(Switch(id, ch), m.conn)
  {
    NestedSilent(m, id);
    hide HandleDisconnect;
  }

  lemma ReportsTellNobody(m: Actor, c: Cmd)
    requires CmdOk(c) && (c.ConnectDone? || c.DisconnectDone?)
    ensures Silent(TakeCommand(m, c).fx)
  {
    NestedSilent(m, ZERO_ULID);
    hide FinishTeardown;
  }

  lemma DrainTells(m: Actor, c: Cmd, e: Effect)
    requires e in DrainCommand(m, c).fx && e.Reply?
    ensures Caller(c) == Some(e.ch) && e.code == DrainedAnswer(c)
  {
  }

  // ---------- the posted status is the actor's ----------

  lemma LastOnly(a: ConnStatus, posts: seq<ConnStatus>)
    ensures posts == [] ==> Last([a] + posts) == a
    ensures posts != [] ==> Last([a] + posts) == Last(posts)
  {
  }

  lemma ConnectPosts(m: Actor, id: Ulid, to: Option<ChanId>)
    ensures var o := HandleConnect(m, id, to); Last([m.conn] + Gather(o.fx, FxPosts)) == o.m.conn
  {
    hide Gather;
    SumReply(to, AlreadyConnected);
    if m.conn.state == Disconnected || m.conn.state == Error {
      ConnectSum(m, id, to);
    }
  }

  lemma SwitchPosts(m: Actor, id: Ulid, to: Option<ChanId>)
    ensures var o := HandleSwitch(m, id, to); Last([m.conn] + Gather(o.fx, FxPosts)) == o.m.conn
  {
    hide Gather;
    ConnectPosts(m, id, to);
    DisconnectHandsOn(m, None);
    SumAfterReply(to, Accepted, HandleDisconnect(m, None).fx);
    SumReply(to, Accepted);
    SumReply(to, AlreadyConnected);
  }

  lemma TeardownPosts(m: Actor, stack: Option<ChildId>)
    ensures var t := FinishTeardown(m); Last([m.conn] + Gather(RunStack(stack) + t.fx, FxPosts)) == t.m.conn
  {
    hide Gather;
    var m1 := m.(child := None, childExitCC := None, activeId := ZERO_ULID, conn := IDLE);
    var more := ConsumePendingSwitch(m1).fx;
    SumNil();
    SumConcat(RunStack(stack), [Post(IDLE)] + more);
    SumConcat([Post(IDLE)], more);
    SumSingle(Post(IDLE));
    if stack.Some? {
      SumSingle(StopChild(stack.value));
    }
    ConnectPosts(m1.(pendingSwitch := ZERO_ULID), m.pendingSwitch, None);
    assert Gather(RunStack(stack) + FinishTeardown(m).fx, FxPosts) == [IDLE] + Gather(more, FxPosts);
  }

  lemma DonePosts(m: Actor, gen: nat, result: ConnectResult)
    requires result.WellFormed()
    ensures var o := HandleConnectDone(m, gen, result); Last([m.conn] + Gather(o.fx, FxPosts)) == o.m.conn
  {
    hide Gather;
    var o := HandleConnectDone(m, gen, result);
    SumNil();
    if result.cleanup.Some? {
      SumSingle(StopChild(result.cleanup.value));
    }
    TeardownPosts(m, result.cleanup);
    if gen == m.opGen {
      SumSingle(Post(o.m.conn));
    }
  }

  lemma TakePosts(m: Actor, c: Cmd)
    requires CmdOk(c)
    ensures var o := TakeCommand(m, c); Last([m.conn] + Gather(o.fx, FxPosts)) == o.m.conn
  {
    hide Gather;
    var m1, o := CancelTimer(m), TakeCommand(m, c);
    SumNil();
    match c {
      case Connect(id, ch) => ConnectPosts(m1, id, Some(ch));
      case Disconnect(ch) => DisconnectHandsOn(m1, Some(ch));
      case Switch(id, ch) => SwitchPosts(m1, id, Some(ch));
      case GetStatus(ch) => SumReply(Some(ch), StatusIs(m.conn));
      case ConnectProgress(_, _) => if o.fx != [] { SumSingle(Post(o.m.conn)); }
      case ConnectDone(gen, result) => DonePosts(m, gen, result);
      case DisconnectDone(_) =>
        TeardownPosts(m, None);
        assert RunStack(None) + FinishTeardown(m).fx == FinishTeardown(m).fx;
      case AutoRevert => if o.fx != [] { SumSingle(Post(IDLE)); }
      case ChildExit => ExitHandsOn(m); ExitPosts(m1);
      case Shutdown => ShutdownHandsOn(m1);
    }
  }

  lemma ExitPosts(m: Actor)
    ensures var o := HandleChildExit(m); Last([m.conn] + Gather(o.fx, FxPosts)) == o.m.conn
  {
    hide Gather;
    var o := HandleChildExit(m);
    SumNil();
    if m.conn.state != Disconnecting {
      SumConcat(RunStack(m.armed), [Post(o.m.conn)]);
      SumSingle(Post(o.m.conn));
      if m.armed.Some? {
        SumSingle(StopChild(m.armed.value));
      }
    }
  }

  /** The actor's state is what it posted last, or is about to post. */
  ghost predicate Posted(s: Sys) {
    Last(Trace(s)) == s.m.conn
  }

  lemma DispatchPosted(s: Sys, o: Out, s': Sys)
    requires Posted(s) && Idle(s) && s'.m == o.m && s'.todo == o.fx && s'.log == s.log
    requires Last([s.m.conn] + Gather(o.fx, FxPosts)) == o.m.conn
    ensures Posted(s')
  {
    hide Gather;
    GatherNil(FxPosts);
    CalmTrace(Gather(s.log, EventPosts), Gather(o.fx, FxPosts), s.m.conn, o.m.conn);
  }

  lemma StepPosted(s: Sys, l: Label)
    requires Posted(s) && Enabled(s, l)
    ensures Posted(Next(s, l))
  {
    hide Gather;
    hide Posted;
    var s' := Next(s, l);
    if l.Take? {
      TakePosts(s.m, s.q[0]);
      DispatchPosted(s, TakeCommand(s.m, s.q[0]), s');
    } else if l.TakeExit? {
      ExitHandsOn(s.m);
      DispatchPosted(s, TakeChildExit(s.m), s');
    } else if l.DrainOne? {
      DrainHandsOn(s.m, s.q[0]);
      DispatchPosted(s, DrainCommand(s.m, s.q[0]), s');
    } else if l.Exec? {
      ExecPosted(s, l.dead);
    } else {
      LogSame(s, l);
      OutsideHandlers(s, l);
      SamePosted(s, s');
    }
  }

  lemma SamePosted(s: Sys, s': Sys)
    requires Posted(s) && s'.m.conn == s.m.conn && s'.todo == s.todo
    requires Gather(s'.log, EventPosts) == Gather(s.log, EventPosts)
    ensures Posted(s')
  {
    hide Gather;
  }

  /** What carrying out an effect adds to the posts, it takes off the posts to come. */
  lemma ExecPosts(s: Sys, dead: bool)
    requires Enabled(s, Exec(dead))
    ensures var s' := ExecOne(s, dead);
      && Gather(s'.log, EventPosts) == Gather(s.log, EventPosts) + FxPosts(s.todo[0])
      && Trace(s') == Trace(s) && s'.m == s.m
  {
    hide Gather;
    ExecLog(s, dead);
    ExecActor(s, dead);
    hide ExecOne;
    var e := s.todo[0];
    TodoHead(s);
    if Logged(e) == [] {
      assert s.log + Logged(e) == s.log;
    } else {
      assert Logged(e) == [Logged(e)[0]] && EventPosts(Logged(e)[0]) == FxPosts(e);
      LogAppend(s.log, Logged(e)[0]);
    }
    PostMoves(Gather(s.log, EventPosts), FxPosts(e), Gather(s.todo[1..], FxPosts));
  }

  lemma ExecActor(s: Sys, dead: bool)
    requires Enabled(s, Exec(dead))
    ensures ExecOne(s, dead).m == s.m
  {
    hide CancelWorkers;
  }

  lemma ExecPosted(s: Sys, dead: bool)
    requires Posted(s) && Enabled(s, Exec(dead))
    ensures Posted(ExecOne(s, dead))
  {
    hide Gather;
    hide Trace;
    ExecPosts(s, dead);
  }

  /** Only a pending effect posts or replies; the other steps log at most a spawn or a stop. */
  lemma LogQuiet(s: Sys, l: Label)
    requires Enabled(s, l) && !l.Exec?
    ensures var s' := Next(s, l);
      s'.log == s.log || exists e :: s'.log == s.log + [e] && !e.Replied? && !e.Posted?
  {
    hide TakeCommand;
    hide TakeChildExit;
    hide DrainCommand;
    hide WorkerNext;
    hide Moved;
    if l.WorkerStep? && s.threads[l.i].pc.Unwind? {
      assert Next(s, l).log == s.log + [Stopped(s.threads[l.i].pc.child)];
    }
  }

  lemma LogSame(s: Sys, l: Label)
    requires Enabled(s, l) && !l.Exec?
    ensures var s' := Next(s, l);
      && Gather(s'.log, EventPosts) == Gather(s.log, EventPosts)
      && (forall e :: e in s'.log && e.Replied? ==> e in s.log)
  {
    hide Gather;
    LogQuiet(s, l);
    hide Next;
    hide Enabled;
    var log := Next(s, l).log;
    if log != s.log {
      var e :| log == s.log + [e] && !e.Replied? && !e.Posted?;
      GatherAppend(s.log, e, EventPosts);
    }
  }

  lemma {:induction false} RunPosted(states: seq<Sys>, labels: seq<Label>)
    requires IsDaemonRun(states, labels)
    ensures Posted(Last(states))
    decreases |labels|
  {
    hide Posted;
    hide Next;
    hide Enabled;
    if labels == [] {
      StartPosted();
    } else {
      var n := |labels| - 1;
      assert IsDaemonRun(states[..n + 1], labels[..n]);
      RunPosted(states[..n + 1], labels[..n]);
      StepPosted(states[n], labels[n]);
    }
  }

  lemma StartPosted()
    ensures Posted(INIT)
  {
  }

  // ---------- every reply of every run ----------

  /** Step `k` takes or drains the command whose caller waits on `ch`, and that warrants `code`. */
  ghost predicate Told(states: seq<Sys>, labels: seq<Label>, k: nat, ch: ChanId, code: ReplyCode) {
    && k < |labels| && k < |states| && states[k].q != [] && Caller(states[k].q[0]) == Some(ch)
    && ((labels[k] == Take && code == Answer(states[k].q[0], Last(Trace(states[k]))))
        || (labels[k] == DrainOne && code == DrainedAnswer(states[k].q[0])))
  }

  /** Replied, or about to be. */
  ghost predicate Tells(s: Sys, ch: ChanId, code: ReplyCode) {
    Replied(ch, code) in s.log || Reply(ch, code) in s.todo
  }

  lemma StepTells(s: Sys, l: Label, ch: ChanId, code: ReplyCode)
    requires Enabled(s, l) && Tells(Next(s, l), ch, code) && Posted(s)
    ensures Tells(s, ch, code) || Told([s], [l], 0, ch, code)
  {
    hide Gather;
    hide Trace;
    var s' := Next(s, l);
    if l.Take? {
      if Reply(ch, code) in s'.todo {
        TakeTells(s.m, s.q[0], Reply(ch, code));
      }
    } else if l.DrainOne? {
      if Reply(ch, code) in s'.todo {
        DrainTells(s.m, s.q[0], Reply(ch, code));
      }
    } else if l.TakeExit? {
    } else if l.Exec? {
      ExecLog(s, l.dead);
      assert s.todo == [s.todo[0]] + s'.todo;
    } else {
      LogSame(s, l);
      OutsideHandlers(s, l);
      hide Next;
      hide Enabled;
    }
  }

  lemma {:induction false} RunTells(states: seq<Sys>, labels: seq<Label>, ch: ChanId, code: ReplyCode) returns (k: nat)
    requires IsDaemonRun(states, labels) && Tells(Last(states), ch, code)
    ensures Told(states, labels, k, ch, code)
    decreases |labels|
  {
    hide Next;
    hide Enabled;
    hide Tells;
    assert labels != [] by { NothingTold(ch, code); }
    var n := |labels| - 1;
    var before := states[..n + 1];
    assert IsDaemonRun(before, labels[..n]) && Last(before) == states[n];
    RunPosted(before, labels[..n]);
    hide Trace;
    StepTells(states[n], labels[n], ch, code);
    if Tells(states[n], ch, code) {
      k := RunTells(before, labels[..n], ch, code);
      assert before[k] == states[k] && labels[..n][k] == labels[k];
    } else {
      k := n;
    }
  }

  lemma NothingTold(ch: ChanId, code: ReplyCode)
    ensures !Tells(INIT, ch, code)
  {
  }

  /** The caller's command: at step `j` it was queued for the channel it waits on. */
  ghost predicate Asked(states: seq<Sys>, labels: seq<Label>, j: nat, c: Cmd) {
    && j < |labels| && j < |states| && labels[j].Call?
    && c == RequestCmd(labels[j].req, states[j].nextCh)
  }

  lemma QueuedBefore(s: Sys, l: Label, c: Cmd)
    requires Enabled(s, l) && c in Next(s, l).q && Caller(c).Some?
    ensures c in s.q || (l.Call? && c == RequestCmd(l.req, s.nextCh))
  {
    hide TakeCommand;
    hide TakeChildExit;
    hide DrainCommand;
    hide WorkerNext;
    hide CancelWorkers;
    hide Moved;
    if l.Exec? {
      ExecFlags(s, l.dead);
    }
    hide ExecOne;
  }

  lemma {:induction false} QueuedWasAsked(states: seq<Sys>, labels: seq<Label>, c: Cmd) returns (j: nat)
    requires IsDaemonRun(states, labels) && c in Last(states).q && Caller(c).Some?
    ensures Asked(states, labels, j, c)
    decreases |labels|
  {
    hide Next;
    hide Enabled;
    assert labels != [];
    var n := |labels| - 1;
    var before := states[..n + 1];
    assert IsDaemonRun(before, labels[..n]) && Last(before) == states[n];
    QueuedBefore(states[n], labels[n], c);
    if c in states[n].q {
      j := QueuedWasAsked(before, labels[..n], c);
      assert before[j] == states[j] && labels[..n][j] == labels[j];
    } else {
      j := n;
    }
  }

  /**
   * In every run, through shutdown and drain, whoever has been told something on a channel was told what the call
   * made on that channel warranted when it was taken, given what had been posted by then, or what a drained call
   * of its kind is told.
   */
  lemma RepliesAreRight(states: seq<Sys>, labels: seq<Label>, ch: ChanId, code: ReplyCode)
    returns (j: nat, k: nat)
    requires IsDaemonRun(states, labels) && Replied(ch, code) in Last(states).log
    ensures j < k < |labels| && labels[j].Call? && states[j].nextCh == ch && states[k].q != []
    ensures var c := states[k].q[0];
      && c == RequestCmd(labels[j].req, ch)
      && ((labels[k] == Take && code == Answer(c, Last(Trace(states[k]))))
          || (labels[k] == DrainOne && code == DrainedAnswer(c)))
  {
    hide Next;
    hide Enabled;
    hide Trace;
    k := RunTells(states, labels, ch, code);
    var before, c := states[..k + 1], states[k].q[0];
    assert IsDaemonRun(before, labels[..k]) && Last(before) == states[k] && c in states[k].q;
    j := QueuedWasAsked(before, labels[..k], c);
    assert before[j] == states[j] && labels[..k][j] == labels[j];
  }

  // ---------- a status in the log is the last one posted before it ----------

  /** The last status posted in `log`. */
  ghost function PostedIn(log: seq<Event>): ConnStatus {
    Last([IDLE] + Gather(log, EventPosts))
  }

  ghost predicate StatusesOk(log: seq<Event>) {
    forall i :: 0 <= i < |log| && log[i].Replied? && log[i].code.StatusIs? ==> log[i].code.conn == PostedIn(log[..i])
  }

  /** A status about to be given is the only thing the handler does, and is the last one posted. */
  ghost predicate StatusNext(s: Sys) {
    forall e :: e in s.todo && e.Reply? && e.code.StatusIs? ==> s.todo == [e] && e.code.conn == PostedIn(s.log)
  }

  lemma LogPush(log: seq<Event>, e: Event)
    requires StatusesOk(log) && (e.Replied? && e.code.StatusIs? ==> e.code.conn == PostedIn(log))
    ensures StatusesOk(log + [e])
  {
    hide PostedIn;
    var now := log + [e];
    forall i | 0 <= i < |now| && now[i].Replied? && now[i].code.StatusIs?
      ensures now[i].code.conn == PostedIn(now[..i])
    {
      assert now[..i] == log[..i];
      if i == |log| {
        assert log[..i] == log;
      }
    }
  }

  /** Only GetStatus asks for one, and its handler does nothing else. */
  lemma OnlyStatus(m: Actor, c: Cmd, e: Effect)
    requires CmdOk(c) && e in TakeCommand(m, c).fx && e.Reply? && e.code.StatusIs?
    ensures c.GetStatus? && TakeCommand(m, c).fx == [e] && e.code.conn == m.conn
  {
    TakeTells(m, c, e);
  }

  lemma TakeStatus(s: Sys)
    requires Posted(s) && Enabled(s, Take)
    ensures StatusNext(Next(s, Take))
  {
    hide Gather;
    IdleGathers(s);
    var s' := Next(s, Take);
    forall e | e in s'.todo && e.Reply? && e.code.StatusIs? ensures s'.todo == [e] && e.code.conn == PostedIn(s'.log) {
      OnlyStatus(s.m, s.q[0], e);
    }
  }

  lemma ExecStatus(s: Sys, dead: bool)
    requires StatusesOk(s.log) && StatusNext(s) && Enabled(s, Exec(dead))
    ensures StatusesOk(ExecOne(s, dead).log) && StatusNext(ExecOne(s, dead))
  {
    hide Gather;
    hide PostedIn;
    ExecLog(s, dead);
    hide ExecOne;
    var e, s' := s.todo[0], ExecOne(s, dead);
    assert e in s.todo && forall f :: f in s'.todo ==> f in s.todo;
    if Logged(e) == [] {
      assert s.log + Logged(e) == s.log;
      assert forall f :: f in s'.todo && f.Reply? && f.code.StatusIs? ==> s.todo == [f];
    } else {
      assert Logged(e) == [Logged(e)[0]];
      LogPush(s.log, Logged(e)[0]);
    }
  }

  lemma OtherStatus(s: Sys, l: Label)
    requires StatusesOk(s.log) && StatusNext(s) && Enabled(s, l)
    requires !l.Take? && !l.TakeExit? && !l.DrainOne? && !l.Exec?
    ensures StatusesOk(Next(s, l).log) && StatusNext(Next(s, l))
  {
    hide Gather;
    LogQuiet(s, l);
    LogSame(s, l);
    OutsideHandlers(s, l);
    hide Next;
    hide Enabled;
    if Next(s, l).log != s.log {
      var e :| Next(s, l).log == s.log + [e] && !e.Replied? && !e.Posted?;
      LogPush(s.log, e);
    }
  }

  lemma StepStatus(s: Sys, l: Label)
    requires StatusesOk(s.log) && StatusNext(s) && Posted(s) && Enabled(s, l)
    ensures StatusesOk(Next(s, l).log) && StatusNext(Next(s, l))
  {
    hide Gather;
    hide PostedIn;
    hide Posted;
    hide StatusesOk;
    if l.Take? {
      TakeStatus(s);
    } else if l.TakeExit? || l.DrainOne? {
      assert StatusNext(Next(s, l));
    } else if l.Exec? {
      ExecStatus(s, l.dead);
    } else {
      OtherStatus(s, l);
    }
  }

  /** Every status that a caller was ever given is the last one that had been posted by then, or idle if none had. */
  lemma {:induction false} StatusIsLastPosted(states: seq<Sys>, labels: seq<Label>)
    requires IsDaemonRun(states, labels)
    ensures StatusesOk(Last(states).log) && StatusNext(Last(states))
    decreases |labels|
  {
    hide StatusesOk;
    hide StatusNext;
    hide Posted;
    hide Next;
    hide Enabled;
    if labels == [] {
      NoStatusYet();
    } else {
      var n := |labels| - 1;
      var before := states[..n + 1];
      assert IsDaemonRun(before, labels[..n]) && Last(before) == states[n];
      StatusIsLastPosted(before, labels[..n]);
      RunPosted(before, labels[..n]);
      StepStatus(states[n], labels[n]);
    }
  }

  lemma NoStatusYet()
    ensures StatusesOk(INIT.log) && StatusNext(INIT)
  {
  }
}
