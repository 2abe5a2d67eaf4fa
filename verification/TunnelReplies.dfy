/**
 * Every call is answered at most once, and exactly once if it is taken or drained, in every run and through
 * shutdown. Once the actor has exited, a call has been answered exactly if it reached the queue before.
 */
module TunnelReplies {
  import opened Base
  import opened Tunnel
  import opened Handlers
  import opened WorkerSteps
  import opened TunnelSystem

  /** A slip that the actor owes someone: a reply on a channel, or the closing of Shutdown's channel. */
  datatype Slip = ReplySlip(ch: ChanId) | DoneSlip

  ghost function CmdSlips(c: Cmd): seq<Slip> {
    match c
    case Connect(_, ch) => [ReplySlip(ch)]
    case Disconnect(ch) => [ReplySlip(ch)]
    case Switch(_, ch) => [ReplySlip(ch)]
    case GetStatus(ch) => [ReplySlip(ch)]
    case Shutdown => [DoneSlip]
    case _ => []
  }

  ghost function FxSlips(e: Effect): seq<Slip> {
    match e
    case Reply(ch, _) => [ReplySlip(ch)]
    case CloseDone => [DoneSlip]
    case _ => []
  }

  ghost function EventSlips(e: Event): seq<Slip> {
    match e
    case Replied(ch, _) => [ReplySlip(ch)]
    case DoneClosed => [DoneSlip]
    case _ => []
  }

  /** Slips still queued, being carried out, and honoured. */
  ghost function Slips(s: Sys): multiset<Slip> {
    multiset(Gather(s.q, CmdSlips)) + multiset(Gather(s.todo, FxSlips)) + multiset(Gather(s.log, EventSlips))
  }

  ghost predicate SlipsOk(s: Sys) {
    && (forall ch: ChanId :: Slips(s)[ReplySlip(ch)] == if ch < s.nextCh then 1 else 0)
    && Slips(s)[DoneSlip] == if s.shutPosted then 1 else 0
  }

  lemma SlipReply(to: Option<ChanId>, code: ReplyCode)
    ensures Gather(ReplyOn(to, code), FxSlips) == if to.Some? then [ReplySlip(to.value)] else []
  {
    if to.Some? {
      GatherOne(Reply(to.value, code), FxSlips);
    }
  }

  predicate Silent(fx: seq<Effect>) {
    forall e :: e in fx ==> !e.Reply? && !e.CloseDone?
  }

  lemma SlipSilent(to: Option<ChanId>, code: ReplyCode, fx: seq<Effect>)
    requires Silent(fx)
    ensures Gather(fx, FxSlips) == []
    ensures Gather(ReplyOn(to, code) + fx, FxSlips) == if to.Some? then [ReplySlip(to.value)] else []
    ensures Gather(fx + ReplyOn(to, code), FxSlips) == if to.Some? then [ReplySlip(to.value)] else []
  {
    hide Gather;
    GatherNone(fx, FxSlips);
    SlipReply(to, code);
    GatherConcat(ReplyOn(to, code), fx, FxSlips);
    GatherConcat(fx, ReplyOn(to, code), FxSlips);
  }

  /** A nested call, whose reply channel the actor reads back itself, replies to no caller. */
  lemma NestedSilent(m: Actor, id: Ulid)
    ensures Silent(HandleConnect(m, id, None).fx) && Silent(HandleDisconnect(m, None).fx)
    ensures Silent(FinishTeardown(m).fx)
  {
  }

  /** Each command is answered exactly once by its handler, whatever the actor's fields. */
  lemma TakeAnswers(m: Actor, c: Cmd)
    requires CmdOk(c)
    ensures Gather(TakeCommand(m, c).fx, FxSlips) == CmdSlips(c)
  {
    hide Gather;
    var m1 := CancelTimer(m);
    var o := TakeCommand(m, c);
    NestedSilent(m, ZERO_ULID);
    match c {
      case Connect(id, ch) => ConnectAnswers(m1, id, ch);
      case Disconnect(ch) => DisconnectAnswers(m1, ch);
      case Switch(id, ch) => SwitchAnswers(m1, id, ch);
      case GetStatus(ch) => SlipReply(Some(ch), StatusIs(m.conn));
      case ConnectProgress(_, _) => SlipSilent(None, Accepted, o.fx);
      case ConnectDone(_, _) => SlipSilent(None, Accepted, o.fx);
      case DisconnectDone(_) => SlipSilent(None, Accepted, o.fx);
      case AutoRevert => SlipSilent(None, Accepted, o.fx);
      case ChildExit => SlipSilent(None, Accepted, o.fx);
      case Shutdown => ShutdownAnswers(m1);
    }
  }

  lemma ConnectAnswers(m: Actor, id: Ulid, ch: ChanId)
    ensures Gather(HandleConnect(m, id, Some(ch)).fx, FxSlips) == [ReplySlip(ch)]
  {
    hide Gather;
    var status := Plain(Validating, Some(id));
    SlipReply(Some(ch), AlreadyConnected);
    SlipSilent(Some(ch), Accepted, [Post(status), Spawn(m.opGen + 1, id)]);
  }

  lemma DisconnectAnswers(m: Actor, ch: ChanId)
    ensures Gather(HandleDisconnect(m, Some(ch)).fx, FxSlips) == [ReplySlip(ch)]
  {
    hide Gather;
    var fx := HandleDisconnect(m, Some(ch)).fx;
    var code := if m.conn.state == Disconnected then NotConnected else Accepted;
    assert fx == ReplyOn(Some(ch), code) + fx[1..];
    SlipSilent(Some(ch), code, fx[1..]);
  }

  lemma SwitchAnswers(m: Actor, id: Ulid, ch: ChanId)
    ensures Gather(HandleSwitch(m, id, Some(ch)).fx, FxSlips) == [ReplySlip(ch)]
  {
    hide Gather;
    ConnectAnswers(m, id, ch);
    NestedSilent(m, id);
    SlipReply(Some(ch), AlreadyConnected);
    SlipReply(Some(ch), Accepted);
    SlipSilent(Some(ch), Accepted, HandleDisconnect(m, None).fx);
  }

  lemma ShutdownAnswers(m: Actor)
    ensures Gather(HandleShutdown(m).fx, FxSlips) == [DoneSlip]
  {
    hide Gather;
    var fx := HandleShutdown(m).fx;
    var before := fx[..|fx| - 1];
    assert fx == before + [CloseDone];
    GatherNone(before, FxSlips);
    GatherAppend(before, CloseDone, FxSlips);
  }

  /** While draining, every command is still answered exactly once. */
  lemma DrainAnswers(m: Actor, c: Cmd)
    ensures Gather(DrainCommand(m, c).fx, FxSlips) == CmdSlips(c)
  {
    hide Gather;
    GatherNil(FxSlips);
    match c {
      case Shutdown => ShutdownAnswers(m);
      case Connect(_, ch) => GatherOne(Reply(ch, ShuttingDown), FxSlips);
      case Disconnect(ch) => GatherOne(Reply(ch, ShuttingDown), FxSlips);
      case Switch(_, ch) => GatherOne(Reply(ch, ShuttingDown), FxSlips);
      case GetStatus(ch) => GatherOne(Reply(ch, NoStatus), FxSlips);
      case _ =>
    }
  }

  /** The drain as a whole answers exactly the commands it finds. */
  lemma {:induction false} DrainAllAnswers(m: Actor, q: seq<Cmd>)
    ensures Gather(DrainAll(m, q).fx, FxSlips) == Gather(q, CmdSlips)
    decreases q
  {
    if q == [] {
    } else {
      var o := DrainCommand(m, q[0]);
      DrainAnswers(m, q[0]);
      DrainAllAnswers(o.m, q[1..]);
      GatherConcat(o.fx, DrainAll(o.m, q[1..]).fx, FxSlips);
    }
  }

  lemma TakeSlips(s: Sys, l: Label)
    requires Enabled(s, l) && (l == Take || l == DrainOne)
    ensures Slips(Next(s, l)) == Slips(s)
  {
    hide Gather;
    GatherNil(FxSlips);
    GatherHead(s.q, CmdSlips);
    if l == Take {
      TakeAnswers(s.m, s.q[0]);
    } else {
      DrainAnswers(s.m, s.q[0]);
    }
  }

  lemma ExitSlips(s: Sys)
    requires Enabled(s, TakeExit)
    ensures Slips(Next(s, TakeExit)) == Slips(s)
  {
    hide Gather;
    GatherNil(FxSlips);
    SlipSilent(None, Accepted, TakeChildExit(s.m).fx);
  }

  lemma MoveSlip(q: multiset<Slip>, x: seq<Slip>, rest: seq<Slip>, log: seq<Slip>)
    ensures q + multiset(x + rest) + multiset(log) == q + multiset(rest) + multiset(log + x)
  {
    assert multiset(x + rest) == multiset(x) + multiset(rest);
    assert multiset(log + x) == multiset(log) + multiset(x);
  }

  /** What carrying out an effect adds to the log. */
  function Logged(e: Effect): seq<Event> {
    match e
    case Reply(ch, code) => [Replied(ch, code)]
    case Post(status) => [Posted(status)]
    case CloseDone => [DoneClosed]
    case StopChild(c) => [Stopped(c)]
    case _ => []
  }

  lemma ExecLog(s: Sys, dead: bool)
    requires Enabled(s, Exec(dead))
    ensures var s' := ExecOne(s, dead);
      && s'.log == s.log + Logged(s.todo[0]) && s'.q == s.q && s'.todo == s.todo[1..]
      && s'.nextCh == s.nextCh && s'.shutPosted == s.shutPosted
  {
  }

  lemma ExecSlips(s: Sys, dead: bool)
    requires Enabled(s, Exec(dead))
    ensures Slips(ExecOne(s, dead)) == Slips(s)
  {
    hide Gather;
    ExecLog(s, dead);
    hide ExecOne;
    var e, s' := s.todo[0], ExecOne(s, dead);
    GatherHead(s.todo, FxSlips);
    if Logged(e) == [] {
      assert s'.log == s.log;
    } else {
      var x := Logged(e)[0];
      assert Logged(e) == [x] && EventSlips(x) == FxSlips(e);
      GatherAppend(s.log, x, EventSlips);
      MoveSlip(multiset(Gather(s.q, CmdSlips)), FxSlips(e), Gather(s.todo[1..], FxSlips), Gather(s.log, EventSlips));
    }
  }

  /** Goroutines put only slipless commands into the queue and slipless events into the log. */
  lemma AppendSlipless(s: Sys, s': Sys, c: seq<Cmd>, e: seq<Event>)
    requires SlipsOk(s) && s'.q == s.q + c && s'.log == s.log + e && s'.todo == s.todo
    requires s'.nextCh == s.nextCh && s'.shutPosted == s.shutPosted
    requires |c| <= 1 && |e| <= 1
    requires forall x :: x in c ==> CmdSlips(x) == []
    requires forall x :: x in e ==> EventSlips(x) == []
    ensures SlipsOk(s')
  {
    hide Gather;
    if c != [] {
      assert c == [c[0]];
      GatherAppend(s.q, c[0], CmdSlips);
    } else {
      assert s'.q == s.q;
    }
    if e != [] {
      assert e == [e[0]];
      GatherAppend(s.log, e[0], EventSlips);
    } else {
      assert s'.log == s.log;
    }
    assert Slips(s') == Slips(s);
  }

  lemma WorkerSlips(s: Sys, i: nat, o: Outcome, dead: bool)
    requires SlipsOk(s) && Enabled(s, WorkerStep(i, o, dead))
    ensures SlipsOk(WorkerMoves(s, i, o, dead))
  {
    hide SlipsOk;
    var t := s.threads[i];
    var note := if t.pc.Announce? && o.Pass? then [ConnectProgress(t.gen, Connecting)] else [];
    var life := if t.pc.Fork? && o.Pass? then [Spawned(|s.kids|)]
                else if t.pc.Unwind? then [Stopped(t.pc.child)] else [];
    AppendSlipless(s, WorkerMoves(s, i, o, dead), note, life);
  }

  lemma TeardownSlips(s: Sys, i: nat, dead: bool)
    requires SlipsOk(s) && Enabled(s, TeardownStop(i, dead))
    ensures SlipsOk(Next(s, TeardownStop(i, dead)))
  {
    hide SlipsOk;
    AppendSlipless(s, Next(s, TeardownStop(i, dead)), [], [Stopped(s.threads[i].stack)]);
  }

  lemma PostBackSlips(s: Sys, i: nat, drop: bool)
    requires SlipsOk(s) && Enabled(s, PostBack(i, drop))
    ensures SlipsOk(Next(s, PostBack(i, drop)))
  {
    hide SlipsOk;
    var c := PostBackCmd(s.threads[i]).value;
    AppendSlipless(s, Next(s, PostBack(i, drop)), if drop then [] else [c], []);
  }

  lemma CallAdds(s: Sys, c: Cmd, s': Sys)
    requires SlipsOk(s) && s'.q == s.q + [c] && s'.log == s.log && s'.todo == s.todo
    requires (CmdSlips(c) == [ReplySlip(s.nextCh)] && s'.nextCh == s.nextCh + 1 && s'.shutPosted == s.shutPosted)
          || (CmdSlips(c) == [DoneSlip] && s'.nextCh == s.nextCh && s'.shutPosted && !s.shutPosted)
    ensures SlipsOk(s')
  {
    hide Gather;
    GatherAppend(s.q, c, CmdSlips);
    assert multiset(Gather(s.q, CmdSlips) + CmdSlips(c)) == multiset(Gather(s.q, CmdSlips)) + multiset(CmdSlips(c));
    assert Slips(s') == Slips(s) + multiset(CmdSlips(c));
  }

  lemma CallSlips(s: Sys, r: Request)
    requires SlipsOk(s) && Enabled(s, Call(r))
    ensures SlipsOk(Next(s, Call(r)))
  {
    hide SlipsOk;
    CallAdds(s, RequestCmd(r, s.nextCh), Next(s, Call(r)));
  }

  lemma CallShutdownSlips(s: Sys)
    requires SlipsOk(s) && Enabled(s, CallShutdown)
    ensures SlipsOk(Next(s, CallShutdown))
  {
    hide SlipsOk;
    CallAdds(s, Shutdown, Next(s, CallShutdown));
  }

  /** Every step of every kind, shutdown and drain included. */
  lemma StepSlips(s: Sys, l: Label)
    requires SlipsOk(s) && Enabled(s, l)
    ensures SlipsOk(Next(s, l))
  {
    hide Slips;
    hide Gather;
    match l {
      case Call(r) => CallSlips(s, r);
      case CallShutdown => CallShutdownSlips(s);
      case Take => TakeSlips(s, l);
      case DrainOne => TakeSlips(s, l);
      case TakeExit => ExitSlips(s);
      case Exec(dead) => ExecSlips(s, dead); ExecLog(s, dead);
      case WorkerStep(i, o, dead) => WorkerSlips(s, i, o, dead);
      case TeardownStop(i, dead) => TeardownSlips(s, i, dead);
      case PostBack(i, drop) => PostBackSlips(s, i, drop);
      case _ => SameSlips(s, Next(s, l));
    }
  }

  lemma SameSlips(s: Sys, s': Sys)
    requires SlipsOk(s) && s'.q == s.q && s'.todo == s.todo && s'.log == s.log
    requires s'.nextCh == s.nextCh && s'.shutPosted == s.shutPosted
    ensures SlipsOk(s')
  {
    assert Slips(s') == Slips(s);
  }

  lemma {:induction false} RunSlips(states: seq<Sys>, labels: seq<Label>)
    requires IsRun(states, labels) && SlipsOk(states[0])
    ensures SlipsOk(Last(states))
    decreases |labels|
  {
    hide SlipsOk;
    hide Next;
    hide Enabled;
    if labels == [] {
    } else {
      StepSlips(states[0], labels[0]);
      RunSlips(states[1..], labels[1..]);
    }
  }

  /**
   * In every run a request made on channel `ch` is in exactly one place: still queued, about to be
   * answered by the handler in progress, or answered, once, in the log. The same for Shutdown.
   */
  lemma ExactlyOneReply(states: seq<Sys>, labels: seq<Label>, ch: ChanId)
    requires IsDaemonRun(states, labels)
    ensures var s := Last(states);
      && Times(Gather(s.q, CmdSlips), ReplySlip(ch)) + Times(Gather(s.todo, FxSlips), ReplySlip(ch))
         + Times(Gather(s.log, EventSlips), ReplySlip(ch)) == (if ch < s.nextCh then 1 else 0)
      && Times(Gather(s.q, CmdSlips), DoneSlip) + Times(Gather(s.todo, FxSlips), DoneSlip)
         + Times(Gather(s.log, EventSlips), DoneSlip) == (if s.shutPosted then 1 else 0)
  {
    assert SlipsOk(INIT);
    RunSlips(states, labels);
    assert SlipsOk(Last(states));
  }

  // ---------- calls that come too late ----------

  /** The actor has exited: nothing leaves the queue and nothing is pending. */
  predicate Over(s: Sys) {
    s.mode == Exited && s.todo == []
  }

  lemma OverStep(s: Sys, l: Label)
    requires Over(s) && Enabled(s, l)
    ensures Over(Next(s, l)) && s.q <= Next(s, l).q
  {
    hide WorkerNext;
  }

  lemma {:induction false} OverRun(states: seq<Sys>, labels: seq<Label>)
    requires IsRun(states, labels) && Over(states[0])
    ensures Over(Last(states)) && states[0].q <= Last(states).q
    decreases |labels|
  {
    hide Next;
    hide Enabled;
    hide Over;
    if labels == [] {
    } else {
      OverStep(states[0], labels[0]);
      OverRun(states[1..], labels[1..]);
    }
  }

  lemma CallQueues(s: Sys, r: Request)
    requires Enabled(s, Call(r))
    ensures var t := Next(s, Call(r));
      t.q == s.q + [RequestCmd(r, s.nextCh)] && s.nextCh < t.nextCh && t.mode == s.mode
    ensures CmdSlips(RequestCmd(r, s.nextCh)) == [ReplySlip(s.nextCh)]
  {
  }

  lemma SlipInQueue(q: seq<Cmd>, c: Cmd, ch: ChanId)
    requires c in q && CmdSlips(c) == [ReplySlip(ch)]
    ensures Times(Gather(q, CmdSlips), ReplySlip(ch)) >= 1
  {
    hide Gather;
    var i :| 0 <= i < |q| && q[i] == c;
    GatherSplit(q, i, CmdSlips);
    assert ReplySlip(ch) in Gather(q, CmdSlips);
  }

  /** A call that reaches the queue after the actor has exited gets no reply, however long the run goes on. */
  lemma LateCallIsStranded(states: seq<Sys>, labels: seq<Label>, k: nat, r: Request)
    requires IsDaemonRun(states, labels) && k < |labels| && Over(states[k]) && labels[k] == Call(r)
    ensures var s, ch := Last(states), states[k].nextCh;
      Times(Gather(s.q, CmdSlips), ReplySlip(ch)) == 1 && Times(Gather(s.log, EventSlips), ReplySlip(ch)) == 0
  {
    hide Gather;
    hide Next;
    hide Enabled;
    var s, ch := Last(states), states[k].nextCh;
    var c := RequestCmd(r, ch);
    CallQueues(states[k], r);
    OverStep(states[k], labels[k]);
    var after := states[k + 1..];
    assert IsRun(after, labels[k + 1..]) && Last(after) == s;
    OverRun(after, labels[k + 1..]);
    assert s.q[|states[k].q|] == c;
    SlipInQueue(s.q, c, ch);
    ExactlyOneReply(states, labels, ch);
  }

  // ---------- every call that comes in time ----------

  /** The log is never rewritten. */
  lemma LogGrows(s: Sys, l: Label)
    requires Enabled(s, l)
    ensures s.log <= Next(s, l).log && s.nextCh <= Next(s, l).nextCh
  {
    hide TakeCommand;
    hide TakeChildExit;
    hide DrainCommand;
    hide WorkerNext;
    hide Moved;
    if l.Exec? {
      ExecLog(s, l.dead);
    }
    hide ExecOne;
  }

  lemma {:induction false} RunLogGrows(states: seq<Sys>, labels: seq<Label>)
    requires IsRun(states, labels)
    ensures states[0].log <= Last(states).log && states[0].nextCh <= Last(states).nextCh
    decreases |labels|
  {
    hide Next;
    hide Enabled;
    if labels == [] {
    } else {
      LogGrows(states[0], labels[0]);
      RunLogGrows(states[1..], labels[1..]);
    }
  }

  lemma PrefixTimes(a: seq<Event>, b: seq<Event>, x: Slip)
    requires a <= b
    ensures Times(Gather(a, EventSlips), x) <= Times(Gather(b, EventSlips), x)
  {
    hide Gather;
    assert b == a + b[|a|..];
    GatherConcat(a, b[|a|..], EventSlips);
    TimesConcat(Gather(a, EventSlips), Gather(b[|a|..], EventSlips), x);
  }

  /** The actor exits with nothing queued and nothing pending, so whatever was owed by then has been paid. */
  lemma ExitPays(s: Sys, l: Label)
    requires Enabled(s, l) && s.mode != Exited && Next(s, l).mode == Exited
    ensures var t := Next(s, l); Over(t) && t.q == []
  {
    hide TakeCommand;
    hide TakeChildExit;
    hide DrainCommand;
    hide WorkerNext;
    hide CancelWorkers;
    hide Moved;
  }

  lemma {:induction false} PaidAtExit(states: seq<Sys>, labels: seq<Label>, ch: ChanId)
    requires IsRun(states, labels) && SlipsOk(states[0]) && ch < states[0].nextCh
    requires states[0].mode != Exited && Last(states).mode == Exited
    ensures Times(Gather(Last(states).log, EventSlips), ReplySlip(ch)) >= 1
    decreases |labels|
  {
    hide Gather;
    hide SlipsOk;
    hide Next;
    hide Enabled;
    hide Over;
    if labels == [] {
    } else {
      StepSlips(states[0], labels[0]);
      LogGrows(states[0], labels[0]);
      if states[1].mode == Exited {
        ExitPays(states[0], labels[0]);
        PaidWhenEmpty(states[1], ch);
        RunLogGrows(states[1..], labels[1..]);
        PrefixTimes(states[1].log, Last(states).log, ReplySlip(ch));
      } else {
        PaidAtExit(states[1..], labels[1..], ch);
      }
    }
  }

  lemma PaidWhenEmpty(s: Sys, ch: ChanId)
    requires SlipsOk(s) && Over(s) && s.q == [] && ch < s.nextCh
    ensures Times(Gather(s.log, EventSlips), ReplySlip(ch)) >= 1
  {
    hide Gather;
    GatherNil(CmdSlips);
    GatherNil(FxSlips);
    assert Slips(s)[ReplySlip(ch)] == 1;
  }

  lemma {:induction false} ExitedIsOver(states: seq<Sys>, labels: seq<Label>)
    requires IsRun(states, labels) && (states[0].mode == Exited ==> Over(states[0]))
    ensures Last(states).mode == Exited ==> Over(Last(states))
    decreases |labels|
  {
    hide Next;
    hide Enabled;
    hide Over;
    if labels == [] {
    } else {
      if states[0].mode == Exited {
        OverStep(states[0], labels[0]);
      } else if states[1].mode == Exited {
        ExitPays(states[0], labels[0]);
      }
      ExitedIsOver(states[1..], labels[1..]);
    }
  }

  /** By the time the actor has exited, a call has been answered, once, if and only if it was queued before the exit. */
  lemma CallAnsweredIff(states: seq<Sys>, labels: seq<Label>, k: nat, r: Request)
    requires IsDaemonRun(states, labels) && k < |labels| && labels[k] == Call(r) && Last(states).mode == Exited
    ensures Times(Gather(Last(states).log, EventSlips), ReplySlip(states[k].nextCh)) == 1 <==> states[k].mode != Exited
  {
    hide Gather;
    hide Next;
    hide Enabled;
    hide SlipsOk;
    var before := states[..k + 1];
    assert IsRun(before, labels[..k]) && Last(before) == states[k];
    if states[k].mode == Exited {
      ExitedIsOver(before, labels[..k]);
      LateCallIsStranded(states, labels, k, r);
    } else {
      var ch, after := states[k].nextCh, states[k + 1..];
      assert IsRun(after, labels[k + 1..]) && Last(after) == Last(states);
      InitSlips();
      RunSlips(before, labels[..k]);
      StepSlips(states[k], labels[k]);
      CallQueues(states[k], r);
      PaidAtExit(after, labels[k + 1..], ch);
      ExactlyOneReply(states, labels, ch);
    }
  }

  lemma InitSlips()
    ensures SlipsOk(INIT)
  {
  }
}
