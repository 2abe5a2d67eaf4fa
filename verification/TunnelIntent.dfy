/** What the user last asked for, and how each step of the actor moves it. */
module TunnelIntent {
  import opened Base
  import opened Tunnel
  import opened Handlers
  import opened WorkerSteps
  import opened TunnelSystem
  import opened TunnelInvariant
  import opened HandlerEffects
  import opened TakeSteps

  /** The config the actor is on, or on its way to. */
  function Wanted(m: Actor): Option<Ulid> {
    match m.conn.state
    case Validating | Connecting | Connected => m.conn.configId
    case Disconnecting => if m.pendingSwitch != ZERO_ULID then Some(m.pendingSwitch) else None
    case Disconnected | Error => None
  }

  /** The caller waiting on `ch` is told that its request was accepted. */
  predicate AcceptedOn(fx: seq<Effect>, ch: ChanId) {
    Reply(ch, Accepted) in fx
  }

  /**
   * When an accepted Switch reaches its target. The all-zero id doubles as "no pending switch" and
   * "no active config", so a Switch to it works only where nothing has to be deferred or compared.
   */
  predicate SwitchReaches(wanted: Option<Ulid>, state: TunnelState, id: Ulid) {
    id != ZERO_ULID || state == Disconnected || state == Error || wanted == Some(ZERO_ULID)
  }

  /**
   * What a step does to the wish: a function of the wish, the command and its reply, the state the actor had
   * posted, and whether a reported failure belongs to the attempt that is current.
   */
  ghost function IntentNext(w: Option<Ulid>, s: Sys, l: Label): Option<Ulid>
    requires Enabled(s, l)
  {
    match l
    case Take =>
      var fx := Next(s, Take).todo;
      (match s.q[0]
       case Connect(id, ch) => if AcceptedOn(fx, ch) then Some(id) else w
       case Switch(id, ch) =>
         if !AcceptedOn(fx, ch) then w
         else if SwitchReaches(w, s.m.conn.state, id) then Some(id)
         else if s.m.conn.state == Connected then None
         else w
       case Disconnect(_) => None
       case ConnectDone(gen, result) => if gen == s.m.opGen && result.err.Some? then None else w
       case _ => w)
    case TakeExit => if s.m.conn.state == Connected then None else w
    case _ => w
  }

  lemma ConnectIntent(m: Actor, id: Ulid, ch: ChanId)
    requires FieldsOk(m)
    ensures var o := TakeCommand(m, Connect(id, ch));
      Wanted(o.m) == if AcceptedOn(o.fx, ch) then Some(id) else Wanted(m)
  {
  }

  lemma DisconnectIntent(m: Actor, ch: ChanId)
    requires FieldsOk(m)
    ensures Wanted(TakeCommand(m, Disconnect(ch)).m) == None
    ensures AcceptedOn(TakeCommand(m, Disconnect(ch)).fx, ch) <==> m.conn.state != Disconnected
  {
    hide Wanted;
    var m1 := CancelTimer(m);
    var d := HandleDisconnect(m1, Some(ch));
    assert d.fx[0] == if m.conn.state == Disconnected then Reply(ch, NotConnected) else Reply(ch, Accepted);
    DisconnectClears(m1, Some(ch));
  }

  lemma DisconnectClears(m: Actor, to: Option<ChanId>)
    requires FieldsOk(m)
    ensures var d := HandleDisconnect(m, to);
      Wanted(d.m) == None && d.m.pendingSwitch == ZERO_ULID
      && (m.conn.state in {Validating, Connecting, Connected} ==> d.m.conn.state == Disconnecting)
  {
  }

  lemma SwitchIntent(m: Actor, id: Ulid, ch: ChanId)
    requires FieldsOk(m) && (m.conn.state in {Validating, Connecting} ==> m.conn.configId.Some?)
    ensures var o := TakeCommand(m, Switch(id, ch));
      && (AcceptedOn(o.fx, ch) <==> m.conn.state != Disconnecting)
      && Wanted(o.m) == (if m.conn.state == Disconnecting then Wanted(m)
                         else if SwitchReaches(Wanted(m), m.conn.state, id) then Some(id)
                         else if m.conn.state == Connected then None
                         else Wanted(m))
  {
    var m1 := CancelTimer(m);
    var o := TakeCommand(m, Switch(id, ch));
    if m.conn.state in {Validating, Connecting, Connected} && m.activeId != id {
      DisconnectClears(m1, None);
      assert o.fx[|o.fx| - 1] == Reply(ch, Accepted);
    } else if m.conn.state == Disconnecting {
      assert o.fx == [Reply(ch, AlreadyConnected)];
    } else {
      assert o.fx[0] == Reply(ch, Accepted);
    }
  }

  /** Reports of finished operations keep the wish, unless the operation is the wished one and failed. */
  lemma ReportIntent(m: Actor, c: Cmd)
    requires FieldsOk(m) && CmdOk(c) && CmdTokens(c) != [] && TokensOk(m, CmdTokens(c))
    ensures Wanted(TakeCommand(m, c).m)
         == if c.ConnectDone? && c.gen == m.opGen && c.result.err.Some? then None else Wanted(m)
  {
  }

  lemma NoticeIntent(m: Actor, c: Cmd)
    requires FieldsOk(m) && (c.GetStatus? || c.ConnectProgress? || c.AutoRevert?)
    ensures Wanted(TakeCommand(m, c).m) == Wanted(m)
  {
  }

  lemma TakeIntent(s: Sys)
    requires Inv(s) && Enabled(s, Take) && !s.q[0].Shutdown?
    ensures Wanted(Next(s, Take).m) == IntentNext(Wanted(s.m), s, Take)
  {
    hide Gather;
    hide Wanted;
    hide HandleDisconnect;
    var c := s.q[0];
    assert TokensOk(s.m, Tokens(s));
    assert c in s.q;
    match c {
      case Connect(id, ch) => ConnectIntent(s.m, id, ch);
      case Disconnect(ch) => DisconnectIntent(s.m, ch);
      case Switch(id, ch) => SwitchIntent(s.m, id, ch);
      case ConnectDone(_, _) => TokenHead(s); ReportIntent(s.m, c);
      case DisconnectDone(_) => TokenHead(s); ReportIntent(s.m, c);
      case GetStatus(_) => NoticeIntent(s.m, c);
      case ConnectProgress(_, _) => NoticeIntent(s.m, c);
      case AutoRevert => NoticeIntent(s.m, c);
    }
  }

  lemma TakeExitIntent(s: Sys)
    requires Inv(s) && Enabled(s, TakeExit)
    ensures Wanted(Next(s, TakeExit).m) == IntentNext(Wanted(s.m), s, TakeExit)
  {
    hide Gather;
    assert FieldsOk(s.m);
  }

  lemma OtherIntent(s: Sys, l: Label)
    requires Enabled(s, l) && l != Take && l != TakeExit && l != DrainOne
    ensures Wanted(Next(s, l).m) == IntentNext(Wanted(s.m), s, l)
  {
  }

  /** At every step before shutdown the wish moves as IntentNext says. */
  lemma IntentRefined(s: Sys, l: Label)
    requires Inv(s) && Up(s) && Enabled(s, l) && Up(Next(s, l))
    ensures Wanted(Next(s, l).m) == IntentNext(Wanted(s.m), s, l)
  {
    hide Inv;
    hide Wanted;
    hide IntentNext;
    if l == Take {
      TakeIntent(s);
    } else if l == TakeExit {
      TakeExitIntent(s);
    } else {
      OtherIntent(s, l);
    }
  }

  /** When the outstanding operation reports, a deferred Switch starts one connect, to its target. */
  lemma DeferredSwitchStarts(s: Sys)
    requires Inv(s) && Enabled(s, Take) && CmdTokens(s.q[0]) != []
    requires s.m.conn.state == Disconnecting && s.m.pendingSwitch != ZERO_ULID
    ensures var s' := Next(s, Take);
      && s'.m.conn == Plain(Validating, Some(s.m.pendingSwitch)) && s'.m.pendingSwitch == ZERO_ULID
      && Tokens(s') == [ConnTok(s'.m.opGen, s.m.pendingSwitch)]
      && Gather(s'.todo, FxTokens) == Tokens(s')
  {
    hide Gather;
    TokenHead(s);
    var c := s.q[0];
    assert FieldsOk(s.m) && CmdOk(c) by { assert c in s.q; }
    hide Inv;
    var cleanup := if c.ConnectDone? then c.result.cleanup else None;
    TeardownSum(s.m, cleanup);
    TeardownFields(s.m);
    hide FieldsOk;
    assert RunStack(None) + FinishTeardown(s.m).fx == FinishTeardown(s.m).fx;
  }
}
