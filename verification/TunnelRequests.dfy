/**
 * What each command does to the actor in a state that a run can reach: what is posted, what is started, stopped
 * or cancelled, in which order, and what stays as it was.
 */
module TunnelRequests {
  import opened Base
  import opened Tunnel
  import opened Handlers
  import opened WorkerSteps
  import opened TunnelSystem
  import opened TunnelInvariant
  import opened HandlerEffects
  import opened TakeSteps
  import opened TunnelIntent

  /** What the invariant says of the fields. */
  predicate Known(m: Actor) {
    && FieldsOk(m)
    && (m.conn.state in {Validating, Connecting} ==> m.conn.configId.Some?)
    && (m.conn.state == Disconnected ==> m.conn == IDLE)
  }

  /** Every state before shutdown is known, and taking a command does what its handler says. */
  lemma TakenFromKnown(s: Sys)
    requires Inv(s) && Enabled(s, Take)
    ensures Known(s.m) && CmdOk(s.q[0]) && !s.q[0].ChildExit?
    ensures Next(s, Take).m == TakeCommand(s.m, s.q[0]).m && Next(s, Take).todo == TakeCommand(s.m, s.q[0]).fx
    ensures CmdTokens(s.q[0]) != [] ==> TokensOk(s.m, CmdTokens(s.q[0]))
  {
    hide Gather;
    InvKnown(s);
    assert s.q[0] in s.q;
    if CmdTokens(s.q[0]) != [] {
      TokenHead(s);
    }
    hide Inv;
    hide TakeCommand;
  }

  lemma InvKnown(s: Sys)
    requires Inv(s)
    ensures Known(s.m)
  {
    hide Gather;
    assert TokensOk(s.m, Tokens(s)) && FieldsOk(s.m);
    assert LegalTrace(Trace(s)) && Last(Trace(s)) == s.m.conn;
    DownIsIdle(Trace(s));
  }

  lemma DownIsIdle(t: seq<ConnStatus>)
    requires t != [] && LegalTrace(t) && t[0] == IDLE
    ensures Last(t).state == Disconnected ==> Last(t) == IDLE
  {
    if |t| > 1 {
      assert LegalStep(t[|t| - 2], t[|t| - 1]);
    }
  }

  // ---------- requests ----------

  /** Nothing but the answer: every field is as it was. */
  predicate OnlyAnswers(m: Actor, o: Out, ch: ChanId, code: ReplyCode) {
    o.m == m && o.fx == [Reply(ch, code)]
  }

  /** An attempt at `id` starts: Validating is posted, then the worker of a new generation is started. */
  predicate Starts(m: Actor, o: Out, id: Ulid, ch: ChanId) {
    && o.m == m.(conn := o.m.conn, opGen := m.opGen + 1, cancelConnect := Some(m.opGen + 1), timer := Off)
    && o.m.conn == ConnStatus(Validating, Some(id), None, "")
    && o.fx == [Reply(ch, Accepted), Post(o.m.conn), Spawn(m.opGen + 1, id)]
  }

  predicate Aloft(m: Actor) {
    m.conn.state in {Validating, Connecting, Connected}
  }

  /**
   * The tunnel goes down, with `target` deferred: Disconnecting is posted for the same config, and then the
   * attempt is cancelled or the child's teardown started, under a new generation.
   */
  predicate GoesDown(m: Actor, o: Out, target: Ulid, before: seq<Effect>, after: seq<Effect>)
    requires m.conn.state == Connected ==> m.child.Some?
  {
    var way := if m.conn.state == Connected then SpawnTeardown(m.opGen + 1, m.child.value) else Cancel(m.opGen);
    && o.m == m.(conn := o.m.conn, opGen := m.opGen + 1, armed := None, cancelConnect := None, pendingSwitch := target)
    && o.m.conn == ConnStatus(Disconnecting, m.conn.configId, None, "")
    && o.fx == before + [Post(o.m.conn), way] + after
  }

  /** A Connect starts an attempt if the tunnel is down, and otherwise changes nothing. */
  lemma ConnectDoes(m: Actor, id: Ulid, ch: ChanId)
    requires Known(m)
    ensures var o := TakeCommand(m, Connect(id, ch));
      if m.conn.state in {Disconnected, Error} then Starts(m, o, id, ch) else OnlyAnswers(m, o, ch, AlreadyConnected)
  {
  }

  /** A Disconnect takes the tunnel down, once; while it is going down it only drops a deferred target. */
  lemma DisconnectDoes(m: Actor, ch: ChanId)
    requires Known(m)
    ensures var o := TakeCommand(m, Disconnect(ch));
      match m.conn.state {
        case Disconnected => OnlyAnswers(m, o, ch, NotConnected)
        case Disconnecting => OnlyAnswers(m.(pendingSwitch := ZERO_ULID), o, ch, Accepted)
        case Error => o.m == m.(conn := IDLE, timer := Off) && o.fx == [Reply(ch, Accepted), Post(IDLE)]
        case _ => GoesDown(m, o, ZERO_ULID, [Reply(ch, Accepted)], [])
      }
  {
    if Aloft(m) {
      DownFrom(m, Some(ch));
    }
  }

  lemma DownFrom(m: Actor, to: Option<ChanId>)
    requires Known(m) && Aloft(m)
    ensures GoesDown(m, HandleDisconnect(CancelTimer(m), to), ZERO_ULID, ReplyOn(to, Accepted), [])
  {
    var o := HandleDisconnect(CancelTimer(m), to);
    if m.conn.state != Connected {
      assert ReplyOn(to, Accepted) + [Post(o.m.conn)] + [Cancel(m.opGen)]
          == ReplyOn(to, Accepted) + [Post(o.m.conn), Cancel(m.opGen)] + [];
    } else {
      assert o.fx == o.fx + [];
    }
  }

  /** Whether the actor takes itself to be on `id`; on an attempt it takes itself to be on no config, which is zero. */
  predicate OnIt(m: Actor, id: Ulid) {
    if m.conn.state == Connected then m.conn.configId == Some(id) else id == ZERO_ULID
  }

  /**
   * A Switch to the config that is up changes nothing, and neither does one that is refused. Any other takes the
   * tunnel down first and defers its target, or, if the tunnel is down, starts at once.
   */
  lemma SwitchDoes(m: Actor, id: Ulid, ch: ChanId)
    requires Known(m)
    ensures var o := TakeCommand(m, Switch(id, ch));
      match m.conn.state {
        case Disconnecting => OnlyAnswers(m, o, ch, AlreadyConnected)
        case Disconnected | Error => Starts(m, o, id, ch)
        case _ =>
          if OnIt(m, id) then OnlyAnswers(m, o, ch, Accepted) else GoesDown(m, o, id, [], [Reply(ch, Accepted)])
      }
  {
    if Aloft(m) && !OnIt(m, id) {
      DownFrom(m, None);
      var d := HandleDisconnect(CancelTimer(m), None);
      assert d.fx == d.fx[..2] && TakeCommand(m, Switch(id, ch)).fx == [] + d.fx[..2] + [Reply(ch, Accepted)];
    }
  }

  /** GetStatus changes nothing and is told the status. */
  lemma StatusDoes(m: Actor, ch: ChanId)
    requires Known(m)
    ensures OnlyAnswers(m, TakeCommand(m, GetStatus(ch)), ch, StatusIs(m.conn))
  {
  }

  /** A Switch that leaves the tunnel alone: it is refused, finds its config up, or meets an attempt with the zero id. */
  predicate LeavesAlone(m: Actor, id: Ulid) {
    m.conn.state == Disconnecting || (Aloft(m) && OnIt(m, id))
  }

  lemma SwitchAlone(m: Actor, id: Ulid, ch: ChanId)
    requires Known(m)
    ensures var o := TakeCommand(m, Switch(id, ch));
      && (o.m == m <==> LeavesAlone(m, id))
      && (LeavesAlone(m, id) ==>
            o.fx == [Reply(ch, if m.conn.state == Disconnecting then AlreadyConnected else Accepted)])
  {
    SwitchDoes(m, id, ch);
    hide TakeCommand;
  }

  lemma SwitchTarget(m: Actor, id: Ulid, ch: ChanId)
    requires Known(m) && Aloft(m)
    ensures var o := TakeCommand(m, Switch(id, ch));
      && (!LeavesAlone(m, id) ==>
            o.m.conn.state == Disconnecting && Wanted(o.m) == if id == ZERO_ULID then None else Some(id))
      && (Wanted(o.m) == Some(id) <==> SwitchReaches(Wanted(m), m.conn.state, id))
  {
    SwitchDoes(m, id, ch);
    hide TakeCommand;
  }

  /**
   * In every state before shutdown: a Switch changes no field exactly if it leaves the tunnel alone, and is then only
   * answered. One that does not leave it alone takes it down at once, and keeps its target unless that is the zero
   * id, which cannot be deferred.
   */
  lemma SwitchMovesIff(s: Sys, id: Ulid, ch: ChanId)
    requires Inv(s) && Enabled(s, Take) && s.q[0] == Switch(id, ch)
    ensures var s' := Next(s, Take);
      && (s'.m == s.m <==> LeavesAlone(s.m, id))
      && (LeavesAlone(s.m, id) ==>
            s'.todo == [Reply(ch, if s.m.conn.state == Disconnecting then AlreadyConnected else Accepted)])
      && (!LeavesAlone(s.m, id) && Aloft(s.m) ==>
            s'.m.conn.state == Disconnecting && Wanted(s'.m) == if id == ZERO_ULID then None else Some(id))
      && (Aloft(s.m) ==> (Wanted(s'.m) == Some(id) <==> SwitchReaches(Wanted(s.m), s.m.conn.state, id)))
  {
    TakenFromKnown(s);
    SwitchAlone(s.m, id, ch);
    if Aloft(s.m) {
      SwitchTarget(s.m, id, ch);
    }
    hide *;
  }

  /** In every state before shutdown GetStatus leaves one reply pending, which carries the last posted status. */
  lemma StatusIsPosted(s: Sys, ch: ChanId)
    requires Inv(s) && Enabled(s, Take) && s.q[0] == GetStatus(ch)
    ensures var s' := Next(s, Take); s'.m == s.m && s'.todo == [Reply(ch, StatusIs(Last(Trace(s))))]
  {
    hide Gather;
    TakenFromKnown(s);
    StatusDoes(s.m, ch);
    assert Last(Trace(s)) == s.m.conn;
    hide Inv;
    hide TakeCommand;
  }

  // ---------- reports ----------

  /** What is posted for a failure: nothing but Disconnected if the attempt was cancelled. */
  function Shown(f: Failure): ConnStatus {
    match f
    case Canceled => ConnStatus(Disconnected, None, None, "")
    case DeadlineExceeded => ConnStatus(Error, None, None, "connect_timeout")
    case Fault(symbol) => ConnStatus(Error, None, None, symbol)
  }

  /** The current attempt's report: up on its child, or the failure posted and, if it is an Error, its timer started. */
  lemma ReportDoes(m: Actor, c: Cmd)
    requires Known(m) && c.ConnectDone? && CmdOk(c) && TokensOk(m, CmdTokens(c)) && c.gen == m.opGen
    ensures var o, r := TakeCommand(m, c), c.result;
      && o.fx == [Post(o.m.conn)]
      && if r.err.None? then
           && o.m.conn == ConnStatus(Connected, m.conn.configId, r.child, "") && r.child.Some?
           && o.m == m.(conn := o.m.conn, cancelConnect := None, armed := r.child, child := r.child,
                        childExitCC := r.child, activeId := m.conn.configId.value)
         else
           && o.m.conn == Shown(r.err.value)
           && o.m == m.(conn := o.m.conn, cancelConnect := None,
                        timer := if r.err.value == Canceled then m.timer else Ticking)
  {
  }

  /** The stop of what a report hands in, if that has not run yet. */
  function StopOf(c: Cmd): seq<Effect> {
    if c.ConnectDone? && c.result.cleanup.Some? then [StopChild(c.result.cleanup.value)] else []
  }

  /**
   * The report that ends a teardown: what it still holds is stopped, Disconnected is posted, and a deferred target
   * is started, after which nothing is deferred any more.
   */
  lemma TeardownEnds(m: Actor, c: Cmd)
    requires Known(m) && CmdOk(c) && CmdTokens(c) != [] && TokensOk(m, CmdTokens(c)) && m.conn.state == Disconnecting
    ensures var o, id := TakeCommand(m, c), m.pendingSwitch;
      var down :=
        m.(child := None, childExitCC := None, activeId := ZERO_ULID, pendingSwitch := ZERO_ULID, conn := IDLE);
      if id == ZERO_ULID then o == Out(down, StopOf(c) + [Post(IDLE)])
      else
        var up := ConnStatus(Validating, Some(id), None, "");
        && o.m == down.(conn := up, opGen := m.opGen + 1, cancelConnect := Some(m.opGen + 1))
        && o.fx == StopOf(c) + [Post(IDLE), Post(up), Spawn(m.opGen + 1, id)]
  {
    FinishIs(m);
    hide FinishTeardown;
  }

  lemma FinishIs(m: Actor)
    ensures var o, id := FinishTeardown(m), m.pendingSwitch;
      var down :=
        m.(child := None, childExitCC := None, activeId := ZERO_ULID, pendingSwitch := ZERO_ULID, conn := IDLE);
      if id == ZERO_ULID then o == Out(down, [Post(IDLE)])
      else
        var up := ConnStatus(Validating, Some(id), None, "");
        && o.m == down.(conn := up, opGen := m.opGen + 1, cancelConnect := Some(m.opGen + 1))
        && o.fx == [Post(IDLE), Post(up), Spawn(m.opGen + 1, id)]
  {
  }

  /** The current attempt's announcement moves Validating to Connecting; any other does nothing. */
  lemma ProgressDoes(m: Actor, gen: nat)
    requires Known(m)
    ensures var o := TakeCommand(m, ConnectProgress(gen, Connecting));
      if gen == m.opGen && m.conn.state == Validating
      then o.m == m.(conn := ConnStatus(Connecting, m.conn.configId, None, "")) && o.fx == [Post(o.m.conn)]
      else o == Out(m, [])
  {
  }

  /** A child that dies under the tunnel is stopped and posted as an Error with its timer; elsewhere it is let go. */
  lemma ExitDoes(m: Actor)
    requires Known(m) && m.childExitCC.Some?
    ensures var o := TakeChildExit(m);
      if m.conn.state == Connected then
        && o.m == m.(child := None, childExitCC := None, armed := None, activeId := ZERO_ULID, timer := Ticking,
                     conn := ConnStatus(Error, None, None, "xray_died_early"))
        && o.fx == [StopChild(m.child.value), Post(o.m.conn)]
      else
        m.conn.state == Disconnecting && o == Out(m.(child := None, childExitCC := None), [])
  {
  }

  /**
   * Shutdown cancels a running attempt, stops what is armed, posts Disconnected unless that is posted already, and
   * closes its channel, in this order; of all fields it leaves the generation alone.
   */
  lemma ShutdownDoes(m: Actor)
    requires Known(m)
    ensures TakeCommand(m, Shutdown).m == FRESH_ACTOR.(opGen := m.opGen)
    ensures TakeCommand(m, Shutdown).fx == match m.conn.state {
      case Validating | Connecting => [Cancel(m.opGen), Post(IDLE), CloseDone]
      case Connected => [StopChild(m.child.value), Post(IDLE), CloseDone]
      case Disconnected => [CloseDone]
      case Disconnecting | Error => [Post(IDLE), CloseDone]
    }
  {
  }
}
