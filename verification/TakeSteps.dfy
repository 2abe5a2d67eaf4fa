/** Taking a command or a child's exit keeps the invariant. */
module TakeSteps {
  import opened Base
  import opened Tunnel
  import opened Handlers
  import opened WorkerSteps
  import opened TunnelSystem
  import opened TunnelInvariant
  import opened HandlerEffects

  // ---------- taking a command, in place ----------

  /** A command without token or stack leaves what is beside the actor alone. */
  lemma PlainHead(s: Sys)
    requires Inv(s) && Idle(s) && s.q != [] && CmdTokens(s.q[0]) == [] && CmdStacks(s.q[0]) == []
    ensures var ar := Beside(s, s.q[1..]);
      && AroundOk(s.m, ar, Open(s.kids))
      && (ar.tt + ar.tq == [] ==> ar == QUIET)
  {
    hide Gather;
    QuietOwners(s);
    IdleGathers(s);
    var rest := s.q[1..];
    GatherHead(s.q, CmdTokens);
    GatherHead(s.q, CmdStacks);
  }

  /** A reported operation was the only one: nothing is beside the actor. */
  lemma TokenHead(s: Sys)
    requires Inv(s) && Idle(s) && s.q != [] && CmdTokens(s.q[0]) != []
    ensures Beside(s, s.q[1..]) == QUIET
    ensures TokensOk(s.m, CmdTokens(s.q[0]))
    ensures Open(s.kids) == CmdStacks(s.q[0]) + OptionSeq(s.m.armed)
    ensures (forall t :: t in s.threads ==> t.Revert?)
    ensures (forall c :: c in s.q[1..] ==> !c.ConnectDone?)
  {
    hide Gather;
    AtMostOneToken(s.m, Tokens(s));
    IdleGathers(s);
    GatherHead(s.q, CmdTokens);
    GatherHead(s.q, CmdStacks);
    StacksNeedTokens(s.threads, s.q[1..]);
  }

  /** A connect that starts now has nothing announced or reported ahead of it. */
  lemma OrderWhenQuiet(s: Sys, m: Actor, rest: seq<Cmd>)
    requires Gather(s.threads, ThreadTokens) == [] && Gather(rest, CmdTokens) == []
    requires m.conn.state == Error ==> m.timer == Ticking
    ensures OrderOk(s, m, rest)
  {
    hide Gather;
    StacksNeedTokens(s.threads, rest);
  }

  lemma OrderWhenSettled(s: Sys, m: Actor, rest: seq<Cmd>)
    requires m.conn.state != Validating
    requires m.conn.state == Error ==> m.timer == Ticking
    ensures OrderOk(s, m, rest)
  {
  }

  /** A command that changes neither state nor timer, and is not itself what they wait for. */
  lemma OrderTail(s: Sys, m: Actor)
    requires s.q != [] && ProgressOk(s) && TimerOk(s)
    requires m.conn.state == s.m.conn.state && m.opGen == s.m.opGen
    requires m.conn.state == Error ==> m.timer == s.m.timer
    requires s.q[0] != ConnectProgress(s.m.opGen, Connecting) && s.q[0] != AutoRevert
    ensures OrderOk(s, m, s.q[1..])
  {
    hide Gather;
    var note, rest := ConnectProgress(s.m.opGen, Connecting), s.q[1..];
    assert s.q == [s.q[0]] + rest;
    if s.m.conn.state == Validating {
      forall j | 0 <= j < |rest| && rest[j].ConnectDone? && rest[j].result.err.None? ensures note in rest[..j] {
        assert s.q[j + 1] == rest[j];
        assert s.q[..j + 1] == [s.q[0]] + rest[..j];
      }
    }
  }

  lemma TakeUserCore(s: Sys)
    requires Inv(s) && Idle(s) && s.q != []
    requires s.q[0].Connect? || s.q[0].Disconnect? || s.q[0].Switch?
    ensures CoreOk(s.m.conn, Beside(s, s.q[1..]), Open(s.kids), TakeCommand(s.m, s.q[0]))
    ensures var ar := Beside(s, s.q[1..]); AroundOk(s.m, ar, Open(s.kids)) && (ar.tt + ar.tq == [] ==> ar == QUIET)
  {
    hide Gather;
    var c, m, ar := s.q[0], CancelTimer(s.m), Beside(s, s.q[1..]);
    PlainHead(s);
    match c {
      case Connect(id, ch) =>
        if m.conn.state == Disconnected || m.conn.state == Error {
          ConnectCore(m, id, Some(ch));
        } else {
          SumReply(Some(ch), AlreadyConnected);
          SilentCore(m, ar, Open(s.kids), TakeCommand(s.m, c));
        }
      case Disconnect(ch) => DisconnectCore(m, Some(ch), ar, Open(s.kids), ZERO_ULID);
      case Switch(id, ch) => SwitchCore(m, id, Some(ch), ar, Open(s.kids));
    }
  }

  /** A user command either leaves the state alone or moves to one of three. */
  lemma UserMoves(m: Actor, c: Cmd)
    requires FieldsOk(m)
    requires c.Connect? || c.Disconnect? || c.Switch?
    ensures var m' := TakeCommand(m, c).m;
      || (m'.conn.state == m.conn.state != Error && m'.opGen == m.opGen)
      || (m'.conn.state == Validating && (m.conn.state == Disconnected || m.conn.state == Error))
      || m'.conn.state == Disconnecting || m'.conn.state == Disconnected
  {
  }

  lemma TakeUserOk(s: Sys)
    requires Inv(s) && Idle(s) && s.q != []
    requires s.q[0].Connect? || s.q[0].Disconnect? || s.q[0].Switch?
    ensures OutOk(s, TakeCommand(s.m, s.q[0]), s.q[1..])
  {
    hide Gather;
    TakeUserCore(s);
    UserMoves(s.m, s.q[0]);
    var m', rest := TakeCommand(s.m, s.q[0]).m, s.q[1..];
    if m'.conn.state == Disconnecting || m'.conn.state == Disconnected {
      OrderWhenSettled(s, m', rest);
    } else if m'.conn.state == s.m.conn.state {
      OrderTail(s, m');
    } else {
      OrderWhenQuiet(s, m', rest);
    }
  }

  lemma TakeGetStatusOk(s: Sys)
    requires Inv(s) && Idle(s) && s.q != [] && s.q[0].GetStatus?
    ensures OutOk(s, TakeCommand(s.m, s.q[0]), s.q[1..])
  {
    hide Gather;
    PlainHead(s);
    SumReply(Some(s.q[0].ch), StatusIs(s.m.conn));
    SilentCore(s.m, Beside(s, s.q[1..]), Open(s.kids), TakeCommand(s.m, s.q[0]));
    OrderTail(s, s.m);
  }

  lemma ProgressOrder(s: Sys)
    requires s.q != [] && s.q[0].ConnectProgress? && ProgressOk(s) && TimerOk(s)
    ensures OrderOk(s, TakeCommand(s.m, s.q[0]).m, s.q[1..])
  {
    hide Gather;
    var m' := TakeCommand(s.m, s.q[0]).m;
    if m' == s.m && s.q[0] != ConnectProgress(s.m.opGen, Connecting) {
      OrderTail(s, m');
    } else {
      OrderProgressHead(s, m');
    }
  }

  lemma FieldsHold(s: Sys)
    requires Inv(s)
    ensures FieldsOk(s.m)
  {
    hide FieldsOk;
  }

  lemma TakeProgressCore(s: Sys)
    requires Inv(s) && Idle(s) && s.q != [] && s.q[0].ConnectProgress?
    ensures CoreOk(s.m.conn, Beside(s, s.q[1..]), Open(s.kids), TakeCommand(s.m, s.q[0]))
  {
    hide Gather;
    hide Inv;
    PlainHead(s);
    FieldsHold(s);
    hide CoreOk;
    hide AroundOk;
    hide FieldsOk;
    ProgressCore(s.m, s.q[0].gen, s.q[0].newState, Beside(s, s.q[1..]), Open(s.kids));
  }

  lemma TakeProgressOk(s: Sys)
    requires Inv(s) && Idle(s) && s.q != [] && s.q[0].ConnectProgress?
    ensures OutOk(s, TakeCommand(s.m, s.q[0]), s.q[1..])
  {
    hide Gather;
    TakeProgressCore(s);
    ProgressOrder(s);
  }

  lemma TakeAutoRevertOk(s: Sys)
    requires Inv(s) && Idle(s) && s.q != [] && s.q[0] == AutoRevert
    ensures OutOk(s, TakeCommand(s.m, s.q[0]), s.q[1..])
  {
    hide Gather;
    PlainHead(s);
    AutoRevertCore(CancelTimer(s.m), Beside(s, s.q[1..]), Open(s.kids));
    OrderRevertHead(s, TakeCommand(s.m, s.q[0]).m);
  }

  /** Taking the current announcement leaves Validating, so nothing is owed afterwards. */
  lemma OrderProgressHead(s: Sys, m: Actor)
    requires s.q != [] && s.q[0].ConnectProgress? && TimerOk(s)
    requires m.conn.state != Validating && m.timer == s.m.timer
    requires m.conn.state == Error ==> s.m.conn.state == Error
    ensures OrderOk(s, m, s.q[1..])
  {
    hide Gather;
    assert s.q == [s.q[0]] + s.q[1..];
  }

  lemma OrderRevertHead(s: Sys, m: Actor)
    requires s.q != [] && s.q[0] == AutoRevert && ProgressOk(s)
    requires m.conn.state == Validating ==> s.m.conn.state == Validating && m.opGen == s.m.opGen
    requires m.conn.state != Error
    ensures OrderOk(s, m, s.q[1..])
  {
    hide Gather;
    if m.conn.state == Validating {
      var note, rest := ConnectProgress(s.m.opGen, Connecting), s.q[1..];
      assert s.q == [s.q[0]] + rest;
      forall j | 0 <= j < |rest| && rest[j].ConnectDone? && rest[j].result.err.None? ensures note in rest[..j] {
        assert s.q[j + 1] == rest[j];
        assert s.q[..j + 1] == [s.q[0]] + rest[..j];
      }
    }
  }

  lemma ConnectDoneHead(s: Sys)
    requires Inv(s) && s.q != [] && s.q[0].ConnectDone?
    ensures CmdOk(s.q[0])
    ensures s.m.conn.state == Validating ==> s.q[0].result.err.Some?
  {
    hide Gather;
    hide Core;
    assert s.q[0] in s.q && s.q[..0] == [];
  }

  lemma TakeConnectDoneOk(s: Sys)
    requires Inv(s) && Idle(s) && s.q != [] && s.q[0].ConnectDone?
    ensures CmdOk(s.q[0])
    ensures OutOk(s, TakeCommand(s.m, s.q[0]), s.q[1..])
  {
    hide Gather;
    hide LegalTrace;
    var c := s.q[0];
    ConnectDoneHead(s);
    TokenHead(s);
    assert FieldsOk(s.m);
    hide Inv;
    hide FieldsOk;
    ConnectDoneCore(s.m, c.gen, c.result);
    DoneTicks(s.m, c.gen, c.result);
    hide HandleConnectDone;
    hide CoreOk;
    OrderWhenQuiet(s, TakeCommand(s.m, c).m, s.q[1..]);
  }

  /** A report that leaves the actor in Error has started the revert timer. */
  lemma DoneTicks(m: Actor, gen: nat, result: ConnectResult)
    requires result.WellFormed() && TokensOk(m, [ConnTok(gen, result.id)])
    ensures var o := HandleConnectDone(m, gen, result); o.m.conn.state == Error ==> o.m.timer == Ticking
  {
  }

  lemma TakeDisconnectDoneOk(s: Sys)
    requires Inv(s) && Idle(s) && s.q != [] && s.q[0].DisconnectDone?
    ensures OutOk(s, TakeCommand(s.m, s.q[0]), s.q[1..])
  {
    hide Gather;
    TokenHead(s);
    DisconnectDoneCore(s.m, s.q[0].gen);
    OrderWhenQuiet(s, TakeCommand(s.m, s.q[0]).m, s.q[1..]);
  }

  predicate NoStops(fx: seq<Effect>) {
    forall j :: 0 <= j < |fx| ==> !fx[j].StopChild?
  }

  lemma ConnectNoStops(m: Actor, id: Ulid, to: Option<ChanId>)
    ensures NoStops(HandleConnect(m, id, to).fx)
  {
  }

  lemma DisconnectNoStops(m: Actor, to: Option<ChanId>)
    ensures NoStops(HandleDisconnect(m, to).fx)
  {
  }

  lemma SwitchNoStops(m: Actor, id: Ulid, to: Option<ChanId>)
    ensures NoStops(HandleSwitch(m, id, to).fx)
  {
    hide HandleConnect;
    hide HandleDisconnect;
    ConnectNoStops(m, id, to);
    DisconnectNoStops(m, None);
  }

  lemma TeardownNoStops(m: Actor)
    ensures NoStops(FinishTeardown(m).fx)
  {
    hide HandleConnect;
    var m1 := m.(child := None, childExitCC := None, activeId := ZERO_ULID, conn := IDLE);
    ConnectNoStops(m1.(pendingSwitch := ZERO_ULID), m.pendingSwitch, None);
  }

  lemma DoneStopsFirst(m: Actor, gen: nat, result: ConnectResult)
    requires result.WellFormed()
    ensures StopFirst(HandleConnectDone(m, gen, result).fx)
  {
    hide FinishTeardown;
    TeardownNoStops(m);
  }

  /** Handlers other than shutdown stop a child first or not at all. */
  lemma HandlersStopFirst(m: Actor, c: Cmd)
    requires CmdOk(c) && !c.Shutdown?
    ensures StopFirst(TakeCommand(m, c).fx) && StopFirst(TakeChildExit(m).fx)
  {
    hide HandleConnect;
    hide HandleDisconnect;
    hide HandleSwitch;
    hide HandleConnectDone;
    hide FinishTeardown;
    var m1 := CancelTimer(m);
    match c {
      case Connect(id, ch) => ConnectNoStops(m1, id, Some(ch));
      case Disconnect(ch) => DisconnectNoStops(m1, Some(ch));
      case Switch(id, ch) => SwitchNoStops(m1, id, Some(ch));
      case ConnectDone(gen, result) => DoneStopsFirst(m, gen, result);
      case DisconnectDone(_) => TeardownNoStops(m);
      case _ =>
    }
  }

  lemma TakeKeeps(s: Sys)
    requires Inv(s) && Enabled(s, Take) && !s.q[0].Shutdown?
    ensures Inv(Next(s, Take))
  {
    hide Gather;
    hide OutOk;
    var c := s.q[0];
    assert c in s.q;
    match c {
      case Connect(_, _) => TakeUserOk(s);
      case Disconnect(_) => TakeUserOk(s);
      case Switch(_, _) => TakeUserOk(s);
      case GetStatus(_) => TakeGetStatusOk(s);
      case ConnectProgress(_, _) => TakeProgressOk(s);
      case ConnectDone(_, _) => TakeConnectDoneOk(s);
      case DisconnectDone(_) => TakeDisconnectDoneOk(s);
      case AutoRevert => TakeAutoRevertOk(s);
    }
    HandlersStopFirst(s.m, c);
    DispatchKeeps(s, TakeCommand(s.m, c), s.q[1..], Next(s, Take));
  }

  /** Between two commands, the actor's fields agree with everything beside it. */
  lemma IdleAround(s: Sys)
    requires Inv(s) && Idle(s)
    ensures AroundOk(s.m, Beside(s, s.q), Open(s.kids))
    ensures var ar := Beside(s, s.q); ar.tt + ar.tq == [] ==> ar == QUIET
  {
    hide Gather;
    QuietOwners(s);
    IdleGathers(s);
    var ar := Beside(s, s.q);
    assert ar.st + ar.sq + [] == ar.st + ar.sq;
    assert Tokens(s) == ar.tt + ar.tq;
  }

  lemma TakeExitOk(s: Sys)
    requires Inv(s) && Idle(s) && s.m.childExitCC.Some?
    ensures OutOk(s, TakeChildExit(s.m), s.q)
  {
    hide Gather;
    hide Inv;
    IdleAround(s);
    FieldsHold(s);
    hide FieldsOk;
    hide AroundOk;
    hide CoreOk;
    ChildExitCore(s.m, Beside(s, s.q), Open(s.kids));
    OrderWhenSettled(s, TakeChildExit(s.m).m, s.q);
  }

  lemma TakeExitKeeps(s: Sys)
    requires Inv(s) && Enabled(s, TakeExit)
    ensures Inv(Next(s, TakeExit))
  {
    hide Gather;
    hide Inv;
    hide OutOk;
    TakeExitOk(s);
    HandlersStopFirst(s.m, ChildExit);
    DispatchKeeps(s, TakeChildExit(s.m), s.q, Next(s, TakeExit));
  }
}
