/**
 * The revert command carries no generation, so one from an earlier Error can end a later one. Exactly when it
 * does so before the later Error's own timer has fired.
 */
module TunnelRevert {
  import opened Base
  import opened Tunnel
  import opened Handlers
  import opened WorkerSteps
  import opened TunnelSystem
  import opened TunnelInvariant
  import opened HandlerEffects
  import opened EffectSteps
  import opened InvariantSteps
  import opened TunnelTheorems
  import opened TunnelCancel
  import opened TunnelShutdown
  import opened TunnelLone
  import opened TunnelBefore
  import opened TunnelShutdownRace

  /** Taken in Error, the command ends it or stops its timer. */
  predicate Leaves(c: Cmd) {
    c.Connect? || c.Disconnect? || c.Switch? || c.AutoRevert? || c.Shutdown?
  }

  /** The first of these in the queue is a revert. */
  predicate RevertNext(q: seq<Cmd>)
    decreases q
  {
    q != [] && if Leaves(q[0]) then q[0] == AutoRevert else RevertNext(q[1..])
  }

  predicate Clear(q: seq<Cmd>) {
    forall c :: c in q ==> !Leaves(c)
  }

  /** A revert from before is on its way, and nothing is ahead of it. */
  predicate Overdue(s: Sys) {
    RevertNext(s.q) || (Clear(s.q) && Revert in s.threads)
  }

  // ---------- runs within one Error, its timer ticking ----------

  ghost predicate Within(s: Sys, s1: Sys) {
    exists states: seq<Sys>, labels: seq<Label> ::
      && IsRun(states, labels) && states[0] == s && Last(states) == s1
      && forall i :: 0 <= i < |states| ==> states[i].m == s.m
  }

  /** A continuation delivers a revert to this very Error while its own timer is still ticking. */
  ghost predicate EndedEarly(s: Sys) {
    exists s1 :: Within(s, s1) && Enabled(s1, Take) && s1.q[0] == AutoRevert
  }

  lemma WithinSelf(s: Sys)
    ensures Within(s, s)
  {
    var states, labels: seq<Label> := [s], [];
    assert IsRun(states, labels) && Last(states) == s;
  }

  lemma WithinOn(s: Sys, s1: Sys, l: Label)
    requires Within(s, s1) && Enabled(s1, l) && Next(s1, l).m == s.m
    ensures Within(s, Next(s1, l))
  {
    hide Next;
    hide Enabled;
    var states: seq<Sys>, labels: seq<Label> :|
      && IsRun(states, labels) && states[0] == s && Last(states) == s1
      && forall i :: 0 <= i < |states| ==> states[i].m == s.m;
    var more, steps := states + [Next(s1, l)], labels + [l];
    assert IsRun(more, steps) && more[0] == s && Last(more) == Next(s1, l);
  }

  // ---------- without an overdue revert ----------

  lemma {:induction false} RevertAppend(q: seq<Cmd>, c: Cmd)
    ensures RevertNext(q + [c]) <==> RevertNext(q) || (Clear(q) && c == AutoRevert)
    decreases q
  {
    if q == [] {
      assert [c][1..] == [];
    } else {
      assert (q + [c])[1..] == q[1..] + [c];
      RevertAppend(q[1..], c);
      assert Clear(q) <==> !Leaves(q[0]) && Clear(q[1..]) by {
        assert q == [q[0]] + q[1..];
      }
    }
  }

  lemma RevertTail(q: seq<Cmd>)
    requires q != [] && !Leaves(q[0])
    ensures (RevertNext(q[1..]) <==> RevertNext(q)) && (Clear(q[1..]) <==> Clear(q))
  {
    assert q == [q[0]] + q[1..];
  }

  /** Taking one of them touches the timer. */
  lemma LeavingShows(m: Actor, c: Cmd)
    requires m.conn.state == Error && m.timer == Ticking && Leaves(c)
    ensures TakeCommand(m, c).m != m
  {
  }

  /** What a step other than taking or draining puts into the queue: a revert only if its goroutine posts it. */
  function Queued(s: Sys, l: Label): seq<Cmd>
    requires Enabled(s, l)
  {
    match l
    case Call(r) => [RequestCmd(r, s.nextCh)]
    case CallShutdown => [Shutdown]
    case WorkerStep(i, o, _) =>
      if s.threads[i].pc.Announce? && o.Pass? then [ConnectProgress(s.threads[i].gen, Connecting)] else []
    case PostBack(i, drop) => if drop then [] else [PostBackCmd(s.threads[i]).value]
    case _ => []
  }

  lemma QueueMoves(s: Sys, l: Label)
    requires Enabled(s, l) && !l.Take? && !l.DrainOne?
    ensures Next(s, l).q == s.q + Queued(s, l)
  {
    hide TakeChildExit;
    hide WorkerNext;
    hide Allowed;
    hide Moved;
    hide Without;
    if l.Exec? {
      ExecFlags(s, l.dead);
    }
    hide ExecOne;
  }

  lemma QueuedRevert(s: Sys, l: Label)
    requires Enabled(s, l) && AutoRevert in Queued(s, l)
    ensures Revert in s.threads
  {
    assert l.PostBack? && s.threads[l.i] in s.threads;
  }

  lemma ExecReverts(s: Sys, dead: bool)
    requires Enabled(s, Exec(dead))
    ensures Revert in ExecOne(s, dead).threads ==> Revert in s.threads
  {
    var ts := ExecOne(s, dead).threads;
    if Revert in ts {
      var i :| 0 <= i < |ts| && ts[i] == Revert;
      assert i < |s.threads| && s.threads[i] == Revert;
    }
  }

  lemma RevertsMove(s: Sys, l: Label)
    requires Enabled(s, l) && !l.TimerFires?
    ensures Revert in Next(s, l).threads ==> Revert in s.threads
  {
    hide TakeCommand;
    hide TakeChildExit;
    hide DrainCommand;
    hide WorkerNext;
    hide Allowed;
    hide AtPost;
    if l.Exec? {
      ExecReverts(s, l.dead);
      hide ExecOne;
    } else if !l.WorkerStep? && !l.TeardownStop? && !l.PostBack? {
      hide Without;
    }
  }

  lemma NotOverdue(s: Sys, l: Label)
    requires s.m.conn.state == Error && s.m.timer == Ticking && s.mode == Running && !Overdue(s)
    requires Enabled(s, l) && Next(s, l).m == s.m
    ensures !Overdue(Next(s, l))
  {
    var s' := Next(s, l);
    if l.Take? {
      if Leaves(s.q[0]) {
        LeavingShows(s.m, s.q[0]);
      }
      RevertTail(s.q);
      RevertsMove(s, l);
    } else {
      assert !l.DrainOne?;
      QueueMoves(s, l);
      RevertsMove(s, l);
      hide Next;
      var more := Queued(s, l);
      if more == [] {
        assert s'.q == s.q;
      } else {
        var c := more[0];
        assert more == [c] && c in more;
        if c == AutoRevert {
          QueuedRevert(s, l);
        }
        hide Queued;
        hide Enabled;
        RevertAppend(s.q, c);
        assert Clear(s'.q) ==> Clear(s.q);
      }
    }
  }

  lemma {:induction false} NeverOverdue(states: seq<Sys>, labels: seq<Label>)
    requires IsRun(states, labels) && states[0].m.conn.state == Error && states[0].m.timer == Ticking
    requires (forall i :: 0 <= i < |states| ==> states[i].m == states[0].m) && Last(states).mode == Running
    requires !Overdue(states[0])
    ensures !Overdue(Last(states))
    decreases |labels|
  {
    hide Next;
    hide Enabled;
    hide Overdue;
    if labels == [] {
    } else {
      var n := |labels| - 1;
      var before := states[..n + 1];
      assert IsRun(before, labels[..n]) && before[n] == states[n];
      StepForward(states[n], labels[n]);
      NeverOverdue(before, labels[..n]);
      NotOverdue(states[n], labels[n]);
    }
  }

  lemma EarlyIsOverdue(s: Sys)
    requires s.m.conn.state == Error && s.m.timer == Ticking && EndedEarly(s)
    ensures Overdue(s)
  {
    hide Next;
    hide Overdue;
    var s1 :| Within(s, s1) && Enabled(s1, Take) && s1.q[0] == AutoRevert;
    var states: seq<Sys>, labels: seq<Label> :|
      && IsRun(states, labels) && states[0] == s && Last(states) == s1
      && forall i :: 0 <= i < |states| ==> states[i].m == s.m;
    assert s1.mode == Running;
    hide Enabled;
    assert Overdue(s1) by { HeadIsOverdue(s1); }
    if !Overdue(s) {
      NeverOverdue(states, labels);
    }
  }

  lemma HeadIsOverdue(s: Sys)
    requires s.q != [] && s.q[0] == AutoRevert
    ensures Overdue(s)
  {
  }

  // ---------- with one ----------

  /** In Error nobody reports, so a command that does not end it is one that changes nothing. */
  lemma HeadIgnored(s: Sys)
    requires Inv(s) && Up(s) && Idle(s) && s.m.conn.state == Error && s.q != [] && !Leaves(s.q[0])
    ensures Enabled(s, Take)
    ensures var t := Next(s, Take);
      && t.m == s.m && t.q == s.q[1..] && t.threads == s.threads && Light(t.todo) && |t.todo| <= 1 && Up(t) && Inv(t)
  {
    hide Gather;
    QuietOwners(s);
    assert TokensOk(s.m, Tokens(s));
    assert s.q[0] in s.q;
    ErrorIgnores(s.m, s.q[0]);
    StepKeeps(s, Take);
    hide Inv;
  }

  /** The loop takes it and answers it. */
  lemma PassHead(s: Sys, s1: Sys) returns (s2: Sys)
    requires Within(s, s1) && s1.m == s.m && Inv(s1) && Up(s1) && Idle(s1) && s.m.conn.state == Error
    requires s1.q != [] && !Leaves(s1.q[0])
    ensures Within(s, s2) && s2.m == s.m && Inv(s2) && Up(s2) && Idle(s2)
    ensures s2.q == s1.q[1..] && (Revert in s1.threads ==> Revert in s2.threads)
  {
    hide Within;
    hide Inv;
    HeadIgnored(s1);
    var t := Next(s1, Take);
    WithinOn(s, s1, Take);
    s2 := t;
    if t.todo != [] {
      assert t.todo[0] in t.todo;
      s2 := ExecOne(t, true);
      assert Next(t, Exec(true)) == s2;
      WithinOn(s, t, Exec(true));
      StepKeeps(t, Exec(true));
      CancelSame(t.threads, if t.todo[0].Cancel? then t.todo[0].gen else 0);
    }
  }

  lemma {:induction false} RevertArrives(s: Sys, s1: Sys)
    requires Within(s, s1) && s1.m == s.m && Inv(s1) && Up(s1) && Idle(s1) && s.m.conn.state == Error
    requires RevertNext(s1.q)
    ensures EndedEarly(s)
    decreases |s1.q|
  {
    hide Within;
    hide Inv;
    if Leaves(s1.q[0]) {
      assert Enabled(s1, Take);
    } else {
      var s2 := PassHead(s, s1);
      RevertTail(s1.q);
      RevertArrives(s, s2);
    }
  }

  lemma RevertPosts(s: Sys, s1: Sys)
    requires Within(s, s1) && s1.m == s.m && Inv(s1) && Up(s1) && Idle(s1) && s.m.conn.state == Error
    requires Clear(s1.q) && Revert in s1.threads && HasRoom(s1)
    ensures EndedEarly(s)
  {
    hide Within;
    hide Inv;
    var i :| 0 <= i < |s1.threads| && s1.threads[i] == Revert;
    var l := PostBack(i, false);
    var t := Next(s1, l);
    assert t.q == s1.q + [AutoRevert];
    WithinOn(s, s1, l);
    StepKeeps(s1, l);
    RevertAppend(s1.q, AutoRevert);
    RevertArrives(s, t);
  }

  lemma OverdueIsEarly(s: Sys)
    requires Inv(s) && Up(s) && Idle(s) && s.m.conn.state == Error && Overdue(s)
    ensures EndedEarly(s)
  {
    hide Within;
    hide Inv;
    hide EndedEarly;
    WithinSelf(s);
    if RevertNext(s.q) {
      RevertArrives(s, s);
    } else if HasRoom(s) {
      RevertPosts(s, s);
    } else {
      var t := s;
      while !HasRoom(t)
        invariant Within(s, t) && t.m == s.m && Inv(t) && Up(t) && Idle(t) && Clear(t.q) && Revert in t.threads
        decreases |t.q|
      {
        assert t.q[0] in t.q;
        RevertTail(t.q);
        t := PassHead(s, t);
      }
      RevertPosts(s, t);
    }
  }

  /**
   * Take any state of any daemon run, before shutdown, in which the actor is in Error with that Error's timer
   * ticking. Some continuation ends it by a revert before the timer fires if and only if a revert from before
   * is overdue: it is queued with nothing that leaves Error ahead of it, or its goroutine is about to post it
   * and nothing queued leaves Error.
   */
  lemma EndedEarlyIff(states: seq<Sys>, labels: seq<Label>)
    requires IsDaemonRun(states, labels) && Up(Last(states)) && Idle(Last(states))
    requires Last(states).m.conn.state == Error && Last(states).m.timer == Ticking
    ensures EndedEarly(Last(states)) <==> Overdue(Last(states))
  {
    hide Next;
    hide Enabled;
    hide Inv;
    hide EndedEarly;
    hide Overdue;
    Reachable(states, labels);
    if EndedEarly(Last(states)) {
      EarlyIsOverdue(Last(states));
    }
    if Overdue(Last(states)) {
      OverdueIsEarly(Last(states));
    }
  }

  // ---------- the timer field tells whose turn it is ----------

  /** Nothing but the timer itself makes it fired. */
  lemma FiredFrom(s: Sys, l: Label)
    requires Enabled(s, l) && Next(s, l).m.timer == Fired && !l.TimerFires?
    requires l == Take ==> CmdOk(s.q[0])
    ensures s.m.timer == Fired
  {
    if l.Take? {
      TakeNeverFires(s.m, s.q[0]);
    } else if l.TakeExit? || l.DrainOne? {
    } else if l.Exec? {
      ExecFields(s, l.dead);
    } else {
      ElsewhereFields(s, l);
    }
  }

  lemma TakeNeverFires(m: Actor, c: Cmd)
    requires CmdOk(c) && TakeCommand(m, c).m.timer == Fired
    ensures m.timer == Fired
  {
  }

  /**
   * Whenever the timer shows as fired, it has fired since the actor entered this Error: from that step on the
   * actor has been in Error without starting another timer.
   */
  lemma {:induction false} FiredInThisError(states: seq<Sys>, labels: seq<Label>) returns (k: nat)
    requires IsDaemonRun(states, labels) && Up(Last(states)) && Last(states).m.timer == Fired
    ensures k < |labels| && labels[k] == TimerFires
    ensures forall i :: k < i < |states| ==> states[i].m.conn.state == Error && states[i].m.timer == Fired
    decreases |labels|
  {
    hide Next;
    hide Inv;
    Reachable(states, labels);
    assert FieldsOk(Last(states).m) by { FieldsOfInv(Last(states)); }
    assert |labels| > 0;
    var n := |labels| - 1;
    if labels[n] == TimerFires {
      k := n;
    } else {
      var before := states[..n + 1];
      assert IsDaemonRun(before, labels[..n]) && Last(before) == states[n];
      FiredFrom(states[n], labels[n]);
      hide Enabled;
      k := FiredInThisError(before, labels[..n]);
      assert forall i :: k < i <= n ==> states[i] == before[i];
    }
  }

  lemma FieldsOfInv(s: Sys)
    requires Inv(s)
    ensures FieldsOk(s.m)
  {
    hide FieldsOk;
  }

  // ---------- a run in which it happens ----------

  const REFUSED := ConnectResult(7, None, None, Some(Fault("config_invalid")))
  const FAILED := Faulty("config_invalid")
  const FAILED_ACTOR := FRESH_ACTOR.(conn := FAILED, opGen := 1, timer := Ticking)

  /** A worker's step that neither announces, forks nor stops anything. */
  lemma WorkAt(states: seq<Sys>, labels: seq<Label>, i: nat, o: Outcome)
    returns (states': seq<Sys>, labels': seq<Label>)
    requires IsDaemonRun(states, labels) && Enabled(Last(states), WorkerStep(i, o, true)) && !Last(states).ctxDone
    requires var pc := Last(states).threads[i].pc; !pc.Announce? && !pc.Fork? && !pc.Unwind?
    ensures IsDaemonRun(states', labels') && states' != []
    ensures var s := Last(states); var t := s.threads[i];
      Last(states') == s.(threads := s.threads[i := t.(pc := WorkerNext(t.id, t.pc, o, |s.kids|))])
  {
    hide IsRun;
    states', labels' := Push(states, labels, WorkerStep(i, o, true));
  }

  /** A worker just started is refused its config. */
  lemma Refused(states: seq<Sys>, labels: seq<Label>, i: nat, gen: nat)
    returns (states': seq<Sys>, labels': seq<Label>)
    requires IsDaemonRun(states, labels) && Up(Last(states))
    requires i < |Last(states).threads| && Last(states).threads[i] == Worker(gen, 7, false, PreCheck)
    ensures IsDaemonRun(states', labels') && states' != []
    ensures var s := Last(states);
      Last(states') == s.(threads := s.threads[i := Worker(gen, 7, false, Deliver(REFUSED))])
  {
    hide IsRun;
    states', labels' := WorkAt(states, labels, i, Pass);
    states', labels' := WorkAt(states', labels', i, Pass);
    states', labels' := WorkAt(states', labels', i, Fail(Fault("config_invalid")));
  }

  /** It reports, and the failure is posted. */
  lemma Reported(states: seq<Sys>, labels: seq<Label>, i: nat) returns (states': seq<Sys>, labels': seq<Label>)
    requires IsDaemonRun(states, labels) && Up(Last(states)) && Last(states).q == [] && Last(states).todo == []
    requires var s := Last(states);
      i < |s.threads| && s.threads[i] == Worker(s.m.opGen, 7, false, Deliver(REFUSED))
    ensures IsDaemonRun(states', labels') && states' != []
    ensures var s := Last(states);
      Last(states') == s.(m := s.m.(conn := FAILED, cancelConnect := None, timer := Ticking),
                          threads := Without(s.threads, i), log := s.log + [Posted(FAILED)])
  {
    var s := Last(states);
    hide IsRun;
    states', labels' := Push(states, labels, PostBack(i, false));
    var t := s.(threads := Without(s.threads, i), q := [ConnectDone(s.m.opGen, REFUSED)]);
    assert Last(states') == t;
    FailureTaken(t);
    hide Without;
    hide Next;
    hide Enabled;
    states', labels' := Push(states', labels', Take);
    states', labels' := Push(states', labels', Exec(true));
  }

  lemma FailureTaken(s: Sys)
    requires Up(s) && s.todo == [] && s.q == [ConnectDone(s.m.opGen, REFUSED)]
    ensures Enabled(s, Take) && Enabled(Next(s, Take), Exec(true))
    ensures Next(Next(s, Take), Exec(true))
         == s.(m := s.m.(conn := FAILED, cancelConnect := None, timer := Ticking), q := [],
               log := s.log + [Posted(FAILED)])
  {
    assert Next(s, Take).todo == [Post(FAILED)];
  }

  /** The first Error's timer fires; its goroutine has not posted yet. */
  lemma FailFirst() returns (states: seq<Sys>, labels: seq<Label>)
    ensures IsDaemonRun(states, labels) && states != []
    ensures var s := Last(states);
      && Up(s) && s.q == [] && s.todo == [] && s.threads == [Revert] && s.nextCh == 1
      && s.m == FAILED_ACTOR.(timer := Fired)
  {
    hide IsRun;
    states, labels := Launch();
    states, labels := Refused(states, labels, 0, 1);
    states, labels := Reported(states, labels, 0);
    assert Last(states).m == FAILED_ACTOR && Last(states).threads == [];
    states, labels := Push(states, labels, TimerFires);
  }

  /** The user connects again. */
  lemma ConnectAgain() returns (states: seq<Sys>, labels: seq<Label>)
    ensures IsDaemonRun(states, labels) && states != []
    ensures var s := Last(states);
      && Up(s) && s.q == [] && s.todo == [] && s.threads == [Revert, Worker(2, 7, false, PreCheck)]
      && s.m == WAITING.(opGen := 2, cancelConnect := Some(2))
  {
    hide IsRun;
    states, labels := FailFirst();
    states, labels := Push(states, labels, Call(ReqConnect(7)));
    states, labels := Push(states, labels, Take);
    assert Last(states).todo == [Reply(1, Accepted), Post(Plain(Validating, Some(7))), Spawn(2, 7)];
    states, labels := Push(states, labels, Exec(true));
    states, labels := Push(states, labels, Exec(true));
    states, labels := Push(states, labels, Exec(true));
  }

  /** That attempt fails too: a second Error, its timer ticking, beside the first one's goroutine. */
  lemma FailAgain() returns (states: seq<Sys>, labels: seq<Label>)
    ensures IsDaemonRun(states, labels) && |states| == |labels| + 1
    ensures var s := Last(states);
      && Up(s) && s.q == [] && s.todo == [] && s.threads == [Revert] && s.m == FAILED_ACTOR.(opGen := 2)
  {
    states, labels := ConnectAgain();
    states, labels := Refused(states, labels, 1, 2);
    states, labels := Reported(states, labels, 1);
  }

  /** The first Error's revert ends the second Error. */
  lemma RevertCanBeEarly() returns (states: seq<Sys>, labels: seq<Label>)
    ensures IsDaemonRun(states, labels) && |labels| > 0 && |states| == |labels| + 1
    ensures var before, s := states[|labels| - 1], Last(states);
      && before.m.conn == FAILED && before.m.opGen == 2 && before.m.timer == Ticking
      && Last(labels) == Take && before.q == [AutoRevert] && s.m.conn == IDLE
  {
    states, labels := FailAgain();
    hide IsRun;
    states, labels := Push(states, labels, PostBack(0, false));
    assert Last(states).q == [AutoRevert];
    states, labels := Push(states, labels, Take);
  }
}
