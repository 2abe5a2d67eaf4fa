/** Safety of every run of the daemon, up to the moment shutdown takes effect. */
module TunnelTheorems {
  import opened Base
  import opened Tunnel
  import opened Handlers
  import opened WorkerSteps
  import opened TunnelSystem
  import opened TunnelInvariant
  import opened HandlerEffects
  import opened GoroutineSteps
  import opened InvariantSteps

  /** Shutdown is irrevocable: a state before it has only states before it behind it. */
  lemma UpBefore(s: Sys, l: Label)
    requires Enabled(s, l) && Up(Next(s, l))
    ensures Up(s)
  {
  }

  lemma {:induction false} RunKeeps(states: seq<Sys>, labels: seq<Label>)
    requires IsRun(states, labels) && Inv(states[0]) && Up(Last(states))
    ensures forall i :: 0 <= i < |states| ==> Up(states[i]) && Inv(states[i])
    decreases |labels|
  {
    hide Inv;
    hide Next;
    hide Enabled;
    if labels == [] {
    } else {
      var n := |labels| - 1;
      var before := states[..n + 1];
      UpBefore(states[n], labels[n]);
      assert IsRun(before, labels[..n]);
      RunKeeps(before, labels[..n]);
      assert before[n] == states[n];
      StepKeeps(states[n], labels[n]);
    }
  }

  /** Every state of every run from the start of the daemon satisfies the invariant until shutdown. */
  lemma Reachable(states: seq<Sys>, labels: seq<Label>)
    requires IsDaemonRun(states, labels) && Up(Last(states))
    ensures forall i :: 0 <= i < |states| ==> Up(states[i]) && Inv(states[i])
    ensures Inv(Last(states))
  {
    InitOk();
    RunKeeps(states, labels);
  }

  // ---------- ownership and mutual exclusion ----------

  lemma OneOwner(kids: seq<Kid>, c: ChildId)
    requires KidsOk(kids) && c < |kids|
    ensures kids[c].stops <= 1 && Times(Open(kids), c) == 1 - kids[c].stops
  {
    if c < |kids| - 1 {
      assert kids[c].stops == 1;
    }
  }

  /** Every spawned child is stopped at most once and has exactly one owner until then, none after. */
  lemma LinearOwnership(states: seq<Sys>, labels: seq<Label>, c: ChildId)
    requires IsDaemonRun(states, labels) && Up(Last(states))
    requires c < |Last(states).kids|
    ensures Last(states).kids[c].stops <= 1
    ensures Times(Owned(Last(states)), c) == 1 - Last(states).kids[c].stops
  {
    hide Owned;
    hide Next;
    hide Enabled;
    Reachable(states, labels);
    var s := Last(states);
    assert Core(ViewOf(s));
    OneOwner(s.kids, c);
  }

  lemma {:induction false} AlternatingAt(kids: seq<Kid>)
    requires KidsOk(kids)
    ensures |Alternating(kids)| == 2 * |kids| - |Open(kids)|
    ensures forall k :: 0 <= k < |Alternating(kids)| ==>
              Alternating(kids)[k] == if k % 2 == 0 then Spawned(k / 2) else Stopped(k / 2)
  {
    if kids == [] {
    } else {
      var init := kids[..|kids| - 1];
      AlternatingAt(init);
      assert init != [] ==> Last(init) == kids[|kids| - 2];
      assert Open(init) == [];
    }
  }

  /** Spawns and stops alternate over a whole run, child by child, and at most one child is unstopped. */
  lemma MutualExclusion(states: seq<Sys>, labels: seq<Label>)
    requires IsDaemonRun(states, labels) && Up(Last(states))
    ensures var s, life := Last(states), Gather(Last(states).log, EventLife);
      && (forall k :: 0 <= k < |life| ==> life[k] == if k % 2 == 0 then Spawned(k / 2) else Stopped(k / 2))
      && (forall c, d :: 0 <= c < |s.kids| && 0 <= d < |s.kids| && s.kids[c].stops == 0 && s.kids[d].stops == 0 ==>
            c == d)
  {
    Reachable(states, labels);
    var s := Last(states);
    assert KidsOk(s.kids) && Gather(s.log, EventLife) == Alternating(s.kids);
    AlternatingAt(s.kids);
  }

  /** At the moment a worker forks its child, every earlier child's stop has returned. */
  lemma SpawnFindsAllStopped(s: Sys, i: nat, dead: bool)
    requires Inv(s) && Enabled(s, WorkerStep(i, Pass, dead)) && s.threads[i].pc.Fork?
    ensures forall c :: 0 <= c < |s.kids| ==> s.kids[c].stops == 1
  {
    hide Gather;
    ForkKeeps(s, i, s.threads[i].(pc := AwaitAlive(|s.kids|)));
    AllStopped(s.kids) by {
      assert KidsOk(s.kids);
    }
  }

  lemma AllStopped(kids: seq<Kid>)
    requires KidsOk(kids) && Open(kids) == []
    ensures forall c :: 0 <= c < |kids| ==> kids[c].stops == 1
  {
  }

  // ---------- tokens ----------

  /** The posted state says exactly which operation, if any, is outstanding. */
  lemma TokenDiscipline(states: seq<Sys>, labels: seq<Label>)
    requires IsDaemonRun(states, labels) && Up(Last(states))
    ensures var s, toks := Last(states), Tokens(Last(states));
      && (s.m.conn.state in {Validating, Connecting} <==>
            s.m.conn.configId.Some? && toks == [ConnTok(s.m.opGen, s.m.conn.configId.value)])
      && (s.m.conn.state == Disconnecting <==>
            |toks| == 1 && (toks[0] == TearTok(s.m.opGen) || (toks[0].ConnTok? && toks[0].gen + 1 == s.m.opGen)))
      && (s.m.conn.state in {Disconnected, Connected, Error} <==> toks == [])
  {
    Reachable(states, labels);
    var s := Last(states);
    assert TokensOk(s.m, Tokens(s)) && FieldsOk(s.m);
  }

  // ---------- the posted trace ----------

  /** A legal trace from idle: how Connected is reached and left, and where a pid appears. */
  lemma TraceShape(t: seq<ConnStatus>, i: nat)
    requires t != [] && t[0] == IDLE && LegalTrace(t)
    requires i < |t|
    ensures t[i].xrayPid.Some? <==> t[i].state == Connected
    ensures t[i].state == Connected ==>
      && i >= 2 && t[i - 1].state == Connecting && t[i - 2].state == Validating
      && t[i - 1].configId == t[i].configId && t[i - 2].configId == t[i].configId
  {
    if i > 0 {
      assert LegalStep(t[i - 1], t[i]);
      if i > 1 {
        assert LegalStep(t[i - 2], t[i - 1]);
      }
    }
  }

  lemma {:induction false} AfterConnected(t: seq<ConnStatus>, i: nat, j: nat)
    requires LegalTrace(t) && i < j < |t| && t[i].state == Connected
    requires forall k :: i < k < j ==> t[k].state != Disconnected && t[k].state != Error
    ensures t[j].state in {Disconnecting, Disconnected, Error}
    decreases j
  {
    if j == i + 1 {
      assert LegalStep(t[i], t[j]);
    } else {
      AfterConnected(t, i, j - 1);
      assert LegalStep(t[j - 1], t[j]);
    }
  }

  /** Two Connected posts have a Disconnected or an Error between them. */
  lemma ConnectedSeparated(t: seq<ConnStatus>, i: nat, j: nat)
    requires LegalTrace(t) && i < j < |t| && t[i].state == Connected && t[j].state == Connected
    ensures exists k :: i < k < j && t[k].state in {Disconnected, Error}
  {
    if forall k :: i < k < j ==> t[k].state !in {Disconnected, Error} {
      AfterConnected(t, i, j);
    }
  }

  /** What the daemon posts is always a legal trace that ends in the actor's current state. */
  lemma PostedTrace(states: seq<Sys>, labels: seq<Label>)
    requires IsDaemonRun(states, labels) && Up(Last(states))
    ensures var t := Trace(Last(states));
            LegalTrace(t) && t[0] == IDLE && Last(t) == Last(states).m.conn
  {
    hide Next;
    hide Enabled;
    Reachable(states, labels);
    assert Core(ViewOf(Last(states)));
  }

  /** Every Connected post follows Connecting and Validating for the same config. */
  lemma ConnectedIsEarned(states: seq<Sys>, labels: seq<Label>, i: nat)
    requires IsDaemonRun(states, labels) && Up(Last(states))
    requires i < |Trace(Last(states))|
    ensures var t := Trace(Last(states));
      && (t[i].xrayPid.Some? <==> t[i].state == Connected)
      && (t[i].state == Connected ==>
            && i >= 2 && t[i - 1].state == Connecting && t[i - 2].state == Validating
            && t[i - 1].configId == t[i].configId && t[i - 2].configId == t[i].configId)
  {
    hide Next;
    hide Enabled;
    hide LegalTrace;
    PostedTrace(states, labels);
    TraceShape(Trace(Last(states)), i);
  }

  /** A tunnel is never posted up twice without being posted down, or failed, in between. */
  lemma ReconnectPassesDown(states: seq<Sys>, labels: seq<Label>, i: nat, j: nat)
    requires IsDaemonRun(states, labels) && Up(Last(states))
    requires i < j < |Trace(Last(states))|
    requires Trace(Last(states))[i].state == Connected && Trace(Last(states))[j].state == Connected
    ensures exists k :: i < k < j && Trace(Last(states))[k].state in {Disconnected, Error}
  {
    hide Next;
    hide Enabled;
    hide LegalTrace;
    PostedTrace(states, labels);
    ConnectedSeparated(Trace(Last(states)), i, j);
  }

  // ---------- fields and the way out of Error ----------

  /** How the actor's fields hang together in every reachable state. */
  lemma FieldConsistency(states: seq<Sys>, labels: seq<Label>)
    requires IsDaemonRun(states, labels) && Up(Last(states))
    ensures var m := Last(states).m;
      && (m.conn.state == Connected <==> m.armed.Some?)
      && (m.conn.state == Connected ==> m.child.Some? && m.child == m.armed && m.conn.configId == Some(m.activeId))
      && m.child == m.childExitCC
      && (m.pendingSwitch != ZERO_ULID ==> m.conn.state == Disconnecting)
      && (m.cancelConnect.Some? <==> m.conn.state in {Validating, Connecting})
  {
    Reachable(states, labels);
    assert FieldsOk(Last(states).m);
  }

  /** Error always has an exit: a running timer, or its command on the way. */
  lemma ErrorHasExit(states: seq<Sys>, labels: seq<Label>)
    requires IsDaemonRun(states, labels) && Up(Last(states))
    ensures var s := Last(states);
      && (s.m.conn.state == Error ==> s.m.timer == Ticking || Revert in s.threads || AutoRevert in s.q)
      && (s.m.conn.state != Error ==> s.m.timer == Off)
  {
    Reachable(states, labels);
    assert FieldsOk(Last(states).m) && TimerOk(Last(states));
  }

  /** Only a user command, the revert command or shutdown moves the actor out of Error or touches its timer. */
  lemma ErrorIsHeld(s: Sys)
    requires Inv(s) && Enabled(s, Take) && s.m.conn.state == Error
    requires !(s.q[0].Connect? || s.q[0].Disconnect? || s.q[0].Switch? || s.q[0].AutoRevert? || s.q[0].Shutdown?)
    ensures Next(s, Take).m == s.m
  {
    hide Gather;
    assert TokensOk(s.m, Tokens(s));
    QuietOwners(s);
    assert s.q[0] in s.q && !s.q[0].ChildExit?;
    ErrorIgnores(s.m, s.q[0]);
  }

  lemma ErrorIgnores(m: Actor, c: Cmd)
    requires m.conn.state == Error && (c.GetStatus? || c.ConnectProgress?)
    ensures TakeCommand(m, c).m == m
  {
  }

  /** A revert command that arrives after Error was left changes nothing but a stopped timer. */
  lemma LateRevertIsInert(m: Actor)
    requires FieldsOk(m)
    ensures m.conn.state != Error ==> TakeCommand(m, AutoRevert) == Out(m, [])
    ensures m.conn.state == Error ==>
      TakeCommand(m, AutoRevert) == Out(m.(conn := IDLE, timer := Off), [Post(IDLE)])
  {
  }
}
