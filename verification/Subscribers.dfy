/** Fan-out of posted states to clients, each with a queue of sixteen and no waiting. */
module StateSubscribers {
  import opened Base
  import opened Tunnel
  import opened TunnelSystem
  import opened TunnelInvariant
  import opened TunnelAnswers
  import opened TunnelTheorems

  const SUB_CAP := 16

  /** A non-blocking send into one client's queue. */
  function Offer(queue: seq<ConnStatus>, st: ConnStatus): seq<ConnStatus> {
    if |queue| < SUB_CAP then queue + [st] else queue
  }

  /** The fan-out as a value, and the calls it takes: from clients, and `Sends` from the actor. */
  datatype Subs = Subs(list: set<nat>, chans: map<nat, seq<ConnStatus>>, next: nat)

  datatype SubCall = Subscribes | Unsubscribes(id: nat) | Sends(st: ConnStatus) | Receives(id: nat)

  const EMPTY := Subs({}, map[], 0)

  function Does(s: Subs, c: SubCall): Subs {
    match c
    case Subscribes => Subs(s.list + {s.next + 1}, s.chans[s.next + 1 := []], s.next + 1)
    case Unsubscribes(id) => s.(list := s.list - {id})
    case Sends(st) =>
      s.(chans := map id | id in s.chans :: if id in s.list then Offer(s.chans[id], st) else s.chans[id])
    case Receives(id) =>
      if id in s.chans && s.chans[id] != [] then s.(chans := s.chans[id := s.chans[id][1..]]) else s
  }

  class Subscribers {
    var list: set<nat>
    var chans: map<nat, seq<ConnStatus>>
    var next: nat

    constructor ()
      ensures Valid() && Abs() == EMPTY
    {
      list, chans, next := {}, map[], 0;
    }

    ghost function Abs(): Subs
      reads this
    {
      Subs(list, chans, next)
    }

    ghost predicate Valid()
      reads this
    {
      && list <= chans.Keys
      && (forall id :: id in chans ==> id <= next && |chans[id]| <= SUB_CAP)
    }

    method Subscribe() returns (id: nat)
      requires Valid()
      modifies this
      ensures Valid() && id !in old(chans) && Abs() == Does(old(Abs()), Subscribes)
      ensures list == old(list) + {id} && chans == old(chans)[id := []]
    {
      next := next + 1;
      id := next;
      chans := chans[id := []];
      list := list + {id};
    }

    /** Idempotent; what is already queued stays readable. */
    method Unsubscribe(id: nat)
      requires Valid()
      modifies this
      ensures Valid() && list == old(list) - {id} && chans == old(chans) && Abs() == Does(old(Abs()), Unsubscribes(id))
    {
      list := list - {id};
    }

    /** The client takes the oldest state off its queue, if there is one. */
    method Receive(id: nat) returns (st: Option<ConnStatus>)
      requires Valid() && id in chans
      modifies this
      ensures Valid() && Abs() == Does(old(Abs()), Receives(id))
      ensures st == if old(chans)[id] == [] then None else Some(old(chans)[id][0])
    {
      if chans[id] == [] {
        return None;
      }
      st := Some(chans[id][0]);
      chans := chans[id := chans[id][1..]];
    }

    method Broadcast(st: ConnStatus)
      requires Valid()
      modifies this
      ensures Valid() && list == old(list) && chans.Keys == old(chans).Keys
      ensures forall id :: id in chans ==>
                chans[id] == if id in list then Offer(old(chans)[id], st) else old(chans)[id]
      ensures Abs() == Does(old(Abs()), Sends(st))
    {
      var targets := list;
      while targets != {}
        invariant targets <= list == old(list) && next == old(next) && chans.Keys == old(chans).Keys
        invariant forall id :: id in chans ==>
                    chans[id] == if id in list - targets then Offer(old(chans)[id], st) else old(chans)[id]
        decreases |targets|
      {
        var id :| id in targets;
        targets := targets - {id};
        if |chans[id]| < SUB_CAP {
          chans := chans[id := chans[id] + [st]];
        }
      }
      assert chans == Does(old(Abs()), Sends(st)).chans;
    }
  }

  // ---------- one client's view over time ----------

  datatype Act = Broadcasts(st: ConnStatus) | Reads

  /** `drops` counts the broadcasts that found the queue full. */
  datatype Feed = Feed(queue: seq<ConnStatus>, got: seq<ConnStatus>, drops: nat)

  function Play(acts: seq<Act>): Feed {
    if acts == [] then Feed([], [], 0)
    else
      var f := Play(acts[..|acts| - 1]);
      match Last(acts)
      case Broadcasts(st) =>
        Feed(Offer(f.queue, st), f.got, if |f.queue| < SUB_CAP then f.drops else f.drops + 1)
      case Reads => if f.queue == [] then f else Feed(f.queue[1..], f.got + [f.queue[0]], f.drops)
  }

  ghost function Sent(acts: seq<Act>): seq<ConnStatus> {
    if acts == [] then []
    else Sent(acts[..|acts| - 1]) + if Last(acts).Broadcasts? then [Last(acts).st] else []
  }

  /** `a` is `b` with some elements left out. */
  ghost predicate Sub(a: seq<ConnStatus>, b: seq<ConnStatus>)
    decreases |b|
  {
    if b == [] then a == []
    else Sub(a, b[..|b| - 1]) || (a != [] && Last(a) == Last(b) && Sub(a[..|a| - 1], b[..|b| - 1]))
  }

  lemma SubPush(a: seq<ConnStatus>, b: seq<ConnStatus>, st: ConnStatus)
    requires Sub(a, b)
    ensures Sub(a, b + [st]) && Sub(a + [st], b + [st])
  {
    assert (b + [st])[..|b|] == b && (a + [st])[..|a|] == a;
  }

  lemma SamePush(a: seq<ConnStatus>, b: seq<ConnStatus>, st: ConnStatus)
    ensures a + [st] == b + [st] <==> a == b
  {
    if a + [st] == b + [st] {
      assert (a + [st])[..|a|] == a && (b + [st])[..|b|] == b;
    }
  }

  /** What the client has been given, read or still queued. */
  function Given(f: Feed): seq<ConnStatus> {
    f.got + f.queue
  }

  /** One act: a broadcast adds to what was sent and, with room, to what was given; a read moves the oldest over. */
  lemma ActMoves(acts: seq<Act>)
    requires acts != []
    ensures var before := acts[..|acts| - 1]; var f, g := Play(before), Play(acts);
      match Last(acts)
      case Broadcasts(st) =>
        && Sent(acts) == Sent(before) + [st]
        && (if |f.queue| < SUB_CAP then Given(g) == Given(f) + [st] && g.drops == f.drops && |g.queue| == |f.queue| + 1
            else Given(g) == Given(f) && g.drops == f.drops + 1 && g.queue == f.queue)
      case Reads =>
        Sent(acts) == Sent(before) && Given(g) == Given(f) && g.drops == f.drops && |g.queue| <= |f.queue|
  {
  }

  /** A client sees what was sent, in order, minus the drops; it sees everything exactly if nothing was dropped. */
  lemma {:induction false} FeedIsFaithful(acts: seq<Act>)
    ensures var f := Play(acts);
      && |f.queue| <= SUB_CAP
      && |Given(f)| + f.drops == |Sent(acts)|
      && Sub(Given(f), Sent(acts))
      && (Given(f) == Sent(acts) <==> f.drops == 0)
  {
    if acts == [] {
    } else {
      var before := acts[..|acts| - 1];
      FeedIsFaithful(before);
      ActMoves(acts);
      hide Play;
      hide Sent;
      hide Given;
      if Last(acts).Broadcasts? {
        SubPush(Given(Play(before)), Sent(before), Last(acts).st);
        SamePush(Given(Play(before)), Sent(before), Last(acts).st);
        hide Sub;
      }
    }
  }

  /** How many of the states sent so far the client has not read. */
  ghost function Behind(acts: seq<Act>): int {
    |Sent(acts)| - |Play(acts).got|
  }

  /** The client is less than sixteen states behind at every broadcast. */
  ghost predicate KeepsUp(acts: seq<Act>) {
    forall k: nat :: k < |acts| && acts[k].Broadcasts? ==> Behind(acts[..k]) < 16
  }

  lemma KeepsUpStep(acts: seq<Act>)
    requires acts != []
    ensures var before := acts[..|acts| - 1];
      KeepsUp(acts) <==> KeepsUp(before) && (Last(acts).Broadcasts? ==> Behind(before) < 16)
  {
    hide Behind;
    var n := |acts| - 1;
    var before := acts[..n];
    forall k: nat | k < n ensures acts[k] == before[k] && acts[..k] == before[..k] {
    }
    if KeepsUp(acts) {
      assert acts[n].Broadcasts? ==> Behind(acts[..n]) < 16;
      forall k: nat | k < n && before[k].Broadcasts? ensures Behind(before[..k]) < 16 {
        assert acts[k].Broadcasts?;
      }
    }
  }

  /** Nothing is ever dropped exactly if the client keeps up. */
  lemma {:induction false} NothingLostIff(acts: seq<Act>)
    ensures Play(acts).drops == 0 <==> KeepsUp(acts)
    decreases |acts|
  {
    if acts == [] {
    } else {
      var before := acts[..|acts| - 1];
      NothingLostIff(before);
      KeepsUpStep(acts);
      ActMoves(acts);
      FeedIsFaithful(before);
      hide KeepsUp;
      hide Play;
      hide Sent;
      hide Sub;
    }
  }

  // ---------- a history of calls ----------

  ghost function After(calls: seq<SubCall>): Subs {
    if calls == [] then EMPTY else Does(After(calls[..|calls| - 1]), Last(calls))
  }

  /** What one client is offered and when it reads, over a history of everybody's calls. */
  ghost function View(id: nat, calls: seq<SubCall>): seq<Act> {
    if calls == [] then []
    else
      var init := calls[..|calls| - 1];
      match Last(calls)
      case Sends(st) => if id in After(init).list then View(id, init) + [Broadcasts(st)] else View(id, init)
      case Receives(i) => if i == id then View(id, init) + [Reads] else View(id, init)
      case _ => View(id, init)
  }

  /** What the client has received. */
  ghost function Received(id: nat, calls: seq<SubCall>): seq<ConnStatus> {
    if calls == [] then []
    else
      var init := calls[..|calls| - 1];
      var s := After(init);
      if Last(calls) == Receives(id) && id in s.chans && s.chans[id] != []
      then Received(id, init) + [s.chans[id][0]]
      else Received(id, init)
  }

  lemma PlayPush(acts: seq<Act>, act: Act)
    ensures Play(acts + [act]) == match act {
      case Broadcasts(st) =>
        var f := Play(acts);
        Feed(Offer(f.queue, st), f.got, if |f.queue| < SUB_CAP then f.drops else f.drops + 1)
      case Reads =>
        var f := Play(acts);
        if f.queue == [] then f else Feed(f.queue[1..], f.got + [f.queue[0]], f.drops)
    }
  {
    assert (acts + [act])[..|acts|] == acts;
  }

  /** What one call does to one client's queue. */
  lemma CallMoves(s: Subs, c: SubCall, id: nat)
    requires s.list <= s.chans.Keys && forall i :: i in s.chans ==> i <= s.next
    ensures var t := Does(s, c);
      && t.list <= t.chans.Keys && (forall i :: i in t.chans ==> i <= t.next)
      && (id in s.chans ==> id in t.chans) && (!c.Subscribes? ==> (id in t.chans <==> id in s.chans))
      && (id in t.chans && id !in s.chans ==> t.chans[id] == [])
      && (id in s.chans ==>
            t.chans[id] == (if c.Sends? && id in s.list then Offer(s.chans[id], c.st)
                            else if c == Receives(id) && s.chans[id] != [] then s.chans[id][1..]
                            else s.chans[id]))
  {
  }

  /** In every history a client's queue, and what it has received, are what playing its own view gives. */
  lemma {:induction false} ClientFollows(id: nat, calls: seq<SubCall>)
    ensures var s, f := After(calls), Play(View(id, calls));
      && s.list <= s.chans.Keys && (forall i :: i in s.chans ==> i <= s.next)
      && f.queue == (if id in s.chans then s.chans[id] else [])
      && f.got == Received(id, calls)
    decreases |calls|
  {
    if calls == [] {
    } else {
      var init, c := calls[..|calls| - 1], Last(calls);
      ClientFollows(id, init);
      PlayPush(View(id, init), if c.Sends? then Broadcasts(c.st) else Reads);
      hide Play;
      CallMoves(After(init), c, id);
      hide Does;
      hide Offer;
    }
  }

  ghost function Sendings(c: SubCall): seq<ConnStatus> {
    if c.Sends? then [c.st] else []
  }

  lemma StaysListed(s: Subs, c: SubCall, id: nat)
    ensures c == Subscribes && id == s.next + 1 ==> id in Does(s, c).list
    ensures id in s.list && c != Unsubscribes(id) ==> id in Does(s, c).list
  {
  }

  /** One more call in the client's view, as far as what is sent goes. */
  lemma ViewGrows(id: nat, calls: seq<SubCall>)
    requires calls != []
    ensures var init, c := calls[..|calls| - 1], Last(calls);
      && After(calls) == Does(After(init), c)
      && Sent(View(id, calls)) == Sent(View(id, init)) + if id in After(init).list then Sendings(c) else []
  {
    var init, c := calls[..|calls| - 1], Last(calls);
    SentPush(View(id, init), if c.Sends? then Broadcasts(c.st) else Reads);
    hide Sent;
    hide After;
    assert Sent(View(id, init)) + [] == Sent(View(id, init));
  }

  /** From its subscription on a client is offered everything that is sent, as long as it does not unsubscribe. */
  lemma {:induction false} OfferedSince(id: nat, calls: seq<SubCall>, p: nat)
    requires p < |calls| && calls[p] == Subscribes && id == After(calls[..p]).next + 1
    requires forall i :: p < i < |calls| ==> calls[i] != Unsubscribes(id)
    ensures id in After(calls).list
    ensures Sent(View(id, calls)) == Gather(calls[p + 1..], Sendings)
    decreases |calls|
  {
    hide *;
    var init, c := calls[..|calls| - 1], Last(calls);
    assert c == calls[|calls| - 1] by {
      LastIs(calls);
    }
    ViewGrows(id, calls);
    StaysListed(After(init), c, id);
    if p == |calls| - 1 {
      NotYetThere(id, init);
      SilentSubscribes();
      assert init == calls[..p] && calls[p + 1..] == [];
      GatherNil(Sendings);
    } else {
      assert init[..p] == calls[..p] && calls[p + 1..] == init[p + 1..] + [c];
      OfferedSince(id, init, p);
      GatherAppend(init[p + 1..], c, Sendings);
    }
  }

  lemma LastIs(calls: seq<SubCall>)
    requires calls != []
    ensures Last(calls) == calls[|calls| - 1]
  {
  }

  lemma SilentSubscribes()
    ensures Sendings(Subscribes) == []
  {
  }

  lemma SentPush(acts: seq<Act>, act: Act)
    ensures Sent(acts + [act]) == Sent(acts) + if act.Broadcasts? then [act.st] else []
  {
    assert (acts + [act])[..|acts|] == acts;
  }

  /** Before its subscription a client is offered nothing. */
  lemma {:induction false} NotYetThere(id: nat, calls: seq<SubCall>)
    requires id > After(calls).next
    ensures id !in After(calls).list && Sent(View(id, calls)) == []
    decreases |calls|
  {
    if calls == [] {
    } else {
      NotYetThere(id, calls[..|calls| - 1]);
      SentPush(View(id, calls[..|calls| - 1]), Reads);
      hide Sent;
    }
  }

  // ---------- beside a run of the actor ----------

  /** The actor broadcasts what it posts, as part of posting it. */
  function StepCalls(s: Sys, l: Label): seq<SubCall>
    requires Enabled(s, l)
  {
    if l.Exec? && s.todo[0].Post? then [Sends(s.todo[0].status)] else []
  }

  /** All calls up to state `n` of a run; `clients[i]` are those that clients make between step `i - 1` and step `i`. */
  ghost function Story(states: seq<Sys>, labels: seq<Label>, clients: seq<seq<SubCall>>, n: nat): seq<SubCall>
    requires IsRun(states, labels) && |clients| == |states| && n < |states|
  {
    if n == 0 then clients[0]
    else Story(states, labels, clients, n - 1) + StepCalls(states[n - 1], labels[n - 1]) + clients[n]
  }

  /** Only the actor sends. */
  ghost predicate ClientsOnly(clients: seq<seq<SubCall>>) {
    forall i :: 0 <= i < |clients| ==> forall c :: c in clients[i] ==> !c.Sends?
  }

  lemma StepPosts(s: Sys, l: Label)
    requires Enabled(s, l)
    ensures Gather(Next(s, l).log, EventPosts) == Gather(s.log, EventPosts) + Gather(StepCalls(s, l), Sendings)
  {
    hide Gather;
    GatherNil(Sendings);
    if l.Exec? {
      ExecPosts(s, l.dead);
      hide ExecOne;
      if s.todo[0].Post? {
        GatherOne(Sends(s.todo[0].status), Sendings);
      }
    } else {
      LogSame(s, l);
    }
  }

  /** What is sent along a run is what the run posts, in the same order. */
  lemma {:induction false} SentIsPosted(states: seq<Sys>, labels: seq<Label>, clients: seq<seq<SubCall>>, n: nat)
    requires IsDaemonRun(states, labels) && |clients| == |states| && n < |states| && ClientsOnly(clients)
    ensures Gather(Story(states, labels, clients, n), Sendings) == Gather(states[n].log, EventPosts)
  {
    hide Gather;
    hide Next;
    hide Enabled;
    GatherNone(clients[n], Sendings);
    if n == 0 {
      GatherNil(EventPosts);
    } else {
      SentIsPosted(states, labels, clients, n - 1);
      var before, step := Story(states, labels, clients, n - 1), StepCalls(states[n - 1], labels[n - 1]);
      hide StepCalls;
      StepPosts(states[n - 1], labels[n - 1]);
      GatherConcat(before + step, clients[n], Sendings);
      GatherConcat(before, step, Sendings);
    }
  }

  lemma {:induction false} LegalPart(t: seq<ConnStatus>, a: seq<ConnStatus>, b: seq<ConnStatus>)
    requires LegalTrace(t) && t == a + b
    ensures LegalTrace(b)
  {
    forall i | 0 <= i < |b| - 1 ensures LegalStep(b[i], b[i + 1]) {
      assert t[|a| + i] == b[i] && t[|a| + i + 1] == b[i + 1];
    }
  }

  /**
   * A client that subscribes at some point of a run and stays has received, or has queued, a contiguous and
   * legal stretch of the posted trace up to its end, if its queue was never found full.
   */
  lemma SubscriberSegment(states: seq<Sys>, labels: seq<Label>, clients: seq<seq<SubCall>>, p: nat, id: nat)
    requires IsDaemonRun(states, labels) && Up(Last(states)) && Idle(Last(states))
    requires |clients| == |states| && ClientsOnly(clients)
    requires var calls := Story(states, labels, clients, |labels|);
      && p < |calls| && calls[p] == Subscribes && id == After(calls[..p]).next + 1
      && (forall i :: p < i < |calls| ==> calls[i] != Unsubscribes(id))
      && Play(View(id, calls)).drops == 0
    ensures var calls := Story(states, labels, clients, |labels|);
      && id in After(calls).chans
      && var given := Received(id, calls) + After(calls).chans[id];
         Trace(Last(states)) == [IDLE] + Gather(calls[..p], Sendings) + given && LegalTrace(given)
  {
    hide Next;
    hide Enabled;
    hide Gather;
    hide LegalTrace;
    hide Play;
    hide Sent;
    hide Story;
    hide After;
    hide View;
    hide Received;
    var s, calls := Last(states), Story(states, labels, clients, |labels|);
    var ahead, given := Gather(calls[..p], Sendings), Gather(calls[p + 1..], Sendings);
    SentIsPosted(states, labels, clients, |labels|);
    ClientFollows(id, calls);
    OfferedSince(id, calls, p);
    FeedIsFaithful(View(id, calls));
    assert Received(id, calls) + After(calls).chans[id] == given;
    SubscriptionSplits(calls, p);
    PostedTrace(states, labels);
    IdlePosts(s);
    assert Trace(s) == ([IDLE] + ahead) + given;
    LegalPart(Trace(s), [IDLE] + ahead, given);
  }

  lemma IdlePosts(s: Sys)
    requires Idle(s)
    ensures Trace(s) == [IDLE] + Gather(s.log, EventPosts)
  {
    hide Gather;
    GatherNil(FxPosts);
  }

  lemma SubscriptionSplits(calls: seq<SubCall>, p: nat)
    requires p < |calls| && calls[p] == Subscribes
    ensures Gather(calls, Sendings) == Gather(calls[..p], Sendings) + Gather(calls[p + 1..], Sendings)
  {
    hide Gather;
    GatherSplit(calls, p, Sendings);
    assert Sendings(calls[p]) == [];
  }
}
