/** The connect rate limiter, over real-valued time. */
module TokenBucket {

  /** One call of `take` and its answer. */
  datatype Take = Take(at: real, ok: bool)

  datatype Params = Params(capacity: real, rate: real, start: real) {
    predicate Ok() {
      capacity >= 0.0 && rate >= 0.0
    }
  }

  function Min(a: real, b: real): real {
    if a <= b then a else b
  }

  /** What flows in over a stretch of time. */
  function Flow(p: Params, elapsed: real): real {
    elapsed * p.rate
  }

  lemma FlowIs(p: Params, elapsed: real)
    ensures Flow(p, elapsed) == elapsed * p.rate
  {
  }

  lemma FlowAdds(p: Params, a: real, b: real)
    ensures Flow(p, a + b) == Flow(p, a) + Flow(p, b)
  {
  }

  lemma FlowGrows(p: Params, a: real)
    requires p.Ok() && a >= 0.0
    ensures Flow(p, a) >= 0.0
  {
  }

  function Spent(ok: bool): real {
    if ok then 1.0 else 0.0
  }

  function LastTime(p: Params, h: seq<Take>): real {
    if h == [] then p.start else h[|h| - 1].at
  }

  /** The stored level after the calls `h`. */
  function Level(p: Params, h: seq<Take>): real {
    if h == [] then p.capacity
    else
      var before, last := h[..|h| - 1], h[|h| - 1];
      Refilled(p, Level(p, before), last.at - LastTime(p, before)) - Spent(last.ok)
  }

  function Refilled(p: Params, level: real, elapsed: real): real {
    Min(p.capacity, level + Flow(p, elapsed))
  }

  /** What a call at `now` finds in the bucket. */
  function Found(p: Params, h: seq<Take>, now: real): real {
    Refilled(p, Level(p, h), now - LastTime(p, h))
  }

  /** A history the limiter can produce: time does not run back, and a call passes iff it finds a token. */
  predicate Legal(p: Params, h: seq<Take>) {
    h == [] ||
    (var before, last := h[..|h| - 1], h[|h| - 1];
     Legal(p, before) && last.at >= LastTime(p, before) && (last.ok <==> Found(p, before, last.at) >= 1.0))
  }

  lemma Advance(p: Params, h: seq<Take>, now: real)
    requires Legal(p, h) && now >= LastTime(p, h)
    ensures var ok := Found(p, h, now) >= 1.0; var next := h + [Take(now, ok)];
      Legal(p, next) && Level(p, next) == Found(p, h, now) - Spent(ok)
  {
    hide Flow;
    var next := h + [Take(now, Found(p, h, now) >= 1.0)];
    assert next[..|h|] == h;
  }

  class Bucket {
    var tokens: real
    var capacity: real
    var refillRate: real
    var last: real
    ghost var params: Params
    ghost var history: seq<Take>

    ghost predicate Valid()
      reads this
    {
      && params.Ok() && capacity == params.capacity && refillRate == params.rate
      && Legal(params, history) && tokens == Level(params, history) && last == LastTime(params, history)
    }

    constructor (capacity: nat, perInterval: real, now: real)
      requires perInterval > 0.0
      ensures Valid() && history == []
      ensures params == Params(capacity as real, capacity as real / perInterval, now)
    {
      tokens, this.capacity, refillRate, last := capacity as real, capacity as real, capacity as real / perInterval, now;
      params, history := Params(capacity as real, capacity as real / perInterval, now), [];
    }

    /** The clock is monotonic, so `now` is not before the previous reading. */
    method TryTake(now: real) returns (ok: bool)
      requires Valid() && now >= last
      modifies this
      ensures Valid() && params == old(params) && history == old(history) + [Take(now, ok)]
    {
      hide Flow;
      hide Legal;
      hide Level;
      Advance(params, history, now);
      history := history + [Take(now, Found(params, history, now) >= 1.0)];
      var elapsed := now - last;
      last := now;
      FlowIs(params, elapsed);
      tokens := Min(capacity, tokens + elapsed * refillRate);
      if tokens < 1.0 {
        return false;
      }
      tokens := tokens - 1.0;
      return true;
    }
  }

  // ---------- what the level means ----------

  function Accepted(h: seq<Take>): nat {
    if h == [] then 0 else Accepted(h[..|h| - 1]) + if h[|h| - 1].ok then 1 else 0
  }

  /** The instants that matter at `now`: the start, every call so far, and `now` itself. */
  function Instant(p: Params, h: seq<Take>, now: real, i: nat): real
    requires i <= |h| + 1
  {
    if i == 0 then p.start else if i <= |h| then h[i - 1].at else now
  }

  /** The calls made from instant `i` on. */
  function Since(h: seq<Take>, i: nat): seq<Take>
    requires i <= |h| + 1
  {
    if i == 0 then h else h[i - 1..]
  }

  /** A full bucket at instant `i`, what flowed in since, less what was taken since. */
  function Bound(p: Params, h: seq<Take>, now: real, i: nat): real
    requires i <= |h| + 1
  {
    p.capacity + Flow(p, now - Instant(p, h, now, i)) - Accepted(Since(h, i)) as real
  }

  /** One more call moves every earlier bound by what flowed in and by what the call took. */
  lemma BoundMoves(p: Params, h: seq<Take>, t: Take, now: real, i: nat)
    requires i <= |h| + 1
    ensures Bound(p, h + [t], now, i) == Bound(p, h, t.at, i) - Spent(t.ok) + Flow(p, now - t.at)
  {
    hide Flow;
    var since := Since(h, i);
    assert Since(h + [t], i) == since + [t];
    assert (since + [t])[..|since|] == since;
    assert Instant(p, h + [t], now, i) == Instant(p, h, t.at, i);
    var at := Instant(p, h, t.at, i);
    FlowAdds(p, t.at - at, now - t.at);
    assert (t.at - at) + (now - t.at) == now - at;
  }

  lemma MinIs(a: real, b: real)
    ensures Min(a, b) == if a <= b then a else b
  {
  }

  lemma FoundFirst(p: Params, now: real)
    ensures Found(p, [], now) == Min(p.capacity, p.capacity + Flow(p, now - p.start))
  {
    hide Flow;
  }

  lemma FullBound(p: Params, h: seq<Take>, now: real)
    ensures Bound(p, h, now, |h| + 1) == p.capacity
  {
    assert Since(h, |h| + 1) == [] && Flow(p, now - now) == 0.0;
  }

  lemma StartBound(p: Params, now: real)
    ensures Bound(p, [], now, 0) == p.capacity + Flow(p, now - p.start)
  {
  }

  /** What the next call finds, from what the last one found. */
  lemma FoundStep(p: Params, h: seq<Take>, now: real)
    requires h != []
    ensures var before, t := h[..|h| - 1], h[|h| - 1];
      Found(p, h, now) == Min(p.capacity, Found(p, before, t.at) - Spent(t.ok) + Flow(p, now - t.at))
  {
    hide Flow;
  }

  lemma LegalStep(p: Params, h: seq<Take>)
    requires Legal(p, h) && h != []
    ensures var before, t := h[..|h| - 1], h[|h| - 1];
      Legal(p, before) && t.at >= LastTime(p, before) && (t.ok <==> Found(p, before, t.at) >= 1.0)
  {
    hide Found;
  }

  /** The bucket holds exactly the least of the bounds: the level is the tightest window seen so far. */
  lemma {:induction false} Exact(p: Params, h: seq<Take>, now: real) returns (tightest: nat)
    requires p.Ok() && Legal(p, h) && now >= LastTime(p, h)
    ensures tightest <= |h| + 1 && Found(p, h, now) == Bound(p, h, now, tightest)
    ensures forall i :: 0 <= i <= |h| + 1 ==> Found(p, h, now) <= Bound(p, h, now, i)
  {
    hide *;
    FullBound(p, h, now);
    if h == [] {
      StartBound(p, now);
      FoundFirst(p, now);
      MinIs(p.capacity, p.capacity + Flow(p, now - p.start));
      tightest := if Found(p, h, now) == p.capacity then 1 else 0;
    } else {
      var before, t := h[..|h| - 1], h[|h| - 1];
      LegalStep(p, h);
      var k := Exact(p, before, t.at);
      FoundStep(p, h, now);
      assert h == before + [t];
      forall i | 0 <= i <= |h|
        ensures Bound(p, h, now, i) == Bound(p, before, t.at, i) - Spent(t.ok) + Flow(p, now - t.at)
      {
        BoundMoves(p, before, t, now, i);
      }
      MinIs(p.capacity, Found(p, before, t.at) - Spent(t.ok) + Flow(p, now - t.at));
      tightest := if Found(p, h, now) == p.capacity then |h| + 1 else k;
    }
  }

  lemma {:induction false} LevelInRange(p: Params, h: seq<Take>)
    requires p.Ok() && Legal(p, h)
    ensures 0.0 <= Level(p, h) <= p.capacity
  {
    hide Flow;
    if h == [] {
    } else {
      var before, t := h[..|h| - 1], h[|h| - 1];
      LevelInRange(p, before);
      FlowGrows(p, t.at - LastTime(p, before));
    }
  }

  lemma {:induction false} LegalBefore(p: Params, h: seq<Take>, n: nat)
    requires Legal(p, h) && n <= |h|
    ensures Legal(p, h[..n])
    decreases |h|
  {
    if n == |h| {
      assert h[..n] == h;
    } else {
      LegalBefore(p, h[..|h| - 1], n);
      assert h[..|h| - 1][..n] == h[..n];
    }
  }

  lemma NotOverdrawn(p: Params, h: seq<Take>, j: nat)
    requires p.Ok() && Legal(p, h) && j < |h|
    ensures Legal(p, h[..j]) && h[j].at >= LastTime(p, h[..j])
    ensures Found(p, h[..j], h[j].at) >= Spent(h[j].ok)
  {
    hide Flow;
    hide Legal;
    hide Found;
    hide Level;
    var upTo := h[..j + 1];
    LegalBefore(p, h, j + 1);
    LegalStep(p, upTo);
    assert upTo[..j] == h[..j] && upTo[j] == h[j];
    LevelInRange(p, upTo);
    LevelIs(p, upTo);
  }

  lemma FoundWithin(p: Params, h: seq<Take>, now: real, i: nat)
    requires p.Ok() && Legal(p, h) && now >= LastTime(p, h) && i <= |h|
    ensures Found(p, h, now) <= p.capacity + Flow(p, now - if i == |h| then now else h[i].at) - Accepted(h[i..]) as real
  {
    hide Flow;
    hide Legal;
    hide Found;
    hide Level;
    hide Accepted;
    var _ := Exact(p, h, now);
    assert Found(p, h, now) <= Bound(p, h, now, i + 1);
  }

  /** Between any two calls, ends included, at most a bucketful and what flowed in meanwhile is accepted. */
  lemma WindowBound(p: Params, h: seq<Take>, i: nat, j: nat)
    requires p.Ok() && Legal(p, h) && i <= j < |h|
    ensures Accepted(h[i..j + 1]) as real <= p.capacity + Flow(p, h[j].at - h[i].at)
  {
    hide Flow;
    hide Legal;
    hide Found;
    hide Level;
    hide Accepted;
    NotOverdrawn(p, h, j);
    FoundWithin(p, h[..j], h[j].at, i);
    AcceptedNext(h, i, j);
    assert h[..j][i..] == h[i..j];
  }

  lemma AcceptedNext(h: seq<Take>, i: nat, j: nat)
    requires i <= j < |h|
    ensures Accepted(h[i..j + 1]) as real == Accepted(h[i..j]) as real + Spent(h[j].ok)
  {
    assert h[i..j + 1][..j - i] == h[i..j];
  }

  lemma LevelIs(p: Params, h: seq<Take>)
    requires h != []
    ensures Level(p, h) == Found(p, h[..|h| - 1], h[|h| - 1].at) - Spent(h[|h| - 1].ok)
  {
    hide Flow;
  }

  /** Accepting one more call at `now` would take more than a bucketful and the inflow since instant `i`. */
  predicate Overfills(p: Params, h: seq<Take>, now: real, i: nat) {
    i <= |h| + 1 && Accepted(Since(h, i)) as real + 1.0 > p.capacity + Flow(p, now - Instant(p, h, now, i))
  }

  /** A call is refused exactly when accepting it would overfill the window from some instant on. */
  lemma RefusedIffWindowFull(p: Params, h: seq<Take>, t: Take)
    requires p.Ok() && Legal(p, h + [t])
    ensures !t.ok <==> exists i: nat :: Overfills(p, h, t.at, i)
  {
    hide Flow;
    hide Legal;
    hide Found;
    LegalStep(p, h + [t]);
    assert (h + [t])[..|h|] == h;
    var k := Exact(p, h, t.at);
    forall i: nat | i <= |h| + 1 ensures Overfills(p, h, t.at, i) <==> Bound(p, h, t.at, i) < 1.0 {
    }
    if !t.ok {
      assert Overfills(p, h, t.at, k);
    }
  }
}
