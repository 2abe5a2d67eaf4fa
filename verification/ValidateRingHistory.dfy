/** Which sequences of chunk lengths leave the last `cap` bytes in the validator's buffer, whatever the chunks hold. */
module ValidateRingHistory {
  import opened Base
  import opened Bytes
  import opened ValidateRing

  /** The part of the buffer's state that depends on lengths alone. */
  datatype Shape = Shape(len: nat, full: bool, pos: nat)

  function ShapeAfter(cap: nat, ls: seq<nat>): Shape {
    if ls == [] then Shape(0, false, 0)
    else
      var s, l := ShapeAfter(cap, ls[..|ls| - 1]), Last(ls);
      if l >= cap then Shape(cap, true, 0)
      else if !s.full && s.len + l <= cap then Shape(s.len + l, s.len + l == cap, 0)
      else Shape(cap, true, l)
  }

  function Lens(ps: seq<Text>): (ls: seq<nat>)
    ensures |ls| == |ps|
  {
    seq(|ps|, i requires 0 <= i < |ps| => |ps[i]|)
  }

  /** Since the last chunk that filled the buffer alone, every write found the oldest byte at the front. */
  predicate Keeps(cap: nat, ls: seq<nat>) {
    ls == [] || Last(ls) >= cap
    || (Keeps(cap, ls[..|ls| - 1])
        && var s := ShapeAfter(cap, ls[..|ls| - 1]); !s.full || s.pos == 0)
  }

  lemma LensInit(ps: seq<Text>)
    requires ps != []
    ensures Lens(ps)[..|ps| - 1] == Lens(ps[..|ps| - 1]) && Last(Lens(ps)) == |Last(ps)|
  {
  }

  lemma {:induction false} ShapeIs(cap: nat, ps: seq<Text>)
    ensures var r, s := After(cap, ps), ShapeAfter(cap, Lens(ps));
      |r.buf| == s.len && r.full == s.full && r.pos == s.pos
  {
    if ps == [] {
    } else {
      ShapeIs(cap, ps[..|ps| - 1]);
      LensInit(ps);
    }
  }

  // ---------- enough ----------

  lemma {:induction false} KeepsSuffices(cap: nat, ps: seq<Text>)
    requires Keeps(cap, Lens(ps))
    ensures Read(After(cap, ps)) == Tail(Flat(ps), cap)
  {
    if ps == [] {
    } else {
      var before, p := ps[..|ps| - 1], Last(ps);
      LensInit(ps);
      if |p| >= cap {
        AlignedAgrees(After(cap, before), p);
        TailOfLong(Read(After(cap, before)), p, cap);
        TailOfLong(Flat(before), p, cap);
      } else {
        KeepsSuffices(cap, before);
        ShapeIs(cap, before);
        AlignedAgrees(After(cap, before), p);
        TailTwice(Flat(before), p, cap);
      }
    }
  }

  // ---------- necessary ----------

  function Zeros(n: nat): Text {
    seq(n, i => 0)
  }

  /** Zeros, but for one byte at distance `d` from the end. */
  predicate OneAt(t: Text, d: nat) {
    d < |t| && forall i :: 0 <= i < |t| ==> t[i] == if i == |t| - 1 - d then 1 else 0
  }

  lemma OneMoves(t: Text, d: nat, n: nat)
    requires OneAt(t, d)
    ensures OneAt(t + Zeros(n), d + n)
  {
  }

  /** A full buffer that is zero but for its physically last byte. */
  predicate Marked(r: Ring) {
    r.Ok() && r.full && r.cap > 0 && OneAt(r.buf, 0)
  }

  /** A short write never moves the physically last byte. */
  lemma MarkStays(r: Ring, n: nat)
    requires r.Ok() && OneAt(r.buf, 0) && n < r.cap && |r.buf| + n >= r.cap && (r.full || |r.buf| + n > r.cap)
    ensures Marked(Wrote(r, Zeros(n))) && Wrote(r, Zeros(n)).pos == n
  {
    var kept := MixKept(r.buf, n, r.cap);
    assert Wrote(r, Zeros(n)).buf == Zeros(n) + kept;
    assert OneAt(kept, 0);
  }

  function Cut(t: Text, ls: seq<nat>): seq<Text>
    requires |t| == Sum(ls)
    decreases |ls|
  {
    if ls == [] then [] else Cut(t[..Sum(ls[..|ls| - 1])], ls[..|ls| - 1]) + [t[Sum(ls[..|ls| - 1])..]]
  }

  function Sum(ls: seq<nat>): nat {
    if ls == [] then 0 else Sum(ls[..|ls| - 1]) + Last(ls)
  }

  lemma {:induction false} CutIs(t: Text, ls: seq<nat>)
    requires |t| == Sum(ls)
    ensures Lens(Cut(t, ls)) == ls && Flat(Cut(t, ls)) == t
    decreases |ls|
  {
    if ls == [] {
    } else {
      var init := ls[..|ls| - 1];
      var n := Sum(init);
      CutIs(t[..n], init);
      var ps := Cut(t[..n], init);
      assert Cut(t, ls)[..|ps|] == ps;
      LensPush(ps, t[n..]);
      assert ls == init + [Last(ls)];
    }
  }

  lemma LensPush(ps: seq<Text>, p: Text)
    ensures Lens(ps + [p]) == Lens(ps) + [|p|]
  {
  }

  lemma {:induction false} ShapeWithinSum(cap: nat, ls: seq<nat>)
    ensures ShapeAfter(cap, ls).len <= Sum(ls)
  {
    if ls == [] {
    } else {
      ShapeWithinSum(cap, ls[..|ls| - 1]);
    }
  }

  /** What was kept so far is in front of a rotated buffer: mark the byte before the chunk that rotated it. */
  lemma Mark(cap: nat, ls: seq<nat>) returns (ps: seq<Text>)
    requires Keeps(cap, ls) && ShapeAfter(cap, ls).full && ShapeAfter(cap, ls).pos != 0
    ensures Lens(ps) == ls && Marked(After(cap, ps)) && After(cap, ps).pos > 0
    ensures OneAt(Flat(ps), After(cap, ps).pos)
  {
    var init, m := ls[..|ls| - 1], Last(ls);
    var s := ShapeAfter(cap, init);
    ShapeWithinSum(cap, init);
    var t := Zeros(Sum(init) - 1) + [1];
    assert OneAt(t, 0);
    CutIs(t, init);
    var before := Cut(t, init);
    KeepsSuffices(cap, before);
    ShapeIs(cap, before);
    var r := After(cap, before);
    assert r.buf == Tail(t, cap);
    MarkStays(r, m);
    OneMore(cap, before, Zeros(m));
    OneMoves(t, 0, m);
    ps := before + [Zeros(m)];
    LensPush(before, Zeros(m));
    assert ls == init + [m];
  }

  /** From the first misaligned write on, the mark is closer to the end of the buffer than of the stream. */
  lemma {:induction false} Drifts(cap: nat, ls: seq<nat>) returns (ps: seq<Text>, d: nat)
    requires !Keeps(cap, ls)
    ensures Lens(ps) == ls && Marked(After(cap, ps)) && After(cap, ps).pos == Last(ls) < cap
    ensures OneAt(Flat(ps), d) && d > Last(ls)
    decreases |ls|
  {
    var init, l := ls[..|ls| - 1], Last(ls);
    var before: seq<Text>;
    if Keeps(cap, init) {
      before := Mark(cap, init);
      d := After(cap, before).pos;
    } else {
      before, d := Drifts(cap, init);
    }
    MarkStays(After(cap, before), l);
    OneMore(cap, before, Zeros(l));
    OneMoves(Flat(before), d, l);
    ps, d := before + [Zeros(l)], d + l;
    LensPush(before, Zeros(l));
    assert ls == init + [l];
  }

  lemma DriftShows(r: Ring, t: Text, d: nat)
    requires Marked(r) && r.pos < r.cap && OneAt(t, d) && d > r.pos && |t| >= r.cap
    ensures Read(r) != Tail(t, r.cap)
  {
    var at := r.cap - 1 - r.pos;
    assert Read(r)[at] == r.buf[r.cap - 1] == 1;
    assert Tail(t, r.cap)[at] == t[|t| - 1 - r.pos] == 0;
  }

  lemma {:induction false} FullWithinFlat(cap: nat, ps: seq<Text>)
    ensures |After(cap, ps).buf| <= |Flat(ps)|
  {
    if ps == [] {
    } else {
      FullWithinFlat(cap, ps[..|ps| - 1]);
    }
  }

  /**
   * Exactly which sequences of writes leave the last `cap` bytes, whatever the chunks hold: those in which,
   * since the last chunk that filled the buffer alone, every write found the oldest byte at the front.
   */
  lemma HistoryIff(cap: nat, ls: seq<nat>)
    ensures (forall ps :: Lens(ps) == ls ==> Read(After(cap, ps)) == Tail(Flat(ps), cap)) <==> Keeps(cap, ls)
  {
    if Keeps(cap, ls) {
      forall ps | Lens(ps) == ls ensures Read(After(cap, ps)) == Tail(Flat(ps), cap) {
        KeepsSuffices(cap, ps);
      }
    } else {
      var ps, d := Drifts(cap, ls);
      FullWithinFlat(cap, ps);
      DriftShows(After(cap, ps), Flat(ps), d);
    }
  }
}
