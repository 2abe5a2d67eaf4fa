/** The validator's stderr capture: a chunk-wise circular buffer, and exactly when it keeps the last bytes. */
module ValidateRing {
  import opened Bytes

  /** `buf` is the slice in use; when `full`, the oldest byte is at `pos`. */
  datatype Ring = Ring(buf: Text, full: bool, pos: nat, cap: nat) {
    predicate Ok() {
      && |buf| <= cap
      && if full then |buf| == cap && (pos < cap || pos == cap == 0)
         else pos == 0 && (|buf| < cap || cap == 0)
    }
  }

  function Fresh(cap: nat): Ring {
    Ring([], false, 0, cap)
  }

  function Wrote(r: Ring, p: Text): Ring
    requires r.Ok()
  {
    if |p| >= r.cap then
      Ring(p[|p| - r.cap..], true, 0, r.cap)
    else if !r.full && |r.buf| + |p| <= r.cap then
      Ring(r.buf + p, |r.buf| + |p| == r.cap, 0, r.cap)
    else
      Ring(p + MixKept(r.buf, |p|, r.cap), true, |p|, r.cap)
  }

  /** The retained bytes in what the code takes for write order. */
  function Read(r: Ring): Text
    requires r.Ok()
  {
    if r.full then r.buf[r.pos..] + r.buf[..r.pos] else r.buf
  }

  /** The part of a slice of `buf` that survives `m` new bytes. */
  function MixKept(buf: Text, m: nat, cap: nat): Text
    requires m <= cap && cap - m <= |buf|
  {
    buf[|buf| - (cap - m)..]
  }

  /** Moving the survivors to the end and filling the front leaves the new bytes, then the survivors. */
  lemma MixBytes(was: Text, moved: Text, now: Text, p: Text, len: nat)
    requires len <= |was| && |p| <= |was| && |was| - |p| <= len
    requires var keep := |was| - |p|;
      moved == was[..|p|] + was[len - keep..len - keep + keep] + was[|p| + keep..]
    requires now == moved[..0] + p + moved[0 + |p|..]
    ensures now == p + MixKept(was[..len], |p|, |was|)
  {
    var kept := MixKept(was[..len], |p|, |was|);
    assert kept == was[len - (|was| - |p|)..len];
    assert was[|was|..] == [];
    assert moved == was[..|p|] + kept;
    assert moved[|p|..] == kept;
  }

  lemma Spliced(was: Text, now: Text, at: nat, mid: Text)
    requires |now| == |was| && at + |mid| <= |was|
    requires forall i :: 0 <= i < |was| ==> now[i] == if at <= i < at + |mid| then mid[i - at] else was[i]
    ensures now == was[..at] + mid + was[at + |mid|..]
  {
  }

  class RingBuf {
    const data: array<Byte>
    var len: nat
    var full: bool
    var pos: nat

    ghost predicate Valid()
      reads this, data
    {
      len <= data.Length && Abs().Ok()
    }

    ghost function Abs(): Ring
      requires len <= data.Length
      reads this, data
    {
      Ring(data[..len], full, pos, data.Length)
    }

    constructor (cap: nat)
      ensures Valid() && Abs() == Fresh(cap) && fresh(data)
    {
      data := new Byte[cap];
      len, full, pos := 0, false, 0;
    }

    method Write(p: Text) returns (n: nat)
      requires Valid()
      modifies this, data
      ensures Valid() && Abs() == Wrote(old(Abs()), p) && n == |p|
    {
      var cap := data.Length;
      n := |p|;
      if |p| >= cap {
        Fill(0, p[|p| - cap..]);
        assert data[..] == p[|p| - cap..];
        len, full, pos := cap, true, 0;
        assert data[..len] == data[..];
      } else if !full && len + |p| <= cap {
        Fill(len, p);
        assert data[..len + |p|] == old(data[..len]) + p;
        len := len + |p|;
        if len == cap {
          full, pos := true, 0;
        }
      } else {
        Mix(p);
      }
    }

    /** The mixed case: the surviving tail moves to the end, the new bytes go to the front. */
    method Mix(p: Text)
      requires Valid() && |p| < data.Length && (full || len + |p| > data.Length)
      modifies this, data
      ensures Valid() && Abs() == Wrote(old(Abs()), p)
    {
      ghost var was := data[..];
      full := true;
      var keep := data.Length - |p|;
      Move(|p|, len - keep, keep);
      ghost var moved := data[..];
      Fill(0, p);
      MixBytes(was, moved, data[..], p, len);
      len, pos := data.Length, |p|;
      assert data[..len] == data[..];
    }

    /** Go's copy from another slice into this buffer. */
    method Fill(at: nat, p: Text)
      requires at + |p| <= data.Length
      modifies data
      ensures data[..] == old(data[..at]) + p + old(data[at + |p|..])
    {
      ghost var was := data[..];
      forall i | 0 <= i < |p| {
        data[at + i] := p[i];
      }
      Spliced(was, data[..], at, p);
    }

    /** Go's copy within this buffer; the two ranges may overlap. */
    method Move(to: nat, from: nat, n: nat)
      requires to + n <= data.Length && from + n <= data.Length
      modifies data
      ensures data[..] == old(data[..to]) + old(data[from..from + n]) + old(data[to + n..])
    {
      ghost var was := data[..];
      forall i | 0 <= i < n {
        data[to + i] := data[from + i];
      }
      Spliced(was, data[..], to, was[from..from + n]);
    }

    method String() returns (s: Text)
      requires Valid()
      ensures s == Read(Abs())
    {
      if !full {
        return data[..len];
      }
      assert data[..len][pos..] == data[pos..len];
      return data[pos..len] + data[..pos];
    }
  }

  // ---------- what every write keeps ----------

  /** A text that ends with `p` keeps it when cut to the length of `p`. */
  lemma EndsWith(front: Text, p: Text)
    ensures Tail(front + p, |p|) == p
  {
  }

  lemma MixRead(r: Ring, p: Text)
    requires r.Ok() && |p| < r.cap && (r.full || |r.buf| + |p| > r.cap)
    ensures var w := Wrote(r, p);
      w.Ok() && Read(w) == MixKept(r.buf, |p|, r.cap) + p
  {
    var w := Wrote(r, p);
    var kept := MixKept(r.buf, |p|, r.cap);
    assert w.buf == p + kept && w.pos == |p|;
    assert w.buf[..|p|] == p && w.buf[|p|..] == kept;
  }

  /** Never more than `cap` bytes, as many as there are to keep, and the newest chunk last. */
  lemma KeepsNewest(r: Ring, p: Text)
    requires r.Ok()
    ensures var w := Wrote(r, p);
      && w.Ok()
      && |Read(w)| == (if |Read(r)| + |p| <= r.cap then |Read(r)| + |p| else r.cap)
      && Tail(Read(w), |Tail(p, r.cap)|) == Tail(p, r.cap)
  {
    if |p| >= r.cap {
      assert Read(Wrote(r, p)) == Tail(p, r.cap);
    } else if r.full || |r.buf| + |p| > r.cap {
      MixRead(r, p);
      hide Wrote;
      EndsWith(MixKept(r.buf, |p|, r.cap), p);
    } else {
      assert Read(Wrote(r, p)) == r.buf + p;
      hide Wrote;
      EndsWith(r.buf, p);
    }
  }

  // ---------- when the last `cap` bytes are kept ----------

  /** The branch that moves bytes starts from an unrotated buffer, or is not taken. */
  predicate Aligned(r: Ring, p: Text) {
    |p| >= r.cap || !r.full || r.pos == 0
  }

  ghost predicate Agrees(r: Ring, p: Text)
    requires r.Ok()
  {
    Wrote(r, p).Ok() && Read(Wrote(r, p)) == Tail(Read(r) + p, r.cap)
  }

  lemma TailOfJoin(a: Text, p: Text, n: nat)
    requires |p| <= n <= |a| + |p|
    ensures Tail(a + p, n) == MixKept(a, |p|, n) + p
  {
    var cut := |a| - (n - |p|);
    assert a + p == a[..cut] + (a[cut..] + p);
  }

  lemma TailOfLong(a: Text, p: Text, n: nat)
    requires n <= |p|
    ensures Tail(a + p, n) == p[|p| - n..]
  {
  }

  lemma AlignedAgrees(r: Ring, p: Text)
    requires r.Ok() && Aligned(r, p)
    ensures Agrees(r, p)
  {
    if |p| >= r.cap {
      TailOfLong(Read(r), p, r.cap);
      assert Read(Wrote(r, p)) == p[|p| - r.cap..];
    } else if r.full || |r.buf| + |p| > r.cap {
      assert Read(r) == r.buf;
      MixRead(r, p);
      TailOfJoin(r.buf, p, r.cap);
    } else {
      assert Read(Wrote(r, p)) == r.buf + p;
    }
  }

  /** The byte the rotated buffer should keep at physical position `i`. */
  function Turned(r: Ring, i: nat): Byte
    requires r.Ok() && r.full && i < r.cap
  {
    if r.pos + i < r.cap then r.buf[r.pos + i] else r.buf[r.pos + i - r.cap]
  }

  /** What a misaligned write keeps, and what it should keep: the same stretch of two rotations. */
  lemma MisalignedReads(r: Ring, p: Text)
    requires r.Ok() && !Aligned(r, p)
    ensures Read(Wrote(r, p)) == r.buf[|p|..] + p
    ensures Tail(Read(r) + p, r.cap) == Read(r)[|p|..] + p
  {
    MixRead(r, p);
    TailOfJoin(Read(r), p, r.cap);
  }

  lemma SameFront(a: Text, b: Text, p: Text)
    requires |a| == |b|
    ensures a + p == b + p <==> a == b
  {
    if a + p == b + p {
      assert (a + p)[..|a|] == a && (b + p)[..|b|] == b;
    }
  }

  lemma SameFrom(a: Text, b: Text, m: nat)
    requires |a| == |b| && m <= |a|
    ensures a[m..] == b[m..] <==> forall i :: m <= i < |a| ==> a[i] == b[i]
  {
    if a[m..] == b[m..] {
      forall i | m <= i < |a| ensures a[i] == b[i] {
        assert a[m..][i - m] == b[m..][i - m];
      }
    }
  }

  /** Exactly when a write keeps the last `cap` bytes: aligned, or the survivors happen to equal their own rotation. */
  lemma AgreesExactly(r: Ring, p: Text)
    requires r.Ok()
    ensures Agrees(r, p) <==> Aligned(r, p) || (forall i :: |p| <= i < r.cap ==> r.buf[i] == Turned(r, i))
  {
    if Aligned(r, p) {
      AlignedAgrees(r, p);
    } else {
      MisalignedReads(r, p);
      KeepsNewest(r, p);
      hide Wrote;
      SameFront(r.buf[|p|..], Read(r)[|p|..], p);
      SameFrom(r.buf, Read(r), |p|);
      assert forall i :: 0 <= i < r.cap ==> Read(r)[i] == Turned(r, i);
    }
  }

  /** Of a full buffer's shape alone: it agrees whatever it holds iff it is aligned. */
  lemma AgreesForAllContents(cap: nat, pos: nat, p: Text)
    requires pos < cap
    ensures (forall data :: |data| == cap ==> Agrees(Ring(data, true, pos, cap), p)) <==> |p| >= cap || pos == 0
  {
    hide Agrees;
    if |p| >= cap || pos == 0 {
      forall data | |data| == cap ensures Agrees(Ring(data, true, pos, cap), p) {
        AlignedAgrees(Ring(data, true, pos, cap), p);
      }
    } else {
      var data := Misread(cap, pos, p);
      assert |data| == cap;
    }
  }

  /** Contents that a misaligned write garbles. */
  lemma Misread(cap: nat, pos: nat, p: Text) returns (data: Text)
    requires 0 < pos < cap && |p| < cap
    ensures |data| == cap && !Agrees(Ring(data, true, pos, cap), p)
  {
    data := seq(cap, i => if i == cap - 1 then 1 else 0);
    var r := Ring(data, true, pos, cap);
    assert r.buf[cap - 1] == 1 && Turned(r, cap - 1) == 0;
    AgreesExactly(r, p);
  }

  // ---------- whole sequences of writes ----------

  function Flat(ps: seq<Text>): Text {
    if ps == [] then [] else Flat(ps[..|ps| - 1]) + ps[|ps| - 1]
  }

  function After(cap: nat, ps: seq<Text>): (r: Ring)
    ensures r.Ok() && r.cap == cap
  {
    if ps == [] then Fresh(cap) else Wrote(After(cap, ps[..|ps| - 1]), ps[|ps| - 1])
  }

  ghost predicate AllAligned(cap: nat, ps: seq<Text>) {
    forall k :: 0 <= k < |ps| ==> Aligned(After(cap, ps[..k]), ps[k])
  }

  /** A history of aligned writes leaves exactly the last `cap` bytes of everything written. */
  lemma {:induction false} AlignedHistory(cap: nat, ps: seq<Text>)
    requires AllAligned(cap, ps)
    ensures Read(After(cap, ps)) == Tail(Flat(ps), cap)
  {
    if ps == [] {
    } else {
      var before, p := ps[..|ps| - 1], ps[|ps| - 1];
      assert AllAligned(cap, before) by {
        assert forall k :: 0 <= k < |before| ==> before[..k] == ps[..k] && before[k] == ps[k];
      }
      AlignedHistory(cap, before);
      AlignedAgrees(After(cap, before), p);
      TailTwice(Flat(before), p, cap);
    }
  }

  lemma OneMore(cap: nat, ps: seq<Text>, p: Text)
    ensures After(cap, ps + [p]) == Wrote(After(cap, ps), p) && Flat(ps + [p]) == Flat(ps) + p
  {
    assert (ps + [p])[..|ps|] == ps;
  }

  const FIRST: Text := [1, 2, 3]
  const SECOND: Text := [4, 5, 6, 7]
  const THIRD: Text := [8]

  lemma SecondShortWrite()
    ensures After(6, [FIRST, SECOND]) == Ring([4, 5, 6, 7, 2, 3], true, 4, 6)
    ensures Flat([FIRST, SECOND]) == [1, 2, 3, 4, 5, 6, 7]
  {
    OneMore(6, [], FIRST);
    OneMore(6, [FIRST], SECOND);
    assert [] + [FIRST] == [FIRST] && [FIRST] + [SECOND] == [FIRST, SECOND];
  }

  /** A run of three short writes after which the buffer does not hold the last six bytes. */
  lemma ThirdShortWriteDrifts()
    ensures Read(After(6, [FIRST, SECOND, THIRD])) == [5, 6, 7, 2, 3, 8]
    ensures Tail(Flat([FIRST, SECOND, THIRD]), 6) == [3, 4, 5, 6, 7, 8]
  {
    SecondShortWrite();
    OneMore(6, [FIRST, SECOND], THIRD);
    hide After;
    hide Flat;
    assert [FIRST, SECOND] + [THIRD] == [FIRST, SECOND, THIRD];
    MixRead(Ring([4, 5, 6, 7, 2, 3], true, 4, 6), THIRD);
  }
}
