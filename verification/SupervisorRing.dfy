/** The supervisor's stderr capture: a byte-wise circular buffer. */
module SupervisorRing {
  import opened Bytes

  const DEFAULT_CAP := 4096

  /** The bytes of a full buffer in write order, the oldest at `pos`. */
  function Unroll(data: Text, pos: nat): Text
    requires pos <= |data|
  {
    data[pos..] + data[..pos]
  }

  lemma Wraps(pos: nat, n: nat)
    requires pos < n
    ensures (pos + 1) % n == if pos + 1 == n then 0 else pos + 1
  {
  }

  /** Overwriting the oldest byte drops it and appends the new one. */
  lemma UnrollPush(data: Text, pos: nat, next: nat, b: Byte)
    requires pos < |data| && next == if pos + 1 == |data| then 0 else pos + 1
    ensures Unroll(data[pos := b], next) == Unroll(data, pos)[1..] + [b]
  {
    var now := data[pos := b];
    assert now[..pos] == data[..pos];
    assert now[pos + 1..] == data[pos + 1..];
    assert now == data[..pos] + [b] + data[pos + 1..];
    assert Unroll(data, pos)[1..] == data[pos + 1..] + data[..pos];
  }

  class RingBuf {
    var buf: array?<Byte>
    var len: nat
    var cap: nat
    var pos: nat
    ghost var written: Text

    ghost predicate Valid()
      reads this, buf
    {
      if buf == null then
        written == [] && len == 0 && pos == 0
      else
        && cap == buf.Length > 0 && len <= cap
        && (if len < cap then pos == 0 && buf[..len] == written
            else pos < cap <= |written| && Unroll(buf[..], pos) == Tail(written, cap))
    }

    constructor (cap: nat)
      ensures Valid() && this.cap == cap && written == [] && buf == null
    {
      buf, len, this.cap, pos, written := null, 0, cap, 0, [];
    }

    /** The first write settles the capacity and allocates the buffer. */
    method Prepare()
      requires Valid()
      modifies this
      ensures Valid() && buf != null && (buf == old(buf) || fresh(buf)) && written == old(written)
      ensures cap == if old(cap) == 0 then DEFAULT_CAP else old(cap)
    {
      if cap == 0 {
        cap := DEFAULT_CAP;
      }
      if buf == null {
        buf := new Byte[cap];
      }
    }

    method Write(p: Text) returns (n: nat)
      requires Valid()
      modifies this, buf
      ensures Valid() && n == |p| && written == old(written) + p
      ensures cap == if old(cap) == 0 then DEFAULT_CAP else old(cap)
      ensures buf == old(buf) || fresh(buf)
    {
      hide Valid;
      Prepare();
      for i := 0 to |p|
        invariant buf != null && (buf == old(buf) || fresh(buf)) && Valid()
        invariant written == old(written) + p[..i]
        invariant cap == if old(cap) == 0 then DEFAULT_CAP else old(cap)
      {
        Put(p[i]);
        assert p[..i + 1] == p[..i] + [p[i]];
      }
      assert p[..|p|] == p;
      return |p|;
    }

    /** The body of the write loop. */
    method Put(b: Byte)
      requires Valid() && buf != null
      modifies this, buf
      ensures Valid() && buf == old(buf) && cap == old(cap) && written == old(written) + [b]
    {
      TailPush(written, b, cap);
      ghost var before := buf[..];
      if len < cap {
        buf[len] := b;
        assert buf[..len] == before[..len];
        len := len + 1;
        assert len == cap ==> buf[..] == buf[..len] && Unroll(buf[..], 0) == buf[..];
      } else {
        Wraps(pos, cap);
        UnrollPush(before, pos, (pos + 1) % cap, b);
        buf[pos] := b;
        assert buf[..] == before[pos := b];
        pos := (pos + 1) % cap;
      }
      written := written + [b];
    }

    /** The last `cap` bytes ever written, in order. */
    method String() returns (s: Text)
      requires Valid()
      ensures s == Tail(written, cap)
    {
      if len < cap {
        return if buf == null then [] else buf[..len];
      }
      if buf == null {
        return [];
      }
      var out := new Byte[cap];
      Copy(out, 0, buf, pos, cap - pos);
      Copy(out, cap - pos, buf, 0, pos);
      assert out[..] == out[..cap - pos] + out[cap - pos..];
      return out[..];
    }
  }

  /** Go's copy between two different slices. */
  method Copy(dst: array<Byte>, at: nat, src: array<Byte>, from: nat, n: nat)
    requires dst != src && at + n <= dst.Length && from + n <= src.Length
    modifies dst
    ensures dst[..at] == old(dst[..at]) && dst[at + n..] == old(dst[at + n..])
    ensures dst[at..at + n] == src[from..from + n]
  {
    forall i | 0 <= i < n {
      dst[at + i] := src[from + i];
    }
    assert forall i :: at <= i < at + n ==> dst[i] == src[from + (i - at)];
  }
}
