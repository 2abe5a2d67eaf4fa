/** Byte strings. */
module Bytes {
  newtype Byte = x: int | 0 <= x < 0x100

  type Text = seq<Byte>

  /** The last `n` bytes of `s`, or all of it. */
  function Tail(s: Text, n: nat): (t: Text)
    ensures |t| == if |s| <= n then |s| else n
  {
    if |s| <= n then s else s[|s| - n..]
  }

  lemma TailTwice(a: Text, b: Text, n: nat)
    ensures Tail(Tail(a, n) + b, n) == Tail(a + b, n)
  {
    if |a| > n {
      assert a == a[..|a| - n] + Tail(a, n);
      assert a + b == a[..|a| - n] + (Tail(a, n) + b);
    }
  }

  lemma TailPush(s: Text, b: Byte, n: nat)
    requires n > 0
    ensures Tail(s + [b], n) == if |s| < n then s + [b] else Tail(s, n)[1..] + [b]
  {
  }
}
