/** Shared vocabulary: optional values and the "gather" fold used by every global invariant. */
module Base {

  datatype Option<+T> = None | Some(value: T)

  function OptionSeq<T>(o: Option<T>): seq<T> {
    if o.Some? then [o.value] else []
  }

  function Last<T>(s: seq<T>): T
    requires |s| > 0
  {
    s[|s| - 1]
  }

  /** `s` without its element at `i`. */
  function Without<T>(s: seq<T>, i: nat): seq<T>
    requires i < |s|
  {
    s[..i] + s[i + 1..]
  }

  /** How often `x` occurs in `xs`. */
  ghost function Times<T>(xs: seq<T>, x: T): nat {
    multiset(xs)[x]
  }

  lemma TimesConcat<T>(a: seq<T>, b: seq<T>, x: T)
    ensures Times(a + b, x) == Times(a, x) + Times(b, x)
  {
    assert multiset(a + b) == multiset(a) + multiset(b);
  }

  /** Concatenation of what `f` finds in each element of `xs`, in order. */
  ghost function Gather<A, B>(xs: seq<A>, f: A -> seq<B>): seq<B> {
    if xs == [] then [] else f(xs[0]) + Gather(xs[1..], f)
  }

  lemma {:induction false} GatherConcat<A, B>(xs: seq<A>, ys: seq<A>, f: A -> seq<B>)
    ensures Gather(xs + ys, f) == Gather(xs, f) + Gather(ys, f)
  {
    if xs == [] {
      assert xs + ys == ys;
    } else {
      GatherConcat(xs[1..], ys, f);
      assert (xs + ys)[1..] == xs[1..] + ys;
    }
  }

  lemma GatherNil<A, B>(f: A -> seq<B>)
    ensures Gather([], f) == []
  {
  }

  lemma GatherOne<A, B>(x: A, f: A -> seq<B>)
    ensures Gather([x], f) == f(x)
  {
    assert Gather([x], f) == f(x) + Gather([x][1..], f);
  }

  lemma GatherAppend<A, B>(xs: seq<A>, x: A, f: A -> seq<B>)
    ensures Gather(xs + [x], f) == Gather(xs, f) + f(x)
    ensures f(x) == [] ==> Gather(xs + [x], f) == Gather(xs, f)
  {
    GatherConcat(xs, [x], f);
    GatherOne(x, f);
  }

  lemma GatherHead<A, B>(xs: seq<A>, f: A -> seq<B>)
    requires xs != []
    ensures Gather(xs, f) == f(xs[0]) + Gather(xs[1..], f)
    ensures f(xs[0]) == [] ==> Gather(xs, f) == Gather(xs[1..], f)
  {
  }

  /** The contribution of one position, split off from the rest. */
  lemma GatherSplit<A, B>(xs: seq<A>, i: nat, f: A -> seq<B>)
    requires i < |xs|
    ensures Gather(xs, f) == Gather(xs[..i], f) + f(xs[i]) + Gather(xs[i + 1..], f)
    ensures Gather(Without(xs, i), f) == Gather(xs[..i], f) + Gather(xs[i + 1..], f)
  {
    hide Gather;
    var before, after := xs[..i], xs[i + 1..];
    assert xs == (before + [xs[i]]) + after;
    GatherConcat(before + [xs[i]], after, f);
    GatherAppend(before, xs[i], f);
    GatherConcat(before, after, f);
  }

  lemma GatherUpdate<A, B>(xs: seq<A>, i: nat, x: A, f: A -> seq<B>)
    requires i < |xs|
    ensures Gather(xs[i := x], f) == Gather(xs[..i], f) + f(x) + Gather(xs[i + 1..], f)
  {
    hide Gather;
    GatherSplit(xs[i := x], i, f);
    assert xs[i := x][..i] == xs[..i];
    assert xs[i := x][i + 1..] == xs[i + 1..];
  }

  lemma GatherHas<A, B>(xs: seq<A>, x: A, f: A -> seq<B>)
    requires x in xs
    ensures |Gather(xs, f)| >= |f(x)|
    ensures f(x) != [] ==> Gather(xs, f) != []
  {
    var i :| 0 <= i < |xs| && xs[i] == x;
    GatherSplit(xs, i, f);
  }

  lemma {:induction false} GatherNone<A, B>(xs: seq<A>, f: A -> seq<B>)
    requires forall x :: x in xs ==> f(x) == []
    ensures Gather(xs, f) == []
  {
    if xs == [] {
    } else {
      GatherNone(xs[1..], f);
    }
  }

  /** If `g` only speaks where `f` speaks, silence of `f` is silence of `g`. */
  lemma GatherSilent<A, B, C>(xs: seq<A>, f: A -> seq<B>, g: A -> seq<C>)
    requires Gather(xs, f) == []
    requires forall x :: x in xs && f(x) == [] ==> g(x) == []
    ensures Gather(xs, g) == []
  {
    forall x | x in xs ensures g(x) == [] {
      GatherHas(xs, x, f);
    }
    GatherNone(xs, g);
  }

  /** When one element accounts for everything `f` finds, it accounts for everything `g` finds. */
  lemma GatherSolo<A, B, C>(xs: seq<A>, i: nat, f: A -> seq<B>, g: A -> seq<C>)
    requires i < |xs|
    requires |Gather(xs, f)| <= |f(xs[i])|
    requires forall x :: x in xs && f(x) == [] ==> g(x) == []
    ensures Gather(xs[..i], f) == [] && Gather(xs[i + 1..], f) == []
    ensures Gather(xs[..i], g) == [] && Gather(xs[i + 1..], g) == []
    ensures Gather(xs, f) == f(xs[i]) && Gather(xs, g) == g(xs[i])
    ensures Gather(Without(xs, i), f) == [] && Gather(Without(xs, i), g) == []
  {
    hide Gather;
    GatherSplit(xs, i, f);
    GatherSplit(xs, i, g);
    assert forall x :: x in xs[..i] ==> x in xs;
    assert forall x :: x in xs[i + 1..] ==> x in xs;
    GatherSilent(xs[..i], f, g);
    GatherSilent(xs[i + 1..], f, g);
  }

  lemma {:induction false} GatherPointwise<A, B>(xs: seq<A>, ys: seq<A>, f: A -> seq<B>)
    requires |xs| == |ys|
    requires forall i :: 0 <= i < |xs| ==> f(xs[i]) == f(ys[i])
    ensures Gather(xs, f) == Gather(ys, f)
  {
    if xs == [] {
    } else {
      assert f(xs[0]) == f(ys[0]);
      GatherPointwise(xs[1..], ys[1..], f);
    }
  }

  /** Sum of the weights of the elements. */
  ghost function Total<A>(xs: seq<A>, w: A -> nat): nat {
    if xs == [] then 0 else w(xs[0]) + Total(xs[1..], w)
  }

  lemma {:induction false} TotalConcat<A>(xs: seq<A>, ys: seq<A>, w: A -> nat)
    ensures Total(xs + ys, w) == Total(xs, w) + Total(ys, w)
  {
    if xs == [] {
      assert xs + ys == ys;
    } else {
      TotalConcat(xs[1..], ys, w);
      assert (xs + ys)[1..] == xs[1..] + ys;
    }
  }

  lemma TotalAppend<A>(xs: seq<A>, x: A, w: A -> nat)
    ensures Total(xs + [x], w) == Total(xs, w) + w(x)
  {
    TotalConcat(xs, [x], w);
    assert Total([x], w) == w(x) + Total([x][1..], w);
  }

  lemma TotalSplit<A>(xs: seq<A>, i: nat, w: A -> nat)
    requires i < |xs|
    ensures Total(xs, w) == Total(Without(xs, i), w) + w(xs[i])
  {
    hide Total;
    var before, after := xs[..i], xs[i + 1..];
    assert xs == (before + [xs[i]]) + after;
    TotalConcat(before + [xs[i]], after, w);
    TotalAppend(before, xs[i], w);
    TotalConcat(before, after, w);
  }

  lemma TotalUpdate<A>(xs: seq<A>, i: nat, x: A, w: A -> nat)
    requires i < |xs|
    ensures Total(xs[i := x], w) + w(xs[i]) == Total(xs, w) + w(x)
  {
    hide Total;
    TotalSplit(xs, i, w);
    TotalSplit(xs[i := x], i, w);
    assert Without(xs[i := x], i) == Without(xs, i);
  }

  lemma {:induction false} TotalPointwise<A>(xs: seq<A>, ys: seq<A>, w: A -> nat)
    requires |xs| == |ys|
    requires forall i :: 0 <= i < |xs| ==> w(xs[i]) == w(ys[i])
    ensures Total(xs, w) == Total(ys, w)
  {
    if xs == [] {
    } else {
      assert w(xs[0]) == w(ys[0]);
      TotalPointwise(xs[1..], ys[1..], w);
    }
  }
}
