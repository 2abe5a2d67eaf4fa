/**
 * Decoding UTF-8 with replacement: the UTF-8 decoder of the Encoding Standard, which turns every ill-formed
 * stretch of bytes into U+FFFD.
 */
module Utf8 {
  import opened Bytes
  import opened JsText

  const REPLACEMENT: char := '\U{FFFD}'

  /** `more` bytes of the current character are still to come; the next one must lie between `lo` and `hi`. */
  datatype State = Start | Partial(more: nat, code: nat, lo: nat, hi: nat)

  /** Every number from `a` to `b` is a Unicode scalar value. */
  predicate Scalars(a: nat, b: nat) {
    b < 0xD800 || (0xE000 <= a && b < 0x11_0000)
  }

  /** Whatever continuation follows, the character that comes out is one. */
  predicate Valid(st: State) {
    match st
    case Start => true
    case Partial(more, code, lo, hi) =>
      && 0x80 <= lo <= hi <= 0xBF
      && var first, last := code * 64 + lo - 0x80, code * 64 + hi - 0x80;
         match more {
           case 1 => Scalars(first, last)
           case 2 => Scalars(first * 64, last * 64 + 63)
           case 3 => Scalars(first * 4096, last * 4096 + 4095)
           case _ => false
         }
  }

  /** A byte that begins a character, or none. */
  function Begin(b: Byte): (r: (string, State))
    ensures Valid(r.1)
  {
    var n := b as int;
    if n < 0x80 then ([n as char], Start)
    else if 0xC2 <= n < 0xE0 then ("", Partial(1, n - 0xC0, 0x80, 0xBF))
    else if 0xE0 <= n < 0xF0 then
      ("", Partial(2, n - 0xE0, if n == 0xE0 then 0xA0 else 0x80, if n == 0xED then 0x9F else 0xBF))
    else if 0xF0 <= n < 0xF5 then
      ("", Partial(3, n - 0xF0, if n == 0xF0 then 0x90 else 0x80, if n == 0xF4 then 0x8F else 0xBF))
    else ([REPLACEMENT], Start)
  }

  /** One byte: a character, a step further, or a replacement; then the byte is looked at again as a beginning. */
  function Feed(st: State, b: Byte): (r: (string, State))
    requires Valid(st)
    ensures Valid(r.1)
  {
    var n := b as int;
    if st.Start? then Begin(b)
    else if !(st.lo <= n <= st.hi) then
      var (out, next) := Begin(b);
      ([REPLACEMENT] + out, next)
    else
      var code := st.code * 64 + n - 0x80;
      if st.more == 1 then ([code as char], Start) else ("", Partial(st.more - 1, code, 0x80, 0xBF))
  }

  /** What a text gives, and where it leaves the decoder. */
  function Scan(st: State, t: Text): (r: (string, State))
    requires Valid(st)
    ensures Valid(r.1)
    decreases |t|
  {
    if t == [] then ("", st)
    else
      var (out, next) := Feed(st, t[0]);
      var (rest, end) := Scan(next, t[1..]);
      (out + rest, end)
  }

  /** A character that is cut off at the end is replaced too. */
  function Flush(st: State): string {
    if st.Start? then "" else [REPLACEMENT]
  }

  function Decode(t: Text): string {
    var (out, end) := Scan(Start, t);
    out + Flush(end)
  }

  // ---------- texts put together ----------

  lemma {:induction false} ScanConcat(st: State, a: Text, b: Text)
    requires Valid(st)
    ensures var (out, mid) := Scan(st, a); var (rest, end) := Scan(mid, b);
      Scan(st, a + b) == (out + rest, end)
    decreases |a|
  {
    hide Feed;
    hide Valid;
    if a == [] {
      assert a + b == b && "" + Scan(st, b).0 == Scan(st, b).0;
    } else {
      assert (a + b)[1..] == a[1..] + b;
      var (head, next) := Feed(st, a[0]);
      ScanConcat(next, a[1..], b);
      var (out, mid) := Scan(next, a[1..]);
      var (rest, end) := Scan(mid, b);
      assert head + (out + rest) == (head + out) + rest;
    }
  }

  /** A text that ends on a whole character does not disturb what follows it. */
  lemma DecodeJoins(a: Text, b: Text)
    requires Scan(Start, a).1.Start?
    ensures Decode(a + b) == Decode(a) + Decode(b)
  {
    hide Scan;
    ScanConcat(Start, a, b);
    var (out, mid) := Scan(Start, a);
    var (rest, end) := Scan(Start, b);
    assert Decode(a + b) == (out + rest) + Flush(end);
    assert Decode(a) == out + "" == out;
  }

  /** A character cut off at the end shows as a replacement, which is no white space. */
  lemma CutOffShows(a: Text)
    requires !Scan(Start, a).1.Start?
    ensures !IsBlank(Decode(a))
  {
    assert Decode(a)[|Scan(Start, a).0|] == REPLACEMENT;
  }

  /** White space only: so nothing was replaced, and the last character is whole. */
  lemma BlankIsWhole(a: Text)
    requires IsBlank(Decode(a))
    ensures Scan(Start, a).1.Start?
  {
    if !Scan(Start, a).1.Start? {
      CutOffShows(a);
    }
  }

  // ---------- what it is for ----------

  /** The UTF-8 form of a character. */
  function Encode(c: char): Text {
    var n := c as int;
    if n < 0x80 then [n as Byte]
    else if n < 0x800 then [(0xC0 + n / 64) as Byte, (0x80 + n % 64) as Byte]
    else if n < 0x1_0000 then
      [(0xE0 + n / 4096) as Byte, (0x80 + n / 64 % 64) as Byte, (0x80 + n % 64) as Byte]
    else
      [(0xF0 + n / 262144) as Byte, (0x80 + n / 4096 % 64) as Byte,
       (0x80 + n / 64 % 64) as Byte, (0x80 + n % 64) as Byte]
  }

  function EncodeAll(s: string): Text {
    if s == "" then [] else Encode(s[0]) + EncodeAll(s[1..])
  }

  lemma ScanOne(st: State, b: Byte)
    requires Valid(st)
    ensures Scan(st, [b]) == Feed(st, b)
  {
    var (out, next) := Feed(st, b);
    assert Scan(next, [b][1..]) == ("", next);
    assert out + "" == out;
  }

  /** One byte after another. */
  lemma ScanCons(st: State, b: Byte, t: Text)
    requires Valid(st)
    ensures var (out, next) := Feed(st, b); var (rest, end) := Scan(next, t);
      Scan(st, [b] + t) == (out + rest, end) && (out == "" ==> Scan(st, [b] + t) == (rest, end))
  {
    assert ([b] + t)[1..] == t;
    var (rest, _) := Scan(Feed(st, b).1, t);
    assert "" + rest == rest;
  }

  lemma EncodedIsRead(c: char)
    ensures Scan(Start, Encode(c)) == ([c], Start)
  {
    var n, t := c as int, Encode(c);
    if n < 0x80 {
      ScanOne(Start, t[0]);
    } else if n < 0x800 {
      var a := Partial(1, n / 64, 0x80, 0xBF);
      assert Feed(Start, t[0]) == ("", a) && Feed(a, t[1]) == ([c], Start);
      assert t == [t[0]] + [t[1]];
      ScanOne(a, t[1]);
      ScanCons(Start, t[0], [t[1]]);
    } else if n < 0x1_0000 {
      ThreeRead(c);
    } else {
      FourRead(c);
    }
  }

  lemma ThreeBegin(n: nat, b0: Byte, b1: Byte)
    requires 0x20 <= n < 0x400 && !(0x360 <= n < 0x380) && b0 as int == 0xE0 + n / 64 && b1 as int == 0x80 + n % 64
    ensures Feed(Start, b0).0 == "" && Feed(Feed(Start, b0).1, b1) == ("", Partial(1, n, 0x80, 0xBF))
  {
    var st := Feed(Start, b0).1;
    assert st.more == 2 && st.code == n / 64 && st.lo <= b1 as int <= st.hi;
  }

  lemma ThreeFeeds(c: char)
    requires 0x800 <= c as int < 0x1_0000
    ensures var n, t := c as int, Encode(c); var (out, a) := Feed(Start, t[0]);
      && out == "" && Feed(a, t[1]) == ("", Partial(1, n / 64, 0x80, 0xBF))
      && Feed(Partial(1, n / 64, 0x80, 0xBF), t[2]) == ([c], Start)
  {
    var n, t := c as int, Encode(c);
    assert n / 4096 == n / 64 / 64 && n / 64 * 64 + n % 64 == n;
    ThreeBegin(n / 64, t[0], t[1]);
    hide Begin;
  }

  lemma ThreeRead(c: char)
    requires 0x800 <= c as int < 0x1_0000
    ensures Scan(Start, Encode(c)) == ([c], Start)
  {
    var n, t := c as int, Encode(c);
    ThreeFeeds(c);
    var (_, a) := Feed(Start, t[0]);
    var b := Feed(a, t[1]).1;
    assert t == [t[0]] + ([t[1]] + [t[2]]);
    hide Encode;
    hide Feed;
    hide Scan;
    ScanOne(b, t[2]);
    ScanCons(a, t[1], [t[2]]);
    ScanCons(Start, t[0], [t[1]] + [t[2]]);
  }

  /** The groups of six bits that the four bytes carry. */
  lemma Groups(n: nat)
    requires 0x1_0000 <= n < 0x11_0000
    ensures 16 <= n / 4096 < 272 && n / 262144 <= 4
    ensures n / 262144 * 64 + n / 4096 % 64 == n / 4096
    ensures n / 4096 * 64 + n / 64 % 64 == n / 64
    ensures n / 64 * 64 + n % 64 == n
  {
  }

  lemma FourBegin(n: nat, b0: Byte, b1: Byte)
    requires 16 <= n < 272 && b0 as int == 0xF0 + n / 64 && b1 as int == 0x80 + n % 64
    ensures Feed(Start, b0).0 == "" && Feed(Feed(Start, b0).1, b1) == ("", Partial(2, n, 0x80, 0xBF))
  {
    var st := Feed(Start, b0).1;
    assert st.more == 3 && st.code == n / 64 && st.lo <= b1 as int <= st.hi;
  }

  /** How the four bytes move the decoder on. */
  lemma FourFeeds(c: char)
    requires 0x1_0000 <= c as int
    ensures var n, t := c as int, Encode(c); var (out, a) := Feed(Start, t[0]);
      && out == "" && Feed(a, t[1]) == ("", Partial(2, n / 4096, 0x80, 0xBF))
      && Feed(Partial(2, n / 4096, 0x80, 0xBF), t[2]) == ("", Partial(1, n / 64, 0x80, 0xBF))
      && Feed(Partial(1, n / 64, 0x80, 0xBF), t[3]) == ([c], Start)
  {
    var n, t := c as int, Encode(c);
    Groups(n);
    FourBegin(n / 4096, t[0], t[1]);
    hide Begin;
  }

  lemma FourRead(c: char)
    requires 0x1_0000 <= c as int
    ensures Scan(Start, Encode(c)) == ([c], Start)
  {
    var n, t := c as int, Encode(c);
    FourFeeds(c);
    var (_, a) := Feed(Start, t[0]);
    var b, d := Feed(a, t[1]).1, Feed(Feed(a, t[1]).1, t[2]).1;
    assert t == [t[0]] + ([t[1]] + ([t[2]] + [t[3]]));
    hide Encode;
    hide Feed;
    hide Scan;
    ScanOne(d, t[3]);
    ScanCons(b, t[2], [t[3]]);
    ScanCons(a, t[1], [t[2]] + [t[3]]);
    ScanCons(Start, t[0], [t[1]] + ([t[2]] + [t[3]]));
  }

  lemma {:induction false} AllRead(s: string)
    ensures Scan(Start, EncodeAll(s)) == (s, Start)
  {
    hide Scan;
    hide Encode;
    if s == "" {
      NoneRead();
    } else {
      AllRead(s[1..]);
      EncodedIsRead(s[0]);
      ScanConcat(Start, Encode(s[0]), EncodeAll(s[1..]));
      assert s == [s[0]] + s[1..];
    }
  }

  lemma NoneRead()
    ensures Scan(Start, []) == ("", Start)
  {
  }

  /** Every text of Unicode characters survives its UTF-8 form. */
  lemma TextSurvives(s: string)
    ensures Decode(EncodeAll(s)) == s
  {
    hide Scan;
    AllRead(s);
    assert s + "" == s;
  }

  // ---------- and back ----------

  /** Reading on from `st`, nothing is replaced. */
  predicate Clean(st: State, t: Text)
    requires Valid(st)
  {
    REPLACEMENT !in Scan(st, t).0 && Scan(st, t).1.Start?
  }

  /** So the text does not end inside a character, nor does a character break off. */
  lemma CleanGoesOn(st: State, t: Text)
    requires Valid(st)
    ensures Clean(st, t) && st.Partial? ==> t != [] && st.lo <= t[0] as int <= st.hi
  {
    hide Begin;
    hide Valid;
    if t != [] && st.Partial? && !(st.lo <= t[0] as int <= st.hi) {
      var (out, next) := Feed(st, t[0]);
      assert out[0] == REPLACEMENT;
      assert Scan(st, t).0[0] == REPLACEMENT;
    }
  }

  lemma CleanStep(st: State, t: Text)
    requires Valid(st) && Clean(st, t) && (t != [] || st.Partial?)
    ensures t != [] && REPLACEMENT !in Feed(st, t[0]).0 && Clean(Feed(st, t[0]).1, t[1..])
    ensures st.Partial? ==> st.lo <= t[0] as int <= st.hi
  {
    hide Feed;
    hide Valid;
    CleanGoesOn(st, t);
    var (out, next) := Feed(st, t[0]);
    var (rest, end) := Scan(next, t[1..]);
    assert Scan(st, t) == (out + rest, end);
  }

  /** Code points from the bits in a lead byte and in the bytes that continue it. */
  lemma TwoBytes(a: nat, x: nat)
    requires 2 <= a < 0x20 && x < 64
    ensures Encode((a * 64 + x) as char) == [(0xC0 + a) as Byte, (0x80 + x) as Byte]
  {
    assert (a * 64 + x) / 64 == a && (a * 64 + x) % 64 == x;
  }

  lemma ThreeBytes(a: nat, x: nat, y: nat)
    requires a < 0x10 && x < 64 && y < 64 && 0x20 <= a * 64 + x && !(0x360 <= a * 64 + x < 0x380)
    ensures var n := (a * 64 + x) * 64 + y;
      Scalars(n, n) && Encode(n as char) == [(0xE0 + a) as Byte, (0x80 + x) as Byte, (0x80 + y) as Byte]
  {
    var n := (a * 64 + x) * 64 + y;
    assert n / 64 == a * 64 + x && n % 64 == y && n / 4096 == a && (a * 64 + x) % 64 == x;
  }

  lemma FourBytes(a: nat, x: nat, y: nat, z: nat)
    requires a < 5 && x < 64 && y < 64 && z < 64 && 0x10 <= a * 64 + x < 0x110
    ensures var n := ((a * 64 + x) * 64 + y) * 64 + z;
      && Scalars(n, n)
      && Encode(n as char) == [(0xF0 + a) as Byte, (0x80 + x) as Byte, (0x80 + y) as Byte, (0x80 + z) as Byte]
  {
    var k := a * 64 + x;
    var n := (k * 64 + y) * 64 + z;
    assert n / 64 == k * 64 + y && n % 64 == z && n / 4096 == k && (k * 64 + y) % 64 == y;
    assert n / 262144 == a && k % 64 == x;
  }

  /** A text that begins well begins with the UTF-8 form of a character. */
  lemma LeadingCharacter(t: Text) returns (c: char)
    requires t != [] && Clean(Start, t)
    ensures Encode(c) <= t
  {
    hide Encode;
    hide Clean;
    CleanStep(Start, t);
    var n, st := t[0] as int, Feed(Start, t[0]).1;
    if n < 0x80 {
      c := n as char;
      OneByte(n);
      assert [t[0]] <= t;
    } else {
      assert st.Partial?;
      CleanStep(st, t[1..]);
      var x := t[1] as int - 0x80;
      if n < 0xE0 {
        TwoBytes(n - 0xC0, x);
        c := ((n - 0xC0) * 64 + x) as char;
      } else {
        var st2 := Feed(st, t[1]).1;
        CleanStep(st2, t[2..]);
        var y := t[2] as int - 0x80;
        if n < 0xF0 {
          ThreeBytes(n - 0xE0, x, y);
          c := (((n - 0xE0) * 64 + x) * 64 + y) as char;
        } else {
          CleanStep(Feed(st2, t[2]).1, t[3..]);
          var z := t[3] as int - 0x80;
          FourBytes(n - 0xF0, x, y, z);
          c := ((((n - 0xF0) * 64 + x) * 64 + y) * 64 + z) as char;
        }
      }
    }
  }

  lemma OneByte(n: nat)
    requires n < 0x80
    ensures Encode(n as char) == [n as Byte]
  {
  }

  lemma {:induction false} CleanIsEncoded(t: Text)
    requires Clean(Start, t)
    ensures t == EncodeAll(Scan(Start, t).0)
    decreases |t|
  {
    hide Scan;
    hide Encode;
    if t == [] {
      NoneRead();
    } else {
      var c := LeadingCharacter(t);
      var rest := t[|Encode(c)|..];
      assert t == Encode(c) + rest;
      EncodedIsRead(c);
      ScanConcat(Start, Encode(c), rest);
      NotEmpty(c);
      CleanIsEncoded(rest);
      assert ([c] + Scan(Start, rest).0)[1..] == Scan(Start, rest).0;
    }
  }

  lemma NotEmpty(c: char)
    ensures Encode(c) != []
  {
  }

  lemma CutOffReplaced(t: Text)
    ensures REPLACEMENT !in Decode(t) ==> Scan(Start, t).1.Start?
  {
    hide Scan;
    if !Scan(Start, t).1.Start? {
      assert Decode(t)[|Scan(Start, t).0|] == REPLACEMENT;
    }
  }

  /** A byte string in which nothing had to be replaced is the UTF-8 form of what it reads as: no error goes unseen. */
  lemma CleanReadsBack(t: Text)
    requires REPLACEMENT !in Decode(t)
    ensures EncodeAll(Decode(t)) == t
  {
    hide Scan;
    hide EncodeAll;
    CutOffReplaced(t);
    assert Scan(Start, t).0 + "" == Scan(Start, t).0;
    CleanIsEncoded(t);
  }
}
