/** The text form of a ULID, as it appears in file names: 26 base-32 digits, strictly parsed. */
module UlidText {
  import opened Base

  const SIZE := 26

  function Pow32(k: nat): (p: nat)
    ensures p > 0
  {
    if k == 0 then 1 else 32 * Pow32(k - 1)
  }

  /** 128 bits: 26 digits of which the first is below 8. */
  predicate Fits(id: nat) {
    id < 8 * Pow32(SIZE - 1)
  }

  type Id = id: nat | Fits(id) witness 0

  function Upper(c: char): char {
    if 'a' <= c <= 'z' then (c as int - 32) as char else c
  }

  /** 0123456789ABCDEFGHJKMNPQRSTVWXYZ: digits and letters without I, L, O and U. */
  function DigitChar(d: nat): char
    requires d < 32
  {
    (if d < 10 then '0' as int + d
     else if d < 18 then 'A' as int + (d - 10)
     else if d < 20 then 'J' as int + (d - 18)
     else if d < 22 then 'M' as int + (d - 20)
     else if d < 27 then 'P' as int + (d - 22)
     else 'V' as int + (d - 27)) as char
  }

  /** Either letter case is accepted. */
  function DigitOf(c: char): (d: Option<nat>)
    ensures d.Some? ==> d.value < 32 && DigitChar(d.value) == Upper(c)
  {
    var u := Upper(c) as int;
    if '0' as int <= u <= '9' as int then Some(u - '0' as int)
    else if 'A' as int <= u <= 'H' as int then Some(10 + u - 'A' as int)
    else if 'J' as int <= u <= 'K' as int then Some(18 + u - 'J' as int)
    else if 'M' as int <= u <= 'N' as int then Some(20 + u - 'M' as int)
    else if 'P' as int <= u <= 'T' as int then Some(22 + u - 'P' as int)
    else if 'V' as int <= u <= 'Z' as int then Some(27 + u - 'V' as int)
    else None
  }

  /** Crockford's base 32. */
  const ALPHABET := "0123456789ABCDEFGHJKMNPQRSTVWXYZ"

  /** The digits are those of the alphabet, in its order; a lower-case letter counts as the upper-case one. */
  lemma DigitsAre(c: char, d: nat)
    requires d < 32
    ensures DigitChar(d) == ALPHABET[d]
    ensures DigitOf(c) == Some(d) <==> c == ALPHABET[d] || ('a' <= c <= 'z' && c - 'a' + 'A' == ALPHABET[d])
  {
  }

  lemma DigitBack(d: nat)
    requires d < 32
    ensures DigitOf(DigitChar(d)) == Some(d)
  {
  }

  function Digits(n: nat, k: nat): (s: string)
    ensures |s| == k
  {
    if k == 0 then "" else Digits(n / 32, k - 1) + [DigitChar(n % 32)]
  }

  function ToText(id: nat): string {
    Digits(id, SIZE)
  }

  /** The number after one more digit. */
  function Push(high: Option<nat>, low: Option<nat>): Option<nat> {
    if high.None? || low.None? then None else Some(high.value * 32 + low.value)
  }

  /** The number that the digits of `s` spell. */
  function Value(s: string): Option<nat> {
    if s == "" then Some(0)
    else Push(Value(s[..|s| - 1]), DigitOf(s[|s| - 1]))
  }

  function ParseStrict(s: string): Option<nat> {
    if |s| != SIZE || Value(s).None? || s[0] > '7' then None else Value(s)
  }

  lemma {:induction false} ValueOfDigits(n: nat, k: nat)
    requires n < Pow32(k)
    ensures Value(Digits(n, k)) == Some(n)
  {
    if k == 0 {
    } else {
      ValueOfDigits(n / 32, k - 1);
      DigitBack(n % 32);
      assert Digits(n, k)[..k - 1] == Digits(n / 32, k - 1);
    }
  }

  lemma {:induction false} FirstDigit(n: nat, k: nat)
    requires k > 0 && n < 8 * Pow32(k - 1)
    ensures Digits(n, k)[0] <= '7'
  {
    if k == 1 {
    } else {
      FirstDigit(n / 32, k - 1);
      assert Digits(n, k)[0] == Digits(n / 32, k - 1)[0];
    }
  }

  /** What the daemon writes as an id, it reads as that id. */
  lemma TextRoundTrip(id: nat)
    requires Fits(id)
    ensures ParseStrict(ToText(id)) == Some(id)
  {
    hide Pow32;
    hide Digits;
    hide Value;
    assert 8 * Pow32(SIZE - 1) <= Pow32(SIZE) by { PowStep(); }
    ValueOfDigits(id, SIZE);
    FirstDigit(id, SIZE);
  }

  lemma PowStep()
    ensures 8 * Pow32(SIZE - 1) <= Pow32(SIZE)
  {
  }

  function UpperAll(s: string): (u: string)
    ensures |u| == |s| && forall i :: 0 <= i < |s| ==> u[i] == Upper(s[i])
  {
    if s == "" then "" else UpperAll(s[..|s| - 1]) + [Upper(s[|s| - 1])]
  }

  lemma {:induction false} DigitsOfValue(s: string)
    requires Value(s).Some?
    ensures Digits(Value(s).value, |s|) == UpperAll(s)
  {
    hide DigitOf;
    hide DigitChar;
    hide Upper;
    if s == "" {
    } else {
      DigitsOfValue(s[..|s| - 1]);
      var high, low := Value(s[..|s| - 1]).value, DigitOf(s[|s| - 1]).value;
      assert (high * 32 + low) / 32 == high && (high * 32 + low) % 32 == low;
    }
  }

  lemma {:induction false} ValueBelow(s: string)
    requires s != "" && Value(s).Some? && DigitOf(s[0]).Some? && DigitOf(s[0]).value < 8
    ensures Value(s).value < 8 * Pow32(|s| - 1)
  {
    hide DigitOf;
    var init, last := s[..|s| - 1], DigitOf(s[|s| - 1]);
    if init == "" {
      assert Value(init) == Some(0) && s[|s| - 1] == s[0];
    } else {
      assert init[0] == s[0];
      ValueBelow(init);
      assert Value(s).value == Value(init).value * 32 + last.value && last.value < 32;
      assert Pow32(|s| - 1) == 32 * Pow32(|init| - 1);
    }
  }

  /** Whatever parses as an id is that id's text, up to letter case; it is the text itself iff it is upper case. */
  lemma TextReadBack(s: string)
    requires ParseStrict(s).Some?
    ensures Fits(ParseStrict(s).value) && ToText(ParseStrict(s).value) == UpperAll(s)
    ensures ToText(ParseStrict(s).value) == s <==> UpperAll(s) == s
  {
    hide Pow32;
    hide Digits;
    hide UpperAll;
    DigitsOfValue(s);
    FirstDigitKnown(s);
    FirstBelow8(s[0]);
    hide Value;
    ValueBelow(s);
  }

  lemma {:induction false} FirstDigitKnown(s: string)
    requires s != "" && Value(s).Some?
    ensures DigitOf(s[0]).Some?
  {
    hide DigitOf;
    if |s| == 1 {
    } else {
      FirstDigitKnown(s[..|s| - 1]);
    }
  }

  lemma FirstBelow8(c: char)
    requires DigitOf(c).Some? && c <= '7'
    ensures DigitOf(c).value < 8
  {
  }

  lemma UpperSame(c: char)
    ensures DigitOf(Upper(c)) == DigitOf(c) && (Upper(c) <= '7' <==> c <= '7')
  {
  }

  lemma ValuePush(s: string, c: char)
    ensures Value(s + [c]) == Push(Value(s), DigitOf(c)) && UpperAll(s + [c]) == UpperAll(s) + [Upper(c)]
  {
    hide DigitOf;
    hide Upper;
    assert (s + [c])[..|s|] == s;
  }

  lemma {:induction false} ValueOfUpper(s: string)
    ensures Value(UpperAll(s)) == Value(s)
  {
    if s == "" {
    } else {
      hide *;
      var init, c := s[..|s| - 1], s[|s| - 1];
      ValueOfUpper(init);
      UpperSame(c);
      assert s == init + [c];
      ValuePush(init, c);
      ValuePush(UpperAll(init), Upper(c));
    }
  }

  /** A text is read as an id exactly if it is, letter case apart, that id's own text. */
  lemma TextIff(s: string, id: nat)
    requires Fits(id)
    ensures ParseStrict(s) == Some(id) <==> UpperAll(s) == ToText(id)
  {
    if ParseStrict(s) == Some(id) {
      TextReadBack(s);
    }
    if UpperAll(s) == ToText(id) {
      TextRoundTrip(id);
      ValueOfUpper(s);
      UpperSame(s[0]);
      hide Value;
      hide Digits;
      hide Fits;
    }
  }

  // ---------- the timestamp ----------

  /** The timestamp is the first 48 of an id's 128 bits. */
  function TimeOf(id: Id): nat {
    id / 0x1_0000_0000_0000_0000_0000
  }

  lemma DivDiv(n: nat, b: nat)
    requires b > 0
    ensures n / 32 / b == n / (32 * b)
  {
    var q, r := n / 32 / b, n / 32 % b;
    assert n == 32 * (b * q + r) + n % 32;
    assert n == (32 * b) * q + (32 * r + n % 32) by {
      assert 32 * (b * q + r) == (32 * b) * q + 32 * r;
    }
    assert 32 * r + n % 32 < 32 * b;
    Quotient(n, 32 * b, q, 32 * r + n % 32);
  }

  lemma Quotient(n: nat, d: nat, q: nat, r: nat)
    requires r < d && n == d * q + r
    ensures n / d == q
  {
    AtLeastOnce(d, q - n / d);
    assert d * (q - n / d) == d * q - d * (n / d);
  }

  lemma AtLeastOnce(d: int, x: int)
    requires d >= 0
    ensures x > 0 ==> d * x >= d
    ensures x < 0 ==> d * x <= -d
  {
  }

  /** Leaving out the last `j` digits divides by 32 as many times. */
  lemma {:induction false} DigitsPrefix(n: nat, k: nat, j: nat)
    requires j <= k
    ensures Digits(n, k)[..k - j] == Digits(n / Pow32(j), k - j)
    decreases j
  {
    if j == 0 {
      assert n / Pow32(0) == n;
    } else {
      DigitsPrefix(n / 32, k - 1, j - 1);
      DivDiv(n, Pow32(j - 1));
      assert Digits(n, k)[..k - j] == Digits(n / 32, k - 1)[..k - 1 - (j - 1)];
    }
  }

  lemma Powers()
    ensures Pow32(10) == 0x4_0000_0000_0000
    ensures Pow32(16) == 0x1_0000_0000_0000_0000_0000
    ensures Pow32(25) == 0x2000_0000_0000_0000_0000_0000_0000_0000
  {
    assert Pow32(5) == 0x200_0000;
    assert Pow32(10) == 0x4_0000_0000_0000;
    assert Pow32(13) == 0x2_0000_0000_0000_0000;
    assert Pow32(16) == 0x1_0000_0000_0000_0000_0000;
    assert Pow32(20) == 0x10_0000_0000_0000_0000_0000_0000;
    assert Pow32(25) == 0x2000_0000_0000_0000_0000_0000_0000_0000;
  }

  /** It is what the first ten digits of the text spell. */
  lemma TimeIsPrefix(id: Id)
    ensures Value(ToText(id)[..10]) == Some(TimeOf(id))
  {
    hide Digits;
    hide Value;
    Powers();
    hide Pow32;
    DigitsPrefix(id, SIZE, 16);
    assert Fits(id) && SIZE - 1 == 25;
    assert TimeOf(id) < Pow32(10);
    ValueOfDigits(TimeOf(id), 10);
  }
}
