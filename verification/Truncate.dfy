/** Cutting a child's stderr for an error message, without splitting a UTF-8 rune. */
module Truncate {
  import opened Bytes
  import Utf8

  /** The UTF-8 form of U+2026. */
  const ELLIPSIS: Text := [0xE2, 0x80, 0xA6]

  /** The two top bits are 10: the byte continues a rune. */
  predicate Continues(b: Byte) {
    0x80 <= b < 0xC0
  }

  /** `m` is the cut the loop ends at: no byte after it, up to `n`, starts a rune. */
  predicate IsCut(s: Text, n: nat, m: nat)
    requires n < |s|
  {
    && m <= n
    && (m > 0 ==> !Continues(s[m]))
    && forall j :: m < j <= n ==> Continues(s[j])
  }

  method Truncate(s: Text, n: nat) returns (r: Text)
    ensures |s| <= n ==> r == s
    ensures |s| > n ==> exists m: nat :: IsCut(s, n, m) && r == s[..m] + ELLIPSIS
  {
    if |s| <= n {
      return s;
    }
    var m: nat := n;
    while m > 0 && Continues(s[m])
      invariant m <= n
      invariant forall j :: m < j <= n ==> Continues(s[j])
    {
      m := m - 1;
    }
    assert IsCut(s, n, m);
    r := s[..m] + ELLIPSIS;
  }

  /** One encoded rune: a byte that starts it, then bytes that continue it. */
  predicate IsRune(r: Text) {
    r != [] && !Continues(r[0]) && forall i :: 0 < i < |r| ==> Continues(r[i])
  }

  function Flat(runes: seq<Text>): Text {
    if runes == [] then [] else runes[0] + Flat(runes[1..])
  }

  /** On well-formed text the cut keeps whole runes, and as many as fit. */
  lemma {:induction false} CutKeepsWholeRunes(runes: seq<Text>, n: nat, m: nat) returns (k: nat)
    requires forall i :: 0 <= i < |runes| ==> IsRune(runes[i])
    requires n < |Flat(runes)| && IsCut(Flat(runes), n, m)
    ensures k < |runes| && Flat(runes)[..m] == Flat(runes[..k])
    ensures |Flat(runes[..k])| <= n < |Flat(runes[..k + 1])|
  {
    var s, first, rest := Flat(runes), runes[0], Flat(runes[1..]);
    assert runes[..1] == [first] && Flat([first][1..]) == [];
    if n < |first| {
      k := 0;
    } else {
      assert rest[0] == runes[1][0];
      assert !Continues(s[|first|]);
      assert IsCut(rest, n - |first|, m - |first|) by {
        assert forall j :: 0 <= j < |rest| ==> rest[j] == s[|first| + j];
      }
      var k1 := CutKeepsWholeRunes(runes[1..], n - |first|, m - |first|);
      k := k1 + 1;
      assert runes[..k][1..] == runes[1..][..k1] && runes[..k + 1][1..] == runes[1..][..k1 + 1];
      assert s[..m] == first + rest[..m - |first|];
    }
  }

  // ---------- Unicode text ----------

  /** The UTF-8 forms of the characters, one by one. */
  function Runes(s: string): (r: seq<Text>)
    ensures |r| == |s| && forall i :: 0 <= i < |s| ==> r[i] == Utf8.Encode(s[i])
  {
    if s == "" then [] else [Utf8.Encode(s[0])] + Runes(s[1..])
  }

  lemma EncodedIsRune(c: char)
    ensures IsRune(Utf8.Encode(c))
  {
  }

  lemma {:induction false} FlatIsEncoded(s: string, k: nat)
    requires k <= |s|
    ensures Flat(Runes(s)[..k]) == Utf8.EncodeAll(s[..k])
    decreases k
  {
    hide Runes;
    if k == 0 {
    } else {
      FlatIsEncoded(s[1..], k - 1);
      var r := Runes(s)[..k];
      assert r[1..] == Runes(s[1..])[..k - 1];
      assert s[..k][1..] == s[1..][..k - 1];
    }
  }

  lemma {:induction false} EncodeAppend(s: string, c: char)
    ensures Utf8.EncodeAll(s + [c]) == Utf8.EncodeAll(s) + Utf8.Encode(c)
  {
    if s == "" {
      assert ("" + [c])[1..] == "" && "" + [c] == [c];
    } else {
      EncodeAppend(s[1..], c);
      assert (s + [c])[1..] == s[1..] + [c];
    }
  }

  lemma EllipsisIs()
    ensures Utf8.Encode('\U{2026}') == ELLIPSIS
  {
  }

  /** A text that is cut reads as its longest beginning of at most `n` bytes, and an ellipsis. */
  lemma TextCut(s: string, n: nat, m: nat) returns (k: nat)
    requires n < |Utf8.EncodeAll(s)| && IsCut(Utf8.EncodeAll(s), n, m)
    ensures k < |s| && |Utf8.EncodeAll(s[..k])| <= n < |Utf8.EncodeAll(s[..k + 1])|
    ensures Utf8.Decode(Utf8.EncodeAll(s)[..m] + ELLIPSIS) == s[..k] + "\U{2026}"
  {
    hide Utf8.Decode;
    hide Utf8.EncodeAll;
    hide Utf8.Encode;
    hide Runes;
    hide Flat;
    hide IsCut;
    hide IsRune;
    var runes := Runes(s);
    forall i | 0 <= i < |s| ensures IsRune(runes[i]) {
      EncodedIsRune(s[i]);
    }
    assert runes[..|s|] == runes && s[..|s|] == s;
    FlatIsEncoded(s, |s|);
    k := CutKeepsWholeRunes(runes, n, m);
    FlatIsEncoded(s, k);
    FlatIsEncoded(s, k + 1);
    EncodeAppend(s[..k], '\U{2026}');
    EllipsisIs();
    Utf8.TextSurvives(s[..k] + "\U{2026}");
  }
}
