/** The pieces of JavaScript's string library that the app relies on. */
module JsText {

  /** What `trim` strips: white space and line terminators of ECMAScript. */
  predicate IsSpace(c: char) {
    || c == ' ' || '\t' <= c <= '\r' || c == '\U{00A0}' || c == '\U{FEFF}' || c == '\U{1680}'
    || '\U{2000}' <= c <= '\U{200A}' || c == '\U{2028}' || c == '\U{2029}' || c == '\U{202F}'
    || c == '\U{205F}' || c == '\U{3000}'
  }

  /** Tab, line feed, vertical tab, form feed, carriage return; the byte order mark; and Unicode's space separators. */
  const SPACES := {
    0x09, 0x0A, 0x0B, 0x0C, 0x0D, 0x20, 0xA0, 0x1680, 0x2000, 0x2001, 0x2002, 0x2003, 0x2004, 0x2005, 0x2006, 0x2007,
    0x2008, 0x2009, 0x200A, 0x2028, 0x2029, 0x202F, 0x205F, 0x3000, 0xFEFF}

  lemma SpacesAre(c: char)
    ensures IsSpace(c) <==> c as int in SPACES
  {
  }

  function TrimStart(s: string): (t: string)
    ensures t == "" || !IsSpace(t[0])
  {
    if s != "" && IsSpace(s[0]) then TrimStart(s[1..]) else s
  }

  function TrimEnd(s: string): (t: string)
    ensures t == "" || !IsSpace(t[|t| - 1])
    ensures t <= s
  {
    if s != "" && IsSpace(s[|s| - 1]) then TrimEnd(s[..|s| - 1]) else s
  }

  function Trim(s: string): string {
    TrimEnd(TrimStart(s))
  }

  predicate IsBlank(s: string) {
    forall i :: 0 <= i < |s| ==> IsSpace(s[i])
  }

  lemma {:induction false} TrimStartBlank(s: string)
    ensures TrimStart(s) == "" <==> IsBlank(s)
  {
    if s == "" {
    } else if IsSpace(s[0]) {
      TrimStartBlank(s[1..]);
      assert IsBlank(s) <==> IsBlank(s[1..]) by {
        if IsBlank(s[1..]) {
          forall i | 0 <= i < |s| ensures IsSpace(s[i]) {
            if i > 0 {
              assert s[1..][i - 1] == s[i];
            }
          }
        }
      }
    }
  }

  /** Trimming leaves nothing exactly when there was nothing but space. */
  lemma TrimBlank(s: string)
    ensures Trim(s) == "" <==> IsBlank(s)
  {
    TrimStartBlank(s);
    var t := TrimStart(s);
    if Trim(s) == "" {
      TrimEndBlank(t);
    }
  }

  lemma {:induction false} TrimEndBlank(s: string)
    requires TrimEnd(s) == ""
    ensures IsBlank(s)
  {
    if s == "" {
    } else {
      TrimEndBlank(s[..|s| - 1]);
      forall i | 0 <= i < |s| - 1 ensures IsSpace(s[i]) {
        assert s[..|s| - 1][i] == s[i];
      }
    }
  }

  /** White space in front of a text goes with the trimming. */
  lemma {:induction false} TrimBlankPrefix(blank: string, s: string)
    requires IsBlank(blank)
    ensures Trim(blank + s) == Trim(s)
  {
    if blank == "" {
      assert blank + s == s;
    } else {
      assert IsSpace(blank[0]) && (blank + s)[1..] == blank[1..] + s;
      TrimBlankPrefix(blank[1..], s);
      assert TrimStart(blank + s) == TrimStart(blank[1..] + s);
    }
  }

  // ---------- what trimming keeps ----------

  /** No white space at either end. */
  predicate Neat(t: string) {
    t == "" || (!IsSpace(t[0]) && !IsSpace(t[|t| - 1]))
  }

  /** `t` is `s` without the white space around it. */
  ghost predicate Trimmed(s: string, t: string) {
    Neat(t) && exists front: string, back: string :: IsBlank(front) && IsBlank(back) && s == front + t + back
  }

  lemma {:induction false} TrimStartKeeps(s: string) returns (front: string)
    ensures IsBlank(front) && s == front + TrimStart(s)
  {
    if s == "" || !IsSpace(s[0]) {
      front := "";
    } else {
      var rest := TrimStartKeeps(s[1..]);
      front := [s[0]] + rest;
      assert s == [s[0]] + s[1..];
    }
  }

  lemma {:induction false} TrimEndKeeps(s: string) returns (back: string)
    ensures IsBlank(back) && s == TrimEnd(s) + back
  {
    if s == "" || !IsSpace(s[|s| - 1]) {
      back := "";
    } else {
      var rest := TrimEndKeeps(s[..|s| - 1]);
      back := rest + [s[|s| - 1]];
      assert s == s[..|s| - 1] + [s[|s| - 1]];
    }
  }

  lemma TrimIsTrimmed(s: string)
    ensures Trimmed(s, Trim(s))
  {
    var front := TrimStartKeeps(s);
    var back := TrimEndKeeps(TrimStart(s));
    var t := Trim(s);
    assert s == front + t + back;
    assert t != "" ==> t[0] == TrimStart(s)[0];
  }

  lemma {:induction false} TrimEndBlankSuffix(s: string, blank: string)
    requires IsBlank(blank)
    ensures TrimEnd(s + blank) == TrimEnd(s)
    decreases |blank|
  {
    if blank == "" {
      assert s + blank == s;
    } else {
      var n := |blank| - 1;
      assert (s + blank)[..|s + blank| - 1] == s + blank[..n];
      TrimEndBlankSuffix(s, blank[..n]);
    }
  }

  /** Trimming gives the one text without white space at its ends that is left when white space around it goes. */
  lemma TrimIff(s: string, t: string)
    ensures Trimmed(s, t) <==> t == Trim(s)
  {
    TrimIsTrimmed(s);
    if Trimmed(s, t) {
      var front: string, back: string :| IsBlank(front) && IsBlank(back) && s == front + t + back;
      assert s == front + (t + back);
      TrimBlankPrefix(front, t + back);
      if t == "" {
        assert t + back == back;
        TrimBlank(back);
      } else {
        assert TrimStart(t + back) == t + back;
        TrimEndBlankSuffix(t, back);
      }
    }
  }

  lemma NeatStays(t: string)
    requires Neat(t)
    ensures Trim(t) == t
  {
    assert t == "" + t + "";
    assert IsBlank("");
    TrimIff(t, t);
  }
}
