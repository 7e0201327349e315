/**
 * String helpers standing in for the JavaScript string methods the dashboard
 * code uses. Case mapping covers the ASCII letters only.
 */
module Text {

  /** `c.toLowerCase()` on ASCII. */
  function LowerChar(c: char): char
  {
    if 'A' <= c <= 'Z' then (c as int + 32) as char else c
  }

  /** `c.toUpperCase()` on ASCII. */
  function UpperChar(c: char): char
  {
    if 'a' <= c <= 'z' then (c as int - 32) as char else c
  }

  /** `s.toLowerCase()` on ASCII. */
  function Lower(s: string): (r: string)
    ensures |r| == |s|
  {
    seq(|s|, i requires 0 <= i < |s| => LowerChar(s[i]))
  }

  /** `s.includes(p)`: `p` occurs as a contiguous piece of `s`. */
  predicate Contains(s: string, p: string)
  {
    |p| <= |s| && (s[..|p|] == p || Contains(s[1..], p))
  }

  /** Whatever occurs in a suffix of `s` occurs in `s`. */
  lemma {:induction false} ContainsDrop(s: string, k: nat, p: string)
    requires k <= |s| && Contains(s[k..], p)
    ensures Contains(s, p)
  {
    if k > 0 {
      assert s[1..][k - 1..] == s[k..];
      ContainsDrop(s[1..], k - 1, p);
    }
  }

  /** `s.charAt(0).toUpperCase() + s.slice(1)`. */
  function UpperFirst(s: string): (r: string)
    ensures |r| == |s|
    ensures s != [] ==> r[0] == UpperChar(s[0]) && r[1..] == s[1..]
  {
    if s == [] then "" else [UpperChar(s[0])] + s[1..]
  }

  function DigitChar(d: nat): char
    requires d < 10
  {
    ('0' as int + d) as char
  }

  /** The decimal rendering of a natural number, as template literals print it. */
  function NatToString(n: nat): (r: string)
    ensures |r| >= 1
    ensures forall i :: 0 <= i < |r| ==> '0' <= r[i] <= '9'
  {
    if n < 10 then [DigitChar(n)] else NatToString(n / 10) + [DigitChar(n % 10)]
  }

  /** The decimal rendering of an integer, with a leading minus sign when negative. */
  function IntToString(i: int): string
  {
    if i < 0 then "-" + NatToString(-i) else NatToString(i)
  }

  /** Reads a run of decimal digits back: the inverse of `NatToString`. */
  function ParseDigits(s: string): nat
    requires forall i :: 0 <= i < |s| ==> '0' <= s[i] <= '9'
  {
    if s == [] then 0 else 10 * ParseDigits(s[..|s| - 1]) + (s[|s| - 1] as int - '0' as int)
  }

  lemma {:induction false} ParseNatToString(n: nat)
    ensures ParseDigits(NatToString(n)) == n
  {
    if n >= 10 {
      var r := NatToString(n);
      assert r[..|r| - 1] == NatToString(n / 10);
      ParseNatToString(n / 10);
    }
  }

  /** `parts.join(sep)`. */
  function Join(parts: seq<string>, sep: string): string
  {
    if parts == [] then ""
    else if |parts| == 1 then parts[0]
    else parts[0] + sep + Join(parts[1..], sep)
  }

  /** The characters that JavaScript's `String.prototype.trim` removes. */
  predicate IsJsWhitespace(c: char)
  {
    c == ' ' || c == '\t' || c == '\n' || c == '\r' || c == '\U{000B}' || c == '\U{000C}'
    || c == '\U{00A0}' || c == '\U{1680}' || ('\U{2000}' <= c <= '\U{200A}')
    || c == '\U{2028}' || c == '\U{2029}' || c == '\U{202F}' || c == '\U{205F}'
    || c == '\U{3000}' || c == '\U{FEFF}'
  }

  /** `s` without its leading characters that satisfy `ws`. */
  function TrimStart(s: string, ws: char -> bool): (r: string)
    ensures |r| <= |s|
  {
    if s == [] || !ws(s[0]) then s else TrimStart(s[1..], ws)
  }

  /** `s` without its trailing characters that satisfy `ws`. */
  function TrimEnd(s: string, ws: char -> bool): (r: string)
    ensures |r| <= |s|
  {
    if s == [] || !ws(s[|s| - 1]) then s else TrimEnd(s[..|s| - 1], ws)
  }

  /** `s.trim()`: `s` without its leading and trailing whitespace. */
  function Trim(s: string): string
  {
    TrimEnd(TrimStart(s, IsJsWhitespace), IsJsWhitespace)
  }

  /** `TrimStart` keeps a suffix, drops only characters satisfying `ws`, and stops at the first that does not. */
  lemma {:induction false} TrimStartSpec(s: string, ws: char -> bool)
    ensures var r := TrimStart(s, ws);
      && r == s[|s| - |r|..]
      && (r == [] || !ws(r[0]))
      && (forall i :: 0 <= i < |s| - |r| ==> ws(s[i]))
  {
    if s != [] && ws(s[0]) {
      TrimStartSpec(s[1..], ws);
      var r := TrimStart(s, ws);
      assert r == TrimStart(s[1..], ws);
      assert s[1..][|s| - 1 - |r|..] == s[|s| - |r|..];
      forall i | 0 <= i < |s| - |r| ensures ws(s[i]) {
        if i > 0 { assert s[i] == s[1..][i - 1]; }
      }
    }
  }

  /** `TrimEnd` keeps a prefix, drops only characters satisfying `ws`, and stops at the last that does not. */
  lemma {:induction false} TrimEndSpec(s: string, ws: char -> bool)
    ensures var r := TrimEnd(s, ws);
      && r == s[..|r|]
      && (r == [] || !ws(r[|r| - 1]))
      && (forall i :: |r| <= i < |s| ==> ws(s[i]))
  {
    if s != [] && ws(s[|s| - 1]) {
      var p := s[..|s| - 1];
      TrimEndSpec(p, ws);
      var r := TrimEnd(s, ws);
      assert r == TrimEnd(p, ws);
      assert p[..|r|] == s[..|r|];
      forall i | |r| <= i < |s| ensures ws(s[i]) {
        if i < |s| - 1 { assert s[i] == p[i]; }
      }
    }
  }

  /**
   * Trimming both ends by any test keeps the slice `s[a..a + |r|]`, where `a`
   * is the number of leading characters dropped: everything dropped satisfies
   * the test, and the kept slice neither starts nor ends with such a character.
   */
  lemma {:induction false} TrimBothSpec(s: string, ws: char -> bool)
    ensures var t := TrimStart(s, ws); var r := TrimEnd(t, ws); var a := |s| - |t|;
      && a + |r| <= |s| && r == s[a..a + |r|]
      && (r == [] || (!ws(r[0]) && !ws(r[|r| - 1])))
      && (forall i :: 0 <= i < a ==> ws(s[i]))
      && (forall i :: a + |r| <= i < |s| ==> ws(s[i]))
  {
    var t := TrimStart(s, ws);
    var r := TrimEnd(t, ws);
    var a := |s| - |t|;
    TrimStartSpec(s, ws);
    TrimEndSpec(t, ws);
    assert t == s[a..];
    assert r == t[..|r|];
    assert s[a..][..|r|] == s[a..a + |r|];
    forall i | a + |r| <= i < |s| ensures ws(s[i]) {
      assert s[i] == t[i - a];
    }
  }

  /** `Trim` drops only whitespace, from both ends, and leaves none at either end. */
  lemma {:induction false} TrimSpec(s: string)
    ensures var ws: char -> bool := IsJsWhitespace;
      var r := Trim(s); var a := |s| - |TrimStart(s, ws)|;
      && a + |r| <= |s| && r == s[a..a + |r|]
      && (r == [] || (!ws(r[0]) && !ws(r[|r| - 1])))
      && (forall i :: 0 <= i < a ==> ws(s[i]))
      && (forall i :: a + |r| <= i < |s| ==> ws(s[i]))
  {
    TrimBothSpec(s, IsJsWhitespace);
  }

  /** `s.split(c)[0]`: everything before the first `c`, or all of `s` when `c` does not occur. */
  function BeforeFirst(s: string, c: char): (r: string)
    ensures |r| <= |s| && r == s[..|r|]
    ensures c !in r
    ensures |r| < |s| ==> s[|r|] == c
  {
    if s == [] || s[0] == c then "" else [s[0]] + BeforeFirst(s[1..], c)
  }
}
