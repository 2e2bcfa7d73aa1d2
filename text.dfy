/**
 * The string operations the front end (JavaScript) and the back end (Java) rely on:
 * trimming, blankness, substring search, prefix test, lower-casing and integer printing.
 * Characters are Unicode scalar values.
 */
module Text {

  /** The characters JavaScript's `String.prototype.trim` removes: WhiteSpace and LineTerminator. */
  predicate IsJsWhitespace(c: char) {
    c == '\t' || c == '\n' || c == '\U{000B}' || c == '\U{000C}' || c == '\r' || c == ' '
    || c == '\U{00A0}' || c == '\U{1680}' || ('\U{2000}' <= c <= '\U{200A}')
    || c == '\U{2028}' || c == '\U{2029}' || c == '\U{202F}' || c == '\U{205F}'
    || c == '\U{3000}' || c == '\U{FEFF}'
  }

  /**
   * Java's `Character.isWhitespace`: space, line and paragraph separators except the
   * non-breaking ones (U+00A0, U+2007, U+202F), and the ASCII controls 9-13 and 28-31.
   */
  predicate IsJavaWhitespace(c: char) {
    c == '\t' || c == '\n' || c == '\U{000B}' || c == '\U{000C}' || c == '\r'
    || ('\U{001C}' <= c <= '\U{001F}') || c == ' '
    || c == '\U{1680}' || ('\U{2000}' <= c <= '\U{2006}') || ('\U{2008}' <= c <= '\U{200A}')
    || c == '\U{2028}' || c == '\U{2029}' || c == '\U{205F}' || c == '\U{3000}'
  }

  /** Java's `String.isBlank`: empty or only whitespace. */
  predicate IsJavaBlank(s: string) {
    forall i :: 0 <= i < |s| ==> IsJavaWhitespace(s[i])
  }

  function TrimStart(s: string): (r: string)
    ensures |r| <= |s| && r == s[|s| - |r|..]
    ensures forall i :: 0 <= i < |s| - |r| ==> IsJsWhitespace(s[i])
    ensures r != [] ==> !IsJsWhitespace(r[0])
  {
    if s != [] && IsJsWhitespace(s[0]) then TrimStart(s[1..]) else s
  }

  function TrimEnd(s: string): (r: string)
    ensures |r| <= |s| && r == s[..|r|]
    ensures forall i :: |r| <= i < |s| ==> IsJsWhitespace(s[i])
    ensures r != [] ==> !IsJsWhitespace(r[|r| - 1])
  {
    if s != [] && IsJsWhitespace(s[|s| - 1]) then TrimEnd(s[..|s| - 1]) else s
  }

  /** `r` is the slice of `s` at `a`, and everything of `s` outside that slice is whitespace. */
  ghost predicate TrimmedAt(s: string, r: string, a: int) {
    0 <= a && a + |r| <= |s| && r == s[a..a + |r|]
    && (forall i :: 0 <= i < a ==> IsJsWhitespace(s[i]))
    && (forall i :: a + |r| <= i < |s| ==> IsJsWhitespace(s[i]))
  }

  /**
   * JavaScript's `s.trim()`: a slice of s with only whitespace cut from either end; it is
   * empty exactly when s is all whitespace, and otherwise begins and ends with a
   * character that is not whitespace.
   */
  function Trim(s: string): (r: string)
    ensures |r| <= |s|
    ensures exists a :: TrimmedAt(s, r, a)
    ensures r == [] <==> forall i :: 0 <= i < |s| ==> IsJsWhitespace(s[i])
    ensures r != [] ==> !IsJsWhitespace(r[0]) && !IsJsWhitespace(r[|r| - 1])
  {
    var t := TrimStart(s);
    var r := TrimEnd(t);
    TrimEndOfSuffix(s, t, r);
    r
  }

  /** Cutting whitespace from the front and then from the back leaves a slice of `s`. */
  lemma TrimEndOfSuffix(s: string, t: string, r: string)
    requires |t| <= |s| && t == s[|s| - |t|..]
    requires forall i :: 0 <= i < |s| - |t| ==> IsJsWhitespace(s[i])
    requires |r| <= |t| && r == t[..|r|]
    requires forall i :: |r| <= i < |t| ==> IsJsWhitespace(t[i])
    requires t != [] ==> !IsJsWhitespace(t[0])
    requires r != [] ==> !IsJsWhitespace(r[|r| - 1])
    ensures TrimmedAt(s, r, |s| - |t|)
    ensures r == [] <==> forall i :: 0 <= i < |s| ==> IsJsWhitespace(s[i])
    ensures r != [] ==> !IsJsWhitespace(r[0]) && !IsJsWhitespace(r[|r| - 1])
  {
    var a := |s| - |t|;
    assert r == s[a..a + |r|];
    assert r != [] ==> r[0] == t[0];
    if r != [] {
      assert !IsJsWhitespace(s[a]);
    }
    forall i | a + |r| <= i < |s|
      ensures IsJsWhitespace(s[i])
    {
      assert s[i] == t[i - a];
    }
  }

  /** Trimming twice is trimming once. */
  lemma TrimIdempotent(s: string)
    ensures Trim(Trim(s)) == Trim(s)
  {
    var r := Trim(s);
    if r != [] {
      assert TrimStart(r) == r;
      assert TrimEnd(r) == r;
    }
  }

  /** `t` occurs in `s` starting at position `i`. */
  ghost predicate OccursAt(s: string, t: string, i: int) {
    0 <= i && i + |t| <= |s| && s[i..i + |t|] == t
  }

  /** JavaScript's `s.includes(t)`, Java's `s.contains(t)`, computed by scanning from the left. */
  function Includes(s: string, t: string): bool
    decreases |s|
  {
    if |t| > |s| then false
    else s[..|t|] == t || Includes(s[1..], t)
  }

  /** The scan finds `t` exactly when `t` occurs somewhere in `s`. */
  lemma {:induction false} IncludesIff(s: string, t: string)
    ensures Includes(s, t) <==> exists i :: OccursAt(s, t, i)
    decreases |s|
  {
    if |t| > |s| {
      assert forall i :: !OccursAt(s, t, i);
    } else if s[..|t|] == t {
      assert OccursAt(s, t, 0);
    } else {
      IncludesIff(s[1..], t);
      if Includes(s[1..], t) {
        var i :| OccursAt(s[1..], t, i);
        assert s[i + 1..i + 1 + |t|] == s[1..][i..i + |t|];
        assert OccursAt(s, t, i + 1);
      } else {
        forall i | OccursAt(s, t, i) ensures false {
          if i != 0 {
            assert s[1..][i - 1..i - 1 + |t|] == s[i..i + |t|];
            assert OccursAt(s[1..], t, i - 1);
          }
        }
      }
    }
  }

  /** A string built around `t` includes `t`. */
  lemma IncludesInfix(a: string, t: string, b: string)
    ensures Includes(a + t + b, t)
  {
    var s := a + t + b;
    assert s[|a|..|a| + |t|] == t;
    assert OccursAt(s, t, |a|);
    IncludesIff(s, t);
  }

  /** JavaScript's `s.startsWith(p)`, Java's `s.startsWith(p)`. */
  predicate StartsWith(s: string, p: string) {
    |p| <= |s| && s[..|p|] == p
  }

  /** Lower-casing of one character, for the ASCII letters. */
  function LowerChar(c: char): char {
    if 'A' <= c <= 'Z' then (c as int + 32) as char else c
  }

  /** `s.toLowerCase()`, for the ASCII letters: position by position, same length. */
  function ToLower(s: string): (r: string)
    ensures |r| == |s|
    ensures forall i :: 0 <= i < |s| ==> r[i] == LowerChar(s[i])
    ensures forall i :: 0 <= i < |r| ==> !('A' <= r[i] <= 'Z')
  {
    seq(|s|, i requires 0 <= i < |s| => LowerChar(s[i]))
  }

  function DigitChar(d: nat): char
    requires d < 10
  {
    ('0' as int + d) as char
  }

  /** Decimal digits of n, most significant first. */
  function NatToString(n: nat): (r: string)
    ensures r != []
    ensures forall i :: 0 <= i < |r| ==> '0' <= r[i] <= '9'
    decreases n
  {
    if n < 10 then [DigitChar(n)] else NatToString(n / 10) + [DigitChar(n % 10)]
  }

  /** Decimal form of an integer, with a leading '-' when it is negative. */
  function IntToString(i: int): (r: string)
    ensures r != [] && (r[0] == '-' <==> i < 0)
  {
    if i < 0 then "-" + NatToString(-i) else NatToString(i)
  }
}
