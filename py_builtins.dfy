/**
 * The few Python built-ins the modelled code relies on, stated on exact
 * values: str.isspace/strip/lower/replace/join/rsplit, `in` on strings,
 * str() of an int, round(x, 2) and the '.1f' format.  Floating point is
 * replaced by `real`; rounding is round-half-even on the exact value.
 */
module PyBuiltins {

  // ---------------------------------------------------------------------
  // Characters and whitespace

  /** Python's str.isspace() for a single character. */
  predicate IsSpace(c: char)
  {
    || ('\t' <= c <= '\r')
    || ('\U{1C}' <= c <= '\U{1F}')
    || c == ' '
    || c == '\U{85}'
    || c == '\U{A0}'
    || c == '\U{1680}'
    || ('\U{2000}' <= c <= '\U{200A}')
    || c == '\U{2028}'
    || c == '\U{2029}'
    || c == '\U{202F}'
    || c == '\U{205F}'
    || c == '\U{3000}'
  }

  /**
   * Lower-casing of one character, as far as it matters for comparing the
   * result with ASCII words: ASCII capitals, and the Kelvin sign, which is
   * the only other character whose lower case is a single ASCII letter.
   */
  function LowerChar(c: char): (r: char)
    ensures 'A' <= c <= 'Z' ==> 'a' <= r <= 'z'
    ensures !('A' <= c <= 'Z') && c != '\U{212A}' ==> r == c
  {
    if 'A' <= c <= 'Z' then (c as int + 32) as char
    else if c == '\U{212A}' then 'k'
    else c
  }

  /** str.lower(), see LowerChar. */
  function Lower(s: string): (r: string)
    ensures |r| == |s|
    ensures forall i :: 0 <= i < |s| ==> r[i] == LowerChar(s[i])
  {
    seq(|s|, i requires 0 <= i < |s| => LowerChar(s[i]))
  }

  // ---------------------------------------------------------------------
  // strip()

  /** Index of the first non-space character at or after i. */
  function SkipSpaces(s: string, i: nat): (k: nat)
    requires i <= |s|
    ensures i <= k <= |s|
    ensures forall j :: i <= j < k ==> IsSpace(s[j])
    ensures k < |s| ==> !IsSpace(s[k])
    decreases |s| - i
  {
    if i < |s| && IsSpace(s[i]) then SkipSpaces(s, i + 1) else i
  }

  /** Index just after the last non-space character in s[lo..j]. */
  function TrimSpaces(s: string, lo: nat, j: nat): (k: nat)
    requires lo <= j <= |s|
    ensures lo <= k <= j
    ensures forall m :: k <= m < j ==> IsSpace(s[m])
    ensures k > lo ==> !IsSpace(s[k - 1])
  {
    if j > lo && IsSpace(s[j - 1]) then TrimSpaces(s, lo, j - 1) else j
  }

  /** str.strip() with no argument: drop leading and trailing whitespace. */
  function Strip(s: string): string
  {
    var a := SkipSpaces(s, 0);
    s[a..TrimSpaces(s, a, |s|)]
  }

  /** What strip() keeps: the text between the whitespace at both ends. */
  lemma {:induction false} StripShape(s: string)
    ensures exists a, b ::
      && 0 <= a <= b <= |s|
      && Strip(s) == s[a..b]
      && (forall j :: 0 <= j < a ==> IsSpace(s[j]))
      && (forall j :: b <= j < |s| ==> IsSpace(s[j]))
      && (Strip(s) != [] ==> !IsSpace(Strip(s)[0]) && !IsSpace(Strip(s)[|Strip(s)| - 1]))
  {
    var a := SkipSpaces(s, 0);
    var b := TrimSpaces(s, a, |s|);
    assert Strip(s) == s[a..b];
  }

  /** strip() gives the empty string exactly for all-whitespace text. */
  lemma {:induction false} StripEmptyIff(s: string)
    ensures Strip(s) == [] <==> forall i :: 0 <= i < |s| ==> IsSpace(s[i])
  {
    var a := SkipSpaces(s, 0);
    var b := TrimSpaces(s, a, |s|);
    if Strip(s) == [] {
      assert a == b;
    } else {
      assert a < b;
      assert !IsSpace(s[a]);
    }
  }

  // ---------------------------------------------------------------------
  // Substrings, replace, join, rsplit

  predicate IsPrefix(p: string, s: string)
  {
    |p| <= |s| && s[..|p|] == p
  }

  /** Python's `p in s` for strings. */
  predicate Contains(s: string, p: string)
  {
    IsPrefix(p, s) || (|s| > 0 && Contains(s[1..], p))
  }

  /** p occurs in s starting at index i. */
  predicate OccursAt(s: string, p: string, i: int)
  {
    0 <= i <= |s| - |p| && s[i..i + |p|] == p
  }

  lemma {:induction false} OccursContains(s: string, p: string, i: int)
    requires OccursAt(s, p, i)
    ensures Contains(s, p)
  {
    if i > 0 {
      assert s[1..][i - 1..i - 1 + |p|] == s[i..i + |p|];
      OccursContains(s[1..], p, i - 1);
    } else {
      assert s[..|p|] == s[0..0 + |p|];
    }
  }

  lemma {:induction false} ContainsWitness(s: string, p: string) returns (i: int)
    requires Contains(s, p)
    ensures OccursAt(s, p, i)
  {
    if IsPrefix(p, s) {
      i := 0;
      assert s[0..0 + |p|] == s[..|p|];
    } else {
      var j := ContainsWitness(s[1..], p);
      i := j + 1;
      assert s[i..i + |p|] == s[1..][j..j + |p|];
    }
  }

  /** `p in s` holds exactly when p occurs at some position of s. */
  lemma {:induction false} ContainsAt(s: string, p: string)
    ensures Contains(s, p) <==> exists i :: OccursAt(s, p, i)
  {
    if Contains(s, p) {
      var i := ContainsWitness(s, p);
    }
    forall i | OccursAt(s, p, i) ensures Contains(s, p) {
      OccursContains(s, p, i);
    }
  }

  /** A slice of a slice is a slice of the original. */
  lemma SliceOfSlice(s: string, a: int, b: int, i: int, j: int)
    requires 0 <= a <= b <= |s| && 0 <= i <= j <= b - a
    ensures s[a..b][i..j] == s[a + i..a + j]
  {
    assert forall k :: 0 <= k < j - i ==> s[a..b][i..j][k] == s[a + i + k];
  }

  /** Text absent from s is absent from s.strip(). */
  lemma {:induction false} StripKeepsAbsent(s: string, p: string)
    requires forall i :: !OccursAt(s, p, i)
    ensures !Contains(Strip(s), p)
  {
    var a := SkipSpaces(s, 0);
    var b := TrimSpaces(s, a, |s|);
    var t := Strip(s);
    assert t == s[a..b];
    forall i | 0 <= i <= |t| - |p| ensures !OccursAt(t, p, i) {
      SliceOfSlice(s, a, b, i, i + |p|);
      assert !OccursAt(s, p, a + i);
    }
    ContainsAt(t, p);
  }

  /** s.replace(p, "") for a non-empty p: leftmost, non-overlapping removal. */
  function RemoveAll(s: string, p: string): (r: string)
    requires |p| > 0
    ensures |r| <= |s|
  {
    if IsPrefix(p, s) then RemoveAll(s[|p|..], p)
    else if s == [] then []
    else [s[0]] + RemoveAll(s[1..], p)
  }

  /** sep.join(parts). */
  function Join(sep: string, parts: seq<string>): string
  {
    if |parts| == 0 then ""
    else if |parts| == 1 then parts[0]
    else parts[0] + sep + Join(sep, parts[1..])
  }

  /** Text occurring in t occurs in h + t, shifted by |h|. */
  lemma OccursAfter(h: string, t: string, p: string, i: int)
    requires OccursAt(t, p, i)
    ensures OccursAt(h + t, p, |h| + i)
  {
    assert (h + t)[|h|..|h + t|] == t;
    SliceOfSlice(h + t, |h|, |h + t|, i, i + |p|);
  }

  /** The first part of a concatenation occurs at its start. */
  lemma OccursFirst(h: string, t: string)
    ensures OccursAt(h + t, h, 0)
  {
    assert (h + t)[..|h|] == h;
  }

  /** Every part of a join occurs in the joined text. */
  lemma {:induction false} JoinContainsPart(sep: string, parts: seq<string>, k: nat)
    requires k < |parts|
    ensures Contains(Join(sep, parts), parts[k])
  {
    var j := Join(sep, parts);
    if |parts| == 1 {
      OccursFirst(parts[0], "");
      assert j == parts[0] + "";
      OccursContains(j, parts[0], 0);
    } else {
      var rest := Join(sep, parts[1..]);
      assert j == parts[0] + (sep + rest);
      if k == 0 {
        OccursFirst(parts[0], sep + rest);
        OccursContains(j, parts[0], 0);
      } else {
        JoinContainsPart(sep, parts[1..], k - 1);
        var i := ContainsWitness(rest, parts[k]);
        var head := parts[0] + sep;
        assert j == head + rest;
        OccursAfter(head, rest, parts[k], i);
        OccursContains(j, parts[k], |head| + i);
      }
    }
  }

  /** Index of the last occurrence of c in s, if any. */
  function LastIndexOf(s: string, c: char): (r: int)
    ensures -1 <= r < |s|
    ensures r >= 0 ==> s[r] == c && forall j :: r < j < |s| ==> s[j] != c
    ensures r == -1 ==> forall j :: 0 <= j < |s| ==> s[j] != c
  {
    if |s| == 0 then -1
    else if s[|s| - 1] == c then |s| - 1
    else LastIndexOf(s[..|s| - 1], c)
  }

  // ---------------------------------------------------------------------
  // Numbers as text

  function DigitChar(d: nat): char
    requires d < 10
  {
    ('0' as int + d) as char
  }

  /** str() of a non-negative int: its decimal digits. */
  function NatToString(n: nat): (r: string)
    ensures |r| >= 1
    ensures forall i :: 0 <= i < |r| ==> '0' <= r[i] <= '9'
  {
    if n < 10 then [DigitChar(n)] else NatToString(n / 10) + [DigitChar(n % 10)]
  }

  /** str() of an int. */
  function IntToString(i: int): string
  {
    if i < 0 then "-" + NatToString(-i) else NatToString(i)
  }

  // ---------------------------------------------------------------------
  // Rounding

  /** Nearest integer to x, ties to the even neighbour. */
  function RoundHalfEven(x: real): (n: int)
    ensures x - 1.0 / 2.0 <= n as real <= x + 1.0 / 2.0
  {
    var f := x.Floor;
    var frac := x - f as real;
    if frac > 1.0 / 2.0 then f + 1
    else if frac < 1.0 / 2.0 then f
    else if f % 2 == 0 then f
    else f + 1
  }

  /** Python's round(x, 2) on the exact value. */
  function Round2(x: real): (r: real)
    ensures x - 1.0 / 200.0 <= r <= x + 1.0 / 200.0
  {
    RoundHalfEven(x * 100.0) as real / 100.0
  }

  lemma RoundHalfEvenOfInt(n: int)
    ensures RoundHalfEven(n as real) == n
  {
  }

  /** Rounding to an integer never reverses the order of two values. */
  lemma RoundHalfEvenMonotone(x: real, y: real)
    requires x <= y
    ensures RoundHalfEven(x) <= RoundHalfEven(y)
  {
    var fx, fy := x.Floor, y.Floor;
    if fx < fy {
      assert RoundHalfEven(x) <= fx + 1 <= fy <= RoundHalfEven(y);
    }
  }

  lemma Round2Monotone(x: real, y: real)
    requires x <= y
    ensures Round2(x) <= Round2(y)
  {
    RoundHalfEvenMonotone(x * 100.0, y * 100.0);
  }

  /** A value that already has two decimals is left as it is. */
  lemma Round2OfCents(k: int)
    ensures Round2(k as real / 100.0) == k as real / 100.0
  {
    assert (k as real / 100.0) * 100.0 == k as real;
    RoundHalfEvenOfInt(k);
  }

  lemma Round2Idempotent(x: real)
    ensures Round2(Round2(x)) == Round2(x)
  {
    Round2OfCents(RoundHalfEven(x * 100.0));
  }

  /** f"{x:.1f}": sign, integer part, one decimal, rounded half-even. */
  function FormatFixed1(x: real): string
  {
    var tenths := RoundHalfEven((if x < 0.0 then -x else x) * 10.0);
    (if x < 0.0 then "-" else "") + NatToString(tenths / 10) + "." + NatToString(tenths % 10)
  }
}
