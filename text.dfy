// String operations of JavaScript's String.prototype, on sequences of
// characters: lower-casing, substring tests, trimming, decimal numerals,
// splitting and joining.
module Text {
  import opened Wrappers

  /** `toLowerCase` on one character (ASCII letters only). */
  function LowerChar(c: char): (r: char)
    ensures 'A' <= c <= 'Z' ==> r == (c as int + 32) as char
    ensures !('A' <= c <= 'Z') ==> r == c
  {
    if 'A' <= c <= 'Z' then (c as int + 32) as char else c
  }

  function Lower(s: string): (r: string)
    ensures |r| == |s|
    ensures forall i :: 0 <= i < |s| ==> r[i] == LowerChar(s[i])
  {
    seq(|s|, i requires 0 <= i < |s| => LowerChar(s[i]))
  }

  /** Lower-casing twice is lower-casing once. */
  lemma LowerIdempotent(s: string)
    ensures Lower(Lower(s)) == Lower(s)
  {
    assert forall i :: 0 <= i < |s| ==> LowerChar(LowerChar(s[i])) == LowerChar(s[i]);
  }

  predicate StartsWith(s: string, prefix: string) {
    |prefix| <= |s| && s[..|prefix|] == prefix
  }

  predicate EndsWith(s: string, suffix: string) {
    |suffix| <= |s| && s[|s| - |suffix|..] == suffix
  }

  /** `s.includes(sub)`: sub occurs at some position of s. */
  predicate Contains(s: string, sub: string) {
    exists i | 0 <= i <= |s| - |sub| :: OccursAt(s, sub, i)
  }

  predicate OccursAt(s: string, sub: string, i: int) {
    0 <= i <= |s| - |sub| && s[i..i + |sub|] == sub
  }

  lemma ContainsConcat(a: string, sub: string, b: string)
    ensures Contains(a + sub + b, sub)
  {
    var s := a + sub + b;
    assert OccursAt(s, sub, |a|);
  }

  lemma NotContainsInShorter(s: string, sub: string)
    requires |s| < |sub|
    ensures !Contains(s, sub)
  {
  }

  /** The whitespace that `String.prototype.trim` removes and `\s` matches:
      tab, line feed, vertical tab, form feed, carriage return, space, the
      no-break spaces, the Unicode space separators, the line and paragraph
      separators and the byte order mark. */
  predicate IsSpace(c: char) {
    || '\t' <= c <= '\r'
    || c == ' ' || c == '\U{00A0}' || c == '\U{1680}'
    || '\U{2000}' <= c <= '\U{200A}'
    || c == '\U{2028}' || c == '\U{2029}' || c == '\U{202F}' || c == '\U{205F}'
    || c == '\U{3000}' || c == '\U{FEFF}'
  }

  function TrimStart(s: string): (r: string)
    ensures |r| <= |s| && r == s[|s| - |r|..]
    ensures r != [] ==> !IsSpace(r[0])
    ensures forall i :: 0 <= i < |s| - |r| ==> IsSpace(s[i])
  {
    if s != [] && IsSpace(s[0]) then TrimStart(s[1..]) else s
  }

  function TrimEnd(s: string): (r: string)
    ensures |r| <= |s| && r == s[..|r|]
    ensures r != [] ==> !IsSpace(r[|r| - 1])
    ensures forall i :: |r| <= i < |s| ==> IsSpace(s[i])
  {
    if s != [] && IsSpace(s[|s| - 1]) then TrimEnd(s[..|s| - 1]) else s
  }

  /** r is the slice of s from index i, with only whitespace before and
      after it. */
  predicate StrippedAt(s: string, r: string, i: int) {
    0 <= i <= |s| - |r| && r == s[i..i + |r|]
    && (forall k :: 0 <= k < i ==> IsSpace(s[k]))
    && (forall k :: i + |r| <= k < |s| ==> IsSpace(s[k]))
  }

  /** `s.trim()`: the slice of s left once the whitespace at both ends is
      stripped. */
  function Trim(s: string): (r: string)
    ensures |r| <= |s|
    ensures r != [] ==> !IsSpace(r[0]) && !IsSpace(r[|r| - 1])
    ensures exists i :: StrippedAt(s, r, i)
  {
    var t := TrimStart(s);
    var r := TrimEnd(t);
    var i := |s| - |t|;
    forall k | i + |r| <= k < |s| ensures IsSpace(s[k]) {
      assert s[k] == t[k - i];
    }
    assert StrippedAt(s, r, i);
    r
  }

  /** A string is blank when `trim()` leaves nothing, i.e. `!s.trim()` holds. */
  lemma BlankIffAllSpace(s: string)
    ensures Trim(s) == [] <==> forall i :: 0 <= i < |s| ==> IsSpace(s[i])
  {
  }

  predicate IsDigit(c: char) {
    '0' <= c <= '9'
  }

  predicate AllDigits(s: string) {
    forall i :: 0 <= i < |s| ==> IsDigit(s[i])
  }

  /** The value of a decimal numeral (`parseInt(s, 10)` for s made of digits). */
  function DigitsValue(s: string): nat
    requires AllDigits(s)
  {
    if s == [] then 0
    else 10 * DigitsValue(s[..|s| - 1]) + (s[|s| - 1] as int - '0' as int)
  }

  /** Decimal numeral of n, no leading zeros (`String(n)` for a natural number). */
  function NatToString(n: nat): (r: string)
    ensures r != [] && AllDigits(r)
    ensures DigitsValue(r) == n
    decreases n
  {
    var d := ['0' + (n % 10) as char];
    if n < 10 then d
    else
      var r := NatToString(n / 10) + d;
      assert r[..|r| - 1] == NatToString(n / 10);
      r
  }

  /** The longest prefix of s made of digits. */
  function LeadingDigits(s: string): (r: string)
    ensures AllDigits(r) && StartsWith(s, r)
    ensures |r| < |s| ==> !IsDigit(s[|r|])
  {
    if s != [] && IsDigit(s[0]) then [s[0]] + LeadingDigits(s[1..]) else []
  }

  /** The longest suffix of s made of digits. */
  function TrailingDigits(s: string): (r: string)
    ensures AllDigits(r) && EndsWith(s, r)
    ensures |r| < |s| ==> !IsDigit(s[|s| - |r| - 1])
  {
    if s != [] && IsDigit(s[|s| - 1]) then TrailingDigits(s[..|s| - 1]) + [s[|s| - 1]] else []
  }

  /** Digits after a non-digit are the whole trailing run. */
  lemma TrailingDigitsOfConcat(prefix: string, d: string)
    requires AllDigits(d)
    requires prefix == [] || !IsDigit(prefix[|prefix| - 1])
    ensures TrailingDigits(prefix + d) == d
  {
    TrailingRunUnique(prefix + d, prefix, d, TrailingDigits(prefix + d));
  }

  /** A maximal run of digits ending s is the digits after the last non-digit. */
  lemma TrailingRunUnique(s: string, prefix: string, d: string, r: string)
    requires s == prefix + d && AllDigits(d)
    requires prefix == [] || !IsDigit(prefix[|prefix| - 1])
    requires AllDigits(r) && EndsWith(s, r)
    requires |r| < |s| ==> !IsDigit(s[|s| - |r| - 1])
    ensures r == d
  {
    assert forall k :: |s| - |r| <= k < |s| ==> IsDigit(s[k]) by {
      forall k | |s| - |r| <= k < |s| ensures IsDigit(s[k]) {
        assert s[k] == r[k - (|s| - |r|)];
      }
    }
    assert forall k :: |prefix| <= k < |s| ==> IsDigit(s[k]) by {
      forall k | |prefix| <= k < |s| ensures IsDigit(s[k]) {
        assert s[k] == d[k - |prefix|];
      }
    }
    assert prefix != [] ==> !IsDigit(s[|prefix| - 1]);
    assert |r| == |d|;
    assert s[|s| - |d|..] == d;
  }

  lemma Regroup(a: string, b: string, c: string, d: string)
    ensures a + b + c + d == a + (b + c + d)
  {
  }

  lemma EndsWithConcat(a: string, b: string)
    ensures EndsWith(a + b, b)
  {
    assert (a + b)[|a|..] == b;
  }

  /** A string ending in a non-digit has no trailing digits. */
  lemma NoTrailingDigits(s: string)
    requires s != [] && !IsDigit(s[|s| - 1])
    ensures TrailingDigits(s) == []
  {
  }

  /** A string with no whitespace at either end is its own trim. */
  lemma TrimmedAlready(s: string)
    requires s == [] || (!IsSpace(s[0]) && !IsSpace(s[|s| - 1]))
    ensures Trim(s) == s
  {
  }

  /** One trailing blank after a trimmed string is dropped by the trim. */
  lemma TrimOneTrailingSpace(t: string)
    requires t != [] && !IsSpace(t[0]) && !IsSpace(t[|t| - 1])
    ensures Trim(t + " ") == t
  {
    var s := t + " ";
    assert s[0] == t[0];
    assert TrimStart(s) == s;
    assert s[..|s| - 1] == t;
    assert TrimEnd(s) == TrimEnd(t);
    assert TrimEnd(t) == t;
  }

  /** A suffix is its first character followed by the rest. */
  lemma DropCons(s: string, i: nat)
    requires i < |s|
    ensures s[i..] == [s[i]] + s[i + 1..]
  {
  }

  /** The longest prefix of s made of whitespace (`\s*`, ASCII part). */
  function LeadingSpaces(s: string): (r: string)
    ensures StartsWith(s, r) && forall i :: 0 <= i < |r| ==> IsSpace(r[i])
    ensures |r| < |s| ==> !IsSpace(s[|r|])
  {
    if s != [] && IsSpace(s[0]) then [s[0]] + LeadingSpaces(s[1..]) else []
  }

  /** Two strings that agree past the end of b's digit run have the same run. */
  lemma {:induction false} LeadingDigitsAgree(a: string, b: string, k: nat)
    requires k <= |a| && k <= |b| && a[..k] == b[..k]
    requires |LeadingDigits(b)| < k
    ensures LeadingDigits(a) == LeadingDigits(b)
  {
    if IsDigit(b[0]) {
      assert a[0] == b[0];
      assert a[1..][..k - 1] == a[..k][1..] && b[1..][..k - 1] == b[..k][1..];
      LeadingDigitsAgree(a[1..], b[1..], k - 1);
    } else {
      assert a[0] == b[0];
    }
  }

  /** Two strings that agree past the end of b's whitespace run have the same run. */
  lemma {:induction false} LeadingSpacesAgree(a: string, b: string, k: nat)
    requires k <= |a| && k <= |b| && a[..k] == b[..k]
    requires |LeadingSpaces(b)| < k
    ensures LeadingSpaces(a) == LeadingSpaces(b)
  {
    if IsSpace(b[0]) {
      assert a[0] == b[0];
      assert a[1..][..k - 1] == a[..k][1..] && b[1..][..k - 1] == b[..k][1..];
      LeadingSpacesAgree(a[1..], b[1..], k - 1);
    } else {
      assert a[0] == b[0];
    }
  }

  /** Leading whitespace in front of a trimmed, non-empty string is all that
      `trim()` removes. */
  lemma {:induction false} TrimPadded(pad: string, t: string)
    requires forall i :: 0 <= i < |pad| ==> IsSpace(pad[i])
    requires t != [] && !IsSpace(t[0]) && !IsSpace(t[|t| - 1])
    ensures Trim(pad + t) == t
  {
    if pad == [] {
      assert pad + t == t;
      TrimmedAlready(t);
    } else {
      assert (pad + t)[1..] == pad[1..] + t;
      TrimPadded(pad[1..], t);
      assert TrimStart(pad + t) == TrimStart(pad[1..] + t);
    }
  }

  /** The trimmed string occurs in the original. */
  lemma TrimContained(s: string)
    ensures Contains(s, Trim(s))
  {
    var a := TrimStart(s);
    var r := Trim(s);
    assert r == s[|s| - |a|..][..|r|];
    assert OccursAt(s, r, |s| - |a|);
  }

  /** A substring of a substring is a substring. */
  lemma ContainsTransitive(s: string, m: string, x: string)
    requires Contains(s, m) && Contains(m, x)
    ensures Contains(s, x)
  {
    var i :| 0 <= i <= |s| - |m| && OccursAt(s, m, i);
    var j :| 0 <= j <= |m| - |x| && OccursAt(m, x, j);
    assert forall k :: 0 <= k < |x| ==> x[k] == m[j + k] == s[i + j + k];
    assert s[i + j..i + j + |x|] == x;
    assert OccursAt(s, x, i + j);
  }

  /** A character missing from s is missing from every substring of s. */
  lemma ContainsKeepsAbsent(s: string, x: string, c: char)
    requires Contains(s, x)
    ensures c !in s ==> c !in x
  {
    var k :| 0 <= k <= |s| - |x| && OccursAt(s, x, k);
    forall n | 0 <= n < |x| ensures x[n] == s[k + n] {
      assert x[n] == s[k..k + |x|][n];
    }
  }

  /** The first position of c in s (`indexOf`), None for -1. */
  function IndexOf(s: string, c: char): (r: Option<nat>)
    ensures r.None? ==> c !in s
    ensures r.Some? ==> r.value < |s| && s[r.value] == c && c !in s[..r.value]
  {
    if s == [] then None
    else if s[0] == c then Some(0)
    else match IndexOf(s[1..], c)
      case None => None
      case Some(i) => assert s[..i + 1] == [s[0]] + s[1..][..i]; Some(i + 1)
  }

  /** The last position of c in s (`lastIndexOf`), None for -1. */
  function LastIndexOf(s: string, c: char): (r: Option<nat>)
    ensures r.None? ==> c !in s
    ensures r.Some? ==> r.value < |s| && s[r.value] == c && c !in s[r.value + 1..]
  {
    if s == [] then None
    else if s[|s| - 1] == c then Some(|s| - 1)
    else match LastIndexOf(s[..|s| - 1], c)
      case None => None
      case Some(i) => assert s[i + 1..] == s[..|s| - 1][i + 1..] + [s[|s| - 1]]; Some(i)
  }

  lemma IndexOfIs(s: string, c: char, i: nat)
    requires i < |s| && s[i] == c && c !in s[..i]
    ensures IndexOf(s, c) == Some(i)
  {
    assert s[i] in s;
  }

  lemma LastIndexOfIs(s: string, c: char, i: nat)
    requires i < |s| && s[i] == c && c !in s[i + 1..]
    ensures LastIndexOf(s, c) == Some(i)
  {
    assert s[i] in s;
  }

  /** `parseInt(s) || 0` for strings that start with their numeral. */
  function ParseLeadingInt(s: string): nat {
    DigitsValue(LeadingDigits(s))
  }

  lemma ParseLeadingIntOfNumeral(n: nat, rest: string)
    requires rest == [] || !IsDigit(rest[0])
    ensures ParseLeadingInt(NatToString(n) + rest) == n
  {
    LeadingDigitsOfConcat(NatToString(n), rest);
  }

  lemma {:induction false} LeadingDigitsOfConcat(d: string, rest: string)
    requires AllDigits(d)
    requires rest == [] || !IsDigit(rest[0])
    ensures LeadingDigits(d + rest) == d
  {
    if d != [] {
      assert (d + rest)[1..] == d[1..] + rest;
      LeadingDigitsOfConcat(d[1..], rest);
    } else {
      assert d + rest == rest;
    }
  }
}
