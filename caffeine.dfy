// The caffeine quick-add buttons of the journal wizard. Each button searches
// the caffeine text for the first case-insensitive match of `(\d+)\s*Label`;
// a match has its number raised by one, otherwise "1 Label" is appended after
// ", ". The regular expression is modelled by an explicit scan.
module Caffeine {
  import opened Wrappers
  import opened Text

  datatype Drink = Coffee | Tea | EnergyDrink

  /** The button labels; none holds a digit or a comma, and none starts with
      whitespace, which is what keeps a match from running into another. */
  function DrinkLabel(d: Drink): (s: string)
    ensures |s| > 0 && !IsSpace(s[0])
    ensures forall i :: 0 <= i < |s| ==> !IsDigit(s[i]) && s[i] != ','
  {
    match d
    case Coffee => "Coffee"
    case Tea => "Tea"
    case EnergyDrink => "Energy Drink"
  }

  /** Where the label starts in a match beginning at t[0]: after the
      greedy digit run and the greedy whitespace run. */
  function LabelOffset(t: string): (w: nat)
    ensures w <= |t|
  {
    var q := |LeadingDigits(t)|;
    q + |LeadingSpaces(t[q..])|
  }

  /** `(\d+)\s*label` (flag i) matches at the start of t. Backtracking cannot
      help: the label starts with neither a digit nor whitespace. */
  predicate MatchHere(t: string, name: string) {
    t != [] && IsDigit(t[0]) && LabelMatches(t, LabelOffset(t), name)
  }

  /** The label, compared without regard to case, stands at t[w..]. */
  predicate LabelMatches(t: string, w: nat, name: string) {
    w + |name| <= |t| && Lower(t[w..w + |name|]) == Lower(name)
  }

  predicate MatchAt(s: string, name: string, p: int) {
    0 <= p < |s| && MatchHere(s[p..], name)
  }

  /** The leftmost match at or after `from`, as `String.prototype.match` finds it. */
  function FirstMatch(s: string, name: string, from: nat): (r: Option<nat>)
    requires from <= |s|
    ensures r.Some? ==> from <= r.value < |s| && MatchAt(s, name, r.value)
    ensures r.Some? ==> forall p :: from <= p < r.value ==> !MatchAt(s, name, p)
    ensures r.None? ==> forall p :: from <= p < |s| ==> !MatchAt(s, name, p)
    decreases |s| - from
  {
    if from == |s| then None
    else if MatchAt(s, name, from) then Some(from)
    else FirstMatch(s, name, from + 1)
  }

  /** The count the button reads: `parseInt(match[1])`, or 0 without a match. */
  function CupCount(s: string, d: Drink): nat {
    match FirstMatch(s, DrinkLabel(d), 0)
    case None => 0
    case Some(p) => DigitsValue(LeadingDigits(s[p..]))
  }

  /** The button: `replace` rewrites the first match to "N+1 Label"; without
      one, "1 Label" is appended, after ", " unless the text is empty. */
  function AddCaffeine(current: string, d: Drink): (r: string)
    ensures |r| > |DrinkLabel(d)|
  {
    var name := DrinkLabel(d);
    match FirstMatch(current, name, 0)
    case None => Appended(current, name)
    case Some(p) => Replaced(current, name, p)
  }

  /** "1 name", after ", " unless the text is empty. */
  function Appended(current: string, name: string): (r: string)
    ensures |r| == (if current == [] then 0 else |current| + 2) + 2 + |name|
  {
    (if current == [] then [] else current + ", ") + "1 " + name
  }

  /** The match at p, from its numeral to the end of the label, replaced by
      "N+1 name", where N is the numeral it read. */
  function Replaced(current: string, name: string, p: nat): (r: string)
    requires MatchAt(current, name, p)
    ensures |r| > |name|
  {
    var w := p + LabelOffset(current[p..]);
    current[..p] + NatToString(DigitsValue(LeadingDigits(current[p..])) + 1) + " " + name + current[w + |name|..]
  }

  /** Every press raises the drink's count by exactly one. */
  lemma AddCaffeineCounts(current: string, d: Drink)
    ensures CupCount(AddCaffeine(current, d), d) == CupCount(current, d) + 1
  {
    if FirstMatch(current, DrinkLabel(d), 0).None? {
      AppendedCounts(current, d);
    } else {
      IncrementedCounts(current, d, FirstMatch(current, DrinkLabel(d), 0).value);
    }
  }

  lemma AppendedCounts(current: string, d: Drink)
    requires FirstMatch(current, DrinkLabel(d), 0).None?
    ensures CupCount(AddCaffeine(current, d), d) == 1
  {
    var name := DrinkLabel(d);
    var r := Appended(current, name);
    assert AddCaffeine(current, d) == r;
    AppendedMatch(current, name, r);
  }

  lemma IncrementedCounts(current: string, d: Drink, p: nat)
    requires FirstMatch(current, DrinkLabel(d), 0) == Some(p)
    ensures CupCount(AddCaffeine(current, d), d) == CupCount(current, d) + 1
  {
    var name := DrinkLabel(d);
    var r := Replaced(current, name, p);
    assert AddCaffeine(current, d) == r;
    assert p == 0 || !IsDigit(current[p - 1]) by {
      if p > 0 {
        DigitBeforeMatch(current, name, p);
      }
    }
    ReplacedMatch(current, name, p, r);
    CupCountAt(current, d, p);
    CupCountAt(r, d, p);
  }

  lemma CupCountAt(s: string, d: Drink, p: nat)
    requires FirstMatch(s, DrinkLabel(d), 0) == Some(p)
    ensures CupCount(s, d) == DigitsValue(LeadingDigits(s[p..]))
  {
  }

  /** "1 name" after the text and ", " is the first match, and reads 1. */
  lemma AppendedMatch(current: string, name: string, r: string)
    requires |name| > 0 && !IsSpace(name[0])
    requires forall i :: 0 <= i < |name| ==> !IsDigit(name[i]) && name[i] != ','
    requires forall p :: 0 <= p < |current| ==> !MatchAt(current, name, p)
    requires r == Appended(current, name)
    ensures FirstMatch(r, name, 0) == Some(|r| - |name| - 2)
    ensures DigitsValue(LeadingDigits(r[|r| - |name| - 2..])) == 1
  {
    var prefix := if current == [] then [] else current + ", ";
    assert r == prefix + NatToString(1) + " " + name + [] by {
      NumeralOne();
    }
    assert forall q :: 0 <= q < |prefix| ==> !MatchAt(r, name, q) by {
      if current != [] {
        var m := |current|;
        assert r[..m] == current[..m] && r[m] == ',' && r[m + 1] == ' ';
        NoMatchBefore(current, r, m, name);
        NonDigitNoMatch(r, name, m);
        NonDigitNoMatch(r, name, m + 1);
      }
    }
    FreshMatch(r, prefix, 1, name, []);
  }

  /** No match starts at a character that is not a digit. */
  lemma NonDigitNoMatch(s: string, name: string, q: nat)
    requires q < |s| && !IsDigit(s[q])
    ensures !MatchAt(s, name, q)
  {
    assert s[q..][0] == s[q];
  }

  lemma NumeralOne()
    ensures NatToString(1) == "1"
  {
  }

  /** Writing "N+1 name" over the first match leaves it the first match,
      now reading N+1. */
  lemma ReplacedMatch(current: string, name: string, p: nat, r: string)
    requires MatchAt(current, name, p) && (p == 0 || !IsDigit(current[p - 1]))
    requires |name| > 0 && !IsSpace(name[0])
    requires forall i :: 0 <= i < |name| ==> !IsDigit(name[i]) && name[i] != ','
    requires forall q :: 0 <= q < p ==> !MatchAt(current, name, q)
    requires r == Replaced(current, name, p)
    ensures FirstMatch(r, name, 0) == Some(p)
    ensures DigitsValue(LeadingDigits(r[p..])) == DigitsValue(LeadingDigits(current[p..])) + 1
  {
    var t := current[p..];
    var w := LabelOffset(t);
    assert LabelMatches(t, w, name);
    var rest := current[p + w + |name|..];
    var n := DigitsValue(LeadingDigits(t)) + 1;
    assert r == current[..p] + NatToString(n) + " " + name + rest;
    RewrittenMatch(current, p, n, name, rest, r);
  }

  lemma RewrittenMatch(current: string, p: nat, n: nat, name: string, rest: string, r: string)
    requires p < |current| && (p == 0 || !IsDigit(current[p - 1]))
    requires |name| > 0 && !IsSpace(name[0])
    requires forall i :: 0 <= i < |name| ==> !IsDigit(name[i]) && name[i] != ','
    requires forall q :: 0 <= q < p ==> !MatchAt(current, name, q)
    requires r == current[..p] + NatToString(n) + " " + name + rest
    ensures FirstMatch(r, name, 0) == Some(p)
    ensures DigitsValue(LeadingDigits(r[p..])) == n
  {
    var digits := NatToString(n);
    assert r == current[..p] + (digits + " " + name + rest);
    assert r[..p] == current[..p];
    assert r[p] == digits[0];
    NoMatchBefore(current, r, p, name);
    FreshMatch(r, current[..p], n, name, rest);
  }

  /** A match at p extends to a digit just before it. */
  lemma DigitBeforeMatch(s: string, name: string, p: nat)
    requires 0 < p < |s| && MatchAt(s, name, p) && !MatchAt(s, name, p - 1)
    ensures !IsDigit(s[p - 1])
  {
    var c, u := s[p - 1], s[p..];
    assert !MatchHere(s[p - 1..], name);
    DropCons(s, p - 1);
    MatchExtends(c, u, LabelOffset(u), name);
  }

  /** A digit in front of a match starts a match with the same label. */
  lemma MatchExtends(c: char, u: string, w: nat, name: string)
    requires LabelOffset(u) == w && LabelMatches(u, w, name)
    ensures IsDigit(c) ==> MatchHere([c] + u, name)
  {
    if IsDigit(c) {
      var t := [c] + u;
      LabelOffsetCons(c, u);
      LabelMatchesCons(c, u, w, name);
      assert t[0] == c;
      MatchHereIntro(t, w + 1, name);
    }
  }

  /** A digit at the start and the label at the offset make a match. */
  lemma MatchHereIntro(t: string, w: nat, name: string)
    requires t != [] && IsDigit(t[0]) && LabelOffset(t) == w && LabelMatches(t, w, name)
    ensures MatchHere(t, name)
  {
  }

  /** A label standing at u[w..] stands at ([c] + u)[w + 1..]. */
  lemma LabelMatchesCons(c: char, u: string, w: nat, name: string)
    requires LabelMatches(u, w, name)
    ensures LabelMatches([c] + u, w + 1, name)
  {
    assert ([c] + u)[w + 1..w + 1 + |name|] == u[w..w + |name|];
  }

  /** One more leading digit moves the label one place on. */
  lemma LabelOffsetCons(c: char, u: string)
    requires IsDigit(c)
    ensures LabelOffset([c] + u) == LabelOffset(u) + 1
  {
    var t := [c] + u;
    assert t[1..] == u;
    assert LeadingDigits(t) == [c] + LeadingDigits(u);
    var q := |LeadingDigits(u)|;
    assert t[q + 1..] == u[q..];
  }

  /** "prefix N name rest" matches at the start of the numeral, reading N. */
  lemma FreshMatch(s: string, prefix: string, n: nat, name: string, rest: string)
    requires s == prefix + NatToString(n) + " " + name + rest
    requires |name| > 0 && !IsSpace(name[0]) && !IsDigit(name[0])
    requires forall p :: 0 <= p < |prefix| ==> !MatchAt(s, name, p)
    ensures FirstMatch(s, name, 0) == Some(|prefix|)
    ensures DigitsValue(LeadingDigits(s[|prefix|..])) == n
  {
    assert s[|prefix|..] == NatToString(n) + " " + name + rest;
    NumeralMatches(NatToString(n) + " " + name + rest, n, name, rest);
    FirstMatchIs(s, name, |prefix|);
  }

  lemma FirstMatchIs(s: string, name: string, p: nat)
    requires MatchAt(s, name, p)
    requires forall i :: 0 <= i < p ==> !MatchAt(s, name, i)
    ensures FirstMatch(s, name, 0) == Some(p)
  {
  }

  /** A numeral, one space and the name make a match that reads the numeral. */
  lemma NumeralMatches(t: string, n: nat, name: string, rest: string)
    requires t == NatToString(n) + " " + name + rest
    requires |name| > 0 && !IsSpace(name[0]) && !IsDigit(name[0])
    ensures MatchHere(t, name)
    ensures DigitsValue(LeadingDigits(t)) == n
  {
    var digits := NatToString(n);
    NumeralOffset(t, digits, name + rest);
    assert t[|digits| + 1..|digits| + 1 + |name|] == name;
  }

  /** After a numeral and one space, the label starts. */
  lemma NumeralOffset(t: string, digits: string, tail: string)
    requires t == digits + " " + tail && AllDigits(digits)
    requires tail != [] && !IsSpace(tail[0])
    ensures LeadingDigits(t) == digits
    ensures LabelOffset(t) == |digits| + 1
  {
    assert t == digits + ([' '] + tail);
    LeadingDigitsOfConcat(digits, [' '] + tail);
    assert t[|digits|..] == [' '] + tail;
    SingleSpace(tail);
  }

  lemma SingleSpace(t: string)
    requires t != [] && !IsSpace(t[0])
    ensures LeadingSpaces([' '] + t) == [' ']
  {
    assert ([' '] + t)[1..] == t;
  }

  /** When s2 agrees with s1 before m and holds a digit or a comma at m that
      no earlier digit run reaches, a match in s2 before m is one in s1. */
  lemma NoMatchBefore(s1: string, s2: string, m: nat, name: string)
    requires m <= |s1| && m < |s2| && s1[..m] == s2[..m]
    requires IsDigit(s2[m]) || s2[m] == ','
    requires IsDigit(s2[m]) ==> m == 0 || !IsDigit(s2[m - 1])
    requires |name| > 0 && forall i :: 0 <= i < |name| ==> !IsDigit(name[i]) && name[i] != ','
    ensures forall p :: 0 <= p < m && MatchAt(s2, name, p) ==> MatchAt(s1, name, p)
  {
    forall p | 0 <= p < m && MatchAt(s2, name, p)
      ensures MatchAt(s1, name, p)
    {
      MatchCarriesAt(s1, s2, m, name, p);
    }
  }

  lemma MatchCarriesAt(s1: string, s2: string, m: nat, name: string, p: nat)
    requires m <= |s1| && m < |s2| && s1[..m] == s2[..m]
    requires IsDigit(s2[m]) || s2[m] == ','
    requires IsDigit(s2[m]) ==> m == 0 || !IsDigit(s2[m - 1])
    requires |name| > 0 && forall i :: 0 <= i < |name| ==> !IsDigit(name[i]) && name[i] != ','
    requires p < m
    ensures MatchAt(s2, name, p) ==> MatchAt(s1, name, p)
  {
    SuffixesAgree(s1, s2, m, p);
    CarryConditions(s2, m, p);
    if MatchHere(s2[p..], name) {
      MatchCarries(s1[p..], s2[p..], m - p, name);
    }
  }

  lemma CarryConditions(s2: string, m: nat, p: nat)
    requires p < m < |s2|
    requires IsDigit(s2[m]) || s2[m] == ','
    requires IsDigit(s2[m]) ==> !IsDigit(s2[m - 1])
    ensures IsDigit(s2[p..][m - p]) || s2[p..][m - p] == ','
    ensures IsDigit(s2[p..][m - p]) ==> !IsDigit(s2[p..][m - p - 1])
  {
  }

  lemma SuffixesAgree(s1: string, s2: string, m: nat, p: nat)
    requires p <= m <= |s1| && m <= |s2| && s1[..m] == s2[..m]
    ensures s1[p..][..m - p] == s2[p..][..m - p]
  {
    assert s1[p..][..m - p] == s1[..m][p..] && s2[p..][..m - p] == s2[..m][p..];
  }

  /** A match in t2 that starts before t2[k] carries over to any t1 that
      agrees with t2 before k. */
  lemma MatchCarries(t1: string, t2: string, k: nat, name: string)
    requires 0 < k <= |t1| && k < |t2| && t1[..k] == t2[..k]
    requires IsDigit(t2[k]) || t2[k] == ','
    requires IsDigit(t2[k]) ==> !IsDigit(t2[k - 1])
    requires |name| > 0 && forall i :: 0 <= i < |name| ==> !IsDigit(name[i]) && name[i] != ','
    requires MatchHere(t2, name)
    ensures MatchHere(t1, name)
  {
    MatchEndsBefore(t2, k, name);
    OffsetAgrees(t1, t2, k);
    LabelMatchesCarry(t1, t2, k, LabelOffset(t2), name);
    assert t1[0] == t1[..k][0];
  }

  /** A label that ends before k is found in any string agreeing before k. */
  lemma LabelMatchesCarry(t1: string, t2: string, k: nat, w: nat, name: string)
    requires k <= |t1| && k <= |t2| && t1[..k] == t2[..k] && w + |name| <= k
    requires LabelMatches(t2, w, name)
    ensures LabelMatches(t1, w, name)
  {
    assert t1[w..w + |name|] == t1[..k][w..w + |name|];
    assert t2[w..w + |name|] == t2[..k][w..w + |name|];
  }

  /** Strings that agree past t2's label offset have the same offset. */
  lemma OffsetAgrees(t1: string, t2: string, k: nat)
    requires k <= |t1| && k <= |t2| && t1[..k] == t2[..k]
    requires LabelOffset(t2) < k
    ensures LabelOffset(t1) == LabelOffset(t2)
  {
    LeadingDigitsAgree(t1, t2, k);
    var q := |LeadingDigits(t2)|;
    assert t1[q..][..k - q] == t2[q..][..k - q] by {
      assert t1[q..][..k - q] == t1[..k][q..] && t2[q..][..k - q] == t2[..k][q..];
    }
    LeadingSpacesAgree(t1[q..], t2[q..], k - q);
  }

  /** A match starting before t[k] ends before it: its label cannot cover the
      digit or comma there. */
  lemma MatchEndsBefore(t: string, k: nat, name: string)
    requires 0 < k < |t| && (IsDigit(t[k]) || t[k] == ',')
    requires IsDigit(t[k]) ==> !IsDigit(t[k - 1])
    requires |name| > 0 && forall i :: 0 <= i < |name| ==> !IsDigit(name[i]) && name[i] != ','
    requires MatchHere(t, name)
    ensures LabelOffset(t) + |name| <= k
  {
    LabelOffsetBounded(t, k);
    WindowCharKept(t, LabelOffset(t), name, k);
  }

  /** A character inside a label found at t[w..] is a digit or a comma
      exactly when the label's character there is one. */
  lemma WindowCharKept(t: string, w: nat, name: string, k: nat)
    requires LabelMatches(t, w, name) && k < |t|
    ensures w <= k < w + |name| ==>
      (IsDigit(t[k]) <==> IsDigit(name[k - w])) && (t[k] == ',' <==> name[k - w] == ',')
  {
    if w <= k < w + |name| {
      var window := t[w..w + |name|];
      LowerWindowChar(window, name, k - w);
      assert window[k - w] == t[k];
    }
  }

  /** Strings equal up to case agree on where their digits and commas are. */
  lemma LowerWindowChar(window: string, name: string, j: nat)
    requires Lower(window) == Lower(name) && j < |name|
    ensures IsDigit(window[j]) <==> IsDigit(name[j])
    ensures window[j] == ',' <==> name[j] == ','
  {
    assert Lower(window)[j] == Lower(name)[j];
    LowerCharKeeps(window[j]);
    LowerCharKeeps(name[j]);
  }

  /** Lower-casing neither makes nor removes a digit or a comma. */
  lemma LowerCharKeeps(c: char)
    ensures IsDigit(LowerChar(c)) <==> IsDigit(c)
    ensures LowerChar(c) == ',' <==> c == ','
  {
  }

  /** The digit and whitespace runs stop at t[k] at the latest. */
  lemma LabelOffsetBounded(t: string, k: nat)
    requires 0 < k < |t|
    requires IsDigit(t[k]) || t[k] == ','
    requires IsDigit(t[k]) ==> !IsDigit(t[k - 1])
    ensures LabelOffset(t) <= k
  {
    var q := |LeadingDigits(t)|;
    var sp := LeadingSpaces(t[q..]);
  }
}
