// The "time outdoors" text of the journal wizard: "M mins", followed by
// " (t1, t2, ...)" when tags were chosen. The slider rewrites the minutes and
// keeps the bracketed group; each tag button toggles its tag in the group.
// The regular expression `\((.*)\)` is modelled as the span from the first
// '(' to the last ')' after it.
module Outdoors {
  import opened Wrappers
  import opened Numeric
  import opened Text

  datatype Spot = Walk | Sunlight | Nature

  /** A tag as the group holds it: non-empty, trimmed, free of commas. */
  predicate WellFormedTag(x: string) {
    x != [] && !IsSpace(x[0]) && !IsSpace(x[|x| - 1]) && ',' !in x
  }

  function SpotText(t: Spot): (s: string)
    ensures WellFormedTag(s)
  {
    match t
    case Walk => "Walk"
    case Sunlight => "Sunlight"
    case Nature => "Nature"
  }

  // ---------------------------------------------------------------------
  // Reading the text
  // ---------------------------------------------------------------------

  /** The first group of `/\((.*)\)/`: what lies between the first '(' and
      the last ')' after it; None when no '(' comes before a ')'. */
  function TagGroup(s: string): (g: Option<string>)
    ensures g.None? <==> !exists i, j :: 0 <= i < j < |s| && s[i] == '(' && s[j] == ')'
    ensures g.Some? ==> exists i, j :: (0 <= i < j < |s| && s[i] == '(' && s[j] == ')'
      && '(' !in s[..i] && ')' !in s[j + 1..] && g.value == s[i + 1..j])
    ensures g.Some? ==> Contains(s, g.value)
  {
    match (IndexOf(s, '('), LastIndexOf(s, ')'))
    case (Some(i), Some(j)) =>
      if i < j then
        assert OccursAt(s, s[i + 1..j], i + 1);
        Some(s[i + 1..j])
      else
        assert forall a, b :: 0 <= a < b < |s| && s[a] == '(' ==> s[b] != ')' by {
          forall a, b | 0 <= a < b < |s| && s[a] == '('
            ensures s[b] != ')'
          {
            if b > j { assert s[j + 1..][b - j - 1] == s[b]; }
          }
        }
        None
    case _ => None
  }

  /** `split(',').map(t => t.trim()).filter(Boolean)` on the group, as one
      pass over the comma-separated pieces. */
  function TagList(g: string): (r: seq<string>)
    ensures forall i :: 0 <= i < |r| ==> WellFormedTag(r[i])
    decreases |g|
  {
    match IndexOf(g, ',')
    case None => Piece(g)
    case Some(i) => Piece(g[..i]) + TagList(g[i + 1..])
  }

  /** One piece: its trim, dropped when blank. */
  function Piece(x: string): (r: seq<string>)
    ensures |r| <= 1
    ensures forall i :: 0 <= i < |r| ==> r[i] == Trim(x)
    ensures ',' !in x ==> forall i :: 0 <= i < |r| ==> WellFormedTag(r[i])
  {
    TrimContained(x);
    ContainsKeepsAbsent(x, Trim(x), ',');
    if Trim(x) == [] then [] else [Trim(x)]
  }

  /** Every tag read from a group occurs in it. */
  lemma {:induction false} TagListContained(g: string)
    ensures forall i :: 0 <= i < |TagList(g)| ==> Contains(g, TagList(g)[i])
    decreases |g|
  {
    match IndexOf(g, ',')
    case None =>
      assert g[0..|g|] == g;
      assert OccursAt(g, g, 0);
      PieceOccurs(g, g);
    case Some(i) =>
      TagListContained(g[i + 1..]);
      ContainedAtComma(g, i, g[i + 1..]);
  }

  lemma ContainedAtComma(g: string, i: nat, tail: string)
    requires IndexOf(g, ',') == Some(i) && tail == g[i + 1..]
    requires forall k :: 0 <= k < |TagList(tail)| ==> Contains(tail, TagList(tail)[k])
    ensures forall k :: 0 <= k < |TagList(g)| ==> Contains(g, TagList(g)[k])
  {
    TagListAtComma(g, i);
    HeadOccurs(g, i);
    TailContained(g, i, tail);
    TailOccurs(g, tail);
    ConcatOccurs(g, Piece(g[..i]), TagList(tail), TagList(g));
  }

  lemma TailContained(g: string, i: nat, tail: string)
    requires i < |g| && tail == g[i + 1..]
    ensures Contains(g, tail)
  {
    assert OccursAt(g, tail, i + 1);
  }

  lemma HeadOccurs(g: string, i: nat)
    requires i <= |g|
    ensures forall k :: 0 <= k < |Piece(g[..i])| ==> Contains(g, Piece(g[..i])[k])
  {
    assert OccursAt(g, g[..i], 0);
    PieceOccurs(g, g[..i]);
  }

  lemma PieceOccurs(g: string, x: string)
    requires Contains(g, x)
    ensures forall k :: 0 <= k < |Piece(x)| ==> Contains(g, Piece(x)[k])
  {
    TrimContained(x);
    if Piece(x) != [] {
      ContainsTransitive(g, x, Piece(x)[0]);
    }
  }

  lemma TailOccurs(g: string, x: string)
    requires Contains(g, x)
    requires forall k :: 0 <= k < |TagList(x)| ==> Contains(x, TagList(x)[k])
    ensures forall k :: 0 <= k < |TagList(x)| ==> Contains(g, TagList(x)[k])
  {
    forall k | 0 <= k < |TagList(x)| ensures Contains(g, TagList(x)[k]) {
      ContainsTransitive(g, x, TagList(x)[k]);
    }
  }

  lemma ConcatOccurs(g: string, a: seq<string>, b: seq<string>, r: seq<string>)
    requires r == a + b
    requires forall k :: 0 <= k < |a| ==> Contains(g, a[k])
    requires forall k :: 0 <= k < |b| ==> Contains(g, b[k])
    ensures forall k :: 0 <= k < |r| ==> Contains(g, r[k])
  {
    forall k | 0 <= k < |r| ensures Contains(g, r[k]) {
      if k < |a| {
        assert r[k] == a[k];
      } else {
        assert r[k] == b[k - |a|];
      }
    }
  }

  /** The tags of a text: those of its group, none without one. */
  function TagsOf(s: string): (r: seq<string>)
    ensures forall i :: 0 <= i < |r| ==> WellFormedTag(r[i])
  {
    match TagGroup(s)
    case None => []
    case Some(g) => TagList(g)
  }

  /** Every tag of a text occurs in it. */
  lemma TagsContained(s: string)
    ensures forall i :: 0 <= i < |TagsOf(s)| ==> Contains(s, TagsOf(s)[i])
  {
    match TagGroup(s)
    case None =>
    case Some(g) =>
      TagListContained(g);
      forall k | 0 <= k < |TagList(g)| ensures Contains(s, TagList(g)[k]) {
        ContainsTransitive(s, g, TagList(g)[k]);
      }
  }

  /** `parseInt(entry.time_outdoors ?? '0') || 0`: the slider position. */
  function SliderPosition(current: Option<string>): nat {
    ParseLeadingInt(if current.Some? then current.value else "0")
  }

  // ---------------------------------------------------------------------
  // Writing the text
  // ---------------------------------------------------------------------

  /** `tags.join(', ')`. */
  function JoinTags(tags: seq<string>): string {
    if tags == [] then []
    else if |tags| == 1 then tags[0]
    else tags[0] + ", " + JoinTags(tags[1..])
  }

  /** "M mins", with " (group)" when there is a group. */
  function OutdoorsLine(mins: nat, group: Option<string>): string {
    NatToString(mins) + " mins" + (if group.Some? then " (" + group.value + ")" else "")
  }

  /** The slider: the new minutes, keeping the bracketed group of the
      current text (undefined read as ""). */
  function SliderText(current: Option<string>, mins: nat): (r: string)
    ensures ParseLeadingInt(r) == mins
  {
    var s := if current.Some? then current.value else "";
    OutdoorsLineMinutes(mins, TagGroup(s));
    OutdoorsLine(mins, TagGroup(s))
  }

  /** Whether a tag button shows as selected: a substring test on the
      whole text, false when it is undefined. */
  predicate IsSelected(current: Option<string>, t: Spot) {
    current.Some? && Contains(current.value, SpotText(t))
  }

  /** The text the tag button starts from (undefined read as "0 mins"). */
  function Base(current: Option<string>): string {
    if current.Some? then current.value else "0 mins"
  }

  /** The tag list after a press: every copy removed when selected,
      appended otherwise. */
  function ToggledTags(current: Option<string>, t: Spot): (r: seq<string>)
    ensures forall i :: 0 <= i < |r| ==> WellFormedTag(r[i])
    ensures IsSelected(current, t) ==> SpotText(t) !in r
    ensures !IsSelected(current, t) ==> r == TagsOf(Base(current)) + [SpotText(t)]
  {
    var tags := TagsOf(Base(current));
    if IsSelected(current, t) then
      FilterWellFormed(tags, SpotText(t));
      Filter(tags, Unequal(SpotText(t)))
    else
      AppendWellFormed(tags, SpotText(t));
      tags + [SpotText(t)]
  }

  lemma AppendWellFormed(tags: seq<string>, tag: string)
    requires forall i :: 0 <= i < |tags| ==> WellFormedTag(tags[i])
    requires WellFormedTag(tag)
    ensures forall i :: 0 <= i < |tags + [tag]| ==> WellFormedTag((tags + [tag])[i])
  {
  }

  lemma FilterWellFormed(tags: seq<string>, tag: string)
    requires forall i :: 0 <= i < |tags| ==> WellFormedTag(tags[i])
    ensures forall i :: 0 <= i < |Filter(tags, Unequal(tag))| ==> WellFormedTag(Filter(tags, Unequal(tag))[i])
    ensures tag !in Filter(tags, Unequal(tag))
  {
    var r := Filter(tags, Unequal(tag));
    FilterMembers(tags, Unequal(tag));
    forall i | 0 <= i < |r| ensures WellFormedTag(r[i]) {
      assert r[i] in r;
      var k :| 0 <= k < |tags| && tags[k] == r[i];
    }
  }

  /** The text after a press of the tag button. */
  function ToggleText(current: Option<string>, t: Spot): (r: string)
    ensures ParseLeadingInt(r) == ParseLeadingInt(Base(current))
    ensures TagGroup(r) == if |ToggledTags(current, t)| > 0 then Some(JoinTags(ToggledTags(current, t))) else None
  {
    var tags := ToggledTags(current, t);
    var group := if |tags| > 0 then Some(JoinTags(tags)) else None;
    OutdoorsLineMinutes(ParseLeadingInt(Base(current)), group);
    OutdoorsLineGroup(ParseLeadingInt(Base(current)), group);
    OutdoorsLine(ParseLeadingInt(Base(current)), group)
  }

  // ---------------------------------------------------------------------
  // Properties
  // ---------------------------------------------------------------------

  /** The line with and without a group, as the pieces the button appends. */
  lemma OutdoorsLineText(mins: nat, group: Option<string>)
    ensures group.Some? ==> OutdoorsLine(mins, group) == NatToString(mins) + " mins" + " (" + group.value + ")"
    ensures group.None? ==> OutdoorsLine(mins, group) == NatToString(mins) + " mins"
  {
    var head := NatToString(mins) + " mins";
    if group.Some? {
      Regroup(head, " (", group.value, ")");
    } else {
      assert head + [] == head;
    }
  }

  /** The minutes lead the line. */
  lemma OutdoorsLineMinutes(mins: nat, group: Option<string>)
    ensures ParseLeadingInt(OutdoorsLine(mins, group)) == mins
  {
    var tail := " mins" + (if group.Some? then " (" + group.value + ")" else "");
    assert OutdoorsLine(mins, group) == NatToString(mins) + tail;
    ParseLeadingIntOfNumeral(mins, tail);
  }

  /** The group written into the line is the group read back from it. */
  lemma OutdoorsLineGroup(mins: nat, group: Option<string>)
    ensures TagGroup(OutdoorsLine(mins, group)) == group
  {
    var digits := NatToString(mins);
    var s := OutdoorsLine(mins, group);
    if group.None? {
      assert s == digits + " mins";
      assert '(' !in s;
    } else {
      var head := digits + " mins ";
      assert s == head + "(" + group.value + ")";
      assert s[..|head|] == head && s[|head|] == '(';
      assert '(' !in head;
      IndexOfIs(s, '(', |head|);
      LastIndexOfIs(s, ')', |s| - 1);
      assert s[|head| + 1..|s| - 1] == group.value;
    }
  }

  /** The slider moves the minutes and keeps the group, and the slider then
      reads back the minutes it was set to. */
  lemma SliderKeepsTags(current: Option<string>, mins: nat)
    ensures TagGroup(SliderText(current, mins)) == TagGroup(if current.Some? then current.value else "")
    ensures SliderPosition(Some(SliderText(current, mins))) == mins
  {
    var s := if current.Some? then current.value else "";
    OutdoorsLineGroup(mins, TagGroup(s));
  }

  /** Joining well-formed tags and splitting the result gives them back; the
      leading pad stands for the space after each ", ". */
  lemma {:induction false} TagListOfJoin(pad: string, tags: seq<string>)
    requires pad == [] || pad == " "
    requires |tags| > 0 && forall i :: 0 <= i < |tags| ==> WellFormedTag(tags[i])
    ensures TagList(pad + JoinTags(tags)) == tags
    decreases |tags|
  {
    if |tags| == 1 {
      LastTag(pad, tags[0]);
      assert JoinTags(tags) == tags[0] && tags == [tags[0]];
    } else {
      var first, others := tags[0], tags[1..];
      assert tags == [first] + others;
      JoinStep(pad, tags);
      forall i | 0 <= i < |others| ensures WellFormedTag(others[i]) {
        assert others[i] == tags[i + 1];
      }
      TagListOfJoin(" ", others);
    }
  }

  lemma JoinStep(pad: string, tags: seq<string>)
    requires pad == [] || pad == " "
    requires |tags| > 1 && WellFormedTag(tags[0])
    ensures TagList(pad + JoinTags(tags)) == [tags[0]] + TagList(" " + JoinTags(tags[1..]))
  {
    assert JoinTags(tags) == tags[0] + ", " + JoinTags(tags[1..]);
    FirstTag(pad, tags[0], JoinTags(tags[1..]));
  }

  /** A padded tag alone is a list of one. */
  lemma LastTag(pad: string, t: string)
    requires pad == [] || pad == " "
    requires WellFormedTag(t)
    ensures TagList(pad + t) == [t]
  {
    TrimPadded(pad, t);
    NoComma(pad);
    assert ',' !in pad + t;
  }

  /** A padded tag before ", " is the first of the list, and the rest is
      read after the comma. */
  lemma FirstTag(pad: string, t: string, rest: string)
    requires pad == [] || pad == " "
    requires WellFormedTag(t)
    ensures TagList(pad + (t + ", " + rest)) == [t] + TagList(" " + rest)
  {
    var g := pad + (t + ", " + rest);
    var n := |pad| + |t|;
    assert IndexOf(g, ',') == Some(n) && g[..n] == pad + t && g[n + 1..] == " " + rest by {
      CommaAfter(pad, t, rest, g);
    }
    assert Piece(pad + t) == [t] by {
      PieceOfPadded(pad, t);
    }
    TagListAtComma(g, n);
    SplitAt(g, n, pad + t, " " + rest, [t]);
  }

  /** The list at a comma, once its two sides are named. */
  lemma SplitAt(g: string, n: nat, front: string, back: string, first: seq<string>)
    requires n < |g| && TagList(g) == Piece(g[..n]) + TagList(g[n + 1..])
    requires g[..n] == front && g[n + 1..] == back && Piece(front) == first
    ensures TagList(g) == first + TagList(back)
  {
  }

  lemma PieceOfPadded(pad: string, t: string)
    requires pad == [] || pad == " "
    requires WellFormedTag(t)
    ensures Piece(pad + t) == [t]
  {
    TrimPadded(pad, t);
  }

  lemma CommaAfter(pad: string, t: string, rest: string, g: string)
    requires pad == [] || pad == " "
    requires ',' !in t
    requires g == pad + (t + ", " + rest)
    ensures IndexOf(g, ',') == Some(|pad| + |t|)
    ensures g[..|pad| + |t|] == pad + t
    ensures g[|pad| + |t| + 1..] == " " + rest
  {
    NoComma(pad);
    var n := |pad| + |t|;
    assert g[..n] == pad + t && g[n] == ',';
    assert ',' !in pad + t;
    IndexOfIs(g, ',', n);
  }

  lemma TagListAtComma(g: string, i: nat)
    requires IndexOf(g, ',') == Some(i)
    ensures TagList(g) == Piece(g[..i]) + TagList(g[i + 1..])
  {
  }

  lemma NoComma(pad: string)
    requires pad == [] || pad == " "
    ensures ',' !in pad
  {
  }

  /** The tag list read from a pressed text is the toggled list. */
  lemma ToggleTagsRoundTrip(current: Option<string>, t: Spot)
    ensures TagsOf(ToggleText(current, t)) == ToggledTags(current, t)
    ensures ParseLeadingInt(ToggleText(current, t)) == ParseLeadingInt(Base(current))
  {
    var tags := ToggledTags(current, t);
    var group := if |tags| > 0 then Some(JoinTags(tags)) else None;
    var mins := ParseLeadingInt(Base(current));
    OutdoorsLineGroup(mins, group);
    OutdoorsLineMinutes(mins, group);
    if |tags| > 0 {
      assert [] + JoinTags(tags) == JoinTags(tags);
      TagListOfJoin([], tags);
    }
  }

  /** Pressing an unselected tag selects it. */
  lemma ToggleSelects(current: Option<string>, t: Spot)
    requires !IsSelected(current, t)
    ensures IsSelected(Some(ToggleText(current, t)), t)
  {
    var tags := TagsOf(Base(current));
    var tag := SpotText(t);
    assert ToggledTags(current, t) == tags + [tag];
    LineHoldsLast(ParseLeadingInt(Base(current)), tags, tag);
  }

  lemma LineHoldsLast(mins: nat, tags: seq<string>, tag: string)
    ensures Contains(OutdoorsLine(mins, Some(JoinTags(tags + [tag]))), tag)
  {
    JoinEndsWith(tags, tag);
    var joined := JoinTags(tags + [tag]);
    var before := joined[..|joined| - |tag|];
    assert joined == before + tag;
    assert OutdoorsLine(mins, Some(joined)) == (NatToString(mins) + " mins (" + before) + tag + ")";
    ContainsConcat(NatToString(mins) + " mins (" + before, tag, ")");
  }

  lemma {:induction false} JoinEndsWith(tags: seq<string>, tag: string)
    ensures EndsWith(JoinTags(tags + [tag]), tag)
    decreases |tags|
  {
    if tags == [] {
      assert tags + [tag] == [tag];
    } else {
      assert (tags + [tag])[1..] == tags[1..] + [tag];
      JoinEndsWith(tags[1..], tag);
    }
  }

  /** Pressing a tag twice from unselected gives back the tags and the
      minutes of the text it started from. */
  lemma ToggleTwice(current: Option<string>, t: Spot)
    requires !IsSelected(current, t)
    ensures TagsOf(ToggleText(Some(ToggleText(current, t)), t)) == TagsOf(Base(current))
    ensures ParseLeadingInt(ToggleText(Some(ToggleText(current, t)), t)) == ParseLeadingInt(Base(current))
  {
    var tag := SpotText(t);
    var tags := TagsOf(Base(current));
    var once := ToggleText(current, t);
    ToggleTagsRoundTrip(current, t);
    ToggleSelects(current, t);
    ToggleTagsRoundTrip(Some(once), t);
    if current.None? {
      BaseGroup();
    } else {
      TagsContained(current.value);
    }
    assert tag !in tags;
    assert ToggledTags(Some(once), t) == Filter(tags + [tag], Unequal(tag));
    FilterAppend(tags, [tag], Unequal(tag));
    assert Filter([tag], Unequal(tag)) == [] by {
      assert [tag][..0] == [];
    }
    FilterAll(tags, Unequal(tag));
  }

  /** "0 mins" holds no tags. */
  lemma BaseGroup()
    ensures TagsOf("0 mins") == []
  {
    var s := "0 mins";
    assert '(' !in s;
  }
}
