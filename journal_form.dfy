// The new-journal wizard of src/app/journal/new/page.tsx: a form holding
// the entry being written and the current step (1 to 4), the exercise
// multi-select with its free-text "Other" entry, the quick-add buttons that
// edit the stress-trigger, caffeine and outdoors texts, and the submit
// validation. The date of the saved row is a day number given by the caller.
module JournalWizard {
  import opened Wrappers
  import opened Numeric
  import opened Text
  import Caffeine
  import Outdoors

  const TotalSteps := 4

  /** The fields of the entry that the wizard's own logic edits; the plain
      inputs (sliders, text areas) only copy a value in and are left out. */
  datatype Entry = Entry(
    mood: int,
    exercise: seq<string>,
    stressTriggers: string,
    caffeineIntake: string,
    timeOutdoors: Option<string>)

  const InitialEntry := Entry(5, [], "", "", None)

  // ---------------------------------------------------------------------
  // Exercise multi-select
  // ---------------------------------------------------------------------

  /** An "Other: ..." detail entry. */
  predicate IsOtherDetail(v: string) { StartsWith(v, "Other:") }

  /** Kept when "Other" is deselected: neither "Other" nor a detail entry. */
  predicate KeepWithoutOther(v: string) { v != "Other" && !IsOtherDetail(v) }

  /** `handleMultiSelect`: a chosen option is removed (every copy) and an
      unchosen one appended; "Other" brings its detail entry along and takes
      every detail entry away. */
  function MultiSelect(current: seq<string>, value: string): (r: seq<string>)
    ensures value in current ==> value !in r
    ensures value !in current ==> |r| > |current| && value in r && r[..|current|] == current
    ensures value !in current && value != "Other" ==> r == current + [value]
    ensures value !in current && value == "Other" ==> r == current + ["Other", "Other: "]
    ensures value in current && value == "Other" ==> forall v :: v in r <==> v in current && KeepWithoutOther(v)
    ensures value in current && value != "Other" ==> forall v :: v in r <==> v in current && v != value
  {
    if value in current then
      if value == "Other" then
        FilterMembers(current, KeepWithoutOther);
        Filter(current, KeepWithoutOther)
      else
        FilterMembers(current, Unequal(value));
        Filter(current, Unequal(value))
    else if value == "Other" then current + ["Other", "Other: "]
    else current + [value]
  }

  /** Choosing an option and choosing it again restores the list, provided
      the option (and, for "Other", any detail entry) was not there. */
  lemma MultiSelectTwice(current: seq<string>, value: string)
    requires value !in current
    requires value == "Other" ==> forall v :: v in current ==> !IsOtherDetail(v)
    ensures MultiSelect(MultiSelect(current, value), value) == current
  {
    if value == "Other" {
      assert IsOtherDetail("Other: ") by {
        assert "Other: "[..|"Other:"|] == "Other:";
      }
      FilterAppend(current, ["Other", "Other: "], KeepWithoutOther);
      FilterAll(current, KeepWithoutOther);
      assert ["Other", "Other: "][..1] == ["Other"];
      assert [ "Other" ][..0] == [];
    } else {
      FilterAppend(current, [value], Unequal(value));
      FilterAll(current, Unequal(value));
      assert [value][..0] == [];
    }
  }

  /** `handleOtherExerciseChange`: every detail entry becomes "Other: text". */
  function RewriteOther(current: seq<string>, text: string): (r: seq<string>)
    ensures |r| == |current|
    ensures forall i :: 0 <= i < |current| && !IsOtherDetail(current[i]) ==> r[i] == current[i]
    ensures forall i :: 0 <= i < |current| && IsOtherDetail(current[i]) ==> r[i] == "Other: " + text
  {
    seq(|current|, i requires 0 <= i < |current| => if IsOtherDetail(current[i]) then "Other: " + text else current[i])
  }

  lemma OtherDetailText(text: string)
    ensures IsOtherDetail("Other: " + text)
  {
    assert ("Other: " + text)[..|"Other:"|] == "Other:";
  }

  /** Typing into the detail box twice keeps only the last text. */
  lemma RewriteOtherLastWins(current: seq<string>, first: string, second: string)
    ensures RewriteOther(RewriteOther(current, first), second) == RewriteOther(current, second)
  {
    OtherDetailText(first);
  }

  /** `exercisesToSave`: "Other" and an untyped detail entry are dropped. */
  predicate Saved(v: string) { v != "Other" && Trim(v) != "Other:" }

  function ExercisesToSave(exercise: seq<string>): (r: seq<string>)
    ensures forall v :: v in r <==> v in exercise && v != "Other" && Trim(v) != "Other:"
    ensures |r| <= |exercise|
  {
    FilterMembers(exercise, Saved);
    Filter(exercise, Saved)
  }

  lemma TrimOtherPlaceholder()
    ensures Trim("Other: ") == "Other:"
  {
    TrimOneTrailingSpace("Other:");
    assert "Other:" + " " == "Other: ";
  }

  /** Choosing "Other" and typing nothing adds nothing to the saved list. */
  lemma UntypedOtherNotSaved(exercise: seq<string>)
    ensures ExercisesToSave(exercise + ["Other", "Other: "]) == ExercisesToSave(exercise)
  {
    TrimOtherPlaceholder();
    FilterAppend(exercise, ["Other", "Other: "], Saved);
    assert ["Other", "Other: "][..1] == ["Other"];
    assert ["Other"][..0] == [];
  }

  // ---------------------------------------------------------------------
  // Stress-trigger quick-add: "Tag" at the end becomes "Tag x2", "Tag xN"
  // becomes "Tag x(N+1)", anything else gets ", Tag" appended
  // ---------------------------------------------------------------------

  datatype Trigger = Work | Deadlines | Social | Sleep | Health

  function TriggerText(t: Trigger): (s: string)
    ensures |s| > 0 && !IsDigit(s[|s| - 1]) && !IsSpace(s[0]) && !IsSpace(s[|s| - 1])
  {
    match t
    case Work => "Work"
    case Deadlines => "Deadlines"
    case Social => "Social"
    case Sleep => "Sleep"
    case Health => "Health"
  }

  /** The text ends with "tag xN" for the trailing digits N (the first
      alternative of the pattern `tag( xN)?$`). */
  predicate EndsWithCounted(s: string, tag: string) {
    TrailingDigits(s) != [] && EndsWith(s, tag + " x" + TrailingDigits(s))
  }

  /** How many times the text's last trigger counts `tag`: N for a trailing
      "tag xN", 1 for a bare trailing "tag", 0 otherwise. */
  function TrailingCount(s: string, tag: string): nat {
    if EndsWithCounted(s, tag) then DigitsValue(TrailingDigits(s))
    else if EndsWith(s, tag) then 1
    else 0
  }

  /** The quick-add button on `stress_triggers` (undefined read as ""). */
  function AddStressTrigger(text: string, t: Trigger): (r: string)
    ensures var current := Trim(text);
      !EndsWithCounted(current, TriggerText(t)) && !EndsWith(current, TriggerText(t))
      ==> r == (if current == [] then TriggerText(t) else current + ", " + TriggerText(t))
  {
    Retag(Trim(text), TriggerText(t))
  }

  /** The button's edit of the trimmed text: the regex replacement when the
      tag (with an optional count) ends the text, the append otherwise. */
  function Retag(current: string, tag: string): string {
    if EndsWithCounted(current, tag) then
      var digits := TrailingDigits(current);
      Recount(current, tag, 2 + |digits|, DigitsValue(digits))
    else if EndsWith(current, tag) then Recount(current, tag, 0, 1)
    else if current == [] then tag
    else current + ", " + tag
  }

  /** The matched "tag" or "tag xN" (its last |tag| + extra characters)
      replaced by "tag x(count+1)". */
  function Recount(current: string, tag: string, extra: nat, count: nat): string
    requires |tag| + extra <= |current|
  {
    current[..|current| - |tag| - extra] + tag + " x" + NatToString(count + 1)
  }

  /** Each press adds exactly one to the trailing count of that trigger. */
  lemma AddStressTriggerCounts(text: string, t: Trigger)
    ensures TrailingCount(AddStressTrigger(text, t), TriggerText(t)) == TrailingCount(Trim(text), TriggerText(t)) + 1
  {
    var current := Trim(text);
    var tag := TriggerText(t);
    if EndsWithCounted(current, tag) {
      RetagCounted(current, tag);
    } else if EndsWith(current, tag) {
      RetagBare(current, tag);
    } else if current == [] {
      NoTrailingDigits(tag);
      assert tag[|tag| - |tag|..] == tag;
    } else {
      RetagAppend(current, tag);
    }
  }

  lemma RetagCounted(current: string, tag: string)
    requires EndsWithCounted(current, tag)
    ensures TrailingCount(Retag(current, tag), tag) == TrailingCount(current, tag) + 1
  {
    var digits := TrailingDigits(current);
    assert Retag(current, tag) == Recount(current, tag, 2 + |digits|, DigitsValue(digits));
    RecountCounts(current, tag, 2 + |digits|, DigitsValue(digits));
  }

  lemma RetagBare(current: string, tag: string)
    requires !EndsWithCounted(current, tag) && EndsWith(current, tag)
    ensures TrailingCount(Retag(current, tag), tag) == TrailingCount(current, tag) + 1
  {
    assert Retag(current, tag) == Recount(current, tag, 0, 1);
    RecountCounts(current, tag, 0, 1);
  }

  /** The replacement "tag x(count+1)" counts count+1. */
  lemma RecountCounts(current: string, tag: string, extra: nat, count: nat)
    requires |tag| + extra <= |current|
    ensures TrailingCount(Recount(current, tag, extra, count), tag) == count + 1
  {
    CountedSuffix(current[..|current| - |tag| - extra], tag, count + 1);
  }

  lemma RetagAppend(current: string, tag: string)
    requires |tag| > 0 && !IsDigit(tag[|tag| - 1])
    requires !EndsWithCounted(current, tag) && !EndsWith(current, tag) && current != []
    ensures TrailingCount(Retag(current, tag), tag) == TrailingCount(current, tag) + 1
  {
    var r := current + ", " + tag;
    NoTrailingDigits(r);
    assert r[|r| - |tag|..] == tag;
  }

  /** "prefix tag xN" counts N. */
  lemma CountedSuffix(prefix: string, tag: string, n: nat)
    ensures TrailingCount(prefix + tag + " x" + NatToString(n), tag) == n
  {
    CountedSuffixOf(prefix, tag, NatToString(n));
  }

  lemma CountedSuffixOf(prefix: string, tag: string, digits: string)
    requires digits != [] && AllDigits(digits)
    ensures TrailingCount(prefix + tag + " x" + digits, tag) == DigitsValue(digits)
  {
    var head := prefix + tag + " x";
    var s := head + digits;
    var counted := tag + " x" + digits;
    assert TrailingDigits(s) == digits by {
      assert head[|head| - 1] == 'x';
      TrailingDigitsOfConcat(head, digits);
    }
    assert EndsWith(s, counted) by {
      Regroup(prefix, tag, " x", digits);
      EndsWithConcat(prefix, counted);
    }
    CountedByParts(s, tag, digits);
  }

  lemma CountedByParts(s: string, tag: string, digits: string)
    requires digits != [] && TrailingDigits(s) == digits
    requires EndsWith(s, tag + " x" + digits)
    ensures TrailingCount(s, tag) == DigitsValue(digits)
  {
  }

  /** The result has no surrounding whitespace, so pressing again works on it
      unchanged: two presses add two. */
  lemma AddStressTriggerTwice(text: string, t: Trigger)
    ensures TrailingCount(AddStressTrigger(AddStressTrigger(text, t), t), TriggerText(t)) == TrailingCount(Trim(text), TriggerText(t)) + 2
  {
    var once := AddStressTrigger(text, t);
    AddStressTriggerTrimmed(text, t);
    AddStressTriggerCounts(text, t);
    AddStressTriggerCounts(once, t);
  }

  lemma AddStressTriggerTrimmed(text: string, t: Trigger)
    ensures Trim(AddStressTrigger(text, t)) == AddStressTrigger(text, t)
  {
    var r := AddStressTrigger(text, t);
    RetagUnpadded(Trim(text), TriggerText(t));
    TrimmedAlready(r);
  }

  /** Retagging text without surrounding whitespace gives text without it. */
  lemma RetagUnpadded(current: string, tag: string)
    requires current == [] || (!IsSpace(current[0]) && !IsSpace(current[|current| - 1]))
    requires |tag| > 0 && !IsSpace(tag[0]) && !IsSpace(tag[|tag| - 1])
    ensures var r := Retag(current, tag); r != [] && !IsSpace(r[0]) && !IsSpace(r[|r| - 1])
  {
    if EndsWithCounted(current, tag) {
      var digits := TrailingDigits(current);
      RecountUnpadded(current, tag, 2 + |digits|, DigitsValue(digits));
    } else if EndsWith(current, tag) {
      RecountUnpadded(current, tag, 0, 1);
    } else if current != [] {
      var r := current + ", " + tag;
      assert r[0] == current[0] && r[|r| - 1] == tag[|tag| - 1];
    }
  }

  lemma RecountUnpadded(current: string, tag: string, extra: nat, count: nat)
    requires |tag| + extra <= |current|
    requires current == [] || !IsSpace(current[0])
    requires |tag| > 0 && !IsSpace(tag[0])
    ensures var r := Recount(current, tag, extra, count); r != [] && !IsSpace(r[0]) && IsDigit(r[|r| - 1])
  {
    var head := current[..|current| - |tag| - extra];
    var digits := NatToString(count + 1);
    var r := head + tag + " x" + digits;
    assert r[|r| - 1] == digits[|digits| - 1];
    if head == [] {
      assert r[0] == tag[0];
    } else {
      assert r[0] == current[0];
    }
  }

  // ---------------------------------------------------------------------
  // Submit
  // ---------------------------------------------------------------------

  /** The body POSTed to the journal route, `{...entry, date, exercise}`:
      the entry's fields, today's date, and in place of the entry's own
      exercise list the saved list or null. */
  datatype Payload = Payload(
    mood: int,
    exercise: Option<seq<string>>,
    stressTriggers: string,
    caffeineIntake: string,
    timeOutdoors: Option<string>,
    date: int)

  datatype Submission = MoodMissing | SessionExpired | Post(payload: Payload)

  /** `handleSubmit`: a mood of 0 is refused first, then a missing user. */
  function Submit(entry: Entry, userId: Option<string>, today: int): (s: Submission)
    ensures s == MoodMissing <==> entry.mood == 0
    ensures s == SessionExpired <==> entry.mood != 0 && (userId.None? || userId.value == "")
    ensures s.Post? ==>
      && s.payload.date == today && s.payload.mood == entry.mood
      && s.payload.stressTriggers == entry.stressTriggers && s.payload.caffeineIntake == entry.caffeineIntake
      && s.payload.timeOutdoors == entry.timeOutdoors
    ensures s.Post? ==> (s.payload.exercise.None? <==> ExercisesToSave(entry.exercise) == [])
    ensures s.Post? && s.payload.exercise.Some? ==> s.payload.exercise.value == ExercisesToSave(entry.exercise)
  {
    if entry.mood == 0 then MoodMissing
    else if userId.None? || userId.value == "" then SessionExpired
    else
      var toSave := ExercisesToSave(entry.exercise);
      Post(Payload(entry.mood, if |toSave| > 0 then Some(toSave) else None,
                   entry.stressTriggers, entry.caffeineIntake, entry.timeOutdoors, today))
  }

  // ---------------------------------------------------------------------
  // Mood label
  // ---------------------------------------------------------------------

  datatype MoodLabel = ToughDay | FeelingLow | DoingOkay | PrettyGood | FeelingGreat

  function MoodLabelOf(mood: int): (l: MoodLabel)
    ensures l == ToughDay <==> mood <= 2
    ensures l == FeelingLow <==> 2 < mood <= 4
    ensures l == DoingOkay <==> 4 < mood <= 6
    ensures l == PrettyGood <==> 6 < mood <= 8
    ensures l == FeelingGreat <==> mood > 8
  {
    if mood <= 2 then ToughDay
    else if mood <= 4 then FeelingLow
    else if mood <= 6 then DoingOkay
    else if mood <= 8 then PrettyGood
    else FeelingGreat
  }

  function LabelRank(l: MoodLabel): nat {
    match l
    case ToughDay => 0
    case FeelingLow => 1
    case DoingOkay => 2
    case PrettyGood => 3
    case FeelingGreat => 4
  }

  /** A higher mood never shows a gloomier label. */
  lemma MoodLabelMonotone(a: int, b: int)
    requires a <= b
    ensures LabelRank(MoodLabelOf(a)) <= LabelRank(MoodLabelOf(b))
  {
  }

  /** Every two slider steps move to the next label, from 1 to 10. */
  lemma MoodLabelsOfSlider()
    ensures MoodLabelOf(1) == ToughDay && MoodLabelOf(2) == ToughDay
    ensures MoodLabelOf(3) == FeelingLow && MoodLabelOf(4) == FeelingLow
    ensures MoodLabelOf(5) == DoingOkay && MoodLabelOf(6) == DoingOkay
    ensures MoodLabelOf(7) == PrettyGood && MoodLabelOf(8) == PrettyGood
    ensures MoodLabelOf(9) == FeelingGreat && MoodLabelOf(10) == FeelingGreat
  {
  }

  // ---------------------------------------------------------------------
  // The form
  // ---------------------------------------------------------------------

  class JournalForm {
    var entry: Entry
    var currentStep: int

    ghost predicate Valid()
      reads this
    {
      1 <= currentStep <= TotalSteps
    }

    constructor ()
      ensures Valid()
      ensures entry == InitialEntry && currentStep == 1
    {
      entry := InitialEntry;
      currentStep := 1;
    }

    /** `nextStep`: one step on, never past the last. */
    method NextStep()
      requires Valid()
      modifies this
      ensures Valid()
      ensures currentStep == Min(old(currentStep) + 1, TotalSteps)
      ensures entry == old(entry)
    {
      currentStep := Min(currentStep + 1, TotalSteps);
    }

    /** `prevStep`: one step back, never before the first. */
    method PrevStep()
      requires Valid()
      modifies this
      ensures Valid()
      ensures currentStep == Max(old(currentStep) - 1, 1)
      ensures entry == old(entry)
    {
      currentStep := Max(currentStep - 1, 1);
    }

    method SelectExercise(value: string)
      modifies this
      ensures entry == old(entry).(exercise := MultiSelect(old(entry).exercise, value))
      ensures currentStep == old(currentStep)
    {
      entry := entry.(exercise := MultiSelect(entry.exercise, value));
    }

    method ChangeOtherExercise(text: string)
      modifies this
      ensures entry == old(entry).(exercise := RewriteOther(old(entry).exercise, text))
      ensures currentStep == old(currentStep)
    {
      entry := entry.(exercise := RewriteOther(entry.exercise, text));
    }

    method PressStressTrigger(t: Trigger)
      modifies this
      ensures entry == old(entry).(stressTriggers := AddStressTrigger(old(entry).stressTriggers, t))
      ensures currentStep == old(currentStep)
    {
      entry := entry.(stressTriggers := AddStressTrigger(entry.stressTriggers, t));
    }

    /** A caffeine quick-add button: the drink's count raised by one in
        the caffeine text, or "1 <drink>" appended. */
    method PressCaffeine(d: Caffeine.Drink)
      modifies this
      ensures entry == old(entry).(caffeineIntake := Caffeine.AddCaffeine(old(entry).caffeineIntake, d))
      ensures currentStep == old(currentStep)
    {
      entry := entry.(caffeineIntake := Caffeine.AddCaffeine(entry.caffeineIntake, d));
    }

    /** The outdoors slider: the new minutes, the bracketed group kept. */
    method SetOutdoorMinutes(mins: nat)
      modifies this
      ensures entry == old(entry).(timeOutdoors := Some(Outdoors.SliderText(old(entry).timeOutdoors, mins)))
      ensures currentStep == old(currentStep)
    {
      entry := entry.(timeOutdoors := Some(Outdoors.SliderText(entry.timeOutdoors, mins)));
    }

    /** An outdoors tag button: read the minutes and the tags, remove the
        tag when the text already mentions it or append it, and write
        "M mins (tags)" back. */
    method ToggleOutdoorTag(t: Outdoors.Spot)
      modifies this
      ensures entry == old(entry).(timeOutdoors := Some(Outdoors.ToggleText(old(entry).timeOutdoors, t)))
      ensures currentStep == old(currentStep)
    {
      var isSelected := Outdoors.IsSelected(entry.timeOutdoors, t);
      var currentStr := Outdoors.Base(entry.timeOutdoors);
      var mins := ParseLeadingInt(currentStr);
      var currentTags := Outdoors.TagsOf(currentStr);
      if isSelected {
        currentTags := Filter(currentTags, Unequal(Outdoors.SpotText(t)));
      } else {
        currentTags := currentTags + [Outdoors.SpotText(t)];
      }
      var updatedStr := NatToString(mins) + " mins";
      assert currentTags == Outdoors.ToggledTags(entry.timeOutdoors, t);
      ghost var group := if |currentTags| > 0 then Some(Outdoors.JoinTags(currentTags)) else None;
      Outdoors.OutdoorsLineText(mins, group);
      if |currentTags| > 0 {
        updatedStr := updatedStr + " (" + Outdoors.JoinTags(currentTags) + ")";
      }
      assert Outdoors.ToggleText(entry.timeOutdoors, t) == Outdoors.OutdoorsLine(mins, group);
      entry := entry.(timeOutdoors := Some(updatedStr));
    }

    /** The submit button: the form itself does not change. */
    method SubmitEntry(userId: Option<string>, today: int) returns (s: Submission)
      ensures s == Submit(entry, userId, today)
    {
      s := Submit(entry, userId, today);
    }
  }
}
