// The onboarding questionnaire of src/app/onboarding/page.tsx: six steps
// (name, typical sleep, common problems, known conditions, location,
// baseline happiness), each checked when "Continue" is pressed, the last one
// saving the profile. The session lookup becomes a sign-in method and the
// profile upsert an outcome supplied by the caller.
module Onboarding {
  import opened Wrappers
  import opened Numeric
  import opened Text

  const LastStep := 6

  /** The answers the six steps collect. */
  datatype Answers = Answers(
    fullName: string,
    sleep: int,
    problems: string,
    conditions: string,
    location: string,
    happiness: int)

  /** The row written to `profiles` on the last step. */
  datatype Profile = Profile(id: string, answers: Answers)

  /** `!s.trim()`. */
  predicate Blank(s: string) { Trim(s) == [] }

  /** Whether the answer of one step is acceptable. */
  predicate StepAnswered(step: int, a: Answers) {
    match step
    case 1 => !Blank(a.fullName)
    case 2 => a.sleep > 0
    case 3 => !Blank(a.problems)
    case 4 => !Blank(a.conditions)
    case 5 => !Blank(a.location)
    case 6 => 0 <= a.happiness <= 10
    case _ => true
  }

  /** The message shown for a rejected answer at each step. */
  function Complaint(step: int): string {
    match step
    case 1 => "Full Name cannot be empty"
    case 2 => "Sleep hours must be greater than 0"
    case 3 => "Common Problems cannot be empty"
    case 4 => "Known Conditions cannot be empty"
    case 5 => "Location cannot be empty"
    case _ => "Happiness must be 0-10"
  }

  /** The validation `switch`: the step's complaint, or nothing when its
      answer passes (a step outside 1..6 checks nothing). */
  function Check(step: int, a: Answers): (r: Option<string>)
    ensures r.None? <==> StepAnswered(step, a)
    ensures step == 1 ==> (r.None? <==> exists i :: 0 <= i < |a.fullName| && !IsSpace(a.fullName[i]))
    ensures step == 2 ==> (r.None? <==> a.sleep >= 1)
    ensures step == 6 ==> (r.None? <==> 0 <= a.happiness <= 10)
    ensures r.Some? ==> 1 <= step <= LastStep && r.value == Complaint(step) && r.value != []
  {
    BlankIffAllSpace(a.fullName);
    match step
    case 1 => if Blank(a.fullName) then Some(Complaint(1)) else None
    case 2 => if a.sleep <= 0 then Some(Complaint(2)) else None
    case 3 => if Blank(a.problems) then Some(Complaint(3)) else None
    case 4 => if Blank(a.conditions) then Some(Complaint(4)) else None
    case 5 => if Blank(a.location) then Some(Complaint(5)) else None
    case 6 => if a.happiness < 0 || a.happiness > 10 then Some(Complaint(6)) else None
    case _ => None
  }

  /** The step after "Continue": one on when the answer passes and this is
      not the last step, otherwise unchanged. */
  function Advance(step: int, a: Answers): (r: int)
    ensures 1 <= step <= LastStep ==> 1 <= r <= LastStep
    ensures r == step || r == step + 1
    ensures r == step + 1 <==> StepAnswered(step, a) && step < LastStep
  {
    if Check(step, a).None? && step < LastStep then step + 1 else step
  }

  /** `k` presses of "Continue" with the answers unchanged. */
  function AdvanceTimes(step: int, a: Answers, k: nat): int
    decreases k
  {
    if k == 0 then step else AdvanceTimes(Advance(step, a), a, k - 1)
  }

  /** Answers that pass every step. */
  predicate Complete(a: Answers) {
    forall step :: 1 <= step <= LastStep ==> StepAnswered(step, a)
  }

  /** With complete answers each press moves one step on until the last
      step, where the form stays. */
  lemma {:induction false} CompleteAnswersReachEnd(step: int, a: Answers, k: nat)
    requires 1 <= step <= LastStep && Complete(a)
    ensures AdvanceTimes(step, a, k) == Min(step + k, LastStep)
    decreases k
  {
    if k > 0 {
      assert StepAnswered(step, a);
      CompleteAnswersReachEnd(Advance(step, a), a, k - 1);
    }
  }

  /** A rejected answer holds the form at its step however often
      "Continue" is pressed. */
  lemma {:induction false} RejectedAnswerBlocks(step: int, a: Answers, k: nat)
    requires !StepAnswered(step, a)
    ensures AdvanceTimes(step, a, k) == step
    decreases k
  {
    if k > 0 {
      RejectedAnswerBlocks(Advance(step, a), a, k - 1);
    }
  }

  /** `progress = (step / 6) * 100`. */
  function Progress(step: int): (p: real)
    ensures p * 6.0 == step as real * 100.0
  {
    (step as real / 6.0) * 100.0
  }

  /** The bar grows with the step, is never empty on a valid step, and is
      full exactly on the last step. */
  lemma ProgressBounds(s: int, t: int)
    requires 1 <= s <= t <= LastStep
    ensures 0.0 < Progress(s) <= Progress(t) <= 100.0
    ensures Progress(t) == 100.0 <==> t == LastStep
  {
  }

  class OnboardingForm {
    var step: int
    var answers: Answers
    var message: string
    var userId: Option<string>

    ghost predicate Valid()
      reads this
    {
      1 <= step <= LastStep
    }

    /** The initial state: step 1, eight hours of sleep, happiness 5. */
    constructor ()
      ensures Valid()
      ensures step == 1 && answers == Answers("", 8, "", "", "", 5)
      ensures message == "" && userId == None
    {
      step := 1;
      answers := Answers("", 8, "", "", "", 5);
      message := "";
      userId := None;
    }

    /** The session lookup: the user id, and the name from the account's
        metadata (empty when it has none). */
    method SignIn(id: string, metadataName: Option<string>)
      modifies this
      ensures userId == Some(id)
      ensures answers == old(answers).(fullName := if metadataName.Some? then metadataName.value else "")
      ensures step == old(step) && message == old(message)
    {
      userId := Some(id);
      answers := answers.(fullName := if metadataName.Some? then metadataName.value else "");
    }

    /** An edit of one of the inputs. */
    method Answer(a: Answers)
      modifies this
      ensures answers == a
      ensures step == old(step) && message == old(message) && userId == old(userId)
    {
      answers := a;
    }

    /** `handleNext`. The message is cleared, the step's answer checked; a
        passing answer before the last step moves on; on the last step the
        profile is saved when a user is signed in, and `upsertError` is what
        the save reports. `saved` is the row written, `finished` whether the
        form leaves for the dashboard. */
    method HandleNext(upsertError: Option<string>) returns (saved: Option<Profile>, finished: bool)
      requires Valid()
      modifies this
      ensures Valid()
      ensures answers == old(answers) && userId == old(userId)
      ensures step == Advance(old(step), answers)
      ensures Check(old(step), answers).Some? ==> message == Check(old(step), answers).value
      ensures Check(old(step), answers).None? && old(step) < LastStep ==> message == ""
      ensures saved.Some? <==>
        old(step) == LastStep && StepAnswered(LastStep, answers) && userId.Some? && userId.value != []
      ensures saved.Some? ==> saved.value == Profile(userId.value, answers)
      ensures old(step) == LastStep && StepAnswered(LastStep, answers) && saved.None? ==> message == "User not logged in"
      ensures saved.Some? ==> message == (if upsertError.Some? then upsertError.value else "")
      ensures finished <==> saved.Some? && upsertError.None?
    {
      message := "";
      saved, finished := None, false;
      var complaint := Check(step, answers);
      if complaint.Some? {
        message := complaint.value;
        return;
      }
      if step < LastStep {
        step := step + 1;
        return;
      }
      if userId.None? || userId.value == [] {
        message := "User not logged in";
        return;
      }
      saved := Some(Profile(userId.value, answers));
      if upsertError.Some? {
        message := upsertError.value;
        return;
      }
      finished := true;
    }

    /** The back arrow, shown only after the first step. */
    method Back()
      requires Valid() && step > 1
      modifies this
      ensures Valid()
      ensures step == old(step) - 1
      ensures answers == old(answers) && message == old(message) && userId == old(userId)
    {
      step := step - 1;
    }
  }
}
