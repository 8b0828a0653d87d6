// src/lib/ai/extractDateIntent.ts: the date window a chat message asks
// about, with today passed in as a day number.
module DateIntent {
  import opened Text

  datatype DateIntent =
    | SingleDay(date: int)
    | Range(start: int, end: int)
    | NoIntent

  /** `extractDateIntent`: "yesterday" first, then "last week" (the seven
      days before today), otherwise nothing. The end and start days are
      derived step by step as the source moves its date objects. */
  method ExtractDateIntent(message: string, today: int) returns (intent: DateIntent)
    ensures Contains(Lower(message), "yesterday") ==> intent == SingleDay(today - 1)
    ensures !Contains(Lower(message), "yesterday") && Contains(Lower(message), "last week")
            ==> intent == Range(today - 7, today - 1)
    ensures !Contains(Lower(message), "yesterday") && !Contains(Lower(message), "last week")
            ==> intent == NoIntent
    ensures intent.Range? ==> intent.end - intent.start + 1 == 7 && intent.end < today
  {
    var text := Lower(message);

    if Contains(text, "yesterday") {
      var d := today;
      d := d - 1;
      return SingleDay(d);
    }

    if Contains(text, "last week") {
      var end := today;
      end := end - 1;
      var start := end;
      start := start - 6;
      return Range(start, end);
    }

    return NoIntent;
  }

  /** "yesterday" wins even when "last week" also appears. */
  lemma YesterdayWins(a: string, b: string, c: string)
    ensures Contains(Lower(a + "yesterday" + b + "last week" + c), "yesterday")
  {
    var s := a + "yesterday" + b + "last week" + c;
    var t := Lower(s);
    assert t[|a|..|a| + 9] == Lower("yesterday");
    assert Lower("yesterday") == "yesterday";
    assert OccursAt(t, "yesterday", |a|);
  }
}
