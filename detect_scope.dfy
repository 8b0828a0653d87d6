// src/lib/ai/detectScope.ts: a keyword blacklist that marks a chat message
// as outside the assistant's scope.
module DetectScope {
  import opened Text

  datatype QuestionScope = Allowed | OutOfScope

  const Blacklist: seq<string> := ["weather", "temperature", "news", "stocks", "cricket", "football"]

  /** `detectScope`: out of scope exactly when the lower-cased message
      contains one of the blacklisted words anywhere, even inside a word. */
  function DetectScope(message: string): (r: QuestionScope)
    ensures r == OutOfScope <==> exists w :: w in Blacklist && Contains(Lower(message), w)
  {
    var text := Lower(message);
    if Contains(text, "weather") || Contains(text, "temperature") || Contains(text, "news")
       || Contains(text, "stocks") || Contains(text, "cricket") || Contains(text, "football")
    then OutOfScope
    else Allowed
  }

  /** Matching ignores case: lower-casing the message first changes nothing. */
  lemma ScopeIgnoresCase(message: string)
    ensures DetectScope(Lower(message)) == DetectScope(message)
  {
    LowerIdempotent(message);
  }

  /** Matching is by substring: "newsletter" is out of scope. */
  lemma NewsletterIsOutOfScope()
    ensures DetectScope("newsletter") == OutOfScope
  {
    var text := Lower("newsletter");
    assert text == "newsletter";
    assert OccursAt(text, "news", 0);
  }

  /** Any message shorter than every blacklisted word, the empty one
      included, is allowed. */
  lemma ShortMessagesAllowed(message: string)
    requires |message| < 4
    ensures DetectScope(message) == Allowed
  {
    forall w | w in Blacklist
      ensures !Contains(Lower(message), w)
    {
      NotContainsInShorter(Lower(message), w);
    }
  }
}
