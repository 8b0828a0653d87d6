// src/lib/ai/updateChatContext.ts: the conversation context carried between
// chat turns — a window of the last four messages, the topic in focus, the
// time range in discussion and the start of the last reply.
module ChatContext {
  import opened Wrappers
  import opened Text

  datatype Role = User | Assistant
  datatype ChatMessage = ChatMessage(role: Role, content: string)
  datatype Focus = General | Mood | Sleep | Stress
  datatype ChatRange = Days7 | Days30 | Days90
  datatype HumanStage = Greeting | Feeling | Support

  /** Every key is optional. */
  datatype Context = Context(
    messages: Option<seq<ChatMessage>>,
    focus: Option<Focus>,
    timeRange: Option<ChatRange>,
    lastInsight: Option<string>,
    lastHumanStage: Option<HumanStage>)

  const Empty := Context(None, None, None, None, None)

  /** `slice(-n)`: the last n elements, or all of them when there are fewer. */
  function Last<T>(s: seq<T>, n: nat): (r: seq<T>)
    ensures |r| == if |s| < n then |s| else n
    ensures r == s[|s| - |r|..]
  {
    if |s| <= n then s else s[|s| - n..]
  }

  /** Trimming the history before appending changes nothing: the window
      after any number of turns is the last n messages of the whole
      conversation. */
  lemma LastOfLast<T>(s: seq<T>, t: seq<T>, n: nat)
    ensures Last(Last(s, n) + t, n) == Last(s + t, n)
  {
    var a := Last(s, n) + t;
    var b := s + t;
    assert a == b[|b| - |a|..];
    assert |Last(a, n)| == |Last(b, n)|;
  }

  /** `prev.focus` kept when no topic keyword appears, `"general"` if unset. */
  function FocusOf(text: string, prev: Option<Focus>): (f: Focus)
    ensures Contains(text, "sleep") ==> f == Sleep
    ensures !Contains(text, "sleep") && Contains(text, "stress") ==> f == Stress
    ensures (!Contains(text, "sleep") && !Contains(text, "stress")
             && (Contains(text, "mood") || Contains(text, "feel"))) ==> f == Mood
    ensures (!Contains(text, "sleep") && !Contains(text, "stress") && !Contains(text, "mood")
             && !Contains(text, "feel")) ==> f == (if prev.Some? then prev.value else General)
  {
    if Contains(text, "sleep") then Sleep
    else if Contains(text, "stress") then Stress
    else if Contains(text, "mood") || Contains(text, "feel") then Mood
    else if prev.Some? then prev.value
    else General
  }

  /** `updateChatContext`, with an absent previous context as `None`. */
  method UpdateChatContext(prevContext: Option<Context>, userMessage: string, aiReply: string)
    returns (next: Context)
    ensures var prev := if prevContext.Some? then prevContext.value else Empty;
      var previous := if prev.messages.Some? then prev.messages.value else [];
      var text := Lower(userMessage);
      && next.messages == Some(Last(previous + [ChatMessage(User, userMessage), ChatMessage(Assistant, aiReply)], 4))
      && next.focus == Some(FocusOf(text, prev.focus))
      && next.timeRange == (if Contains(text, "90") then Some(Days90)
                            else if Contains(text, "month") then Some(Days30)
                            else if Contains(text, "week") then Some(Days7)
                            else prev.timeRange)
      && next.lastInsight == Some(aiReply[..if |aiReply| < 140 then |aiReply| else 140])
      && next.lastHumanStage == prev.lastHumanStage
  {
    var prev := if prevContext.Some? then prevContext.value else Empty;
    var text := Lower(userMessage);

    var previousMessages := if prev.messages.Some? then prev.messages.value else [];
    var updatedMessages := previousMessages + [ChatMessage(User, userMessage), ChatMessage(Assistant, aiReply)];
    var trimmedMessages := Last(updatedMessages, 4);

    next := prev.(messages := Some(trimmedMessages));

    if Contains(text, "sleep") {
      next := next.(focus := Some(Sleep));
    } else if Contains(text, "stress") {
      next := next.(focus := Some(Stress));
    } else if Contains(text, "mood") || Contains(text, "feel") {
      next := next.(focus := Some(Mood));
    } else if next.focus.None? {
      next := next.(focus := Some(General));
    }

    if Contains(text, "week") {
      next := next.(timeRange := Some(Days7));
    }
    if Contains(text, "month") {
      next := next.(timeRange := Some(Days30));
    }
    if Contains(text, "90") {
      next := next.(timeRange := Some(Days90));
    }

    next := next.(lastInsight := Some(aiReply[..if |aiReply| < 140 then |aiReply| else 140]));
  }

  /** The window never holds more than four messages, and ends with the
      user's message followed by the reply. */
  lemma WindowShape(previous: seq<ChatMessage>, userMessage: string, aiReply: string)
    ensures var w := Last(previous + [ChatMessage(User, userMessage), ChatMessage(Assistant, aiReply)], 4);
      2 <= |w| <= 4
      && w[|w| - 2] == ChatMessage(User, userMessage)
      && w[|w| - 1] == ChatMessage(Assistant, aiReply)
  {
  }

  /** The keywords are found whatever their case in the message: a word
      that lower-cases to "sleep" ("SLEEP", "Sleep") anywhere in it puts
      the focus on sleep. */
  lemma SleepInAnyCase(before: string, word: string, after: string, prev: Option<Focus>)
    requires Lower(word) == "sleep"
    ensures FocusOf(Lower(before + word + after), prev) == Sleep
  {
    var message := before + word + after;
    assert Lower(message) == Lower(before) + "sleep" + Lower(after) by {
      assert Lower(message)[..|before|] == Lower(before);
      assert Lower(message)[|before|..|before| + 5] == Lower(word);
      assert Lower(message)[|before| + 5..] == Lower(after);
    }
    ContainsConcat(Lower(before), "sleep", Lower(after));
  }
}
