/**
 * The canned reply generator of the chat client: an ordered table of
 * substring tests on the lowercased input, where the first matching rule
 * wins, and a fixed fallback.
 */
module Responses {
  import opened Text

  /** A reply text with the category tags shown under it. */
  datatype Reply = Reply(text: string, categories: seq<string>)

  /** Which of the eight canned replies the generator picks. */
  datatype Topic = Greeting | Weather | MachineLearning | Humor | Programming | Gratitude | Farewell | Fallback

  /** The text of each canned reply. */
  function ReplyText(t: Topic): string {
    match t
    case Greeting => "Hello! How can I assist you today?"
    case Weather => "I don't have access to real-time weather data, but I can tell you that weather patterns are influenced by atmospheric pressure, temperature, humidity, and air movement. What specific weather information are you looking for?"
    case MachineLearning => "Machine learning is a branch of artificial intelligence that focuses on building systems that learn from data. There are several types including supervised learning, unsupervised learning, and reinforcement learning. Would you like to know more about a specific type?"
    // The reply ends with four characters: the UTF-8 bytes of an emoji as the file decodes them.
    case Humor => "Why don't scientists trust atoms? Because they make up everything! \U{F0}\U{178}\U{2DC}\U{201E}"
    case Programming => "Python is a high-level, interpreted programming language known for its readability and simplicity. It's widely used in data science, web development, and automation. Would you like to see an example of Python code?"
    case Gratitude => "You're welcome! If you have any other questions, feel free to ask."
    case Farewell => "Goodbye! Have a great day!"
    case Fallback => "That's an interesting question. While I don't have specific information on that topic, I'd be happy to discuss it further. Could you provide more details about what you're looking for?"
  }

  /** The category tags shown under each canned reply: one to four of them. */
  function ReplyCategories(t: Topic): (cs: seq<string>)
    ensures 1 <= |cs| <= 4
  {
    match t
    case Greeting => ["Greeting", "Introduction"]
    case Weather => ["Weather", "Meteorology", "Clarification"]
    case MachineLearning => ["Machine Learning", "AI", "Technology", "Education"]
    case Humor => ["Humor", "Science"]
    case Programming => ["Programming", "Python", "Technology"]
    case Gratitude => ["Gratitude", "Conclusion"]
    case Farewell => ["Farewell"]
    case Fallback => ["General", "Clarification"]
  }

  /** The reply object `generateResponse` builds for a topic. */
  function ReplyFor(t: Topic): Reply {
    Reply(ReplyText(t), ReplyCategories(t))
  }

  /** `generateResponse`'s if/else chain, on the already lowercased input. */
  function Respond(lower: string): Topic {
    if Includes(lower, "hello") || Includes(lower, "hi") || Includes(lower, "hey") then Greeting
    else if Includes(lower, "weather") then Weather
    else if Includes(lower, "machine learning") || Includes(lower, "ai") || Includes(lower, "artificial intelligence") then MachineLearning
    else if Includes(lower, "joke") || Includes(lower, "funny") then Humor
    else if Includes(lower, "python") || Includes(lower, "code") || Includes(lower, "programming") then Programming
    else if Includes(lower, "thank") then Gratitude
    else if Includes(lower, "bye") || Includes(lower, "goodbye") then Farewell
    else Fallback
  }

  /** `generateResponse(userMessage)`: the message is lowercased, then the chain picks the reply. */
  function Classify(userMessage: string): Topic {
    Respond(Lower(userMessage))
  }

  // ---- an independent, table-driven reading of the same rules ----

  /** One row of the rule table: any trigger occurring in the input selects the reply. */
  datatype Rule = Rule(triggers: seq<string>, topic: Topic)

  const Rules: seq<Rule> := [
    Rule(["hello", "hi", "hey"], Greeting),
    Rule(["weather"], Weather),
    Rule(["machine learning", "ai", "artificial intelligence"], MachineLearning),
    Rule(["joke", "funny"], Humor),
    Rule(["python", "code", "programming"], Programming),
    Rule(["thank"], Gratitude),
    Rule(["bye", "goodbye"], Farewell)
  ]

  /** Some trigger of the list occurs in the input. */
  predicate AnyIncluded(lower: string, triggers: seq<string>) {
    triggers != [] && (Includes(lower, triggers[0]) || AnyIncluded(lower, triggers[1..]))
  }

  /** `AnyIncluded` holds exactly when one of the triggers occurs in the input. */
  lemma {:induction false} AnyIncludedIff(lower: string, triggers: seq<string>)
    ensures AnyIncluded(lower, triggers) <==> exists t :: t in triggers && Includes(lower, t)
  {
    if triggers != [] {
      AnyIncludedIff(lower, triggers[1..]);
      assert triggers[0] in triggers;
      assert forall t :: t in triggers <==> t == triggers[0] || t in triggers[1..];
    }
  }

  predicate Fires(rule: Rule, lower: string) {
    AnyIncluded(lower, rule.triggers)
  }

  /** The position of the first rule that fires, or `|rules|` when none does. */
  function FirstMatch(rules: seq<Rule>, lower: string): (k: nat)
    ensures k <= |rules|
    ensures k < |rules| ==> Fires(rules[k], lower)
    ensures forall j :: 0 <= j < k ==> !Fires(rules[j], lower)
  {
    if rules == [] then 0
    else if Fires(rules[0], lower) then 0
    else 1 + FirstMatch(rules[1..], lower)
  }

  /** The reply of the first rule that fires, else the fallback. */
  function TableResponse(lower: string): Topic {
    var k := FirstMatch(Rules, lower);
    if k < |Rules| then Rules[k].topic else Fallback
  }

  lemma AnyOfOne(lower: string, a: string)
    ensures AnyIncluded(lower, [a]) == Includes(lower, a)
  {
  }

  lemma AnyOfTwo(lower: string, a: string, b: string)
    ensures AnyIncluded(lower, [a, b]) == (Includes(lower, a) || Includes(lower, b))
  {
    assert [a, b][1..] == [b];
    AnyOfOne(lower, b);
  }

  lemma AnyOfThree(lower: string, a: string, b: string, c: string)
    ensures AnyIncluded(lower, [a, b, c]) == (Includes(lower, a) || Includes(lower, b) || Includes(lower, c))
  {
    assert [a, b, c][1..] == [b, c];
    AnyOfTwo(lower, b, c);
  }

  /** The if/else chain and the first-match table agree on every input. */
  lemma RespondIsFirstMatch(lower: string)
    ensures Respond(lower) == TableResponse(lower)
  {
    AnyOfThree(lower, "hello", "hi", "hey");
    AnyOfOne(lower, "weather");
    AnyOfThree(lower, "machine learning", "ai", "artificial intelligence");
    AnyOfTwo(lower, "joke", "funny");
    AnyOfThree(lower, "python", "code", "programming");
    AnyOfOne(lower, "thank");
    AnyOfTwo(lower, "bye", "goodbye");
    var k := FirstMatch(Rules, lower);
    if Fires(Rules[0], lower) {
      assert k == 0;
    } else if Fires(Rules[1], lower) {
      assert k == 1;
    } else if Fires(Rules[2], lower) {
      assert k == 2;
    } else if Fires(Rules[3], lower) {
      assert k == 3;
    } else if Fires(Rules[4], lower) {
      assert k == 4;
    } else if Fires(Rules[5], lower) {
      assert k == 5;
    } else if Fires(Rules[6], lower) {
      assert k == 6;
    } else {
      assert k == 7;
    }
  }

  /** The reply is that of the first rule, in table order, with a trigger in the input. */
  lemma FirstFiringRuleWins(lower: string, k: nat)
    requires k < |Rules| && Fires(Rules[k], lower)
    requires forall j :: 0 <= j < k ==> !Fires(Rules[j], lower)
    ensures Respond(lower) == Rules[k].topic
  {
    RespondIsFirstMatch(lower);
    var m := FirstMatch(Rules, lower);
    assert m == k;
  }

  /** No trigger of any rule occurs in the input. */
  predicate NoTriggerOccurs(lower: string) {
    forall j, t :: 0 <= j < |Rules| && t in Rules[j].triggers ==> !Includes(lower, t)
  }

  /** The fallback is given exactly when no trigger of any rule occurs in the input. */
  lemma FallbackExactly(lower: string)
    ensures Respond(lower) == Fallback <==> NoTriggerOccurs(lower)
  {
    RespondIsFirstMatch(lower);
    var k := FirstMatch(Rules, lower);
    forall j | 0 <= j < |Rules| {
      AnyIncludedIff(lower, Rules[j].triggers);
    }
    if k < |Rules| {
      var t :| t in Rules[k].triggers && Includes(lower, t);
    }
  }

  /** A greeting keyword anywhere in the input decides the reply, whatever else the input holds. */
  lemma GreetingWins(lower: string)
    requires Includes(lower, "hello") || Includes(lower, "hi") || Includes(lower, "hey")
    ensures Respond(lower) == Greeting
  {
  }

  /** "machine learning" contains "hi" ("mac-hi-ne"), so the greeting rule always answers it first. */
  lemma MachineLearningIsGreeting(lower: string)
    requires Includes(lower, "machine learning")
    ensures Respond(lower) == Greeting && Respond(lower) != MachineLearning
  {
    assert OccursAt("machine learning", "hi", 3);
    IncludesTransitive(lower, "machine learning", "hi");
  }

  /** "goodbye" contains "bye", so the farewell rule fires exactly when "bye" occurs. */
  lemma GoodbyeNeedsNoOwnTest(lower: string)
    ensures Fires(Rules[6], lower) <==> Includes(lower, "bye")
  {
    AnyOfTwo(lower, "bye", "goodbye");
    if Includes(lower, "goodbye") {
      assert OccursAt("goodbye", "bye", 4);
      IncludesTransitive(lower, "goodbye", "bye");
    }
  }

  /** Only the lowercased message matters: any two spellings that lowercase alike get the same reply. */
  lemma CaseInsensitive(a: string, b: string)
    requires Lower(a) == Lower(b)
    ensures Classify(a) == Classify(b)
    ensures Classify(Lower(a)) == Classify(a)
  {
    LowerIdempotent(a);
  }

  /** "hi, tell me a joke" is answered by the greeting rule, not the humour rule. */
  lemma GreetingBeforeJoke()
    ensures Respond("hi, tell me a joke") == Greeting
  {
    assert OccursAt("hi, tell me a joke", "hi", 0);
  }

  /** An input with no keyword at all, such as "xyzzy", gets the fallback reply. */
  lemma UnknownInputFallsBack()
    ensures Respond("xyzzy") == Fallback
  {
    var s := "xyzzy";
    NotIncludedWithoutChar(s, "hello", 0);
    NotIncludedWithoutChar(s, "hi", 0);
    NotIncludedWithoutChar(s, "hey", 0);
    NotIncludedWithoutChar(s, "weather", 0);
    NotIncludedWithoutChar(s, "machine learning", 0);
    NotIncludedWithoutChar(s, "ai", 0);
    NotIncludedWithoutChar(s, "artificial intelligence", 0);
    NotIncludedWithoutChar(s, "joke", 0);
    NotIncludedWithoutChar(s, "funny", 0);
    NotIncludedWithoutChar(s, "python", 0);
    NotIncludedWithoutChar(s, "code", 0);
    NotIncludedWithoutChar(s, "programming", 0);
    NotIncludedWithoutChar(s, "thank", 0);
    NotIncludedWithoutChar(s, "bye", 0);
    NotIncludedWithoutChar(s, "goodbye", 0);
  }
}
