/**
 * Whole event sequences driven through the session, each ending in the
 * state the chat client reaches.
 */
module Scenarios {
  import opened Wrappers
  import opened Text
  import opened Responses
  import opened Tags
  import opened Typing
  import opened Session

  /** "hello" is already trimmed. */
  lemma HelloIsTrimmed()
    ensures Trim("hello") == "hello"
  {
    TrimOfTrimmed("hello");
  }

  /** "hello" is already lowercase, and is answered by the greeting. */
  lemma HelloIsGreeting()
    ensures Classify("hello") == Greeting
  {
    var s := "hello";
    LowerOfLowercase(s);
    assert Includes(s, "hello") by { assert OccursAt(s, "hello", 0); }
    GreetingWins(s);
  }

  /**
   * Two submits in a row: the second arrives while the first reply is still
   * waiting out its delay, the busy flag is clear, and it is accepted too.
   */
  method SubmitDuringReplyDelay(message: string) returns (first: bool, second: bool, transcript: seq<Message>, waiting: seq<Topic>)
    requires Trim(message) != []
    ensures first && second
    ensures transcript == [UserRecord(Trim(message)), UserRecord(Trim(message))]
    ensures waiting == [Classify(Trim(message)), Classify(Trim(message))]
  {
    var s := new ChatSession();
    first := s.Submit(message);
    second := s.Submit(message);
    transcript := s.current.messages;
    waiting := s.pendingReplies;
  }

  /**
   * Submitting "hello" and letting every timer run: the transcript holds the
   * message and the greeting, the greeting is fully shown with its two tags,
   * and the session is idle again.
   */
  method GreetingEndToEnd() returns (transcript: seq<Message>, shown: string, tags: seq<Tag>, busy: bool)
    ensures transcript == [UserRecord("hello"), SystemRecord(ReplyFor(Greeting).text, Some(ReplyFor(Greeting).categories))]
    ensures shown == ReplyFor(Greeting).text && tags == Container(ReplyFor(Greeting).categories)
    ensures !busy
  {
    HelloIsTrimmed();
    HelloIsGreeting();
    var hello := "hello";
    var s := new ChatSession();
    var accepted := s.Submit(hello);
    s.ReplyDue();
    transcript := s.current.messages;
    var r := s.animations[0];
    s.RevealBegin(r);
    while r.phase == Revealing
      invariant s.Valid() && s.animations == [r] && r.phase != Thinking
      invariant r.message == ReplyFor(Greeting).text && r.categories == ReplyFor(Greeting).categories
      invariant r.charIndex <= |r.message|
      invariant s.isGenerating == (r.phase != Done)
      decreases |r.message| - r.charIndex
    {
      s.RevealTick(r);
    }
    shown, tags, busy := r.shown, r.tags, s.isGenerating;
  }

  /** The history request fails: the only message is the failure notice, typed with animation. */
  method FailedHistoryFetch() returns (transcript: seq<Message>, historyLength: nat, busy: bool)
    ensures transcript == [SystemRecord(LoadFailure, None)]
    ensures historyLength == 0 && busy
  {
    var s := new ChatSession();
    s.ConversationsFailed();
    transcript, historyLength, busy := s.current.messages, |s.history|, s.isGenerating;
  }

  /**
   * A fetched conversation is loaded at start-up and then selected again:
   * the current conversation is the stored one, and each load has appended
   * the welcome, a copy of everything, and the welcome again.
   */
  method ReloadGrowsStoredChat() returns (shared: bool, afterFirst: seq<Message>, afterSecond: seq<Message>)
    ensures shared
    ensures afterFirst == Saved() + [SystemRecord(LoadedWelcome, None)] + Saved() + [SystemRecord(LoadedWelcome, None)]
    ensures afterSecond == afterFirst + [SystemRecord(LoadedWelcome, None)] + afterFirst + [SystemRecord(LoadedWelcome, None)]
    ensures |afterSecond| == 14
  {
    var s := new ChatSession();
    s.ConversationsLoaded(Some([Saved()]));
    ReplayKeepsRecords(Saved());
    afterFirst := s.history[0].messages;
    s.LoadConversation(0);
    afterSecond := s.history[0].messages;
    shared := s.current == s.history[0];
    assert forall m :: m in afterFirst ==> IsRecord(m);
    ReplayKeepsRecords(afterFirst);
  }

  /** A stored conversation as the client itself writes one. */
  function Saved(): seq<Message> {
    [UserRecord("hi"), SystemRecord("Hello! How can I assist you today?", Some(["Greeting", "Introduction"]))]
  }
}
