/**
 * The chat session: the globals `currentConversation`, `isGenerating` and
 * `conversationHistory`, and the events that change them. Conversations are
 * objects, so that making a stored conversation the current one shares it:
 * what is pushed into the current conversation lands in the stored entry.
 * Pending timers are part of the state: the replies waiting out their
 * 1000 ms delay, and the typing animations under way.
 */
module Session {
  import opened Wrappers
  import opened Text
  import opened Responses
  import opened Typing

  /** A message's `role`; stored conversations may hold roles other than the two the client writes. */
  datatype Role = User | System | OtherRole(name: string)

  /** A message record; `categories` is `None` when the record has no such property. */
  datatype Message = Message(role: Role, content: string, categories: Option<seq<string>>)

  /** The record `addUserMessage` pushes: no categories property. */
  function UserRecord(content: string): (m: Message)
    ensures IsRecord(m) && m.role == User && m.content == content
  {
    Message(User, content, None)
  }

  /** The record `addSystemMessage` pushes: an omitted category list is stored as the empty list. */
  function SystemRecord(content: string, categories: Option<seq<string>>): (m: Message)
    ensures IsRecord(m) && m.role == System && m.content == content
    ensures categories.Some? ==> m.categories == categories
  {
    Message(System, content, Some(categories.GetOr([])))
  }

  /** A record exactly as the client itself writes it. */
  predicate IsRecord(m: Message) {
    (m.role == User && m.categories == None) || (m.role == System && m.categories.Some?)
  }

  /** What replaying one stored message pushes: a fresh record for a user or system message, nothing otherwise. */
  function ReplayOne(m: Message): (r: seq<Message>)
  {
    match m.role
    case User => [UserRecord(m.content)]
    case System => [SystemRecord(m.content, m.categories)]
    case OtherRole(_) => []
  }

  /** What replaying a whole stored conversation pushes, in order. */
  function Replay(ms: seq<Message>): seq<Message> {
    if ms == [] then [] else ReplayOne(ms[0]) + Replay(ms[1..])
  }

  /** Replaying a concatenation replays each part in turn. */
  lemma {:induction false} ReplayAppend(a: seq<Message>, b: seq<Message>)
    ensures Replay(a + b) == Replay(a) + Replay(b)
  {
    if a == [] {
      assert a + b == b;
    } else {
      assert (a + b)[0] == a[0] && (a + b)[1..] == a[1..] + b;
      ReplayAppend(a[1..], b);
    }
  }

  /** Every message the replay pushes is a user or system record, and there are never more than were stored. */
  lemma {:induction false} ReplayWritesRecords(ms: seq<Message>)
    ensures |Replay(ms)| <= |ms|
    ensures forall m :: m in Replay(ms) ==> IsRecord(m)
  {
    if ms != [] {
      ReplayWritesRecords(ms[1..]);
    }
  }

  /** A conversation the client wrote itself is replayed as an exact copy. */
  lemma {:induction false} ReplayKeepsRecords(ms: seq<Message>)
    requires forall m :: m in ms ==> IsRecord(m)
    ensures Replay(ms) == ms
  {
    if ms != [] {
      assert ms[0] in ms;
      ReplayKeepsRecords(ms[1..]);
      assert ms == [ms[0]] + ms[1..];
    }
  }

  /** Replaying a replay changes nothing more. */
  lemma ReplayIdempotent(ms: seq<Message>)
    ensures Replay(Replay(ms)) == Replay(ms)
  {
    ReplayWritesRecords(ms);
    ReplayKeepsRecords(Replay(ms));
  }

  const LoadedWelcome := "Chat history loaded. Continue your conversation!"
  const NewChatWelcome := "Welcome to a new chat! How can I help you today?"
  const LoadFailure := "Failed to load conversations. Please try again later."

  /** A conversation array: a list of messages that grows by `push`. */
  class Conversation {
    var messages: seq<Message>

    constructor (messages: seq<Message>)
      ensures this.messages == messages
    {
      this.messages := messages;
    }

    method Push(m: Message)
      modifies this
      ensures messages == old(messages) + [m]
    {
      messages := messages + [m];
    }
  }

  class ChatSession {
    /** `currentConversation`: the conversation messages are appended to. */
    var current: Conversation
    /** `isGenerating`: set while an animated system message is being typed. */
    var isGenerating: bool
    /** `conversationHistory`: the conversations fetched at start-up. */
    var history: seq<Conversation>
    /** The typing animations started so far, oldest first. */
    var animations: seq<Reveal>
    /** The replies chosen by the submit handler and still waiting out their 1000 ms delay, oldest first. */
    var pendingReplies: seq<Topic>

    /**
     * Every animation is in a consistent state, and the busy flag is set only
     * while the most recently started animation is still running.
     */
    ghost predicate Valid()
      reads this, animations
    {
      (forall r :: r in animations ==> r.Valid()) &&
      (isGenerating ==> animations != [] && animations[|animations| - 1].phase != Done)
    }

    /** The state when the script is loaded. */
    constructor ()
      ensures Valid() && fresh(current)
      ensures current.messages == [] && !isGenerating && history == []
      ensures animations == [] && pendingReplies == []
    {
      current := new Conversation([]);
      isGenerating := false;
      history := [];
      animations := [];
      pendingReplies := [];
    }

    /** `addUserMessage`: one user record is appended, animated or not; nothing else changes. */
    method AddUserMessage(content: string, animate: bool)
      requires Valid()
      modifies current
      ensures Valid()
      ensures current.messages == old(current.messages) + [UserRecord(content)]
    {
      current.Push(UserRecord(content));
    }

    /**
     * `addSystemMessage`: one system record is appended, animated or not;
     * an animated one also starts a typing animation and sets the busy flag.
     */
    method AddSystemMessage(content: string, categories: Option<seq<string>>, animate: bool)
      requires Valid()
      modifies this, current
      ensures Valid()
      ensures current == old(current) && history == old(history) && pendingReplies == old(pendingReplies)
      ensures current.messages == old(current.messages) + [SystemRecord(content, categories)]
      ensures isGenerating == (animate || old(isGenerating))
      ensures !animate ==> unchanged(this)
      ensures animate ==> |animations| == |old(animations)| + 1 && animations[..|old(animations)|] == old(animations)
      ensures animate ==> StartedLast(content, categories.GetOr([])) && fresh(animations[|animations| - 1])
    {
      var cats := categories.GetOr([]);
      if animate {
        var r := new Reveal(content, cats);
        animations := animations + [r];
        isGenerating := true;
      }
      current.Push(Message(System, content, Some(cats)));
    }

    /** The most recent animation is a fresh start for `content` with `categories`. */
    ghost predicate StartedLast(content: string, categories: seq<string>)
      reads this, animations
    {
      animations != [] &&
      var r := animations[|animations| - 1];
      r.message == content && r.categories == categories && r.phase == Thinking
    }
  
    /**
     * `loadConversation(index)`: out of range it does nothing. Otherwise the
     * stored conversation becomes the current one (shared, not copied); the
     * animated welcome is pushed into it, and then each message present at
     * that point (the stored ones and the welcome) is pushed again, without
     * animation, so the stored conversation grows.
     */
    method LoadConversation(index: int)
      requires Valid()
      modifies this, if 0 <= index < |history| then {history[index]} else {}
      ensures Valid()
      ensures history == old(history) && pendingReplies == old(pendingReplies)
      ensures !(0 <= index < |history|) ==>
        current == old(current) && current.messages == old(current.messages) &&
        isGenerating == old(isGenerating) && animations == old(animations)
      ensures 0 <= index < |history| ==>
        current == history[index] &&
        current.messages == old(history[index].messages) + [SystemRecord(LoadedWelcome, None)]
                            + Replay(old(history[index].messages)) + [SystemRecord(LoadedWelcome, None)]
      ensures 0 <= index < |history| ==>
        isGenerating && |animations| == |old(animations)| + 1 && animations[..|old(animations)|] == old(animations) &&
        StartedLast(LoadedWelcome, []) && fresh(animations[|animations| - 1])
    {
      if 0 <= index < |history| {
        current := history[index];
        ghost var stored := current.messages;
        AddSystemMessage(LoadedWelcome, None, true);
        ReplayCurrent();
        assert stored + [SystemRecord(LoadedWelcome, None)] + Replay(stored + [SystemRecord(LoadedWelcome, None)]) == current.messages;
        ReplayAppend(stored, [SystemRecord(LoadedWelcome, None)]);
      }
    }
  
    /**
     * The `forEach` of `loadConversation`: it visits the messages present
     * when it starts and pushes a copy of each user or system message.
     */
    method ReplayCurrent()
      requires Valid()
      modifies this, current
      ensures Valid() && unchanged(this)
      ensures current.messages == old(current.messages) + Replay(old(current.messages))
    {
      var count := |current.messages|;
      ghost var snapshot := current.messages;
      var k := 0;
      while k < count
        invariant 0 <= k <= count == |snapshot|
        invariant Valid() && unchanged(this)
        invariant current.messages == snapshot + Replay(snapshot[..k])
      {
        var m := current.messages[k];
        ReplayMessage(m);
        assert snapshot[..k + 1] == snapshot[..k] + [m];
        ReplayAppend(snapshot[..k], [m]);
        k := k + 1;
      }
      assert snapshot[..k] == snapshot;
    }
  
    /** One step of that `forEach`: a user or system message is pushed again, without animation. */
    method ReplayMessage(m: Message)
      requires Valid()
      modifies this, current
      ensures Valid() && unchanged(this)
      ensures current.messages == old(current.messages) + ReplayOne(m)
    {
      match m.role {
        case User => AddUserMessage(m.content, false);
        case System => AddSystemMessage(m.content, m.categories, false);
        case OtherRole(_) =>
      }
    }

    /** `startNewChat`: a new, unshared conversation holding only the animated welcome. */
    method StartNewChat()
      requires Valid()
      modifies this
      ensures Valid()
      ensures fresh(current) && current.messages == [SystemRecord(NewChatWelcome, None)]
      ensures history == old(history) && pendingReplies == old(pendingReplies)
      ensures isGenerating && |animations| == |old(animations)| + 1 && animations[..|old(animations)|] == old(animations)
      ensures StartedLast(NewChatWelcome, []) && fresh(animations[|animations| - 1])
    {
      current := new Conversation([]);
      AddSystemMessage(NewChatWelcome, None, true);
    }

    /**
     * The submit handler: a blank message (after trimming) or a busy session
     * is ignored. Otherwise the trimmed message is appended at once, and its
     * reply is only scheduled, so the busy flag is still clear afterwards.
     */
    method Submit(input: string) returns (accepted: bool)
      requires Valid()
      modifies this`pendingReplies, current
      ensures Valid()
      ensures accepted <==> Trim(input) != [] && !isGenerating
      ensures current.messages == if accepted then old(current.messages) + [UserRecord(Trim(input))]
                                  else old(current.messages)
      ensures pendingReplies == if accepted then old(pendingReplies) + [Classify(Trim(input))]
                                else old(pendingReplies)
    {
      var message := Trim(input);
      if message == [] || isGenerating {
        return false;
      }
      AddUserMessage(message, true);
      ScheduleReply(message);
      accepted := true;
    }

    /** `generateResponse`: the reply is chosen now and scheduled for 1000 ms later. */
    method ScheduleReply(userMessage: string)
      requires Valid()
      modifies this`pendingReplies
      ensures Valid()
      ensures pendingReplies == old(pendingReplies) + [Classify(userMessage)]
    {
      var reply := Classify(userMessage);
      pendingReplies := pendingReplies + [reply];
    }

    /**
     * The oldest scheduled reply's 1000 ms delay runs out: it is appended, as
     * an animated system message, to whatever conversation is current now.
     */
    method ReplyDue()
      requires Valid() && pendingReplies != []
      modifies this, current
      ensures Valid()
      ensures pendingReplies == old(pendingReplies[1..])
      ensures current == old(current) && history == old(history)
      ensures current.messages == old(current.messages) + [SystemRecord(ReplyFor(old(pendingReplies[0])).text, Some(ReplyFor(old(pendingReplies[0])).categories))]
      ensures isGenerating && |animations| == |old(animations)| + 1
      ensures animations[..|old(animations)|] == old(animations)
      ensures StartedLast(ReplyFor(old(pendingReplies[0])).text, ReplyFor(old(pendingReplies[0])).categories)
      ensures fresh(animations[|animations| - 1])
    {
      var topic := TakeDueReply();
      var reply := ReplyFor(topic);
      AddSystemMessage(reply.text, Some(reply.categories), true);
    }

    /** Removes the oldest scheduled reply from the queue. */
    method TakeDueReply() returns (topic: Topic)
      requires Valid() && pendingReplies != []
      modifies this`pendingReplies
      ensures Valid()
      ensures topic == old(pendingReplies[0]) && pendingReplies == old(pendingReplies[1..])
    {
      topic := pendingReplies[0];
      pendingReplies := pendingReplies[1..];
    }

    /** The 1500 ms timeout of one animation fires. */
    method RevealBegin(r: Reveal)
      requires Valid() && r in animations && r.phase == Thinking
      modifies r
      ensures Valid()
      ensures r.phase == Revealing && r.charIndex == 0 && r.shown == [] && r.tags == []
    {
      r.Begin();
    }

    /**
     * One tick of one animation's interval. The tick that completes the
     * message clears the busy flag, whichever animation it belongs to.
     */
    method RevealTick(r: Reveal)
      requires Valid() && r in animations && r.phase == Revealing
      modifies this`isGenerating, r
      ensures Valid()
      ensures r.charIndex == old(r.charIndex) + 1
      ensures r.shown == r.message[..Min(r.charIndex, |r.message|)]
      ensures r.phase == (if r.charIndex >= |r.message| then Done else Revealing)
      ensures isGenerating == (old(isGenerating) && r.phase != Done)
    {
      r.Tick();
      if r.phase == Done {
        isGenerating := false;
      }
    }

    /**
     * The history request succeeded with `data.conversations` (`None` when
     * absent): the history becomes those conversations, and the first one,
     * if any, is loaded.
     */
    method ConversationsLoaded(data: Option<seq<seq<Message>>>)
      requires Valid()
      modifies this
      ensures Valid() && pendingReplies == old(pendingReplies)
      ensures |history| == |data.GetOr([])|
      ensures forall j :: 0 <= j < |history| ==> fresh(history[j])
      ensures forall a, b :: 0 <= a < b < |history| ==> history[a] != history[b]
      ensures forall j :: 0 < j < |history| ==> history[j].messages == data.GetOr([])[j]
      ensures history == [] ==>
        current == old(current) && current.messages == old(current.messages) &&
        isGenerating == old(isGenerating) && animations == old(animations)
      ensures history != [] ==>
        current == history[0] && isGenerating &&
        current.messages == data.GetOr([])[0] + [SystemRecord(LoadedWelcome, None)]
                            + Replay(data.GetOr([])[0]) + [SystemRecord(LoadedWelcome, None)]
      ensures history != [] ==>
        |animations| == |old(animations)| + 1 && animations[..|old(animations)|] == old(animations) &&
        StartedLast(LoadedWelcome, []) && fresh(animations[|animations| - 1])
    {
      var conversations := data.GetOr([]);
      var loaded: seq<Conversation> := [];
      var j := 0;
      while j < |conversations|
        invariant 0 <= j <= |conversations| && |loaded| == j
        invariant forall i :: 0 <= i < j ==> fresh(loaded[i]) && loaded[i].messages == conversations[i]
        invariant forall a, b :: 0 <= a < b < j ==> loaded[a] != loaded[b]
        invariant unchanged(this)
      {
        var c := new Conversation(conversations[j]);
        loaded := loaded + [c];
        j := j + 1;
      }
      history := loaded;
      if |history| > 0 {
        LoadConversation(0);
      }
    }

    /** The history request failed: an animated system message says so. */
    method ConversationsFailed()
      requires Valid()
      modifies this, current
      ensures Valid()
      ensures current == old(current) && history == old(history) && pendingReplies == old(pendingReplies)
      ensures current.messages == old(current.messages) + [SystemRecord(LoadFailure, None)]
      ensures isGenerating && |animations| == |old(animations)| + 1 && animations[..|old(animations)|] == old(animations)
      ensures StartedLast(LoadFailure, []) && fresh(animations[|animations| - 1])
    {
      AddSystemMessage(LoadFailure, None, true);
    }
  }
}
