# fake_chat_app: the chat client's session, reply generator and typing animation

This project models the browser side of the fake chat application, `static/js/chat.js`, in Dafny and proves what that script does. The script holds four pieces with exact behaviour:

- **The canned reply generator** (`generateResponse`). The message is lowercased and tested against an ordered list of keywords with plain substring search. The first rule that matches picks one of eight fixed (text, categories) replies. The reply is posted 1000 ms later.
- **The category tags** (`createCategoryContainer`). There is one tag per category. Each tag is styled from a five-entry palette by its position modulo 5.
- **The typing animation** (`simulateTyping`). It has a fixed thinking pause, then reveals one more character per interval tick, then attaches the tags and clears the busy flag. The typing time `min(max(20·len, 1000), 5000)` sets the interval.
- **The session.** It consists of the globals `currentConversation`, `isGenerating` and `conversationHistory`, and the events that change them: adding user and system messages, starting a new chat, loading a stored conversation, the submit handler, and the outcome of the start-up history request.

Modules:

| module | file | what it holds |
|---|---|---|
| `Wrappers` | `wrappers.dfy` | `Option`, for properties that may be absent |
| `Text` | `text.dfy` | `toLowerCase` (ASCII), `includes`, and `trim` with the ECMAScript whitespace set |
| `Responses` | `responses.dfy` | the if/else chain of `generateResponse`, an independent first-match rule table, and the proofs that they agree |
| `Tags` | `tags.dfy` | the tag container as a function, and the loop that builds it |
| `Typing` | `typing.dfy` | the typing-time clamp; one animation as a `Reveal` object whose timers are explicit `Begin` and `Tick` steps |
| `Session` | `session.dfy` | the globals as a `ChatSession` object, and the conversation list as a shared `Conversation` object |
| `Scenarios` | `scenarios.dfy` | whole event sequences driven through the session |

Modelling choices:

- **Conversations are objects.** `loadConversation` makes the stored entry the current conversation by reference, and later pushes then grow the stored entry. The model keeps that sharing: `ChatSession.current` and `ChatSession.history[i]` are `Conversation` references.
- **Timers are events.** They are not real time.
  - The 1000 ms reply delay is a queue, `pendingReplies`, that `ReplyDue` pops.
  - The 1500 ms pause is `Reveal.Begin`.
  - One interval firing is `Reveal.Tick`.
  - Every animation started is kept in `animations`, so overlapping animations are represented.
- **A scheduled reply is stored as its `Topic`.** A topic is one of the eight canned replies, chosen when the message is submitted, just as `generateResponse` computes the reply before arming its timer. `ReplyFor` maps a topic to the reply text and categories.
- **The thinking pause follows the code.** The code waits a fixed 1500 ms before revealing. The clamped typing time only fixes the tick interval, i.e. the total reveal duration. The model follows the code here, not a reading in which the pause itself is clamped.
- **The replay sees a fixed range.** `loadConversation`'s `forEach` visits only the indices present when it starts: the stored messages plus the welcome pushed just before. It pushes a copy of each user or system message into the same list. So loading a conversation appends the welcome, a copy of the stored messages, and a copy of the welcome.
- **The humour reply keeps the file's characters.** It ends with the four characters U+00F0 U+0178 U+02DC U+201E, which are the UTF-8 bytes of an emoji as the file decodes them. The model keeps those characters.

## Model

| member | source | states |
|---|---|---|
| Text.Lower | static/js/chat.js:289 | lowercasing keeps the length and leaves no ASCII capital letter |
| Text.LowerIdempotent | static/js/chat.js:289 | lowercasing an already lowercased message changes nothing |
| Text.LowerOfLowercase | static/js/chat.js:289 | a message without capitals is its own lowercase form |
| Text.Includes | static/js/chat.js:291-315 | `includes`: the keyword occurs at some position of the message, which is then at least as long as the keyword |
| Text.IncludedCharsOccur | static/js/chat.js:291 | every character of a string that `includes` finds occurs in the searched string |
| Text.NotIncludedWithoutChar | static/js/chat.js:291 | a keyword holding a character the message lacks is not included |
| Text.IncludesTransitive | static/js/chat.js:291 | a keyword inside an included keyword is itself included |
| Text.IsJsWhitespace | static/js/chat.js:267 | the characters `trim` strips: tab, line feed, vertical tab, form feed, carriage return, space, no-break space, the Unicode space separators, the line and paragraph separators and the byte order mark |
| Text.TrimStart | static/js/chat.js:267 | the result is a suffix that does not start with whitespace, and everything dropped is whitespace |
| Text.TrimEnd | static/js/chat.js:267 | the result is a prefix that does not end with whitespace, and everything dropped is whitespace |
| Text.Trim | static/js/chat.js:267 | the trimmed message is no longer than the input and neither starts nor ends with whitespace |
| Text.TrimEmptyIff | static/js/chat.js:274 | the trimmed message is empty exactly when every character of the input is whitespace |
| Text.TrimKeepsMiddle | static/js/chat.js:267 | the trimmed message is a slice of the input with nothing but whitespace before and after it |
| Text.TrimOfTrimmed | static/js/chat.js:267 | a message that neither starts nor ends with whitespace is unchanged by trimming |
| Text.TrimIdempotent | static/js/chat.js:267 | trimming twice is trimming once |
| Responses.ReplyText | static/js/chat.js:291-323 | the exact text of each of the eight canned replies |
| Responses.ReplyCategories | static/js/chat.js:291-323 | every reply carries between one and four categories |
| Responses.ReplyFor | static/js/chat.js:291-323 | the (text, categories) pair of each canned reply |
| Responses.Respond | static/js/chat.js:291-323 | the if/else chain on the lowercased message, keyword by keyword in the source's order, with the fallback last |
| Responses.Classify | static/js/chat.js:284-289 | `generateResponse` picks its reply by running the chain on the lowercased message |
| Responses.AnyIncludedIff | static/js/chat.js:291-315 | a rule's keyword test holds exactly when one of its keywords occurs in the message |
| Responses.FirstMatch | static/js/chat.js:291-323 | the position found is that of the first rule with a keyword in the message, or the table's end when there is none |
| Responses.RespondIsFirstMatch | static/js/chat.js:291-323 | the if/else chain gives, on every input, the reply of the first matching rule of the table, else the fallback |
| Responses.FirstFiringRuleWins | static/js/chat.js:291-323 | when rule k matches and no earlier rule does, the reply is rule k's, whatever later rules would match |
| Responses.FallbackExactly | static/js/chat.js:319-323 | the fallback reply is given exactly when no keyword of any rule occurs in the lowercased message |
| Responses.GreetingWins | static/js/chat.js:291-294 | any message containing "hello", "hi" or "hey" gets the greeting |
| Responses.MachineLearningIsGreeting | static/js/chat.js:299 | a message containing "machine learning" contains "hi", so it gets the greeting and never the machine-learning reply |
| Responses.GoodbyeNeedsNoOwnTest | static/js/chat.js:315 | the farewell rule matches exactly when "bye" occurs, so its "goodbye" test never decides anything |
| Responses.CaseInsensitive | static/js/chat.js:289 | two messages that lowercase alike get the same reply, and lowercasing first changes no reply |
| Responses.GreetingBeforeJoke | static/js/chat.js:291-306 | "hi, tell me a joke" gets the greeting, not the joke |
| Responses.UnknownInputFallsBack | static/js/chat.js:319-323 | "xyzzy" gets the fallback reply |
| Tags.Container | static/js/chat.js:245-251 | the container has one tag per category, in order, each showing its category |
| Tags.TagClass | static/js/chat.js:248-249 | the class list of tag i: "category-tag " followed by palette entry i mod 5 |
| Tags.CreateCategoryContainer | static/js/chat.js:238-255 | the loop builds exactly the container: tag i shows category i with palette class i mod 5 |
| Tags.StylesCycle | static/js/chat.js:243-249 | tags i and i+5 share a style, and two tags share one exactly when their positions agree modulo 5 |
| Typing.TypingTime | static/js/chat.js:203 | the typing time lies in [1000, 5000]; it is 1000 up to 50 characters, 20 per character from 50 to 250, and 5000 from 250 on |
| Typing.TypingTimeMonotone | static/js/chat.js:203 | a longer message never gets a shorter typing time |
| Typing.Reveal.constructor | static/js/chat.js:199-203 | a new animation is thinking, with nothing shown, no tags and its clamped typing time |
| Typing.Reveal.Begin | static/js/chat.js:206-215 | after the pause the paragraph is empty and the counter is 0 |
| Typing.Reveal.Tick | static/js/chat.js:216-232 | each tick adds one to the counter; the shown text is the message prefix of length min(counter, length) and only grows; the animation ends once the counter reaches the length; tags are attached only then and only for a non-empty category list |
| Session.UserRecord | static/js/chat.js:124-127 | the user record: role user, the content, and no categories property |
| Session.SystemRecord | static/js/chat.js:191-195 | the system record: role system, the content, and the given categories or [] when they are omitted |
| Session.ReplayOne | static/js/chat.js:88-92 | replaying one message pushes a fresh user or system record, and nothing for any other role |
| Session.Replay | static/js/chat.js:87-93 | replaying a conversation pushes the replay of each message in order |
| Session.ReplayAppend | static/js/chat.js:87-93 | replaying a concatenation replays each part in turn |
| Session.ReplayWritesRecords | static/js/chat.js:87-93 | the replay pushes no more messages than it visits, and only user or system records |
| Session.ReplayKeepsRecords | static/js/chat.js:87-93 | a conversation the client wrote itself is replayed as an exact copy |
| Session.ReplayIdempotent | static/js/chat.js:87-93 | replaying a replay gives the same messages again |
| Session.Conversation.Push | static/js/chat.js:124-127 | `push` appends exactly the one record |
| Session.ChatSession.constructor | static/js/chat.js:10-12 | the script starts with an empty conversation, an empty history and the busy flag clear |
| Session.ChatSession.AddUserMessage | static/js/chat.js:108-138 | exactly one user record with the content is appended, animated or not, and nothing else changes |
| Session.ChatSession.AddSystemMessage | static/js/chat.js:141-200 | exactly one system record is appended, with an omitted category list stored as []; only an animated message starts an animation and sets the busy flag, and otherwise nothing else changes |
| Session.ChatSession.LoadConversation | static/js/chat.js:78-98 | out of range nothing changes; in range the current conversation becomes the stored entry itself, which gains the welcome, a replay of what it held, and a copy of the welcome, and the busy flag is set |
| Session.ChatSession.ReplayCurrent | static/js/chat.js:87-93 | the `forEach` appends the replay of exactly the messages present when it starts, and leaves the session fields alone |
| Session.ChatSession.ReplayMessage | static/js/chat.js:88-92 | a user or system message is pushed again without animation, and any other role is skipped |
| Session.ChatSession.StartNewChat | static/js/chat.js:101-105 | the current conversation is a new list holding exactly the welcome message, and the busy flag is set |
| Session.ChatSession.Submit | static/js/chat.js:263-281 | a blank trimmed message or a busy session changes nothing; otherwise exactly one user record with the trimmed text is appended and its reply is queued, with the busy flag still clear |
| Session.ChatSession.ScheduleReply | static/js/chat.js:284-328 | the reply for the message is chosen now and queued behind the earlier ones |
| Session.ChatSession.ReplyDue | static/js/chat.js:326-328 | the oldest queued reply is appended as an animated system message to the conversation current at that moment, and the busy flag is set |
| Session.ChatSession.TakeDueReply | static/js/chat.js:326-328 | the oldest queued reply leaves the queue first |
| Session.ChatSession.RevealBegin | static/js/chat.js:206-215 | the pause of one animation ends with an empty paragraph |
| Session.ChatSession.RevealTick | static/js/chat.js:216-232 | one tick advances the animation, and the busy flag is cleared at the tick that completes it and not before |
| Session.ChatSession.ConversationsLoaded | static/js/chat.js:39-46 | the history becomes the fetched conversations (none when absent), each a new list, and the first one, if any, is loaded |
| Session.ChatSession.ConversationsFailed | static/js/chat.js:48-52 | a failed request appends the animated failure notice and sets the busy flag |
| Scenarios.HelloIsTrimmed | static/js/chat.js:267 | "hello" is its own trimmed form |
| Scenarios.HelloIsGreeting | static/js/chat.js:289-294 | "hello" gets the greeting |
| Scenarios.SubmitDuringReplyDelay | static/js/chat.js:274-281 | a second submit during the first reply's 1000 ms delay is accepted too, and both replies are queued |
| Scenarios.GreetingEndToEnd | static/js/chat.js:263-329 | after "hello" and all its timers, the transcript is the message and the greeting, the greeting is fully shown with its two tags, and the session is idle |
| Scenarios.FailedHistoryFetch | static/js/chat.js:48-52 | after a failed request the only message is the failure notice, the history is empty and the session is busy |
| Scenarios.ReloadGrowsStoredChat | static/js/chat.js:78-98 | a stored chat loaded at start-up and then selected again is shared with the current conversation, and grows from 2 to 6 to 14 messages |

## Left out

- The DOM is not modelled: element creation, class lists, `scrollToBottom`, `autoResizeTextarea`, the sidebar toggle and the history list of `updateChatHistoryList`. A click on a history link is `LoadConversation` with that index.
- The 10 ms timeouts that make message containers visible are not modelled. They only touch the DOM.
- The request to `/api/conversations` and its JSON parsing are not modelled. `ConversationsLoaded` takes the parsed `conversations` property, or `None` when it is absent; the `|| []` is modelled by that `None`. Other falsy values, and non-array values, are not modelled.
- Timer delays and their ordering in real time are not modelled. Each timer is a step that a caller may take whenever the code would allow it to fire.
- Typing.Reveal: the interval length `typingTime / message.length` is a floating-point division and is not modelled. Only the clamped typing time is kept.
- Text.Lower: `toLowerCase` is modelled on the ASCII letters only. It does no Unicode case mapping.
- `message.length` is taken as the number of characters, not UTF-16 code units. The two differ only for characters outside the Basic Multilingual Plane, and none of the fixed texts holds one.
- Stored messages whose `categories` is `null` or not an array, and contents that are not strings, are not modelled.
- `app.py` (the Flask server that serves the page and the stored conversations) is not part of this model.
