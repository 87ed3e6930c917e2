/**
 * The simulated typing of an animated system message (`simulateTyping`):
 * a thinking pause, then one character more per interval tick, then the
 * category tags. Timers are explicit events: `Begin` is the 1500 ms
 * timeout firing, `Tick` one firing of the interval.
 */
module Typing {
  import opened Tags

  function Min(a: int, b: int): int { if a <= b then a else b }
  function Max(a: int, b: int): int { if a >= b then a else b }

  /** The total reveal time in milliseconds: 20 ms per character, clamped to between one and five seconds. */
  function TypingTime(length: nat): (ms: int)
    ensures 1000 <= ms <= 5000
    ensures length <= 50 ==> ms == 1000
    ensures 50 <= length <= 250 ==> ms == 20 * length
    ensures 250 <= length ==> ms == 5000
  {
    Min(Max(length * 20, 1000), 5000)
  }

  /** A longer message never gets a shorter typing time. */
  lemma TypingTimeMonotone(a: nat, b: nat)
    requires a <= b
    ensures TypingTime(a) <= TypingTime(b)
  {
  }

  /** Thinking: the dots are shown; Revealing: the interval runs; Done: the interval is cleared. */
  datatype Phase = Thinking | Revealing | Done

  /** The state one call of `simulateTyping` keeps in its closures. */
  class Reveal {
    const message: string
    const categories: seq<string>
    const typingTime: int
    /** Where the animation is. */
    var phase: Phase
    /** The counter the interval advances; also the number of ticks so far. */
    var charIndex: nat
    /** The text content of the message paragraph. */
    var shown: string
    /** The category container attached to the message, empty while none is attached. */
    var tags: seq<Tag>

    ghost predicate Valid()
      reads this
    {
      typingTime == TypingTime(|message|) &&
      shown == message[..Min(charIndex, |message|)] &&
      (phase == Thinking ==> charIndex == 0) &&
      (phase == Revealing ==> charIndex == 0 || charIndex < |message|) &&
      (phase == Done ==> charIndex == Max(|message|, 1)) &&
      tags == (if phase == Done && |categories| > 0 then Container(categories) else [])
    }

    /** The start of `simulateTyping`: the typing time is fixed and the thinking dots are up. */
    constructor (message: string, categories: seq<string>)
      ensures Valid()
      ensures this.message == message && this.categories == categories
      ensures phase == Thinking && charIndex == 0 && shown == [] && tags == []
    {
      this.message := message;
      this.categories := categories;
      this.typingTime := TypingTime(|message|);
      phase := Thinking;
      charIndex := 0;
      shown := [];
      tags := [];
    }

    /** The 1500 ms timeout: the dots give way to an empty paragraph and the interval starts. */
    method Begin()
      requires Valid() && phase == Thinking
      modifies this
      ensures Valid()
      ensures phase == Revealing && charIndex == 0 && shown == [] && tags == []
    {
      phase := Revealing;
      shown := [];
    }

    /**
     * One interval tick: the paragraph shows one more character (never more
     * than the message), and once the counter reaches the message length the
     * interval stops and the tags, if there are any, are attached.
     */
    method Tick()
      requires Valid() && phase == Revealing
      modifies this
      ensures Valid()
      ensures charIndex == old(charIndex) + 1
      ensures shown == message[..Min(charIndex, |message|)]
      ensures old(shown) <= shown && shown <= message
      ensures phase == (if charIndex >= |message| then Done else Revealing)
      ensures tags == (if phase == Done && |categories| > 0 then Container(categories) else [])
    {
      shown := message[..Min(charIndex + 1, |message|)];
      charIndex := charIndex + 1;
      if charIndex >= |message| {
        phase := Done;
        if |categories| > 0 {
          tags := CreateCategoryContainer(categories);
        }
      }
    }
  }
}
