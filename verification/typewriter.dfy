/** The hero banner's typewriter effect (`startTypingAnimation`/`typeText`
    of PortfolioApp): a phrase is typed one character per tick, held, erased
    one character per tick, and the next phrase is taken, round and round.

    The self-rescheduling `setTimeout` chain is replaced by an external
    driver: each tick returns the delay the page would wait before the next
    one, and `TypingAnimation.Drive` calls `Tick` a given number of times. */
module Typewriter {
  import opened Wrappers

  /** The phrases the page cycles through, in order. */
  const Phrases: seq<string> :=
    ["Full-Stack Developer", "Software Engineer", "Problem Solver", "Tech Enthusiast"]

  /** Delay after an ordinary typing tick. */
  const TypeDelay := 100
  /** Delay after an ordinary erasing tick. */
  const EraseDelay := 50
  /** Pause once a phrase is fully typed, before erasing starts. */
  const HoldDelay := 2000
  /** Pause once a phrase is fully erased, before the next one is typed. */
  const AdvanceDelay := 500
  /** Delay between starting the animation and its first tick. */
  const StartDelay := 1000

  /** The three fields `textIndex`, `charIndex` and `isDeleting`. */
  datatype TypeState = TypeState(textIndex: int, charIndex: int, isDeleting: bool)

  /** The state the page is constructed in. */
  const Initial := TypeState(0, 0, false)

  /** What one tick writes into the text span, and the delay it picks. */
  datatype Frame = Frame(text: string, delay: int)

  datatype TickResult = TickResult(next: TypeState, frame: Frame)

  /** A phrase list the animation can run on: at least one phrase, none empty. */
  predicate WellFormed(phrases: seq<string>) {
    |phrases| > 0 && forall i :: 0 <= i < |phrases| ==> |phrases[i]| > 0
  }

  /** The phrase after `i` of `count`, as `(textIndex + 1) % textArray.length`
      computes it: the next one, and the first after the last. */
  function NextPhrase(i: int, count: int): (r: int)
    requires 0 <= i < count
    ensures 0 <= r < count
    ensures r == if i + 1 == count then 0 else i + 1
  {
    (i + 1) % count
  }

  /** The state invariant: the phrase index is in range, a typing state has
      something left to type and an erasing state has something left to erase.
      It implies `0 <= charIndex <= |phrases[textIndex]|`. */
  predicate Inv(phrases: seq<string>, s: TypeState) {
    && 0 <= s.textIndex < |phrases|
    && (if s.isDeleting then 1 <= s.charIndex <= |phrases[s.textIndex]|
        else 0 <= s.charIndex < |phrases[s.textIndex]|)
  }

  function Clamp(x: int, len: nat): (r: nat)
    ensures r <= len
    ensures 0 <= x <= len ==> r == x
  {
    if x < 0 then 0 else if x > len then len else x
  }

  /** `String.prototype.substring(start, end)`: both ends are clamped into
      `[0, |s|]` and swapped if they come in the wrong order. */
  function Substring(s: string, start: int, end: int): (r: string)
    ensures |r| <= |s|
    ensures 0 <= start <= end <= |s| ==> r == s[start..end]
  {
    var a, b := Clamp(start, |s|), Clamp(end, |s|);
    if a <= b then s[a..b] else s[b..a]
  }

  /** The fields after one tick of `typeText`: `charIndex` moves by one in
      the current direction; a phrase typed to its end turns to erasing; a
      phrase erased to nothing turns to typing the next phrase. */
  function Next(phrases: seq<string>, s: TypeState): (r: TypeState)
    requires 0 <= s.textIndex < |phrases|
    ensures 0 <= r.textIndex < |phrases|
    ensures WellFormed(phrases) && Inv(phrases, s) ==> Inv(phrases, r)
  {
    if s.isDeleting then
      if s.charIndex - 1 == 0 then TypeState(NextPhrase(s.textIndex, |phrases|), 0, false)
      else TypeState(s.textIndex, s.charIndex - 1, true)
    else
      if s.charIndex + 1 == |phrases[s.textIndex]| then TypeState(s.textIndex, s.charIndex + 1, true)
      else TypeState(s.textIndex, s.charIndex + 1, false)
  }

  /** One tick of `typeText` as a function of the phrases and the state before it.
      Its new state is `Next`'s. When the invariant holds before the tick,
      - the text written is the first `charIndex` characters of the phrase the
        tick started on (the new `charIndex`, before any phrase advance);
      - erasing starts only when typing has reached the end of the phrase, with
        the hold delay;
      - typing restarts only when erasing has reached 0, on the next phrase
        (circularly), with the advance delay;
      - every other tick keeps direction and phrase and waits the erase delay
        when erasing and the (longer) type delay when typing. */
  function Step(phrases: seq<string>, s: TypeState): (r: TickResult)
    requires 0 <= s.textIndex < |phrases|
    ensures r.next == Next(phrases, s)
    ensures Inv(phrases, s) ==>
      && 0 <= r.next.charIndex <= |phrases[s.textIndex]|
      && r.frame.text == phrases[s.textIndex][..r.next.charIndex]
    ensures r.next.charIndex == if s.isDeleting then s.charIndex - 1 else s.charIndex + 1
    ensures (!s.isDeleting && r.next.isDeleting) <==>
      (!s.isDeleting && r.next.charIndex == |phrases[s.textIndex]|)
    ensures !s.isDeleting && r.next.isDeleting ==>
      r.frame.delay == HoldDelay && r.next.textIndex == s.textIndex
    ensures (s.isDeleting && !r.next.isDeleting) <==> (s.isDeleting && r.next.charIndex == 0)
    ensures s.isDeleting && !r.next.isDeleting ==>
      r.frame.delay == AdvanceDelay && r.next.textIndex == NextPhrase(s.textIndex, |phrases|)
    ensures s.isDeleting == r.next.isDeleting ==>
      r.next.textIndex == s.textIndex &&
      r.frame.delay == (if s.isDeleting then EraseDelay else TypeDelay)
  {
    var next := Next(phrases, s);
    var shown := Substring(phrases[s.textIndex], 0, next.charIndex);
    var delay :=
      if !s.isDeleting && next.isDeleting then HoldDelay
      else if s.isDeleting && !next.isDeleting then AdvanceDelay
      else if s.isDeleting then EraseDelay
      else TypeDelay;
    TickResult(next, Frame(shown, delay))
  }

  /** The state after `n` ticks from `s`. */
  function Run(phrases: seq<string>, s: TypeState, n: nat): (r: TypeState)
    requires 0 <= s.textIndex < |phrases|
    ensures 0 <= r.textIndex < |phrases|
    ensures WellFormed(phrases) && Inv(phrases, s) ==> Inv(phrases, r)
  {
    if n == 0 then s else Next(phrases, Run(phrases, s, n - 1))
  }

  /** The frames written by the first `n` ticks from `s`, in order. */
  function Frames(phrases: seq<string>, s: TypeState, n: nat): (r: seq<Frame>)
    requires 0 <= s.textIndex < |phrases|
    ensures |r| == n
  {
    seq(n, i requires 0 <= i => FrameAt(phrases, s, i))
  }

  /** The frame written by tick `n + 1` from `s`. */
  function FrameAt(phrases: seq<string>, s: TypeState, n: nat): Frame
    requires 0 <= s.textIndex < |phrases|
  {
    Step(phrases, Run(phrases, s, n)).frame
  }

  /** Running `a` ticks and then `b` more is running `a + b` ticks. */
  lemma {:induction false} RunAdd(phrases: seq<string>, s: TypeState, a: nat, b: nat)
    requires 0 <= s.textIndex < |phrases|
    ensures Run(phrases, s, a + b) == Run(phrases, Run(phrases, s, a), b)
  {
    if b > 0 {
      RunAdd(phrases, s, a, b - 1);
    }
  }

  /** The frames of `a + b` ticks are those of the first `a` followed by those of the next `b`. */
  lemma FramesAdd(phrases: seq<string>, s: TypeState, a: nat, b: nat)
    requires 0 <= s.textIndex < |phrases|
    ensures Frames(phrases, s, a + b) == Frames(phrases, s, a) + Frames(phrases, Run(phrases, s, a), b)
  {
    var mid := Run(phrases, s, a);
    forall i | a <= i < a + b
      ensures FrameAt(phrases, s, i) == FrameAt(phrases, mid, i - a)
    {
      RunAdd(phrases, s, a, i - a);
    }
  }

  /** Typing from the start of phrase `i`: after `k` ticks, short of the
      phrase's length, `k` characters are shown and typing goes on; after
      exactly that many ticks erasing begins. */
  lemma {:induction false} TypingPhase(phrases: seq<string>, i: int, k: nat)
    requires 0 <= i < |phrases| && 0 < k <= |phrases[i]|
    ensures Run(phrases, TypeState(i, 0, false), k) == TypeState(i, k, k == |phrases[i]|)
  {
    if k > 1 {
      TypingPhase(phrases, i, k - 1);
    }
  }

  /** Erasing a fully typed phrase `i`: after `k` ticks `k` characters are
      gone; after all of them the next phrase is started, from 0, typing. */
  lemma {:induction false} ErasingPhase(phrases: seq<string>, i: int, k: nat)
    requires 0 <= i < |phrases| && 0 < k <= |phrases[i]|
    ensures Run(phrases, TypeState(i, |phrases[i]|, true), k) ==
      if k == |phrases[i]| then TypeState(NextPhrase(i, |phrases|), 0, false)
      else TypeState(i, |phrases[i]| - k, true)
  {
    if k > 1 {
      ErasingPhase(phrases, i, k - 1);
    }
  }

  /** From the start of a non-empty phrase of length n, exactly 2n ticks
      return to (charIndex 0, typing) with the phrase index advanced by one,
      circularly. */
  lemma PhaseCycle(phrases: seq<string>, i: int)
    requires 0 <= i < |phrases| && |phrases[i]| > 0
    ensures Run(phrases, TypeState(i, 0, false), 2 * |phrases[i]|) ==
      TypeState(NextPhrase(i, |phrases|), 0, false)
  {
    var n := |phrases[i]|;
    TypingPhase(phrases, i, n);
    RunAdd(phrases, TypeState(i, 0, false), n, n);
    ErasingPhase(phrases, i, n);
  }

  /** No tick strictly inside those 2n comes back to charIndex 0. */
  lemma PhaseCycleIsFirstReturn(phrases: seq<string>, i: int, k: nat)
    requires 0 <= i < |phrases| && 0 < k < 2 * |phrases[i]|
    ensures Run(phrases, TypeState(i, 0, false), k).charIndex != 0
  {
    var n := |phrases[i]|;
    if k <= n {
      TypingPhase(phrases, i, k);
    } else {
      TypingPhase(phrases, i, n);
      RunAdd(phrases, TypeState(i, 0, false), n, k - n);
      ErasingPhase(phrases, i, k - n);
    }
  }

  /** Total number of characters of the first `k` phrases. */
  function SumLength(phrases: seq<string>, k: nat): nat
    requires k <= |phrases|
  {
    if k == 0 then 0 else SumLength(phrases, k - 1) + |phrases[k - 1]|
  }

  /** After typing and erasing the first `k` phrases from the initial state,
      the animation stands at the start of phrase `k` (of phrase 0 once all
      have been shown). */
  lemma {:induction false} CyclesAdvanceInOrder(phrases: seq<string>, k: nat)
    requires WellFormed(phrases) && k <= |phrases|
    ensures Run(phrases, Initial, 2 * SumLength(phrases, k)) ==
      TypeState(if k == |phrases| then 0 else k, 0, false)
  {
    if k > 0 {
      CyclesAdvanceInOrder(phrases, k - 1);
      var before := 2 * SumLength(phrases, k - 1);
      var here := 2 * |phrases[k - 1]|;
      assert 2 * SumLength(phrases, k) == before + here;
      RunAdd(phrases, Initial, before, here);
      assert Run(phrases, Initial, before) == TypeState(k - 1, 0, false);
      PhaseCycle(phrases, k - 1);
    }
  }

  /** The period: after 2 * (total length) ticks the state is the initial one again. */
  lemma FullCycle(phrases: seq<string>)
    requires WellFormed(phrases)
    ensures Run(phrases, Initial, 2 * SumLength(phrases, |phrases|)) == Initial
  {
    CyclesAdvanceInOrder(phrases, |phrases|);
  }

  /** After one full period the animation replays itself: every later tick
      sees the same state and writes the same frame as the corresponding tick
      of the first period. */
  lemma Replay(phrases: seq<string>, n: nat)
    requires WellFormed(phrases)
    ensures var p := 2 * SumLength(phrases, |phrases|);
      && Run(phrases, Initial, p + n) == Run(phrases, Initial, n)
      && Frames(phrases, Initial, p + n) == Frames(phrases, Initial, p) + Frames(phrases, Initial, n)
  {
    var p := 2 * SumLength(phrases, |phrases|);
    FullCycle(phrases);
    RunAdd(phrases, Initial, p, n);
    FramesAdd(phrases, Initial, p, n);
  }

  /** The page's own phrase list has 66 characters, so its period is 132 ticks. */
  lemma PagePeriod()
    ensures WellFormed(Phrases)
    ensures Run(Phrases, Initial, 132) == Initial
  {
    assert |Phrases[0]| == 20 && |Phrases[1]| == 17 && |Phrases[2]| == 14 && |Phrases[3]| == 15;
    assert SumLength(Phrases, 1) == 20;
    assert SumLength(Phrases, 2) == 37;
    assert SumLength(Phrases, 3) == 51;
    assert SumLength(Phrases, 4) == 66;
    FullCycle(Phrases);
  }

  /** The PortfolioApp fields the typewriter reads and writes. */
  class TypingAnimation {
    const textArray: seq<string>
    /** Whether the page has a `.typed-text` span to write into. */
    const hasSink: bool
    var textIndex: int
    var charIndex: int
    var isDeleting: bool
    /** The span's `textContent`. */
    var typedText: string

    ghost predicate Valid()
      reads this
    {
      0 <= textIndex < |textArray|
    }

    function State(): TypeState
      reads this
    {
      TypeState(textIndex, charIndex, isDeleting)
    }

    constructor (phrases: seq<string>, sinkPresent: bool, sinkText: string)
      requires |phrases| > 0
      ensures Valid() && textArray == phrases && hasSink == sinkPresent
      ensures State() == Initial && typedText == sinkText
    {
      textArray, hasSink := phrases, sinkPresent;
      textIndex, charIndex, isDeleting := 0, 0, false;
      typedText := sinkText;
    }

    /** `startTypingAnimation`: nothing is scheduled without a text span;
        otherwise the first tick comes after the start delay. */
    method Start() returns (firstDelay: Option<int>)
      ensures firstDelay.Some? <==> hasSink
      ensures firstDelay.Some? ==> firstDelay.value == StartDelay
    {
      if !hasSink {
        return None;
      }
      firstDelay := Some(StartDelay);
    }

    /** One run of `typeText`, statement by statement. */
    method Tick() returns (frame: Frame)
      requires Valid() && hasSink
      modifies this
      ensures Valid()
      ensures State() == Step(textArray, old(State())).next
      ensures frame == Step(textArray, old(State())).frame
      ensures typedText == frame.text
    {
      var currentText := textArray[textIndex];
      if isDeleting {
        typedText := Substring(currentText, 0, charIndex - 1);
        charIndex := charIndex - 1;
      } else {
        typedText := Substring(currentText, 0, charIndex + 1);
        charIndex := charIndex + 1;
      }
      var typeSpeed := if isDeleting then EraseDelay else TypeDelay;
      if !isDeleting && charIndex == |currentText| {
        typeSpeed := HoldDelay;
        isDeleting := true;
      } else if isDeleting && charIndex == 0 {
        isDeleting := false;
        textIndex := (textIndex + 1) % |textArray|;
        typeSpeed := AdvanceDelay;
      }
      frame := Frame(typedText, typeSpeed);
    }

    /** The timer chain, driven for `n` ticks: the state afterwards is `n`
        steps on from the state before, and the frames are those steps' frames. */
    method Drive(n: nat) returns (frames: seq<Frame>)
      requires Valid() && hasSink
      modifies this
      ensures Valid()
      ensures State() == Run(textArray, old(State()), n)
      ensures frames == Frames(textArray, old(State()), n)
    {
      ghost var start := State();
      frames := [];
      var i := 0;
      while i < n
        invariant 0 <= i <= n
        invariant Valid()
        invariant State() == Run(textArray, start, i)
        invariant frames == Frames(textArray, start, i)
      {
        var frame := Tick();
        frames := frames + [frame];
        i := i + 1;
      }
    }
  }
}
