/**
 * The typewriter: types a text one character per tick, pauses, deletes it
 * one character per tick, then moves on to the next text, cyclically.
 * Each timer firing is one `Step`; the pending timer's delay is `Delay`.
 */
module TypewriterModel {

  /** The four pieces of component state. */
  datatype State = State(index: nat, text: string, isDeleting: bool, isPaused: bool)

  /** The state on mount. */
  const Initial: State := State(0, "", false, false)

  /** The delays the component is configured with, in milliseconds. */
  datatype Speeds = Speeds(typing: int, deleting: int, pause: int)

  /** The component's defaults, and the ones the advanced variant passes. */
  const DefaultSpeeds: Speeds := Speeds(100, 50, 2000)
  const AdvancedSpeeds: Speeds := Speeds(80, 40, 3000)

  /**
   * The reachable states: the index names a text, the shown text is a
   * prefix of it, pausing only happens on the complete text, and pausing
   * and deleting never hold together.
   */
  ghost predicate Inv(texts: seq<string>, s: State) {
    && |texts| > 0
    && s.index < |texts|
    && s.text <= texts[s.index]
    && !(s.isPaused && s.isDeleting)
    && (s.isPaused ==> s.text == texts[s.index])
  }

  /** What one timer firing does to the state. */
  function Step(texts: seq<string>, s: State): (t: State)
    requires Inv(texts, s)
    ensures Inv(texts, t)
    ensures t.text <= s.text || s.text <= t.text
    ensures |t.text| <= |s.text| + 1 && |s.text| <= |t.text| + 1
  {
    var full := texts[s.index];
    if s.isPaused then
      s.(isPaused := false, isDeleting := true)
    else if !s.isDeleting then
      if |s.text| < |full| then s.(text := full[..|s.text| + 1])
      else s.(isPaused := true)
    else
      if |s.text| > 0 then s.(text := s.text[..|s.text| - 1])
      else s.(isDeleting := false, index := (s.index + 1) % |texts|)
  }

  /** The delay of the timer the current state schedules. */
  function Delay(sp: Speeds, s: State): (d: int)
    ensures s.isPaused ==> d == sp.pause
    ensures !s.isPaused && s.isDeleting ==> d == sp.deleting
    ensures !s.isPaused && !s.isDeleting ==> d == sp.typing
  {
    if s.isPaused then sp.pause
    else if s.isDeleting then sp.deleting
    else sp.typing
  }

  lemma InitialInv(texts: seq<string>)
    requires |texts| > 0
    ensures Inv(texts, Initial)
    ensures Initial.index == 0 && Initial.text == "" && !Initial.isDeleting && !Initial.isPaused
  {
  }

  /** One step keeps the invariant and does exactly one of five things. */
  lemma StepSpec(texts: seq<string>, s: State)
    requires Inv(texts, s)
    ensures var t, full := Step(texts, s), texts[s.index];
      && Inv(texts, t)
      // the pause ends: start deleting, text unchanged
      && (s.isPaused ==> t == State(s.index, s.text, true, false))
      // typing an incomplete text appends exactly the next character
      && (!s.isPaused && !s.isDeleting && |s.text| < |full| ==>
            t == s.(text := s.text + [full[|s.text|]]))
      // typing a complete text pauses on it
      && (!s.isPaused && !s.isDeleting && |s.text| == |full| ==>
            t == s.(isPaused := true))
      // deleting drops exactly the last character
      && (s.isDeleting && |s.text| > 0 ==>
            t == s.(text := s.text[..|s.text| - 1]) && s.text == t.text + [s.text[|s.text| - 1]])
      // deleting the empty text moves on to the next text
      && (s.isDeleting && s.text == "" ==>
            t == State((s.index + 1) % |texts|, "", false, false))
  {
    var full := texts[s.index];
    if !s.isPaused && !s.isDeleting && |s.text| < |full| {
      assert full[..|s.text| + 1] == full[..|s.text|] + [full[|s.text|]];
    }
  }

  /** `n` timer firings in a row. */
  function Run(texts: seq<string>, s: State, n: nat): (t: State)
    requires Inv(texts, s)
    ensures Inv(texts, t)
    decreases n
  {
    if n == 0 then s
    else
      StepSpec(texts, s);
      Run(texts, Step(texts, s), n - 1)
  }

  /** The time that `n` firings take, each waiting for its state's delay. */
  function Elapsed(texts: seq<string>, sp: Speeds, s: State, n: nat): int
    requires Inv(texts, s)
    decreases n
  {
    if n == 0 then 0
    else
      StepSpec(texts, s);
      Delay(sp, s) + Elapsed(texts, sp, Step(texts, s), n - 1)
  }

  /** Running `a + b` firings is running `a`, then `b`. */
  lemma {:induction false} RunAdd(texts: seq<string>, sp: Speeds, s: State, a: nat, b: nat)
    requires Inv(texts, s)
    ensures Run(texts, s, a + b) == Run(texts, Run(texts, s, a), b)
    ensures Elapsed(texts, sp, s, a + b) == Elapsed(texts, sp, s, a) + Elapsed(texts, sp, Run(texts, s, a), b)
    decreases a
  {
    if a > 0 {
      StepSpec(texts, s);
      RunAdd(texts, sp, Step(texts, s), a - 1, b);
    }
  }

  /** Typing from any prefix reaches the complete text, one tick per character. */
  lemma {:induction false} TypeOut(texts: seq<string>, sp: Speeds, s: State)
    requires Inv(texts, s) && !s.isDeleting && !s.isPaused
    ensures var k := |texts[s.index]| - |s.text|;
      && Run(texts, s, k) == s.(text := texts[s.index])
      && Elapsed(texts, sp, s, k) == k * sp.typing
    decreases |texts[s.index]| - |s.text|
  {
    var full := texts[s.index];
    if |s.text| < |full| {
      StepSpec(texts, s);
      TypeOut(texts, sp, Step(texts, s));
    } else {
      assert s.text == full;
    }
  }

  /** Deleting removes the whole text, one tick per character. */
  lemma {:induction false} EraseAll(texts: seq<string>, sp: Speeds, s: State)
    requires Inv(texts, s) && s.isDeleting
    ensures Run(texts, s, |s.text|) == s.(text := "")
    ensures Elapsed(texts, sp, s, |s.text|) == |s.text| * sp.deleting
    decreases |s.text|
  {
    if |s.text| > 0 {
      StepSpec(texts, s);
      EraseAll(texts, sp, Step(texts, s));
    }
  }

  /**
   * A full cycle: from the empty start on text `i`, `2 * |texts[i]| + 3`
   * firings type it, pause, delete it and land on the empty start of the
   * next text; the cycle takes `|t| + 1` typing delays, one pause and
   * `|t| + 1` deleting delays.
   */
  lemma {:induction false} Cycle(texts: seq<string>, sp: Speeds, i: nat)
    requires |texts| > 0 && i < |texts|
    ensures var s := State(i, "", false, false);
      var n := 2 * |texts[i]| + 3;
      && Inv(texts, s)
      && Run(texts, s, n) == State((i + 1) % |texts|, "", false, false)
      && Elapsed(texts, sp, s, n) == (|texts[i]| + 1) * sp.typing + sp.pause + (|texts[i]| + 1) * sp.deleting
  {
    var full := texts[i];
    var k := |full|;
    var s0 := State(i, "", false, false);
    TypeOut(texts, sp, s0);
    var s1 := s0.(text := full);
    assert Run(texts, s0, k) == s1;
    // three single steps: pause, end of pause, then the deletes
    var s2 := s1.(isPaused := true);
    var s3 := State(i, full, true, false);
    StepSpec(texts, s1);
    StepSpec(texts, s2);
    EraseAll(texts, sp, s3);
    var s4 := State(i, "", true, false);
    StepSpec(texts, s4);
    var s5 := State((i + 1) % |texts|, "", false, false);
    RunAdd(texts, sp, s0, k, 2);
    RunAdd(texts, sp, s0, k + 2, k);
    RunAdd(texts, sp, s0, 2 * k + 2, 1);
    assert Run(texts, s1, 2) == s3 by {
      assert Run(texts, s1, 2) == Run(texts, s2, 1) == Run(texts, s3, 0);
    }
    assert Elapsed(texts, sp, s1, 2) == sp.typing + sp.pause by {
      assert Elapsed(texts, sp, s1, 2) == Delay(sp, s1) + Elapsed(texts, sp, s2, 1);
      assert Elapsed(texts, sp, s2, 1) == Delay(sp, s2) + Elapsed(texts, sp, s3, 0);
    }
    assert Run(texts, s4, 1) == s5;
    assert Elapsed(texts, sp, s4, 1) == sp.deleting;
  }


  /** The mounted component; `Tick` is one firing of its pending timer. */
  class Typewriter {
    const texts: seq<string>
    const speeds: Speeds
    var currentTextIndex: nat
    var currentText: string
    var isDeleting: bool
    var isPaused: bool

    function Current(): State
      reads this
    {
      State(currentTextIndex, currentText, isDeleting, isPaused)
    }

    ghost predicate Valid()
      reads this
    {
      Inv(texts, Current())
    }

    /**
     * The texts must be non-empty: with none, `texts[0]` is undefined and the
     * first timer callback throws when it reads its length.
     */
    constructor (texts: seq<string>, speeds: Speeds)
      requires |texts| > 0
      ensures Valid()
      ensures this.texts == texts && this.speeds == speeds
      ensures Current() == Initial
    {
      this.texts := texts;
      this.speeds := speeds;
      currentTextIndex := 0;
      currentText := "";
      isDeleting := false;
      isPaused := false;
    }

    /**
     * The pending timer fires: the pause timer when paused, the typing or
     * deleting timer otherwise. `waited` is the delay that timer was set for.
     */
    method Tick() returns (waited: int)
      requires Valid()
      modifies this
      ensures Valid()
      ensures Current() == Step(texts, old(Current()))
      ensures waited == Delay(speeds, old(Current()))
    {
      var currentFullText := texts[currentTextIndex];
      if isPaused {
        waited := speeds.pause;
        isPaused := false;
        isDeleting := true;
        return;
      }
      waited := if isDeleting then speeds.deleting else speeds.typing;
      if !isDeleting {
        if |currentText| < |currentFullText| {
          currentText := currentFullText[..|currentText| + 1];
        } else {
          isPaused := true;
        }
      } else {
        if |currentText| > 0 {
          currentText := currentText[..|currentText| - 1];
        } else {
          isDeleting := false;
          currentTextIndex := (currentTextIndex + 1) % |texts|;
        }
      }
    }
  }
}
