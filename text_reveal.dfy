/**
 * Text reveal: a text split into one animated span per character, shown
 * once a start timer fires; and a rotator that shows one of several texts
 * at a time, advancing on a fixed interval.
 */
module TextRevealModel {

  /** The non-breaking space that stands in for a space inside a span. */
  const Nbsp: char := '\U{00A0}'

  /** What one character's span displays. */
  function SpanChar(c: char): char {
    if c == ' ' then Nbsp else c
  }

  /**
   * The spans of `TextReveal`, in order: one per character, with every
   * space shown as a non-breaking space and everything else unchanged.
   */
  function Spans(text: string): (r: seq<char>)
    ensures |r| == |text|
    ensures forall i :: 0 <= i < |text| ==> r[i] == (if text[i] == ' ' then Nbsp else text[i])
  {
    if text == [] then [] else [SpanChar(text[0])] + Spans(text[1..])
  }

  /** The spans of a concatenation are the spans of the parts, concatenated. */
  lemma {:induction false} SpansAppend(a: string, b: string)
    ensures Spans(a + b) == Spans(a) + Spans(b)
  {
    if a == [] {
      assert a + b == b;
    } else {
      assert (a + b)[1..] == a[1..] + b;
      SpansAppend(a[1..], b);
    }
  }

  /** Turning the non-breaking spaces back into spaces. */
  function Unspan(shown: seq<char>): (r: string)
    ensures |r| == |shown|
    ensures forall i :: 0 <= i < |shown| ==> r[i] == (if shown[i] == Nbsp then ' ' else shown[i])
  {
    if shown == [] then [] else [if shown[0] == Nbsp then ' ' else shown[0]] + Unspan(shown[1..])
  }

  /**
   * No span shows a plain space, and the text can be read back from the
   * spans whenever it held no non-breaking space of its own.
   */
  lemma SpansRoundTrip(text: string)
    ensures ' ' !in Spans(text)
    ensures Nbsp !in text ==> Unspan(Spans(text)) == text
  {
    var r := Spans(text);
    forall i | 0 <= i < |r| ensures r[i] != ' ' { }
    if Nbsp !in text {
      assert forall i :: 0 <= i < |text| ==> Unspan(r)[i] == text[i];
    }
  }

  /** `TextReveal`: hidden until its single start timer fires. */
  class TextReveal {
    const text: string
    /** `delay * 1000`: the start timer's delay in milliseconds. */
    const timerDelay: real
    var isVisible: bool

    constructor (text: string, delay: real)
      ensures this.text == text && timerDelay == delay * 1000.0
      ensures !isVisible
    {
      this.text := text;
      timerDelay := delay * 1000.0;
      isVisible := false;
    }

    /** The start timer fires; nothing ever sets the flag back. */
    method TimerFires()
      modifies this
      ensures isVisible
    {
      isVisible := true;
    }
  }

  /** The position after one interval tick, with JavaScript's `%` on a non-negative index. */
  function Advance(index: nat, count: nat): (r: nat)
    requires count > 0
    ensures r < count
    ensures index + 1 < count ==> r == index + 1
    ensures index + 1 == count ==> r == 0
  {
    (index + 1) % count
  }

  /** `k` ticks from position `index`. */
  function AdvanceBy(index: nat, count: nat, k: nat): nat
    requires count > 0
    decreases k
  {
    if k == 0 then index else AdvanceBy(Advance(index, count), count, k - 1)
  }

  /** Before wrapping, `k` ticks move `k` places forward. */
  lemma {:induction false} AdvanceByForward(index: nat, count: nat, k: nat)
    requires count > 0 && index + k < count
    ensures AdvanceBy(index, count, k) == index + k
    decreases k
  {
    if k > 0 {
      AdvanceByForward(index + 1, count, k - 1);
    }
  }

  /** Ticking `a + b` times is ticking `a` times, then `b` times. */
  lemma {:induction false} AdvanceByAdd(index: nat, count: nat, a: nat, b: nat)
    requires count > 0
    ensures AdvanceBy(index, count, a + b) == AdvanceBy(AdvanceBy(index, count, a), count, b)
    decreases a
  {
    if a > 0 {
      AdvanceByAdd(Advance(index, count), count, a - 1, b);
    }
  }

  /** Every valid position comes back after exactly `count` ticks. */
  lemma AdvanceByCycles(index: nat, count: nat)
    requires count > 0 && index < count
    ensures AdvanceBy(index, count, count) == index
  {
    var toLast := count - 1 - index;
    AdvanceByForward(index, count, toLast);
    AdvanceByAdd(index, count, toLast, 1);
    assert AdvanceBy(count - 1, count, 1) == 0;
    AdvanceByAdd(index, count, toLast + 1, index);
    AdvanceByForward(0, count, index);
  }

  /** The opacity of each text's layer: 1 for the current one, 0 for the rest. */
  function Opacities(count: nat, current: nat): (r: seq<int>)
    ensures |r| == count
    ensures forall i :: 0 <= i < count ==> r[i] == (if i == current then 1 else 0)
  {
    if count == 0 then [] else Opacities(count - 1, current) + [if current == count - 1 then 1 else 0]
  }

  /** How many layers are fully opaque. */
  function CountOpaque(os: seq<int>): nat {
    if os == [] then 0 else CountOpaque(os[..|os| - 1]) + (if os[|os| - 1] == 1 then 1 else 0)
  }

  /** Exactly one layer, the current one, is opaque when the index is in range. */
  lemma {:induction false} OneOpaque(count: nat, current: nat)
    ensures CountOpaque(Opacities(count, current)) == if current < count then 1 else 0
    ensures forall i :: 0 <= i < count ==> (Opacities(count, current)[i] == 1 <==> i == current)
  {
    if count > 0 {
      OneOpaque(count - 1, current);
      var os := Opacities(count, current);
      assert os[..count - 1] == Opacities(count - 1, current);
    }
  }

  /** `AnimatedTextReveal`. */
  class TextRotator {
    const texts: seq<string>
    var currentIndex: nat

    ghost predicate Valid()
      reads this
    {
      currentIndex < |texts|
    }

    /**
     * The texts must be non-empty: with none, the height placeholder passes
     * `texts[0]`, which is undefined, to a text reveal, and its `text.split`
     * throws.
     */
    constructor (texts: seq<string>)
      requires |texts| > 0
      ensures Valid() && this.texts == texts && currentIndex == 0
    {
      this.texts := texts;
      currentIndex := 0;
    }

    /** One interval tick. */
    method IntervalTick()
      requires Valid()
      modifies this
      ensures Valid()
      ensures currentIndex == Advance(old(currentIndex), |texts|)
    {
      currentIndex := (currentIndex + 1) % |texts|;
    }

    /** The opacity of every text's layer. */
    function LayerOpacities(): (r: seq<int>)
      requires Valid()
      reads this
      ensures |r| == |texts| && CountOpaque(r) == 1
      ensures forall i :: 0 <= i < |texts| ==> r[i] == (if i == currentIndex then 1 else 0)
    {
      OneOpaque(|texts|, currentIndex);
      Opacities(|texts|, currentIndex)
    }
  }
}
