/**
 * The start-up loader: every 800 ms it jumps to the next loading stage,
 * and once it reaches 100 it asks (once) to be dismissed.
 */
module LoaderModel {
  import opened Common

  datatype Stage = Stage(progress: int, text: string)

  /** `loadingStages`, in order. */
  const Stages: seq<Stage> := [
    Stage(20, "Loading assets..."),
    Stage(40, "Preparing components..."),
    Stage(60, "Setting up animations..."),
    Stage(80, "Almost ready..."),
    Stage(100, "Welcome!")
  ]

  const InitialText: string := "Initializing..."

  /**
   * `Array.prototype.find` with the predicate `progress < stage.progress`:
   * the position of the first stage above `progress`, if any.
   */
  function FindAbove(stages: seq<Stage>, progress: int): (r: Option<nat>)
    ensures r.Some? ==> r.value < |stages| && progress < stages[r.value].progress
    ensures r.Some? ==> forall j :: 0 <= j < r.value ==> stages[j].progress <= progress
    ensures r.None? ==> forall j :: 0 <= j < |stages| ==> stages[j].progress <= progress
  {
    if |stages| == 0 then None
    else if progress < stages[0].progress then Some(0)
    else match FindAbove(stages[1..], progress)
      case None => None
      case Some(i) => Some(i + 1)
  }

  /** The loader's state: the two state fields and how many dismissal
   *  requests have been scheduled. */
  datatype State = State(progress: int, text: string, completions: nat)

  const Initial: State := State(0, InitialText, 0)

  /**
   * One firing of the 800 ms timer. When a stage is found, `progress`
   * changes and the effect runs again, scheduling a dismissal if the new
   * progress is at least 100; otherwise nothing changes and the effect
   * does not run again.
   */
  function Next(s: State): (t: State)
    ensures t == s <==> FindAbove(Stages, s.progress).None?
    ensures t.progress >= s.progress
    ensures s.completions <= t.completions <= s.completions + 1
  {
    match FindAbove(Stages, s.progress)
    case None => s
    case Some(i) =>
      var stage := Stages[i];
      State(stage.progress, stage.text, s.completions + (if stage.progress >= 100 then 1 else 0))
  }

  /** The text the loader shows at a progress value. */
  function TextAt(progress: int): string {
    if progress == 0 then InitialText
    else match FindAbove(Stages, progress - 1)
      case Some(i) => Stages[i].text
      case None => ""
  }

  /**
   * The reachable states: progress is a multiple of 20 from 0 to 100, the
   * text is that of the stage at that progress (the initial text at 0), and
   * exactly one dismissal has been requested once progress is 100.
   */
  ghost predicate Inv(s: State) {
    && s.progress in {0, 20, 40, 60, 80, 100}
    && s.text == TextAt(s.progress)
    && s.completions == (if s.progress >= 100 then 1 else 0)
  }

  /** Which stage `find` picks on the given table, by range of `progress`. */
  lemma FindAboveStages(p: int)
    ensures FindAbove(Stages, p) ==
      if p < 20 then Some(0) else if p < 40 then Some(1) else if p < 60 then Some(2)
      else if p < 80 then Some(3) else if p < 100 then Some(4) else None
  {
    var r := FindAbove(Stages, p);
    assert Stages[0].progress == 20 && Stages[1].progress == 40 && Stages[2].progress == 60;
    assert Stages[3].progress == 80 && Stages[4].progress == 100;
    if r.Some? {
      assert r.value < 5;
    }
  }

  /**
   * A tick moves up exactly one stage below 100 and changes nothing at 100;
   * the text is then the text of the stage whose threshold is the new
   * progress.
   */
  lemma NextSpec(s: State)
    requires Inv(s)
    ensures Inv(Next(s))
    ensures s.progress < 100 ==> Next(s).progress == s.progress + 20
    ensures s.progress == 100 ==> Next(s) == s
    ensures Next(s).progress > 0 ==>
      var i := Next(s).progress / 20 - 1;
      0 <= i < |Stages| && Stages[i] == Stage(Next(s).progress, Next(s).text)
  {
    var p := s.progress;
    FindAboveStages(p);
    if p < 100 {
      FindAboveStages(p + 19);
      assert Next(s).progress == p + 20;
    }
  }

  /** `n` ticks from the initial state. */
  function Run(n: nat): (s: State)
    ensures Inv(s)
  {
    if n == 0 then
      FindAboveStages(-1);
      Initial
    else
      NextSpec(Run(n - 1));
      Next(Run(n - 1))
  }

  /**
   * After `n` ticks progress is `min(20 * n, 100)`: it never exceeds 100,
   * and dismissal has been requested exactly when (and only once) it is 100.
   */
  lemma {:induction false} RunProgress(n: nat)
    ensures Run(n).progress == if 20 * n < 100 then 20 * n else 100
    ensures Run(n).completions == if n >= 5 then 1 else 0
  {
    if n > 0 {
      var s := Run(n - 1);
      RunProgress(n - 1);
      NextSpec(s);
      assert Run(n) == Next(s);
    }
  }

  /** The mounted loader. */
  class Loader {
    var progress: int
    var loadingText: string
    /** How many `onComplete` timers have been scheduled. */
    var completionRequests: nat

    function Current(): State
      reads this
    {
      State(progress, loadingText, completionRequests)
    }

    ghost predicate Valid()
      reads this
    {
      Inv(Current())
    }

    /** Mounting: the first effect run schedules no dismissal at progress 0. */
    constructor ()
      ensures Valid() && Current() == Initial
    {
      progress := 0;
      loadingText := InitialText;
      completionRequests := 0;
      FindAboveStages(-1);
    }

    /** The 800 ms timer fires; on a change, the effect re-runs. */
    method Tick()
      requires Valid()
      modifies this
      ensures Valid()
      ensures Current() == Next(old(Current()))
    {
      NextSpec(Current());
      var currentStage := FindAbove(Stages, progress);
      if currentStage.Some? {
        progress := Stages[currentStage.value].progress;
        loadingText := Stages[currentStage.value].text;
        if progress >= 100 {
          completionRequests := completionRequests + 1;
        }
      }
    }
  }
}
