/**
 * The loading screen of src/components/LoadingScreen.jsx: an interval that
 * advances a running progress every 50 ms, picks one of four status texts
 * from it, and schedules the completion callback once progress reaches 100.
 * Progress is a real number here; see README for rounding.
 */
module Loading {

  const Duration: int := 1500
  const IntervalMs: int := 50
  /** `duration / interval`: thirty ticks. */
  const Steps: int := Duration / IntervalMs
  /** `100 / steps`. */
  const ProgressStep: real := 100.0 / (Steps as real)
  /** The delay before `onComplete` runs. */
  const CompletionDelayMs: int := 500
  /** `loadingTexts.length`. */
  const TextCount: int := 4

  function Min(a: real, b: real): real
  {
    if a < b then a else b
  }

  /** The running progress after `k` ticks. */
  function Progress(k: nat): (p: real)
    ensures p == (k as real) * 100.0 / 30.0
  {
    assert Steps == 30;
    (k as real) * ProgressStep
  }

  /** `Math.floor((currentProgress / 100) * loadingTexts.length)` after `k` ticks. */
  function IndexAt(k: nat): int
  {
    ((Progress(k) / 100.0) * (TextCount as real)).Floor
  }

  /** The floor is the integer quotient `4k / 30`. */
  lemma IndexAtClosedForm(k: nat)
    ensures IndexAt(k) == (4 * k) / 30
  {
    var q := (4 * k) / 30;
    var x := (Progress(k) / 100.0) * (TextCount as real);
    assert x == (4 * k) as real / 30.0;
    assert q * 30 <= 4 * k < (q + 1) * 30;
    assert (q as real) * 30.0 <= (4 * k) as real < ((q + 1) as real) * 30.0;
    assert q as real <= x < (q as real) + 1.0;
  }

  /** The text index only moves forward as ticks go by. */
  lemma IndexAtMonotone(k: nat, k': nat)
    requires k <= k'
    ensures 0 <= IndexAt(k) <= IndexAt(k')
  {
    IndexAtClosedForm(k);
    IndexAtClosedForm(k');
  }

  /** Progress reaches 100 exactly at the thirtieth tick. */
  lemma CompletesAtThirtiethTick(k: nat)
    ensures Progress(k) >= 100.0 <==> k >= 30
  {
  }

  /** `setProgress(Math.min(currentProgress, 100))`. */
  function Displayed(k: nat): (d: real)
    ensures 0.0 <= d <= 100.0
  {
    Min(Progress(k), 100.0)
  }

  /** The displayed progress never decreases from one tick to a later one. */
  lemma DisplayedMonotone(k: nat, k': nat)
    requires k <= k'
    ensures Displayed(k) <= Displayed(k')
  {
    assert Progress(k) <= Progress(k');
  }

  /** The text index the screen shows after `k` ticks: the computed index,
      except that a value of four or more leaves the last one in place. */
  function ShownIndex(k: nat): (i: nat)
    requires k <= 30
    ensures i < TextCount
  {
    IndexAtClosedForm(k);
    if IndexAt(k) < TextCount then IndexAt(k) else TextCount - 1
  }

  /** The shown text never moves backwards, and the last tick shows the last
      text. */
  lemma ShownIndexMonotone(k: nat, k': nat)
    requires k <= k' <= 30
    ensures ShownIndex(k) <= ShownIndex(k')
    ensures ShownIndex(0) == 0 && ShownIndex(30) == TextCount - 1
  {
    IndexAtMonotone(k, k');
    IndexAtClosedForm(0);
    IndexAtClosedForm(30);
  }

  class LoadingScreen {
    /** The memoized `loadingTexts`. */
    var texts: seq<string>
    /** The `progress` and `currentText` state. */
    var progress: real
    var currentText: string
    /** The effect's closure variables. */
    var currentProgress: real
    var textIndex: nat
    /** Ticks of the current interval since the effect last ran. */
    ghost var ticks: nat
    var started: bool
    var intervalActive: bool
    /** Completion timeouts scheduled and not yet fired. */
    var pendingCompletions: nat

    ghost predicate Valid()
      reads this
    {
      && |texts| == TextCount
      && 0.0 <= progress <= 100.0
      && ticks <= 30
      && currentProgress == Progress(ticks)
      && textIndex == ShownIndex(ticks)
      && (started ==> currentText == texts[textIndex])
      && (!started ==> currentText == "" && ticks == 0 && !intervalActive)
      && (intervalActive ==> ticks < 30)
    }

    /** The first render, before the effect has run. */
    constructor (loadingTexts: seq<string>)
      requires |loadingTexts| == TextCount
      ensures Valid() && progress == 0.0 && currentText == ""
      ensures !intervalActive && pendingCompletions == 0
    {
      texts := loadingTexts;
      progress := 0.0;
      currentText := "";
      currentProgress := 0.0;
      textIndex := 0;
      ticks := 0;
      started := false;
      intervalActive := false;
      pendingCompletions := 0;
    }

    /** The effect: it runs on mount and again whenever the callback or the
        texts change. The previous interval is cleared first; a fresh run
        starts from zero and shows the first text, while the `progress` state
        keeps its last value until the next tick. */
    method RunEffect(loadingTexts: seq<string>)
      requires Valid() && |loadingTexts| == TextCount
      modifies this
      ensures Valid() && started && intervalActive
      ensures texts == loadingTexts
      ensures ticks == 0 && textIndex == 0 && currentText == loadingTexts[0]
      ensures progress == old(progress) && pendingCompletions == old(pendingCompletions)
    {
      intervalActive := false;
      texts := loadingTexts;
      currentProgress := 0.0;
      textIndex := 0;
      ticks := 0;
      IndexAtClosedForm(0);
      intervalActive := true;
      currentText := texts[0];
      started := true;
    }

    /** One interval callback. */
    method Tick()
      requires Valid() && intervalActive
      modifies this`currentProgress, this`textIndex, this`ticks, this`currentText,
               this`progress, this`intervalActive, this`pendingCompletions
      ensures Valid() && ticks == old(ticks) + 1
      ensures progress == Displayed(ticks)
      ensures textIndex == ShownIndex(ticks) && textIndex >= old(textIndex)
      ensures intervalActive <==> ticks < 30
      ensures pendingCompletions == old(pendingCompletions) + (if ticks == 30 then 1 else 0)
    {
      currentProgress := currentProgress + ProgressStep;
      ticks := ticks + 1;
      var newTextIndex := ((currentProgress / 100.0) * (TextCount as real)).Floor;
      assert newTextIndex == IndexAt(ticks);
      if newTextIndex != textIndex && newTextIndex < TextCount {
        textIndex := newTextIndex;
        currentText := texts[textIndex];
      }
      progress := Min(currentProgress, 100.0);
      CompletesAtThirtiethTick(ticks);
      ShownIndexMonotone(ticks - 1, ticks);
      if currentProgress >= 100.0 {
        intervalActive := false;
        pendingCompletions := pendingCompletions + 1;
      }
    }

    /** The effect's cleanup clears the interval; a completion already
        scheduled stays scheduled. */
    method Cleanup()
      requires Valid()
      modifies this`intervalActive
      ensures Valid() && !intervalActive
    {
      intervalActive := false;
    }

    /** A scheduled completion runs `onComplete`. */
    method CompletionFires()
      requires pendingCompletions > 0
      modifies this`pendingCompletions
      ensures pendingCompletions == old(pendingCompletions) - 1
    {
      pendingCompletions := pendingCompletions - 1;
    }
  }

  /** A full run: thirty ticks take the screen through all four texts to 100
      and schedule the completion exactly once. */
  method FullRun(loadingTexts: seq<string>) returns (finalProgress: real, finalText: string, completions: nat)
    requires |loadingTexts| == TextCount
    ensures finalProgress == 100.0
    ensures finalText == loadingTexts[3]
    ensures completions == 1
  {
    var screen := new LoadingScreen(loadingTexts);
    screen.RunEffect(loadingTexts);
    while screen.intervalActive
      invariant screen.Valid() && screen.started && screen.texts == loadingTexts
      invariant screen.pendingCompletions == (if screen.intervalActive then 0 else 1)
      invariant !screen.intervalActive ==> screen.ticks == 30
      invariant screen.ticks > 0 ==> screen.progress == Displayed(screen.ticks)
      decreases 30 - screen.ticks
    {
      screen.Tick();
    }
    finalProgress := screen.progress;
    finalText := screen.currentText;
    completions := screen.pendingCompletions;
    assert Progress(30) == 100.0;
    IndexAtClosedForm(30);
  }
}
