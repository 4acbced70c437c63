/**
 * The page preloader (components/Preloader.tsx): a 60 ms interval pushes the progress
 * towards 100 by a shrinking step plus a random jitter; once it reaches 100 the overlay
 * moves from "loading" to "revealing" and, 600 ms later, to "complete", when it disappears.
 */
module Preloader {
  import opened JsMath

  /** The cap of the progress value, and the level at which loading is over. */
  const Done: real := 100.0

  datatype Phase = Loading | Revealing | Complete

  /** The position of a phase in the one-way order loading, revealing, complete. */
  function Rank(p: Phase): nat
  {
    match p
    case Loading => 0
    case Revealing => 1
    case Complete => 2
  }


  /**
   * The `setProgress` updater: at or past 100 it pins the value to 100; otherwise it adds
   * `min(0.3 * remaining, 25)` plus `r * 5`, where `r` is the `Math.random()` sample, capped at 100.
   */
  function Step(prev: real, r: real): (next: real)
    requires 0.0 <= r < 1.0
    ensures next <= Done
    ensures prev >= Done ==> next == Done
    ensures prev < Done ==> prev < next < prev + 30.0
  {
    if prev >= Done then Done
    else
      var remaining := Done - prev;
      var increment := Min(remaining * 0.3, 25.0);
      Min(prev + increment + r * 5.0, Done)
  }

  /** Progress never leaves [0, 100] under the step. */
  lemma StepStaysInRange(prev: real, r: real)
    requires 0.0 <= prev <= Done && 0.0 <= r < 1.0
    ensures 0.0 <= Step(prev, r) <= Done
  {
  }

  /** Without the random term the step never reaches 100: completion relies on the jitter. */
  lemma NoJitterNeverCompletes(prev: real)
    requires prev < Done
    ensures Step(prev, 0.0) < Done
  {
  }

  /** The progress after applying the step once for each sample in `rs`. */
  function Run(start: real, rs: seq<real>): (p: real)
    requires forall i :: 0 <= i < |rs| ==> 0.0 <= rs[i] < 1.0
    ensures start <= Done ==> start <= p <= Done
  {
    if rs == [] then start else Step(Run(start, rs[..|rs| - 1]), rs[|rs| - 1])
  }

  /** Once progress has reached 100, every further tick leaves it at exactly 100. */
  lemma {:induction false} DoneIsFixedPoint(rs: seq<real>)
    requires forall i :: 0 <= i < |rs| ==> 0.0 <= rs[i] < 1.0
    ensures Run(Done, rs) == Done
  {
    if rs != [] {
      DoneIsFixedPoint(rs[..|rs| - 1]);
    }
  }

  /** The phase effect: loading turns into revealing once progress is at 100, and nothing else changes. */
  function AfterProgressEffect(phase: Phase, progress: real): (next: Phase)
    ensures Rank(next) >= Rank(phase)
    ensures next != phase <==> phase == Loading && progress >= Done
    ensures next != phase ==> next == Revealing
  {
    if progress >= Done && phase == Loading then Revealing else phase
  }

  /** The 600 ms timeout armed on entering revealing: it completes the reveal. */
  function AfterRevealTimeout(phase: Phase): (next: Phase)
    ensures Rank(next) >= Rank(phase)
    ensures next != phase <==> phase == Revealing
    ensures next != phase ==> next == Complete
  {
    if phase == Revealing then Complete else phase
  }

  /** The overlay is on screen in every phase but complete. */
  predicate OverlayShown(phase: Phase)
  {
    phase != Complete
  }

  /** The counter text `Math.floor(progress)`. */
  function DisplayedPercent(progress: real): (shown: int)
    requires 0.0 <= progress <= Done
    ensures 0 <= shown <= 100
    ensures (shown as real) <= progress < (shown as real) + 1.0
  {
    progress.Floor
  }

  /** The preloader's state: the progress, the phase and the two timers it may have armed. */
  class Loader {
    var progress: real
    var phase: Phase
    /** The progress interval is still running (it clears itself on the tick that finds 100). */
    var intervalRunning: bool
    /** The timeout that completes the reveal is pending. */
    var revealTimerArmed: bool

    ghost predicate Valid()
      reads this
    {
      && 0.0 <= progress <= Done
      && (phase != Loading ==> progress == Done)
      && (!intervalRunning ==> progress == Done)
      && (revealTimerArmed <==> phase == Revealing)
    }

    /** Mount: progress 0, loading, the interval started. */
    constructor ()
      ensures Valid() && progress == 0.0 && phase == Loading && intervalRunning && !revealTimerArmed
    {
      progress := 0.0;
      phase := Loading;
      intervalRunning := true;
      revealTimerArmed := false;
    }

    /** One firing of the 60 ms interval with random sample `r`; a cleared interval no longer fires. */
    method Tick(r: real)
      requires Valid() && 0.0 <= r < 1.0
      modifies this
      ensures Valid() && phase == old(phase) && revealTimerArmed == old(revealTimerArmed)
      ensures progress == if old(intervalRunning) then Step(old(progress), r) else old(progress)
      ensures intervalRunning == (old(intervalRunning) && old(progress) < Done)
    {
      if !intervalRunning {
        return;
      }
      if progress >= Done {
        intervalRunning := false;
      }
      progress := Step(progress, r);
    }

    /** The effect that runs after a render in which `progress` or `phase` changed. */
    method ProgressEffect()
      requires Valid()
      modifies this
      ensures Valid() && progress == old(progress) && intervalRunning == old(intervalRunning)
      ensures phase == AfterProgressEffect(old(phase), old(progress))
      ensures Rank(phase) >= Rank(old(phase))
    {
      if progress >= Done && phase == Loading {
        phase := Revealing;
        revealTimerArmed := true;
      }
    }

    /** The pending 600 ms timeout fires; with none pending nothing happens. */
    method RevealTimeout()
      requires Valid()
      modifies this
      ensures Valid() && progress == old(progress) && intervalRunning == old(intervalRunning)
      ensures phase == AfterRevealTimeout(old(phase))
      ensures Rank(phase) >= Rank(old(phase))
      ensures !revealTimerArmed
    {
      if revealTimerArmed {
        phase := Complete;
        revealTimerArmed := false;
      }
    }
  }
}
