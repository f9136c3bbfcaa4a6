/**
 * The analysis screen (src/components/AnalysisScreen.tsx): a stage counter
 * advanced by an interval tick, which stops at the last stage and
 * schedules the completion callback once.  The timer delays are not
 * modelled; each call of `Tick` is one firing of the interval.
 */
module AnalysisScreen {
  const StageLabels: seq<string> := [
    "Analyzing your profile...",
    "Matching career paths...",
    "Calculating fit scores...",
    "Generating recommendations..."
  ]

  /** `stages.length - 1`. */
  const LastStage: nat := |StageLabels| - 1

  /** The four stage labels differ, so the label on screen names the stage. */
  lemma StageLabelsDistinct()
    ensures forall i, j :: 0 <= i < j < |StageLabels| ==> StageLabels[i] != StageLabels[j]
  {
    assert StageLabels[0][0] == 'A' && StageLabels[1][0] == 'M' && StageLabels[2][0] == 'C' && StageLabels[3][0] == 'G';
  }

  /** The progress dots: dot `i` is highlighted when `i <= stageIndex`. */
  function Dots(stageIndex: nat): (dots: seq<bool>)
    ensures |dots| == |StageLabels|
    ensures forall i :: 0 <= i < |dots| ==> (dots[i] <==> i <= stageIndex)
  {
    seq(|StageLabels|, i requires 0 <= i < |StageLabels| => i <= stageIndex)
  }

  function CountTrue(bs: seq<bool>): nat {
    if bs == [] then 0 else CountTrue(bs[..|bs| - 1]) + (if bs[|bs| - 1] then 1 else 0)
  }

  /** A vector whose first `m` entries are set and the rest clear counts `m`. */
  lemma {:induction false} CountLeadingTrue(bs: seq<bool>, m: nat)
    requires m <= |bs|
    requires forall i :: 0 <= i < |bs| ==> (bs[i] <==> i < m)
    ensures CountTrue(bs) == m
  {
    if bs != [] {
      var init := bs[..|bs| - 1];
      if m == |bs| {
        CountLeadingTrue(init, m - 1);
      } else {
        CountLeadingTrue(init, m);
      }
    }
  }

  /** The number of highlighted dots is `stageIndex + 1`. */
  lemma HighlightedDots(stageIndex: nat)
    requires stageIndex <= LastStage
    ensures CountTrue(Dots(stageIndex)) == stageIndex + 1
  {
    CountLeadingTrue(Dots(stageIndex), stageIndex + 1);
  }

  class AnalysisScreen {
    var stageIndex: nat
    /** The interval is still active. */
    var running: bool
    /** How many times `setTimeout(onComplete, 1200)` was called. */
    var completions: nat

    /** The index stays on a stage; completion is scheduled exactly once the interval has stopped. */
    ghost predicate Valid()
      reads this
    {
      && stageIndex <= LastStage
      && (running ==> completions == 0)
      && (!running ==> stageIndex == LastStage && completions == 1)
    }

    /** The screen mounts on the first stage with the interval running. */
    constructor ()
      ensures Valid() && stageIndex == 0 && running && completions == 0
    {
      stageIndex := 0;
      running := true;
      completions := 0;
    }

    /** The label under the icon: one of the stage labels, and the one of no other stage. */
    function Label(): (l: string)
      reads this
      requires Valid()
      ensures l in StageLabels
      ensures forall j :: 0 <= j < |StageLabels| && StageLabels[j] == l ==> j == stageIndex
    {
      StageLabelsDistinct();
      StageLabels[stageIndex]
    }

    /**
     * One firing of the interval: below the last stage the index advances
     * by one; at the last stage it stays, the interval is cleared and the
     * completion is scheduled.  A cleared interval fires no more.
     */
    method Tick()
      requires Valid()
      modifies this
      ensures Valid()
      ensures old(running) && old(stageIndex) < LastStage ==>
        stageIndex == old(stageIndex) + 1 && running && completions == old(completions)
      ensures old(running) && old(stageIndex) == LastStage ==>
        stageIndex == old(stageIndex) && !running && completions == old(completions) + 1
      ensures !old(running) ==>
        stageIndex == old(stageIndex) && running == old(running) && completions == old(completions)
    {
      if !running {
        return;
      }
      if stageIndex >= LastStage {
        running := false;
        completions := completions + 1;
      } else {
        stageIndex := stageIndex + 1;
      }
    }

    /**
     * Any number of firings from the start: the index climbs to the last
     * stage and stays, and the completion is scheduled once, on the fourth
     * firing, however many follow.
     */
    method TickMany(n: nat)
      requires Valid() && stageIndex == 0 && running
      modifies this
      ensures Valid()
      ensures stageIndex == if n < LastStage then n else LastStage
      ensures completions == if n > LastStage then 1 else 0
    {
      for k := 0 to n
        invariant Valid()
        invariant stageIndex == if k < LastStage then k else LastStage
        invariant running <==> k <= LastStage
      {
        Tick();
      }
    }
  }
}
