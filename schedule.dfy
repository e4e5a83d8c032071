/** Segment selection: which segment of a trial is active after a given
    elapsed time.

    A trial is a list of segment durations in minutes. They are turned into
    seconds and summed cumulatively into end boundaries T_0 .. T_{n-1}; the
    active segment is the first one whose boundary has not been passed,
    where "passed" means `elapsed > T_i`. So an elapsed time equal to T_i
    still belongs to segment i, and the trial ends (index -1) only once the
    elapsed time exceeds every boundary.
 */
module Schedule {

  /** Sum of a sequence, added up from the front. */
  function Sum(xs: seq<real>): real {
    if xs == [] then 0.0 else Sum(xs[..|xs| - 1]) + xs[|xs| - 1]
  }

  ghost predicate NonNegative(xs: seq<real>) {
    forall i :: 0 <= i < |xs| ==> xs[i] >= 0.0
  }

  ghost predicate Positive(xs: seq<real>) {
    forall i :: 0 <= i < |xs| ==> xs[i] > 0.0
  }

  /** Durations in minutes converted to seconds. */
  function ToSeconds(segmentMin: seq<real>): seq<real> {
    seq(|segmentMin|, i requires 0 <= i < |segmentMin| => segmentMin[i] * 60.0)
  }

  /** Running totals (`np.cumsum`); entry i is the sum of the first i + 1
      elements, as CumSumEntry shows. */
  function CumSum(xs: seq<real>): (sums: seq<real>)
    ensures |sums| == |xs|
  {
    if xs == [] then [] else CumSum(xs[..|xs| - 1]) + [Sum(xs)]
  }

  /** Entry i of the running totals is the sum of the first i + 1 elements. */
  lemma {:induction false} CumSumEntry(xs: seq<real>, i: nat)
    requires i < |xs|
    ensures CumSum(xs)[i] == Sum(xs[..i + 1])
  {
    var front := xs[..|xs| - 1];
    if i < |front| {
      CumSumEntry(front, i);
      assert front[..i + 1] == xs[..i + 1];
    } else {
      assert xs[..i + 1] == xs;
    }
  }

  /** The end boundaries of the segments, in seconds. */
  function TimePoints(segmentMin: seq<real>): (timePoints: seq<real>)
    ensures |timePoints| == |segmentMin|
  {
    CumSum(ToSeconds(segmentMin))
  }

  /** Element-wise `elapsed > timePoints`: which boundaries have been passed. */
  function TimePassed(elapsed: real, timePoints: seq<real>): seq<bool> {
    seq(|timePoints|, i requires 0 <= i < |timePoints| => elapsed > timePoints[i])
  }

  /** The indices, from `from` on, whose flag is false, in increasing order:
      the list comprehension over `enumerate(time_passed)`. */
  function NotPassed(passed: seq<bool>, from: nat): (idxs: seq<nat>)
    requires from <= |passed|
    ensures forall k :: 0 <= k < |idxs| ==> from <= idxs[k] < |passed| && !passed[idxs[k]]
    ensures idxs == [] <==> forall i :: from <= i < |passed| ==> passed[i]
    ensures idxs != [] ==> forall i :: from <= i < idxs[0] ==> passed[i]
    decreases |passed| - from
  {
    if from == |passed| then []
    else if !passed[from] then [from] + NotPassed(passed, from + 1)
    else NotPassed(passed, from + 1)
  }

  /** The comprehension keeps every not-passed index. */
  lemma {:induction false} NotPassedComplete(passed: seq<bool>, from: nat)
    requires from <= |passed|
    ensures forall i :: from <= i < |passed| && !passed[i] ==> i in NotPassed(passed, from)
    decreases |passed| - from
  {
    if from < |passed| {
      NotPassedComplete(passed, from + 1);
    }
  }

  /** The comprehension lists the indices in strictly increasing order. */
  lemma {:induction false} NotPassedIncreasing(passed: seq<bool>, from: nat)
    requires from <= |passed|
    ensures forall k, l :: 0 <= k < l < |NotPassed(passed, from)| ==>
              NotPassed(passed, from)[k] < NotPassed(passed, from)[l]
    decreases |passed| - from
  {
    if from < |passed| {
      NotPassedIncreasing(passed, from + 1);
      var rest := NotPassed(passed, from + 1);
      if !passed[from] {
        var idxs := [from] + rest;
        forall k, l | 0 <= k < l < |idxs| ensures idxs[k] < idxs[l] {
          assert idxs[l] == rest[l - 1];
        }
      }
    }
  }

  /** The active segment for the given boundaries: the first one not yet
      passed, or -1 when every boundary has been passed. */
  function SelectSegment(timePoints: seq<real>, elapsed: real): (currentIdx: int)
    ensures -1 <= currentIdx < |timePoints|
    ensures currentIdx == -1 <==> forall i :: 0 <= i < |timePoints| ==> elapsed > timePoints[i]
    ensures currentIdx != -1 ==>
              && elapsed <= timePoints[currentIdx]
              && forall j :: 0 <= j < currentIdx ==> elapsed > timePoints[j]
  {
    var passed := TimePassed(elapsed, timePoints);
    assert |passed| == |timePoints| &&
           forall i :: 0 <= i < |timePoints| ==> passed[i] == (elapsed > timePoints[i]);
    var notPassed := NotPassed(passed, 0);
    if notPassed != [] then notPassed[0] else -1
  }

  /** The active segment of a trial with the given durations in minutes:
      -1 or an index of a segment; SelectedInMinutes states which one. */
  function SelectedSegment(segmentMin: seq<real>, elapsed: real): (currentIdx: int)
    ensures -1 <= currentIdx < |segmentMin|
    ensures currentIdx != -1 ==> elapsed <= TimePoints(segmentMin)[currentIdx]
  {
    SelectSegment(TimePoints(segmentMin), elapsed)
  }

  // ---------------------------------------------------------------------
  // Properties of the boundaries

  lemma {:induction false} SumScaled(xs: seq<real>)
    ensures Sum(ToSeconds(xs)) == Sum(xs) * 60.0
  {
    if xs != [] {
      var front := xs[..|xs| - 1];
      assert ToSeconds(xs)[..|xs| - 1] == ToSeconds(front);
      SumScaled(front);
    }
  }

  /** T_i is sixty times the total of the first i + 1 durations in minutes. */
  lemma TimePointsInMinutes(segmentMin: seq<real>, i: nat)
    requires i < |segmentMin|
    ensures TimePoints(segmentMin)[i] == Sum(segmentMin[..i + 1]) * 60.0
  {
    CumSumEntry(ToSeconds(segmentMin), i);
    assert ToSeconds(segmentMin)[..i + 1] == ToSeconds(segmentMin[..i + 1]);
    SumScaled(segmentMin[..i + 1]);
  }

  /** Each boundary is the previous one plus the segment's length in seconds. */
  lemma TimePointsStep(segmentMin: seq<real>, i: nat)
    requires i + 1 < |segmentMin|
    ensures TimePoints(segmentMin)[i + 1] == TimePoints(segmentMin)[i] + segmentMin[i + 1] * 60.0
  {
    var secs := ToSeconds(segmentMin);
    CumSumEntry(secs, i);
    CumSumEntry(secs, i + 1);
    assert secs[..i + 2][..i + 1] == secs[..i + 1];
  }

  /** With no negative duration the boundaries never decrease. */
  lemma {:induction false} TimePointsNondecreasing(segmentMin: seq<real>, i: nat, j: nat)
    requires NonNegative(segmentMin)
    requires i <= j < |segmentMin|
    ensures TimePoints(segmentMin)[i] <= TimePoints(segmentMin)[j]
    decreases j - i
  {
    if i < j {
      TimePointsStep(segmentMin, i);
      TimePointsNondecreasing(segmentMin, i + 1, j);
    }
  }

  /** With positive durations the boundaries strictly increase. */
  lemma {:induction false} TimePointsIncreasing(segmentMin: seq<real>, i: nat, j: nat)
    requires Positive(segmentMin)
    requires i < j < |segmentMin|
    ensures TimePoints(segmentMin)[i] < TimePoints(segmentMin)[j]
    decreases j - i
  {
    TimePointsStep(segmentMin, i);
    if i + 1 < j {
      TimePointsIncreasing(segmentMin, i + 1, j);
    }
  }

  // ---------------------------------------------------------------------
  // Properties of the selection

  /** The selection in the durations' own terms: the result is the least i
      whose running total of minutes, times 60, is at least the elapsed
      time (the first k segments, k = i + 1, are counted by `segmentMin[..k]`),
      and -1 exactly when no running total reaches it. */
  lemma SelectedInMinutes(segmentMin: seq<real>, elapsed: real)
    ensures SelectedSegment(segmentMin, elapsed) == -1 <==>
              forall k :: 1 <= k <= |segmentMin| ==> elapsed > Sum(segmentMin[..k]) * 60.0
    ensures SelectedSegment(segmentMin, elapsed) != -1 ==>
              && elapsed <= Sum(segmentMin[..SelectedSegment(segmentMin, elapsed) + 1]) * 60.0
              && forall k :: 1 <= k <= SelectedSegment(segmentMin, elapsed) ==>
                   elapsed > Sum(segmentMin[..k]) * 60.0
  {
    var t := TimePoints(segmentMin);
    var r := SelectedSegment(segmentMin, elapsed);
    if r == -1 {
      forall k | 1 <= k <= |segmentMin| ensures elapsed > Sum(segmentMin[..k]) * 60.0 {
        TimePointsInMinutes(segmentMin, k - 1);
        assert elapsed > t[k - 1];
      }
    } else {
      TimePointsInMinutes(segmentMin, r);
      forall k | 1 <= k <= r ensures elapsed > Sum(segmentMin[..k]) * 60.0 {
        TimePointsInMinutes(segmentMin, k - 1);
        assert elapsed > t[k - 1];
      }
    }
  }

  /** The upper boundary is inclusive: at exactly T_i, with positive
      durations, segment i is still the active one; the trial has not ended
      at T_{n-1}. */
  lemma BoundaryIsInclusive(segmentMin: seq<real>, i: nat)
    requires Positive(segmentMin)
    requires i < |segmentMin|
    ensures SelectedSegment(segmentMin, TimePoints(segmentMin)[i]) == i
  {
    var t := TimePoints(segmentMin);
    var r := SelectedSegment(segmentMin, t[i]);
    if r < i {
      assert r != -1;
      TimePointsIncreasing(segmentMin, r, i);
    }
  }

  /** For non-negative durations, the trial has ended exactly when the
      elapsed time exceeds the last boundary, the total length of the trial. */
  lemma EndedIffPastTotal(segmentMin: seq<real>, elapsed: real)
    requires NonNegative(segmentMin)
    requires |segmentMin| > 0
    ensures SelectedSegment(segmentMin, elapsed) == -1
            <==> elapsed > TimePoints(segmentMin)[|segmentMin| - 1]
  {
    var t := TimePoints(segmentMin);
    var n := |segmentMin|;
    if elapsed > t[n - 1] {
      forall i | 0 <= i < n ensures elapsed > t[i] {
        TimePointsNondecreasing(segmentMin, i, n - 1);
      }
    }
  }

  /** An empty trial has always ended. */
  lemma EmptyTrialHasEnded(elapsed: real)
    ensures SelectedSegment([], elapsed) == -1
  {
  }

  /** Later never means an earlier segment: as elapsed time grows the index
      does not decrease, and once the trial has ended it stays ended. */
  lemma SelectionMonotone(segmentMin: seq<real>, e1: real, e2: real)
    requires e1 <= e2
    ensures SelectedSegment(segmentMin, e1) == -1 ==> SelectedSegment(segmentMin, e2) == -1
    ensures SelectedSegment(segmentMin, e2) != -1 ==>
              0 <= SelectedSegment(segmentMin, e1) <= SelectedSegment(segmentMin, e2)
  {
  }

  /** Right after a restart the elapsed time is zero, and with non-negative
      durations the first segment is active. */
  lemma RestartSelectsFirstSegment(segmentMin: seq<real>)
    requires NonNegative(segmentMin)
    requires |segmentMin| > 0
    ensures SelectedSegment(segmentMin, 0.0) == 0
  {
    TimePointsInMinutes(segmentMin, 0);
    assert segmentMin[..1][..0] == [];
  }

  /** The guided-exploration plan, two five-minute segments: segment 0 up to
      and including 300 s, segment 1 up to and including 600 s, then ended. */
  lemma GuidedPlanSchedule(elapsed: real)
    ensures SelectedSegment([5.0, 5.0], elapsed)
            == if elapsed <= 300.0 then 0 else if elapsed <= 600.0 then 1 else -1
  {
    TimePointsInMinutes([5.0, 5.0], 0);
    TimePointsStep([5.0, 5.0], 0);
  }
}
