/** `src/note_subsets.rs`: the fastest window of consecutive notes in one lane. A window of `n`
    notes starting at note `i` spans `seconds[i]..=seconds[i + n]`; its speed is `n` divided by
    that span, optionally multiplied by the mean wife points of its first `n` notes. The search
    visits window lengths in increasing order and, for each length, start indices in increasing
    order, and replaces its candidate whenever a window is at least as fast. */
module NoteSubsets {
  import opened Wrappers
  import opened Util

  /** `FastestComboInfo`. */
  datatype FastestComboInfo = FastestComboInfo(startSecond: real, endSecond: real, length: nat, speed: real)

  /** The all-zero value the search starts from (also `FastestComboInfo::default()`). */
  const Dummy := FastestComboInfo(0.0, 0.0, 0, 0.0)

  /** Wife points, when given, come one per note. */
  predicate ValidWeights(seconds: seq<real>, weights: Option<seq<real>>)
  {
    weights.Some? ==> |weights.value| == |seconds|
  }

  /** Every window of the minimum length spans a positive time. */
  ghost predicate PositiveSpans(seconds: seq<real>, minNotes: nat)
  {
    forall i, j :: 0 <= i && j == i + minNotes && j < |seconds| ==> seconds[i] < seconds[j]
  }

  /** What the search needs of its inputs: the asserted sortedness and `max >= min`, wife points
      for every note, and windows of positive span and length. */
  ghost predicate Setup(seconds: seq<real>, weights: Option<seq<real>>, minNotes: nat, maxNotes: nat)
  {
    IsSorted(seconds) && 1 <= minNotes <= maxNotes && PositiveSpans(seconds, minNotes)
    && ValidWeights(seconds, weights)
  }

  /** In sorted input, every window at least as long as the minimum spans a positive time. */
  lemma SpanPositive(seconds: seq<real>, weights: Option<seq<real>>, minNotes: nat, maxNotes: nat, n: nat, i: nat)
    requires Setup(seconds, weights, minNotes, maxNotes) && minNotes <= n && i + n < |seconds|
    ensures seconds[i] < seconds[i + n]
  {
    assert seconds[i] < seconds[i + minNotes];
    assert seconds[i + minNotes] <= seconds[i + n];
  }

  /** `end_n`: the window lengths searched stop below both the input length and `max + 1`. */
  function EndN(len: nat, maxNotes: nat): nat
  {
    if len < maxNotes + 1 then len else maxNotes + 1
  }

  /** A window the search visits: a length in `min..=max` and a start whose end note exists. */
  predicate IsWindow(seconds: seq<real>, minNotes: nat, maxNotes: nat, n: nat, i: nat)
  {
    minNotes <= n <= maxNotes && i + n < |seconds| && seconds[i] < seconds[i + n]
  }

  /** The speed of a window: notes per second, times the mean wife points of its first `n`
      notes when those are given. */
  function WindowValue(seconds: seq<real>, weights: Option<seq<real>>, n: nat, i: nat): real
    requires ValidWeights(seconds, weights) && i + n < |seconds| && seconds[i] < seconds[i + n]
  {
    var nps := (n as real) / (seconds[i + n] - seconds[i]);
    match weights
    case None => nps
    case Some(w) => nps * (Sum(w[i..i + n]) / (n as real))
  }

  /** The result record for a window. */
  function Window(seconds: seq<real>, weights: Option<seq<real>>, n: nat, i: nat): FastestComboInfo
    requires ValidWeights(seconds, weights) && i + n < |seconds| && seconds[i] < seconds[i + n]
  {
    FastestComboInfo(seconds[i], seconds[i + n], n, WindowValue(seconds, weights, n, i))
  }

  /** The `>=` replacement. */
  function Pick(best: FastestComboInfo, candidate: FastestComboInfo): FastestComboInfo
  {
    if candidate.speed >= best.speed then candidate else best
  }

  /** The rest of the search from window (`n`, `i`) on, with `best` found so far. */
  function ScanFrom(seconds: seq<real>, weights: Option<seq<real>>, minNotes: nat, maxNotes: nat,
    n: nat, i: nat, best: FastestComboInfo): FastestComboInfo
    requires Setup(seconds, weights, minNotes, maxNotes) && minNotes <= n
    requires n < EndN(|seconds|, maxNotes) ==> i + n <= |seconds|
    decreases EndN(|seconds|, maxNotes) - n, |seconds| - i
  {
    if n >= EndN(|seconds|, maxNotes) then best
    else if i + n == |seconds| then ScanFrom(seconds, weights, minNotes, maxNotes, n + 1, 0, best)
    else
      SpanPositive(seconds, weights, minNotes, maxNotes, n, i);
      ScanFrom(seconds, weights, minNotes, maxNotes, n, i + 1, Pick(best, Window(seconds, weights, n, i)))
  }

  /** The whole search, with the early return for inputs too short to hold a window. */
  function FastestNoteSubset(seconds: seq<real>, weights: Option<seq<real>>, minNotes: nat, maxNotes: nat): FastestComboInfo
    requires Setup(seconds, weights, minNotes, maxNotes)
  {
    if |seconds| <= minNotes then Dummy
    else ScanFrom(seconds, weights, minNotes, maxNotes, minNotes, 0, Dummy)
  }

  /** `find_fastest_note_subset`. */
  method FindFastestNoteSubset(seconds: seq<real>, minNotes: nat, maxNotes: nat) returns (fastest: FastestComboInfo)
    requires Setup(seconds, None, minNotes, maxNotes)
    ensures fastest == FastestNoteSubset(seconds, None, minNotes, maxNotes)
  {
    fastest := Dummy;
    if |seconds| <= minNotes {
      return;
    }
    var endN := if |seconds| < maxNotes + 1 then |seconds| else maxNotes + 1;
    for n := minNotes to endN
      invariant FastestNoteSubset(seconds, None, minNotes, maxNotes)
        == ScanFrom(seconds, None, minNotes, maxNotes, n, 0, fastest)
    {
      for i := 0 to |seconds| - n
        invariant FastestNoteSubset(seconds, None, minNotes, maxNotes)
          == ScanFrom(seconds, None, minNotes, maxNotes, n, i, fastest)
      {
        var endI := i + n;
        SpanPositive(seconds, None, minNotes, maxNotes, n, i);
        var nps := (endI - i) as real / (seconds[endI] - seconds[i]);
        if nps >= fastest.speed {
          fastest := FastestComboInfo(seconds[i], seconds[endI], n, nps);
        }
      }
    }
  }

  /** `find_fastest_note_subset_wife_pts`: the same search, with a running sum of the wife points
      of the current window. */
  method FindFastestNoteSubsetWifePts(seconds: seq<real>, minNotes: nat, maxNotes: nat, wifePts: seq<real>)
    returns (fastest: FastestComboInfo)
    requires Setup(seconds, Some(wifePts), minNotes, maxNotes)
    ensures fastest == FastestNoteSubset(seconds, Some(wifePts), minNotes, maxNotes)
  {
    var weights := Some(wifePts);
    fastest := Dummy;
    if |seconds| <= minNotes {
      return;
    }
    var wifePtsSumStart := Sum(wifePts[0..minNotes]);
    var endN := if |seconds| < maxNotes + 1 then |seconds| else maxNotes + 1;
    for n := minNotes to endN
      invariant wifePtsSumStart == Sum(wifePts[0..n])
      invariant FastestNoteSubset(seconds, weights, minNotes, maxNotes)
        == ScanFrom(seconds, weights, minNotes, maxNotes, n, 0, fastest)
    {
      fastest := ScanLengthWifePts(seconds, minNotes, maxNotes, wifePts, n, wifePtsSumStart, fastest);
      SumExtend(wifePts, 0, n);
      wifePtsSumStart := wifePtsSumStart + wifePts[n];
    }
  }

  /** The inner loop of `find_fastest_note_subset_wife_pts`: every start for window length `n`,
      sliding the window's wife-point sum one note at a time. */
  method ScanLengthWifePts(seconds: seq<real>, minNotes: nat, maxNotes: nat, wifePts: seq<real>,
    n: nat, wifePtsSumStart: real, fastest0: FastestComboInfo) returns (fastest: FastestComboInfo)
    requires Setup(seconds, Some(wifePts), minNotes, maxNotes)
    requires minNotes <= n < EndN(|seconds|, maxNotes)
    requires wifePtsSumStart == Sum(wifePts[0..n])
    ensures ScanFrom(seconds, Some(wifePts), minNotes, maxNotes, n, 0, fastest0)
      == ScanFrom(seconds, Some(wifePts), minNotes, maxNotes, n + 1, 0, fastest)
  {
    var weights := Some(wifePts);
    fastest := fastest0;
    var wifePtsSum: real := wifePtsSumStart;
    for i := 0 to |seconds| - n
      invariant wifePtsSum == Sum(wifePts[i..i + n])
      invariant ScanFrom(seconds, weights, minNotes, maxNotes, n, 0, fastest0)
        == ScanFrom(seconds, weights, minNotes, maxNotes, n, i, fastest)
    {
      var endI := i + n;
      SpanPositive(seconds, weights, minNotes, maxNotes, n, i);
      fastest := VisitWindowWifePts(seconds, wifePts, n, i, wifePtsSum, fastest);
      SlideSum(wifePts, i, endI);
      wifePtsSum := wifePtsSum - wifePts[i];
      wifePtsSum := wifePtsSum + wifePts[endI];
    }
  }

  /** One start of the inner loop: the window's speed from its running wife-point sum, kept on
      `>=`. */
  method VisitWindowWifePts(seconds: seq<real>, wifePts: seq<real>, n: nat, i: nat, wifePtsSum: real,
    fastest0: FastestComboInfo) returns (fastest: FastestComboInfo)
    requires |wifePts| == |seconds| && i + n < |seconds| && seconds[i] < seconds[i + n]
    requires wifePtsSum == Sum(wifePts[i..i + n])
    ensures fastest == Pick(fastest0, Window(seconds, Some(wifePts), n, i))
  {
    var endI := i + n;
    var nps := (endI - i) as real / (seconds[endI] - seconds[i]);
    nps := nps * (wifePtsSum / n as real);
    assert nps == WindowValue(seconds, Some(wifePts), n, i);
    fastest := fastest0;
    if nps >= fastest.speed {
      fastest := FastestComboInfo(seconds[i], seconds[endI], n, nps);
    }
  }

  /** Window (`n2`, `i2`) comes before window (`n`, `i`) in the order of the search. */
  predicate Before(n2: nat, i2: nat, n: nat, i: nat)
  {
    n2 < n || (n2 == n && i2 < i)
  }

  /** Every window visited before (`n`, `i`) has speed at most `v`. */
  ghost predicate SlowerSoFar(seconds: seq<real>, weights: Option<seq<real>>, minNotes: nat, maxNotes: nat,
    n: nat, i: nat, v: real)
    requires ValidWeights(seconds, weights)
  {
    forall n2, i2 :: IsWindow(seconds, minNotes, maxNotes, n2, i2) && Before(n2, i2, n, i)
      ==> WindowValue(seconds, weights, n2, i2) <= v
  }

  /** Every window visited before (`n`, `i`) has negative speed. */
  ghost predicate NegativeSoFar(seconds: seq<real>, weights: Option<seq<real>>, minNotes: nat, maxNotes: nat,
    n: nat, i: nat)
    requires ValidWeights(seconds, weights)
  {
    forall n2, i2 :: IsWindow(seconds, minNotes, maxNotes, n2, i2) && Before(n2, i2, n, i)
      ==> WindowValue(seconds, weights, n2, i2) < 0.0
  }

  /** Every window visited after (`n0`, `i0`) and before (`n`, `i`) has speed below `v`. */
  ghost predicate StrictlySlowerAfter(seconds: seq<real>, weights: Option<seq<real>>, minNotes: nat, maxNotes: nat,
    n: nat, i: nat, n0: nat, i0: nat, v: real)
    requires ValidWeights(seconds, weights)
  {
    forall n2, i2 :: IsWindow(seconds, minNotes, maxNotes, n2, i2) && Before(n2, i2, n, i) && Before(n0, i0, n2, i2)
      ==> WindowValue(seconds, weights, n2, i2) < v
  }

  /** `best` is what the search holds once every window before (`n`, `i`) has been visited:
      with `start == None`, no window seen so far reached speed 0 and `best` is still the dummy;
      with `start == Some(s)`, `best` is window (`best.length`, `s`), of non-negative speed, as fast
      as every window seen so far, and strictly faster than every window seen after it. */
  ghost predicate ScannedBest(seconds: seq<real>, weights: Option<seq<real>>, minNotes: nat, maxNotes: nat,
    n: nat, i: nat, best: FastestComboInfo, start: Option<nat>)
    requires ValidWeights(seconds, weights)
  {
    match start
    case None =>
      best == Dummy && NegativeSoFar(seconds, weights, minNotes, maxNotes, n, i)
    case Some(s) =>
      IsWindow(seconds, minNotes, maxNotes, best.length, s) && Before(best.length, s, n, i)
      && best == Window(seconds, weights, best.length, s) && 0.0 <= best.speed
      && SlowerSoFar(seconds, weights, minNotes, maxNotes, n, i, best.speed)
      && StrictlySlowerAfter(seconds, weights, minNotes, maxNotes, n, i, best.length, s, best.speed)
  }

  /** The result of the whole search: `ScannedBest` over every window. */
  ghost predicate IsFastest(seconds: seq<real>, weights: Option<seq<real>>, minNotes: nat, maxNotes: nat,
    r: FastestComboInfo, start: Option<nat>)
    requires ValidWeights(seconds, weights)
  {
    ScannedBest(seconds, weights, minNotes, maxNotes, maxNotes + 1, 0, r, start)
  }

  /** Window (`n`, `i`) is the only one between the windows before it and those before the next
      start. */
  lemma BeforeNext(n2: nat, i2: nat, n: nat, i: nat)
    ensures Before(n2, i2, n, i + 1) <==> Before(n2, i2, n, i) || (n2 == n && i2 == i)
  {
  }

  lemma ExtendSlower(seconds: seq<real>, weights: Option<seq<real>>, minNotes: nat, maxNotes: nat,
    n: nat, i: nat, v: real)
    requires ValidWeights(seconds, weights) && i + n < |seconds| && seconds[i] < seconds[i + n]
    requires SlowerSoFar(seconds, weights, minNotes, maxNotes, n, i, v)
    requires WindowValue(seconds, weights, n, i) <= v
    ensures SlowerSoFar(seconds, weights, minNotes, maxNotes, n, i + 1, v)
  {
    forall n2, i2 | IsWindow(seconds, minNotes, maxNotes, n2, i2) && Before(n2, i2, n, i + 1)
      ensures WindowValue(seconds, weights, n2, i2) <= v
    {
      BeforeNext(n2, i2, n, i);
    }
  }

  lemma ExtendNegative(seconds: seq<real>, weights: Option<seq<real>>, minNotes: nat, maxNotes: nat,
    n: nat, i: nat)
    requires ValidWeights(seconds, weights) && i + n < |seconds| && seconds[i] < seconds[i + n]
    requires NegativeSoFar(seconds, weights, minNotes, maxNotes, n, i)
    requires WindowValue(seconds, weights, n, i) < 0.0
    ensures NegativeSoFar(seconds, weights, minNotes, maxNotes, n, i + 1)
  {
    forall n2, i2 | IsWindow(seconds, minNotes, maxNotes, n2, i2) && Before(n2, i2, n, i + 1)
      ensures WindowValue(seconds, weights, n2, i2) < 0.0
    {
      BeforeNext(n2, i2, n, i);
    }
  }

  lemma ExtendStrictlySlower(seconds: seq<real>, weights: Option<seq<real>>, minNotes: nat, maxNotes: nat,
    n: nat, i: nat, n0: nat, i0: nat, v: real)
    requires ValidWeights(seconds, weights) && i + n < |seconds| && seconds[i] < seconds[i + n]
    requires StrictlySlowerAfter(seconds, weights, minNotes, maxNotes, n, i, n0, i0, v)
    requires WindowValue(seconds, weights, n, i) < v
    ensures StrictlySlowerAfter(seconds, weights, minNotes, maxNotes, n, i + 1, n0, i0, v)
  {
    forall n2, i2 | IsWindow(seconds, minNotes, maxNotes, n2, i2) && Before(n2, i2, n, i + 1) && Before(n0, i0, n2, i2)
      ensures WindowValue(seconds, weights, n2, i2) < v
    {
      BeforeNext(n2, i2, n, i);
    }
  }

  /** Visiting window (`n`, `i`) keeps `ScannedBest`. */
  lemma ScanStep(seconds: seq<real>, weights: Option<seq<real>>, minNotes: nat, maxNotes: nat,
    n: nat, i: nat, best: FastestComboInfo, start: Option<nat>)
    returns (start': Option<nat>)
    requires Setup(seconds, weights, minNotes, maxNotes) && minNotes <= n <= maxNotes && i + n < |seconds|
    requires ScannedBest(seconds, weights, minNotes, maxNotes, n, i, best, start)
    ensures seconds[i] < seconds[i + n]
      && ScannedBest(seconds, weights, minNotes, maxNotes, n, i + 1, Pick(best, Window(seconds, weights, n, i)), start')
  {
    SpanPositive(seconds, weights, minNotes, maxNotes, n, i);
    var candidate := Window(seconds, weights, n, i);
    var v := candidate.speed;
    if v >= best.speed {
      start' := Some(i);
      if start.None? {
        forall n2, i2 | IsWindow(seconds, minNotes, maxNotes, n2, i2) && Before(n2, i2, n, i)
          ensures WindowValue(seconds, weights, n2, i2) <= v
        {
        }
      }
      assert SlowerSoFar(seconds, weights, minNotes, maxNotes, n, i, v);
      ExtendSlower(seconds, weights, minNotes, maxNotes, n, i, v);
      assert StrictlySlowerAfter(seconds, weights, minNotes, maxNotes, n, i + 1, n, i, v);
    } else {
      start' := start;
      match start
      case None =>
        ExtendNegative(seconds, weights, minNotes, maxNotes, n, i);
      case Some(s) =>
        ExtendSlower(seconds, weights, minNotes, maxNotes, n, i, best.speed);
        ExtendStrictlySlower(seconds, weights, minNotes, maxNotes, n, i, best.length, s, best.speed);
    }
  }

  /** The windows visited before (`n`, `i`) are those visited before (`n'`, `i'`). */
  ghost predicate SameVisited(seconds: seq<real>, minNotes: nat, maxNotes: nat, n: nat, i: nat, n': nat, i': nat)
  {
    forall n2, i2 :: IsWindow(seconds, minNotes, maxNotes, n2, i2)
      ==> (Before(n2, i2, n, i) <==> Before(n2, i2, n', i'))
  }

  /** Once the lengths run out, every window has been visited. */
  lemma PastTheEnd(seconds: seq<real>, minNotes: nat, maxNotes: nat, n: nat, i: nat)
    requires n >= EndN(|seconds|, maxNotes)
    ensures SameVisited(seconds, minNotes, maxNotes, n, i, maxNotes + 1, 0)
  {
  }

  /** Past the last start for length `n`, the search moves on to length `n + 1`. */
  lemma NextLength(seconds: seq<real>, minNotes: nat, maxNotes: nat, n: nat)
    requires n <= |seconds|
    ensures SameVisited(seconds, minNotes, maxNotes, n, |seconds| - n, n + 1, 0)
  {
  }

  /** `ScannedBest` depends only on which windows have been visited. */
  lemma Rebase(seconds: seq<real>, weights: Option<seq<real>>, minNotes: nat, maxNotes: nat,
    n: nat, i: nat, n': nat, i': nat, best: FastestComboInfo, start: Option<nat>)
    requires ValidWeights(seconds, weights) && SameVisited(seconds, minNotes, maxNotes, n, i, n', i')
    requires ScannedBest(seconds, weights, minNotes, maxNotes, n, i, best, start)
    ensures ScannedBest(seconds, weights, minNotes, maxNotes, n', i', best, start)
  {
    match start
    case None =>
      assert NegativeSoFar(seconds, weights, minNotes, maxNotes, n', i');
    case Some(s) =>
      assert SlowerSoFar(seconds, weights, minNotes, maxNotes, n', i', best.speed);
      assert StrictlySlowerAfter(seconds, weights, minNotes, maxNotes, n', i', best.length, s, best.speed);
  }

  /** One step of the search, as `ScanFrom` takes it: the next start, or the next length. */
  lemma Advance(seconds: seq<real>, weights: Option<seq<real>>, minNotes: nat, maxNotes: nat,
    n: nat, i: nat, best: FastestComboInfo, start: Option<nat>)
    returns (n': nat, i': nat, best': FastestComboInfo, start': Option<nat>)
    requires Setup(seconds, weights, minNotes, maxNotes) && minNotes <= n < EndN(|seconds|, maxNotes)
    requires i + n <= |seconds|
    requires ScannedBest(seconds, weights, minNotes, maxNotes, n, i, best, start)
    ensures minNotes <= n' <= EndN(|seconds|, maxNotes) && (n' < EndN(|seconds|, maxNotes) ==> i' + n' <= |seconds|)
    ensures n' == n + 1 || (n' == n && i' == i + 1)
    ensures ScannedBest(seconds, weights, minNotes, maxNotes, n', i', best', start')
    ensures ScanFrom(seconds, weights, minNotes, maxNotes, n, i, best)
      == ScanFrom(seconds, weights, minNotes, maxNotes, n', i', best')
  {
    if i + n == |seconds| {
      n', i', best', start' := n + 1, 0, best, start;
      NextLength(seconds, minNotes, maxNotes, n);
      Rebase(seconds, weights, minNotes, maxNotes, n, i, n + 1, 0, best, start);
    } else {
      n', i' := n, i + 1;
      start' := ScanStep(seconds, weights, minNotes, maxNotes, n, i, best, start);
      best' := Pick(best, Window(seconds, weights, n, i));
    }
  }

  lemma SameResult(seconds: seq<real>, weights: Option<seq<real>>, minNotes: nat, maxNotes: nat,
    r: FastestComboInfo, r': FastestComboInfo, start: Option<nat>)
    requires ValidWeights(seconds, weights) && r == r'
    requires IsFastest(seconds, weights, minNotes, maxNotes, r', start)
    ensures IsFastest(seconds, weights, minNotes, maxNotes, r, start)
  {
  }

  /** The search from any point where `ScannedBest` holds ends with `ScannedBest` over all the
      lengths it visits. */
  lemma {:induction false} ScanFromIsBest(seconds: seq<real>, weights: Option<seq<real>>, minNotes: nat, maxNotes: nat,
    n: nat, i: nat, best: FastestComboInfo, start: Option<nat>)
    returns (start': Option<nat>)
    requires Setup(seconds, weights, minNotes, maxNotes) && minNotes <= n <= EndN(|seconds|, maxNotes)
    requires n < EndN(|seconds|, maxNotes) ==> i + n <= |seconds|
    requires ScannedBest(seconds, weights, minNotes, maxNotes, n, i, best, start)
    ensures IsFastest(seconds, weights, minNotes, maxNotes,
      ScanFrom(seconds, weights, minNotes, maxNotes, n, i, best), start')
    decreases EndN(|seconds|, maxNotes) - n, |seconds| - i
  {
    if n >= EndN(|seconds|, maxNotes) {
      PastTheEnd(seconds, minNotes, maxNotes, n, i);
      Rebase(seconds, weights, minNotes, maxNotes, n, i, maxNotes + 1, 0, best, start);
      start' := start;
    } else {
      var n', i', best', next := Advance(seconds, weights, minNotes, maxNotes, n, i, best, start);
      start' := ScanFromIsBest(seconds, weights, minNotes, maxNotes, n', i', best', next);
      SameResult(seconds, weights, minNotes, maxNotes, ScanFrom(seconds, weights, minNotes, maxNotes, n, i, best),
        ScanFrom(seconds, weights, minNotes, maxNotes, n', i', best'), start');
    }
  }

  /** What the search returns: if no window reaches speed 0 (always the case when the input is
      too short to hold one), the dummy; otherwise the window of the highest speed and, among
      equally fast ones, the one visited last (the longest, then the latest). */
  lemma FastestNoteSubsetIsBest(seconds: seq<real>, weights: Option<seq<real>>, minNotes: nat, maxNotes: nat)
    returns (start: Option<nat>)
    requires Setup(seconds, weights, minNotes, maxNotes)
    ensures IsFastest(seconds, weights, minNotes, maxNotes, FastestNoteSubset(seconds, weights, minNotes, maxNotes), start)
  {
    if |seconds| <= minNotes {
      start := None;
      assert NegativeSoFar(seconds, weights, minNotes, maxNotes, maxNotes + 1, 0);
    } else {
      assert NegativeSoFar(seconds, weights, minNotes, maxNotes, minNotes, 0);
      start := ScanFromIsBest(seconds, weights, minNotes, maxNotes, minNotes, 0, Dummy, None);
    }
  }

  /** Wife points that are all 1. */
  function Ones(len: nat): (r: seq<real>)
    ensures |r| == len && forall k :: 0 <= k < len ==> r[k] == 1.0
  {
    seq(len, _ => 1.0)
  }

  /** With wife points all 1, a window's weighted speed is its plain speed. */
  lemma OnesWindowValue(seconds: seq<real>, n: nat, i: nat)
    requires i + n < |seconds| && seconds[i] < seconds[i + n] && n > 0
    ensures WindowValue(seconds, Some(Ones(|seconds|)), n, i) == WindowValue(seconds, None, n, i)
  {
    SumOnes(Ones(|seconds|)[i..i + n]);
  }

  lemma {:induction false} OnesScanFrom(seconds: seq<real>, minNotes: nat, maxNotes: nat,
    n: nat, i: nat, best: FastestComboInfo)
    requires Setup(seconds, None, minNotes, maxNotes) && minNotes <= n
    requires n < EndN(|seconds|, maxNotes) ==> i + n <= |seconds|
    ensures Setup(seconds, Some(Ones(|seconds|)), minNotes, maxNotes)
    ensures ScanFrom(seconds, Some(Ones(|seconds|)), minNotes, maxNotes, n, i, best)
      == ScanFrom(seconds, None, minNotes, maxNotes, n, i, best)
    decreases EndN(|seconds|, maxNotes) - n, |seconds| - i
  {
    if n >= EndN(|seconds|, maxNotes) {
    } else if i + n == |seconds| {
      OnesScanFrom(seconds, minNotes, maxNotes, n + 1, 0, best);
    } else {
      SpanPositive(seconds, None, minNotes, maxNotes, n, i);
      OnesWindowValue(seconds, n, i);
      OnesScanFrom(seconds, minNotes, maxNotes, n, i + 1, Pick(best, Window(seconds, None, n, i)));
    }
  }

  /** The weighted search with every wife point 1 finds exactly what the plain search finds. */
  lemma OnesEquivalence(seconds: seq<real>, minNotes: nat, maxNotes: nat)
    requires Setup(seconds, None, minNotes, maxNotes)
    ensures Setup(seconds, Some(Ones(|seconds|)), minNotes, maxNotes)
    ensures FastestNoteSubset(seconds, Some(Ones(|seconds|)), minNotes, maxNotes)
      == FastestNoteSubset(seconds, None, minNotes, maxNotes)
  {
    if |seconds| > minNotes {
      OnesScanFrom(seconds, minNotes, maxNotes, minNotes, 0, Dummy);
    }
  }

  /** The unit-test inputs: `[0, 3, 5, 6, 8]` with lengths from 2 gives the 2-note window
      `5..8` (2/3 notes per second, tied with `3..6` and kept because it comes later); with
      lengths from 3, the 3-note window `3..8` (0.6). */
  lemma SparseFixtures()
    ensures Setup([0.0, 3.0, 5.0, 6.0, 8.0], None, 2, 99)
    ensures FastestNoteSubset([0.0, 3.0, 5.0, 6.0, 8.0], None, 2, 99) == FastestComboInfo(5.0, 8.0, 2, 2.0 / 3.0)
    ensures FastestNoteSubset([0.0, 3.0, 5.0, 6.0, 8.0], None, 3, 99) == FastestComboInfo(3.0, 8.0, 3, 0.6)
  {
  }

  /** The unit-test inputs `[0, 0, 1, 2, 3, 4, 4]`: with lengths 5 and 6 the 6-note window is the
      fastest (1.5); limited to 5 notes, the slower 5-note window `0..4` (1.25) is found. */
  lemma LongerWindowFixtures()
    ensures Setup([0.0, 0.0, 1.0, 2.0, 3.0, 4.0, 4.0], None, 5, 6)
    ensures FastestNoteSubset([0.0, 0.0, 1.0, 2.0, 3.0, 4.0, 4.0], None, 5, 6) == FastestComboInfo(0.0, 4.0, 6, 1.5)
    ensures FastestNoteSubset([0.0, 0.0, 1.0, 2.0, 3.0, 4.0, 4.0], None, 5, 5) == FastestComboInfo(0.0, 4.0, 5, 1.25)
  {
  }

  // ---------------------------------------------------------------------------------------------
  // `find_fastest_combo_in_score`: combos are the runs of notes between combo breakers (CBs).

  /** No note in `a..b` is a combo breaker. */
  predicate CbFree(areCbs: seq<bool>, a: nat, b: nat)
    requires a <= b <= |areCbs|
  {
    forall k :: a <= k < b ==> !areCbs[k]
  }

  /** The first combo breaker at or after `k`, or the end of the input if there is none. */
  function FirstCb(areCbs: seq<bool>, k: nat): (r: nat)
    requires k <= |areCbs|
    ensures k <= r <= |areCbs| && CbFree(areCbs, k, r)
    ensures r < |areCbs| ==> areCbs[r]
    decreases |areCbs| - k
  {
    if k == |areCbs| || areCbs[k] then k else FirstCb(areCbs, k + 1)
  }

  /** The wife points of notes `a..b`, when there are any. */
  function SliceWeights(weights: Option<seq<real>>, a: nat, b: nat): (r: Option<seq<real>>)
    requires weights.Some? ==> a <= b <= |weights.value|
    ensures r.Some? <==> weights.Some?
    ensures r.Some? ==> r.value == weights.value[a..b]
  {
    match weights
    case None => None
    case Some(w) => Some(w[a..b])
  }

  /** A run of notes inherits what the search needs of its input. */
  lemma SliceSetup(seconds: seq<real>, weights: Option<seq<real>>, minNotes: nat, maxNotes: nat, a: nat, b: nat)
    requires Setup(seconds, weights, minNotes, maxNotes) && a <= b <= |seconds|
    ensures Setup(seconds[a..b], SliceWeights(weights, a, b), minNotes, maxNotes)
  {
    var c := seconds[a..b];
    forall i, j | 0 <= i && j == i + minNotes && j < |c|
      ensures c[i] < c[j]
    {
      assert c[i] == seconds[a + i] && c[j] == seconds[a + j];
      SpanPositive(seconds, weights, minNotes, maxNotes, minNotes, a + i);
    }
  }

  /** The fastest window of the run of notes `a..b`. */
  function ComboBest(seconds: seq<real>, weights: Option<seq<real>>, minNotes: nat, maxNotes: nat, a: nat, b: nat)
    : FastestComboInfo
    requires Setup(seconds, weights, minNotes, maxNotes) && a <= b <= |seconds|
  {
    SliceSetup(seconds, weights, minNotes, maxNotes, a, b);
    FastestNoteSubset(seconds[a..b], SliceWeights(weights, a, b), minNotes, maxNotes)
  }

  /** The strict `>` replacement of the combo search. */
  function KeepFaster(best: FastestComboInfo, candidate: FastestComboInfo): (r: FastestComboInfo)
    ensures candidate.speed > best.speed ==> r == candidate
    ensures candidate.speed <= best.speed ==> r == best
    ensures best.speed <= r.speed && candidate.speed <= r.speed
  {
    if candidate.speed > best.speed then candidate else best
  }

  /** The final `speed *= rate`. */
  function AtRate(f: FastestComboInfo, rate: real): (r: FastestComboInfo)
    ensures r.speed == f.speed * rate
    ensures r.startSecond == f.startSecond && r.endSecond == f.endSecond && r.length == f.length
  {
    f.(speed := f.speed * rate)
  }

  /** What `find_fastest_combo_in_score` computes as written: `combo_start_i` becomes `None` at
      the first trigger and is never set again, so only the notes before the first CB are
      searched. */
  function FastestComboAsWritten(seconds: seq<real>, areCbs: seq<bool>, weights: Option<seq<real>>,
    minNotes: nat, maxNotes: nat, rate: real): FastestComboInfo
    requires Setup(seconds, weights, minNotes, maxNotes) && |areCbs| == |seconds|
  {
    AtRate(KeepFaster(Dummy, ComboBest(seconds, weights, minNotes, maxNotes, 0, FirstCb(areCbs, 0))), rate)
  }

  /** The closure `trigger_combo_end`: search the open combo, if there is one, and close it. */
  method TriggerComboEnd(seconds: seq<real>, weights: Option<seq<real>>, minNotes: nat, maxNotes: nat,
    comboStart: Option<nat>, comboEnd: nat, fastest: FastestComboInfo)
    returns (fastest': FastestComboInfo, comboStart': Option<nat>)
    requires Setup(seconds, weights, minNotes, maxNotes) && comboEnd <= |seconds|
    requires comboStart.Some? ==> comboStart.value <= comboEnd
    ensures comboStart' == None
    ensures comboStart.None? ==> fastest' == fastest
    ensures comboStart.Some? ==>
      fastest' == KeepFaster(fastest, ComboBest(seconds, weights, minNotes, maxNotes, comboStart.value, comboEnd))
  {
    fastest' := fastest;
    if comboStart.Some? {
      var start := comboStart.value;
      var combo := seconds[start..comboEnd];
      SliceSetup(seconds, weights, minNotes, maxNotes, start, comboEnd);
      var fastestNoteSubset;
      if weights.Some? {
        fastestNoteSubset := FindFastestNoteSubsetWifePts(combo, minNotes, maxNotes, weights.value[start..comboEnd]);
      } else {
        fastestNoteSubset := FindFastestNoteSubset(combo, minNotes, maxNotes);
      }
      if fastestNoteSubset.speed > fastest'.speed {
        fastest' := fastestNoteSubset;
      }
    }
    comboStart' := None;
  }

  /** `find_fastest_combo_in_score`. */
  method FindFastestComboInScore(seconds: seq<real>, areCbs: seq<bool>, minNotes: nat, maxNotes: nat,
    wifePts: Option<seq<real>>, rate: real) returns (fastestCombo: FastestComboInfo)
    requires Setup(seconds, wifePts, minNotes, maxNotes) && |areCbs| == |seconds|
    ensures fastestCombo == FastestComboAsWritten(seconds, areCbs, wifePts, minNotes, maxNotes, rate)
  {
    fastestCombo := Dummy;
    var comboStart: Option<nat> := Some(0);
    for i := 0 to |areCbs|
      invariant comboStart.Some? ==> comboStart == Some(0) && fastestCombo == Dummy && CbFree(areCbs, 0, i)
      invariant comboStart.None? ==> (FirstCb(areCbs, 0) < i
        && fastestCombo == KeepFaster(Dummy, ComboBest(seconds, wifePts, minNotes, maxNotes, 0, FirstCb(areCbs, 0))))
    {
      if areCbs[i] {
        if comboStart.Some? {
          FirstCbIsFirst(areCbs, 0, i);
        }
        fastestCombo, comboStart := TriggerComboEnd(seconds, wifePts, minNotes, maxNotes, comboStart, i, fastestCombo);
      }
    }
    if comboStart.Some? {
      FirstCbIsFirst(areCbs, 0, |areCbs|);
    }
    fastestCombo, comboStart := TriggerComboEnd(seconds, wifePts, minNotes, maxNotes, comboStart, |seconds|, fastestCombo);
    fastestCombo := fastestCombo.(speed := fastestCombo.speed * rate);
  }

  /** A CB-free stretch from `k` that ends at a CB (or the end) ends at the first CB. */
  lemma {:induction false} FirstCbIsFirst(areCbs: seq<bool>, k: nat, i: nat)
    requires k <= i <= |areCbs| && CbFree(areCbs, k, i) && (i < |areCbs| ==> areCbs[i])
    ensures FirstCb(areCbs, k) == i
    decreases |areCbs| - k
  {
    if k < i {
      FirstCbIsFirst(areCbs, k + 1, i);
    }
  }

  /** The combo search as evidently intended: after a CB the next combo starts at the following
      note, so every combo of the score is searched. */
  function ComboScan(seconds: seq<real>, areCbs: seq<bool>, weights: Option<seq<real>>,
    minNotes: nat, maxNotes: nat, i: nat, start: nat, best: FastestComboInfo): FastestComboInfo
    requires Setup(seconds, weights, minNotes, maxNotes) && |areCbs| == |seconds| && start <= i <= |areCbs|
    decreases |areCbs| - i
  {
    if i == |areCbs| then KeepFaster(best, ComboBest(seconds, weights, minNotes, maxNotes, start, i))
    else if areCbs[i] then
      ComboScan(seconds, areCbs, weights, minNotes, maxNotes, i + 1, i + 1,
        KeepFaster(best, ComboBest(seconds, weights, minNotes, maxNotes, start, i)))
    else ComboScan(seconds, areCbs, weights, minNotes, maxNotes, i + 1, start, best)
  }

  /** The corrected `find_fastest_combo_in_score`. */
  function FastestCombo(seconds: seq<real>, areCbs: seq<bool>, weights: Option<seq<real>>,
    minNotes: nat, maxNotes: nat, rate: real): FastestComboInfo
    requires Setup(seconds, weights, minNotes, maxNotes) && |areCbs| == |seconds|
  {
    AtRate(ComboScan(seconds, areCbs, weights, minNotes, maxNotes, 0, 0, Dummy), rate)
  }

  /** Every window whose last note ends before `upto` and that contains no CB has speed at most `v`. */
  ghost predicate CombosCovered(seconds: seq<real>, areCbs: seq<bool>, weights: Option<seq<real>>,
    minNotes: nat, maxNotes: nat, upto: nat, v: real)
    requires ValidWeights(seconds, weights) && |areCbs| == |seconds|
  {
    forall n: nat, j: nat :: IsWindow(seconds, minNotes, maxNotes, n, j) && j + n < upto && CbFree(areCbs, j, j + n + 1)
      ==> WindowValue(seconds, weights, n, j) <= v
  }

  /** A window inside a run of notes has the same speed there as in the whole input. */
  lemma SliceWindowValue(seconds: seq<real>, weights: Option<seq<real>>, a: nat, b: nat, n: nat, j: nat)
    requires ValidWeights(seconds, weights) && a <= j && j + n < b <= |seconds| && seconds[j] < seconds[j + n]
    ensures ValidWeights(seconds[a..b], SliceWeights(weights, a, b))
    ensures WindowValue(seconds[a..b], SliceWeights(weights, a, b), n, j - a) == WindowValue(seconds, weights, n, j)
  {
    if weights.Some? {
      var w := weights.value;
      assert |w| == |seconds|;
      assert w[a..b][j - a..j - a + n] == w[j..j + n];
    }
  }

  /** No window the search visits is faster than its result. */
  lemma FastestBoundsEveryWindow(seconds: seq<real>, weights: Option<seq<real>>, minNotes: nat, maxNotes: nat,
    n: nat, i: nat)
    requires Setup(seconds, weights, minNotes, maxNotes) && IsWindow(seconds, minNotes, maxNotes, n, i)
    ensures WindowValue(seconds, weights, n, i) <= FastestNoteSubset(seconds, weights, minNotes, maxNotes).speed
  {
    var start := FastestNoteSubsetIsBest(seconds, weights, minNotes, maxNotes);
    assert Before(n, i, maxNotes + 1, 0);
    match start
    case None =>
      assert WindowValue(seconds, weights, n, i) < 0.0;
    case Some(_) =>
  }

  /** Every window inside the run `a..b` is at most as fast as the run's best. */
  lemma ComboBestCovers(seconds: seq<real>, weights: Option<seq<real>>, minNotes: nat, maxNotes: nat,
    a: nat, b: nat, n: nat, j: nat)
    requires Setup(seconds, weights, minNotes, maxNotes) && a <= j && j + n < b <= |seconds|
    requires IsWindow(seconds, minNotes, maxNotes, n, j)
    ensures WindowValue(seconds, weights, n, j) <= ComboBest(seconds, weights, minNotes, maxNotes, a, b).speed
  {
    SliceSetup(seconds, weights, minNotes, maxNotes, a, b);
    SliceWindowValue(seconds, weights, a, b, n, j);
    FastestBoundsEveryWindow(seconds[a..b], SliceWeights(weights, a, b), minNotes, maxNotes, n, j - a);
  }

  /** Closing the combo `start..end` extends the coverage to every window ending at `end` or
      earlier. */
  lemma CloseCombo(seconds: seq<real>, areCbs: seq<bool>, weights: Option<seq<real>>,
    minNotes: nat, maxNotes: nat, start: nat, end: nat, best: FastestComboInfo)
    requires Setup(seconds, weights, minNotes, maxNotes) && |areCbs| == |seconds| && start <= end <= |seconds|
    requires CbFree(areCbs, start, end) && (start == 0 || areCbs[start - 1]) && (end == |seconds| || areCbs[end])
    requires CombosCovered(seconds, areCbs, weights, minNotes, maxNotes, start, best.speed)
    ensures CombosCovered(seconds, areCbs, weights, minNotes, maxNotes, end + 1,
      KeepFaster(best, ComboBest(seconds, weights, minNotes, maxNotes, start, end)).speed)
  {
    var v := KeepFaster(best, ComboBest(seconds, weights, minNotes, maxNotes, start, end)).speed;
    forall n: nat, j: nat | IsWindow(seconds, minNotes, maxNotes, n, j) && j + n < end + 1 && CbFree(areCbs, j, j + n + 1)
      ensures WindowValue(seconds, weights, n, j) <= v
    {
      if j >= start {
        ComboBestCovers(seconds, weights, minNotes, maxNotes, start, end, n, j);
      }
    }
  }

  /** The corrected search covers every combo: from any point of the scan where the windows
      before the open combo are covered, the result is at least as fast as every CB-free window. */
  lemma {:induction false} ComboScanCovers(seconds: seq<real>, areCbs: seq<bool>, weights: Option<seq<real>>,
    minNotes: nat, maxNotes: nat, i: nat, start: nat, best: FastestComboInfo)
    requires Setup(seconds, weights, minNotes, maxNotes) && |areCbs| == |seconds| && start <= i <= |areCbs|
    requires CbFree(areCbs, start, i) && (start == 0 || areCbs[start - 1])
    requires CombosCovered(seconds, areCbs, weights, minNotes, maxNotes, start, best.speed)
    ensures CombosCovered(seconds, areCbs, weights, minNotes, maxNotes, |seconds|,
      ComboScan(seconds, areCbs, weights, minNotes, maxNotes, i, start, best).speed)
    ensures best.speed <= ComboScan(seconds, areCbs, weights, minNotes, maxNotes, i, start, best).speed
    decreases |areCbs| - i
  {
    if i == |areCbs| {
      CloseCombo(seconds, areCbs, weights, minNotes, maxNotes, start, i, best);
    } else if areCbs[i] {
      CloseCombo(seconds, areCbs, weights, minNotes, maxNotes, start, i, best);
      ComboScanCovers(seconds, areCbs, weights, minNotes, maxNotes, i + 1, i + 1,
        KeepFaster(best, ComboBest(seconds, weights, minNotes, maxNotes, start, i)));
    } else {
      ComboScanCovers(seconds, areCbs, weights, minNotes, maxNotes, i + 1, start, best);
    }
  }

  /** The corrected search: every window that lies within one combo is at most as fast as the
      result (before the rate is applied), and the result is never slower than the dummy. */
  lemma FastestComboCoversEveryCombo(seconds: seq<real>, areCbs: seq<bool>, weights: Option<seq<real>>,
    minNotes: nat, maxNotes: nat, n: nat, j: nat)
    requires Setup(seconds, weights, minNotes, maxNotes) && |areCbs| == |seconds|
    requires IsWindow(seconds, minNotes, maxNotes, n, j) && CbFree(areCbs, j, j + n + 1)
    ensures WindowValue(seconds, weights, n, j) <= ComboScan(seconds, areCbs, weights, minNotes, maxNotes, 0, 0, Dummy).speed
    ensures 0.0 <= ComboScan(seconds, areCbs, weights, minNotes, maxNotes, 0, 0, Dummy).speed
  {
    ComboScanCovers(seconds, areCbs, weights, minNotes, maxNotes, 0, 0, Dummy);
  }

  lemma {:induction false} ComboScanWithoutCbs(seconds: seq<real>, areCbs: seq<bool>, weights: Option<seq<real>>,
    minNotes: nat, maxNotes: nat, i: nat, start: nat, best: FastestComboInfo)
    requires Setup(seconds, weights, minNotes, maxNotes) && |areCbs| == |seconds| && start <= i <= |areCbs|
    requires CbFree(areCbs, i, |areCbs|)
    ensures ComboScan(seconds, areCbs, weights, minNotes, maxNotes, i, start, best)
      == KeepFaster(best, ComboBest(seconds, weights, minNotes, maxNotes, start, |areCbs|))
    decreases |areCbs| - i
  {
    if i < |areCbs| {
      ComboScanWithoutCbs(seconds, areCbs, weights, minNotes, maxNotes, i + 1, start, best);
    }
  }

  /** Without any CB the whole score is one combo, and the code as written and the corrected
      search agree. */
  lemma AsWrittenAgreesWithoutCbs(seconds: seq<real>, areCbs: seq<bool>, weights: Option<seq<real>>,
    minNotes: nat, maxNotes: nat, rate: real)
    requires Setup(seconds, weights, minNotes, maxNotes) && |areCbs| == |seconds|
    requires CbFree(areCbs, 0, |areCbs|)
    ensures FastestComboAsWritten(seconds, areCbs, weights, minNotes, maxNotes, rate)
      == FastestCombo(seconds, areCbs, weights, minNotes, maxNotes, rate)
  {
    FirstCbIsFirst(areCbs, 0, |areCbs|);
    ComboScanWithoutCbs(seconds, areCbs, weights, minNotes, maxNotes, 0, 0, Dummy);
  }

  /** With a CB at the third of five notes, one note per window: the code as written searches
      only `0, 10` (0.1 notes per second) and misses the combo `21, 22` after the CB (1 note per
      second), which the corrected search finds. */
  lemma ComboRestartFinding()
    ensures Setup([0.0, 10.0, 20.0, 21.0, 22.0], None, 1, 1)
    ensures FastestComboAsWritten([0.0, 10.0, 20.0, 21.0, 22.0], [false, false, true, false, false], None, 1, 1, 1.0).speed
      == 0.1
    ensures FastestCombo([0.0, 10.0, 20.0, 21.0, 22.0], [false, false, true, false, false], None, 1, 1, 1.0).speed
      == 1.0
  {
    var seconds := [0.0, 10.0, 20.0, 21.0, 22.0];
    var areCbs := [false, false, true, false, false];
    assert FirstCb(areCbs, 0) == 2;
    assert seconds[0..2] == [0.0, 10.0] && seconds[3..5] == [21.0, 22.0];
    assert ComboBest(seconds, None, 1, 1, 0, 2).speed == 0.1;
    assert ComboBest(seconds, None, 1, 1, 3, 5).speed == 1.0;
  }
}
