/** `src/wife/mod.rs`: a wifescore system turns hit deviations into score points. `apply` adds
    the miss weight for every deviation at or beyond the miss threshold and the curve's value for
    every other one, adds the mine-hit and hold-drop penalties, and divides by the number of
    deviations. The curves themselves are parameters: only their weights are modelled. */
module Wife {
  import opened Util
  import opened Floats

  /** A wifescore system: its three weights and its curve (`calc`). */
  datatype WifeSystem = WifeSystem(mineHitWeight: real, holdDropWeight: real, missWeight: real, curve: real -> real)

  /** Wife2's weights: its inner weights -8, -6 and -8 halved, to undo the maximum-2 scaling. */
  function Wife2(curve: real -> real): (w: WifeSystem)
    ensures w.missWeight == -4.0 && w.holdDropWeight == -3.0 && w.mineHitWeight == -4.0
    ensures w.curve == curve
  {
    WifeSystem(-8.0 / 2.0, -6.0 / 2.0, -8.0 / 2.0, curve)
  }

  /** `f32::EPSILON`, 2^-23. */
  const F32_EPSILON: real := 1.0 / 8388608.0

  /** A deviation this far from the note (in either direction) counts as a miss. */
  const MISS_THRESHOLD: real := 0.18 - F32_EPSILON

  /** A deviation at least 0.18 early or late is a miss; the threshold sits one `f32::EPSILON`
      below 0.18, so everything within 0.1799 either way is not. */
  predicate CountsAsMiss(deviation: real)
    ensures CountsAsMiss(deviation) <==> deviation <= -MISS_THRESHOLD || MISS_THRESHOLD <= deviation
    ensures deviation <= -0.18 || 0.18 <= deviation ==> CountsAsMiss(deviation)
    ensures -0.1799 <= deviation <= 0.1799 ==> !CountsAsMiss(deviation)
  {
    Abs(deviation) >= MISS_THRESHOLD
  }

  /** The points one deviation contributes. */
  function Points(w: WifeSystem, deviation: real): real
  {
    if CountsAsMiss(deviation) then w.missWeight else w.curve(deviation)
  }

  /** The points of all deviations, added in order. */
  function PointsSum(w: WifeSystem, deviations: seq<real>): real
  {
    if deviations == [] then 0.0
    else PointsSum(w, deviations[..|deviations| - 1]) + Points(w, deviations[|deviations| - 1])
  }

  /** The numerator of `apply`: the points plus the mine and hold penalties. */
  function Total(w: WifeSystem, deviations: seq<real>, numMineHits: nat, numHoldDrops: nat): real
  {
    PointsSum(w, deviations) + (numMineHits as real) * w.mineHitWeight + (numHoldDrops as real) * w.holdDropWeight
  }

  /** What `apply` returns; with no deviations the division by zero gives NaN or an infinity. */
  function ApplySpec(w: WifeSystem, deviations: seq<real>, numMineHits: nat, numHoldDrops: nat): Float
  {
    Div(Total(w, deviations, numMineHits, numHoldDrops), |deviations| as real)
  }

  /** `Wife::apply`. */
  method Apply(w: WifeSystem, deviations: seq<real>, numMineHits: nat, numHoldDrops: nat) returns (r: Float)
    ensures r == ApplySpec(w, deviations, numMineHits, numHoldDrops)
  {
    var wifescoreSum := 0.0;
    for i := 0 to |deviations|
      invariant wifescoreSum == PointsSum(w, deviations[..i])
    {
      var deviation := deviations[i];
      if Abs(deviation) >= 0.18 - F32_EPSILON {
        wifescoreSum := wifescoreSum + w.missWeight;
      } else {
        wifescoreSum := wifescoreSum + w.curve(deviation);
      }
      assert deviations[..i + 1][..i] == deviations[..i];
    }
    assert deviations[..|deviations|] == deviations;
    wifescoreSum := wifescoreSum + numMineHits as real * w.mineHitWeight;
    wifescoreSum := wifescoreSum + numHoldDrops as real * w.holdDropWeight;
    r := Div(wifescoreSum, |deviations| as real);
  }

  /** The number of deviations that count as misses. */
  function MissCount(deviations: seq<real>): (r: nat)
    ensures r <= |deviations|
  {
    if deviations == [] then 0
    else MissCount(deviations[..|deviations| - 1]) + (if CountsAsMiss(deviations[|deviations| - 1]) then 1 else 0)
  }

  /** The curve's values over the deviations that are not misses. */
  function CurveSum(w: WifeSystem, deviations: seq<real>): real
  {
    if deviations == [] then 0.0
    else
      var d := deviations[|deviations| - 1];
      CurveSum(w, deviations[..|deviations| - 1]) + (if CountsAsMiss(d) then 0.0 else w.curve(d))
  }

  /** Each deviation contributes exactly one term: the points are the miss weight once per miss
      plus the curve over the rest. */
  lemma {:induction false} PointsSplit(w: WifeSystem, deviations: seq<real>)
    ensures PointsSum(w, deviations) == (MissCount(deviations) as real) * w.missWeight + CurveSum(w, deviations)
  {
    if deviations != [] {
      PointsSplit(w, deviations[..|deviations| - 1]);
    }
  }

  /** Mine hits and hold drops enter only the numerator: one more of either moves the result by
      its weight divided by the number of deviations. */
  lemma PenaltiesOnlyInNumerator(w: WifeSystem, deviations: seq<real>, numMineHits: nat, numHoldDrops: nat)
    requires deviations != []
    ensures ApplySpec(w, deviations, numMineHits + 1, numHoldDrops).value
      == ApplySpec(w, deviations, numMineHits, numHoldDrops).value + w.mineHitWeight / (|deviations| as real)
    ensures ApplySpec(w, deviations, numMineHits, numHoldDrops + 1).value
      == ApplySpec(w, deviations, numMineHits, numHoldDrops).value + w.holdDropWeight / (|deviations| as real)
  {
    var n := |deviations| as real;
    var t := Total(w, deviations, numMineHits, numHoldDrops);
    assert Total(w, deviations, numMineHits + 1, numHoldDrops) == t + w.mineHitWeight;
    assert Total(w, deviations, numMineHits, numHoldDrops + 1) == t + w.holdDropWeight;
    DivAdd(t, w.mineHitWeight, n);
    DivAdd(t, w.holdDropWeight, n);
  }

  lemma DivAdd(a: real, b: real, n: real)
    requires n != 0.0
    ensures (a + b) / n == a / n + b / n
  {
  }

  /** A score of nothing but misses, without mines or holds, is exactly the miss weight. */
  lemma AllMisses(w: WifeSystem, deviations: seq<real>)
    requires deviations != [] && forall k :: 0 <= k < |deviations| ==> CountsAsMiss(deviations[k])
    ensures ApplySpec(w, deviations, 0, 0) == Finite(w.missWeight)
  {
    AllMissesSum(w, deviations);
  }

  lemma {:induction false} AllMissesSum(w: WifeSystem, deviations: seq<real>)
    requires forall k :: 0 <= k < |deviations| ==> CountsAsMiss(deviations[k])
    ensures PointsSum(w, deviations) == (|deviations| as real) * w.missWeight
  {
    if deviations != [] {
      AllMissesSum(w, deviations[..|deviations| - 1]);
    }
  }

  /** Without deviations the division by zero leaves no finite result. */
  lemma NoDeviations(w: WifeSystem, numMineHits: nat, numHoldDrops: nat)
    ensures !ApplySpec(w, [], numMineHits, numHoldDrops).Finite?
  {
  }

  /** The threshold is inclusive and sign-symmetric: 0.18 - EPSILON is a miss in both
      directions, 0.17 is not. */
  lemma ThresholdExamples()
    ensures CountsAsMiss(0.18 - F32_EPSILON) && CountsAsMiss(-(0.18 - F32_EPSILON)) && CountsAsMiss(1.0)
    ensures !CountsAsMiss(0.17) && !CountsAsMiss(-0.17)
  {
  }
}
