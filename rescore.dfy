/** `rescore` of `src/rescore/mod.rs`: scores each of the four lanes with the naive scorer, adds
    the lane totals and the mine-hit and hold-drop penalties, divides by the number of judged
    notes and validates the quotient as a wifescore. The `expect` on that validation is the
    `None` outcome. */
module Rescore {
  import opened Wrappers
  import opened Util
  import opened Floats
  import Judge
  import Structs
  import NaiveScorer

  /** `NoteAndHitSeconds` of `src/structs.rs`: the note times and hit times of one lane. */
  datatype NoteAndHitSeconds = NoteAndHitSeconds(noteSeconds: seq<real>, hitSeconds: seq<real>)

  /** The wifescore system as `rescore` uses it: the scorer's curve and miss weight, and the
      mine-hit and hold-drop weights. */
  datatype WifeWeights = WifeWeights(curve: NaiveScorer.Curve, mineHitWeight: real, holdDropWeight: real)

  /** `weight * count as f32`. */
  function Penalty(weight: real, count: nat): real
  {
    weight * count as real
  }

  /** The naive scorer's result for one lane. */
  function LaneResult(lane: NoteAndHitSeconds, judge: Judge.Judge, w: WifeWeights): NaiveScorer.ScoringResult
  {
    NaiveScorer.EvaluateSpec(lane.noteSeconds, lane.hitSeconds, judge, w.curve)
  }

  /** The lane totals, added lane by lane. */
  function LanesSum(lanes: seq<NoteAndHitSeconds>, judge: Judge.Judge, w: WifeWeights): real
  {
    if lanes == [] then 0.0
    else LanesSum(lanes[..|lanes| - 1], judge, w) + LaneResult(lanes[|lanes| - 1], judge, w).wifescoreSum
  }

  /** The judged-note counts, added lane by lane. */
  function LanesJudged(lanes: seq<NoteAndHitSeconds>, judge: Judge.Judge, w: WifeWeights): nat
  {
    if lanes == [] then 0
    else LanesJudged(lanes[..|lanes| - 1], judge, w) + LaneResult(lanes[|lanes| - 1], judge, w).numJudgedNotes
  }

  /** The number of notes over all lanes. */
  function NoteCount(lanes: seq<NoteAndHitSeconds>): nat
  {
    if lanes == [] then 0 else NoteCount(lanes[..|lanes| - 1]) + |lanes[|lanes| - 1].noteSeconds|
  }

  /** The numerator of the division: lane totals plus penalties. */
  function Total(lanes: seq<NoteAndHitSeconds>, numMineHits: nat, numHoldDrops: nat, judge: Judge.Judge,
    w: WifeWeights): real
  {
    LanesSum(lanes, judge, w) + Penalty(w.mineHitWeight, numMineHits) + Penalty(w.holdDropWeight, numHoldDrops)
  }

  /** The quotient before validation; without notes the division by zero gives NaN or an
      infinity. */
  function Proportion(lanes: seq<NoteAndHitSeconds>, numMineHits: nat, numHoldDrops: nat, judge: Judge.Judge,
    w: WifeWeights): Float
  {
    Div(Total(lanes, numMineHits, numHoldDrops, judge, w), LanesJudged(lanes, judge, w) as real)
  }

  /** What `rescore` returns; `None` where its `expect` panics. */
  function RescoreSpec(lanes: seq<NoteAndHitSeconds>, numMineHits: nat, numHoldDrops: nat, judge: Judge.Judge,
    w: WifeWeights): Option<Structs.Wifescore>
  {
    Structs.FromProportion(Proportion(lanes, numMineHits, numHoldDrops, judge, w))
  }

  ghost predicate LaneSorted(lane: NoteAndHitSeconds)
  {
    IsSorted(lane.hitSeconds) && IsSorted(lane.noteSeconds)
  }

  /** `rescore` with the naive scorer as `S`. */
  method Rescore(lanes: seq<NoteAndHitSeconds>, numMineHits: nat, numHoldDrops: nat, judge: Judge.Judge,
    w: WifeWeights) returns (r: Option<Structs.Wifescore>)
    requires |lanes| == 4
    requires forall i :: 0 <= i < |lanes| ==> LaneSorted(lanes[i])
    ensures r == RescoreSpec(lanes, numMineHits, numHoldDrops, judge, w)
  {
    var wifescoreSum := 0.0;
    var numJudgedNotes := 0;
    for i := 0 to |lanes|
      invariant wifescoreSum == LanesSum(lanes[..i], judge, w)
      invariant numJudgedNotes == LanesJudged(lanes[..i], judge, w)
    {
      var lane := lanes[i];
      assert LaneSorted(lane);
      var columnScoringResult := NaiveScorer.Evaluate(lane.noteSeconds, lane.hitSeconds, judge, w.curve);
      assert lanes[..i + 1][..i] == lanes[..i];
      wifescoreSum := wifescoreSum + columnScoringResult.wifescoreSum;
      numJudgedNotes := numJudgedNotes + columnScoringResult.numJudgedNotes;
    }
    assert lanes[..|lanes|] == lanes;
    wifescoreSum := wifescoreSum + Penalty(w.mineHitWeight, numMineHits);
    wifescoreSum := wifescoreSum + Penalty(w.holdDropWeight, numHoldDrops);
    var wifescore := Div(wifescoreSum, numJudgedNotes as real);
    r := Structs.FromProportion(wifescore);
  }

  /** Every note of every lane is judged exactly once: the divisor is the number of notes. */
  lemma {:induction false} JudgedIsNoteCount(lanes: seq<NoteAndHitSeconds>, judge: Judge.Judge, w: WifeWeights)
    ensures LanesJudged(lanes, judge, w) == NoteCount(lanes)
  {
    if lanes != [] {
      JudgedIsNoteCount(lanes[..|lanes| - 1], judge, w);
    }
  }

  /** Mine hits and hold drops enter only the numerator: with notes present, the quotient is
      finite and one more of either moves it by its weight divided by the number of notes. */
  lemma PenaltiesOnlyInNumerator(lanes: seq<NoteAndHitSeconds>, numMineHits: nat, numHoldDrops: nat,
    judge: Judge.Judge, w: WifeWeights)
    requires NoteCount(lanes) > 0
    ensures var n := NoteCount(lanes) as real;
      var p := Total(lanes, numMineHits, numHoldDrops, judge, w) / n;
      && Proportion(lanes, numMineHits, numHoldDrops, judge, w) == Finite(p)
      && Proportion(lanes, numMineHits + 1, numHoldDrops, judge, w) == Finite(p + w.mineHitWeight / n)
      && Proportion(lanes, numMineHits, numHoldDrops + 1, judge, w) == Finite(p + w.holdDropWeight / n)
  {
    JudgedIsNoteCount(lanes, judge, w);
    var n := NoteCount(lanes) as real;
    var t := Total(lanes, numMineHits, numHoldDrops, judge, w);
    PenaltyStep(w.mineHitWeight, numMineHits);
    PenaltyStep(w.holdDropWeight, numHoldDrops);
    DivAdd(t, w.mineHitWeight, n);
    DivAdd(t, w.holdDropWeight, n);
  }

  lemma PenaltyStep(weight: real, count: nat)
    ensures Penalty(weight, 0) == 0.0
    ensures Penalty(weight, count + 1) == Penalty(weight, count) + weight
  {
  }

  lemma DivAdd(a: real, b: real, n: real)
    requires n != 0.0
    ensures (a + b) / n == a / n + b / n
  {
  }

  /** A lane without notes scores nothing: every hit is a stray tap. */
  lemma {:induction false} StrayTapsOnly(hitSeconds: seq<real>, badWindow: real, curve: NaiveScorer.Curve)
    ensures NaiveScorer.ScoreHits([], hitSeconds, badWindow, curve) == NaiveScorer.LaneState([], 0.0)
  {
    if hitSeconds != [] {
      StrayTapsOnly(hitSeconds[..|hitSeconds| - 1], badWindow, curve);
    }
  }

  lemma {:induction false} NoNotesSum(lanes: seq<NoteAndHitSeconds>, judge: Judge.Judge, w: WifeWeights)
    requires NoteCount(lanes) == 0
    ensures LanesSum(lanes, judge, w) == 0.0
  {
    if lanes != [] {
      var last := lanes[|lanes| - 1];
      NoNotesSum(lanes[..|lanes| - 1], judge, w);
      StrayTapsOnly(last.hitSeconds, judge.badWindow, w.curve);
      assert NaiveScorer.Initial(last.noteSeconds) == [];
      assert NaiveScorer.Unclaimed([]) == 0;
    }
  }

  /** Without notes in any lane the division is by zero: the `expect` fires unless the penalties
      are negative, in which case the score is negative infinity (the D threshold). */
  lemma NoNotes(lanes: seq<NoteAndHitSeconds>, numMineHits: nat, numHoldDrops: nat, judge: Judge.Judge,
    w: WifeWeights)
    requires NoteCount(lanes) == 0
    ensures var penalties := Penalty(w.mineHitWeight, numMineHits) + Penalty(w.holdDropWeight, numHoldDrops);
      && (RescoreSpec(lanes, numMineHits, numHoldDrops, judge, w).None? <==> penalties >= 0.0)
      && (penalties < 0.0 ==> RescoreSpec(lanes, numMineHits, numHoldDrops, judge, w) == Some(Structs.D_THRESHOLD))
  {
    JudgedIsNoteCount(lanes, judge, w);
    NoNotesSum(lanes, judge, w);
  }

  /** The lane totals when every hit lands exactly on its note. */
  lemma {:induction false} ExactSum(lanes: seq<NoteAndHitSeconds>, judge: Judge.Judge, w: WifeWeights)
    requires judge.badWindow >= 0.0
    requires forall i :: 0 <= i < |lanes| ==> lanes[i].hitSeconds == lanes[i].noteSeconds
    ensures LanesSum(lanes, judge, w) == NaiveScorer.RepeatedPoints(w.curve, 0.0, NoteCount(lanes))
  {
    if lanes != [] {
      var init, last := lanes[..|lanes| - 1], lanes[|lanes| - 1];
      ExactSum(init, judge, w);
      NaiveScorer.ExactHits(last.noteSeconds, judge, w.curve);
      RepeatedPointsAdd(w.curve, NoteCount(init), |last.noteSeconds|);
    }
  }

  lemma RepeatedPointsAdd(curve: NaiveScorer.Curve, a: nat, b: nat)
    ensures NaiveScorer.RepeatedPoints(curve, 0.0, a) + NaiveScorer.RepeatedPoints(curve, 0.0, b)
      == NaiveScorer.RepeatedPoints(curve, 0.0, a + b)
  {
  }

  /** Hitting every note exactly, without mine hits or hold drops, scores the curve's value at
      deviation 0 (its maximum), whatever the number of notes. */
  lemma PerfectPlay(lanes: seq<NoteAndHitSeconds>, judge: Judge.Judge, w: WifeWeights)
    requires judge.badWindow >= 0.0 && NoteCount(lanes) > 0
    requires forall i :: 0 <= i < |lanes| ==> lanes[i].hitSeconds == lanes[i].noteSeconds
    ensures Proportion(lanes, 0, 0, judge, w) == Finite(w.curve.calcDeviation(0.0))
    ensures RescoreSpec(lanes, 0, 0, judge, w) == Structs.FromProportion(Finite(w.curve.calcDeviation(0.0)))
  {
    var c0 := w.curve.calcDeviation(0.0);
    JudgedIsNoteCount(lanes, judge, w);
    ExactSum(lanes, judge, w);
    PenaltyStep(w.mineHitWeight, 0);
    PenaltyStep(w.holdDropWeight, 0);
    assert Total(lanes, 0, 0, judge, w) == NaiveScorer.RepeatedPoints(w.curve, 0.0, NoteCount(lanes));
    MeanOfRepeated(w.curve, NoteCount(lanes));
  }

  lemma MeanOfRepeated(curve: NaiveScorer.Curve, n: nat)
    requires n > 0
    ensures NaiveScorer.RepeatedPoints(curve, 0.0, n) / n as real == curve.calcDeviation(0.0)
  {
  }
}
