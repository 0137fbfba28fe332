/** `src/rescore/naive_scorer.rs`: the naive per-lane scorer. Every hit, in order, claims the
    nearest note that is still unclaimed and lies within the bad window (the earliest such note
    on a tie) and scores the curve at that deviation; a hit with no such note is a stray tap and
    changes nothing. Notes left unclaimed are scored as misses. */
module NaiveScorer {
  import opened Wrappers
  import opened Util
  import opened Floats
  import Judge

  /** `Note`: a note's time and whether a hit has claimed it. */
  datatype Note = Note(second: real, isClaimed: bool)

  /** `ScoringResult` of `src/rescore/mod.rs`: a lane's score points and how many notes they are
      spread over. */
  datatype ScoringResult = ScoringResult(wifescoreSum: real, numJudgedNotes: nat)

  /** The scorer's view of a wifescore system: the curve `W::calc_deviation` at the chosen judge,
      and `W::MISS_WEIGHT`. */
  datatype Curve = Curve(calcDeviation: real -> real, missWeight: real)

  /** The distance between a hit and a note. */
  function Deviation(hitSecond: real, note: Note): (r: real)
    ensures r >= 0.0
  {
    Abs(hitSecond - note.second)
  }

  /** Note `k` may be claimed by the hit: within the bad window (inclusive) and unclaimed. */
  predicate Eligible(hitSecond: real, notes: seq<Note>, badWindow: real, k: nat)
    requires k < |notes|
  {
    !(Deviation(hitSecond, notes[k]) > badWindow) && !notes[k].isClaimed
  }

  /** The inner loop from note `k` on, with the best note found among the earlier ones. */
  function ScanBest(hitSecond: real, notes: seq<Note>, badWindow: real, k: nat, best: Option<nat>): (r: Option<nat>)
    requires k <= |notes| && (best.Some? ==> best.value < k)
    ensures r.Some? ==> r.value < |notes|
    decreases |notes| - k
  {
    if k == |notes| then best
    else if Deviation(hitSecond, notes[k]) > badWindow then ScanBest(hitSecond, notes, badWindow, k + 1, best)
    else if notes[k].isClaimed then ScanBest(hitSecond, notes, badWindow, k + 1, best)
    else if best.None? || Deviation(hitSecond, notes[k]) < Deviation(hitSecond, notes[best.value]) then
      ScanBest(hitSecond, notes, badWindow, k + 1, Some(k))
    else ScanBest(hitSecond, notes, badWindow, k + 1, best)
  }

  /** The note a hit claims, if any. */
  function BestNote(hitSecond: real, notes: seq<Note>, badWindow: real): (r: Option<nat>)
    ensures r.Some? ==> r.value < |notes|
  {
    ScanBest(hitSecond, notes, badWindow, 0, None)
  }

  /** `best` is the nearest eligible note among the first `k`, the earliest on a tie. */
  ghost predicate NearestAmong(hitSecond: real, notes: seq<Note>, badWindow: real, k: nat, best: Option<nat>)
    requires k <= |notes|
  {
    match best
    case None => forall j :: 0 <= j < k ==> !Eligible(hitSecond, notes, badWindow, j)
    case Some(b) =>
      b < k && Eligible(hitSecond, notes, badWindow, b)
      && (forall j :: 0 <= j < k && Eligible(hitSecond, notes, badWindow, j) ==>
            Deviation(hitSecond, notes[b]) <= Deviation(hitSecond, notes[j]))
      && (forall j :: 0 <= j < b && Eligible(hitSecond, notes, badWindow, j) ==>
            Deviation(hitSecond, notes[b]) < Deviation(hitSecond, notes[j]))
  }

  lemma {:induction false} ScanBestIsNearest(hitSecond: real, notes: seq<Note>, badWindow: real, k: nat, best: Option<nat>)
    requires k <= |notes| && (best.Some? ==> best.value < k)
    requires NearestAmong(hitSecond, notes, badWindow, k, best)
    ensures NearestAmong(hitSecond, notes, badWindow, |notes|, ScanBest(hitSecond, notes, badWindow, k, best))
    decreases |notes| - k
  {
    if k < |notes| {
      var next := if !Eligible(hitSecond, notes, badWindow, k) then best
        else if best.None? || Deviation(hitSecond, notes[k]) < Deviation(hitSecond, notes[best.value]) then Some(k)
        else best;
      assert ScanBest(hitSecond, notes, badWindow, k, best) == ScanBest(hitSecond, notes, badWindow, k + 1, next);
      assert NearestAmong(hitSecond, notes, badWindow, k + 1, next);
      ScanBestIsNearest(hitSecond, notes, badWindow, k + 1, next);
    }
  }

  /** A hit claims a note exactly when some note is eligible; the note it claims is eligible, at
      least as near as every eligible note and strictly nearer than every earlier one. */
  lemma BestNoteIsNearest(hitSecond: real, notes: seq<Note>, badWindow: real)
    ensures var r := BestNote(hitSecond, notes, badWindow);
      && (r.None? <==> forall j :: 0 <= j < |notes| ==> !Eligible(hitSecond, notes, badWindow, j))
      && (r.Some? ==> Eligible(hitSecond, notes, badWindow, r.value))
      && (r.Some? ==> forall j :: 0 <= j < |notes| && Eligible(hitSecond, notes, badWindow, j) ==>
            Deviation(hitSecond, notes[r.value]) <= Deviation(hitSecond, notes[j]))
      && (r.Some? ==> forall j :: 0 <= j < r.value && Eligible(hitSecond, notes, badWindow, j) ==>
            Deviation(hitSecond, notes[r.value]) < Deviation(hitSecond, notes[j]))
  {
    ScanBestIsNearest(hitSecond, notes, badWindow, 0, None);
  }

  /** The converse: an eligible note at least as near as every eligible note and strictly
      nearer than every earlier one is the one the hit claims. */
  lemma NearestIsChosen(hitSecond: real, notes: seq<Note>, badWindow: real, j: nat)
    requires j < |notes| && Eligible(hitSecond, notes, badWindow, j)
    requires forall k :: 0 <= k < |notes| && Eligible(hitSecond, notes, badWindow, k) ==>
      Deviation(hitSecond, notes[j]) <= Deviation(hitSecond, notes[k])
    requires forall k :: 0 <= k < j && Eligible(hitSecond, notes, badWindow, k) ==>
      Deviation(hitSecond, notes[j]) < Deviation(hitSecond, notes[k])
    ensures BestNote(hitSecond, notes, badWindow) == Some(j)
  {
    BestNoteIsNearest(hitSecond, notes, badWindow);
  }

  /** The notes before any hit: every note unclaimed. */
  function Initial(noteSeconds: seq<real>): (r: seq<Note>)
    ensures |r| == |noteSeconds|
    ensures forall k :: 0 <= k < |r| ==> r[k] == Note(noteSeconds[k], false)
  {
    seq(|noteSeconds|, k requires 0 <= k < |noteSeconds| => Note(noteSeconds[k], false))
  }

  /** A lane in the middle of scoring: its notes and the points so far. */
  datatype LaneState = LaneState(notes: seq<Note>, wifescoreSum: real)

  /** One hit: claim its best note and score the deviation, or change nothing. */
  function ScoreHit(st: LaneState, hitSecond: real, badWindow: real, curve: Curve): (r: LaneState)
    ensures |r.notes| == |st.notes|
  {
    match BestNote(hitSecond, st.notes, badWindow)
    case None => st
    case Some(j) =>
      LaneState(st.notes[j := st.notes[j].(isClaimed := true)],
        st.wifescoreSum + curve.calcDeviation(Deviation(hitSecond, st.notes[j])))
  }

  /** Every hit, in order. */
  function ScoreHits(notes: seq<Note>, hitSeconds: seq<real>, badWindow: real, curve: Curve): (r: LaneState)
    ensures |r.notes| == |notes|
  {
    if hitSeconds == [] then LaneState(notes, 0.0)
    else
      ScoreHit(ScoreHits(notes, hitSeconds[..|hitSeconds| - 1], badWindow, curve),
        hitSeconds[|hitSeconds| - 1], badWindow, curve)
  }

  /** Scoring one more hit of the same sequence. */
  lemma ScoreHitsStep(notes: seq<Note>, hitSeconds: seq<real>, h: nat, badWindow: real, curve: Curve)
    requires h < |hitSeconds|
    ensures ScoreHits(notes, hitSeconds[..h + 1], badWindow, curve)
      == ScoreHit(ScoreHits(notes, hitSeconds[..h], badWindow, curve), hitSeconds[h], badWindow, curve)
  {
    assert hitSeconds[..h + 1][..h] == hitSeconds[..h];
  }

  /** The number of notes no hit has claimed. */
  function Unclaimed(notes: seq<Note>): (r: nat)
    ensures r <= |notes|
  {
    if notes == [] then 0
    else Unclaimed(notes[..|notes| - 1]) + (if notes[|notes| - 1].isClaimed then 0 else 1)
  }

  /** `W::MISS_WEIGHT * num_misses`. */
  function MissPoints(curve: Curve, numMisses: nat): real
  {
    curve.missWeight * numMisses as real
  }

  /** What `evaluate` returns. */
  function EvaluateSpec(noteSeconds: seq<real>, hitSeconds: seq<real>, judge: Judge.Judge, curve: Curve): ScoringResult
  {
    var st := ScoreHits(Initial(noteSeconds), hitSeconds, judge.badWindow, curve);
    ScoringResult(st.wifescoreSum + MissPoints(curve, Unclaimed(st.notes)), |noteSeconds|)
  }

  /** The inner loop of `evaluate`: the nearest unclaimed note within the bad window. The
      deviation starts at infinity, so the first eligible note is always taken. */
  method NearestUnclaimed(notes: array<Note>, hitSecond: real, badWindow: real)
    returns (bestNote: Option<nat>, bestNoteDeviation: Float)
    ensures bestNote == BestNote(hitSecond, notes[..], badWindow)
    ensures bestNote.Some? ==> (bestNote.value < notes.Length
      && bestNoteDeviation == Finite(Deviation(hitSecond, notes[bestNote.value])))
  {
    bestNote := None;
    bestNoteDeviation := PosInf;
    for k := 0 to notes.Length
      invariant bestNote.Some? ==> (bestNote.value < k
        && bestNoteDeviation == Finite(Deviation(hitSecond, notes[bestNote.value])))
      invariant bestNote.None? ==> bestNoteDeviation == PosInf
      invariant ScanBest(hitSecond, notes[..], badWindow, 0, None) == ScanBest(hitSecond, notes[..], badWindow, k, bestNote)
    {
      var note := notes[k];
      var deviation := Abs(hitSecond - note.second);
      if deviation > badWindow {
        continue;
      }
      if note.isClaimed {
        continue;
      }
      if Below(Finite(deviation), bestNoteDeviation) {
        bestNote := Some(k);
        bestNoteDeviation := Finite(deviation);
      }
    }
  }

  /** One pass of the outer loop of `evaluate`: the hit claims its note in place, or is a stray
      tap. */
  method ClaimNearest(notes: array<Note>, hitSecond: real, badWindow: real, curve: Curve, wifescoreSum: real)
    returns (wifescoreSum': real)
    modifies notes
    ensures LaneState(notes[..], wifescoreSum')
      == ScoreHit(LaneState(old(notes[..]), wifescoreSum), hitSecond, badWindow, curve)
  {
    wifescoreSum' := wifescoreSum;
    var bestNote, bestNoteDeviation := NearestUnclaimed(notes, hitSecond, badWindow);
    if bestNote.None? {
      return;
    }
    var j := bestNote.value;
    notes[j] := notes[j].(isClaimed := true);
    wifescoreSum' := wifescoreSum' + curve.calcDeviation(bestNoteDeviation.value);
  }

  /** `NaiveScorer::evaluate`. */
  method Evaluate(noteSeconds: seq<real>, hitSeconds: seq<real>, judge: Judge.Judge, curve: Curve)
    returns (result: ScoringResult)
    requires IsSorted(hitSeconds)
    ensures result == EvaluateSpec(noteSeconds, hitSeconds, judge, curve)
  {
    var notes := new Note[|noteSeconds|](k requires 0 <= k < |noteSeconds| => Note(noteSeconds[k], false));
    assert notes[..] == Initial(noteSeconds);
    var wifescoreSum := 0.0;
    for h := 0 to |hitSeconds|
      invariant LaneState(notes[..], wifescoreSum)
        == ScoreHits(Initial(noteSeconds), hitSeconds[..h], judge.badWindow, curve)
    {
      ScoreHitsStep(Initial(noteSeconds), hitSeconds, h, judge.badWindow, curve);
      wifescoreSum := ClaimNearest(notes, hitSeconds[h], judge.badWindow, curve, wifescoreSum);
    }
    assert hitSeconds[..|hitSeconds|] == hitSeconds;
    var numMisses := Unclaimed(notes[..]);
    wifescoreSum := wifescoreSum + MissPoints(curve, numMisses);
    result := ScoringResult(wifescoreSum, notes.Length);
  }

  // ---------------------------------------------------------------------------------------------
  // Each note is claimed by at most one hit, and each hit claims at most one note.

  /** The note each hit claims (`None` for a stray tap), in hit order. */
  function Choices(notes: seq<Note>, hitSeconds: seq<real>, badWindow: real, curve: Curve): (r: seq<Option<nat>>)
    ensures |r| == |hitSeconds|
  {
    if hitSeconds == [] then []
    else
      var prefix := hitSeconds[..|hitSeconds| - 1];
      Choices(notes, prefix, badWindow, curve)
        + [BestNote(hitSeconds[|hitSeconds| - 1], ScoreHits(notes, prefix, badWindow, curve).notes, badWindow)]
  }

  /** How many hits claimed a note. */
  function ClaimCount(choices: seq<Option<nat>>): (r: nat)
    ensures r <= |choices|
  {
    if choices == [] then 0
    else ClaimCount(choices[..|choices| - 1]) + (if choices[|choices| - 1].Some? then 1 else 0)
  }

  /** Claiming an unclaimed note leaves one fewer unclaimed. */
  lemma {:induction false} UnclaimedAfterClaim(notes: seq<Note>, j: nat)
    requires j < |notes| && !notes[j].isClaimed
    ensures Unclaimed(notes[j := notes[j].(isClaimed := true)]) + 1 == Unclaimed(notes)
  {
    var notes' := notes[j := notes[j].(isClaimed := true)];
    if j < |notes| - 1 {
      assert notes'[..|notes| - 1] == notes[..|notes| - 1][j := notes[j].(isClaimed := true)];
      UnclaimedAfterClaim(notes[..|notes| - 1], j);
    } else {
      assert notes'[..|notes| - 1] == notes[..|notes| - 1];
    }
  }

  /** What the scoring loop keeps: note times never change, a note is claimed exactly when some
      hit chose it, no two hits chose the same note, and claimed plus unclaimed notes make up all
      notes. */
  ghost predicate ClaimsConsistent(noteSeconds: seq<real>, st: LaneState, choices: seq<Option<nat>>)
  {
    && |st.notes| == |noteSeconds|
    && (forall k :: 0 <= k < |st.notes| ==> st.notes[k].second == noteSeconds[k])
    && ClaimedIffChosen(st.notes, choices)
    && Distinct(choices)
    && (forall a :: 0 <= a < |choices| && choices[a].Some? ==> choices[a].value < |noteSeconds|)
    && Unclaimed(st.notes) + ClaimCount(choices) == |noteSeconds|
  }

  /** A note is claimed exactly when some hit chose it. */
  ghost predicate ClaimedIffChosen(notes: seq<Note>, choices: seq<Option<nat>>)
  {
    forall k :: 0 <= k < |notes| ==> (notes[k].isClaimed <==> exists a :: 0 <= a < |choices| && choices[a] == Some(k))
  }

  lemma ClaimedIffChosenStep(notes: seq<Note>, choices: seq<Option<nat>>, choice: Option<nat>)
    requires ClaimedIffChosen(notes, choices)
    requires choice.Some? ==> choice.value < |notes|
    ensures var notes' := if choice.None? then notes else notes[choice.value := notes[choice.value].(isClaimed := true)];
      ClaimedIffChosen(notes', choices + [choice])
  {
    var notes' := if choice.None? then notes else notes[choice.value := notes[choice.value].(isClaimed := true)];
    var choices' := choices + [choice];
    forall k | 0 <= k < |notes'|
      ensures notes'[k].isClaimed <==> exists a :: 0 <= a < |choices'| && choices'[a] == Some(k)
    {
      if choice == Some(k) {
        assert choices'[|choices|] == Some(k);
      } else if notes'[k].isClaimed {
        var a :| 0 <= a < |choices| && choices[a] == Some(k);
        assert choices'[a] == Some(k);
      } else {
        forall a | 0 <= a < |choices'|
          ensures choices'[a] != Some(k)
        {
          if a < |choices| {
            assert choices'[a] == choices[a];
          }
        }
      }
    }
  }

  /** No two hits chose the same note. */
  ghost predicate Distinct(choices: seq<Option<nat>>)
  {
    forall a, b :: 0 <= a < b < |choices| && choices[a].Some? ==> choices[b] != choices[a]
  }

  lemma DistinctStep(notes: seq<Note>, choices: seq<Option<nat>>, choice: Option<nat>)
    requires ClaimedIffChosen(notes, choices) && Distinct(choices)
    requires choice.Some? ==> choice.value < |notes| && !notes[choice.value].isClaimed
    ensures Distinct(choices + [choice])
  {
    var choices' := choices + [choice];
    forall a, b | 0 <= a < b < |choices'| && choices'[a].Some?
      ensures choices'[b] != choices'[a]
    {
      assert choices'[a] == choices[a];
      if b < |choices| {
        assert choices'[b] == choices[b];
      }
    }
  }

  lemma ClaimStep(noteSeconds: seq<real>, st: LaneState, choices: seq<Option<nat>>, hitSecond: real,
    badWindow: real, curve: Curve)
    requires ClaimsConsistent(noteSeconds, st, choices)
    ensures ClaimsConsistent(noteSeconds, ScoreHit(st, hitSecond, badWindow, curve),
      choices + [BestNote(hitSecond, st.notes, badWindow)])
  {
    var choice := BestNote(hitSecond, st.notes, badWindow);
    var choices' := choices + [choice];
    assert choices'[..|choices|] == choices;
    BestNoteIsNearest(hitSecond, st.notes, badWindow);
    assert ClaimedIffChosen(st.notes, choices);
    ClaimedIffChosenStep(st.notes, choices, choice);
    DistinctStep(st.notes, choices, choice);
    if choice.Some? {
      UnclaimedAfterClaim(st.notes, choice.value);
    }
  }

  lemma {:induction false} ClaimsConsistentAfter(noteSeconds: seq<real>, hitSeconds: seq<real>, badWindow: real,
    curve: Curve)
    ensures ClaimsConsistent(noteSeconds, ScoreHits(Initial(noteSeconds), hitSeconds, badWindow, curve),
      Choices(Initial(noteSeconds), hitSeconds, badWindow, curve))
  {
    if hitSeconds == [] {
      UnclaimedInitial(noteSeconds);
    } else {
      var prefix := hitSeconds[..|hitSeconds| - 1];
      ClaimsConsistentAfter(noteSeconds, prefix, badWindow, curve);
      ClaimStep(noteSeconds, ScoreHits(Initial(noteSeconds), prefix, badWindow, curve),
        Choices(Initial(noteSeconds), prefix, badWindow, curve), hitSeconds[|hitSeconds| - 1], badWindow, curve);
    }
  }

  lemma {:induction false} UnclaimedInitial(noteSeconds: seq<real>)
    ensures Unclaimed(Initial(noteSeconds)) == |noteSeconds|
  {
    if noteSeconds != [] {
      UnclaimedInitial(noteSeconds[..|noteSeconds| - 1]);
      assert Initial(noteSeconds)[..|noteSeconds| - 1] == Initial(noteSeconds[..|noteSeconds| - 1]);
    }
  }

  /** After all hits: each note is claimed by at most one hit and each hit by at most one note,
      a note is claimed exactly when a hit chose it, and the misses charged are the notes no hit
      claimed. */
  lemma EachNoteClaimedOnce(noteSeconds: seq<real>, hitSeconds: seq<real>, badWindow: real, curve: Curve)
    ensures var st := ScoreHits(Initial(noteSeconds), hitSeconds, badWindow, curve);
      var choices := Choices(Initial(noteSeconds), hitSeconds, badWindow, curve);
      && (forall a, b :: 0 <= a < b < |choices| && choices[a].Some? ==> choices[b] != choices[a])
      && (forall k :: 0 <= k < |st.notes| ==>
            (st.notes[k].isClaimed <==> exists a :: 0 <= a < |choices| && choices[a] == Some(k)))
      && Unclaimed(st.notes) == |noteSeconds| - ClaimCount(choices)
  {
    ClaimsConsistentAfter(noteSeconds, hitSeconds, badWindow, curve);
  }

  // ---------------------------------------------------------------------------------------------
  // The naive-scorer expectations of the `test_scoring_systems` unit test, on J4 (bad window
  // 0.18 s). `c` is the curve and `m` the miss weight.

  /** The notes after the first `h` notes were each claimed by a hit exactly on them. */
  function ClaimedBefore(noteSeconds: seq<real>, h: nat): (r: seq<Note>)
    ensures |r| == |noteSeconds|
  {
    seq(|noteSeconds|, k requires 0 <= k < |noteSeconds| => Note(noteSeconds[k], k < h))
  }

  /** `n` notes each scored at the same deviation. */
  function RepeatedPoints(curve: Curve, deviation: real, n: nat): real
  {
    n as real * curve.calcDeviation(deviation)
  }

  /** A hit exactly on the first unclaimed note claims that note at deviation 0, whatever the
      other notes are. */
  lemma ExactHitClaimsNext(noteSeconds: seq<real>, h: nat, badWindow: real, curve: Curve)
    requires h < |noteSeconds| && badWindow >= 0.0
    ensures ScoreHit(LaneState(ClaimedBefore(noteSeconds, h), RepeatedPoints(curve, 0.0, h)), noteSeconds[h], badWindow, curve)
      == LaneState(ClaimedBefore(noteSeconds, h + 1), RepeatedPoints(curve, 0.0, h + 1))
  {
    var notes := ClaimedBefore(noteSeconds, h);
    assert Eligible(noteSeconds[h], notes, badWindow, h);
    BestNoteIsNearest(noteSeconds[h], notes, badWindow);
    assert BestNote(noteSeconds[h], notes, badWindow) == Some(h);
    assert notes[h := notes[h].(isClaimed := true)] == ClaimedBefore(noteSeconds, h + 1);
  }

  lemma {:induction false} UnclaimedClaimedBefore(noteSeconds: seq<real>, h: nat)
    requires h <= |noteSeconds|
    ensures Unclaimed(ClaimedBefore(noteSeconds, h)) + h == |noteSeconds|
  {
    if h == 0 {
      assert Initial(noteSeconds) == ClaimedBefore(noteSeconds, 0);
      UnclaimedInitial(noteSeconds);
    } else {
      var before := ClaimedBefore(noteSeconds, h - 1);
      UnclaimedClaimedBefore(noteSeconds, h - 1);
      assert before[h - 1 := before[h - 1].(isClaimed := true)] == ClaimedBefore(noteSeconds, h);
      UnclaimedAfterClaim(before, h - 1);
    }
  }

  lemma {:induction false} ExactHitsState(noteSeconds: seq<real>, h: nat, badWindow: real, curve: Curve)
    requires h <= |noteSeconds| && badWindow >= 0.0
    ensures ScoreHits(Initial(noteSeconds), noteSeconds[..h], badWindow, curve)
      == LaneState(ClaimedBefore(noteSeconds, h), RepeatedPoints(curve, 0.0, h))
  {
    if h == 0 {
      assert Initial(noteSeconds) == ClaimedBefore(noteSeconds, 0);
    } else {
      ExactHitsState(noteSeconds, h - 1, badWindow, curve);
      ScoreHitsStep(Initial(noteSeconds), noteSeconds, h - 1, badWindow, curve);
      ExactHitClaimsNext(noteSeconds, h - 1, badWindow, curve);
    }
  }

  /** Hits exactly on every note, in order (the first case of the `test_scoring_systems` unit
      test, for any notes): every note is claimed at deviation 0 and nothing counts as a miss. */
  lemma ExactHits(noteSeconds: seq<real>, judge: Judge.Judge, curve: Curve)
    requires judge.badWindow >= 0.0
    ensures EvaluateSpec(noteSeconds, noteSeconds, judge, curve)
      == ScoringResult(RepeatedPoints(curve, 0.0, |noteSeconds|), |noteSeconds|)
  {
    ExactHitsState(noteSeconds, |noteSeconds|, judge.badWindow, curve);
    UnclaimedClaimedBefore(noteSeconds, |noteSeconds|);
    assert noteSeconds[..|noteSeconds|] == noteSeconds;
  }

  /** No note is left unclaimed exactly when every note is claimed. */
  lemma {:induction false} NoneUnclaimed(notes: seq<Note>)
    ensures Unclaimed(notes) == 0 <==> forall k :: 0 <= k < |notes| ==> notes[k].isClaimed
  {
    if notes != [] {
      var init := notes[..|notes| - 1];
      NoneUnclaimed(init);
      assert forall k :: 0 <= k < |init| ==> init[k] == notes[k];
    }
  }

  /** Scoring follows any sequence of states in which each hit leads from one state to the next. */
  lemma {:induction false} Trace(notes: seq<Note>, hitSeconds: seq<real>, badWindow: real, curve: Curve,
    states: seq<LaneState>)
    requires |states| == |hitSeconds| + 1 && states[0] == LaneState(notes, 0.0)
    requires forall h :: 0 <= h < |hitSeconds| ==> ScoreHit(states[h], hitSeconds[h], badWindow, curve) == states[h + 1]
    ensures ScoreHits(notes, hitSeconds, badWindow, curve) == states[|hitSeconds|]
  {
    if hitSeconds != [] {
      var h := |hitSeconds| - 1;
      Trace(notes, hitSeconds[..h], badWindow, curve, states[..h + 1]);
    }
  }

  lemma UnclaimedSnoc(notes: seq<Note>, note: Note)
    ensures Unclaimed(notes + [note]) == Unclaimed(notes) + (if note.isClaimed then 0 else 1)
  {
    assert (notes + [note])[..|notes|] == notes;
  }

  /** The note each hit of the second case claims. */
  lemma OneMissChoice0()
    ensures BestNote(0.9, [Note(1.0, false), Note(2.0, false), Note(3.0, false), Note(4.0, false)], 0.18) == Some(0)
  {
  }

  lemma OneMissChoice1()
    ensures BestNote(3.1, [Note(1.0, true), Note(2.0, false), Note(3.0, false), Note(4.0, false)], 0.18) == Some(2)
  {
  }

  lemma OneMissChoice2()
    ensures BestNote(4.1, [Note(1.0, true), Note(2.0, false), Note(3.0, true), Note(4.0, false)], 0.18) == Some(3)
  {
  }

  lemma OneMissHits(curve: Curve)
    ensures ScoreHits([Note(1.0, false), Note(2.0, false), Note(3.0, false), Note(4.0, false)], [0.9, 3.1, 4.1], 0.18, curve)
      == LaneState([Note(1.0, true), Note(2.0, false), Note(3.0, true), Note(4.0, true)],
           curve.calcDeviation(0.1) + curve.calcDeviation(0.1) + curve.calcDeviation(0.1))
  {
    var c := curve.calcDeviation;
    var n0 := [Note(1.0, false), Note(2.0, false), Note(3.0, false), Note(4.0, false)];
    var n1 := [Note(1.0, true), Note(2.0, false), Note(3.0, false), Note(4.0, false)];
    var n2 := [Note(1.0, true), Note(2.0, false), Note(3.0, true), Note(4.0, false)];
    var n3 := [Note(1.0, true), Note(2.0, false), Note(3.0, true), Note(4.0, true)];
    OneMissChoice0();
    OneMissChoice1();
    OneMissChoice2();
    assert n0[0 := n0[0].(isClaimed := true)] == n1;
    assert n1[2 := n1[2].(isClaimed := true)] == n2;
    assert n2[3 := n2[3].(isClaimed := true)] == n3;
    Trace(n0, [0.9, 3.1, 4.1], 0.18, curve,
      [LaneState(n0, 0.0), LaneState(n1, 0.0 + c(0.1)), LaneState(n2, 0.0 + c(0.1) + c(0.1)),
       LaneState(n3, 0.0 + c(0.1) + c(0.1) + c(0.1))]);
  }

  /** Three hits 0.1 s off their notes and one note never hit: three curve values and one miss. */
  lemma OneMissFixture(curve: Curve)
    ensures EvaluateSpec([1.0, 2.0, 3.0, 4.0], [0.9, 3.1, 4.1], Judge.J4, curve)
      == ScoringResult(curve.calcDeviation(0.1) + curve.calcDeviation(0.1) + curve.calcDeviation(0.1)
           + MissPoints(curve, 1), 4)
  {
    assert Initial([1.0, 2.0, 3.0, 4.0]) == [Note(1.0, false), Note(2.0, false), Note(3.0, false), Note(4.0, false)];
    OneMissHits(curve);
    UnclaimedSnoc([], Note(1.0, true));
    UnclaimedSnoc([Note(1.0, true)], Note(2.0, false));
    UnclaimedSnoc([Note(1.0, true), Note(2.0, false)], Note(3.0, true));
    UnclaimedSnoc([Note(1.0, true), Note(2.0, false), Note(3.0, true)], Note(4.0, true));
    assert [Note(1.0, true), Note(2.0, false), Note(3.0, true)] + [Note(4.0, true)]
      == [Note(1.0, true), Note(2.0, false), Note(3.0, true), Note(4.0, true)];
  }

  /** The note each hit of the third case claims: the second hit is nearer to the already claimed
      first note, so it takes the second one, 0.1 s away. */
  lemma NearTieChoice0()
    ensures BestNote(0.09, [Note(0.1, false), Note(0.2, false), Note(0.3, false), Note(0.4, false)], 0.18) == Some(0)
  {
  }

  lemma NearTieChoice1()
    ensures BestNote(0.10, [Note(0.1, true), Note(0.2, false), Note(0.3, false), Note(0.4, false)], 0.18) == Some(1)
  {
  }

  lemma NearTieChoice2()
    ensures BestNote(0.30, [Note(0.1, true), Note(0.2, true), Note(0.3, false), Note(0.4, false)], 0.18) == Some(2)
  {
  }

  lemma NearTieChoice3()
    ensures BestNote(0.40, [Note(0.1, true), Note(0.2, true), Note(0.3, true), Note(0.4, false)], 0.18) == Some(3)
  {
  }

  lemma NearTieHits(curve: Curve)
    ensures ScoreHits([Note(0.1, false), Note(0.2, false), Note(0.3, false), Note(0.4, false)],
        [0.09, 0.10, 0.30, 0.40], 0.18, curve)
      == LaneState([Note(0.1, true), Note(0.2, true), Note(0.3, true), Note(0.4, true)],
           curve.calcDeviation(0.01) + curve.calcDeviation(0.10) + curve.calcDeviation(0.0) + curve.calcDeviation(0.0))
  {
    var c := curve.calcDeviation;
    var n0 := [Note(0.1, false), Note(0.2, false), Note(0.3, false), Note(0.4, false)];
    var n1 := [Note(0.1, true), Note(0.2, false), Note(0.3, false), Note(0.4, false)];
    var n2 := [Note(0.1, true), Note(0.2, true), Note(0.3, false), Note(0.4, false)];
    var n3 := [Note(0.1, true), Note(0.2, true), Note(0.3, true), Note(0.4, false)];
    var n4 := [Note(0.1, true), Note(0.2, true), Note(0.3, true), Note(0.4, true)];
    NearTieChoice0();
    NearTieChoice1();
    NearTieChoice2();
    NearTieChoice3();
    assert n0[0 := n0[0].(isClaimed := true)] == n1;
    assert n1[1 := n1[1].(isClaimed := true)] == n2;
    assert n2[2 := n2[2].(isClaimed := true)] == n3;
    assert n3[3 := n3[3].(isClaimed := true)] == n4;
    Trace(n0, [0.09, 0.10, 0.30, 0.40], 0.18, curve,
      [LaneState(n0, 0.0), LaneState(n1, 0.0 + c(0.01)), LaneState(n2, 0.0 + c(0.01) + c(0.10)),
       LaneState(n3, 0.0 + c(0.01) + c(0.10) + c(0.0)), LaneState(n4, 0.0 + c(0.01) + c(0.10) + c(0.0) + c(0.0))]);
  }

  /** Two hits near the first note: the second one falls through to the next note. */
  lemma NearTieFixture(curve: Curve)
    ensures EvaluateSpec([0.10, 0.20, 0.30, 0.40], [0.09, 0.10, 0.30, 0.40], Judge.J4, curve)
      == ScoringResult(curve.calcDeviation(0.01) + curve.calcDeviation(0.10) + curve.calcDeviation(0.0)
           + curve.calcDeviation(0.0), 4)
  {
    assert Initial([0.10, 0.20, 0.30, 0.40]) == [Note(0.1, false), Note(0.2, false), Note(0.3, false), Note(0.4, false)];
    NearTieHits(curve);
    NoneUnclaimed([Note(0.1, true), Note(0.2, true), Note(0.3, true), Note(0.4, true)]);
  }

  /** The note each hit of the fourth case claims, and the later hits that find every note
      claimed. */
  lemma EarlyChoice0()
    ensures BestNote(0.01, [Note(0.05, false), Note(0.10, false), Note(0.15, false), Note(0.20, false)], 0.18) == Some(0)
  {
  }

  lemma EarlyChoice1()
    ensures BestNote(0.02, [Note(0.05, true), Note(0.10, false), Note(0.15, false), Note(0.20, false)], 0.18) == Some(1)
  {
  }

  lemma EarlyChoice2()
    ensures BestNote(0.03, [Note(0.05, true), Note(0.10, true), Note(0.15, false), Note(0.20, false)], 0.18) == Some(2)
  {
  }

  lemma EarlyChoice3()
    ensures BestNote(0.04, [Note(0.05, true), Note(0.10, true), Note(0.15, true), Note(0.20, false)], 0.18) == Some(3)
  {
  }

  lemma EarlyHits(curve: Curve)
    ensures ScoreHits([Note(0.05, false), Note(0.10, false), Note(0.15, false), Note(0.20, false)],
        [0.01, 0.02, 0.03, 0.04], 0.18, curve)
      == LaneState([Note(0.05, true), Note(0.10, true), Note(0.15, true), Note(0.20, true)],
           curve.calcDeviation(0.04) + curve.calcDeviation(0.08) + curve.calcDeviation(0.12) + curve.calcDeviation(0.16))
  {
    var c := curve.calcDeviation;
    var n0 := [Note(0.05, false), Note(0.10, false), Note(0.15, false), Note(0.20, false)];
    var n1 := [Note(0.05, true), Note(0.10, false), Note(0.15, false), Note(0.20, false)];
    var n2 := [Note(0.05, true), Note(0.10, true), Note(0.15, false), Note(0.20, false)];
    var n3 := [Note(0.05, true), Note(0.10, true), Note(0.15, true), Note(0.20, false)];
    var n4 := [Note(0.05, true), Note(0.10, true), Note(0.15, true), Note(0.20, true)];
    EarlyChoice0();
    EarlyChoice1();
    EarlyChoice2();
    EarlyChoice3();
    assert n0[0 := n0[0].(isClaimed := true)] == n1;
    assert n1[1 := n1[1].(isClaimed := true)] == n2;
    assert n2[2 := n2[2].(isClaimed := true)] == n3;
    assert n3[3 := n3[3].(isClaimed := true)] == n4;
    Trace(n0, [0.01, 0.02, 0.03, 0.04], 0.18, curve,
      [LaneState(n0, 0.0), LaneState(n1, 0.0 + c(0.04)), LaneState(n2, 0.0 + c(0.04) + c(0.08)),
       LaneState(n3, 0.0 + c(0.04) + c(0.08) + c(0.12)), LaneState(n4, 0.0 + c(0.04) + c(0.08) + c(0.12) + c(0.16))]);
  }

  /** Four hits all before their notes: each takes the earliest unclaimed note within the window,
      not the nearest hit to it, so each deviation grows by 0.04 s. */
  lemma EarlyHitsFixture(curve: Curve)
    ensures EvaluateSpec([0.05, 0.10, 0.15, 0.20], [0.01, 0.02, 0.03, 0.04], Judge.J4, curve)
      == ScoringResult(curve.calcDeviation(0.04) + curve.calcDeviation(0.08) + curve.calcDeviation(0.12)
           + curve.calcDeviation(0.16), 4)
  {
    assert Initial([0.05, 0.10, 0.15, 0.20]) == [Note(0.05, false), Note(0.10, false), Note(0.15, false), Note(0.20, false)];
    EarlyHits(curve);
    NoneUnclaimed([Note(0.05, true), Note(0.10, true), Note(0.15, true), Note(0.20, true)]);
  }

  /** Once every note is claimed, further hits change nothing: stray taps cost nothing. */
  lemma {:induction false} StrayHitsAfterAllClaimed(notes: seq<Note>, hitSeconds: seq<real>, extra: seq<real>,
    badWindow: real, curve: Curve)
    requires forall k :: 0 <= k < |ScoreHits(notes, hitSeconds, badWindow, curve).notes| ==>
      ScoreHits(notes, hitSeconds, badWindow, curve).notes[k].isClaimed
    ensures ScoreHits(notes, hitSeconds + extra, badWindow, curve) == ScoreHits(notes, hitSeconds, badWindow, curve)
    decreases |extra|
  {
    if extra != [] {
      var init := extra[..|extra| - 1];
      StrayHitsAfterAllClaimed(notes, hitSeconds, init, badWindow, curve);
      var st := ScoreHits(notes, hitSeconds, badWindow, curve);
      BestNoteIsNearest(extra[|extra| - 1], st.notes, badWindow);
      assert BestNote(extra[|extra| - 1], st.notes, badWindow) == None;
      assert (hitSeconds + extra)[..|hitSeconds + extra| - 1] == hitSeconds + init;
      assert ScoreHits(notes, hitSeconds + extra, badWindow, curve)
        == ScoreHit(ScoreHits(notes, hitSeconds + init, badWindow, curve), extra[|extra| - 1], badWindow, curve);
    } else {
      assert hitSeconds + extra == hitSeconds;
    }
  }

  /** The fourth case again, with four more hits exactly on the notes, after all of them were
      claimed: the result is unchanged. */
  lemma StrayHitsFixture(curve: Curve)
    ensures EvaluateSpec([0.05, 0.10, 0.15, 0.20], [0.01, 0.02, 0.03, 0.04, 0.05, 0.10, 0.15, 0.20], Judge.J4, curve)
      == ScoringResult(curve.calcDeviation(0.04) + curve.calcDeviation(0.08) + curve.calcDeviation(0.12)
           + curve.calcDeviation(0.16), 4)
  {
    var seconds, hits := [0.05, 0.10, 0.15, 0.20], [0.01, 0.02, 0.03, 0.04];
    assert ScoreHits(Initial(seconds), hits + [0.05, 0.10, 0.15, 0.20], 0.18, curve)
      == ScoreHits(Initial(seconds), hits, 0.18, curve) by {
      assert Initial(seconds) == [Note(0.05, false), Note(0.10, false), Note(0.15, false), Note(0.20, false)];
      EarlyHits(curve);
      StrayHitsAfterAllClaimed(Initial(seconds), hits, [0.05, 0.10, 0.15, 0.20], 0.18, curve);
    }
    assert hits + [0.05, 0.10, 0.15, 0.20] == [0.01, 0.02, 0.03, 0.04, 0.05, 0.10, 0.15, 0.20];
    EarlyHitsFixture(curve);
  }

  /** Without hits every note is a miss. */
  lemma NoHits(noteSeconds: seq<real>, judge: Judge.Judge, curve: Curve)
    ensures EvaluateSpec(noteSeconds, [], judge, curve) == ScoringResult(MissPoints(curve, |noteSeconds|), |noteSeconds|)
  {
    UnclaimedInitial(noteSeconds);
  }
}
