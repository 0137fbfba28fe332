/** Timing windows and the tap classifier of src/judge.rs (the revision whose `Judge` carries a
    name and the full family of `is_*` predicates). */
module Judge {
  import opened Util
  import opened TapJudgements

  datatype Judge = Judge(
    name: string,
    marvelousWindow: real,
    perfectWindow: real,
    greatWindow: real,
    goodWindow: real,
    badWindow: real,
    holdWindow: real,
    rollWindow: real,
    mineWindow: real,
    timingScale: real)
  {
    /** The window that bounds judgement `j` (Miss has none). */
    function WindowOf(j: TapJudgement): real
      requires j != Miss
    {
      match j
      case Marvelous => marvelousWindow
      case Perfect => perfectWindow
      case Great => greatWindow
      case Good => goodWindow
      case Bad => badWindow
    }

    /** Non-negative windows, weakly increasing from marvelous to bad. */
    predicate WindowsAscending()
    {
      0.0 <= marvelousWindow <= perfectWindow <= greatWindow <= goodWindow <= badWindow
    }

    /** `Judge::classify`: the first judgement, in the order Marvelous .. Bad, whose window
        contains |deviation| (inclusively); Miss if none does. */
    function Classify(deviation: real): (r: TapJudgement)
      ensures r != Miss ==> Abs(deviation) <= WindowOf(r)
      ensures forall k :: k != Miss && Rank(k) < Rank(r) ==> WindowOf(k) < Abs(deviation)
    {
      var d := Abs(deviation);
      if d <= marvelousWindow then Marvelous
      else if d <= perfectWindow then Perfect
      else if d <= greatWindow then Great
      else if d <= goodWindow then Good
      else if d <= badWindow then Bad
      else Miss
    }

    /** `Judge::is_cb` as written: compares the SIGNED deviation with the great window and
        answers true for the hits that do NOT break a combo. See `IsComboBreaker`. */
    predicate IsCb(deviation: real)
    {
      deviation <= greatWindow
    }

    /** The combo-breaker test the doc comment of `is_cb` describes: anything judged worse than
        Great breaks the combo, early or late alike. */
    predicate IsComboBreaker(deviation: real)
      ensures IsComboBreaker(deviation) <==> deviation < -greatWindow || greatWindow < deviation
      ensures deviation > 0.0 ==> (IsComboBreaker(deviation) <==> !IsCb(deviation))
    {
      Abs(deviation) > greatWindow
    }

    predicate IsMarv(deviation: real) { Classify(deviation) == Marvelous }
    predicate IsPerf(deviation: real) { Classify(deviation) == Perfect }
    predicate IsGreat(deviation: real) { Classify(deviation) == Great }
    predicate IsGood(deviation: real) { Classify(deviation) == Good }
    predicate IsBad(deviation: real) { Classify(deviation) == Bad }
    predicate IsMiss(deviation: real) { Classify(deviation) == Miss }
  }

  /** `classify` depends on |deviation| only, and grows in severity with it. */
  lemma ClassifyMonotone(j: Judge, d1: real, d2: real)
    requires Abs(d1) <= Abs(d2)
    ensures Rank(j.Classify(d1)) <= Rank(j.Classify(d2))
    ensures j.Classify(-d1) == j.Classify(d1)
  {
  }

  /** Windows are inclusive: a deviation of exactly the bad window is a Bad, not a Miss. */
  lemma BadWindowIsInclusive(j: Judge)
    requires j.WindowsAscending() && j.goodWindow < j.badWindow
    ensures j.Classify(j.badWindow) == Bad && j.Classify(-j.badWindow) == Bad
  {
  }

  /** With ascending windows each predicate is a band of |deviation|. */
  lemma PredicatesPartition(j: Judge, d: real)
    requires j.WindowsAscending()
    ensures j.IsMarv(d) <==> Abs(d) <= j.marvelousWindow
    ensures j.IsPerf(d) <==> j.marvelousWindow < Abs(d) <= j.perfectWindow
    ensures j.IsGreat(d) <==> j.perfectWindow < Abs(d) <= j.greatWindow
    ensures j.IsGood(d) <==> j.greatWindow < Abs(d) <= j.goodWindow
    ensures j.IsBad(d) <==> j.goodWindow < Abs(d) <= j.badWindow
    ensures j.IsMiss(d) <==> Abs(d) > j.badWindow
  {
  }

  /** As written, `is_cb` holds for a perfect hit and for a hit a full second early, and fails
      for a Good: the opposite of its documented meaning. */
  lemma IsCbIsInverted()
    ensures J4.IsCb(0.0) && J4.Classify(0.0) == Marvelous
    ensures J4.IsCb(-1.0) && J4.Classify(-1.0) == Miss
    ensures !J4.IsCb(0.1) && J4.Classify(0.1) == Good
  {
  }

  /** The corrected test breaks the combo exactly on Good, Bad and Miss. */
  lemma ComboBreakerIsWorseThanGreat(j: Judge, d: real)
    requires j.WindowsAscending()
    ensures j.IsComboBreaker(d) <==> Rank(j.Classify(d)) > Rank(Great)
    ensures j.IsComboBreaker(d) == j.IsComboBreaker(-d)
  {
  }

  /** The nine judge presets. J4 is the default for official scoring; J1 to J3 are legacy. */
  const J1: Judge := Judge("J1", 0.03375, 0.0675, 0.135, 0.2025, 0.27, 0.375, 0.75, 0.075, 1.50)
  const J2: Judge := Judge("J2", 0.029925, 0.05985, 0.1197, 0.17955, 0.2394, 0.3325, 0.665, 0.075, 1.33)
  const J3: Judge := Judge("J3", 0.0261, 0.0522, 0.1044, 0.1566, 0.2088, 0.29, 0.58, 0.075, 1.16)
  const J4: Judge := Judge("J4", 0.0225, 0.045, 0.09, 0.135, 0.18, 0.25, 0.5, 0.075, 1.00)
  const J5: Judge := Judge("J5", 0.0189, 0.0378, 0.0756, 0.1134, 0.18, 0.21, 0.42, 0.075, 0.84)
  const J6: Judge := Judge("J6", 0.01485, 0.0297, 0.0594, 0.0891, 0.18, 0.165, 0.33, 0.075, 0.66)
  const J7: Judge := Judge("J7", 0.01125, 0.0225, 0.045, 0.0675, 0.18, 0.125, 0.25, 0.075, 0.50)
  const J8: Judge := Judge("J8", 0.007425, 0.01485, 0.0297, 0.04455, 0.18, 0.0825, 0.25, 0.075, 0.33)
  const J9: Judge := Judge("J9", 0.0045, 0.009, 0.018, 0.027, 0.18, 0.05, 0.25, 0.075, 0.20)

  const Presets: seq<Judge> := [J1, J2, J3, J4, J5, J6, J7, J8, J9]

  /** Every preset has ascending windows; from J4 on the bad window is locked at 180 ms, and the
      presets get stricter from J1 to J9. */
  lemma PresetsWellFormed()
    ensures forall i :: 0 <= i < |Presets| ==> Presets[i].WindowsAscending()
    ensures forall i :: 3 <= i < |Presets| ==> Presets[i].badWindow == 0.18
    ensures forall i, k :: 0 <= i < k < |Presets| ==>
      Presets[k].marvelousWindow < Presets[i].marvelousWindow && Presets[k].timingScale < Presets[i].timingScale
    ensures J4.marvelousWindow == 0.0225 && J4.perfectWindow == 0.045 && J4.greatWindow == 0.09
         && J4.goodWindow == 0.135 && J4.badWindow == 0.18 && J4.timingScale == 1.0
  {
  }
}
