/** The older `Judge` of src/structs/judge.rs: no name, and a miss test written directly on the
    bad window instead of through `classify`. */
module StructsJudge {
  import opened Util
  import opened TapJudgements
  import Current = Judge

  datatype Judge = Judge(
    marvelousWindow: real,
    perfectWindow: real,
    greatWindow: real,
    goodWindow: real,
    badWindow: real,
    holdWindow: real,
    rollWindow: real,
    mineWindow: real,
    timingScale: real)
  {
    /** The window that bounds judgement `j` (Miss has none). */
    function WindowOf(j: TapJudgement): real
      requires j != Miss
    {
      match j
      case Marvelous => marvelousWindow
      case Perfect => perfectWindow
      case Great => greatWindow
      case Good => goodWindow
      case Bad => badWindow
    }

    predicate WindowsAscending()
    {
      0.0 <= marvelousWindow <= perfectWindow <= greatWindow <= goodWindow <= badWindow
    }

    /** `Judge::classify`: first window, Marvelous to Bad, that contains |deviation|
        (inclusively); Miss if none does. */
    function Classify(deviation: real): (r: TapJudgement)
      ensures r != Miss ==> Abs(deviation) <= WindowOf(r)
      ensures forall k :: k != Miss && Rank(k) < Rank(r) ==> WindowOf(k) < Abs(deviation)
      ensures r == Marvelous <==> Abs(deviation) <= marvelousWindow
      ensures r == Miss <==> (Abs(deviation) > marvelousWindow && Abs(deviation) > perfectWindow
        && Abs(deviation) > greatWindow && Abs(deviation) > goodWindow && Abs(deviation) > badWindow)
    {
      var d := Abs(deviation);
      if d <= marvelousWindow then Marvelous
      else if d <= perfectWindow then Perfect
      else if d <= greatWindow then Great
      else if d <= goodWindow then Good
      else if d <= badWindow then Bad
      else Miss
    }

    /** `Judge::is_miss`: beyond the bad window, on either side. */
    predicate IsMiss(deviation: real)
    {
      Abs(deviation) > badWindow
    }
  }

  /** With ascending windows the direct miss test agrees with `classify`. */
  lemma IsMissAgreesWithClassify(j: Judge, d: real)
    requires j.WindowsAscending()
    ensures j.IsMiss(d) <==> j.Classify(d) == Miss
  {
  }

  /** This `classify` is the one of src/judge.rs: on the same windows the two give the same
      judgement for every deviation. */
  lemma SameAsCurrentClassify(j: Judge, name: string, d: real)
    ensures j.Classify(d) == Current.Judge(name, j.marvelousWindow, j.perfectWindow, j.greatWindow,
      j.goodWindow, j.badWindow, j.holdWindow, j.rollWindow, j.mineWindow, j.timingScale).Classify(d)
  {
  }

  /** The nine presets, identical in their windows to those of src/judge.rs. */
  const J1: Judge := Judge(0.03375, 0.0675, 0.135, 0.2025, 0.27, 0.375, 0.75, 0.075, 1.50)
  const J2: Judge := Judge(0.029925, 0.05985, 0.1197, 0.17955, 0.2394, 0.3325, 0.665, 0.075, 1.33)
  const J3: Judge := Judge(0.0261, 0.0522, 0.1044, 0.1566, 0.2088, 0.29, 0.58, 0.075, 1.16)
  const J4: Judge := Judge(0.0225, 0.045, 0.09, 0.135, 0.18, 0.25, 0.5, 0.075, 1.00)
  const J5: Judge := Judge(0.0189, 0.0378, 0.0756, 0.1134, 0.18, 0.21, 0.42, 0.075, 0.84)
  const J6: Judge := Judge(0.01485, 0.0297, 0.0594, 0.0891, 0.18, 0.165, 0.33, 0.075, 0.66)
  const J7: Judge := Judge(0.01125, 0.0225, 0.045, 0.0675, 0.18, 0.125, 0.25, 0.075, 0.50)
  const J8: Judge := Judge(0.007425, 0.01485, 0.0297, 0.04455, 0.18, 0.0825, 0.25, 0.075, 0.33)
  const J9: Judge := Judge(0.0045, 0.009, 0.018, 0.027, 0.18, 0.05, 0.25, 0.075, 0.20)

  const Presets: seq<Judge> := [J1, J2, J3, J4, J5, J6, J7, J8, J9]

  /** All presets have ascending windows, so on them `is_miss` and `classify` agree. */
  lemma PresetsAscending()
    ensures forall i :: 0 <= i < |Presets| ==> Presets[i].WindowsAscending()
    ensures forall i, d :: 0 <= i < |Presets| ==> (Presets[i].IsMiss(d) <==> Presets[i].Classify(d) == Miss)
  {
  }
}
