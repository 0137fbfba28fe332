/** The older revision of the value types, src/structs/mod.rs: case-sensitive difficulty
    parsing, a `Wifescore` that also rejects negative infinity, and hits judged by the judge of
    src/structs/judge.rs. The key rules and the `Hit` enum are the same as in the newer
    revision and are taken from `Structs`. */
module StructsLegacy {
  import opened Wrappers
  import Util
  import opened Floats
  import opened TapJudgements
  import Structs
  import StructsJudge

  // ---------------------------------------------------------------- Difficulty

  /** `Difficulty::from_short_string`: only the uppercase labels are accepted. */
  function FromShortString(s: string): Option<Structs.Difficulty>
  {
    if s == "BG" then Some(Structs.Beginner)
    else if s == "EZ" then Some(Structs.Easy)
    else if s == "NM" then Some(Structs.Medium)
    else if s == "HD" then Some(Structs.Hard)
    else if s == "IN" then Some(Structs.Challenge)
    else if s == "ED" then Some(Structs.Edit)
    else None
  }

  /** Parsing inverts `to_short_string` (which is unchanged between the revisions), and nothing
      but the exact label parses, so lowercase labels are rejected. */
  lemma ShortStringRoundTrip(d: Structs.Difficulty, s: string)
    ensures FromShortString(s) == Some(d) <==> s == Structs.ToShortString(d)
    ensures FromShortString(Structs.ToShortString(d)) == Some(d)
    ensures FromShortString("bg") == None && FromShortString("In") == None
  {
  }

  /** `Difficulty::from_long_string`: the capitalised names and aliases only. */
  function FromLongString(s: string): Option<Structs.Difficulty>
  {
    if s == "Beginner" || s == "Novice" then Some(Structs.Beginner)
    else if s == "Easy" then Some(Structs.Easy)
    else if s == "Medium" || s == "Normal" then Some(Structs.Medium)
    else if s == "Hard" then Some(Structs.Hard)
    else if s == "Challenge" || s == "Expert" || s == "Insane" then Some(Structs.Challenge)
    else if s == "Edit" then Some(Structs.Edit)
    else None
  }

  /** The older long parser agrees with the newer one on the capitalised spellings and rejects
      every other casing. */
  lemma LongStringExamples()
    ensures FromLongString("Novice") == Some(Structs.Beginner)
    ensures FromLongString("Insane") == Some(Structs.Challenge)
    ensures FromLongString("novice") == None && FromLongString("INSANE") == None
    ensures Structs.FromLongString("Novice") == FromLongString("Novice")
  {
    assert Util.Lower("Novice") == "novice";
  }

  // ---------------------------------------------------------------- Wifescore

  /** This revision guarantees a finite proportion of at most 1. */
  type Proportion = f: Float | f.Finite? && f.value <= 1.0 witness Finite(0.0)

  datatype Wifescore = Wifescore(proportion: Proportion)

  /** `Wifescore::from_proportion`: rejects both infinities, NaN and anything above 1.0. */
  function FromProportion(p: Float): (r: Option<Wifescore>)
    ensures r.Some? <==> p.Finite? && p.value <= 1.0
    ensures r.Some? ==> r.value.proportion == p
  {
    if p.PosInf? || p.NegInf? || p.NaN? || GreaterThan(p, 1.0) then None else Some(Wifescore(p))
  }

  /** `Wifescore::from_percent`. */
  function FromPercent(p: Float): (r: Option<Wifescore>)
    ensures r.Some? <==> p.Finite? && p.value <= 100.0
    ensures r.Some? ==> r.value.proportion == Finite(p.value / 100.0)
  {
    FromProportion(ScalePositive(p, 1.0 / 100.0))
  }

  /** `as_percent`: a finite value of at most 100, read back by `from_percent`. */
  function AsPercent(w: Wifescore): (r: Float)
    ensures r.Finite? && r.value <= 100.0
    ensures FromPercent(r) == Some(w)
  {
    ScalePositive(w.proportion, 100.0)
  }

  /** The newer revision accepts strictly more: negative infinity as well. Percentages round
      trip. */
  lemma FromProportionNarrower(p: Float, w: Wifescore)
    ensures FromProportion(p).Some? ==> Structs.FromProportion(p).Some?
    ensures FromProportion(NegInf).None? && Structs.FromProportion(NegInf).Some?
    ensures FromPercent(AsPercent(w)) == Some(w)
  {
  }

  /** `Ord::cmp` as written: `other` compared with itself. */
  function CmpAsWritten(self: Wifescore, other: Wifescore): Ordering
  {
    PartialCmp(other.proportion, other.proportion).value
  }

  /** As written, 0% and 100% compare Equal. */
  lemma CmpAsWrittenIsAlwaysEqual(a: Wifescore, b: Wifescore)
    ensures CmpAsWritten(a, b) == Equal
    ensures CmpAsWritten(Wifescore(Finite(0.0)), Wifescore(Finite(1.0))) == Equal
    ensures PartialCmp(Finite(0.0), Finite(1.0)) == Some(Less)
  {
  }

  /** The intended `Ord::cmp`: `self.partial_cmp(other)`. */
  function Cmp(self: Wifescore, other: Wifescore): Ordering
  {
    PartialCmp(self.proportion, other.proportion).value
  }

  /** The corrected comparison is the order of the proportions: a total order consistent with
      equality. */
  lemma CmpIsTotalOrder(a: Wifescore, b: Wifescore, c: Wifescore)
    ensures Cmp(a, b) == Less <==> a.proportion.value < b.proportion.value
    ensures Cmp(a, b) == Equal <==> a == b
    ensures Cmp(a, b) == Less <==> Cmp(b, a) == Greater
    ensures Cmp(a, b) == Less && Cmp(b, c) == Less ==> Cmp(a, c) == Less
  {
  }

  // ---------------------------------------------------------------- Hit

  /** `Hit::classify` against this revision's judge. */
  function Classify(hit: Structs.Hit, judge: StructsJudge.Judge): TapJudgement
  {
    match hit
    case Hit(d) => judge.Classify(d)
    case Miss => TapJudgement.Miss
  }

  /** `Hit::is_miss`: a real miss, or a deviation beyond the bad window. */
  predicate IsMiss(hit: Structs.Hit, judge: StructsJudge.Judge)
  {
    match hit
    case Hit(d) => judge.IsMiss(d)
    case Miss => true
  }

  /** With ascending windows `is_miss` is exactly "classifies as Miss". */
  lemma IsMissAgreesWithClassify(hit: Structs.Hit, judge: StructsJudge.Judge)
    requires judge.WindowsAscending()
    ensures IsMiss(hit, judge) <==> Classify(hit, judge) == TapJudgement.Miss
  {
    if hit.Hit? {
      StructsJudge.IsMissAgreesWithClassify(judge, hit.deviation);
    }
  }

  /** The documented examples of `is_miss`. */
  lemma IsMissExamples()
    ensures !IsMiss(Structs.Hit(-0.02), StructsJudge.J4)
    ensures IsMiss(Structs.Hit(0.20), StructsJudge.J4)
    ensures !IsMiss(Structs.Hit(0.20), StructsJudge.J1)
    ensures IsMiss(Structs.Hit.Miss, StructsJudge.J1)
  {
  }

  // ---------------------------------------------------------------- tap_judgements

  function ClassifyAll(hits: seq<Structs.Hit>, judge: StructsJudge.Judge): (r: seq<TapJudgement>)
    ensures |r| == |hits| && forall i :: 0 <= i < |hits| ==> r[i] == Classify(hits[i], judge)
  {
    seq(|hits|, i requires 0 <= i < |hits| => Classify(hits[i], judge))
  }

  /** `SimpleReplay::tap_judgements`: each counter holds the number of hits with its judgement,
      and the counters sum to the number of hits. */
  method TapJudgementsOf(hits: seq<Structs.Hit>, judge: StructsJudge.Judge) returns (judgements: TapJudgements)
    ensures judgements == Tally(ClassifyAll(hits, judge))
    ensures forall j :: judgements.Get(j) == multiset(ClassifyAll(hits, judge))[j]
    ensures judgements.Total() == |hits|
  {
    ghost var js := ClassifyAll(hits, judge);
    judgements := Zero;
    for i := 0 to |hits|
      invariant judgements == Tally(js[..i])
    {
      var j := Classify(hits[i], judge);
      assert js[..i + 1][..i] == js[..i];
      judgements := judgements.Set(j, judgements.Get(j) + 1);
    }
    assert js[..|hits|] == js;
    TallyCounts(js);
  }
}
