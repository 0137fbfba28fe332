/** The skillset-rating search of src/rating_calc.rs: a coarse-to-fine search for the lowest
    rating whose "power sum" stays below 2^(rating/10), over eleven halvings of the step.

    The two pieces of libm numerics, `erfc` and `2f32.powf`, are parameters of the model. Only
    the facts the search relies on are assumed about them (`Sound`): `erfc` is positive and at
    least 1 on non-positive arguments, and the power of two is positive. */
module RatingCalc {
  import opened Util

  /** The foreign numerics. `powerLevel(x)` stands for `2 / erfc(x) - 2`, the libm `erfc`
      computed in `f64` and narrowed to `f32`; `powf2(y)` stands for `2f32.powf(y)`. */
  datatype Numerics = Numerics(powerLevel: real -> real, powf2: real -> real)

  /** What the search needs of the numerics: erfc(x) >= 1 for x <= 0, so the power level of a
      score at or below the candidate rating is not positive; and powers of two are positive. */
  ghost predicate Sound(num: Numerics)
  {
    (forall x :: x <= 0.0 ==> num.powerLevel(x) <= 0.0)
    && (forall y :: num.powf2(y) > 0.0)
  }

  /** The power level of one score at the candidate rating. */
  function PowerTerm(num: Numerics, ssr: real, rating: real, delta: real): real
  {
    num.powerLevel(delta * (ssr - rating))
  }

  /** Sum of the strictly positive power levels, left to right (`filter(x > 0).sum()`). */
  function PowerSum(num: Numerics, ssrs: seq<real>, rating: real, delta: real): (r: real)
    ensures r >= 0.0
    ensures forall i :: 0 <= i < |ssrs| ==> PowerTerm(num, ssrs[i], rating, delta) <= r
  {
    if ssrs == [] then 0.0
    else
      var t := PowerTerm(num, ssrs[|ssrs| - 1], rating, delta);
      PowerSum(num, ssrs[..|ssrs| - 1], rating, delta) + (if t > 0.0 then t else 0.0)
  }

  /** `is_rating_okay`: the power sum stays strictly below 2^(rating * 0.1). So in an okay
      rating no single score's power level reaches that bound, and the bound is positive. */
  predicate IsRatingOkay(num: Numerics, rating: real, ssrs: seq<real>, delta: real)
    ensures IsRatingOkay(num, rating, ssrs, delta) ==> num.powf2(rating * 0.1) > 0.0
    ensures IsRatingOkay(num, rating, ssrs, delta) ==> forall i :: 0 <= i < |ssrs| ==> PowerTerm(num, ssrs[i], rating, delta) < num.powf2(rating * 0.1)
  {
    PowerSum(num, ssrs, rating, delta) < num.powf2(rating * 0.1)
  }

  /** A score at or below the candidate rating has no positive power level, so it does not count. */
  lemma {:induction false} PowerSumOfDominated(num: Numerics, ssrs: seq<real>, rating: real, delta: real)
    requires Sound(num) && delta > 0.0
    requires forall i :: 0 <= i < |ssrs| ==> ssrs[i] <= rating
    ensures PowerSum(num, ssrs, rating, delta) == 0.0
  {
    if ssrs != [] {
      var ssr := ssrs[|ssrs| - 1];
      assert delta * (ssr - rating) <= 0.0 by {
        assert ssr - rating <= 0.0;
      }
      PowerSumOfDominated(num, ssrs[..|ssrs| - 1], rating, delta);
    }
  }

  /** A rating at least as high as every score is okay. */
  lemma OkayAboveAllScores(num: Numerics, ssrs: seq<real>, rating: real, delta: real)
    requires Sound(num) && delta > 0.0
    requires forall i :: 0 <= i < |ssrs| ==> ssrs[i] <= rating
    ensures IsRatingOkay(num, rating, ssrs, delta)
  {
    PowerSumOfDominated(num, ssrs, rating, delta);
  }

  /** A rating that is not okay lies strictly below some score. */
  lemma NotOkayBelowSomeScore(num: Numerics, ssrs: seq<real>, rating: real, delta: real)
    requires Sound(num) && delta > 0.0
    requires !IsRatingOkay(num, rating, ssrs, delta)
    ensures exists i :: 0 <= i < |ssrs| && rating < ssrs[i]
  {
    if forall i :: 0 <= i < |ssrs| ==> ssrs[i] <= rating {
      OkayAboveAllScores(num, ssrs, rating, delta);
    }
  }

  /** The rating from which on everything is okay: the largest score, and at least 0. */
  function Bound(ssrs: seq<real>): (r: real)
    ensures r >= 0.0 && forall i :: 0 <= i < |ssrs| ==> ssrs[i] <= r
  {
    if ssrs == [] then 0.0 else Max(0.0, MaxOf(ssrs))
  }

  /** `is_rating_okay` for fixed scores and delta, as a predicate on the rating. */
  function Okay(num: Numerics, ssrs: seq<real>, delta: real): real -> bool
  {
    rating => IsRatingOkay(num, rating, ssrs, delta)
  }

  /** Every rating from `bound` on is okay. */
  ghost predicate OkayFrom(okay: real -> bool, bound: real)
  {
    forall rating :: rating >= bound ==> okay(rating)
  }

  /** The real `is_rating_okay` is okay from the largest score on (and from 0 on). */
  lemma OkayFromBound(num: Numerics, ssrs: seq<real>, delta: real)
    requires Sound(num) && delta > 0.0
    ensures OkayFrom(Okay(num, ssrs, delta), Bound(ssrs))
  {
    forall rating | rating >= Bound(ssrs)
      ensures Okay(num, ssrs, delta)(rating)
    {
      OkayAboveAllScores(num, ssrs, rating, delta);
    }
  }

  lemma ProductZero(a: real, b: real)
    requires b > 0.0 && a * b == 0.0
    ensures a == 0.0
  {
  }

  lemma FloorStep(d: real, res: real)
    requires res > 0.0 && d > res
    ensures (d / res).Floor >= 1
    ensures ((d - res) / res).Floor == (d / res).Floor - 1
  {
    var q := d / res;
    var q2 := (d - res) / res;
    assert q * res == d;
    assert q2 * res == d - res;
    assert (q - 1.0 - q2) * res == 0.0;
    ProductZero(q - 1.0 - q2, res);
    assert q > 1.0 by {
      assert (q - 1.0) * res > 0.0 by {
        assert (q - 1.0) * res == d - res;
      }
    }
  }

  /** The inner `while`: step `rating` by `res` until `rating + res` is okay. The result is at
      least the start, okay one step higher, and either the start itself or not okay (so below
      `bound`). It terminates because everything from `bound` on is okay. */
  function FindOkay(okay: real -> bool, bound: real, rating: real, res: real): (r: real)
    requires OkayFrom(okay, bound) && res > 0.0
    ensures r >= rating
    ensures okay(r + res)
    ensures r == rating || (!okay(r) && r < bound)
    decreases ((bound - rating) / res).Floor
  {
    if okay(rating + res) then rating
    else
      FloorStep(bound - rating, res);
      FindOkay(okay, bound, rating + res, res)
  }

  /** `num_iters` and the starting `resolution` of `calc_rating`. */
  const NumIters: nat := 11
  const StartResolution: real := 10.24

  /** The step used in round `i`: halved after every round. */
  function Resolution(i: nat): (r: real)
    ensures r > 0.0
  {
    if i == 0 then StartResolution else Resolution(i - 1) / 2.0
  }

  /** After the eleven rounds the step is 10.24 / 2^11 = 0.005, so the final bias is 0.01. */
  lemma FinalResolution()
    ensures Resolution(NumIters) == 0.005
    ensures Resolution(NumIters - 1) == 2.0 * Resolution(NumIters)
  {
  }

  /** The outer loop from round `i` on: each round searches with its own step and hands the
      rating it found to the next round. */
  function Rounds(okay: real -> bool, bound: real, rating: real, i: nat): real
    requires OkayFrom(okay, bound) && i <= NumIters
    decreases NumIters - i
  {
    if i == NumIters then rating
    else Rounds(okay, bound, FindOkay(okay, bound, rating, Resolution(i)), i + 1)
  }

  /** The rounds never lower the rating, and they end on the start rating or on one that is not
      okay and below `bound`. */
  lemma {:induction false} RoundsLowest(okay: real -> bool, bound: real, rating: real, i: nat)
    requires OkayFrom(okay, bound) && i <= NumIters
    ensures var r := Rounds(okay, bound, rating, i);
      r >= rating && (r == rating || (!okay(r) && r < bound))
    decreases NumIters - i
  {
    if i < NumIters {
      RoundsLowest(okay, bound, FindOkay(okay, bound, rating, Resolution(i)), i + 1);
    }
  }

  /** Whatever round it starts from, the search ends on a rating that becomes okay two final
      steps higher: the last round searched with step 0.01 = 2 * 0.005. */
  lemma {:induction false} RoundsEndBelowOkay(okay: real -> bool, bound: real, rating: real, i: nat)
    requires OkayFrom(okay, bound) && i < NumIters
    ensures okay(Rounds(okay, bound, rating, i) + Resolution(NumIters) * 2.0)
    decreases NumIters - i
  {
    var next := FindOkay(okay, bound, rating, Resolution(i));
    if i == NumIters - 1 {
      FinalResolution();
    } else {
      RoundsEndBelowOkay(okay, bound, next, i + 1);
    }
  }

  /** `rating` just before the final multiplication: the search from 0 plus `2 * resolution`.
      It is okay, it is the lowest okay value on the final 0.01 grid (one grid step lower is
      either zero or not okay), and it lies between 0.01 and 0.01 above `max(bound, 0)`. */
  function PreMultiplier(okay: real -> bool, bound: real): (r: real)
    requires OkayFrom(okay, bound)
    ensures okay(r)
    ensures r == 0.01 || !okay(r - 0.01)
    ensures 0.01 <= r <= Max(bound, 0.0) + 0.01
  {
    RoundsLowest(okay, bound, 0.0, 0);
    RoundsEndBelowOkay(okay, bound, 0.0, 0);
    FinalResolution();
    Rounds(okay, bound, 0.0, 0) + Resolution(NumIters) * 2.0
  }

  /** When `okay` is monotone (a higher rating is never less okay, as for `is_rating_okay` with
      sound numerics), the search finds the lowest okay rating to within 0.01: every rating at
      least 0.01 below the result is not okay, unless the result is the least the search from
      0 can give. */
  lemma PreMultiplierIsLowest(okay: real -> bool, bound: real)
    requires OkayFrom(okay, bound)
    requires forall x, y :: x <= y && okay(x) ==> okay(y)
    ensures var r := PreMultiplier(okay, bound);
      okay(r) && (r == 0.01 || forall x :: x <= r - 0.01 ==> !okay(x))
  {
    var r := PreMultiplier(okay, bound);
    if r != 0.01 {
      forall x | x <= r - 0.01
        ensures !okay(x)
      {
        assert x <= r - 0.01 && !okay(r - 0.01);
      }
    }
  }

  /** With every rating okay the search never steps, and only the bias of two final steps
      remains. */
  lemma AllOkay(okay: real -> bool, bound: real)
    requires forall x :: okay(x)
    ensures OkayFrom(okay, bound) && PreMultiplier(okay, bound) == 0.01
  {
    var p := PreMultiplier(okay, bound);
    assert okay(p - 0.01);
  }

  /** The rating `calc_rating` finds before the final multiplication: okay, and between 0.01
      and 0.01 above the largest score. */
  function Unscaled(num: Numerics, ssrs: seq<real>, delta: real): (p: real)
    requires Sound(num) && delta > 0.0
    ensures IsRatingOkay(num, p, ssrs, delta)
    ensures 0.01 <= p <= Bound(ssrs) + 0.01
  {
    OkayFromBound(num, ssrs, delta);
    PreMultiplier(Okay(num, ssrs, delta), Bound(ssrs))
  }

  /** The unscaled rating is the search over `is_rating_okay`, bounded by the largest score. */
  lemma UnscaledIsSearch(num: Numerics, ssrs: seq<real>, delta: real)
    requires Sound(num) && delta > 0.0
    ensures OkayFrom(Okay(num, ssrs, delta), Bound(ssrs))
    ensures Unscaled(num, ssrs, delta) == PreMultiplier(Okay(num, ssrs, delta), Bound(ssrs))
  {
    OkayFromBound(num, ssrs, delta);
  }

  /** `calc_rating` as a value: the unscaled rating times `final_multiplier`. */
  function CalcRating(num: Numerics, ssrs: seq<real>, finalMultiplier: real, delta: real): real
    requires Sound(num) && delta > 0.0
  {
    Scale(Unscaled(num, ssrs, delta), finalMultiplier)
  }

  /** The final multiplication, named so that both sides of `CalcRatingLoop`'s contract share it. */
  function Scale(rating: real, multiplier: real): real
  {
    rating * multiplier
  }

  /** One step of the inner loop: a rating whose next step is not okay searches on from there,
      and the distance to `bound`, counted in steps, shrinks by one and stays non-negative. */
  lemma FindOkayStep(okay: real -> bool, bound: real, rating: real, res: real)
    requires OkayFrom(okay, bound) && res > 0.0 && !okay(rating + res)
    ensures FindOkay(okay, bound, rating, res) == FindOkay(okay, bound, rating + res, res)
    ensures 0 <= ((bound - (rating + res)) / res).Floor < ((bound - rating) / res).Floor
  {
    FloorStep(bound - rating, res);
    assert bound - rating - res == bound - (rating + res);
  }

  /** The inner loop stops on a rating whose next step is okay: the search returns it. */
  lemma FindOkayDone(okay: real -> bool, bound: real, rating: real, res: real)
    requires OkayFrom(okay, bound) && res > 0.0 && okay(rating + res)
    ensures FindOkay(okay, bound, rating, res) == rating
  {
  }

  /** One round of the outer loop: the rounds from `i` are the rounds from `i + 1` after the
      search of round `i`. */
  lemma RoundStep(okay: real -> bool, bound: real, rating: real, i: nat)
    requires OkayFrom(okay, bound) && i < NumIters
    ensures Rounds(okay, bound, rating, i)
      == Rounds(okay, bound, FindOkay(okay, bound, rating, Resolution(i)), i + 1)
  {
  }

  /** The inner `while` of `calc_rating`: step by `res` while the next rating is not okay. */
  method StepUntilOkay(okay: real -> bool, ghost bound: real, start: real, res: real)
    returns (rating: real)
    requires OkayFrom(okay, bound) && res > 0.0
    ensures rating == FindOkay(okay, bound, start, res)
  {
    rating := start;
    while !okay(rating + res)
      invariant FindOkay(okay, bound, rating, res) == FindOkay(okay, bound, start, res)
      decreases ((bound - rating) / res).Floor
    {
      FindOkayStep(okay, bound, rating, res);
      rating := rating + res;
    }
    FindOkayDone(okay, bound, rating, res);
  }

  /** The outer loop of `calc_rating`: eleven rounds, halving the step after each round, then a
      bias of two final steps. */
  method Search(okay: real -> bool, ghost bound: real) returns (rating: real)
    requires OkayFrom(okay, bound)
    ensures rating == PreMultiplier(okay, bound)
  {
    rating := 0.0;
    var resolution := StartResolution;
    for i := 0 to NumIters
      invariant resolution == Resolution(i)
      invariant Rounds(okay, bound, rating, i) == Rounds(okay, bound, 0.0, 0)
    {
      RoundStep(okay, bound, rating, i);
      rating := StepUntilOkay(okay, bound, rating, resolution);
      resolution := resolution / 2.0;
    }
    rating := rating + resolution * 2.0;
  }

  /** `calc_rating`: the search over `is_rating_okay`, times the final multiplier. */
  method CalcRatingLoop(num: Numerics, ssrs: seq<real>, finalMultiplier: real, deltaMultiplier: real)
    returns (r: real)
    requires Sound(num) && deltaMultiplier > 0.0
    ensures r == CalcRating(num, ssrs, finalMultiplier, deltaMultiplier)
  {
    UnscaledIsSearch(num, ssrs, deltaMultiplier);
    var rating := Search(Okay(num, ssrs, deltaMultiplier), Bound(ssrs));
    r := Scale(rating, finalMultiplier);
  }

  /** `calculate_player_skillset_rating_pre_070`: (final, delta) = (1.04, 0.1). */
  function PlayerSkillsetRatingPre070(num: Numerics, ssrs: seq<real>): (r: real)
    requires Sound(num)
    ensures r == Unscaled(num, ssrs, 0.1) * 1.04
    ensures 0.01 * 1.04 <= r <= (Bound(ssrs) + 0.01) * 1.04
  {
    CalcRating(num, ssrs, 1.04, 0.1)
  }

  /** `calculate_player_overall`, over the seven skillsets: (final, delta) = (1.125, 0.1). */
  function PlayerOverall(num: Numerics, skillsets: seq<real>): (r: real)
    requires Sound(num) && |skillsets| == 7
    ensures r == Unscaled(num, skillsets, 0.1) * 1.125
    ensures 0.01 * 1.125 <= r <= (Bound(skillsets) + 0.01) * 1.125
  {
    CalcRating(num, skillsets, 1.125, 0.1)
  }

  /** `calculate_score_overall`, over the seven skillsets: (final, delta) = (1.11, 0.25). */
  function ScoreOverall(num: Numerics, skillsets: seq<real>): (r: real)
    requires Sound(num) && |skillsets| == 7
    ensures r == Unscaled(num, skillsets, 0.25) * 1.11
    ensures 0.01 * 1.11 <= r <= (Bound(skillsets) + 0.01) * 1.11
  {
    CalcRating(num, skillsets, 1.11, 0.25)
  }

  /** `calculate_player_skillset_rating`: (final, delta) = (1.05, 0.1). */
  function PlayerSkillsetRating(num: Numerics, ssrs: seq<real>): (r: real)
    requires Sound(num)
    ensures r == Unscaled(num, ssrs, 0.1) * 1.05
    ensures 0.01 * 1.05 <= r <= (Bound(ssrs) + 0.01) * 1.05
  {
    CalcRating(num, ssrs, 1.05, 0.1)
  }

  /** With no scores every rating is okay, so the search never steps and the unscaled result is
      the bare bias of 0.01. */
  lemma NoScores(num: Numerics, delta: real)
    requires Sound(num) && delta > 0.0
    ensures Unscaled(num, [], delta) == 0.01
  {
    var okay := Okay(num, [], delta);
    forall x
      ensures okay(x)
    {
      assert PowerSum(num, [], x, delta) == 0.0;
    }
    AllOkay(okay, Bound([]));
  }
}
