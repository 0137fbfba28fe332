# Etterna scoring and rating core, modelled in Dafny

This project models the scoring and rating layer of `etterna-base`, a Rust toolkit for the rhythm
game Etterna. It covers the value types and the algorithms built on them:

- the timing windows that turn a tap deviation into a judgement (`Judge`, in both revisions of
  the crate);
- the value types: difficulties, wifescores and grades, note rows and snaps, chart rates and
  file sizes;
- the two skillset records, with their lookups, conversions and overall ratings;
- the player-rating search of `rating_calc` and the rating timeline of `SkillTimeline`;
- the fastest-note-subset and fastest-combo searches;
- the Wife scoring curves and the naive rescorer;
- the tap-pattern parser, the replay-file parser and the BPM timing conversion.

Pure Rust code is modelled as datatypes, functions and lemmas. Code that loops or updates state
in place is modelled as methods with loop invariants. Each method is proved equal to a
specification function, and the properties the crate promises are proved about that function.

Floating-point numbers are modelled as mathematical reals. Where the code branches on NaN or an
infinity, the model uses a four-case `Float` (`Finite`, `PosInf`, `NegInf`, `NaN`). Parsers that
the crate takes from the standard library, and curves passed in through traits, are
function-typed parameters.

## Model

| member | source | states |
|---|---|---|
| TapJudgements.Rank | src/structs.rs:364-371 | the six judgements in declaration order, best (Marvelous) to worst (Miss), get six distinct ranks below 6 |
| TapJudgements.RankInjective | src/structs.rs:364-371 | two judgements have the same rank exactly when they are the same judgement |
| TapJudgements.TapJudgements.Set | src/structs.rs:121-132 | storing through `IndexMut` changes the counter of the indexed judgement to the new value and leaves the other five counters as they were |
| TapJudgements.IncrementOnlyTouchesIndex | src/structs.rs:108-132 | `judgements[j] += 1` moves only the counter of `j`, so the total grows by exactly one |
| TapJudgements.TallyCounts | src/structs.rs:338-344 | counting judgements one `+= 1` at a time from the default leaves each counter equal to the number of its judgements, and the counters sum to the number counted |
| TapJudgements.Tally | src/structs.rs:338-344 | the counters after one `+= 1` per judgement from the default, whose counts `TallyCounts` states |
| Judge.Judge.Classify | src/judge.rs:25-41 | the result is the first judgement from Marvelous to Bad whose window contains the absolute deviation, with inclusive windows; every better judgement's window is smaller than the deviation; the result is Miss when no window contains it |
| Judge.ClassifyMonotone | src/judge.rs:25-41 | `classify` depends only on the absolute deviation, and a larger deviation never gets a better judgement |
| Judge.BadWindowIsInclusive | src/judge.rs:36-39 | a deviation of exactly the bad window, early or late, is a Bad and not a Miss |
| Judge.PredicatesPartition | src/judge.rs:48-76 | with ascending windows, each `is_*` predicate holds exactly on its band of absolute deviation, and the six bands cover every deviation |
| Judge.Judge.IsCb | src/judge.rs:43-46 | as written: the signed deviation is at most the great window (see Findings) |
| Judge.Judge.IsMarv | src/judge.rs:48-51 | `classify` gives Marvelous |
| Judge.Judge.IsPerf | src/judge.rs:53-56 | `classify` gives Perfect |
| Judge.Judge.IsGreat | src/judge.rs:58-61 | `classify` gives Great |
| Judge.Judge.IsGood | src/judge.rs:63-66 | `classify` gives Good |
| Judge.Judge.IsBad | src/judge.rs:68-71 | `classify` gives Bad |
| Judge.Judge.IsMiss | src/judge.rs:73-76 | `classify` gives Miss |
| Judge.IsCbIsInverted | src/judge.rs:43-46 | as written, `is_cb` holds for a Marvelous hit and for a Miss a second early, and fails for a Good (see Findings) |
| Judge.ComboBreakerIsWorseThanGreat | src/judge.rs:43-46 | the corrected combo-breaker test holds exactly when the judgement is worse than Great, and is the same for early and late hits |
| Judge.Judge.IsComboBreaker | src/judge.rs:43-45 | the corrected `is_cb`: a hit breaks the combo exactly when it lies beyond the great window, early or late; for late hits it is the negation of `is_cb` as written |
| Judge.PresetsWellFormed | src/judge.rs:80-210 | all nine presets have ascending windows; from J4 on the bad window is 180 ms; marvelous windows and timing scales strictly decrease from J1 to J9; J4 has the documented windows |
| StructsJudge.Judge.Classify | src/structs/judge.rs:24-40 | the result is the first judgement from Marvelous to Bad whose window contains the absolute deviation, with inclusive windows: the result's window contains it and every better judgement's window is smaller than it; Marvelous exactly within the marvelous window; Miss exactly beyond all five windows |
| StructsJudge.SameAsCurrentClassify | src/structs/judge.rs:24-40 | on the same windows this revision's `classify` gives the same judgement as the one of src/judge.rs for every deviation |
| StructsJudge.Judge.IsMiss | src/structs/judge.rs:42-45 | `is_miss` holds exactly when the absolute deviation is beyond the bad window |
| StructsJudge.IsMissAgreesWithClassify | src/structs/judge.rs:43-45 | with ascending windows, the direct test `abs(deviation) > bad_window` holds exactly when `classify` gives Miss |
| StructsJudge.PresetsAscending | src/structs/judge.rs:49-167 | every preset of this revision has ascending windows, so on every preset `is_miss` and `classify` agree for every deviation |
| Structs.ShortStringRoundTrip | src/structs.rs:14-55 | `from_short_string` accepts a string exactly when its ASCII upper-case form is some difficulty's short string, and gives that difficulty; every difficulty's short string, in upper or lower case, parses back to it |
| Structs.ToShortString | src/structs.rs:44-54 | every difficulty's label is two upper-case letters |
| Structs.FromShortString | src/structs.rs:14-27 | the parser gives difficulty `d` exactly when the ASCII upper-case input is `d`'s label |
| Structs.FromLongString | src/structs.rs:29-43 | the parser gives difficulty `d` exactly when the ASCII lower-case input is one of `d`'s spellings, and nothing when it is nobody's |
| Structs.FromStr | src/structs.rs:67-73 | `from_str` succeeds exactly when `from_long_string` does, with the same difficulty, and otherwise gives `DifficultyParseError` |
| Structs.LongStringAliases | src/structs.rs:30-43 | the long-string parser ignores ASCII case and maps the alias "novice" to Beginner and "normal" to Medium |
| Structs.LongStringChallenge | src/structs.rs:30-43 | "insane" and "expert", in any case, both parse as Challenge |
| Structs.LongStringErrors | src/structs.rs:30-43 | a short string such as "IN" is not a long string, so `from_str` rejects it, while "Edit" parses |
| Structs.ThresholdsAscending | src/structs.rs:166-179 | the grade thresholds from C up to AAAAA are strictly ascending proportions |
| Structs.FromProportion | src/structs.rs:188-197 | `from_proportion` rejects exactly NaN, +infinity and finite values above 1 (negative values and -infinity pass), and keeps the proportion as given |
| Structs.FromPercent | src/structs.rs:181-186 | `from_percent` rejects exactly NaN, +infinity and finite values above 100, and stores the percentage divided by 100 |
| Structs.WifescoreRoundTrips | src/structs.rs:184-207 | every wifescore survives `as_proportion` then `from_proportion`, and `as_percent` then `from_percent` |
| Structs.AsPercent | src/structs.rs:199-202 | `as_percent` is never NaN or +infinity, at most 100, and `from_percent` reads it back to the same wifescore |
| Structs.AsProportion | src/structs.rs:204-207 | `as_proportion` is never NaN or +infinity, at most 1, and `from_proportion` reads it back to the same wifescore |
| Structs.CmpAsWrittenIsAlwaysEqual | src/structs.rs:217-223 | as written, `cmp` compares `other` with itself, so it answers Equal for every pair, even the C and AAAAA thresholds whose proportions are ordered Less (see Findings) |
| Structs.CmpIsTotalOrder | src/structs.rs:217-223 | the corrected `cmp` agrees with `partial_cmp` on the proportions, answers Equal only for equal scores, is antisymmetric and transitive |
| Structs.CmpAsWritten | src/structs.rs:217-223 | as written: `other` compared with itself, whose `expect` cannot fire on a non-NaN score (see Findings) |
| Structs.Cmp | src/structs.rs:217-223 | the corrected comparison, `self.partial_cmp(other)`, whose order properties `CmpIsTotalOrder` proves |
| Structs.KeyValidity | src/structs.rs:246-252 | a key is valid exactly when it is 41 characters long, starts with `S` (scorekey) or `X` (chartkey), and continues with 40 lower-case hexadecimal digits |
| Structs.IsValidKey | src/structs.rs:246-252 | `is_valid` as written: 41 bytes, the kind's initial letter, and no later character outside both 0-9 and a-f |
| Structs.NewKey | src/structs.rs:255-261 | `new` returns a key exactly when the string is valid, and the key then holds the string unchanged |
| Structs.Hit.Deviation | src/structs.rs:396-402 | a hit has a deviation and a miss has none |
| Structs.Hit.Classify | src/structs.rs:404-409 | a hit is classified by its deviation and a miss is Miss |
| Structs.Hit.IsWithinWindow | src/structs.rs:411-418 | a hit is within a non-negative window when its absolute deviation is strictly below it; a miss never is |
| Structs.Hit.IsCb | src/structs.rs:420-425 | a hit defers to the judge's `is_cb`; a miss is not a combo breaker here |
| Structs.Hit.IsMarv | src/structs.rs:427-432 | a hit defers to the judge's `is_marv`; a miss is false |
| Structs.Hit.IsPerf | src/structs.rs:434-439 | a hit defers to the judge's `is_perf`; a miss is false |
| Structs.Hit.IsGreat | src/structs.rs:441-446 | a hit defers to the judge's `is_great`; a miss is false |
| Structs.Hit.IsGood | src/structs.rs:448-453 | a hit defers to the judge's `is_good`; a miss is false |
| Structs.Hit.IsBad | src/structs.rs:455-460 | a hit defers to the judge's `is_bad`; a miss is false |
| Structs.Hit.IsConsideredMiss | src/structs.rs:476-481 | a hit defers to the judge's `is_miss`; a miss is always considered missed |
| Structs.Hit.WasMissed | src/structs.rs:494-499 | true exactly for a real miss |
| Structs.HitPredicates | src/structs.rs:404-499 | a hit is considered a miss exactly when it classifies as Miss; a real miss is in no window and satisfies none of the positive predicates; `is_within_window` is the strict test on the absolute deviation; `is_marv` is Marvelous classification |
| Structs.ConsideredMissExamples | src/structs.rs:466-499 | the documented examples: a 20 ms early hit is not a miss on J4, a 200 ms hit is a miss on J4 but not on J1, and only the real miss was missed |
| Structs.ClassifyAll | src/structs.rs:339-345 | one judgement per hit, in order, each the classification of that hit |
| Structs.TapJudgementsOf | src/structs.rs:339-345 | the loop's counters are the tally of the classified hits: each counter is the number of hits classified as that judgement, and the counters sum to the number of hits |
| Structs.NoteRow.LeadingZerosBelow | src/structs.rs:533-536 | the count of unset bits above the highest set bit below position `k`: those bits are all clear and the bit just under them is set |
| Structs.NoteRow.Width | src/structs.rs:526-536 | the width is one past the highest lane with a tap: no lane at or above it has a tap and the lane just below it does |
| Structs.NoTapsAbove | src/structs.rs:522-524 | a row whose bits are below 2^w has no tap in lane w or higher |
| Structs.NoteRow.TapAt | src/structs.rs:522-524 | lane `index` has a tap when bit `index` of the row is set, for indices a `u32` shift allows |
| Structs.WidthOfHighestTap | src/structs.rs:526-536 | the width is exactly w when lane w-1 has a tap and no higher lane does |
| Structs.WidthExamples | src/structs.rs:526-536 | the documented examples: 0b10101 has width 5, 0b11 width 2, the empty row width 0 |
| Structs.FromRow | src/structs.rs:638-659 | the snap is the coarsest one, from 4th to 192nd, whose note spacing divides the row; every coarser snap does not divide it |
| Structs.FromRowPeriodic | src/structs.rs:638-659 | the snap of a row repeats every measure of 192 rows |
| StructsLegacy.ShortStringRoundTrip | src/structs/mod.rs:26-39 | the older short-string parser accepts exactly the six upper-case short strings, each giving its difficulty, and rejects other cases such as "bg" and "In" |
| StructsLegacy.FromShortString | src/structs/mod.rs:29-39 | the older parser matches the six upper-case labels exactly, with no case folding |
| StructsLegacy.FromLongString | src/structs/mod.rs:45-55 | the older parser matches the capitalised names and aliases exactly, with no case folding |
| StructsLegacy.LongStringExamples | src/structs/mod.rs:41-55 | the older long-string parser needs the exact capitalisation: "Novice" and "Insane" parse, "novice" and "INSANE" do not, while the newer case-insensitive parser agrees on "Novice" |
| StructsLegacy.FromProportion | src/structs/mod.rs:154-163 | the older `from_proportion` accepts exactly the finite values up to 1, so it also rejects -infinity, and keeps the proportion as given |
| StructsLegacy.FromPercent | src/structs/mod.rs:147-152 | the older `from_percent` accepts exactly the finite values up to 100 and stores the percentage divided by 100 |
| StructsLegacy.FromProportionNarrower | src/structs/mod.rs:157-163 | every proportion the older revision accepts is accepted by the newer one, which accepts -infinity as well; `as_percent` then `from_percent` gives the score back |
| StructsLegacy.AsPercent | src/structs/mod.rs:165-168 | the older `as_percent` is finite and at most 100, and the older `from_percent` reads it back to the same wifescore |
| StructsLegacy.CmpAsWrittenIsAlwaysEqual | src/structs/mod.rs:182-186 | the older `cmp` has the same self-comparison: Equal for every pair, even 0 against 1 (see Findings) |
| StructsLegacy.CmpIsTotalOrder | src/structs/mod.rs:182-186 | the corrected `cmp` orders scores by their finite proportion, answers Equal only for equal scores, is antisymmetric and transitive |
| StructsLegacy.CmpAsWritten | src/structs/mod.rs:182-186 | as written: `other` compared with itself (see Findings) |
| StructsLegacy.IsMissAgreesWithClassify | src/structs/mod.rs:340-403 | with the older judge's ascending windows, `Hit::is_miss` holds exactly when `Hit::classify` gives Miss, real misses included |
| StructsLegacy.IsMiss | src/structs/mod.rs:398-403 | a hit defers to the older judge's `is_miss`; a real miss is always a miss |
| StructsLegacy.IsMissExamples | src/structs/mod.rs:390-397 | the documented examples of `is_miss` on J1 and J4 of the older judge |
| StructsLegacy.ClassifyAll | src/structs/mod.rs:301-309 | one judgement per hit, in order, each the older classification of that hit |
| StructsLegacy.TapJudgementsOf | src/structs/mod.rs:301-309 | the loop's counters are the tally of the classified hits, each counter counting its judgement, summing to the number of hits |
| Skillsets.List7 | src/skillsets.rs:202-236 | the list of the seven skillsets without overall has seven distinct entries |
| Skillsets.List8 | src/skillsets.rs:302-337 | the list of the eight skillsets starts with Overall, has eight distinct entries, and continues with the seven skillsets in the same order |
| Skillsets.ListsComplete | src/skillsets.rs:202-337 | every skillset is in its list |
| Skillsets.ConversionsRoundTrip | src/skillsets.rs:245-372 | `into_skillset8` is injective and `into_skillset7` undoes it; `into_skillset7` fails exactly on Overall |
| Skillsets.IntoSkillset8 | src/skillsets.rs:245-255 | each of the seven skillsets maps to its namesake among the eight |
| Skillsets.IntoSkillset7 | src/skillsets.rs:346-357 | Overall maps to None and every other skillset to its namesake among the seven |
| Skillsets.FromUserInputMatchesAliases | src/skillsets.rs:286-298 | for any case table that agrees with Unicode `to_lowercase` on ASCII, KELVIN SIGN and the rest, `Skillset8::from_user_input` finds a skillset exactly when the folded input (ASCII letters lowered, KELVIN SIGN read as `k`) is one of that skillset's spellings, and finds none exactly when it is nobody's |
| Skillsets.FromUserInput8 | src/skillsets.rs:286-298 | `from_user_input`: the match on the Unicode-lowercased input, with `char::to_lowercase` as a parameter |
| Skillsets.AliasesAscii | src/skillsets.rs:287-297 | every spelling in the match is ASCII |
| Skillsets.LookupMatchesAliases | src/skillsets.rs:287-297 | the match arms on the lower-cased string give each skillset exactly for its spellings, and nothing for any other string |
| Skillsets.FromUserInput7 | src/skillsets.rs:191-198 | `Skillset7::from_user_input` gives a skillset exactly when `Skillset8::from_user_input` gives its eight-valued counterpart |
| Skillsets.UserInputExamples | src/skillsets.rs:280-298 | the documented examples: "js", "Jacks" and "JACKSPEED" parse, "handstreams" does not; "JAC" followed by KELVIN SIGN is Jackspeed, since `to_lowercase` reads that sign as `k` |
| Skillsets.OverallIsNoSkillset7 | src/skillsets.rs:191-198 | "overall" is a `Skillset8` but not a `Skillset7` |
| Skillsets.Skillsets7.AsSeq | src/skillsets.rs:42-51 | the seven values in list order, as passed to the rating calculator |
| Skillsets.Skillsets7.Get | src/skillsets.rs:16-27 | `get` returns the field of the named skillset |
| Skillsets.Skillsets7.WithOverall | src/skillsets.rs:29-40 | the result has the given overall and keeps every other skillset |
| Skillsets.Skillsets7.MaxSkillset | src/skillsets.rs:79-86 | the chain of `max` calls gives a value no skillset exceeds and some skillset reaches |
| Skillsets.Skillsets7.MinSkillset | src/skillsets.rs:56-66 | a value no skillset is below and some skillset reaches (used to bound the pre-0.70 average) |
| Skillsets.Skillsets7.CalcPlayerOverall | src/skillsets.rs:42-54 | the skillsets are kept and the overall is the player-rating aggregate, which lies between 0.01 * 1.125 and (max(best skillset, 0) + 0.01) * 1.125 |
| Skillsets.Skillsets7.CalcPlayerOverallPre070 | src/skillsets.rs:56-66 | the skillsets are kept and the overall is their average: seven times it is their sum, and it lies between the weakest and the strongest skillset |
| Skillsets.Skillsets7.CalcSsrOverall | src/skillsets.rs:68-90 | the skillsets are kept and the overall is the larger of the score aggregate and the best skillset, so it is at least both |
| Skillsets.Skillsets7.CalcSsrOverallPre070 | src/skillsets.rs:92-103 | the skillsets are kept and the overall is the best skillset |
| Skillsets.Skillsets7.MaxSkillsetIsBound | src/skillsets.rs:79-86 | the best skillset, floored at 0, is the bound the rating calculator starts its search from |
| Skillsets.Generate7 | src/skillsets.rs:105-116 | each skillset holds the generator's value for it |
| Skillsets.Skillsets8.ToSkillsets7 | src/skillsets.rs:152-162 | each of the seven skillsets keeps its value and only overall is dropped |
| Skillsets.Generate8 | src/skillsets.rs:164-176 | each of the eight skillsets holds the generator's value for it |
| Skillsets.WithOverallRoundTrip | src/skillsets.rs:29-162 | dropping the overall after adding one gives the seven back, and re-adding the dropped overall gives the eight back |
| StructsSkillsets.ChartSkillsets.Ratings | src/structs/skillsets.rs:6-14 | the chart's seven fields as a `Skillsets7`, field by field |
| StructsSkillsets.ChartSkillsets.Overall | src/structs/skillsets.rs:37-56 | the chart overall is at least every skillset and the score aggregate, and is one of the two |
| StructsSkillsets.ChartSkillsets.OverallPre070 | src/structs/skillsets.rs:77-85 | the pre-0.70 chart overall is the best skillset |
| StructsSkillsets.ChartSkillsets.Get | src/lib.rs:51-66 | `get` of Overall is `overall()`, and of any other skillset its field |
| StructsSkillsets.ChartSkillsets.GetPre070 | src/lib.rs:67-86 | `get_pre_070` of Overall is `overall_pre_070()`, and of any other skillset its field |
| StructsSkillsets.ChartGettersDifferOnlyInOverall | src/lib.rs:51-86 | the two getters agree on every skillset except Overall |
| StructsSkillsets.ChartOverallAgreesWithSkillsets7 | src/structs/skillsets.rs:37-85 | the chart overall equals `calc_ssr_overall` of the same seven values, and the pre-0.70 one `calc_ssr_overall_pre_070` |
| StructsSkillsets.FennecFantasyPre070 | src/structs/skillsets.rs:58-76 | the documented example: the pre-0.70 overall of Fennec Fantasy - Friday Fahrenheit is 22.37 |
| StructsSkillsets.UserSkillsets.Ratings | src/structs/skillsets.rs:91-99 | the player's seven fields as a `Skillsets7`, field by field |
| StructsSkillsets.UserSkillsets.Overall | src/structs/skillsets.rs:121-131 | the player overall is the player-rating aggregate of the seven values, within its bounds |
| StructsSkillsets.UserSkillsets.OverallPre070 | src/structs/skillsets.rs:160-169 | seven times the pre-0.70 player overall is the sum of the skillsets, and it lies between the weakest and the strongest |
| StructsSkillsets.UserSkillsets.Get | src/lib.rs:51-66 | `get` of Overall is `overall()`, and of any other skillset its field |
| StructsSkillsets.UserSkillsets.GetPre070 | src/lib.rs:67-86 | `get_pre_070` of Overall is `overall_pre_070()`, and of any other skillset its field |
| StructsSkillsets.UserOverallAgreesWithSkillsets7 | src/structs/skillsets.rs:121-169 | the player overall equals `calc_player_overall` of the same seven values, and the pre-0.70 one `calc_player_overall_pre_070` |
| StructsSkillsets.UserPre070Example | src/structs/skillsets.rs:133-159 | the documented example: the pre-0.70 player overall is within 0.0001 of 27.5234 |
| RatingCalc.PowerSumOfDominated | src/rating_calc.rs:7-13 | scores at or below the candidate rating contribute nothing to the power sum, because `filter(x > 0)` drops their non-positive power levels |
| RatingCalc.PowerSum | src/rating_calc.rs:10-13 | the sum of the positive power levels is non-negative and at least every single score's power level |
| RatingCalc.IsRatingOkay | src/rating_calc.rs:7-16 | in an okay rating the bound 2^(rating·0.1) is positive and no single score's power level reaches it |
| RatingCalc.OkayAboveAllScores | src/rating_calc.rs:7-16 | a rating at least as high as every score is okay, since an empty power sum is below the positive power of two |
| RatingCalc.NotOkayBelowSomeScore | src/rating_calc.rs:7-16 | a rating that is not okay lies strictly below at least one score |
| RatingCalc.Bound | src/rating_calc.rs:7-16 | a non-negative rating at or above every score, from which on every rating is okay |
| RatingCalc.OkayFromBound | src/rating_calc.rs:7-16 | `is_rating_okay` holds for every rating from the bound upwards, so every inner loop stops |
| RatingCalc.FindOkay | src/rating_calc.rs:47-49 | the inner `while` ends on a rating no lower than where it started whose next step is okay, and it moved only through ratings that were not okay and below the bound |
| RatingCalc.FinalResolution | src/rating_calc.rs:38-52 | after eleven halvings of 10.24 the step is 0.005, and the last round searched with twice that |
| RatingCalc.RoundsLowest | src/rating_calc.rs:45-53 | the rounds never lower the rating, and they end on the start rating or on a rating that is not okay and below the bound |
| RatingCalc.RoundsEndBelowOkay | src/rating_calc.rs:45-55 | after the rounds, the rating two final steps higher is okay |
| RatingCalc.PreMultiplier | src/rating_calc.rs:40-55 | the search result before the final multiplier is okay; it is 0.01, or the rating 0.01 below it is not okay; it lies between 0.01 and max(bound, 0) + 0.01 |
| RatingCalc.PreMultiplierIsLowest | src/rating_calc.rs:19-21 | when higher ratings are never less okay, the result is the lowest okay rating to within 0.01: it is okay, and unless it is the least possible result 0.01, no rating 0.01 or more below it is okay |
| RatingCalc.AllOkay | src/rating_calc.rs:40-55 | when every rating is okay the search never steps and gives 0.01 |
| RatingCalc.Unscaled | src/rating_calc.rs:33-55 | the search result for a list of scores is an okay rating between 0.01 and the bound plus 0.01 |
| RatingCalc.UnscaledIsSearch | src/rating_calc.rs:33-55 | the search over `is_rating_okay` meets the conditions of the generic search and gives its result |
| RatingCalc.FindOkayStep | src/rating_calc.rs:47-49 | one step of the inner loop on a rating whose next step is not okay keeps the loop's outcome and strictly decreases the number of steps left to the bound |
| RatingCalc.FindOkayDone | src/rating_calc.rs:47 | the inner loop stops at once when the next step is okay |
| RatingCalc.RoundStep | src/rating_calc.rs:45-53 | one outer round is the inner search at the round's resolution followed by the remaining rounds |
| RatingCalc.StepUntilOkay | src/rating_calc.rs:47-49 | the imperative inner loop computes the inner search `FindOkay` |
| RatingCalc.Search | src/rating_calc.rs:40-55 | the imperative eleven-round loop with halving steps and the final bias computes `PreMultiplier` |
| RatingCalc.CalcRatingLoop | src/rating_calc.rs:33-58 | `calc_rating` is the search over `is_rating_okay` times the final multiplier |
| RatingCalc.PlayerSkillsetRatingPre070 | src/rating_calc.rs:63-67 | the pre-0.70 player skillset rating uses delta 0.1 and multiplier 1.04, and lies between 0.0104 and (bound + 0.01) * 1.04 |
| RatingCalc.PlayerOverall | src/rating_calc.rs:70-72 | the player overall uses delta 0.1 and multiplier 1.125, within the matching bounds |
| RatingCalc.ScoreOverall | src/rating_calc.rs:76-78 | the score overall uses delta 0.25 and multiplier 1.11, within the matching bounds |
| RatingCalc.PlayerSkillsetRating | src/rating_calc.rs:81-83 | the player skillset rating uses delta 0.1 and multiplier 1.05, within the matching bounds |
| RatingCalc.NoScores | src/rating_calc.rs:33-58 | with no scores every rating is okay and the unscaled rating is 0.01 |
| SkillTimeline.Keys | src/lib.rs:179 | the group identifiers of the scores, in input order |
| SkillTimeline.Column | src/lib.rs:180-186 | column c holds the c-th skillset of every score, in input order |
| SkillTimeline.DayIndicesArePartition | src/lib.rs:124-197 | the corrected boundaries split the scores into their maximal runs of equal group identifiers, in order: each run's scores all carry its identifier, the score after a run has another one, runs end strictly increasing, the last one at the number of scores |
| SkillTimeline.FullPrefixIsPartition | src/lib.rs:188-197 | the corrected boundaries of every non-empty prefix, with the final boundary appended, split that prefix into its maximal runs |
| SkillTimeline.NewGroup | src/lib.rs:188-193 | a score whose identifier differs from the previous one opens a new run after the existing ones |
| SkillTimeline.NewGroupEnds | src/lib.rs:188-193 | after opening a new run the run ends still increase and stay within the scores seen |
| SkillTimeline.NewGroupCovers | src/lib.rs:188-193 | the new run consists of the new score, carrying its identifier |
| SkillTimeline.ExtendLastGroup | src/lib.rs:188-193 | a score with the same identifier as the previous one extends the last run |
| SkillTimeline.ExtendLastGroupEnds | src/lib.rs:188-193 | after extending the last run the run ends still increase and stay within the scores seen |
| SkillTimeline.ExtendLastGroupCovers | src/lib.rs:188-193 | the extended run's scores all carry its identifier |
| SkillTimeline.PushedAsWrittenIsShifted | src/lib.rs:188-191 | the boundaries the loop pushes are the corrected ones, each one score longer |
| SkillTimeline.AsWrittenIsShifted | src/lib.rs:188-197 | the boundaries as written have the same identifiers as the corrected ones, and every length but the last is larger by one (see Findings) |
| SkillTimeline.AsWrittenBoundaries | src/lib.rs:176-197 | as written there is one boundary per run, non-empty exactly for non-empty input; the lengths stay within the input, grow strictly up to the second-to-last and end at the input length; but each length except the last already includes the first score of the next group |
| SkillTimeline.SingleScoreLastGroup | src/lib.rs:188-197 | with groups "a" and "b" of one score each, both boundaries as written cover both scores, where the corrected ones are 1 and 2 |
| SkillTimeline.IncreasingEnds | src/lib.rs:188-197 | when every group ends after it starts, group ends increase strictly along the list |
| SkillTimeline.CollectScores | src/lib.rs:164-197 | the first loop leaves each of the seven vectors holding its skillset column of all scores, and `day_indices` equal to the boundaries as written |
| SkillTimeline.PushScoreColumns | src/lib.rs:180-186 | pushing a score's seven values onto the columns of the scores before it gives the columns including it |
| SkillTimeline.PushScore | src/lib.rs:180-186 | each vector grows by the score's value for its skillset |
| SkillTimeline.MapEntry | src/lib.rs:200-212 | one boundary is mapped to its identifier and the ratings computed over the first `len` scores of every column |
| SkillTimeline.AppendChange | src/lib.rs:199-214 | appending the next mapped boundary keeps every entry equal to the ratings over its own prefix |
| SkillTimeline.Calculate | src/lib.rs:149-217 | one change per boundary as written, in order, each the identifier with the overall and skillset ratings of its prefix of the scores, with the 0.70 or pre-0.70 functions as `pre_070` selects |
| SkillTimeline.DocumentationExample | src/lib.rs:137-147 | the documented input gives two entries; as written the first covers four scores, the corrected boundaries three |
| NoteSubsets.SpanPositive | src/note_subsets.rs:16-23 | in sorted input whose minimum-length windows span positive time, every window at least as long spans positive time, so the division is defined |
| NoteSubsets.FindFastestNoteSubset | src/note_subsets.rs:17-54 | the nested loops compute the window search `FastestNoteSubset` over lengths `min..end_n` and every start, keeping a candidate on `>=` |
| NoteSubsets.FindFastestNoteSubsetWifePts | src/note_subsets.rs:66-120 | the weighted loops, with the running start sum, compute the same search where each window's speed is multiplied by the mean wife points of its notes |
| NoteSubsets.ScanLengthWifePts | src/note_subsets.rs:90-117 | one pass over the starts for length n, sliding the wife-point sum, advances the search from length n to length n+1 |
| NoteSubsets.VisitWindowWifePts | src/note_subsets.rs:96-108 | one start: the speed from the running sum is the window's weighted speed, kept when it is at least the best so far |
| NoteSubsets.BeforeNext | src/note_subsets.rs:35-51 | in the visiting order, the windows before the next start are those before the current one plus the current one |
| NoteSubsets.ExtendSlower | src/note_subsets.rs:42-49 | visiting a window no faster than the bound keeps every visited window within the bound |
| NoteSubsets.ExtendNegative | src/note_subsets.rs:25-42 | visiting a window of negative speed keeps every visited window below the dummy's 0 |
| NoteSubsets.ExtendStrictlySlower | src/note_subsets.rs:42-49 | visiting a window strictly slower than the best keeps every window after the best strictly slower |
| NoteSubsets.ScanStep | src/note_subsets.rs:36-49 | one visit keeps the search invariant: the best so far is the last visited window of the highest speed, or the dummy while no window reached speed 0 |
| NoteSubsets.PastTheEnd | src/note_subsets.rs:34-35 | lengths from `end_n` on contain no window the search visits |
| NoteSubsets.NextLength | src/note_subsets.rs:35-36 | after the last start of a length come the windows of the next length |
| NoteSubsets.Rebase | src/note_subsets.rs:35-36 | the search invariant carries over between two points that have visited the same windows |
| NoteSubsets.Advance | src/note_subsets.rs:35-51 | one step of the loops moves to the next start or the next length and keeps the search invariant, with the same final result |
| NoteSubsets.SameResult | src/note_subsets.rs:53 | equal results are equally the fastest |
| NoteSubsets.ScanFromIsBest | src/note_subsets.rs:35-53 | from any point where the invariant holds, the rest of the search ends with the fastest window |
| NoteSubsets.FastestNoteSubsetIsBest | src/note_subsets.rs:25-53 | the result is the dummy when no window reaches speed 0 (in particular when the input has at most `min` notes); otherwise it is a visited window, at least as fast as every window of a length in `min..=max`, and among equally fast ones the longest, then the latest |
| NoteSubsets.Ones | src/note_subsets.rs:204 | wife points that are all 1, one per note |
| NoteSubsets.OnesWindowValue | src/note_subsets.rs:97-99 | with all wife points 1 a window's weighted speed is its plain speed |
| NoteSubsets.OnesScanFrom | src/note_subsets.rs:90-117 | with all wife points 1 the weighted search proceeds exactly as the plain one from any point |
| NoteSubsets.OnesEquivalence | src/note_subsets.rs:197-212 | as the unit test asserts, the weighted search with all wife points 1 returns exactly what the plain search returns |
| NoteSubsets.SparseFixtures | src/note_subsets.rs:219-223 | the unit test: on `[0, 3, 5, 6, 8]` the search from length 2 finds a 2-note window of speed 2/3, and from length 3 a 3-note window of speed 0.6 |
| NoteSubsets.LongerWindowFixtures | src/note_subsets.rs:227-234 | the unit test: on `[0, 0, 1, 2, 3, 4, 4]` lengths 5..=6 find the 6-note window of speed 1.5, length 5 alone the 5-note window of speed 1.25 |
| NoteSubsets.FirstCb | src/note_subsets.rs:174-178 | the index of the first combo breaker from k on, or the end: no breaker lies before it |
| NoteSubsets.SliceWeights | src/note_subsets.rs:156-157 | the wife points of a combo are the slice of the score's wife points, present exactly when they are given |
| NoteSubsets.SliceSetup | src/note_subsets.rs:153-164 | a combo, as a slice of sorted notes, meets the conditions of the subset search |
| NoteSubsets.KeepFaster | src/note_subsets.rs:167-169 | the candidate replaces the best exactly when it is strictly faster; on a tie the best is kept; the result is at least as fast as both |
| NoteSubsets.AtRate | src/note_subsets.rs:181 | only the speed is scaled by the rate |
| NoteSubsets.TriggerComboEnd | src/note_subsets.rs:150-172 | the closure searches the open combo, if any, keeps the result when it is strictly faster, and always closes the combo |
| NoteSubsets.FindFastestComboInScore | src/note_subsets.rs:130-184 | as written, the result is the fastest window of the notes before the first combo breaker, scaled by the rate (see Findings) |
| NoteSubsets.FirstCbIsFirst | src/note_subsets.rs:174-178 | a breaker-free stretch from k that ends at a breaker or at the end ends at the first breaker |
| NoteSubsets.SliceWindowValue | src/note_subsets.rs:153-157 | a window has the same speed inside the combo slice as in the whole score |
| NoteSubsets.FastestBoundsEveryWindow | src/note_subsets.rs:17-54 | no window the search visits is faster than its result |
| NoteSubsets.ComboBestCovers | src/note_subsets.rs:153-165 | every window inside a combo is at most as fast as that combo's search result |
| NoteSubsets.CloseCombo | src/note_subsets.rs:150-172 | closing a combo extends the bound to every breaker-free window ending by the combo's end |
| NoteSubsets.ComboScanCovers | src/note_subsets.rs:122-184 | the corrected scan, restarting after each breaker, bounds every breaker-free window of the score and never lowers the best so far |
| NoteSubsets.FastestComboCoversEveryCombo | src/note_subsets.rs:122-129 | as documented, the corrected search is at least as fast as every window lying within one combo, and is never negative |
| NoteSubsets.ComboScanWithoutCbs | src/note_subsets.rs:174-179 | without breakers ahead, the corrected scan searches the open combo up to the end |
| NoteSubsets.AsWrittenAgreesWithoutCbs | src/note_subsets.rs:130-184 | with no combo breaker the code as written and the corrected search give the same result |
| NoteSubsets.ComboRestartFinding | src/note_subsets.rs:147-179 | with a breaker at the third of five notes, the code as written returns speed 0.1 from the first combo and misses the second combo's 1.0, which the corrected search finds |
| Wife.Wife2 | src/wife/wife2.rs:3-13 | Wife2's miss, hold-drop and mine-hit weights are its inner weights -8, -6 and -8 halved: -4, -3 and -4 |
| Wife.Apply | src/wife/mod.rs:24-39 | the deviation loop adds the miss weight for each deviation at or beyond the threshold and the curve otherwise, then adds both penalties and divides by the number of deviations, as the specification function states |
| Wife.MissCount | src/wife/mod.rs:26-33 | no more deviations count as misses than there are deviations |
| Wife.PointsSplit | src/wife/mod.rs:26-33 | every deviation contributes exactly one term: the points are the miss weight times the number of misses plus the curve over the remaining deviations |
| Wife.PenaltiesOnlyInNumerator | src/wife/mod.rs:35-38 | with at least one deviation, one more mine hit or hold drop moves the result by exactly that weight divided by the number of deviations |
| Wife.AllMisses | src/wife/mod.rs:24-39 | deviations that are all misses, without mines or holds, score exactly the miss weight |
| Wife.NoDeviations | src/wife/mod.rs:38 | with no deviations the division by zero gives no finite score |
| Wife.ThresholdExamples | src/wife/mod.rs:28 | the miss threshold 0.18 - f32::EPSILON is inclusive and applies to early and late deviations alike; 0.17 either way is not a miss |
| Wife.CountsAsMiss | src/wife/mod.rs:28 | a deviation is a miss exactly when it is at least 0.18 - f32::EPSILON early or late; every deviation of 0.18 or more is one, none within 0.1799 is |
| NaiveScorer.Deviation | src/rescore/naive_scorer.rs:43 | the deviation between a hit and a note is never negative |
| NaiveScorer.BestNoteIsNearest | src/rescore/naive_scorer.rs:42-57 | a hit claims a note exactly when some unclaimed note lies within the bad window; the claimed note is eligible, at least as near as every eligible note, and strictly nearer than every earlier one (ties go to the earliest) |
| NaiveScorer.NearestIsChosen | src/rescore/naive_scorer.rs:42-57 | conversely, the eligible note that is nearest and strictly nearer than every earlier eligible note is the one claimed |
| NaiveScorer.Initial | src/rescore/naive_scorer.rs:29-35 | before any hit every note keeps its time and is unclaimed |
| NaiveScorer.NearestUnclaimed | src/rescore/naive_scorer.rs:39-57 | the inner loop over the note array, starting from an infinite best deviation, finds the note the specification chooses, with its finite deviation |
| NaiveScorer.ClaimNearest | src/rescore/naive_scorer.rs:38-83 | one pass of the outer loop: the notes array and the sum after the pass are `ScoreHit` of the old ones |
| NaiveScorer.Evaluate | src/rescore/naive_scorer.rs:18-96 | for sorted hits, claiming notes in place in an array and then charging a miss for each unclaimed note gives the specified points over all notes of the lane |
| NaiveScorer.Unclaimed | src/rescore/naive_scorer.rs:89 | no more notes are unclaimed than there are notes |
| NaiveScorer.UnclaimedAfterClaim | src/rescore/naive_scorer.rs:82 | claiming an unclaimed note leaves exactly one fewer unclaimed |
| NaiveScorer.EachNoteClaimedOnce | src/rescore/naive_scorer.rs:38-90 | after all hits no two hits claimed the same note, a note is claimed exactly when some hit chose it, and the misses charged are the notes minus the hits that claimed a note |
| NaiveScorer.NoneUnclaimed | src/rescore/naive_scorer.rs:89 | no miss is charged exactly when every note is claimed |
| NaiveScorer.StrayHitsAfterAllClaimed | src/rescore/naive_scorer.rs:59-73 | once every note is claimed, any further hits are stray taps and change nothing |
| NaiveScorer.ExactHits | src/rescore/mod.rs:122-129 | hits exactly on every note, for any notes, score the curve at deviation 0 once per note with no miss |
| NaiveScorer.OneMissFixture | src/rescore/mod.rs:131-138 | hits at 0.9, 3.1 and 4.1 on notes 1 to 4 score three deviations of 0.1 and one miss, over four notes |
| NaiveScorer.NearTieFixture | src/rescore/mod.rs:140-147 | hits at 0.09, 0.10, 0.30 and 0.40 on notes 0.1 to 0.4 score deviations 0.01, 0.10, 0 and 0: the second hit finds its own note taken and claims the next one |
| NaiveScorer.EarlyHitsFixture | src/rescore/mod.rs:159-167 | four early hits each claim the earliest unclaimed note in the window, at deviations 0.04, 0.08, 0.12 and 0.16 |
| NaiveScorer.StrayHitsFixture | src/rescore/mod.rs:149-157 | four more hits exactly on the notes after all were claimed leave the result of the early-hits case unchanged |
| NaiveScorer.NoHits | src/rescore/mod.rs:169-176 | without hits every note is charged as a miss |
| Rescore.Rescore | src/rescore/mod.rs:30-59 | for four lanes with sorted notes and hits, summing the lane scores and judged counts, adding the penalties, dividing and validating gives the specified wifescore, or nothing where the validation fails |
| Rescore.JudgedIsNoteCount | src/rescore/mod.rs:42-50 | the divisor is the number of notes over all lanes: each note is judged exactly once |
| Rescore.PenaltiesOnlyInNumerator | src/rescore/mod.rs:52-55 | with notes present the quotient is finite, and one more mine hit or hold drop moves it by exactly that weight divided by the number of notes |
| Rescore.StrayTapsOnly | src/rescore/naive_scorer.rs:59-73 | a lane without notes scores nothing, whatever its hits |
| Rescore.NoNotes | src/rescore/mod.rs:55-58 | without notes in any lane the result is invalid exactly when the penalties are not negative, and otherwise is negative infinity, the D threshold |
| Rescore.ExactSum | src/rescore/mod.rs:42-50 | when every hit is exactly on its note, the lane totals are the curve at deviation 0 once per note |
| Rescore.PerfectPlay | src/rescore/mod.rs:30-59 | hitting every note exactly without mine hits or hold drops yields the curve's value at deviation 0, whatever the number of notes |
| Pattern.LeadWidth | src/pattern.rs:4-11 | a UTF-8 character has at most four bytes |
| Pattern.SuffixAfterAscii | src/pattern.rs:114 | cutting a valid string just after an ASCII byte such as `]` leaves a valid string |
| Pattern.FirstCharWidth | src/pattern.rs:4-11 | on a non-empty valid string the loop returns the first character boundary after the start, which is the width its lead byte announces, between 1 and 4 |
| Pattern.CharToLaneOf | src/pattern.rs:30-40 | a byte names a lane exactly when it is a digit 1 to 9 or one of `l`, `d`, `u`, `r` in either case, the lane is below 9, and only `0` is a gap |
| Pattern.AsSome | src/pattern.rs:21-26 | `as_some` gives the lane exactly for a lane character and nothing for a gap or an invalid character |
| Pattern.CharToLaneProperties | src/pattern.rs:139-145 | every digit names its lane, case does not matter, and `5`, `l`, `L`, `c`, `0` give lane 4, lane 0, lane 0, invalid and a gap |
| Pattern.Lanes | src/pattern.rs:110-112 | the lanes read inside brackets are all below 9 and no more than the bytes |
| Pattern.Find | src/pattern.rs:109 | the index found is the first occurrence of the byte, and none is found exactly when it does not occur |
| Pattern.ParseStep | src/pattern.rs:109-123 | every step of the parser consumes at least one byte |
| Pattern.ParseTaps | src/pattern.rs:99-127 | popping a bracketed row or one character off the front until the input is empty yields the rows the specification function states |
| Pattern.PopRows | src/pattern.rs:109-123 | one pass of the loop pushes the rows of one step and leaves a valid string |
| Pattern.ParsedLanesBelowNine | src/pattern.rs:99-127 | every lane the parser produces is below 9 |
| Pattern.ParseRender | src/pattern.rs:75-88 | parsing the bracketed notation of any rows of digit lanes gives those rows back, whatever follows |
| Pattern.DocExample | src/pattern.rs:93-96 | `[1234]04` parses to a four-lane jump, a gap and lane 3 |
| Pattern.MaxLane | src/pattern.rs:67 | the maximum of the lanes bounds each lane and is one of them |
| Pattern.Keymode | src/pattern.rs:66-73 | the keymode is absent exactly when the pattern has no lanes, and otherwise is at least 4, above every lane, and either 4 or one more than some lane |
| Pattern.KeymodeExamples | src/pattern.rs:57-65 | `1234` and `123` are 4k, `9` is 9k and the empty pattern has no keymode |
| Savegame.SplitOnce | src/savegame.rs:62 | the part before the first space holds no space, and with the space and the rest it makes up the line |
| Savegame.SplitN3 | src/savegame.rs:62 | splitting on spaces into at most three tokens: the first tokens hold no space and, rejoined with single spaces, the tokens give the line back |
| Savegame.DigitOf | src/savegame.rs:71-72 | subtracting `b'0'` from a byte wraps modulo 256 below `b'0'`, as a release build does |
| Savegame.ParseReplay | src/savegame.rs:48-87 | the loop over the lines gives the notes, mine hits and hold drops the specification function states, or the panic of the first line that panics |
| Savegame.ReplayFromAppend | src/savegame.rs:54-84 | the lines are processed one after another: the loop over a file is the loop over its first lines, then over the rest |
| Savegame.EmptyLineIgnored | src/savegame.rs:55 | an empty line, anywhere in the file, changes nothing |
| Savegame.HoldLines | src/savegame.rs:57-60 | no more lines start with `H` than there are lines |
| Savegame.ReplayFromCounts | src/savegame.rs:54-84 | from any data on, a file that does not panic keeps the notes already found in front, never loses a mine hit, and adds one hold drop per `H` line and at most one output per line |
| Savegame.ReplayCounts | src/savegame.rs:48-87 | a file that does not panic has one hold drop per `H` line and at most one note, mine hit or hold drop per line |
| Savegame.SplitN3Of | src/savegame.rs:62 | `tick deviation rest` splits into exactly those three tokens, whatever spaces the rest holds |
| Savegame.NoteLine | src/savegame.rs:72-83 | on a well-formed line, note type 1 or 2 (or a remainder shorter than three bytes) gives a note at the remainder's column, type 4 a mine hit, and types 5 and 7 nothing |
| Savegame.PanicLines | src/savegame.rs:64-72 | a parsable tick without a deviation, or a tick and deviation without a remainder, panics at an `expect`, and an empty remainder panics at its first byte |
| Savegame.UnparsableLine | src/savegame.rs:65-67 | a line whose tick or deviation does not parse is skipped |
| TimingInfo.Position | src/timing_info.rs:36 | the index found holds the first `=` of the pair, and none is found exactly when there is none |
| TimingInfo.Split | src/timing_info.rs:35 | splitting at commas gives at least one piece and no piece holds a comma |
| TimingInfo.JoinSplit | src/timing_info.rs:35 | joining the pieces with commas gives the string back |
| TimingInfo.ParsePair | src/timing_info.rs:36-47 | a pair fails with the missing-equals error exactly when it has no `=`, and a parsed change has no NaN |
| TimingInfo.ParsePairs | src/timing_info.rs:35-48 | on success there is one change per pair, each the parse of its pair, in order |
| TimingInfo.BelowOrder | src/timing_info.rs:51 | the float comparison used by the sort is a strict total order once NaN is excluded |
| TimingInfo.Insert | src/timing_info.rs:51 | inserting a change adds exactly that change to the collection |
| TimingInfo.SortByBeat | src/timing_info.rs:51 | the sort is a permutation of the changes |
| TimingInfo.SortedBySort | src/timing_info.rs:51 | on changes without NaN the sort orders the beats |
| TimingInfo.FromSmBpmString | src/timing_info.rs:31-60 | the parse loop, sort, beat-zero check and removal of the first change give the timing or the error the specification function states |
| TimingInfo.ParsePairOf | src/timing_info.rs:36-47 | one pass of the loop returns the change of its pair or the pair's error |
| TimingInfo.FromSmBpmStringOk | src/timing_info.rs:50-59 | a successful parse keeps every parsed change except the one at beat 0, whose bpm is the first bpm; the rest are in chronological order, free of NaN and not before beat 0 |
| TimingInfo.FromSmBpmStringNotZero | src/timing_info.rs:53-55 | when the parse fails after the pairs parsed, the error is the first-change-not-zero error naming the smallest parsed beat, which is not 0 |
| TimingInfo.Segment | src/timing_info.rs:74 | the segment of a beat is a number of changes |
| TimingInfo.SegmentPast | src/timing_info.rs:74 | on changes in order, a beat lies past a change exactly when the change's beat is at or before it |
| TimingInfo.TicksToSeconds | src/timing_info.rs:63-97 | for sorted ticks and a usable timing, every tick gets exactly one second, computed from the cursors of the segment its beat falls in |
| TimingInfo.ConvertTicksUpTo | src/timing_info.rs:73-81 | the closure converts exactly the ticks before the next change's beat, and after the last change it converts all remaining ticks |
| TimingInfo.OnChangeBeat | src/timing_info.rs:70-74 | a tick exactly on a change's beat is converted with the pace after the change, which gives the same second as before it |
| TimingInfo.CursorSecondsGrow | src/timing_info.rs:83-89 | with positive bpms the second at which each segment starts never decreases |
| TimingInfo.BeatsMonotone | src/timing_info.rs:63-97 | with positive bpms, a later beat never gets an earlier second |
| TimingInfo.SecondsMonotone | src/timing_info.rs:63-97 | with positive bpms, sorted ticks give non-decreasing seconds |
| TimingInfo.TwoTemposSeconds | src/timing_info.rs:63-97 | at 120 bpm switching to 60 bpm at beat 1, ticks 24, 48 and 96 are at 0.25, 0.5 and 1.5 seconds |
| Rates.Round | src/structs/rate.rs:19-26 | rounding gives the nearest integer, halves away from zero |
| Rates.SaturateU32 | src/structs/rate.rs:19-26 | the float-to-u32 cast keeps values in range and saturates at both ends |
| Rates.FromF32 | src/structs/rate.rs:19-26 | no rate exactly for an infinity or a finite value below 0 or above `u32::MAX as f32`; NaN gives rate 0 |
| Rates.FromString | src/structs/rate.rs:32-35 | a rate read from a string is the rate of the float it parses to |
| Rates.FromX20 | src/structs/rate.rs:41-43 | the rate holds the twentieths given |
| Rates.AsF32 | src/structs/rate.rs:49-53 | the value is non-negative and twenty times it is the number of twentieths |
| Rates.Default | src/structs/rate.rs:68-72 | the default rate is 1.0 |
| Rates.Add | src/structs/rate.rs:88-94 | the sum of two rates has the sum of their values |
| Rates.Sub | src/structs/rate.rs:96-102 | the difference of two rates has the difference of their values |
| Rates.RatePlace.AddAssign | src/structs/rate.rs:104-108 | `+=` leaves the place holding the sum of the old rate and the other |
| Rates.RatePlace.SubAssign | src/structs/rate.rs:110-114 | `-=` leaves the place holding the old rate minus the other |
| Rates.AddSubInverse | src/structs/rate.rs:88-102 | subtracting what was added gives the rate back, and addition commutes |
| Rates.AddOfX20 | src/structs/rate.rs:88-102 | adding and subtracting rates acts on their twentieths alone |
| Rates.OrderIsValueOrder | src/structs/rate.rs:8-13 | the derived order and equality of rates are those of their values |
| Rates.AsF32RoundTrip | src/structs/rate.rs:19-53 | every rate survives conversion to a float and back |
| Rates.FromF32Nearest | src/structs/rate.rs:19-26 | an in-range value gets a rate within half a twentieth of it, and values beyond the u32 range saturate |
| Rates.OnePointFour | src/structs/rate.rs:32-53 | "1.40" parses to 28 twentieths, which is 1.4 |
| FileSizes.Kb | src/structs/file_size.rs:20 | the whole kilobytes are the bytes rounded down to a thousand |
| FileSizes.Mb | src/structs/file_size.rs:23 | the whole megabytes are the bytes rounded down to a million |
| FileSizes.Gb | src/structs/file_size.rs:26 | the whole gigabytes are the bytes rounded down to a billion |
| FileSizes.Tb | src/structs/file_size.rs:29 | the whole terabytes are the bytes rounded down to a trillion |
| FileSizes.UnitsNest | src/structs/file_size.rs:19-29 | each unit is the previous one divided by a thousand, rounded down |
| FileSizes.LeadingSpace | src/structs/file_size.rs:49 | the leading whitespace ends at the first character that is not whitespace |
| FileSizes.WordLength | src/structs/file_size.rs:49 | a token runs up to the first whitespace character |
| FileSizes.NextToken | src/structs/file_size.rs:49-52 | the next token is absent exactly when only whitespace is left; otherwise it is non-empty, free of whitespace, and follows only whitespace |
| FileSizes.NextTokenOf | src/structs/file_size.rs:49-52 | behind any whitespace, the next token is found again, together with what follows it |
| FileSizes.Multiplier | src/structs/file_size.rs:55-66 | `b` multiplies by 1, the decimal endings by multiples of 1000 and the binary ones by multiples of 1024 |
| FileSizes.MultiplierTable | src/structs/file_size.rs:55-66 | each ending is a thousand or 1024 times the one below it, and uppercase or unknown endings are not in the table |
| FileSizes.ToBytes | src/structs/file_size.rs:68 | a product in the u64 range is truncated to whole bytes, and a negative product becomes 0 |
| FileSizes.FromStr | src/structs/file_size.rs:48-69 | the empty-string error occurs exactly on whitespace-only input, and an unknown ending is reported as its Unicode-lowercased form, which is no table ending |
| FileSizes.WithEnding | src/structs/file_size.rs:52-68 | the missing-ending error occurs exactly when only whitespace follows the number; any other error names an ending outside the table |
| FileSizes.ParseTokens | src/structs/file_size.rs:48-54 | a number, whitespace and an ending are read as those two tokens, whatever follows, and the outcome is that of the lowercased ending |
| FileSizes.ParseSize | src/structs/file_size.rs:48-69 | an ending whose fold (ASCII letters lowered, KELVIN SIGN read as `k`) is in the table gives the number times its multiplier |
| FileSizes.MultiplierOfFold | src/structs/file_size.rs:54-66 | the multiplier selected by the Unicode-lowercased ending is that of its fold, so only ASCII letters and KELVIN SIGN can reach the table |
| FileSizes.MultiplierAscii | src/structs/file_size.rs:55-66 | every table ending is ASCII |
| FileSizes.CaseInsensitive | src/structs/file_size.rs:54 | upper-casing or lower-casing the ASCII letters of any ending does not change the outcome |
| FileSizes.WholeKilobytes | src/structs/file_size.rs:48-69 | a whole number of kilobytes parses to that many thousand bytes, whose whole kilobytes are that number |
| FileSizes.KelvinKilobytes | src/structs/file_size.rs:54-69 | "1" followed by KELVIN SIGN and `B` is 1000 bytes, since `to_lowercase` reads the sign as `k` |
| FileSizes.WholeBytes | src/structs/file_size.rs:68 | a whole number times the multiplier is kept exactly while it fits |
| FileSizes.OnlyWhitespace | src/structs/file_size.rs:50 | a whitespace-only string is the empty-string error |
| FileSizes.BadNumber | src/structs/file_size.rs:50-51 | a first token the float parser refuses is the invalid-number error |
| FileSizes.MissingEnding | src/structs/file_size.rs:52 | a number with nothing after it is the missing-ending error |
| FileSizes.UnknownEnding | src/structs/file_size.rs:65 | `XB` is reported as the unknown ending `xb` |
| FileSizes.KibibyteExample | src/structs/file_size.rs:55-68 | 1.5 KiB is 1536 bytes, and tokens after the ending are ignored |

## Left out

- `f32`/`f64` rounding: floats are exact reals, so results equal up to rounding are equal here, and comparisons such as `0.18 - f32::EPSILON` are exact.
- Integer widths: the `u32`/`u64`/`usize` counters of the scorers, the mine and hold-drop counts of the replay parser and the tap-judgement tally are unbounded, so their overflow panics (debug) or wrap-around (release) are not modelled. `Rate` keeps its `u32` bound because the code relies on it.
- `Savegame.DigitOf`: the `u8` subtraction of `b'0'` in the replay parser wraps modulo 256, as a release build does; a debug build panics on a byte below `b'0'`, which the model does not capture.
- Foreign numerics: `erfc`, `powf` and `2^x` in `rating_calc`, and the Wife2/Wife3 curves, are function parameters. `RatingCalc` assumes only that the erfc term is at most 0 below 0 and that `2^x` is positive, so the doc-comment values of `ChartSkillsets::overall` (22.99) and `UserSkillsets::overall` (28.7212) are not reproduced.
- Wife3's curve (`src/wife/wife3.rs`) and the matching scorer (`src/rescore/matching_scorer.rs`) are not part of this model, so the test expectations of the matching scorer are left out.
- `rescore_from_note_hits` is left out: the signature it calls on `NoteAndHitSeconds` does not match the record type in the same revision.
- `rescore` is specialised to the naive scorer, the only scoring system modelled.
- `Rescore.Rescore`: the `expect` on an invalid wifescore is the `None` result rather than a panic.
- The `DEBUG` and `DEBUG_JUDGEMENT_BUG` prints in the naive scorer are constantly switched off and are not modelled.
- Parsers from outside the crate are parameters: `str::parse::<f32>`, `str::parse::<f64>`, `btoi::btou`, `lexical_core::parse_lossy` with `trim_bstr`, and `parse_sm_float`. Their error payloads are dropped, so the `parse_sm_float` test values are not reproduced.
- `split_newlines` (the line splitter of the replay parser) is not part of this model; `Savegame.ParseReplay` takes the lines.
- `Savegame.ParseReplay`: the `eprintln!` warning for an unknown note type is not modelled; the line is simply skipped.
- `Pattern.FirstCharWidth`, `Pattern.ParseTaps`: require valid UTF-8, which `&str` guarantees; the model works on the bytes.
- Unicode case table: `char::to_lowercase`, which `str::to_lowercase` applies in `Skillset8::from_user_input` and `FileSize::from_str`, is a parameter. The lemmas assume only that it agrees with `to_ascii_lowercase` on ASCII, maps KELVIN SIGN to `k`, and maps every other non-ASCII character to a string holding a non-ASCII character (U+0130 and U+212A are the only non-ASCII characters whose lowercase holds an ASCII one). `Util.ToLowercase` applies `char::to_lowercase` character by character, so it leaves out the one context-sensitive rule of `str::to_lowercase`: a capital sigma at the end of a word becomes final sigma `ς`, not `σ`. That rule only changes non-ASCII output, so the exact error text of an unknown non-ASCII ending (`ΑΣ` gives `ας` in Rust) is not fixed by the model. The pattern parser and the difficulty parsers use the ASCII-only mappings, which are modelled exactly.
- The skillset enums, their lists, conversions and `from_user_input` in `src/structs/skillsets.rs` (lines 178-199, 223-233, 264-276, 289-292, 316-327) are the same code as in `src/skillsets.rs` apart from formatting, and are modelled once, in `Skillsets`.
- `TimingInfo.TicksToSeconds`: requires finite beats and bpms, non-zero bpms and changes in chronological order, as the struct comment demands. The code's `f64` infinities and NaNs for a zero bpm are not modelled.
- `TimingInfo.SecondsMonotone`: holds only for positive bpms; charts with negative bpms are excluded.
- `NoteSubsets.FindFastestNoteSubset`, `NoteSubsets.FindFastestNoteSubsetWifePts`, `NoteSubsets.FindFastestComboInScore`: require every window of the minimum length to span positive time. In the code a zero span gives an infinite or NaN speed, which reals cannot represent.
- Panics of `assert!` guards are preconditions: unsorted hit seconds in `NaiveScorer.Evaluate` (`src/rescore/naive_scorer.rs:27`); unsorted lanes in `Rescore.Rescore` (`src/rescore/mod.rs:42-44`); unsorted seconds, `max_notes < min_notes` and a wife-points list of the wrong length in the note-subset searches, all folded into `NoteSubsets.Setup` (`src/note_subsets.rs:22-23`, `72-74`, `138-139`); unsorted ticks in `TimingInfo.TicksToSeconds` (`src/timing_info.rs:64`); a negative window in `Structs.Hit.IsWithinWindow` (`src/structs.rs:412`). The model promises nothing for such inputs, where the code panics. Arithmetic-overflow panics of debug builds are preconditions too: the `u32` overflow of `Rates.Add` and `Rates.RatePlace.AddAssign` and the `u32` underflow of `Rates.Sub` and `Rates.RatePlace.SubAssign` (`src/structs/rate.rs:88-114`), where a release build would wrap modulo 2^32; and the shift overflow of `1 << index` for an index of 32 or more in `Structs.NoteRow.TapAt` (`src/structs.rs:522-524`), where a release build would shift by `index % 32`. Those release-build results are not modelled. `Savegame.DigitOf`, by contrast, models the release-build `u8` wrap. `Pattern.Keymode` computes `1 + max` on unbounded lanes, so it does not model the `u32` overflow of `src/pattern.rs:67`, which only a hand-built row holding lane `u32::MAX` can reach (parsed lanes are below 9).
- `RatingCalc.PreMultiplier`: proves the result okay and the rating 0.01 below it not okay; that nothing lower is okay (`RatingCalc.PreMultiplierIsLowest`) needs `is_rating_okay` to be monotone in the rating, which the model assumes rather than derives from `erfc`.
- `RatingCalc.CalcRatingLoop` and the entry points require the numerics to be sound (see above), which the real `erfc` and `powf` satisfy.
- The `rayon` parallel map in `SkillTimeline::calculate` is a sequential map: each entry depends only on its own prefix, so the result is the same.
- `SimpleReplay`'s `longest_combo` and `mean_deviation` are not modelled: they rely on hit iterators not shown here and on a float average.
- Legacy `Hit::is_cb` to `is_bad` in `src/structs/mod.rs` call judge methods that `src/structs/judge.rs` does not define; only `Hit::is_miss` is modelled there.
- The legacy `Scorekey`/`Chartkey` rules are the same text as the current ones and are modelled once, in `Structs`.
- `Display`, `Debug` and serde derives (`Rate`, `FileSize`, `Wifescore`, `Difficulty`) only format values and are not modelled. `From<f32>` and `FromStr` for `Rate` are thin wrappers over `from_f32` and `from_string`.
- The getters of `ChartSkillsets` and `UserSkillsets` are generated by an `impl_get8` macro that is not part of this model; they are modelled as the four-argument form of `impl_get_skillset` in `src/lib.rs`, which has the same shape.
- `UserRank::get` (`src/structs.rs:314-316`, `src/structs/mod.rs:277-279`) is the same macro over stored `u32` ranks, with the stored overall; it is not modelled separately.

## Findings

| source | as written | input that shows it | evidently intended | confidence | as-written member | corrected member |
|---|---|---|---|---|---|---|
| src/judge.rs:43-46 | `is_cb` returns `deviation <= great_window` on the signed deviation | on J4, deviation 0.0 (a Marvelous) and -1.0 (a Miss) are combo breakers, 0.1 (a Good) is not | a combo breaker is a judgement worse than Great, that is `abs(deviation) > great_window` | not executed | Judge.IsCbIsInverted | Judge.ComboBreakerIsWorseThanGreat |
| src/structs.rs:217-223 | `Wifescore::cmp` returns `other.partial_cmp(other)` | 60% against 99.996% compares `Equal` | `self.partial_cmp(other)`, a total order | not executed | Structs.CmpAsWrittenIsAlwaysEqual | Structs.CmpIsTotalOrder |
| src/lib.rs:188-191 | a group boundary is recorded after the first score of the next group was pushed | the documented example (three scores, then two) gives boundaries 4 and 5 | 3 and 5: each group ends at its own last score | not executed | SkillTimeline.DocumentationExample | SkillTimeline.DayIndicesArePartition |
| src/note_subsets.rs:147-179 | `combo_start_i` is set to `None` at the first combo breaker and never set again | times 0, 10, 20, 21, 22 with a breaker at the third note, windows of one note: speed 0.1 | every combo is searched, so 1.0 from the combo after the breaker | not executed | NoteSubsets.ComboRestartFinding | NoteSubsets.FastestComboCoversEveryCombo |
