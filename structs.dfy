/** The value types of src/structs.rs: chart difficulties, the validated `Wifescore`, score and
    chart keys, player hits, note rows and snaps, and the tap-judgement tally of a replay. */
module Structs {
  import opened Wrappers
  import opened Util
  import opened Floats
  import opened TapJudgements
  import Judge

  // ---------------------------------------------------------------- Difficulty

  datatype Difficulty = Beginner | Easy | Medium | Hard | Challenge | Edit

  const AllDifficulties: seq<Difficulty> := [Beginner, Easy, Medium, Hard, Challenge, Edit]

  /** `Difficulty::to_short_string`: the label of the evaluation screen, two upper-case letters. */
  function ToShortString(d: Difficulty): (r: string)
    ensures |r| == 2 && Upper(r) == r
  {
    match d
    case Beginner => "BG"
    case Easy => "EZ"
    case Medium => "NM"
    case Hard => "HD"
    case Challenge => "IN"
    case Edit => "ED"
  }

  /** `Difficulty::from_short_string`: matches the ASCII-uppercased input against the six labels. */
  function FromShortString(s: string): (r: Option<Difficulty>)
    ensures forall d :: r == Some(d) <==> Upper(s) == ToShortString(d)
  {
    var u := Upper(s);
    if u == "BG" then Some(Beginner)
    else if u == "EZ" then Some(Easy)
    else if u == "NM" then Some(Medium)
    else if u == "HD" then Some(Hard)
    else if u == "IN" then Some(Challenge)
    else if u == "ED" then Some(Edit)
    else None
  }

  /** A short string parses to `d` exactly when it is `d`'s label up to ASCII case; in
      particular printing then parsing gives back `d`, whatever the case of the printed label. */
  lemma ShortStringRoundTrip(d: Difficulty, s: string)
    ensures FromShortString(s) == Some(d) <==> Upper(s) == ToShortString(d)
    ensures FromShortString(ToShortString(d)) == Some(d)
    ensures FromShortString(Lower(ToShortString(d))) == Some(d)
  {
    var t := ToShortString(d);
    assert Upper(t) == t;
    UpperOfLower(t);
  }

  /** The lower-case spellings `from_long_string` accepts for each difficulty. */
  function LongNames(d: Difficulty): set<string>
  {
    match d
    case Beginner => {"beginner", "novice"}
    case Easy => {"easy"}
    case Medium => {"medium", "normal"}
    case Hard => {"hard"}
    case Challenge => {"challenge", "expert", "insane"}
    case Edit => {"edit"}
  }

  /** `Difficulty::from_long_string`: matches the ASCII-lowercased input against the names and
      their aliases. */
  function FromLongString(s: string): (r: Option<Difficulty>)
    ensures forall d :: r == Some(d) <==> Lower(s) in LongNames(d)
    ensures r == None <==> forall d :: Lower(s) !in LongNames(d)
  {
    var l := Lower(s);
    if l == "beginner" || l == "novice" then Some(Beginner)
    else if l == "easy" then Some(Easy)
    else if l == "medium" || l == "normal" then Some(Medium)
    else if l == "hard" then Some(Hard)
    else if l == "challenge" || l == "expert" || l == "insane" then Some(Challenge)
    else if l == "edit" then Some(Edit)
    else None
  }

  datatype DifficultyParseError = DifficultyParseError

  /** `FromStr for Difficulty`: the long-string parser, with a unit error. */
  function FromStr(s: string): (r: Result<Difficulty, DifficultyParseError>)
    ensures r.Ok? <==> FromLongString(s).Some?
    ensures r.Ok? ==> Some(r.value) == FromLongString(s)
  {
    match FromLongString(s)
    case Some(d) => Ok(d)
    case None => Err(DifficultyParseError)
  }

  /** Long names are case-insensitive and accept aliases. */
  lemma LongStringAliases()
    ensures FromLongString("NoViCe") == Some(Beginner)
    ensures FromLongString("Normal") == Some(Medium)
  {
    assert Lower("NoViCe") == "novice";
    assert Lower("Normal") == "normal";
  }

  /** Both "insane" and "expert" name the challenge difficulty, in any case. */
  lemma LongStringChallenge()
    ensures FromLongString("INSANE") == Some(Challenge) && FromLongString("expert") == Some(Challenge)
  {
    assert Lower("INSANE") == "insane";
    assert Lower("expert") == "expert";
  }

  /** Short labels are not long names; "Edit" is. */
  lemma LongStringErrors()
    ensures FromLongString("IN") == None && FromStr("IN") == Err(DifficultyParseError)
    ensures FromStr("Edit") == Ok(Edit)
  {
    assert Lower("IN") == "in";
    assert Lower("Edit") == "edit";
  }

  // ---------------------------------------------------------------- Wifescore

  /** What the `Wifescore` wrapper guarantees: not NaN and at most 100% (negative infinity is
      allowed). */
  predicate IsValidProportion(f: Float)
  {
    !f.NaN? && !GreaterThan(f, 1.0)
  }

  type Proportion = f: Float | IsValidProportion(f) witness Finite(0.0)

  datatype Wifescore = Wifescore(proportion: Proportion)

  const D_THRESHOLD: Wifescore := Wifescore(NegInf)
  const C_THRESHOLD: Wifescore := Wifescore(Finite(0.60))
  const B_THRESHOLD: Wifescore := Wifescore(Finite(0.70))
  const A_THRESHOLD: Wifescore := Wifescore(Finite(0.80))
  const AA_THRESHOLD: Wifescore := Wifescore(Finite(0.93))
  const AAA_THRESHOLD: Wifescore := Wifescore(Finite(0.997))
  const AAAA_THRESHOLD: Wifescore := Wifescore(Finite(0.99955))
  const AAAAA_THRESHOLD: Wifescore := Wifescore(Finite(0.99996))

  const Thresholds: seq<Wifescore> := [D_THRESHOLD, C_THRESHOLD, B_THRESHOLD, A_THRESHOLD,
    AA_THRESHOLD, AAA_THRESHOLD, AAAA_THRESHOLD, AAAAA_THRESHOLD]

  /** The grade thresholds increase strictly from D to AAAAA. */
  lemma ThresholdsAscending()
    ensures forall i, k :: 0 <= i < k < |Thresholds| ==>
      PartialCmp(Thresholds[i].proportion, Thresholds[k].proportion) == Some(Less)
  {
  }

  /** `Wifescore::from_proportion`: rejects NaN and anything above 1.0, which rejects +inf but
      accepts -inf. */
  function FromProportion(p: Float): (r: Option<Wifescore>)
    ensures r.None? <==> p.NaN? || p.PosInf? || (p.Finite? && p.value > 1.0)
    ensures r.Some? ==> r.value.proportion == p
  {
    if p.NaN? || GreaterThan(p, 1.0) then None else Some(Wifescore(p))
  }

  /** `Wifescore::from_percent`: the same validation after dividing by 100. */
  function FromPercent(p: Float): (r: Option<Wifescore>)
    ensures r.None? <==> p.NaN? || p.PosInf? || (p.Finite? && p.value > 100.0)
    ensures r.Some? && p.Finite? ==> r.value.proportion == Finite(p.value / 100.0)
  {
    FromProportion(ScalePositive(p, 1.0 / 100.0))
  }

  /** `as_percent`: never NaN, at most 100, and read back by `from_percent`. */
  function AsPercent(w: Wifescore): (r: Float)
    ensures !r.NaN? && !r.PosInf? && (r.Finite? ==> r.value <= 100.0)
    ensures FromPercent(r) == Some(w)
  {
    ScalePositive(w.proportion, 100.0)
  }

  /** `as_proportion`: read back by `from_proportion`. */
  function AsProportion(w: Wifescore): (r: Float)
    ensures !r.NaN? && !r.PosInf? && (r.Finite? ==> r.value <= 1.0)
    ensures FromProportion(r) == Some(w)
  {
    w.proportion
  }

  /** Every wifescore survives the trip through its proportion and through its percentage. */
  lemma WifescoreRoundTrips(w: Wifescore)
    ensures FromProportion(AsProportion(w)) == Some(w)
    ensures FromPercent(AsPercent(w)) == Some(w)
  {
  }

  /** `Ord::cmp` as written: it compares `other` with itself. The `expect` cannot fire because a
      wifescore is never NaN. */
  function CmpAsWritten(self: Wifescore, other: Wifescore): Ordering
  {
    PartialCmp(other.proportion, other.proportion).value
  }

  /** As written, every pair compares Equal, even 60% against 99.996%, which contradicts the
      derived `partial_cmp`. */
  lemma CmpAsWrittenIsAlwaysEqual(a: Wifescore, b: Wifescore)
    ensures CmpAsWritten(a, b) == Equal
    ensures CmpAsWritten(C_THRESHOLD, AAAAA_THRESHOLD) == Equal
    ensures PartialCmp(C_THRESHOLD.proportion, AAAAA_THRESHOLD.proportion) == Some(Less)
  {
  }

  /** The intended `Ord::cmp`: `self.partial_cmp(other)`, total on valid wifescores. */
  function Cmp(self: Wifescore, other: Wifescore): Ordering
  {
    PartialCmp(self.proportion, other.proportion).value
  }

  /** The corrected comparison is a total order that agrees with `partial_cmp` and with
      equality. */
  lemma CmpIsTotalOrder(a: Wifescore, b: Wifescore, c: Wifescore)
    ensures Some(Cmp(a, b)) == PartialCmp(a.proportion, b.proportion)
    ensures Cmp(a, b) == Equal <==> a == b
    ensures Cmp(a, b) == Less <==> Cmp(b, a) == Greater
    ensures Cmp(a, b) == Less && Cmp(b, c) == Less ==> Cmp(a, c) == Less
  {
  }

  // ---------------------------------------------------------------- Scorekey / Chartkey

  datatype KeyKind = Scorekey | Chartkey

  function InitialLetter(kind: KeyKind): char
  {
    match kind
    case Scorekey => 'S'
    case Chartkey => 'X'
  }

  predicate IsLowerHexDigit(c: char)
  {
    '0' <= c <= '9' || 'a' <= c <= 'f'
  }

  /** `is_valid` as written: 41 bytes, the kind's initial letter, and no character after it that
      lies outside both '0'..'9' and 'a'..'f'. */
  predicate IsValidKey(kind: KeyKind, key: string)
  {
    Utf8Len(key) == 41
    && |key| > 0 && key[0] == InitialLetter(kind)
    && !(exists i :: 1 <= i < |key| && (key[i] < '0' || key[i] > '9') && (key[i] < 'a' || key[i] > 'f'))
  }

  /** A valid key is the initial letter followed by exactly 40 lowercase hex digits; the byte
      length test and the character length test agree because such a key is all ASCII. */
  lemma KeyValidity(kind: KeyKind, key: string)
    ensures IsValidKey(kind, key) <==>
      |key| == 41 && key[0] == InitialLetter(kind) && forall i :: 1 <= i < 41 ==> IsLowerHexDigit(key[i])
  {
    Utf8LenAscii(key);
  }

  datatype Key = Key(kind: KeyKind, text: string)

  /** `new`: wraps the string when it is valid. */
  function NewKey(kind: KeyKind, key: string): (r: Option<Key>)
    ensures r.Some? <==> |key| == 41 && key[0] == InitialLetter(kind) && forall i :: 1 <= i < 41 ==> IsLowerHexDigit(key[i])
    ensures r.Some? ==> r.value == Key(kind, key)
  {
    KeyValidity(kind, key);
    if IsValidKey(kind, key) then Some(Key(kind, key)) else None
  }

  // ---------------------------------------------------------------- Hit

  /** One player hit: a deviation in seconds (negative is early), or a miss. */
  datatype Hit = Hit(deviation: real) | Miss
  {
    function Deviation(): (r: Option<real>)
      ensures r.Some? <==> Hit?
    {
      match this
      case Hit(d) => Some(d)
      case Miss => None
    }

    function Classify(judge: Judge.Judge): TapJudgement
    {
      match this
      case Hit(d) => judge.Classify(d)
      case Miss => TapJudgement.Miss
    }

    /** `is_within_window`: strict, and the window is asserted to be non-negative. */
    predicate IsWithinWindow(window: real)
      requires window >= 0.0
    {
      match this
      case Hit(d) => Abs(d) < window
      case Miss => false
    }

    predicate IsCb(judge: Judge.Judge) { Hit? && judge.IsCb(deviation) }
    predicate IsMarv(judge: Judge.Judge) { Hit? && judge.IsMarv(deviation) }
    predicate IsPerf(judge: Judge.Judge) { Hit? && judge.IsPerf(deviation) }
    predicate IsGreat(judge: Judge.Judge) { Hit? && judge.IsGreat(deviation) }
    predicate IsGood(judge: Judge.Judge) { Hit? && judge.IsGood(deviation) }
    predicate IsBad(judge: Judge.Judge) { Hit? && judge.IsBad(deviation) }

    predicate IsConsideredMiss(judge: Judge.Judge)
    {
      match this
      case Hit(d) => judge.IsMiss(d)
      case Miss => true
    }

    predicate WasMissed()
    {
      Miss?
    }
  }

  /** A hit is considered a miss exactly when it classifies as Miss, which a real miss always
      does; a real miss is in no window and satisfies none of the positive predicates. */
  lemma HitPredicates(h: Hit, judge: Judge.Judge, window: real)
    requires window >= 0.0
    ensures h.IsConsideredMiss(judge) <==> h.Classify(judge) == TapJudgement.Miss
    ensures h.WasMissed() ==>
      (h.IsConsideredMiss(judge) && !h.IsWithinWindow(window)
       && !h.IsCb(judge) && !h.IsMarv(judge) && !h.IsPerf(judge) && !h.IsGreat(judge)
       && !h.IsGood(judge) && !h.IsBad(judge))
    ensures h.Hit? ==> (h.IsWithinWindow(window) <==> -window < h.deviation < window)
    ensures h.Hit? ==> (h.IsMarv(judge) <==> h.Classify(judge) == Marvelous)
  {
  }

  /** The documented examples of `is_considered_miss` and `was_missed`: 200 ms late is a Bad on
      J1 but counts as a miss on J4, while the note was hit either way. */
  lemma ConsideredMissExamples()
    ensures !Hit(-0.02).IsConsideredMiss(Judge.J4)
    ensures Hit.Miss.IsConsideredMiss(Judge.J4)
    ensures !Hit(0.20).IsConsideredMiss(Judge.J1)
    ensures Hit(0.20).IsConsideredMiss(Judge.J4)
    ensures !Hit(-0.02).WasMissed() && Hit.Miss.WasMissed() && !Hit(0.20).WasMissed()
  {
  }

  // ---------------------------------------------------------------- tap_judgements

  function ClassifyAll(hits: seq<Hit>, judge: Judge.Judge): (r: seq<TapJudgement>)
    ensures |r| == |hits| && forall i :: 0 <= i < |hits| ==> r[i] == hits[i].Classify(judge)
  {
    seq(|hits|, i requires 0 <= i < |hits| => hits[i].Classify(judge))
  }

  /** `SimpleReplay::tap_judgements`: one increment per hit, of the counter its judgement
      selects. Each counter ends up holding the number of hits with that judgement, so the six
      counters sum to the number of hits. */
  method TapJudgementsOf(hits: seq<Hit>, judge: Judge.Judge) returns (judgements: TapJudgements)
    ensures judgements == Tally(ClassifyAll(hits, judge))
    ensures forall j :: judgements.Get(j) == multiset(ClassifyAll(hits, judge))[j]
    ensures judgements.Total() == |hits|
  {
    ghost var js := ClassifyAll(hits, judge);
    judgements := Zero;
    for i := 0 to |hits|
      invariant judgements == Tally(js[..i])
    {
      var j := hits[i].Classify(judge);
      assert js[..i + 1][..i] == js[..i];
      judgements := judgements.Set(j, judgements.Get(j) + 1);
    }
    assert js[..|hits|] == js;
    TallyCounts(js);
  }

  // ---------------------------------------------------------------- NoteRow

  /** A row of notes as a 32-bit set; bit 0 is the leftmost lane. */
  datatype NoteRow = NoteRow(bits: u32)
  {
    /** `tap_at`: bit `index` of `bits` (the mask `1 << index` read arithmetically). A shift by
        32 or more would overflow in Rust, so the index is below 32. */
    predicate TapAt(index: nat)
      requires index < 32
    {
      (bits / Pow2(index)) % 2 == 1
    }

    /** `u32::leading_zeros`, counted among the lowest `k` bits: the number of unset bits above
        the highest set bit below `k`. */
    function LeadingZerosBelow(k: nat): (r: nat)
      requires k <= 32
      ensures r <= k
      ensures forall i :: k - r <= i < k ==> !TapAt(i)
      ensures r < k ==> TapAt(k - r - 1)
    {
      if k == 0 then 0
      else if TapAt(k - 1) then 0
      else 1 + LeadingZerosBelow(k - 1)
    }

    /** `width`: 32 minus the leading zeros, i.e. one past the rightmost lane that has a tap. */
    function Width(): (r: nat)
      ensures r <= 32
      ensures forall i :: r <= i < 32 ==> !TapAt(i)
      ensures r > 0 ==> TapAt(r - 1)
    {
      32 - LeadingZerosBelow(32)
    }
  }

  /** Lanes at and above `w` are empty when the bits are below 2^w. */
  lemma NoTapsAbove(row: NoteRow, w: nat)
    requires w <= 32 && row.bits < Pow2(w)
    ensures forall i :: w <= i < 32 ==> !row.TapAt(i)
  {
    forall i | w <= i < 32
      ensures !row.TapAt(i)
    {
      Pow2Grows(w, i);
      DivSmall(row.bits, Pow2(i));
    }
  }

  /** A row whose highest tap is in lane `w - 1` has width `w`. */
  lemma WidthOfHighestTap(row: NoteRow, w: nat)
    requires 0 < w <= 32 && row.TapAt(w - 1)
    requires forall i :: w <= i < 32 ==> !row.TapAt(i)
    ensures row.Width() == w
  {
  }

  /** The documented examples: width counts up to the last tap, not the number of taps. */
  lemma WidthExamples()
    ensures NoteRow(0x15).Width() == 5
    ensures NoteRow(0x3).Width() == 2
    ensures NoteRow(0).Width() == 0
  {
    NoTapsAbove(NoteRow(0x15), 5);
    WidthOfHighestTap(NoteRow(0x15), 5);
    NoTapsAbove(NoteRow(0x3), 2);
    WidthOfHighestTap(NoteRow(0x3), 2);
    NoTapsAbove(NoteRow(0), 0);
  }

  // ---------------------------------------------------------------- Snap

  datatype Snap = Fourth | Eighth | Twelfth | Sixteenth | TwentyFourth | ThirtySecond
    | FortyEighth | SixtyFourth | OneNinetySecond

  const AllSnaps: seq<Snap> := [Fourth, Eighth, Twelfth, Sixteenth, TwentyFourth, ThirtySecond,
    FortyEighth, SixtyFourth, OneNinetySecond]

  /** Rows per note of the snap, with 192 rows to a measure. */
  function RowsPerNote(s: Snap): nat
  {
    match s
    case Fourth => 48
    case Eighth => 24
    case Twelfth => 16
    case Sixteenth => 12
    case TwentyFourth => 8
    case ThirtySecond => 6
    case FortyEighth => 4
    case SixtyFourth => 3
    case OneNinetySecond => 1
  }

  /** `Snap::from_row`: the coarsest snap whose grid the row lies on. */
  function FromRow(row: nat): (r: Snap)
    ensures row % RowsPerNote(r) == 0
    ensures forall i, k :: 0 <= i < k < |AllSnaps| && AllSnaps[k] == r ==> row % RowsPerNote(AllSnaps[i]) != 0
  {
    if row % (192 / 4) == 0 then Fourth
    else if row % (192 / 8) == 0 then Eighth
    else if row % (192 / 12) == 0 then Twelfth
    else if row % (192 / 16) == 0 then Sixteenth
    else if row % (192 / 24) == 0 then TwentyFourth
    else if row % (192 / 32) == 0 then ThirtySecond
    else if row % (192 / 48) == 0 then FortyEighth
    else if row % (192 / 64) == 0 then SixtyFourth
    else OneNinetySecond
  }

  /** The snap of a row depends only on its position inside the measure. */
  lemma {:induction false} FromRowPeriodic(row: nat)
    ensures FromRow(row + 192) == FromRow(row)
  {
    MeasureShift(row, 48);
    MeasureShift(row, 24);
    MeasureShift(row, 16);
    MeasureShift(row, 12);
    MeasureShift(row, 8);
    MeasureShift(row, 6);
    MeasureShift(row, 4);
    MeasureShift(row, 3);
  }

  /** Moving by a measure keeps a row's place on every grid of a snap. */
  lemma MeasureShift(row: nat, d: nat)
    requires d == 48 || d == 24 || d == 16 || d == 12 || d == 8 || d == 6 || d == 4 || d == 3
    ensures (row + 192) % d == row % d
  {
    // One case per snap, so that each modulus is a literal.
    if d == 48 {
    } else if d == 24 {
    } else if d == 16 {
    } else if d == 12 {
    } else if d == 8 {
    } else if d == 6 {
    } else if d == 4 {
    }
  }
}
