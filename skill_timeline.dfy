/** `SkillTimeline::calculate` (`src/lib.rs`): a player's ratings over time. Scores come in as
    (group key, `Skillsets7`) pairs; every score is appended to seven per-skillset vectors, a
    (key, prefix length) boundary is recorded whenever the key changes, and each boundary is then
    turned into the player ratings over that prefix of the vectors. */
module SkillTimeline {
  import opened Wrappers
  import opened Util
  import RatingCalc
  import opened Skillsets

  /** The group keys of the scores, in input order. */
  function Keys<T>(items: seq<(T, Skillsets7)>): (r: seq<T>)
    ensures |r| == |items| && forall i :: 0 <= i < |items| ==> r[i] == items[i].0
  {
    seq(|items|, i requires 0 <= i < |items| => items[i].0)
  }

  /** Rating vector `c`: skillset `c` of every score, in input order. */
  function Column<T>(items: seq<(T, Skillsets7)>, c: nat): (r: seq<real>)
    requires c < 7
    ensures |r| == |items| && forall i :: 0 <= i < |items| ==> r[i] == items[i].1.AsSeq()[c]
  {
    seq(|items|, i requires 0 <= i < |items| => items[i].1.AsSeq()[c])
  }

  /** The boundaries pushed during the first `k` rounds of the loop as written: in round `k`
      the `k`th score has already been pushed, so the length recorded for the previous group is
      `k`, one past that group's last score. */
  function PushedAsWritten<T(==)>(keys: seq<T>, k: nat): seq<(T, nat)>
    requires k <= |keys|
  {
    if k < 2 then []
    else PushedAsWritten(keys, k - 1) + (if keys[k - 2] != keys[k - 1] then [(keys[k - 2], k)] else [])
  }

  /** `day_indices` as the loop builds it, with the last group appended after the loop. */
  function DayIndicesAsWritten<T(==)>(keys: seq<T>): seq<(T, nat)>
  {
    if |keys| == 0 then [] else PushedAsWritten(keys, |keys|) + [(keys[|keys| - 1], |keys|)]
  }

  /** The boundaries the documentation describes: the length recorded for a group ends at that
      group's last score. */
  function PushedCorrected<T(==)>(keys: seq<T>, k: nat): seq<(T, nat)>
    requires k <= |keys|
  {
    if k < 2 then []
    else PushedCorrected(keys, k - 1) + (if keys[k - 2] != keys[k - 1] then [(keys[k - 2], k - 1)] else [])
  }

  /** The corrected `day_indices`. */
  function DayIndices<T(==)>(keys: seq<T>): seq<(T, nat)>
  {
    if |keys| == 0 then [] else PushedCorrected(keys, |keys|) + [(keys[|keys| - 1], |keys|)]
  }

  /** Where group `i` of `d` starts: where the previous group ended. */
  function Start<T>(d: seq<(T, nat)>, i: nat): nat
    requires i < |d|
  {
    if i == 0 then 0 else d[i - 1].1
  }

  /** `d` splits `keys[..n]` into its maximal runs of equal keys, in order: every group ends
      after the previous one, all keys of a group are the group's key, the key right after a
      group differs from it, and the last group ends at `n`. */
  ghost predicate PartitionsPrefix<T>(keys: seq<T>, n: nat, d: seq<(T, nat)>)
    requires n <= |keys|
  {
    (n == 0 <==> |d| == 0)
    && (|d| > 0 ==> d[|d| - 1].1 == n)
    && (forall i {:trigger Start(d, i)} :: 0 <= i < |d| ==> Start(d, i) < d[i].1 <= n)
    && (forall i, j {:trigger Start(d, i), keys[j]} :: 0 <= i < |d| && Start(d, i) <= j < d[i].1 ==> keys[j] == d[i].0)
    && (forall i :: 0 <= i < |d| - 1 ==> d[i].1 < n && keys[d[i].1] != d[i].0)
  }

  /** The corrected boundaries split the keys into their maximal runs. */
  lemma {:induction false} DayIndicesArePartition<T>(keys: seq<T>)
    ensures PartitionsPrefix(keys, |keys|, DayIndices(keys))
  {
    if |keys| > 0 {
      FullPrefixIsPartition(keys, |keys|);
    }
  }

  lemma {:induction false} FullPrefixIsPartition<T>(keys: seq<T>, k: nat)
    requires 1 <= k <= |keys|
    ensures PartitionsPrefix(keys, k, PushedCorrected(keys, k) + [(keys[k - 1], k)])
  {
    if k == 1 {
      assert PushedCorrected(keys, k) + [(keys[k - 1], k)] == [(keys[0], 1)];
    } else {
      FullPrefixIsPartition(keys, k - 1);
      var p: seq<(T, nat)> := PushedCorrected(keys, k - 1);
      var prev: seq<(T, nat)> := p + [(keys[k - 2], k - 1)];
      if keys[k - 2] != keys[k - 1] {
        assert PushedCorrected(keys, k) == prev;
        NewGroup(keys, k - 1, prev);
      } else {
        assert PushedCorrected(keys, k) == p;
        assert prev[..|prev| - 1] == p;
        ExtendLastGroup(keys, k - 1, prev);
      }
    }
  }

  /** A score whose key differs from the previous one opens a new group. */
  lemma NewGroup<T>(keys: seq<T>, n: nat, d: seq<(T, nat)>)
    requires 0 < n < |keys| && PartitionsPrefix(keys, n, d) && keys[n] != keys[n - 1]
    ensures PartitionsPrefix(keys, n + 1, d + [(keys[n], n + 1)])
  {
    var e: seq<(T, nat)> := d + [(keys[n], n + 1)];
    var last := |d| - 1;
    NewGroupEnds(keys, n, d);
    NewGroupCovers(keys, n, d);
    assert Start(d, last) <= n - 1 < d[last].1;
    assert keys[n - 1] == d[last].0;
    forall i | 0 <= i < |e| - 1
      ensures e[i].1 < n + 1 && keys[e[i].1] != e[i].0
    {
      assert e[i] == d[i];
    }
  }

  lemma NewGroupEnds<T>(keys: seq<T>, n: nat, d: seq<(T, nat)>)
    requires 0 < n < |keys| && PartitionsPrefix(keys, n, d)
    ensures var e: seq<(T, nat)> := d + [(keys[n], n + 1)];
      forall i {:trigger Start(e, i)} :: 0 <= i < |e| ==> Start(e, i) < e[i].1 <= n + 1
  {
    var e: seq<(T, nat)> := d + [(keys[n], n + 1)];
    forall i | 0 <= i < |e|
      ensures Start(e, i) < e[i].1 <= n + 1
    {
      if i < |d| {
        assert Start(e, i) == Start(d, i) && e[i] == d[i];
      }
    }
  }

  lemma NewGroupCovers<T>(keys: seq<T>, n: nat, d: seq<(T, nat)>)
    requires 0 < n < |keys| && PartitionsPrefix(keys, n, d)
    ensures var e: seq<(T, nat)> := d + [(keys[n], n + 1)];
      forall i, j {:trigger Start(e, i), keys[j]} :: 0 <= i < |e| && Start(e, i) <= j < e[i].1 ==> keys[j] == e[i].0
  {
    var e: seq<(T, nat)> := d + [(keys[n], n + 1)];
    forall i, j | 0 <= i < |e| && Start(e, i) <= j < e[i].1
      ensures keys[j] == e[i].0
    {
      if i < |d| {
        assert Start(e, i) == Start(d, i) && e[i] == d[i];
      }
    }
  }

  /** A score with the same key as the previous one extends the last group. */
  lemma ExtendLastGroup<T>(keys: seq<T>, n: nat, d: seq<(T, nat)>)
    requires 0 < n < |keys| && PartitionsPrefix(keys, n, d) && keys[n] == keys[n - 1]
    ensures PartitionsPrefix(keys, n + 1, d[..|d| - 1] + [(keys[n], n + 1)])
  {
    var last := |d| - 1;
    var e: seq<(T, nat)> := d[..last] + [(keys[n], n + 1)];
    ExtendLastGroupEnds(keys, n, d);
    ExtendLastGroupCovers(keys, n, d);
    forall i | 0 <= i < |e| - 1
      ensures e[i].1 < n + 1 && keys[e[i].1] != e[i].0
    {
      assert e[i] == d[i];
    }
  }

  lemma ExtendLastGroupEnds<T>(keys: seq<T>, n: nat, d: seq<(T, nat)>)
    requires 0 < n < |keys| && PartitionsPrefix(keys, n, d)
    ensures var e: seq<(T, nat)> := d[..|d| - 1] + [(keys[n], n + 1)];
      forall i {:trigger Start(e, i)} :: 0 <= i < |e| ==> Start(e, i) < e[i].1 <= n + 1
  {
    var last := |d| - 1;
    var e: seq<(T, nat)> := d[..last] + [(keys[n], n + 1)];
    assert Start(e, last) == Start(d, last);
    forall i | 0 <= i < |e|
      ensures Start(e, i) < e[i].1 <= n + 1
    {
      if i < last {
        assert Start(e, i) == Start(d, i) && e[i] == d[i];
      }
    }
  }

  lemma ExtendLastGroupCovers<T>(keys: seq<T>, n: nat, d: seq<(T, nat)>)
    requires 0 < n < |keys| && PartitionsPrefix(keys, n, d) && keys[n] == keys[n - 1]
    ensures var e: seq<(T, nat)> := d[..|d| - 1] + [(keys[n], n + 1)];
      forall i, j {:trigger Start(e, i), keys[j]} :: 0 <= i < |e| && Start(e, i) <= j < e[i].1 ==> keys[j] == e[i].0
  {
    var last := |d| - 1;
    var e: seq<(T, nat)> := d[..last] + [(keys[n], n + 1)];
    assert Start(d, last) <= n - 1 < d[last].1;
    assert keys[n - 1] == d[last].0;
    forall i, j | 0 <= i < |e| && Start(e, i) <= j < e[i].1
      ensures keys[j] == e[i].0
    {
      if i < last {
        assert Start(e, i) == Start(d, i) && e[i] == d[i];
      } else if j < n {
        assert Start(e, last) == Start(d, last);
        assert Start(d, last) <= j < d[last].1;
      }
    }
  }

  lemma {:induction false} PushedAsWrittenIsShifted<T>(keys: seq<T>, k: nat)
    requires k <= |keys|
    ensures |PushedAsWritten(keys, k)| == |PushedCorrected(keys, k)|
    ensures forall i :: 0 <= i < |PushedCorrected(keys, k)| ==>
      PushedAsWritten(keys, k)[i] == (PushedCorrected(keys, k)[i].0, PushedCorrected(keys, k)[i].1 + 1)
  {
    if k >= 2 {
      PushedAsWrittenIsShifted(keys, k - 1);
    }
  }

  /** The boundaries as written are the corrected ones with every length but the last one
      larger by one. */
  lemma AsWrittenIsShifted<T>(keys: seq<T>)
    ensures |DayIndicesAsWritten(keys)| == |DayIndices(keys)|
    ensures forall i :: 0 <= i < |DayIndices(keys)| ==> DayIndicesAsWritten(keys)[i].0 == DayIndices(keys)[i].0
    ensures forall i :: 0 <= i < |DayIndices(keys)| ==>
      DayIndicesAsWritten(keys)[i].1 == DayIndices(keys)[i].1 + (if i == |DayIndices(keys)| - 1 then 0 else 1)
  {
    PushedAsWrittenIsShifted(keys, |keys|);
  }

  /** What the loop as written records: one boundary per maximal run of keys, with lengths that
      stay within the input, grow strictly up to the second-to-last boundary and end at the input
      length; but every prefix except the last one also takes in the first score of the next
      group, so a last group of a single score records the same length as the group before it. */
  lemma AsWrittenBoundaries<T>(keys: seq<T>)
    ensures |keys| == 0 <==> |DayIndicesAsWritten(keys)| == 0
    ensures |DayIndicesAsWritten(keys)| == |DayIndices(keys)|
    ensures forall i :: 0 <= i < |DayIndicesAsWritten(keys)| ==> 0 < DayIndicesAsWritten(keys)[i].1 <= |keys|
    ensures forall i, j :: 0 <= i < j < |DayIndicesAsWritten(keys)| - 1 ==>
      DayIndicesAsWritten(keys)[i].1 < DayIndicesAsWritten(keys)[j].1
    ensures |keys| > 0 ==> DayIndicesAsWritten(keys)[|DayIndicesAsWritten(keys)| - 1].1 == |keys|
    ensures forall i :: 0 <= i < |DayIndicesAsWritten(keys)| - 1 ==>
      keys[DayIndicesAsWritten(keys)[i].1 - 1] != DayIndicesAsWritten(keys)[i].0
  {
    var d := DayIndicesAsWritten(keys);
    var c := DayIndices(keys);
    DayIndicesArePartition(keys);
    AsWrittenIsShifted(keys);
    forall i, j | 0 <= i < j < |d| - 1 ensures d[i].1 < d[j].1 {
      IncreasingEnds(c, i, j);
    }
  }

  /** Two groups whose second has a single score: both boundaries as written record the whole
      input, so the first group's entry is rated over the second group's score too. */
  lemma SingleScoreLastGroup()
    ensures DayIndicesAsWritten(["a", "b"]) == [("a", 2), ("b", 2)]
    ensures DayIndices(["a", "b"]) == [("a", 1), ("b", 2)]
  {
    var keys := ["a", "b"];
    assert keys[0] != keys[1];
  }

  lemma {:induction false} IncreasingEnds<T>(d: seq<(T, nat)>, i: nat, j: nat)
    requires i < j < |d|
    requires forall k {:trigger Start(d, k)} :: 0 <= k < |d| ==> Start(d, k) < d[k].1
    ensures d[i].1 < d[j].1
    decreases j - i
  {
    assert Start(d, j) == d[j - 1].1;
    if i < j - 1 {
      IncreasingEnds(d, i, j - 1);
    }
  }

  /** The first loop of `calculate`: push every score's seven ratings onto the seven vectors and
      record a boundary whenever the group key changes, then the final boundary. */
  method CollectScores<T(==)>(items: seq<(T, Skillsets7)>)
    returns (vectors: seq<seq<real>>, dayIndices: seq<(T, nat)>)
    ensures |vectors| == 7 && forall c :: 0 <= c < 7 ==> vectors[c] == Column(items, c)
    ensures dayIndices == DayIndicesAsWritten(Keys(items))
  {
    var keys := Keys(items);
    vectors := [[], [], [], [], [], [], []];
    dayIndices := [];
    var prevDayId: Option<T> := None;
    for j := 0 to |items|
      invariant |vectors| == 7 && forall c :: 0 <= c < 7 ==> vectors[c] == Column(items[..j], c)
      invariant dayIndices == PushedAsWritten(keys, j)
      invariant prevDayId == if j == 0 then None else Some(keys[j - 1])
    {
      var (dayId, ssr) := items[j];
      PushScoreColumns(items, j, vectors);
      vectors := PushScore(vectors, ssr);
      if prevDayId.Some? {
        if prevDayId.value != dayId {
          dayIndices := dayIndices + [(prevDayId.value, |vectors[0]|)];
        }
      }
      prevDayId := Some(dayId);
    }
    assert items[..|items|] == items;
    if prevDayId.Some? {
      dayIndices := dayIndices + [(prevDayId.value, |vectors[0]|)];
    }
  }

  /** Pushing score `j` onto the vectors of the first `j` scores gives the vectors of the first
      `j + 1`. */
  lemma PushScoreColumns<T>(items: seq<(T, Skillsets7)>, j: nat, vectors: seq<seq<real>>)
    requires j < |items| && |vectors| == 7
    requires forall c :: 0 <= c < 7 ==> vectors[c] == Column(items[..j], c)
    ensures forall c :: 0 <= c < 7 ==> PushScore(vectors, items[j].1)[c] == Column(items[..j + 1], c)
  {
    forall c | 0 <= c < 7
      ensures PushScore(vectors, items[j].1)[c] == Column(items[..j + 1], c)
    {
      assert items[..j + 1] == items[..j] + [items[j]];
    }
  }

  /** One push per rating vector. */
  function PushScore(vectors: seq<seq<real>>, ssr: Skillsets7): (r: seq<seq<real>>)
    requires |vectors| == 7
    ensures |r| == 7 && forall c :: 0 <= c < 7 ==> r[c] == vectors[c] + [ssr.AsSeq()[c]]
  {
    [vectors[0] + [ssr.stream], vectors[1] + [ssr.jumpstream], vectors[2] + [ssr.handstream],
     vectors[3] + [ssr.stamina], vectors[4] + [ssr.jackspeed], vectors[5] + [ssr.chordjack],
     vectors[6] + [ssr.technical]]
  }

  /** The per-skillset rating function `pre_070` selects. */
  function SkillsetRating(num: RatingCalc.Numerics, pre070: bool, ssrs: seq<real>): real
    requires RatingCalc.Sound(num)
  {
    if pre070 then RatingCalc.PlayerSkillsetRatingPre070(num, ssrs)
    else RatingCalc.PlayerSkillsetRating(num, ssrs)
  }

  /** The overall function `pre_070` selects. */
  function OverallOf(num: RatingCalc.Numerics, pre070: bool, s: Skillsets7): Skillsets8
    requires RatingCalc.Sound(num)
  {
    if pre070 then s.CalcPlayerOverallPre070() else s.CalcPlayerOverall(num)
  }

  /** The seven skillset ratings over the seven rating vectors. */
  function SkillsetRatings(num: RatingCalc.Numerics, pre070: bool, columns: seq<seq<real>>): Skillsets7
    requires RatingCalc.Sound(num) && |columns| == 7
  {
    Skillsets7(
      SkillsetRating(num, pre070, columns[0]), SkillsetRating(num, pre070, columns[1]),
      SkillsetRating(num, pre070, columns[2]), SkillsetRating(num, pre070, columns[3]),
      SkillsetRating(num, pre070, columns[4]), SkillsetRating(num, pre070, columns[5]),
      SkillsetRating(num, pre070, columns[6]))
  }

  /** The player's ratings over the scores `scores`. */
  function RatingsOf<T>(num: RatingCalc.Numerics, pre070: bool, scores: seq<(T, Skillsets7)>): Skillsets8
    requires RatingCalc.Sound(num)
  {
    OverallOf(num, pre070, SkillsetRatings(num, pre070, seq(7, c requires 0 <= c < 7 => Column(scores, c))))
  }

  /** The timeline entry for the boundary `entry`: its key, and the ratings over the scores
      before its recorded length. */
  function Change<T>(num: RatingCalc.Numerics, pre070: bool, items: seq<(T, Skillsets7)>, entry: (T, nat)): (T, Skillsets8)
    requires RatingCalc.Sound(num) && entry.1 <= |items|
  {
    (entry.0, RatingsOf(num, pre070, items[..entry.1]))
  }

  /** The closure of the final map: the ratings over the first `len` values of every rating
      vector, which are the ratings over the first `len` scores. */
  method MapEntry<T>(num: RatingCalc.Numerics, pre070: bool, ghost items: seq<(T, Skillsets7)>,
    vectors: seq<seq<real>>, dayId: T, len: nat) returns (change: (T, Skillsets8))
    requires RatingCalc.Sound(num)
    requires |vectors| == 7 && forall c :: 0 <= c < 7 ==> vectors[c] == Column(items, c)
    requires len <= |items|
    ensures change == Change(num, pre070, items, (dayId, len))
  {
    var prefixes := seq(7, c requires 0 <= c < 7 && len <= |vectors[c]| => vectors[c][..len]);
    forall c | 0 <= c < 7
      ensures prefixes[c] == Column(items[..len], c)
    {
      assert vectors[c] == Column(items, c);
    }
    assert prefixes == seq(7, c requires 0 <= c < 7 => Column(items[..len], c));
    change := (dayId, OverallOf(num, pre070, SkillsetRatings(num, pre070, prefixes)));
  }

  lemma AppendChange<T>(num: RatingCalc.Numerics, pre070: bool, items: seq<(T, Skillsets7)>,
    dayIndices: seq<(T, nat)>, changes: seq<(T, Skillsets8)>, change: (T, Skillsets8))
    requires RatingCalc.Sound(num) && |changes| < |dayIndices|
    requires forall k :: 0 <= k < |changes| ==>
      dayIndices[k].1 <= |items| && changes[k] == Change(num, pre070, items, dayIndices[k])
    requires dayIndices[|changes|].1 <= |items|
    requires change == Change(num, pre070, items, dayIndices[|changes|])
    ensures forall k :: 0 <= k < |changes| + 1 ==>
      dayIndices[k].1 <= |items| && (changes + [change])[k] == Change(num, pre070, items, dayIndices[k])
  {
    var all := changes + [change];
    forall k | 0 <= k < |changes| + 1
      ensures dayIndices[k].1 <= |items| && all[k] == Change(num, pre070, items, dayIndices[k])
    {
      if k < |changes| {
        assert all[k] == changes[k];
      } else {
        assert all[k] == change;
      }
    }
  }

  /** `SkillTimeline::calculate`: the boundaries as written, each mapped to the ratings over its
      prefix of the input, in boundary order. */
  method Calculate<T(==)>(num: RatingCalc.Numerics, items: seq<(T, Skillsets7)>, pre070: bool)
    returns (changes: seq<(T, Skillsets8)>)
    requires RatingCalc.Sound(num)
    ensures |changes| == |DayIndicesAsWritten(Keys(items))|
    ensures forall i :: 0 <= i < |changes| ==>
      DayIndicesAsWritten(Keys(items))[i].1 <= |items|
      && changes[i] == Change(num, pre070, items, DayIndicesAsWritten(Keys(items))[i])
  {
    var vectors, dayIndices := CollectScores(items);
    AsWrittenBoundaries(Keys(items));
    changes := [];
    for i := 0 to |dayIndices|
      invariant |changes| == i
      invariant forall k :: 0 <= k < i ==>
        dayIndices[k].1 <= |items| && changes[k] == Change(num, pre070, items, dayIndices[k])
    {
      var (dayId, len) := dayIndices[i];
      var change := MapEntry(num, pre070, items, vectors, dayId, len);
      AppendChange(num, pre070, items, dayIndices, changes, change);
      changes := changes + [change];
    }
  }

  /** The documentation example: three scores on one day and two on the next give two entries.
      As written the first entry covers four scores; the corrected boundaries give three. */
  lemma DocumentationExample()
    ensures DayIndicesAsWritten(["2020-08-05", "2020-08-05", "2020-08-05", "2020-08-06", "2020-08-06"])
      == [("2020-08-05", 4), ("2020-08-06", 5)]
    ensures DayIndices(["2020-08-05", "2020-08-05", "2020-08-05", "2020-08-06", "2020-08-06"])
      == [("2020-08-05", 3), ("2020-08-06", 5)]
  {
    var keys := ["2020-08-05", "2020-08-05", "2020-08-05", "2020-08-06", "2020-08-06"];
    assert keys[0] == keys[1] == keys[2] && keys[3] == keys[4] && keys[2] != keys[3];
    assert PushedAsWritten(keys, 3) == [];
    assert PushedCorrected(keys, 3) == [];
  }
}
