/** `src/timing_info.rs`: the BPM changes of a chart, read from the `#BPMS` string of a
    StepMania file (`beat=bpm` pairs separated by commas), and the conversion of note ticks (48
    to a beat) into seconds. The float parser (with the whitespace trimming before it) is a
    parameter. */
module TimingInfo {
  import opened Wrappers
  import opened Util
  import opened Floats

  /** `BpmChange`. */
  datatype BpmChange = BpmChange(beat: Float, bpm: Float)

  /** `TimingInfo`: the bpm at beat 0 and the later changes, in chronological order. */
  datatype TimingInfo = TimingInfo(firstBpm: Float, changes: seq<BpmChange>)

  /** `SmBpmStringParseError`; the parser's own error values are not modelled. */
  datatype BpmError = MissingEquals | InvalidBeatString | InvalidBpmString
    | FirstBpmChangeNotZero(beatInstead: Float) | EncounteredNan

  const COMMA: byte := 44
  const EQUALS: byte := 61

  // ---------------------------------------------------------------- splitting

  /** `iter().position`: the first index of a byte. */
  function Position(s: seq<byte>, b: byte): (r: Option<nat>)
    ensures r.Some? ==> r.value < |s| && s[r.value] == b && b !in s[..r.value]
    ensures r.None? ==> b !in s
  {
    if s == [] then None
    else if s[0] == b then Some(0)
    else match Position(s[1..], b)
      case Some(i) => assert s[..i + 1] == [s[0]] + s[1..][..i]; Some(i + 1)
      case None => None
  }

  /** `[u8]::split` at every comma: always at least one piece, and no piece holds a comma. */
  function Split(s: seq<byte>): (pieces: seq<seq<byte>>)
    ensures pieces != []
    ensures forall k :: 0 <= k < |pieces| ==> COMMA !in pieces[k]
    decreases |s|
  {
    match Position(s, COMMA)
    case None => [s]
    case Some(i) => [s[..i]] + Split(s[i + 1..])
  }

  /** The pieces put back together with commas between them. */
  function Join(pieces: seq<seq<byte>>): seq<byte>
    requires pieces != []
  {
    if |pieces| == 1 then pieces[0] else pieces[0] + [COMMA] + Join(pieces[1..])
  }

  /** Splitting loses nothing: joining the pieces gives the string back. */
  lemma {:induction false} JoinSplit(s: seq<byte>)
    ensures Join(Split(s)) == s
    decreases |s|
  {
    match Position(s, COMMA)
    case None =>
    case Some(i) =>
      JoinSplit(s[i + 1..]);
      assert s == s[..i] + [COMMA] + s[i + 1..];
  }

  // ---------------------------------------------------------------- pairs

  /** One `beat=bpm` pair: the text around the first `=`, each parsed by `parse`; NaN is refused
      only once both halves have parsed. */
  function ParsePair(pair: seq<byte>, parse: seq<byte> -> Option<Float>): (r: Result<BpmChange, BpmError>)
    ensures r.Ok? ==> !r.value.beat.NaN? && !r.value.bpm.NaN?
    ensures r == Err(MissingEquals) <==> EQUALS !in pair
  {
    match Position(pair, EQUALS)
    case None => Err(MissingEquals)
    case Some(i) =>
      match parse(pair[..i])
      case None => Err(InvalidBeatString)
      case Some(beat) =>
        match parse(pair[i + 1..])
        case None => Err(InvalidBpmString)
        case Some(bpm) =>
          if beat.NaN? || bpm.NaN? then Err(EncounteredNan) else Ok(BpmChange(beat, bpm))
  }

  /** The changes of all pairs in order, or the error of the first pair that fails. */
  function ParsePairs(pairs: seq<seq<byte>>, parse: seq<byte> -> Option<Float>): (r: Result<seq<BpmChange>, BpmError>)
    ensures r.Ok? ==> |r.value| == |pairs|
    ensures r.Ok? ==> forall k :: 0 <= k < |pairs| ==> Ok(r.value[k]) == ParsePair(pairs[k], parse)
  {
    if pairs == [] then Ok([])
    else match ParsePair(pairs[0], parse)
      case Err(e) => Err(e)
      case Ok(change) =>
        match ParsePairs(pairs[1..], parse)
        case Err(e) => Err(e)
        case Ok(changes) => Ok([change] + changes)
  }

  /** Some changes already pushed, in front of the outcome of the remaining pairs. */
  function Prepend(changes: seq<BpmChange>, rest: Result<seq<BpmChange>, BpmError>): Result<seq<BpmChange>, BpmError>
  {
    match rest
    case Ok(later) => Ok(changes + later)
    case Err(e) => Err(e)
  }

  // ---------------------------------------------------------------- sorting

  /** `a.beat <= b.beat` on beats that are not NaN. */
  predicate NotAfter(a: BpmChange, b: BpmChange)
  {
    !Below(b.beat, a.beat)
  }

  ghost predicate NoNan(changes: seq<BpmChange>)
  {
    forall k :: 0 <= k < |changes| ==> !changes[k].beat.NaN? && !changes[k].bpm.NaN?
  }

  /** Every beat at or before every later one. */
  ghost predicate SortedByBeat(changes: seq<BpmChange>)
  {
    forall i, j :: 0 <= i < j < |changes| ==> NotAfter(changes[i], changes[j])
  }

  /** Every beat at or before the next one. */
  ghost predicate Chained(changes: seq<BpmChange>)
  {
    forall i :: 0 <= i < |changes| - 1 ==> NotAfter(changes[i], changes[i + 1])
  }

  /** `Below` is a strict total order on the values that are not NaN. */
  lemma BelowOrder(x: Float, y: Float, z: Float)
    requires !x.NaN? && !y.NaN? && !z.NaN?
    ensures Below(x, y) || x == y || Below(y, x)
    ensures !(Below(x, y) && Below(y, x))
    ensures !Below(x, y) && !Below(y, z) ==> !Below(x, z)
  {
  }

  /** On beats that are not NaN, ordered neighbours make an ordered sequence. */
  lemma {:induction false} ChainedSorted(changes: seq<BpmChange>)
    requires NoNan(changes) && Chained(changes)
    ensures SortedByBeat(changes)
  {
    if |changes| > 1 {
      var rest := changes[1..];
      ChainedSorted(rest);
      forall i, j | 0 <= i < j < |changes|
        ensures NotAfter(changes[i], changes[j])
      {
        if i == 0 && j > 1 {
          assert NotAfter(rest[0], rest[j - 1]);
          BelowOrder(changes[j].beat, changes[1].beat, changes[0].beat);
        } else if i > 0 {
          assert NotAfter(rest[i - 1], rest[j - 1]);
        }
      }
    }
  }

  /** One change put into sorted changes, after every change with the same beat. */
  function Insert(c: BpmChange, sorted: seq<BpmChange>): (r: seq<BpmChange>)
    ensures multiset(r) == multiset(sorted) + multiset{c}
    ensures r != [] && (r[0] == c || (sorted != [] && r[0] == sorted[0]))
  {
    if sorted == [] then [c]
    else if Below(c.beat, sorted[0].beat) then [c] + sorted
    else
      assert sorted == [sorted[0]] + sorted[1..];
      [sorted[0]] + Insert(c, sorted[1..])
  }

  /** `changes.sort_by(|a, b| a.beat.partial_cmp(&b.beat).unwrap())`, a stable sort. */
  function SortByBeat(changes: seq<BpmChange>): (r: seq<BpmChange>)
    ensures multiset(r) == multiset(changes)
  {
    if changes == [] then []
    else
      var init := changes[..|changes| - 1];
      assert changes == init + [changes[|changes| - 1]];
      Insert(changes[|changes| - 1], SortByBeat(init))
  }

  lemma {:induction false} InsertChained(c: BpmChange, sorted: seq<BpmChange>)
    requires NoNan(sorted) && !c.beat.NaN? && !c.bpm.NaN? && Chained(sorted)
    ensures Chained(Insert(c, sorted)) && NoNan(Insert(c, sorted))
  {
    if sorted != [] {
      if Below(c.beat, sorted[0].beat) {
        InsertInFront(c, sorted);
      } else {
        InsertChained(c, sorted[1..]);
        InsertBehind(c, sorted);
      }
    }
  }

  lemma InsertInFront(c: BpmChange, sorted: seq<BpmChange>)
    requires NoNan(sorted) && !c.beat.NaN? && !c.bpm.NaN? && Chained(sorted)
    requires sorted != [] && Below(c.beat, sorted[0].beat)
    ensures Chained(Insert(c, sorted)) && NoNan(Insert(c, sorted))
  {
    var r := Insert(c, sorted);
    BelowOrder(c.beat, sorted[0].beat, c.beat);
    assert forall i :: 0 < i < |r| ==> r[i] == sorted[i - 1];
  }

  lemma InsertBehind(c: BpmChange, sorted: seq<BpmChange>)
    requires NoNan(sorted) && !c.beat.NaN? && !c.bpm.NaN? && Chained(sorted)
    requires sorted != [] && !Below(c.beat, sorted[0].beat)
    requires Chained(Insert(c, sorted[1..])) && NoNan(Insert(c, sorted[1..]))
    ensures Chained(Insert(c, sorted)) && NoNan(Insert(c, sorted))
  {
    var rest := Insert(c, sorted[1..]);
    assert NotAfter(sorted[0], rest[0]) by {
      if rest[0] != c {
        assert rest[0] == sorted[1];
      }
    }
    ConsChained(sorted[0], rest);
  }

  /** A change not after the head of ordered changes can go in front of them. */
  lemma ConsChained(x: BpmChange, rest: seq<BpmChange>)
    requires Chained(rest) && NoNan(rest) && !x.beat.NaN? && !x.bpm.NaN?
    requires rest != [] ==> NotAfter(x, rest[0])
    ensures Chained([x] + rest) && NoNan([x] + rest)
  {
    var r := [x] + rest;
    forall i | 0 <= i < |r| - 1
      ensures NotAfter(r[i], r[i + 1])
    {
      if i > 0 {
        assert r[i] == rest[i - 1] && r[i + 1] == rest[i - 1 + 1];
      }
    }
    forall i | 0 < i < |r|
      ensures !r[i].beat.NaN? && !r[i].bpm.NaN?
    {
      assert r[i] == rest[i - 1];
    }
  }

  /** The sort puts the beats in order. */
  lemma {:induction false} SortedBySort(changes: seq<BpmChange>)
    requires NoNan(changes)
    ensures SortedByBeat(SortByBeat(changes)) && NoNan(SortByBeat(changes))
  {
    SortChained(changes);
    ChainedSorted(SortByBeat(changes));
  }

  lemma {:induction false} SortChained(changes: seq<BpmChange>)
    requires NoNan(changes)
    ensures Chained(SortByBeat(changes)) && NoNan(SortByBeat(changes))
  {
    if changes != [] {
      SortChained(changes[..|changes| - 1]);
      InsertChained(changes[|changes| - 1], SortByBeat(changes[..|changes| - 1]));
    }
  }

  // ---------------------------------------------------------------- from_sm_bpm_string

  /** What is left once the changes are sorted: the first must be at beat 0, and its bpm becomes
      the first bpm. */
  function Finish(sorted: seq<BpmChange>): Result<TimingInfo, BpmError>
    requires sorted != []
  {
    if sorted[0].beat != Finite(0.0) then Err(FirstBpmChangeNotZero(sorted[0].beat))
    else Ok(TimingInfo(sorted[0].bpm, sorted[1..]))
  }

  /** What `TimingInfo::from_sm_bpm_string` returns. */
  function FromSmBpmStringSpec(s: seq<byte>, parse: seq<byte> -> Option<Float>): Result<TimingInfo, BpmError>
  {
    match ParsePairs(Split(s), parse)
    case Err(e) => Err(e)
    case Ok(changes) => Finish(SortByBeat(changes))
  }

  /** `TimingInfo::from_sm_bpm_string`. `changes[0]` always exists: there is at least one
      piece and every piece either fails or adds a change. */
  method FromSmBpmString(s: seq<byte>, parse: seq<byte> -> Option<Float>) returns (r: Result<TimingInfo, BpmError>)
    ensures r == FromSmBpmStringSpec(s, parse)
  {
    var pairs := Split(s);
    var changes: seq<BpmChange> := [];
    assert pairs[0..] == pairs;
    assert Prepend([], ParsePairs(pairs, parse)) == ParsePairs(pairs, parse) by {
      if ParsePairs(pairs, parse).Ok? {
        assert [] + ParsePairs(pairs, parse).value == ParsePairs(pairs, parse).value;
      }
    }
    for i := 0 to |pairs|
      invariant |changes| == i
      invariant ParsePairs(pairs, parse) == Prepend(changes, ParsePairs(pairs[i..], parse))
    {
      var pair := pairs[i];
      assert pairs[i..][0] == pair && pairs[i..][1..] == pairs[i + 1..];
      var change := ParsePairOf(pair, parse);
      if change.Err? {
        return Err(change.error);
      }
      PrependStep(changes, change.value, ParsePairs(pairs[i + 1..], parse));
      changes := changes + [change.value];
    }
    assert pairs[|pairs|..] == [];
    assert changes + [] == changes;
    changes := SortByBeat(changes);
    assert changes != [] by {
      assert |pairs| > 0;
      NonEmptyMultiset(changes);
    }
    if changes[0].beat != Finite(0.0) {
      return Err(FirstBpmChangeNotZero(changes[0].beat));
    }
    var firstBpm := changes[0].bpm;
    changes := changes[1..];
    r := Ok(TimingInfo(firstBpm, changes));
  }

  /** The body of the loop over the pairs, with its early returns. */
  method ParsePairOf(pair: seq<byte>, parse: seq<byte> -> Option<Float>) returns (r: Result<BpmChange, BpmError>)
    ensures r == ParsePair(pair, parse)
  {
    var equalSignIndex := Position(pair, EQUALS);
    if equalSignIndex.None? {
      return Err(MissingEquals);
    }
    var beat := parse(pair[..equalSignIndex.value]);
    if beat.None? {
      return Err(InvalidBeatString);
    }
    var bpm := parse(pair[equalSignIndex.value + 1..]);
    if bpm.None? {
      return Err(InvalidBpmString);
    }
    if beat.value.NaN? || bpm.value.NaN? {
      return Err(EncounteredNan);
    }
    r := Ok(BpmChange(beat.value, bpm.value));
  }

  lemma PrependStep(changes: seq<BpmChange>, change: BpmChange, rest: Result<seq<BpmChange>, BpmError>)
    ensures Prepend(changes, Prepend([change], rest)) == Prepend(changes + [change], rest)
  {
    if rest.Ok? {
      assert changes + ([change] + rest.value) == changes + [change] + rest.value;
    }
  }

  lemma NonEmptyMultiset(changes: seq<BpmChange>)
    requires multiset(changes) != multiset{}
    ensures changes != []
  {
  }

  /** Every change parsed from a string is free of NaN. */
  lemma ParsedNoNan(pairs: seq<seq<byte>>, parse: seq<byte> -> Option<Float>)
    requires ParsePairs(pairs, parse).Ok?
    ensures NoNan(ParsePairs(pairs, parse).value) && |ParsePairs(pairs, parse).value| == |pairs|
  {
    var changes := ParsePairs(pairs, parse).value;
    forall k | 0 <= k < |changes|
      ensures !changes[k].beat.NaN? && !changes[k].bpm.NaN?
    {
      assert Ok(changes[k]) == ParsePair(pairs[k], parse);
    }
  }

  /** The first change after sorting has the smallest beat of all. */
  lemma SortedFirstIsLeast(changes: seq<BpmChange>)
    requires NoNan(changes) && changes != []
    ensures var sorted := SortByBeat(changes);
      && sorted != [] && sorted[0] in changes
      && forall k :: 0 <= k < |changes| ==> !Below(changes[k].beat, sorted[0].beat)
  {
    var sorted := SortByBeat(changes);
    SortedBySort(changes);
    assert changes[0] in multiset(sorted);
    assert sorted[0] in multiset(changes);
    forall k | 0 <= k < |changes|
      ensures !Below(changes[k].beat, sorted[0].beat)
    {
      assert changes[k] in multiset(sorted);
      var j :| 0 <= j < |sorted| && sorted[j] == changes[k];
      if j > 0 {
        assert NotAfter(sorted[0], sorted[j]);
      }
    }
  }

  /** A successful parse holds every parsed change but the one at beat 0, in chronological
      order, none of them NaN and none before beat 0. */
  lemma FromSmBpmStringOk(s: seq<byte>, parse: seq<byte> -> Option<Float>)
    requires FromSmBpmStringSpec(s, parse).Ok?
    ensures var ti := FromSmBpmStringSpec(s, parse).value;
      && ParsePairs(Split(s), parse).Ok?
      && multiset(ti.changes) + multiset{BpmChange(Finite(0.0), ti.firstBpm)} == multiset(ParsePairs(Split(s), parse).value)
      && SortedByBeat(ti.changes) && NoNan(ti.changes) && !ti.firstBpm.NaN?
      && forall k :: 0 <= k < |ti.changes| ==> !Below(ti.changes[k].beat, Finite(0.0))
  {
    var changes := ParsePairs(Split(s), parse).value;
    ParsedNoNan(Split(s), parse);
    SortedBySort(changes);
    FinishOk(SortByBeat(changes));
  }

  lemma FinishOk(sorted: seq<BpmChange>)
    requires sorted != [] && NoNan(sorted) && SortedByBeat(sorted) && Finish(sorted).Ok?
    ensures var ti := Finish(sorted).value;
      && multiset(ti.changes) + multiset{BpmChange(Finite(0.0), ti.firstBpm)} == multiset(sorted)
      && SortedByBeat(ti.changes) && NoNan(ti.changes) && !ti.firstBpm.NaN?
      && forall k :: 0 <= k < |ti.changes| ==> !Below(ti.changes[k].beat, Finite(0.0))
  {
    assert sorted == [sorted[0]] + sorted[1..];
    assert multiset(sorted) == multiset(sorted[1..]) + multiset{sorted[0]};
    forall k | 0 <= k < |sorted| - 1
      ensures !Below(sorted[1..][k].beat, Finite(0.0))
    {
      assert NotAfter(sorted[0], sorted[k + 1]);
    }
  }

  /** When the smallest beat is not 0 the error names it: it is one of the parsed beats and no
      parsed beat is smaller. */
  lemma FromSmBpmStringNotZero(s: seq<byte>, parse: seq<byte> -> Option<Float>)
    requires ParsePairs(Split(s), parse).Ok? && FromSmBpmStringSpec(s, parse).Err?
    ensures var changes := ParsePairs(Split(s), parse).value;
      var e := FromSmBpmStringSpec(s, parse).error;
      && e.FirstBpmChangeNotZero? && e.beatInstead != Finite(0.0)
      && (exists k :: 0 <= k < |changes| && changes[k].beat == e.beatInstead)
      && (forall k :: 0 <= k < |changes| ==> !Below(changes[k].beat, e.beatInstead))
  {
    var changes := ParsePairs(Split(s), parse).value;
    ParsedNoNan(Split(s), parse);
    SortedFirstIsLeast(changes);
  }

  // ---------------------------------------------------------------- ticks_to_seconds

  ghost predicate TicksSorted(ticks: seq<nat>)
  {
    forall i, j :: 0 <= i < j < |ticks| ==> ticks[i] <= ticks[j]
  }

  /** The timing as `ticks_to_seconds` can use it: every beat and bpm finite, every bpm non-zero,
      and the changes in chronological order (the invariant the struct documents). */
  ghost predicate Usable(ti: TimingInfo)
  {
    && ti.firstBpm.Finite? && ti.firstBpm.value != 0.0
    && (forall k :: 0 <= k < |ti.changes| ==>
          ti.changes[k].beat.Finite? && ti.changes[k].bpm.Finite? && ti.changes[k].bpm.value != 0.0)
    && (forall i, j :: 0 <= i < j < |ti.changes| ==> ti.changes[i].beat.value <= ti.changes[j].beat.value)
  }

  /** The seconds one beat lasts at some bpm. */
  function BeatTime(bpm: real): real
    requires bpm != 0.0
  {
    60.0 / bpm
  }

  /** The beat of a tick: 48 ticks to a beat. */
  function TickBeat(tick: nat): real
  {
    tick as real / 48.0
  }

  /** The three cursors of `ticks_to_seconds`. */
  datatype Cursor = Cursor(beat: real, second: real, beatTime: real)

  /** The second at a beat, going on from a cursor at its pace. */
  function Along(c: Cursor, beat: real): real
  {
    c.second + (beat - c.beat) * c.beatTime
  }

  /** The cursors once the first `k` changes have been passed. */
  function CursorAfter(ti: TimingInfo, k: nat): Cursor
    requires Usable(ti) && k <= |ti.changes|
  {
    if k == 0 then Cursor(0.0, 0.0, BeatTime(ti.firstBpm.value))
    else
      var c := CursorAfter(ti, k - 1);
      var change := ti.changes[k - 1];
      Cursor(change.beat.value, Along(c, change.beat.value), BeatTime(change.bpm.value))
  }

  /** The number of changes at or before a beat: the segment the beat falls in. A beat exactly
      on a change belongs to the segment after it. */
  function Segment(changes: seq<BpmChange>, beat: real): (r: nat)
    requires forall k :: 0 <= k < |changes| ==> changes[k].beat.Finite?
    ensures r <= |changes|
  {
    if changes == [] || beat < changes[0].beat.value then 0
    else 1 + Segment(changes[1..], beat)
  }

  /** On changes in chronological order, a beat lies past the `k`-th change exactly when that
      change's beat is at or before it. */
  lemma {:induction false} SegmentPast(ti: TimingInfo, beat: real, k: nat)
    requires Usable(ti) && k < |ti.changes|
    ensures Segment(ti.changes, beat) > k <==> ti.changes[k].beat.value <= beat
    decreases |ti.changes|
  {
    if k > 0 && ti.changes[0].beat.value <= beat {
      var rest := TimingInfo(ti.firstBpm, ti.changes[1..]);
      SegmentPast(rest, beat, k - 1);
    }
  }

  /** The second of a tick, from the cursors of its segment. */
  function SecondOf(ti: TimingInfo, tick: nat): real
    requires Usable(ti)
  {
    SecondAt(ti, TickBeat(tick))
  }

  /** The second of a beat, from the cursors of its segment. */
  function SecondAt(ti: TimingInfo, beat: real): real
    requires Usable(ti)
  {
    Along(CursorAfter(ti, Segment(ti.changes, beat)), beat)
  }

  /** `ticks_to_seconds`: one second per tick, in order. */
  method TicksToSeconds(ti: TimingInfo, ticks: seq<nat>) returns (secondsVec: seq<real>)
    requires Usable(ti) && TicksSorted(ticks)
    ensures |secondsVec| == |ticks|
    ensures forall i :: 0 <= i < |ticks| ==> secondsVec[i] == SecondOf(ti, ticks[i])
  {
    var cursor := CursorAfter(ti, 0);
    var ticksI := 0;
    secondsVec := [];
    for k := 0 to |ti.changes|
      invariant cursor == CursorAfter(ti, k)
      invariant Converted(ti, ticks, ticksI, secondsVec, k)
    {
      var change := ti.changes[k];
      ticksI, secondsVec := ConvertTicksUpTo(ti, ticks, ticksI, secondsVec, k, cursor);
      cursor := Cursor(change.beat.value, Along(cursor, change.beat.value), BeatTime(change.bpm.value));
    }
    ticksI, secondsVec := ConvertTicksUpTo(ti, ticks, ticksI, secondsVec, |ti.changes|, cursor);
  }

  /** The first `ticksI` ticks are converted, they are the ticks before segment `k`, and all
      later ones lie in segment `k` or after. */
  ghost predicate Converted(ti: TimingInfo, ticks: seq<nat>, ticksI: nat, secondsVec: seq<real>, k: nat)
    requires Usable(ti)
  {
    && ticksI <= |ticks| && |secondsVec| == ticksI
    && (forall i :: 0 <= i < ticksI ==> secondsVec[i] == SecondOf(ti, ticks[i]))
    && (forall i :: ticksI <= i < |ticks| ==> Segment(ti.changes, TickBeat(ticks[i])) >= k)
  }

  /** The closure `convert_ticks_up_to`: converts the ticks before the `k`-th change's beat (all
      remaining ticks when `k` is past the last change) with the cursors of segment `k`. */
  method ConvertTicksUpTo(ti: TimingInfo, ticks: seq<nat>, ticksI0: nat, secondsVec0: seq<real>, k: nat, cursor: Cursor)
    returns (ticksI: nat, secondsVec: seq<real>)
    requires Usable(ti) && TicksSorted(ticks) && k <= |ti.changes| && cursor == CursorAfter(ti, k)
    requires Converted(ti, ticks, ticksI0, secondsVec0, k)
    ensures Converted(ti, ticks, ticksI, secondsVec, k + 1)
    ensures k == |ti.changes| ==> ticksI == |ticks|
  {
    ticksI, secondsVec := ticksI0, secondsVec0;
    while ticksI < |ticks| && (k == |ti.changes| || TickBeat(ticks[ticksI]) < ti.changes[k].beat.value)
      invariant Converted(ti, ticks, ticksI, secondsVec, k)
      invariant ticksI0 <= ticksI
      decreases |ticks| - ticksI
    {
      var beat := TickBeat(ticks[ticksI]);
      if k < |ti.changes| {
        SegmentPast(ti, beat, k);
      }
      var second := Along(cursor, beat);
      secondsVec := secondsVec + [second];
      ticksI := ticksI + 1;
    }
    if ticksI < |ticks| {
      forall i | ticksI <= i < |ticks|
        ensures Segment(ti.changes, TickBeat(ticks[i])) >= k + 1
      {
        SegmentPast(ti, TickBeat(ticks[i]), k);
      }
    }
  }

  /** A tick exactly on a change's beat is converted in the segment after the change (the test is
      a strict `<`), and it gets the same second the segment before would have given it. */
  lemma OnChangeBeat(ti: TimingInfo, k: nat)
    requires Usable(ti) && k < |ti.changes|
    ensures Segment(ti.changes, ti.changes[k].beat.value) > k
    ensures Along(CursorAfter(ti, k + 1), ti.changes[k].beat.value)
      == Along(CursorAfter(ti, k), ti.changes[k].beat.value)
  {
    SegmentPast(ti, ti.changes[k].beat.value, k);
  }

  /** A chart as `from_sm_bpm_string` leaves it, with every bpm positive. */
  ghost predicate Forward(ti: TimingInfo)
  {
    && Usable(ti) && ti.firstBpm.value > 0.0
    && forall k :: 0 <= k < |ti.changes| ==> ti.changes[k].beat.value >= 0.0 && ti.changes[k].bpm.value > 0.0
  }

  lemma AlongMonotone(c: Cursor, b1: real, b2: real)
    requires c.beatTime > 0.0 && b1 <= b2
    ensures Along(c, b1) <= Along(c, b2)
  {
    assert (b2 - c.beat) * c.beatTime - (b1 - c.beat) * c.beatTime == (b2 - b1) * c.beatTime;
  }

  lemma PositiveBeatTime(bpm: real)
    requires bpm > 0.0
    ensures BeatTime(bpm) > 0.0
  {
  }

  /** The cursors move forward: each beat time is positive and the cursor's beat is the beat of
      the last change passed (0 before any). */
  lemma {:induction false} CursorShape(ti: TimingInfo, k: nat)
    requires Forward(ti) && k <= |ti.changes|
    ensures CursorAfter(ti, k).beatTime > 0.0
    ensures k == 0 ==> CursorAfter(ti, k).beat == 0.0
    ensures k > 0 ==> CursorAfter(ti, k).beat == ti.changes[k - 1].beat.value
  {
    if k == 0 {
      PositiveBeatTime(ti.firstBpm.value);
    } else {
      PositiveBeatTime(ti.changes[k - 1].bpm.value);
    }
  }

  /** The second at which each segment starts never decreases. */
  lemma {:induction false} CursorSecondsGrow(ti: TimingInfo, j: nat, m: nat)
    requires Forward(ti) && j <= m <= |ti.changes|
    ensures CursorAfter(ti, j).second <= CursorAfter(ti, m).second
    decreases m - j
  {
    if j < m {
      CursorSecondsGrow(ti, j + 1, m);
      var c := CursorAfter(ti, j);
      CursorShape(ti, j);
      assert c.beat <= ti.changes[j].beat.value by {
        if j > 0 {
          assert ti.changes[j - 1].beat.value <= ti.changes[j].beat.value;
        }
      }
      AlongMonotone(c, c.beat, ti.changes[j].beat.value);
    }
  }

  lemma {:induction false} SegmentMonotone(changes: seq<BpmChange>, b1: real, b2: real)
    requires forall k :: 0 <= k < |changes| ==> changes[k].beat.Finite?
    requires b1 <= b2
    ensures Segment(changes, b1) <= Segment(changes, b2)
  {
    if changes != [] && changes[0].beat.value <= b1 {
      SegmentMonotone(changes[1..], b1, b2);
    }
  }

  /** Within its segment a beat is reached no later than the start of the next segment. */
  lemma SegmentEnd(ti: TimingInfo, b: real, j: nat)
    requires Forward(ti) && j == Segment(ti.changes, b) && j < |ti.changes|
    ensures Along(CursorAfter(ti, j), b) <= CursorAfter(ti, j + 1).second
  {
    SegmentPast(ti, b, j);
    CursorShape(ti, j);
    AlongMonotone(CursorAfter(ti, j), b, ti.changes[j].beat.value);
  }

  /** A beat is reached no earlier than the start of its segment. */
  lemma SegmentStart(ti: TimingInfo, b: real, j: nat)
    requires Forward(ti) && 0.0 <= b && j == Segment(ti.changes, b)
    ensures CursorAfter(ti, j).second <= Along(CursorAfter(ti, j), b)
  {
    CursorShape(ti, j);
    if j > 0 {
      SegmentPast(ti, b, j - 1);
    }
    AlongMonotone(CursorAfter(ti, j), CursorAfter(ti, j).beat, b);
  }

  /** From one segment into a later one the second grows: to the end of the first segment, over
      the segments between, then within the last. */
  lemma CrossSegments(ti: TimingInfo, b1: real, b2: real, j1: nat, j2: nat)
    requires Forward(ti) && 0.0 <= b1 <= b2
    requires j1 == Segment(ti.changes, b1) && j2 == Segment(ti.changes, b2) && j1 < j2
    ensures Along(CursorAfter(ti, j1), b1) <= Along(CursorAfter(ti, j2), b2)
  {
    SegmentEnd(ti, b1, j1);
    CursorSecondsGrow(ti, j1 + 1, j2);
    SegmentStart(ti, b2, j2);
  }

  /** With positive bpms, later beats get later seconds. */
  lemma BeatsMonotone(ti: TimingInfo, b1: real, b2: real)
    requires Forward(ti) && 0.0 <= b1 <= b2
    ensures SecondAt(ti, b1) <= SecondAt(ti, b2)
  {
    var j1, j2 := Segment(ti.changes, b1), Segment(ti.changes, b2);
    SegmentMonotone(ti.changes, b1, b2);
    if j1 == j2 {
      CursorShape(ti, j1);
      AlongMonotone(CursorAfter(ti, j1), b1, b2);
    } else {
      CrossSegments(ti, b1, b2, j1, j2);
    }
  }

  /** With positive bpms, later ticks get later seconds: the seconds of sorted ticks come out
      sorted. */
  lemma SecondsMonotone(ti: TimingInfo, t1: nat, t2: nat)
    requires Forward(ti) && t1 <= t2
    ensures SecondOf(ti, t1) <= SecondOf(ti, t2)
  {
    BeatsMonotone(ti, TickBeat(t1), TickBeat(t2));
  }

  /** 120 bpm, switching to 60 bpm at beat 1: half a second per beat, then a second per beat. */
  function TwoTempos(): TimingInfo
  {
    TimingInfo(Finite(120.0), [BpmChange(Finite(1.0), Finite(60.0))])
  }

  lemma TwoTemposUsable()
    ensures Usable(TwoTempos())
  {
  }

  lemma TwoTemposCursors()
    ensures Usable(TwoTempos())
    ensures CursorAfter(TwoTempos(), 0) == Cursor(0.0, 0.0, 0.5)
    ensures CursorAfter(TwoTempos(), 1) == Cursor(1.0, 0.5, 1.0)
  {
    TwoTemposUsable();
    assert BeatTime(120.0) == 0.5;
    assert BeatTime(60.0) == 1.0;
  }

  lemma TwoTemposSegments()
    ensures Segment(TwoTempos().changes, 0.5) == 0
    ensures Segment(TwoTempos().changes, 1.0) == 1
    ensures Segment(TwoTempos().changes, 2.0) == 1
  {
    assert TwoTempos().changes[1..] == [];
  }

  /** Tick 24 (beat 0.5) falls before the change, tick 48 exactly on it, tick 96 after it. */
  lemma TwoTemposSeconds()
    ensures Usable(TwoTempos())
    ensures SecondOf(TwoTempos(), 24) == 0.25
    ensures SecondOf(TwoTempos(), 48) == 0.5
    ensures SecondOf(TwoTempos(), 96) == 1.5
  {
    TwoTemposCursors();
    TwoTemposSegments();
    assert TickBeat(24) == 0.5 && TickBeat(48) == 1.0 && TickBeat(96) == 2.0;
  }
}
