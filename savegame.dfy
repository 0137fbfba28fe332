/** `src/savegame.rs`: the lines of an Etterna ReplayV2 file. Every line is either skipped, a
    hold drop (it starts with `H`), or `tick deviation rest`, where the first byte of `rest` is the
    column and its third byte, when there is one, the note type: taps and hold heads become
    notes and mines count as mine hits. The tick and float parsers are parameters. */
module Savegame {
  import opened Wrappers
  import opened Util

  /** `ReplayFileNote`. */
  datatype ReplayNote = ReplayNote(tick: u32, deviation: real, column: byte)

  /** `ReplayFileData`. */
  datatype ReplayData = ReplayData(notes: seq<ReplayNote>, numMineHits: nat, numHoldDrops: nat)

  /** The token parsers: `btoi::btou` for the tick and `parse_sm_float` for the deviation. */
  datatype Parsers = Parsers(tick: seq<byte> -> Option<u32>, float: seq<byte> -> Option<real>)

  /** Where `parse_replay` panics: an `expect` on a missing token, or indexing the first byte of
      an empty remainder. */
  datatype Panic = MissingToken | EmptyRemainder

  /** What one line does to the replay data. */
  datatype LineEffect = Skip | HoldDrop | Tap(note: ReplayNote) | MineHit | Abort(panic: Panic)

  const SPACE: byte := 32
  const ZERO: byte := 48
  const HOLD: byte := 72

  /** The part of a line before its first space and, if there is a space, the part after it. */
  function SplitOnce(s: seq<byte>): (r: (seq<byte>, Option<seq<byte>>))
    ensures r.1.None? ==> r.0 == s && SPACE !in s
    ensures r.1.Some? ==> s == r.0 + [SPACE] + r.1.value && SPACE !in r.0
  {
    if s == [] then ([], None)
    else if s[0] == SPACE then ([], Some(s[1..]))
    else
      var (head, tail) := SplitOnce(s[1..]);
      ([s[0]] + head, tail)
  }

  /** `line.splitn(3, |&c| c == b' ')`: at most three tokens, the last one holding the rest. */
  function SplitN3(line: seq<byte>): (tokens: seq<seq<byte>>)
    ensures 1 <= |tokens| <= 3
    ensures |tokens| == 1 ==> tokens[0] == line && SPACE !in line
    ensures |tokens| == 2 ==> line == tokens[0] + [SPACE] + tokens[1] && SPACE !in tokens[0] + tokens[1]
    ensures |tokens| == 3 ==> line == tokens[0] + [SPACE] + tokens[1] + [SPACE] + tokens[2]
    ensures |tokens| == 3 ==> SPACE !in tokens[0] + tokens[1]
  {
    var (first, rest) := SplitOnce(line);
    match rest
    case None => [first]
    case Some(rest) =>
      var (second, remainder) := SplitOnce(rest);
      match remainder
      case None => [first, second]
      case Some(remainder) => [first, second, remainder]
  }

  /** `u8` subtraction of `b'0'`, wrapping as a release build does (a debug build panics on a
      byte below `b'0'`). */
  function DigitOf(b: byte): (r: byte)
    ensures b >= ZERO ==> r == b - ZERO
    ensures b < ZERO ==> r == b - ZERO + 256
  {
    (b - ZERO) % 256
  }

  /** The body of the loop in `parse_replay`, for one line. */
  function Classify(line: seq<byte>, p: Parsers): LineEffect
  {
    if |line| == 0 then Skip
    else if line[0] == HOLD then HoldDrop
    else
      var tokens := SplitN3(line);
      match p.tick(tokens[0])
      case None => Skip
      case Some(tick) =>
        if |tokens| < 2 then Abort(MissingToken)
        else match p.float(tokens[1])
          case None => Skip
          case Some(deviation) =>
            if |tokens| < 3 then Abort(MissingToken)
            else
              var remainder := tokens[2];
              if |remainder| == 0 then Abort(EmptyRemainder)
              else
                var column := DigitOf(remainder[0]);
                var noteType := if |remainder| >= 3 then DigitOf(remainder[2]) else 1;
                if noteType == 1 || noteType == 2 then Tap(ReplayNote(tick, deviation, column))
                else if noteType == 4 then MineHit
                else Skip
  }

  /** The replay data after one more line. */
  function Apply(d: ReplayData, effect: LineEffect): Result<ReplayData, Panic>
  {
    match effect
    case Skip => Ok(d)
    case HoldDrop => Ok(d.(numHoldDrops := d.numHoldDrops + 1))
    case Tap(note) => Ok(d.(notes := d.notes + [note]))
    case MineHit => Ok(d.(numMineHits := d.numMineHits + 1))
    case Abort(panic) => Err(panic)
  }

  /** The rest of the loop, from some data on. */
  function ReplayFrom(d: ReplayData, lines: seq<seq<byte>>, p: Parsers): Result<ReplayData, Panic>
    decreases |lines|
  {
    if lines == [] then Ok(d)
    else match Apply(d, Classify(lines[0], p))
      case Ok(next) => ReplayFrom(next, lines[1..], p)
      case Err(panic) => Err(panic)
  }

  const EMPTY: ReplayData := ReplayData([], 0, 0)

  /** What `parse_replay` returns for the lines of a file, or where it panics. */
  function ReplaySpec(lines: seq<seq<byte>>, p: Parsers): Result<ReplayData, Panic>
  {
    ReplayFrom(EMPTY, lines, p)
  }

  /** `parse_replay`. */
  method ParseReplay(lines: seq<seq<byte>>, p: Parsers) returns (r: Result<ReplayData, Panic>)
    ensures r == ReplaySpec(lines, p)
  {
    var notes: seq<ReplayNote> := [];
    var numMineHits := 0;
    var numHoldDrops := 0;
    for i := 0 to |lines|
      invariant ReplayFrom(ReplayData(notes, numMineHits, numHoldDrops), lines[i..], p) == ReplaySpec(lines, p)
    {
      var line := lines[i];
      assert lines[i..][1..] == lines[i + 1..];
      if |line| == 0 {
        continue;
      }
      if line[0] == HOLD {
        numHoldDrops := numHoldDrops + 1;
        continue;
      }
      var tokens := SplitN3(line);
      var tick := match p.tick(tokens[0]) case Some(x) => x case None => 0;
      if p.tick(tokens[0]).None? {
        continue;
      }
      if |tokens| < 2 {
        return Err(MissingToken);
      }
      var deviation := match p.float(tokens[1]) case Some(x) => x case None => 0.0;
      if p.float(tokens[1]).None? {
        continue;
      }
      if |tokens| < 3 {
        return Err(MissingToken);
      }
      var remainder := tokens[2];
      if |remainder| == 0 {
        return Err(EmptyRemainder);
      }
      var column := DigitOf(remainder[0]);
      var noteType := if |remainder| >= 3 then DigitOf(remainder[2]) else 1;
      if noteType == 1 || noteType == 2 {
        notes := notes + [ReplayNote(tick, deviation, column)];
      } else if noteType == 4 {
        numMineHits := numMineHits + 1;
      }
    }
    assert lines[|lines|..] == [];
    r := Ok(ReplayData(notes, numMineHits, numHoldDrops));
  }

  // ---------------------------------------------------------------- properties of the loop

  /** The loop over a file is the loop over its first lines followed by the loop over the rest. */
  lemma {:induction false} ReplayFromAppend(d: ReplayData, a: seq<seq<byte>>, b: seq<seq<byte>>, p: Parsers)
    ensures ReplayFrom(d, a + b, p)
      == match ReplayFrom(d, a, p) case Ok(e) => ReplayFrom(e, b, p) case Err(panic) => Err(panic)
    decreases |a|
  {
    if a != [] {
      assert (a + b)[0] == a[0] && (a + b)[1..] == a[1..] + b;
      match Apply(d, Classify(a[0], p))
      case Ok(next) => ReplayFromAppend(next, a[1..], b, p);
      case Err(_) =>
    } else {
      assert a + b == b;
    }
  }

  /** Empty lines change nothing, wherever they are. */
  lemma EmptyLineIgnored(a: seq<seq<byte>>, b: seq<seq<byte>>, p: Parsers)
    ensures ReplaySpec(a + [[]] + b, p) == ReplaySpec(a + b, p)
  {
    ReplayFromAppend(EMPTY, a, [[]] + b, p);
    ReplayFromAppend(EMPTY, a, b, p);
    assert a + [[]] + b == a + ([[]] + b);
    assert ([[]] + b)[1..] == b;
  }

  /** The number of lines starting with `H`. */
  function HoldLines(lines: seq<seq<byte>>): (r: nat)
    ensures r <= |lines|
  {
    if lines == [] then 0
    else (if |lines[0]| > 0 && lines[0][0] == HOLD then 1 else 0) + HoldLines(lines[1..])
  }

  /** The sum of the three outputs. */
  function Outputs(d: ReplayData): nat
  {
    |d.notes| + d.numMineHits + d.numHoldDrops
  }

  /** A file that parses keeps the notes found so far in front, counts every `H` line as a hold
      drop, and has each line add at most one output. */
  lemma {:induction false} ReplayFromCounts(d: ReplayData, lines: seq<seq<byte>>, p: Parsers)
    requires ReplayFrom(d, lines, p).Ok?
    ensures var e := ReplayFrom(d, lines, p).value;
      && |d.notes| <= |e.notes| && e.notes[..|d.notes|] == d.notes
      && e.numMineHits >= d.numMineHits
      && e.numHoldDrops == d.numHoldDrops + HoldLines(lines)
      && Outputs(e) <= Outputs(d) + |lines|
    decreases |lines|
  {
    if lines != [] {
      var next := Apply(d, Classify(lines[0], p)).value;
      ReplayFromCounts(next, lines[1..], p);
      var e := ReplayFrom(d, lines, p).value;
      assert |d.notes| <= |next.notes|;
      assert e.notes[..|next.notes|][..|d.notes|] == e.notes[..|d.notes|];
    }
  }

  /** `parse_replay` on a file that does not panic: one hold drop per `H` line, and at most one
      note, mine hit or hold drop per line. */
  lemma ReplayCounts(lines: seq<seq<byte>>, p: Parsers)
    requires ReplaySpec(lines, p).Ok?
    ensures ReplaySpec(lines, p).value.numHoldDrops == HoldLines(lines)
    ensures Outputs(ReplaySpec(lines, p).value) <= |lines|
  {
    ReplayFromCounts(EMPTY, lines, p);
  }

  // ---------------------------------------------------------------- single lines

  /** Splitting at the first space finds it. */
  lemma {:induction false} SplitOnceAt(head: seq<byte>, rest: seq<byte>)
    requires SPACE !in head
    ensures SplitOnce(head + [SPACE] + rest) == (head, Some(rest))
  {
    if head == [] {
      assert head + [SPACE] + rest == [SPACE] + rest;
    } else {
      SplitOnceAt(head[1..], rest);
      assert (head + [SPACE] + rest)[1..] == head[1..] + [SPACE] + rest;
      assert head == [head[0]] + head[1..];
    }
  }

  /** A line of the form `tick deviation remainder` splits into those three tokens. */
  lemma SplitN3Of(tick: seq<byte>, deviation: seq<byte>, remainder: seq<byte>)
    requires SPACE !in tick && SPACE !in deviation
    ensures SplitN3(tick + [SPACE] + deviation + [SPACE] + remainder) == [tick, deviation, remainder]
  {
    SplitOnceAt(tick, deviation + [SPACE] + remainder);
    SplitOnceAt(deviation, remainder);
    assert tick + [SPACE] + deviation + [SPACE] + remainder == tick + [SPACE] + (deviation + [SPACE] + remainder);
  }

  /** A well-formed line: the note type (`1` if the remainder is a bare column) decides between a
      note at that column, a mine hit, and nothing (lifts, fakes and unknown types). */
  lemma NoteLine(tickToken: seq<byte>, deviationToken: seq<byte>, remainder: seq<byte>, p: Parsers)
    requires SPACE !in tickToken && SPACE !in deviationToken
    requires tickToken != [] && tickToken[0] != HOLD
    requires p.tick(tickToken).Some? && p.float(deviationToken).Some? && remainder != []
    ensures var line := tickToken + [SPACE] + deviationToken + [SPACE] + remainder;
      var note := ReplayNote(p.tick(tickToken).value, p.float(deviationToken).value, DigitOf(remainder[0]));
      && (|remainder| < 3 ==> Classify(line, p) == Tap(note))
      && (|remainder| >= 3 && remainder[2] in {49, 50} ==> Classify(line, p) == Tap(note))
      && (|remainder| >= 3 && remainder[2] == 52 ==> Classify(line, p) == MineHit)
      && (|remainder| >= 3 && remainder[2] in {53, 55} ==> Classify(line, p) == Skip)
  {
    SplitN3Of(tickToken, deviationToken, remainder);
  }

  /** The lines that panic: a parsable tick without a deviation token, a parsable tick and
      deviation without a remainder, and an empty remainder. */
  lemma PanicLines(tickToken: seq<byte>, deviationToken: seq<byte>, p: Parsers)
    requires SPACE !in tickToken && SPACE !in deviationToken
    requires tickToken != [] && tickToken[0] != HOLD && p.tick(tickToken).Some?
    ensures Classify(tickToken, p) == Abort(MissingToken)
    ensures p.float(deviationToken).Some? ==> Classify(tickToken + [SPACE] + deviationToken, p) == Abort(MissingToken)
    ensures p.float(deviationToken).Some? ==>
      Classify(tickToken + [SPACE] + deviationToken + [SPACE], p) == Abort(EmptyRemainder)
  {
    SplitOnceAt(tickToken, deviationToken);
    assert SplitN3(tickToken + [SPACE] + deviationToken) == [tickToken, deviationToken];
    SplitN3Of(tickToken, deviationToken, []);
    assert tickToken + [SPACE] + deviationToken + [SPACE] + [] == tickToken + [SPACE] + deviationToken + [SPACE];
  }

  /** A line whose tick or deviation does not parse is skipped, whatever follows. */
  lemma UnparsableLine(tickToken: seq<byte>, deviationToken: seq<byte>, remainder: seq<byte>, p: Parsers)
    requires SPACE !in tickToken && SPACE !in deviationToken
    requires tickToken != [] && tickToken[0] != HOLD
    requires p.tick(tickToken).None? || p.float(deviationToken).None?
    ensures Classify(tickToken + [SPACE] + deviationToken + [SPACE] + remainder, p) == Skip
  {
    SplitN3Of(tickToken, deviationToken, remainder);
  }
}
