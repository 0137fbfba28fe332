/** `src/pattern.rs`: the community pattern notation. A pattern string is read byte by byte:
    `[...]` is one row holding every lane named between the brackets, a lane character outside
    brackets is a row of that single lane, `0` is an empty row, and anything else is skipped.
    Strings are their UTF-8 bytes; skipping an unknown character skips all of its bytes. */
module Pattern {
  import opened Wrappers
  import opened Util

  // ---------------------------------------------------------------- UTF-8 structure

  /** The number of bytes of the character a byte starts, or 0 for a continuation byte or a
      byte that never starts a character. */
  function LeadWidth(b: byte): (r: nat)
    ensures r <= 4
  {
    if b < 0x80 then 1
    else if b < 0xC0 then 0
    else if b < 0xE0 then 2
    else if b < 0xF0 then 3
    else if b < 0xF8 then 4
    else 0
  }

  predicate IsContinuation(b: byte)
  {
    0x80 <= b < 0xC0
  }

  /** The bytes of a `&str`: a sequence of characters, each a lead byte followed by as many
      continuation bytes as the lead announces. */
  predicate Utf8(s: seq<byte>)
    decreases |s|
  {
    s == [] ||
    (var w := LeadWidth(s[0]);
     && 0 < w <= |s|
     && (forall k :: 1 <= k < w ==> IsContinuation(s[k]))
     && Utf8(s[w..]))
  }

  /** `str::is_char_boundary`. */
  predicate IsCharBoundary(s: seq<byte>, i: nat)
  {
    i == 0 || i == |s| || (i < |s| && !IsContinuation(s[i]))
  }

  /** Cutting a valid string just after an ASCII byte leaves a valid string. */
  lemma {:induction false} SuffixAfterAscii(s: seq<byte>, k: nat)
    requires Utf8(s) && k < |s| && s[k] < 0x80
    ensures Utf8(s[k + 1..])
    decreases |s|
  {
    var w := LeadWidth(s[0]);
    if k >= w {
      assert s[w..][k - w] == s[k];
      SuffixAfterAscii(s[w..], k - w);
      assert s[w..][k - w + 1..] == s[k + 1..];
    } else {
      assert k == 0 && w == 1;
    }
  }

  /** `first_char_width`: the first char boundary after the start, tried up to byte 9. The loop
      cannot run out on a valid string, whose first character has at most 4 bytes; on an empty
      string the source panics. */
  method FirstCharWidth(s: seq<byte>) returns (r: nat)
    requires Utf8(s) && s != []
    ensures r == LeadWidth(s[0]) && 1 <= r <= 4
    ensures IsCharBoundary(s, r) && forall i :: 0 < i < r ==> !IsCharBoundary(s, i)
  {
    var w := LeadWidth(s[0]);
    assert w == |s| || LeadWidth(s[w..][0]) > 0;
    for i := 1 to 10
      invariant i <= w
      invariant forall j :: 0 < j < i ==> !IsCharBoundary(s, j)
    {
      if IsCharBoundary(s, i) {
        return i;
      }
    }
  }

  /** The UTF-8 widths of the test characters: `a`, `ä` and the magnifying glass emoji. */
  method FirstCharWidthExamples()
  {
    var a := FirstCharWidth([0x61]);
    assert a == 1;
    assert Utf8([0xC3, 0xA4]) by {
      assert [0xC3, 0xA4][2..] == [];
    }
    var ae := FirstCharWidth([0xC3, 0xA4]);
    assert ae == 2;
    assert Utf8([0xF0, 0x9F, 0x94, 0x8E]) by {
      assert [0xF0, 0x9F, 0x94, 0x8E][4..] == [];
    }
    var glass := FirstCharWidth([0xF0, 0x9F, 0x94, 0x8E]);
    assert glass == 4;
  }

  // ---------------------------------------------------------------- lanes

  /** `CharToLane`. */
  datatype CharToLane = Lane(lane: nat) | Invalid | Space

  /** `CharToLane::as_some`: the lane of a lane character, nothing for a gap or an invalid one. */
  function AsSome(c: CharToLane): (r: Option<nat>)
    ensures r.Some? <==> c.Lane?
    ensures c.Lane? ==> r == Some(c.lane)
  {
    match c
    case Lane(l) => Some(l)
    case _ => None
  }

  /** `char_to_lane`: the digit `0` is a gap, `1` to `9` are lanes 0 to 8, and `l`, `d`, `u`,
      `r` in either case are lanes 0 to 3. */
  function CharToLaneOf(c: byte): (r: CharToLane)
    ensures r.Lane? ==> r.lane < 9
    ensures r.Lane? <==> (49 <= c <= 57 || LowerByte(c) in {108, 100, 117, 114})
    ensures r.Space? <==> c == 48
  {
    var lower := LowerByte(c);
    if lower == 48 then Space
    else if 49 <= lower <= 57 then Lane(c - 49)
    else if lower == 108 then Lane(0)
    else if lower == 100 then Lane(1)
    else if lower == 117 then Lane(2)
    else if lower == 114 then Lane(3)
    else Invalid
  }

  /** The digit naming a lane. */
  function Digit(lane: nat): byte
    requires lane < 9
  {
    49 + lane
  }

  /** Digits name lanes, letters are case-insensitive, and the test cases of `test_char_to_lane`. */
  lemma CharToLaneProperties(c: byte, lane: nat)
    requires lane < 9
    ensures CharToLaneOf(Digit(lane)) == Lane(lane)
    ensures CharToLaneOf(LowerByte(c)) == CharToLaneOf(c)
    ensures CharToLaneOf(53) == Lane(4) && CharToLaneOf(108) == Lane(0) && CharToLaneOf(76) == Lane(0)
    ensures CharToLaneOf(99) == Invalid && CharToLaneOf(48) == Space
  {
  }

  /** The lanes named by some bytes, in order, skipping gaps and invalid bytes
      (`filter_map(|c| char_to_lane(c).as_some())`). */
  function Lanes(bytes: seq<byte>): (r: seq<nat>)
    ensures forall k :: 0 <= k < |r| ==> r[k] < 9
    ensures |r| <= |bytes|
  {
    if bytes == [] then []
    else (match AsSome(CharToLaneOf(bytes[0])) case Some(l) => [l] case None => []) + Lanes(bytes[1..])
  }

  /** `str::find`: the first index of a byte. */
  function Find(s: seq<byte>, b: byte): (r: Option<nat>)
    ensures r.Some? ==> r.value < |s| && s[r.value] == b && forall k :: 0 <= k < r.value ==> s[k] != b
    ensures r.None? ==> forall k :: 0 <= k < |s| ==> s[k] != b
  {
    if s == [] then None
    else if s[0] == b then Some(0)
    else match Find(s[1..], b) case Some(i) => Some(i + 1) case None => None
  }

  const OPEN: byte := 91
  const CLOSE: byte := 93

  // ---------------------------------------------------------------- parsing

  /** The rows one character outside brackets adds: its lane, an empty row for `0`, or none. */
  function CharRows(c: byte): seq<seq<nat>>
  {
    match CharToLaneOf(c)
    case Lane(l) => [[l]]
    case Space => [[]]
    case Invalid => []
  }

  /** The rows one step of the parser adds and the rest of the input it leaves. */
  function ParseStep(s: seq<byte>): (r: (seq<seq<nat>>, seq<byte>))
    requires s != []
    ensures |r.1| < |s|
  {
    if s[0] == OPEN && Find(s, CLOSE).Some? then
      var end := Find(s, CLOSE).value;
      ([Lanes(s[1..end])], s[end + 1..])
    else
      (CharRows(s[0]), s[CharLen(s)..])
  }

  /** The width of the first character, as its lead byte announces it; 1 on bytes that are not a
      string, which the parser never sees. */
  function CharLen(s: seq<byte>): (r: nat)
    requires s != []
    ensures 1 <= r <= |s|
  {
    if 0 < LeadWidth(s[0]) <= |s| then LeadWidth(s[0]) else 1
  }

  /** `Pattern::parse_taps` as a function: the rows of every step until the input is used up. */
  function ParseTapsSpec(s: seq<byte>): seq<seq<nat>>
    decreases |s|
  {
    if s == [] then [] else ParseStep(s).0 + ParseTapsSpec(ParseStep(s).1)
  }

  /** `Pattern::parse_taps`: pops a bracketed row or a single character off the front of the
      input until it is empty. */
  method ParseTaps(s: seq<byte>) returns (rows: seq<seq<nat>>)
    requires Utf8(s)
    ensures rows == ParseTapsSpec(s)
  {
    var rest := s;
    rows := [];
    while rest != []
      invariant Utf8(rest)
      invariant rows + ParseTapsSpec(rest) == ParseTapsSpec(s)
      decreases |rest|
    {
      var added, next := PopRows(rest);
      rows := rows + added;
      rest := next;
    }
  }

  /** One pass of the loop in `parse_taps`: the rows pushed and the input left over. */
  method PopRows(rest: seq<byte>) returns (added: seq<seq<nat>>, next: seq<byte>)
    requires Utf8(rest) && rest != []
    ensures (added, next) == ParseStep(rest) && Utf8(next)
  {
    var close := Find(rest, CLOSE);
    if rest[0] == OPEN && close.Some? {
      var end := close.value;
      added := [Lanes(rest[1..end])];
      next := rest[end + 1..];
      SuffixAfterAscii(rest, end);
    } else {
      match CharToLaneOf(rest[0]) {
        case Lane(l) => added := [[l]];
        case Space => added := [[]];
        case Invalid => added := [];
      }
      assert added == CharRows(rest[0]);
      var width := FirstCharWidth(rest);
      next := rest[width..];
    }
  }

  /** Every lane the parser produces is one of the nine digit lanes. */
  lemma {:induction false} ParsedLanesBelowNine(s: seq<byte>)
    ensures forall r, k :: 0 <= r < |ParseTapsSpec(s)| && 0 <= k < |ParseTapsSpec(s)[r]| ==> ParseTapsSpec(s)[r][k] < 9
    decreases |s|
  {
    if s != [] {
      ParsedLanesBelowNine(ParseStep(s).1);
    }
  }

  /** The bracketed notation of some rows: `[` the lane digits `]` for every row. */
  function Render(rows: seq<seq<nat>>): seq<byte>
    requires forall r, k :: 0 <= r < |rows| && 0 <= k < |rows[r]| ==> rows[r][k] < 9
  {
    if rows == [] then []
    else [OPEN] + Digits(rows[0]) + [CLOSE] + Render(rows[1..])
  }

  function Digits(row: seq<nat>): seq<byte>
    requires forall k :: 0 <= k < |row| ==> row[k] < 9
  {
    seq(|row|, k requires 0 <= k < |row| => Digit(row[k]))
  }

  lemma {:induction false} LanesOfDigits(row: seq<nat>)
    requires forall k :: 0 <= k < |row| ==> row[k] < 9
    ensures Lanes(Digits(row)) == row
  {
    if row != [] {
      LanesOfDigits(row[1..]);
      assert Digits(row)[1..] == Digits(row[1..]);
    }
  }

  lemma {:induction false} RenderIsAscii(rows: seq<seq<nat>>)
    requires forall r, k :: 0 <= r < |rows| && 0 <= k < |rows[r]| ==> rows[r][k] < 9
    ensures forall k :: 0 <= k < |Render(rows)| ==> Render(rows)[k] < 0x80
  {
    if rows != [] {
      RenderIsAscii(rows[1..]);
    }
  }

  /** Parsing the bracketed notation of any rows of digit lanes gives those rows back, whatever
      follows; an empty row is written `[]`. */
  lemma {:induction false} ParseRender(rows: seq<seq<nat>>, tail: seq<byte>)
    requires forall r, k :: 0 <= r < |rows| && 0 <= k < |rows[r]| ==> rows[r][k] < 9
    ensures ParseTapsSpec(Render(rows) + tail) == rows + ParseTapsSpec(tail)
  {
    if rows == [] {
      assert Render(rows) + tail == tail;
      EmptyPrefix(rows, ParseTapsSpec(tail));
    } else {
      ParseRender(rows[1..], tail);
      ParseRenderStep(rows, tail);
    }
  }

  lemma ParseRenderStep(rows: seq<seq<nat>>, tail: seq<byte>)
    requires forall r, k :: 0 <= r < |rows| && 0 <= k < |rows[r]| ==> rows[r][k] < 9
    requires rows != [] && ParseTapsSpec(Render(rows[1..]) + tail) == rows[1..] + ParseTapsSpec(tail)
    ensures ParseTapsSpec(Render(rows) + tail) == rows + ParseTapsSpec(tail)
  {
    var rest := Render(rows[1..]) + tail;
    RenderUnfold(rows, tail);
    RowParse(rows[0], rest);
    Cons(rows, ParseTapsSpec(rest), ParseTapsSpec(Render(rows) + tail), ParseTapsSpec(tail));
  }

  lemma EmptyPrefix(rows: seq<seq<nat>>, after: seq<seq<nat>>)
    requires rows == []
    ensures rows + after == after
  {
  }

  /** Putting the first row back in front; stated over plain sequences so that the parser's
      definition stays out of the argument. */
  lemma Cons(rows: seq<seq<nat>>, later: seq<seq<nat>>, all: seq<seq<nat>>, after: seq<seq<nat>>)
    requires rows != [] && later == rows[1..] + after && all == [rows[0]] + later
    ensures all == rows + after
  {
    assert rows + after == [rows[0]] + (rows[1..] + after);
  }

  lemma RenderUnfold(rows: seq<seq<nat>>, tail: seq<byte>)
    requires forall r, k :: 0 <= r < |rows| && 0 <= k < |rows[r]| ==> rows[r][k] < 9
    requires rows != []
    ensures Render(rows) + tail == [OPEN] + Digits(rows[0]) + [CLOSE] + (Render(rows[1..]) + tail)
  {
  }

  lemma RowParse(row: seq<nat>, rest: seq<byte>)
    requires forall k :: 0 <= k < |row| ==> row[k] < 9
    ensures ParseTapsSpec([OPEN] + Digits(row) + [CLOSE] + rest) == [row] + ParseTapsSpec(rest)
  {
    RowStep(row, rest);
  }

  /** One bracketed row is one step of the parser. */
  lemma RowStep(row: seq<nat>, rest: seq<byte>)
    requires forall k :: 0 <= k < |row| ==> row[k] < 9
    ensures ParseStep([OPEN] + Digits(row) + [CLOSE] + rest) == ([row], rest)
  {
    var d := Digits(row);
    var s := [OPEN] + d + [CLOSE] + rest;
    var end := |row| + 1;
    assert s == ([OPEN] + d) + [CLOSE] + rest;
    FindAfter([OPEN] + d, rest, CLOSE);
    assert s[1..end] == d;
    assert s[end + 1..] == rest;
    LanesOfDigits(row);
  }

  /** The first `b` is the one after a prefix without any. */
  lemma FindAfter(prefix: seq<byte>, rest: seq<byte>, b: byte)
    requires forall k :: 0 <= k < |prefix| ==> prefix[k] != b
    ensures Find(prefix + [b] + rest, b) == Some(|prefix|)
  {
    var s := prefix + [b] + rest;
    assert s[|prefix|] == b;
    assert forall k :: 0 <= k < |prefix| ==> s[k] == prefix[k];
  }

  /** The documentation example: `[1234]04` is a jump over all four lanes, a gap and lane 3. */
  lemma DocExample()
    ensures ParseTapsSpec([OPEN, 49, 50, 51, 52, CLOSE, 48, 52]) == [[0, 1, 2, 3], [], [3]]
  {
    GapThenLane();
    RenderJump();
    ParseRender([[0, 1, 2, 3]], [48, 52]);
  }

  lemma GapThenLane()
    ensures ParseTapsSpec([48, 52]) == [[], [3]]
  {
  }

  lemma RenderJump()
    ensures Render([[0, 1, 2, 3]]) + [48, 52] == [OPEN, 49, 50, 51, 52, CLOSE, 48, 52]
  {
  }

  // ---------------------------------------------------------------- keymode

  function Flatten(rows: seq<seq<nat>>): seq<nat>
  {
    if rows == [] then [] else rows[0] + Flatten(rows[1..])
  }

  function MaxLane(lanes: seq<nat>): (r: nat)
    requires lanes != []
    ensures forall k :: 0 <= k < |lanes| ==> lanes[k] <= r
    ensures exists k :: 0 <= k < |lanes| && lanes[k] == r
  {
    if |lanes| == 1 then lanes[0]
    else
      var m := MaxLane(lanes[1..]);
      assert forall k :: 1 <= k < |lanes| ==> lanes[k] == lanes[1..][k - 1];
      if lanes[0] >= m then lanes[0] else m
  }

  /** `Pattern::keymode`: one more than the largest lane, at least 4, or None without lanes. */
  function Keymode(rows: seq<seq<nat>>): (r: Option<nat>)
    ensures r.None? <==> Flatten(rows) == []
    ensures r.Some? ==> r.value >= 4 && forall k :: 0 <= k < |Flatten(rows)| ==> Flatten(rows)[k] + 1 <= r.value
    ensures r.Some? ==> r.value == 4 || exists k :: 0 <= k < |Flatten(rows)| && Flatten(rows)[k] + 1 == r.value
  {
    var lanes := Flatten(rows);
    if lanes == [] then None
    else
      var keymode := 1 + MaxLane(lanes);
      Some(if keymode >= 4 then keymode else 4)
  }

  /** The documentation examples of `keymode`: `1234` and `123` are 4k, `9` is 9k and the empty
      pattern has no keymode. */
  lemma KeymodeExamples()
    ensures Keymode(ParseTapsSpec([49, 50, 51, 52])) == Some(4)
    ensures Keymode(ParseTapsSpec([49, 50, 51])) == Some(4)
    ensures Keymode(ParseTapsSpec([57])) == Some(9)
    ensures Keymode(ParseTapsSpec([])) == None
  {
    FourSingleLanes();
    ThreeSingleLanes();
    NinthLane();
    KeymodeOfRows();
  }

  lemma FourSingleLanes()
    ensures ParseTapsSpec([49, 50, 51, 52]) == [[0], [1], [2], [3]]
  {
  }

  lemma ThreeSingleLanes()
    ensures ParseTapsSpec([49, 50, 51]) == [[0], [1], [2]]
  {
  }

  lemma NinthLane()
    ensures ParseTapsSpec([57]) == [[8]]
  {
  }

  lemma KeymodeOfRows()
    ensures Keymode([[0], [1], [2], [3]]) == Some(4)
    ensures Keymode([[0], [1], [2]]) == Some(4)
    ensures Keymode([[8]]) == Some(9)
  {
    KeymodeOfFour();
    KeymodeOfThree();
    assert Flatten([[8]]) == [8];
  }

  lemma KeymodeOfFour()
    ensures Keymode([[0], [1], [2], [3]]) == Some(4)
  {
    FlattenFour();
    MaxOfFour();
  }

  lemma FlattenFour()
    ensures Flatten([[0], [1], [2], [3]]) == [0, 1, 2, 3]
  {
    assert Flatten([[0], [1], [2], [3]]) == [0] + Flatten([[1], [2], [3]]);
  }

  lemma MaxOfFour()
    ensures MaxLane([0, 1, 2, 3]) == 3
  {
  }

  lemma KeymodeOfThree()
    ensures Keymode([[0], [1], [2]]) == Some(4)
  {
    assert Flatten([[0], [1], [2]]) == [0, 1, 2];
    assert MaxLane([0, 1, 2]) == 2;
  }
}
