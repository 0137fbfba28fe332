/** `FileSize` of `src/structs/file_size.rs`: a number of bytes, its decimal units rounded down,
    and the parser of strings such as "1.5 MiB". The float parser is a parameter; its result is a
    `Float`, so "inf" and "NaN" are among the values it may give. */
module FileSizes {
  import opened Wrappers
  import opened Util
  import opened Floats

  /** The largest `u64`. */
  const U64_MAX: int := 0x1_0000_0000_0000_0000 - 1

  /** An unsigned 64-bit integer. */
  type u64 = x: int | 0 <= x <= U64_MAX

  datatype FileSize = FileSize(bytes: u64)

  /** `kb`: whole kilobytes. */
  function Kb(f: FileSize): (r: u64)
    ensures r * 1_000 <= f.bytes < (r + 1) * 1_000
  {
    f.bytes / 1_000
  }

  /** `mb`: whole megabytes. */
  function Mb(f: FileSize): (r: u64)
    ensures r * 1_000_000 <= f.bytes < (r + 1) * 1_000_000
  {
    f.bytes / 1_000_000
  }

  /** `gb`: whole gigabytes. */
  function Gb(f: FileSize): (r: u64)
    ensures r * 1_000_000_000 <= f.bytes < (r + 1) * 1_000_000_000
  {
    f.bytes / 1_000_000_000
  }

  /** `tb`: whole terabytes. */
  function Tb(f: FileSize): (r: u64)
    ensures r * 1_000_000_000_000 <= f.bytes < (r + 1) * 1_000_000_000_000
  {
    f.bytes / 1_000_000_000_000
  }

  /** Each unit is the previous one rounded down by another factor of a thousand. */
  lemma UnitsNest(f: FileSize)
    ensures Mb(f) == Kb(f) / 1_000
    ensures Gb(f) == Mb(f) / 1_000
    ensures Tb(f) == Gb(f) / 1_000
  {
    ThousandOf(f.bytes, 1_000, Kb(f), Mb(f));
    ThousandOf(f.bytes, 1_000_000, Mb(f), Gb(f));
    ThousandOf(f.bytes, 1_000_000_000, Gb(f), Tb(f));
  }

  /** If `small` and `large` are `x` floored to units `d` and `1000 d`, then `large` is `small`
      floored by a thousand. */
  lemma ThousandOf(x: nat, d: nat, small: nat, large: nat)
    requires d > 0
    requires small * d <= x < (small + 1) * d
    requires large * (d * 1_000) <= x < (large + 1) * (d * 1_000)
    ensures large == small / 1_000
  {
    var q := small / 1_000;
    assert q * 1_000 <= small < (q + 1) * 1_000;
    if large < q {
      assert (large + 1) * 1_000 <= q * 1_000 <= small;
      assert (large + 1) * (d * 1_000) == (large + 1) * 1_000 * d;
      MulMono((large + 1) * 1_000, small, d);
    } else if large > q {
      assert small + 1 <= (q + 1) * 1_000 <= large * 1_000;
      assert large * (d * 1_000) == large * 1_000 * d;
      MulMono(small + 1, large * 1_000, d);
    }
  }

  lemma MulMono(a: nat, b: nat, d: nat)
    requires a <= b
    ensures a * d <= b * d
  {
  }

  /** `char::is_whitespace`: the characters with Unicode's White_Space property. */
  predicate IsWhitespace(c: char)
  {
    || '\U{9}' <= c <= '\U{D}' || c == ' ' || c == '\U{85}' || c == '\U{A0}' || c == '\U{1680}'
    || '\U{2000}' <= c <= '\U{200A}' || c == '\U{2028}' || c == '\U{2029}' || c == '\U{202F}'
    || c == '\U{205F}' || c == '\U{3000}'
  }

  predicate AllWhitespace(s: string)
  {
    forall i :: 0 <= i < |s| ==> IsWhitespace(s[i])
  }

  predicate NoWhitespace(s: string)
  {
    forall i :: 0 <= i < |s| ==> !IsWhitespace(s[i])
  }

  /** The leading whitespace of a string. */
  function LeadingSpace(s: string): (r: nat)
    ensures r <= |s| && AllWhitespace(s[..r])
    ensures r < |s| ==> !IsWhitespace(s[r])
  {
    if s == [] || !IsWhitespace(s[0]) then 0
    else
      var n := LeadingSpace(s[1..]);
      assert s[..n + 1] == [s[0]] + s[1..][..n];
      1 + n
  }

  /** The length of the run of non-whitespace characters a string starts with. */
  function WordLength(s: string): (r: nat)
    ensures r <= |s| && NoWhitespace(s[..r])
    ensures r < |s| ==> IsWhitespace(s[r])
  {
    if s == [] || IsWhitespace(s[0]) then 0
    else
      var n := WordLength(s[1..]);
      assert s[..n + 1] == [s[0]] + s[1..][..n];
      1 + n
  }

  /** One step of `split_whitespace`: the next token and what follows it, or `None` when only
      whitespace is left. */
  function NextToken(s: string): (r: Option<(string, string)>)
    ensures r.None? <==> AllWhitespace(s)
    ensures r.Some? ==> r.value.0 != [] && NoWhitespace(r.value.0)
    ensures r.Some? ==> r.value.1 == [] || IsWhitespace(r.value.1[0])
    ensures r.Some? ==> exists n :: 0 <= n <= |s| && AllWhitespace(s[..n]) && s[n..] == r.value.0 + r.value.1
  {
    var n := LeadingSpace(s);
    if n == |s| then
      assert s[..n] == s;
      None
    else
      var rest := s[n..];
      var w := WordLength(rest);
      assert rest == rest[..w] + rest[w..];
      Some((rest[..w], rest[w..]))
  }

  /** `NextToken` finds a token again behind any whitespace, whatever follows it after a
      whitespace character. */
  lemma NextTokenOf(space: string, token: string, rest: string)
    requires AllWhitespace(space) && token != [] && NoWhitespace(token)
    requires rest == [] || IsWhitespace(rest[0])
    ensures NextToken(space + token + rest) == Some((token, rest))
  {
    var word := token + rest;
    var s := space + word;
    assert space + token + rest == s;
    SkipSpace(space, word);
    assert s[|space|..] == word;
    WordOf(token, rest);
    assert word[..|token|] == token && word[|token|..] == rest;
  }

  lemma {:induction false} SkipSpace(space: string, s: string)
    requires AllWhitespace(space) && s != [] && !IsWhitespace(s[0])
    ensures LeadingSpace(space + s) == |space|
  {
    if space != [] {
      assert (space + s)[1..] == space[1..] + s;
      SkipSpace(space[1..], s);
    }
  }

  lemma {:induction false} WordOf(token: string, rest: string)
    requires NoWhitespace(token) && (rest == [] || IsWhitespace(rest[0]))
    ensures WordLength(token + rest) == |token|
  {
    if token != [] {
      assert (token + rest)[1..] == token[1..] + rest;
      WordOf(token[1..], rest);
    }
  }

  /** `FileSizeParseError`; the float parser's error is not kept. */
  datatype FileSizeParseError = EmptyString | InvalidNumber | NoEnding | UnexpectedEnding(ending: string)

  /** The multiplier of a lowercased ending. */
  function Multiplier(ending: string): (r: Option<u64>)
    ensures r.Some? ==> r.value >= 1
    ensures ending == "b" ==> r == Some(1)
    ensures ending == "kb" || ending == "mb" || ending == "gb" || ending == "tb" ==> r.Some? && r.value % 1000 == 0
    ensures ending == "kib" || ending == "mib" || ending == "gib" || ending == "tib" ==> r.Some? && r.value % 1024 == 0
  {
    match ending
    case "b" => Some(1)
    case "kb" => Some(1000)
    case "kib" => Some(1024)
    case "mb" => Some(1000 * 1000)
    case "mib" => Some(1024 * 1024)
    case "gb" => Some(1000 * 1000 * 1000)
    case "gib" => Some(1024 * 1024 * 1024)
    case "tb" => Some(1000 * 1000 * 1000 * 1000)
    case "tib" => Some(1024 * 1024 * 1024 * 1024)
    case _ => None
  }

  /** The nine endings, each a thousand or 1024 times the one below it. */
  lemma MultiplierTable()
    ensures Multiplier("kb") == Some(1000) && Multiplier("mb") == Some(1000 * Multiplier("kb").value)
    ensures Multiplier("gb") == Some(1000 * Multiplier("mb").value)
    ensures Multiplier("tb") == Some(1000 * Multiplier("gb").value)
    ensures Multiplier("kib") == Some(1024) && Multiplier("mib") == Some(1024 * Multiplier("kib").value)
    ensures Multiplier("gib") == Some(1024 * Multiplier("mib").value)
    ensures Multiplier("tib") == Some(1024 * Multiplier("gib").value)
    ensures Multiplier("B").None? && Multiplier("kB").None? && Multiplier("xb").None?
  {
  }

  function Scale(x: real, m: nat): real
  {
    x * m as real
  }

  /** `(number * multiplier as f64) as u64`: the cast truncates toward zero and saturates, and a
      NaN becomes 0. The multiplier is positive, so an infinity keeps its sign. */
  function ToBytes(number: Float, multiplier: u64): (r: u64)
    requires multiplier >= 1
    ensures number.Finite? && 0.0 <= Scale(number.value, multiplier) < U64_MAX as real + 1.0
      ==> r as real <= Scale(number.value, multiplier) < r as real + 1.0
    ensures number.Finite? && Scale(number.value, multiplier) < 0.0 ==> r == 0
  {
    match number
    case NaN => 0
    case NegInf => 0
    case PosInf => U64_MAX
    case Finite(v) =>
      var x := Scale(v, multiplier);
      if x < 0.0 then 0
      else if x.Floor > U64_MAX then U64_MAX
      else x.Floor
  }

  /** `FileSize::from_str`: the first token is the number, the second the ending; anything after
      the ending is ignored. `lower` is `char::to_lowercase`. */
  function FromStr(s: string, parseF64: string -> Option<Float>, lower: char -> string)
    : (r: Result<FileSize, FileSizeParseError>)
    ensures r == Err(EmptyString) <==> AllWhitespace(s)
    ensures r.Err? && r.error.UnexpectedEnding? ==> Multiplier(r.error.ending).None?
  {
    match NextToken(s)
    case None => Err(EmptyString)
    case Some((numberToken, afterNumber)) =>
      match parseF64(numberToken)
      case None => Err(InvalidNumber)
      case Some(number) => WithEnding(number, afterNumber, lower)
  }

  /** The rest of `from_str` once the number is parsed: the next token is the ending. */
  function WithEnding(number: Float, afterNumber: string, lower: char -> string)
    : (r: Result<FileSize, FileSizeParseError>)
    ensures r == Err(NoEnding) <==> AllWhitespace(afterNumber)
    ensures r.Err? ==> r.error == NoEnding || (r.error.UnexpectedEnding? && Multiplier(r.error.ending).None?)
  {
    match NextToken(afterNumber)
    case None => Err(NoEnding)
    case Some((endingToken, _)) =>
      var ending := ToLowercase(endingToken, lower);
      match Multiplier(ending)
      case None => Err(UnexpectedEnding(ending))
      case Some(multiplier) => Ok(FileSize(ToBytes(number, multiplier)))
  }

  /** The outcome of reading an ending token. */
  function EndingOutcome(number: Float, ending: string, lower: char -> string): Result<FileSize, FileSizeParseError>
  {
    match Multiplier(ToLowercase(ending, lower))
    case None => Err(UnexpectedEnding(ToLowercase(ending, lower)))
    case Some(multiplier) => Ok(FileSize(ToBytes(number, multiplier)))
  }

  /** Every ending of the table is ASCII. */
  lemma MultiplierAscii(ending: string)
    ensures Multiplier(ending).Some? ==> IsAscii(ending)
  {
  }

  /** The multiplier an ending selects is that of its fold: ASCII letters lowered and KELVIN SIGN
      read as 'k'. */
  lemma MultiplierOfFold(ending: string, lower: char -> string)
    requires IsUnicodeLowercase(lower)
    ensures Multiplier(ToLowercase(ending, lower)) == Multiplier(Fold(ending))
  {
    ToLowercaseFold(ending, lower);
    MultiplierAscii(ToLowercase(ending, lower));
    MultiplierAscii(Fold(ending));
  }

  /** A number, whitespace and an ending, followed by anything after more whitespace, parse to the
      number times the ending's multiplier, or to the error naming the lowercased ending when it is
      not in the table. */
  lemma ParseTokens(number: string, gap: string, ending: string, tail: string,
                    parseF64: string -> Option<Float>, lower: char -> string)
    requires number != [] && NoWhitespace(number) && parseF64(number).Some?
    requires gap != [] && AllWhitespace(gap)
    requires ending != [] && NoWhitespace(ending)
    requires tail == [] || IsWhitespace(tail[0])
    ensures FromStr(number + gap + ending + tail, parseF64, lower) == EndingOutcome(parseF64(number).value, ending, lower)
  {
    var after := gap + ending + tail;
    assert number + gap + ending + tail == [] + number + after;
    NumberFirst(number, after, parseF64, lower);
    EndingNext(parseF64(number).value, gap, ending, tail, lower);
  }

  lemma NumberFirst(number: string, after: string, parseF64: string -> Option<Float>, lower: char -> string)
    requires number != [] && NoWhitespace(number) && parseF64(number).Some?
    requires after == [] || IsWhitespace(after[0])
    ensures FromStr([] + number + after, parseF64, lower) == WithEnding(parseF64(number).value, after, lower)
  {
    NextTokenOf([], number, after);
  }

  lemma EndingNext(number: Float, gap: string, ending: string, tail: string, lower: char -> string)
    requires AllWhitespace(gap) && ending != [] && NoWhitespace(ending)
    requires tail == [] || IsWhitespace(tail[0])
    ensures WithEnding(number, gap + ending + tail, lower) == EndingOutcome(number, ending, lower)
  {
    NextTokenOf(gap, ending, tail);
  }

  /** An ending whose fold is in the table gives the number times its multiplier. */
  lemma ParseSize(number: string, gap: string, ending: string, tail: string,
                  parseF64: string -> Option<Float>, lower: char -> string)
    requires IsUnicodeLowercase(lower)
    requires number != [] && NoWhitespace(number) && parseF64(number).Some?
    requires gap != [] && AllWhitespace(gap)
    requires ending != [] && NoWhitespace(ending) && Multiplier(Fold(ending)).Some?
    requires tail == [] || IsWhitespace(tail[0])
    ensures FromStr(number + gap + ending + tail, parseF64, lower)
      == Ok(FileSize(ToBytes(parseF64(number).value, Multiplier(Fold(ending)).value)))
  {
    ParseTokens(number, gap, ending, tail, parseF64, lower);
    MultiplierOfFold(ending, lower);
  }

  /** The letter case of the ending does not matter, whether or not it is in the table. */
  lemma CaseInsensitive(number: string, ending: string, parseF64: string -> Option<Float>, lower: char -> string)
    requires IsUnicodeLowercase(lower)
    requires number != [] && NoWhitespace(number) && parseF64(number).Some?
    requires ending != [] && NoWhitespace(ending)
    ensures FromStr(number + " " + Upper(ending), parseF64, lower) == FromStr(number + " " + ending, parseF64, lower)
    ensures FromStr(number + " " + Lower(ending), parseF64, lower) == FromStr(number + " " + ending, parseF64, lower)
  {
    NoWhitespaceCases(ending);
    ToLowercaseOfCases(ending, lower);
    ParseTokens(number, " ", Upper(ending), [], parseF64, lower);
    ParseTokens(number, " ", Lower(ending), [], parseF64, lower);
    ParseTokens(number, " ", ending, [], parseF64, lower);
    assert number + " " + Upper(ending) + [] == number + " " + Upper(ending);
    assert number + " " + Lower(ending) + [] == number + " " + Lower(ending);
    assert number + " " + ending + [] == number + " " + ending;
  }

  /** Changing the case of ASCII letters keeps a token free of whitespace and non-empty. */
  lemma NoWhitespaceCases(s: string)
    requires NoWhitespace(s)
    ensures NoWhitespace(Upper(s)) && NoWhitespace(Lower(s))
  {
  }

  /** A whole number of kilobytes parses back to that many kilobytes. */
  lemma WholeKilobytes(number: string, n: nat, parseF64: string -> Option<Float>, lower: char -> string)
    requires IsUnicodeLowercase(lower)
    requires number != [] && NoWhitespace(number) && parseF64(number) == Some(Finite(n as real))
    requires n * 1000 <= U64_MAX
    ensures FromStr(number + " kB", parseF64, lower) == Ok(FileSize(n * 1000))
    ensures Kb(FromStr(number + " kB", parseF64, lower).value) == n
  {
    assert number + " " + "kB" + [] == number + " kB";
    assert FromStr(number + " " + "kB" + [], parseF64, lower) == Ok(FileSize(ToBytes(Finite(n as real), 1000))) by {
      KiloEnding();
      ParseSize(number, " ", "kB", [], parseF64, lower);
    }
    WholeBytes(n, 1000);
  }

  lemma KiloEnding()
    ensures "kB" != [] && NoWhitespace("kB") && Multiplier(Fold("kB")) == Some(1000)
  {
    assert Fold("kB") == "kb";
  }

  /** `to_lowercase` reads a KELVIN SIGN as 'k', so "\u{212A}B" is the kilobyte ending. */
  lemma KelvinKilobytes(number: string, parseF64: string -> Option<Float>, lower: char -> string)
    requires IsUnicodeLowercase(lower)
    requires number != [] && NoWhitespace(number) && parseF64(number) == Some(Finite(1.0))
    ensures FromStr(number + " \U{212A}B", parseF64, lower) == Ok(FileSize(1000))
  {
    assert number + " " + "\U{212A}B" + [] == number + " \U{212A}B";
    assert FromStr(number + " " + "\U{212A}B" + [], parseF64, lower) == Ok(FileSize(ToBytes(Finite(1.0), 1000))) by {
      KelvinEnding();
      ParseSize(number, " ", "\U{212A}B", [], parseF64, lower);
    }
    WholeBytes(1, 1000);
  }

  lemma KelvinEnding()
    ensures "\U{212A}B" != [] && NoWhitespace("\U{212A}B") && Multiplier(Fold("\U{212A}B")) == Some(1000)
  {
    assert Fold("\U{212A}B") == "kb";
  }

  /** A whole number times the multiplier is kept exactly while it fits. */
  lemma WholeBytes(n: nat, m: u64)
    requires m >= 1 && n * m <= U64_MAX
    ensures ToBytes(Finite(n as real), m) == n * m
  {
    assert Scale(n as real, m) == (n * m) as real;
  }

  /** Only whitespace is the empty string. */
  lemma OnlyWhitespace(parseF64: string -> Option<Float>, lower: char -> string)
    ensures FromStr(" \t ", parseF64, lower) == Err(EmptyString)
  {
    assert AllWhitespace(" \t ");
  }

  /** A first token the float parser refuses is an invalid number. */
  lemma BadNumber(parseF64: string -> Option<Float>, lower: char -> string)
    requires parseF64("x").None?
    ensures FromStr("x KB", parseF64, lower) == Err(InvalidNumber)
  {
    NextTokenOf([], "x", " KB");
    assert [] + "x" + " KB" == "x KB";
  }

  /** A number with nothing after it has no ending. */
  lemma MissingEnding(parseF64: string -> Option<Float>, lower: char -> string)
    requires parseF64("12") == Some(Finite(12.0))
    ensures FromStr(" 12 ", parseF64, lower) == Err(NoEnding)
  {
    NextTokenOf(" ", "12", " ");
    assert " " + "12" + " " == " 12 ";
    assert AllWhitespace(" ");
  }

  /** An unknown ending is reported lowercased. */
  lemma UnknownEnding(number: string, parseF64: string -> Option<Float>, lower: char -> string)
    requires IsUnicodeLowercase(lower)
    requires number != [] && NoWhitespace(number) && parseF64(number).Some?
    ensures FromStr(number + " XB", parseF64, lower) == Err(UnexpectedEnding("xb"))
  {
    assert number + " " + "XB" + [] == number + " XB";
    assert FromStr(number + " " + "XB" + [], parseF64, lower) == Err(UnexpectedEnding("xb")) by {
      XbEnding(lower);
      ParseTokens(number, " ", "XB", [], parseF64, lower);
    }
  }

  lemma XbEnding(lower: char -> string)
    requires IsUnicodeLowercase(lower)
    ensures "XB" != [] && NoWhitespace("XB") && ToLowercase("XB", lower) == "xb" && Multiplier("xb").None?
  {
    ToLowercaseOfAscii("XB", lower);
    assert Lower("XB") == "xb";
  }

  /** A binary ending multiplies by a power of 1024, and what follows the ending is ignored. */
  lemma KibibyteExample(number: string, parseF64: string -> Option<Float>, lower: char -> string)
    requires IsUnicodeLowercase(lower)
    requires number != [] && NoWhitespace(number) && parseF64(number) == Some(Finite(1.5))
    ensures FromStr(number + " KiB extra", parseF64, lower) == Ok(FileSize(1536))
  {
    assert number + " " + "KiB" + " extra" == number + " KiB extra";
    assert FromStr(number + " " + "KiB" + " extra", parseF64, lower) == Ok(FileSize(ToBytes(Finite(1.5), 1024))) by {
      KibiEnding();
      ParseSize(number, " ", "KiB", " extra", parseF64, lower);
    }
    assert Scale(1.5, 1024) == 1536.0;
  }

  lemma KibiEnding()
    ensures "KiB" != [] && NoWhitespace("KiB") && Multiplier(Fold("KiB")) == Some(1024)
  {
    assert Fold("KiB") == "kib";
  }
}
