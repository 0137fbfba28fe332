/** `src/skillsets.rs`: the seven and eight skillsets as enums and as records of ratings, the
    user-input parser, and the overall ratings derived from the seven. */
module Skillsets {
  import opened Wrappers
  import opened Util
  import RatingCalc

  /** The skillsets without overall, in declaration order. */
  datatype Skillset7 = Stream | Jumpstream | Handstream | Stamina | Jackspeed | Chordjack | Technical

  /** The skillsets with overall first, in declaration order. */
  datatype Skillset8 = Overall | Stream | Jumpstream | Handstream | Stamina | Jackspeed | Chordjack | Technical

  /** `Skillset7::list`. */
  function List7(): (r: seq<Skillset7>)
    ensures |r| == 7
    ensures forall i, j :: 0 <= i < j < |r| ==> r[i] != r[j]
  {
    [Skillset7.Stream, Skillset7.Jumpstream, Skillset7.Handstream, Skillset7.Stamina,
     Skillset7.Jackspeed, Skillset7.Chordjack, Skillset7.Technical]
  }

  /** `Skillset8::list`: `Overall` first, then the seven in the order of `Skillset7::list`. */
  function List8(): (r: seq<Skillset8>)
    ensures |r| == 8 && r[0] == Overall
    ensures forall i, j :: 0 <= i < j < |r| ==> r[i] != r[j]
    ensures forall i :: 0 <= i < 7 ==> r[i + 1] == IntoSkillset8(List7()[i])
  {
    [Overall, Skillset8.Stream, Skillset8.Jumpstream, Skillset8.Handstream, Skillset8.Stamina,
     Skillset8.Jackspeed, Skillset8.Chordjack, Skillset8.Technical]
  }

  /** Both lists hold every variant. */
  lemma ListsComplete()
    ensures forall s: Skillset7 :: s in List7()
    ensures forall s: Skillset8 :: s in List8()
  {
    forall s: Skillset7
      ensures s in List7()
    {
      match s
      case Stream => assert List7()[0] == s;
      case Jumpstream => assert List7()[1] == s;
      case Handstream => assert List7()[2] == s;
      case Stamina => assert List7()[3] == s;
      case Jackspeed => assert List7()[4] == s;
      case Chordjack => assert List7()[5] == s;
      case Technical => assert List7()[6] == s;
    }
    forall s: Skillset8
      ensures s in List8()
    {
      match s
      case Overall => assert List8()[0] == s;
      case Stream => assert List8()[1] == s;
      case Jumpstream => assert List8()[2] == s;
      case Handstream => assert List8()[3] == s;
      case Stamina => assert List8()[4] == s;
      case Jackspeed => assert List8()[5] == s;
      case Chordjack => assert List8()[6] == s;
      case Technical => assert List8()[7] == s;
    }
  }

  /** `Skillset7::into_skillset8`. */
  function IntoSkillset8(s: Skillset7): Skillset8
  {
    match s
    case Stream => Skillset8.Stream
    case Jumpstream => Skillset8.Jumpstream
    case Handstream => Skillset8.Handstream
    case Stamina => Skillset8.Stamina
    case Jackspeed => Skillset8.Jackspeed
    case Chordjack => Skillset8.Chordjack
    case Technical => Skillset8.Technical
  }

  /** `Skillset8::into_skillset7` (also `TryFrom<Skillset8>`): `Overall` has no counterpart. */
  function IntoSkillset7(s: Skillset8): Option<Skillset7>
  {
    match s
    case Overall => None
    case Stream => Some(Skillset7.Stream)
    case Jumpstream => Some(Skillset7.Jumpstream)
    case Handstream => Some(Skillset7.Handstream)
    case Stamina => Some(Skillset7.Stamina)
    case Jackspeed => Some(Skillset7.Jackspeed)
    case Chordjack => Some(Skillset7.Chordjack)
    case Technical => Some(Skillset7.Technical)
  }

  /** The two conversions are inverse: every seven-skillset survives the trip through eight, and
      every eight-skillset except `Overall` comes from exactly one seven-skillset. */
  lemma ConversionsRoundTrip()
    ensures forall s :: IntoSkillset7(IntoSkillset8(s)) == Some(s)
    ensures forall s :: IntoSkillset7(s) == None <==> s == Overall
    ensures forall s, t :: IntoSkillset7(s) == Some(t) ==> IntoSkillset8(t) == s
    ensures forall s, t :: IntoSkillset8(s) == IntoSkillset8(t) ==> s == t
  {
  }

  /** The spellings `from_user_input` accepts for each skillset, in lower case. */
  function Aliases(s: Skillset8): set<string>
  {
    match s
    case Overall => {"overall"}
    case Stream => {"stream"}
    case Jumpstream => {"js", "jumpstream"}
    case Handstream => {"hs", "handstream"}
    case Stamina => {"stam", "stamina"}
    case Jackspeed => {"jack", "jacks", "jackspeed"}
    case Chordjack => {"cj", "chordjack", "chordjacks"}
    case Technical => {"tech", "technical"}
  }

  /** `Skillset8::from_user_input`: look up the Unicode-lowercased input in the alias table.
      `lower` is `char::to_lowercase`. */
  function FromUserInput8(input: string, lower: char -> string): Option<Skillset8>
  {
    Lookup(ToLowercase(input, lower))
  }

  /** The `match` of `from_user_input` on an already lower-cased string. */
  function Lookup(l: string): Option<Skillset8>
  {
    if l == "overall" then Some(Overall)
    else if l == "stream" then Some(Skillset8.Stream)
    else if l == "js" || l == "jumpstream" then Some(Skillset8.Jumpstream)
    else if l == "hs" || l == "handstream" then Some(Skillset8.Handstream)
    else if l == "stam" || l == "stamina" then Some(Skillset8.Stamina)
    else if l == "jack" || l == "jacks" || l == "jackspeed" then Some(Skillset8.Jackspeed)
    else if l == "cj" || l == "chordjack" || l == "chordjacks" then Some(Skillset8.Chordjack)
    else if l == "tech" || l == "technical" then Some(Skillset8.Technical)
    else None
  }

  /** The parser finds a skillset exactly when the folded input (ASCII letters lowered, KELVIN
      SIGN read as 'k') is one of its aliases; it finds none when it is no alias at all. */
  lemma FromUserInputMatchesAliases(input: string, lower: char -> string)
    requires IsUnicodeLowercase(lower)
    ensures forall s :: FromUserInput8(input, lower) == Some(s) <==> Fold(input) in Aliases(s)
    ensures FromUserInput8(input, lower) == None <==> forall s :: Fold(input) !in Aliases(s)
  {
    var l := ToLowercase(input, lower);
    LookupMatchesAliases(l);
    LookupMatchesAliases(Fold(input));
    ToLowercaseFold(input, lower);
    if !IsAscii(Fold(input)) {
      AliasesAscii();
    }
  }

  lemma LookupMatchesAliases(l: string)
    ensures forall s :: Lookup(l) == Some(s) <==> l in Aliases(s)
    ensures Lookup(l) == None <==> forall s :: l !in Aliases(s)
  {
  }

  /** Every alias is ASCII, so a lowercased input holding a non-ASCII character matches none. */
  lemma AliasesAscii()
    ensures forall s, a :: a in Aliases(s) ==> IsAscii(a)
  {
  }

  /** No spelling is longer than ten characters ("chordjacks"). */
  lemma AliasesShort()
    ensures forall s, a :: a in Aliases(s) ==> |a| <= 10
  {
  }

  /** `Skillset7::from_user_input`: the eight-skillset parser, then `Overall` is dropped. */
  function FromUserInput7(input: string, lower: char -> string): (r: Option<Skillset7>)
    ensures forall s :: r == Some(s) <==> FromUserInput8(input, lower) == Some(IntoSkillset8(s))
  {
    match FromUserInput8(input, lower)
    case Some(s) => IntoSkillset7(s)
    case None => None
  }

  /** The examples of the documentation, and a KELVIN SIGN that `to_lowercase` reads as 'k'. */
  lemma UserInputExamples(lower: char -> string)
    requires IsUnicodeLowercase(lower)
    ensures FromUserInput8("js", lower) == Some(Skillset8.Jumpstream)
    ensures FromUserInput8("Jacks", lower) == Some(Skillset8.Jackspeed)
    ensures FromUserInput8("JACKSPEED", lower) == Some(Skillset8.Jackspeed)
    ensures FromUserInput8("handstreams", lower) == None
    ensures FromUserInput8("JAC\U{212A}", lower) == Some(Skillset8.Jackspeed)
  {
    AliasExample("js", "js", Skillset8.Jumpstream, lower);
    AliasExample("Jacks", "jacks", Skillset8.Jackspeed, lower);
    AliasExample("JACKSPEED", "jackspeed", Skillset8.Jackspeed, lower);
    AliasExample("JAC\U{212A}", "jack", Skillset8.Jackspeed, lower);
    NoAliasExample(lower);
  }

  lemma AliasExample(input: string, folded: string, s: Skillset8, lower: char -> string)
    requires IsUnicodeLowercase(lower)
    requires Fold(input) == folded && folded in Aliases(s)
    ensures FromUserInput8(input, lower) == Some(s)
  {
    FromUserInputMatchesAliases(input, lower);
  }

  lemma NoAliasExample(lower: char -> string)
    requires IsUnicodeLowercase(lower)
    ensures FromUserInput8("handstreams", lower) == None
  {
    FromUserInputMatchesAliases("handstreams", lower);
    assert |Fold("handstreams")| == 11;
    AliasesShort();
  }

  /** `"overall"` names a skillset only for the eight-skillset parser. */
  lemma OverallIsNoSkillset7(lower: char -> string)
    requires IsUnicodeLowercase(lower)
    ensures FromUserInput8("overall", lower) == Some(Overall)
    ensures FromUserInput7("overall", lower) == None
  {
    FromUserInputMatchesAliases("overall", lower);
    assert Fold("overall") == "overall";
  }

  /** `Skillsets7`: one rating per skillset, without overall. */
  datatype Skillsets7 = Skillsets7(
    stream: real, jumpstream: real, handstream: real, stamina: real,
    jackspeed: real, chordjack: real, technical: real)
  {
    /** `Skillsets7::get`. */
    function Get(ss: Skillset7): real
    {
      match ss
      case Stream => stream
      case Jumpstream => jumpstream
      case Handstream => handstream
      case Stamina => stamina
      case Jackspeed => jackspeed
      case Chordjack => chordjack
      case Technical => technical
    }

    /** The seven ratings in declaration order: the slice the rating calculator is given. */
    function AsSeq(): (r: seq<real>)
      ensures |r| == 7 && forall i :: 0 <= i < 7 ==> r[i] == Get(List7()[i])
    {
      [stream, jumpstream, handstream, stamina, jackspeed, chordjack, technical]
    }

    /** `with_overall`: the same seven ratings, with `overall` added. */
    function WithOverall(overall: real): (r: Skillsets8)
      ensures r.Get(Overall) == overall
      ensures forall s :: r.Get(IntoSkillset8(s)) == Get(s)
    {
      Skillsets8(overall, stream, jumpstream, handstream, stamina, jackspeed, chordjack, technical)
    }

    /** The chain of `f32::max` over the seven ratings: an upper bound that is one of them. */
    function MaxSkillset(): (r: real)
      ensures forall s :: Get(s) <= r
      ensures exists s :: Get(s) == r
    {
      var m := Max(Max(Max(Max(Max(Max(stream, jumpstream), handstream), stamina), jackspeed), chordjack), technical);
      assert m == Get(Skillset7.Stream) || m == Get(Skillset7.Jumpstream) || m == Get(Skillset7.Handstream)
        || m == Get(Skillset7.Stamina) || m == Get(Skillset7.Jackspeed) || m == Get(Skillset7.Chordjack)
        || m == Get(Skillset7.Technical);
      m
    }

    /** The smallest of the seven ratings. */
    function MinSkillset(): (r: real)
      ensures forall s :: r <= Get(s)
      ensures exists s :: Get(s) == r
    {
      var m := -Max(Max(Max(Max(Max(Max(-stream, -jumpstream), -handstream), -stamina), -jackspeed), -chordjack), -technical);
      assert m == Get(Skillset7.Stream) || m == Get(Skillset7.Jumpstream) || m == Get(Skillset7.Handstream)
        || m == Get(Skillset7.Stamina) || m == Get(Skillset7.Jackspeed) || m == Get(Skillset7.Chordjack)
        || m == Get(Skillset7.Technical);
      m
    }

    /** `calc_player_overall`: the player-overall rating search over the seven ratings. */
    function CalcPlayerOverall(num: RatingCalc.Numerics): (r: Skillsets8)
      requires RatingCalc.Sound(num)
      ensures r.ToSkillsets7() == this
      ensures r.overall == RatingCalc.PlayerOverall(num, AsSeq())
      ensures 0.01 * 1.125 <= r.overall <= (Max(MaxSkillset(), 0.0) + 0.01) * 1.125
    {
      var o := RatingCalc.PlayerOverall(num, AsSeq());
      MaxSkillsetIsBound();
      WithOverall(o)
    }

    /** `calc_player_overall_pre_070`: the mean of the seven ratings. */
    function CalcPlayerOverallPre070(): (r: Skillsets8)
      ensures r.ToSkillsets7() == this
      ensures r.overall * 7.0 == Sum(AsSeq())
      ensures MinSkillset() <= r.overall <= MaxSkillset()
    {
      var sum := stream + jumpstream + handstream + stamina + jackspeed + chordjack + technical;
      Sum7(stream, jumpstream, handstream, stamina, jackspeed, chordjack, technical);
      var lo := MinSkillset();
      var hi := MaxSkillset();
      assert 7.0 * lo <= sum <= 7.0 * hi by {
        assert lo <= Get(Skillset7.Stream) && lo <= Get(Skillset7.Jumpstream) && lo <= Get(Skillset7.Handstream)
          && lo <= Get(Skillset7.Stamina) && lo <= Get(Skillset7.Jackspeed) && lo <= Get(Skillset7.Chordjack)
          && lo <= Get(Skillset7.Technical);
        assert hi >= Get(Skillset7.Stream) && hi >= Get(Skillset7.Jumpstream) && hi >= Get(Skillset7.Handstream)
          && hi >= Get(Skillset7.Stamina) && hi >= Get(Skillset7.Jackspeed) && hi >= Get(Skillset7.Chordjack)
          && hi >= Get(Skillset7.Technical);
      }
      WithOverall(sum / 7.0)
    }

    /** `calc_ssr_overall`: the larger of the score-overall rating search and the best single
        skillset, so never below any skillset. */
    function CalcSsrOverall(num: RatingCalc.Numerics): (r: Skillsets8)
      requires RatingCalc.Sound(num)
      ensures r.ToSkillsets7() == this
      ensures forall s :: Get(s) <= r.overall
      ensures RatingCalc.ScoreOverall(num, AsSeq()) <= r.overall
      ensures r.overall == MaxSkillset() || r.overall == RatingCalc.ScoreOverall(num, AsSeq())
    {
      WithOverall(Max(RatingCalc.ScoreOverall(num, AsSeq()), MaxSkillset()))
    }

    /** `calc_ssr_overall_pre_070`: the best single skillset. */
    function CalcSsrOverallPre070(): (r: Skillsets8)
      ensures r.ToSkillsets7() == this
      ensures forall s :: Get(s) <= r.overall
      ensures exists s :: Get(s) == r.overall
    {
      WithOverall(MaxSkillset())
    }

    /** The largest skillset is the bound the rating search starts its okay region from. */
    lemma MaxSkillsetIsBound()
      ensures RatingCalc.Bound(AsSeq()) == Max(MaxSkillset(), 0.0)
    {
      var s := AsSeq();
      var m := MaxOf(s);
      forall i | 0 <= i < 7
        ensures s[i] <= MaxSkillset()
      {
        assert s[i] == Get(List7()[i]);
      }
      var j :| 0 <= j < 7 && s[j] == m;
      var k :| Get(k) == MaxSkillset();
      ListsComplete();
      assert k in List7();
      var i :| 0 <= i < 7 && List7()[i] == k;
      assert s[i] == MaxSkillset();
    }
  }

  /** `Skillsets7::generate`: ask the generator once per skillset. */
  function Generate7(generator: Skillset7 -> real): (r: Skillsets7)
    ensures forall s :: r.Get(s) == generator(s)
  {
    Skillsets7(generator(Skillset7.Stream), generator(Skillset7.Jumpstream), generator(Skillset7.Handstream),
      generator(Skillset7.Stamina), generator(Skillset7.Jackspeed), generator(Skillset7.Chordjack),
      generator(Skillset7.Technical))
  }

  /** `Skillsets8`: one rating per skillset, with overall. */
  datatype Skillsets8 = Skillsets8(
    overall: real, stream: real, jumpstream: real, handstream: real, stamina: real,
    jackspeed: real, chordjack: real, technical: real)
  {
    /** `Skillsets8::get`. */
    function Get(ss: Skillset8): real
    {
      match ss
      case Overall => overall
      case Stream => stream
      case Jumpstream => jumpstream
      case Handstream => handstream
      case Stamina => stamina
      case Jackspeed => jackspeed
      case Chordjack => chordjack
      case Technical => technical
    }

    /** `to_skillsets7` (also `From<Skillsets8>`): drop the overall rating. */
    function ToSkillsets7(): (r: Skillsets7)
      ensures forall s :: r.Get(s) == Get(IntoSkillset8(s))
    {
      Skillsets7(stream, jumpstream, handstream, stamina, jackspeed, chordjack, technical)
    }
  }

  /** `Skillsets8::generate`: ask the generator once per skillset. */
  function Generate8(generator: Skillset8 -> real): (r: Skillsets8)
    ensures forall s :: r.Get(s) == generator(s)
  {
    Skillsets8(generator(Overall), generator(Skillset8.Stream), generator(Skillset8.Jumpstream),
      generator(Skillset8.Handstream), generator(Skillset8.Stamina), generator(Skillset8.Jackspeed),
      generator(Skillset8.Chordjack), generator(Skillset8.Technical))
  }

  /** Adding an overall and dropping it again gives back the seven ratings; dropping the overall
      and adding it back gives back the eight. */
  lemma WithOverallRoundTrip(s7: Skillsets7, s8: Skillsets8, overall: real)
    ensures s7.WithOverall(overall).ToSkillsets7() == s7
    ensures s8.ToSkillsets7().WithOverall(s8.overall) == s8
  {
  }
}
