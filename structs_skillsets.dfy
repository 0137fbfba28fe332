/** `src/structs/skillsets.rs`, the older revision of the skillset records: chart difficulty
    (`ChartSkillsets`) and player rating (`UserSkillsets`), each with its own overall formulas and
    the `get`/`get_pre_070` accessors the `impl_get_skillset` macro of `src/lib.rs` generates.
    The `Skillset7`/`Skillset8` enums, their lists, conversions and `from_user_input` are the same
    text as in `src/skillsets.rs` and are taken from the `Skillsets` module. */
module StructsSkillsets {
  import opened Util
  import RatingCalc
  import opened Skillsets

  /** `ChartSkillsets`: the seven difficulties of a chart (MSD) or a score (SSR). */
  datatype ChartSkillsets = ChartSkillsets(
    stream: real, jumpstream: real, handstream: real, stamina: real,
    jackspeed: real, chordjack: real, technical: real)
  {
    /** The same seven values as a `Skillsets7` record. */
    function Ratings(): (r: Skillsets7)
      ensures forall s :: r.Get(s) == Field(s)
    {
      Skillsets7(stream, jumpstream, handstream, stamina, jackspeed, chordjack, technical)
    }

    /** The field of one of the seven skillsets. */
    function Field(s: Skillset7): real
    {
      match s
      case Stream => stream
      case Jumpstream => jumpstream
      case Handstream => handstream
      case Stamina => stamina
      case Jackspeed => jackspeed
      case Chordjack => chordjack
      case Technical => technical
    }

    /** `overall`: the larger of the score-overall rating search and the best skillset. */
    function Overall(num: RatingCalc.Numerics): (r: real)
      requires RatingCalc.Sound(num)
      ensures forall s :: Field(s) <= r
      ensures RatingCalc.ScoreOverall(num, Ratings().AsSeq()) <= r
      ensures r == Ratings().MaxSkillset() || r == RatingCalc.ScoreOverall(num, Ratings().AsSeq())
    {
      Max(RatingCalc.ScoreOverall(num, Ratings().AsSeq()), Ratings().MaxSkillset())
    }

    /** `overall_pre_070`: the best skillset. */
    function OverallPre070(): (r: real)
      ensures forall s :: Field(s) <= r
      ensures exists s :: Field(s) == r
    {
      Ratings().MaxSkillset()
    }

    /** `get`: the named field, or `overall` for `Overall`. */
    function Get(num: RatingCalc.Numerics, ss: Skillset8): (r: real)
      requires RatingCalc.Sound(num)
      ensures ss == Skillset8.Overall ==> r == Overall(num)
      ensures forall s :: ss == IntoSkillset8(s) ==> r == Field(s)
    {
      ConversionsRoundTrip();
      match ss
      case Overall => Overall(num)
      case Stream => stream
      case Jumpstream => jumpstream
      case Handstream => handstream
      case Stamina => stamina
      case Jackspeed => jackspeed
      case Chordjack => chordjack
      case Technical => technical
    }

    /** `get_pre_070`: the named field, or `overall_pre_070` for `Overall`. */
    function GetPre070(ss: Skillset8): (r: real)
      ensures ss == Skillset8.Overall ==> r == OverallPre070()
      ensures forall s :: ss == IntoSkillset8(s) ==> r == Field(s)
    {
      match ss
      case Overall => OverallPre070()
      case Stream => stream
      case Jumpstream => jumpstream
      case Handstream => handstream
      case Stamina => stamina
      case Jackspeed => jackspeed
      case Chordjack => chordjack
      case Technical => technical
    }
  }

  /** The two chart accessors differ only in the `Overall` arm. */
  lemma ChartGettersDifferOnlyInOverall(c: ChartSkillsets, num: RatingCalc.Numerics, ss: Skillset8)
    requires RatingCalc.Sound(num)
    ensures ss != Skillset8.Overall ==> c.Get(num, ss) == c.GetPre070(ss)
  {
    ConversionsRoundTrip();
    if ss != Skillset8.Overall {
      var s := IntoSkillset7(ss).value;
      assert ss == IntoSkillset8(s);
    }
  }

  /** The older chart formulas agree with the newer revision's `calc_ssr_overall` and
      `calc_ssr_overall_pre_070`. */
  lemma ChartOverallAgreesWithSkillsets7(c: ChartSkillsets, num: RatingCalc.Numerics)
    requires RatingCalc.Sound(num)
    ensures c.Overall(num) == c.Ratings().CalcSsrOverall(num).overall
    ensures c.OverallPre070() == c.Ratings().CalcSsrOverallPre070().overall
  {
  }

  /** The documentation example (Fennec Fantasy - Friday Fahrenheit): the pre-0.70 overall is
      the jumpstream difficulty, 22.37. */
  lemma FennecFantasyPre070()
    ensures ChartSkillsets(22.31, 22.37, 18.99, 21.53, 14.12, 15.85, 21.47).OverallPre070() == 22.37
  {
    var c := ChartSkillsets(22.31, 22.37, 18.99, 21.53, 14.12, 15.85, 21.47);
    var m := c.OverallPre070();
    assert c.Field(Skillset7.Jumpstream) == 22.37;
    var s :| c.Field(s) == m;
    match s
    case Stream =>
    case Jumpstream =>
    case Handstream =>
    case Stamina =>
    case Jackspeed =>
    case Chordjack =>
    case Technical =>
  }

  /** `UserSkillsets`: the seven ratings of a player. */
  datatype UserSkillsets = UserSkillsets(
    stream: real, jumpstream: real, handstream: real, stamina: real,
    jackspeed: real, chordjack: real, technical: real)
  {
    /** The same seven values as a `Skillsets7` record. */
    function Ratings(): (r: Skillsets7)
      ensures forall s :: r.Get(s) == Field(s)
    {
      Skillsets7(stream, jumpstream, handstream, stamina, jackspeed, chordjack, technical)
    }

    /** The field of one of the seven skillsets. */
    function Field(s: Skillset7): real
    {
      match s
      case Stream => stream
      case Jumpstream => jumpstream
      case Handstream => handstream
      case Stamina => stamina
      case Jackspeed => jackspeed
      case Chordjack => chordjack
      case Technical => technical
    }

    /** `overall`: the player-overall rating search over the seven ratings. */
    function Overall(num: RatingCalc.Numerics): (r: real)
      requires RatingCalc.Sound(num)
      ensures r == RatingCalc.PlayerOverall(num, Ratings().AsSeq())
      ensures 0.01 * 1.125 <= r <= (Max(Ratings().MaxSkillset(), 0.0) + 0.01) * 1.125
    {
      Ratings().MaxSkillsetIsBound();
      RatingCalc.PlayerOverall(num, [stream, jumpstream, handstream, stamina, jackspeed, chordjack, technical])
    }

    /** `overall_pre_070`: the mean of the seven ratings, between the worst and the best. */
    function OverallPre070(): (r: real)
      ensures r * 7.0 == Sum(Ratings().AsSeq())
      ensures Ratings().MinSkillset() <= r <= Ratings().MaxSkillset()
    {
      var sum := stream + jumpstream + handstream + stamina + jackspeed + chordjack + technical;
      Sum7(stream, jumpstream, handstream, stamina, jackspeed, chordjack, technical);
      assert Ratings().CalcPlayerOverallPre070().overall == sum / 7.0;
      sum / 7.0
    }

    /** `get`: the named field, or `overall` for `Overall`. */
    function Get(num: RatingCalc.Numerics, ss: Skillset8): (r: real)
      requires RatingCalc.Sound(num)
      ensures ss == Skillset8.Overall ==> r == Overall(num)
      ensures forall s :: ss == IntoSkillset8(s) ==> r == Field(s)
    {
      ConversionsRoundTrip();
      match ss
      case Overall => Overall(num)
      case Stream => stream
      case Jumpstream => jumpstream
      case Handstream => handstream
      case Stamina => stamina
      case Jackspeed => jackspeed
      case Chordjack => chordjack
      case Technical => technical
    }

    /** `get_pre_070`: the named field, or `overall_pre_070` for `Overall`. */
    function GetPre070(ss: Skillset8): (r: real)
      ensures ss == Skillset8.Overall ==> r == OverallPre070()
      ensures forall s :: ss == IntoSkillset8(s) ==> r == Field(s)
    {
      match ss
      case Overall => OverallPre070()
      case Stream => stream
      case Jumpstream => jumpstream
      case Handstream => handstream
      case Stamina => stamina
      case Jackspeed => jackspeed
      case Chordjack => chordjack
      case Technical => technical
    }
  }

  /** The older player formulas agree with the newer revision's `calc_player_overall` and
      `calc_player_overall_pre_070`. */
  lemma UserOverallAgreesWithSkillsets7(u: UserSkillsets, num: RatingCalc.Numerics)
    requires RatingCalc.Sound(num)
    ensures u.Overall(num) == u.Ratings().CalcPlayerOverall(num).overall
    ensures u.OverallPre070() == u.Ratings().CalcPlayerOverallPre070().overall
  {
  }

  /** The documentation example of `overall_pre_070`: 27.5234 to within 0.0001. */
  lemma UserPre070Example()
    ensures var r := UserSkillsets(27.6060, 27.6567, 28.5327, 27.7139, 25.4858, 27.8027, 27.8662).OverallPre070();
      -0.0001 < r - 27.5234 < 0.0001
  {
    var u := UserSkillsets(27.6060, 27.6567, 28.5327, 27.7139, 25.4858, 27.8027, 27.8662);
    Sum7(27.6060, 27.6567, 28.5327, 27.7139, 25.4858, 27.8027, 27.8662);
    assert u.OverallPre070() * 7.0 == 192.6640;
  }
}
