/** Display scaling: the affine map between internal Elo ratings and the
    LSAT-style 120..180 display score, and the four rating tiers. */
module Scaling {
  import opened Numerics
  import opened Wrappers

  /** The parameters of the display map; `Defaults` are the source's keyword defaults. */
  datatype ScaleParams = ScaleParams(mean: real, std: real, center: int, scalePerStd: real, minScore: int, maxScore: int)

  const Defaults := ScaleParams(1500.0, 300.0, 150, 10.0, 120, 180)

  /** `max(low, min(high, value))` on integers. */
  function ClampInt(value: int, low: int, high: int): (r: int)
    ensures low <= high ==> low <= r <= high
    ensures low <= value <= high ==> r == value
  {
    if value > high then (if low > high then low else high)
    else if value < low then low
    else value
  }

  /** The unrounded display value `center + scale_per_std * z`. */
  function Raw(p: ScaleParams, rating: real): real
    requires p.std > 0.0
  {
    p.center as real + p.scalePerStd * ((rating - p.mean) / p.std)
  }

  /** `elo_to_display`: z-score, scale, round half to even, clamp. A non-positive
      standard deviation short-circuits to the unclamped center. */
  function EloToDisplay(p: ScaleParams, rating: real): (d: int)
    ensures p.std <= 0.0 ==> d == p.center
    ensures p.std > 0.0 && p.minScore <= p.maxScore ==> p.minScore <= d <= p.maxScore
    ensures p.std > 0.0 ==> var raw := Raw(p, rating);
      (p.minScore <= p.maxScore && raw - 0.5 > p.maxScore as real ==> d == p.maxScore) &&
      (raw + 0.5 < p.minScore as real ==> d == p.minScore) &&
      (p.minScore as real <= raw - 0.5 && raw + 0.5 <= p.maxScore as real ==> raw - 0.5 <= d as real <= raw + 0.5)
  {
    if p.std <= 0.0 then p.center
    else
      ClampInt(RoundHalfEven(Raw(p, rating)), p.minScore, p.maxScore)
  }

  /** `display_to_elo`: the affine inverse, without rounding or clamping.
      A zero `scale_per_std` raises ZeroDivisionError, modelled as None. */
  function DisplayToElo(p: ScaleParams, displayScore: int): (rating: Option<real>)
    ensures rating.None? <==> p.scalePerStd == 0.0
    ensures rating.Some? && displayScore == p.center ==> rating.value == p.mean
    ensures rating.Some? && p.std > 0.0 && p.scalePerStd > 0.0 ==> (displayScore > p.center <==> rating.value > p.mean)
    ensures rating.Some? ==> (rating.value - p.mean) * p.scalePerStd == (displayScore - p.center) as real * p.std
  {
    if p.scalePerStd == 0.0 then None
    else
      var z := (displayScore - p.center) as real / p.scalePerStd;
      assert p.std > 0.0 && p.scalePerStd > 0.0 && displayScore > p.center ==> z > 0.0;
      assert p.std > 0.0 && p.scalePerStd > 0.0 && displayScore <= p.center ==> z <= 0.0;
      Some(p.mean + z * p.std)
  }

  /** The defaults' anchor points: the mean shows as 150 and one standard deviation as 10 points. */
  lemma DefaultAnchors()
    ensures EloToDisplay(Defaults, 1500.0) == 150
    ensures EloToDisplay(Defaults, 1800.0) == 160
    ensures EloToDisplay(Defaults, 1200.0) == 140
    ensures EloToDisplay(Defaults, 3000.0) == 180
    ensures EloToDisplay(Defaults, 0.0) == 120
    ensures DisplayToElo(Defaults, 150) == Some(1500.0)
    ensures DisplayToElo(Defaults, 160) == Some(1800.0)
    ensures DisplayToElo(Defaults, 140) == Some(1200.0)
  {
    RoundOfInteger(150);
    RoundOfInteger(160);
    RoundOfInteger(140);
    RoundOfInteger(200);
    RoundOfInteger(100);
  }

  /** A display score inside the clamping range survives the round trip through Elo. */
  lemma DisplayRoundTrip(p: ScaleParams, d: int)
    requires p.std > 0.0 && p.scalePerStd != 0.0
    requires p.minScore <= d <= p.maxScore
    ensures DisplayToElo(p, d).Some? && EloToDisplay(p, DisplayToElo(p, d).value) == d
  {
    var rating := DisplayToElo(p, d).value;
    var z := (d - p.center) as real / p.scalePerStd;
    assert (rating - p.mean) / p.std == z;
    assert Raw(p, rating) == d as real;
    RoundOfInteger(d);
  }

  /** A rating whose display value is not clamped comes back from the
      display score to within half a display point, that is, within
      0.5 * std / scale_per_std Elo (15 at the defaults). */
  lemma EloRoundTrip(p: ScaleParams, rating: real)
    requires p.std > 0.0 && p.scalePerStd > 0.0
    requires p.minScore as real + 0.5 <= Raw(p, rating) <= p.maxScore as real - 0.5
    ensures DisplayToElo(p, EloToDisplay(p, rating)).Some?
    ensures Abs(DisplayToElo(p, EloToDisplay(p, rating)).value - rating) <= 0.5 * p.std / p.scalePerStd
  {
    var d := EloToDisplay(p, rating);
    assert -0.5 <= d as real - Raw(p, rating) <= 0.5;
    BackFromNearby(p, rating, d);
  }

  /** Any display score within half a point of the unrounded value maps
      back to within 0.5 * std / scale_per_std of the rating. */
  lemma BackFromNearby(p: ScaleParams, rating: real, d: int)
    requires p.std > 0.0 && p.scalePerStd > 0.0
    requires -0.5 <= d as real - Raw(p, rating) <= 0.5
    ensures DisplayToElo(p, d).Some?
    ensures Abs(DisplayToElo(p, d).value - rating) <= 0.5 * p.std / p.scalePerStd
  {
    var e := d as real - Raw(p, rating);
    var back := DisplayToElo(p, d).value;
    assert back == p.mean + ((d - p.center) as real / p.scalePerStd) * p.std;
    var k := p.std / p.scalePerStd;
    assert back - rating == e * k by {
      AffineError(p.mean, p.std, p.scalePerStd, p.center as real, rating, d as real);
    }
    ErrorBound(back - rating, e, k);
    assert 0.5 * p.std / p.scalePerStd == 0.5 * k;
  }

  /** An error of at most half a unit, scaled by k > 0, is at most k / 2. */
  lemma ErrorBound(x: real, e: real, k: real)
    requires k > 0.0 && -0.5 <= e <= 0.5 && x == e * k
    ensures Abs(x) <= 0.5 * k
  {
    MulMonotone(k, -0.5, e);
    MulMonotone(k, e, 0.5);
  }

  /** Going back from display value `d` misses the rating by the display
      error d - raw, scaled by std / scale_per_std. */
  lemma AffineError(mean: real, std: real, sps: real, center: real, rating: real, d: real)
    requires std > 0.0 && sps > 0.0
    ensures (mean + ((d - center) / sps) * std) - rating == (d - (center + sps * ((rating - mean) / std))) * (std / sps)
  {
    var z := (rating - mean) / std;
    assert rating - mean == z * std;
    var raw := center + sps * z;
    assert (raw - center) / sps == z;
    assert (d - raw) / sps == (d - center) / sps - z;
    assert ((d - raw) / sps) * std == ((d - center) / sps) * std - z * std;
    assert (d - raw) * (std / sps) == ((d - raw) / sps) * std;
  }

  /** At the defaults the round trip is within 15 Elo. */
  lemma DefaultEloRoundTrip(rating: real)
    requires 615.0 <= rating <= 2385.0
    ensures Abs(DisplayToElo(Defaults, EloToDisplay(Defaults, rating)).value - rating) <= 15.0
  {
    EloRoundTrip(Defaults, rating);
  }

  lemma ClampIntMonotone(x: int, y: int, low: int, high: int)
    requires x <= y
    ensures ClampInt(x, low, high) <= ClampInt(y, low, high)
  {
  }

  /** The display score never decreases as the rating grows. */
  lemma EloToDisplayMonotone(p: ScaleParams, a: real, b: real)
    requires p.scalePerStd >= 0.0
    requires a <= b
    ensures EloToDisplay(p, a) <= EloToDisplay(p, b)
  {
    if p.std > 0.0 {
      var za := (a - p.mean) / p.std;
      var zb := (b - p.mean) / p.std;
      DivMonotone(a - p.mean, b - p.mean, p.std);
      MulMonotone(p.scalePerStd, za, zb);
      assert Raw(p, a) <= Raw(p, b);
      RoundMonotone(Raw(p, a), Raw(p, b));
      ClampIntMonotone(RoundHalfEven(Raw(p, a)), RoundHalfEven(Raw(p, b)), p.minScore, p.maxScore);
    }
  }

  datatype Tier = Strong | Proficient | Developing | Emerging {
    /** The lowest rating that reaches the tier. */
    function Threshold(): real {
      match this
      case Strong => 1750.0
      case Proficient => 1600.0
      case Developing => 1400.0
      case Emerging => 0.0
    }

    function Label(): string {
      match this
      case Strong => "Strong"
      case Proficient => "Proficient"
      case Developing => "Developing"
      case Emerging => "Emerging"
    }

    function Color(): string {
      match this
      case Strong => "#3D7A68"
      case Proficient => "#81B29A"
      case Developing => "#C9A962"
      case Emerging => "#E07A5F"
    }

    function BgColor(): string {
      match this
      case Strong => "#E8F0ED"
      case Proficient => "#EBF5F1"
      case Developing => "#F7F3E8"
      case Emerging => "#F8EBE8"
    }

    /** Rank from the bottom: Emerging 0 .. Strong 3. */
    function Rank(): nat {
      match this
      case Emerging => 0
      case Developing => 1
      case Proficient => 2
      case Strong => 3
    }
  }

  /** The tier a rating falls in, by the thresholds 1750 / 1600 / 1400. */
  function TierOf(rating: real): (t: Tier)
    ensures t != Emerging ==> rating >= t.Threshold()
    ensures forall u: Tier :: u.Rank() > t.Rank() ==> rating < u.Threshold()
  {
    if rating >= 1750.0 then Strong
    else if rating >= 1600.0 then Proficient
    else if rating >= 1400.0 then Developing
    else Emerging
  }

  /** `get_rating_tier`: the tier's label. */
  function GetRatingTier(rating: real): (name: string)
    ensures name in {"Strong", "Proficient", "Developing", "Emerging"}
    ensures name == "Strong" <==> rating >= 1750.0
    ensures name == "Emerging" <==> rating < 1400.0
  {
    if rating >= 1750.0 then "Strong"
    else if rating >= 1600.0 then "Proficient"
    else if rating >= 1400.0 then "Developing"
    else "Emerging"
  }

  datatype TierInfo = TierInfo(name: string, color: string, bgColor: string)

  /** `get_rating_tier_info`: label and colours of the rating's tier. */
  function GetRatingTierInfo(rating: real): (info: TierInfo)
    ensures info.name == GetRatingTier(rating)
    ensures info.color == TierOf(rating).Color() && info.bgColor == TierOf(rating).BgColor()
  {
    var t := if rating >= 1750.0 then Strong
             else if rating >= 1600.0 then Proficient
             else if rating >= 1400.0 then Developing
             else Emerging;
    TierInfo(t.Label(), t.Color(), t.BgColor())
  }

  /** Tiers rise with the rating. */
  lemma TierMonotone(a: real, b: real)
    requires a <= b
    ensures TierOf(a).Rank() <= TierOf(b).Rank()
  {
  }

  /** The tier pins of the source's test table. */
  lemma TierExamples()
    ensures GetRatingTier(1900.0) == "Strong" && GetRatingTier(1750.0) == "Strong"
    ensures GetRatingTier(1700.0) == "Proficient" && GetRatingTier(1600.0) == "Proficient"
    ensures GetRatingTier(1500.0) == "Developing" && GetRatingTier(1400.0) == "Developing"
    ensures GetRatingTier(1300.0) == "Emerging" && GetRatingTier(1100.0) == "Emerging"
  {
  }

  /** A value of the display dictionary. */
  datatype Field = IntField(i: int) | TextField(s: string) | RealField(r: real)

  /** `round(x, 1)`: to one decimal place, ties to even on the tenths. */
  function RoundTenth(x: real): (r: real)
    ensures x - 0.05 <= r <= x + 0.05
  {
    RoundHalfEven(x * 10.0) as real / 10.0
  }

  /** `format_rating_for_display` with the default scale. */
  function FormatRating(rating: real, includeRaw: bool, includeColors: bool): (m: map<string, Field>)
    ensures "display_score" in m && m["display_score"] == IntField(EloToDisplay(Defaults, rating))
    ensures "tier" in m && m["tier"] == TextField(GetRatingTier(rating))
    ensures ("tier_color" in m <==> includeColors) && ("tier_bg_color" in m <==> includeColors)
    ensures includeColors ==>
      m["tier_color"] == TextField(GetRatingTierInfo(rating).color) && m["tier_bg_color"] == TextField(GetRatingTierInfo(rating).bgColor)
    ensures "raw_rating" in m <==> includeRaw
    ensures includeRaw ==> m["raw_rating"] == RealField(RoundTenth(rating))
    ensures m.Keys <= {"display_score", "tier", "tier_color", "tier_bg_color", "raw_rating"}
  {
    var info := GetRatingTierInfo(rating);
    var base := map["display_score" := IntField(EloToDisplay(Defaults, rating)), "tier" := TextField(info.name)];
    var withColors := if includeColors then base["tier_color" := TextField(info.color)]["tier_bg_color" := TextField(info.bgColor)] else base;
    if includeRaw then withColors["raw_rating" := RealField(RoundTenth(rating))] else withColors
  }
}
