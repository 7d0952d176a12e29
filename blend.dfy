/** The blending primitives of the projection engine: recency blend, net
    efficiency, expected pass rate, expected plays, success-rate points and the
    weather penalty. Every quantity is an exact `real`; there is no
    floating-point rounding anywhere in this model. */
module Blend {

  /** x lies in the closed interval spanned by a and b, in either order. */
  predicate Between(x: real, a: real, b: real) {
    (a <= x <= b) || (b <= x <= a)
  }

  function Abs(x: real): (r: real) {
    if x < 0.0 then -x else x
  }

  lemma MulNonNegative(x: real, y: real)
    requires 0.0 <= x && 0.0 <= y
    ensures 0.0 <= x * y
  {
  }

  /** For a weight p in [0, 1], p*a + (1-p)*b lies between a and b. */
  lemma ConvexCombination(p: real, a: real, b: real)
    requires 0.0 <= p <= 1.0
    ensures Between(p * a + (1.0 - p) * b, a, b)
  {
    var x := p * a + (1.0 - p) * b;
    assert x - a == (1.0 - p) * (b - a);
    assert b - x == p * (b - a);
    if a <= b {
      MulNonNegative(1.0 - p, b - a);
      MulNonNegative(p, b - a);
    } else {
      MulNonNegative(1.0 - p, a - b);
      MulNonNegative(p, a - b);
      assert a - x == (1.0 - p) * (a - b);
      assert x - b == p * (a - b);
    }
  }

  // ---------------------------------------------------------------------
  // Net efficiency: offence counts 1.6 against the defence's 1.0.

  const OffenceWeight: real := 1.6
  const DefenceWeight: real := 1.0

  /** Matchup efficiency of an offence against what a defence allows: it sits
      8/13 of the way from the defence's value to the offence's. */
  function NetEpa(offEpa: real, defEpaAllowed: real): (r: real)
    ensures r == defEpaAllowed + (offEpa - defEpaAllowed) * (8.0 / 13.0)
    ensures Between(r, offEpa, defEpaAllowed)
    ensures offEpa == defEpaAllowed ==> r == offEpa
  {
    (offEpa * OffenceWeight + defEpaAllowed * DefenceWeight) / (OffenceWeight + DefenceWeight)
  }

  /** Net efficiency is homogeneous: scaling both inputs scales the result. */
  lemma NetEpaScale(k: real, offEpa: real, defEpaAllowed: real)
    ensures NetEpa(k * offEpa, k * defEpaAllowed) == k * NetEpa(offEpa, defEpaAllowed)
  {
  }

  /** Net efficiency is additive in its two inputs. */
  lemma NetEpaAdditive(o1: real, d1: real, o2: real, d2: real)
    ensures NetEpa(o1 + o2, d1 + d2) == NetEpa(o1, d1) + NetEpa(o2, d2)
  {
  }

  /** Net efficiency is strictly increasing in the offence's value. */
  lemma NetEpaIncreasing(o1: real, o2: real, d: real)
    requires o1 <= o2
    ensures NetEpa(o1, d) <= NetEpa(o2, d)
    ensures o1 < o2 ==> NetEpa(o1, d) < NetEpa(o2, d)
  {
  }

  // ---------------------------------------------------------------------
  // Recency blend of a season value and a last-5-games value.

  /** The share given to the last-5 value, a hard step function of games
      played: nothing up to 5 games, then 0.35, 0.50 and 0.60. */
  function RecentWeight(gamesPlayed: int): (w: real)
    ensures 0.0 <= w <= 0.6
    ensures w == 0.0 <==> gamesPlayed <= 5
  {
    if gamesPlayed <= 5 then 0.0
    else if gamesPlayed <= 10 then 0.35
    else if gamesPlayed <= 14 then 0.50
    else 0.60
  }

  /** More games played never gives the recent sample less weight. */
  lemma RecentWeightMonotone(g1: int, g2: int)
    requires g1 <= g2
    ensures RecentWeight(g1) <= RecentWeight(g2)
  {
  }

  /** The recency blend, used for EPA and for success rates alike. */
  function WeightedEpa(seasonValue: real, last5Value: real, gamesPlayed: int): (r: real)
    ensures r == (1.0 - RecentWeight(gamesPlayed)) * seasonValue + RecentWeight(gamesPlayed) * last5Value
    ensures gamesPlayed <= 5 ==> r == seasonValue
    ensures Between(r, seasonValue, last5Value)
    ensures seasonValue == last5Value ==> r == seasonValue
  {
    if gamesPlayed <= 5 then seasonValue
    else if gamesPlayed <= 10 then seasonValue * 0.65 + last5Value * 0.35
    else if gamesPlayed <= 14 then seasonValue * 0.50 + last5Value * 0.50
    else seasonValue * 0.40 + last5Value * 0.60
  }

  /** The blend is non-decreasing in both of its values. */
  lemma WeightedEpaMonotone(s1: real, l1: real, s2: real, l2: real, g: int)
    requires s1 <= s2 && l1 <= l2
    ensures WeightedEpa(s1, l1, g) <= WeightedEpa(s2, l2, g)
  {
  }

  // ---------------------------------------------------------------------
  // Expected pass rate.

  /** Game-script adjustment to the pass rate: a trailing team (positive
      spread) passes more, a favoured team (negative spread) less. */
  function SpreadPassAdjustment(spread: real): (r: real)
    ensures -0.04 <= r <= 0.05
    ensures r > 0.0 <==> spread >= 4.0
    ensures r < 0.0 <==> spread <= -4.0
  {
    if spread >= 7.0 then 0.05
    else if spread >= 4.0 then 0.03
    else if spread <= -7.0 then -0.04
    else if spread <= -4.0 then -0.02
    else 0.0
  }

  /** The steps of the game-script adjustment, band by band. */
  lemma SpreadPassAdjustmentSteps(spread: real)
    ensures -4.0 < spread < 4.0 ==> SpreadPassAdjustment(spread) == 0.0
    ensures 4.0 <= spread < 7.0 ==> SpreadPassAdjustment(spread) == 0.03
    ensures 7.0 <= spread ==> SpreadPassAdjustment(spread) == 0.05
    ensures -7.0 < spread <= -4.0 ==> SpreadPassAdjustment(spread) == -0.02
    ensures spread <= -7.0 ==> SpreadPassAdjustment(spread) == -0.04
  {
  }

  /** A larger spread never lowers the pass-rate adjustment. */
  lemma SpreadPassAdjustmentMonotone(s1: real, s2: real)
    requires s1 <= s2
    ensures SpreadPassAdjustment(s1) <= SpreadPassAdjustment(s2)
  {
  }

  /** Unclamped expected pass rate: the team's baseline, 60% of its
      pass-rate-over-expected, 40% of how far the opposing defence's allowed
      pass rate sits above the league average, plus the game script. */
  function ExpectedPassRate(teamPassRate: real, proe: real, defPassRateAgainst: real,
                            leagueAvgPassRate: real, spread: real): (r: real)
    ensures r == teamPassRate + 0.6 * proe + 0.4 * (defPassRateAgainst - leagueAvgPassRate)
                 + SpreadPassAdjustment(spread)
    ensures proe == 0.0 && defPassRateAgainst == leagueAvgPassRate && -4.0 < spread < 4.0
            ==> r == teamPassRate
  {
    var teamTendency := teamPassRate + proe;
    var defenseInfluence := defPassRateAgainst - leagueAvgPassRate;
    var baseExpected := teamTendency * 0.6 + (teamPassRate + defenseInfluence) * 0.4;
    baseExpected + SpreadPassAdjustment(spread)
  }

  // ---------------------------------------------------------------------
  // Expected plays.

  /** Plays adjustment: close games add plays, lopsided ones remove them. */
  function PlaysSpreadAdjustment(spread: real): (r: real)
    ensures -4.0 <= r <= 3.0
    ensures r > 0.0 <==> Abs(spread) <= 3.0
    ensures r < 0.0 <==> Abs(spread) >= 10.0
    ensures Abs(spread) <= 3.0 ==> r == 3.0
    ensures Abs(spread) >= 10.0 ==> r == -4.0
    ensures 3.0 < Abs(spread) < 10.0 ==> r == 0.0
  {
    if Abs(spread) <= 3.0 then 3.0
    else if Abs(spread) >= 10.0 then -4.0
    else 0.0
  }

  function ExpectedPlays(teamPace: real, oppPace: real, spread: real): (r: real)
    ensures r == (teamPace + oppPace) / 2.0 + PlaysSpreadAdjustment(spread)
    ensures Between(r - PlaysSpreadAdjustment(spread), teamPace, oppPace)
  {
    var basePlays := (teamPace + oppPace) / 2.0;
    basePlays + PlaysSpreadAdjustment(spread)
  }

  /** Expected plays is the same from either side of the matchup: swapping the
      paces and negating the spread leaves it unchanged. */
  lemma ExpectedPlaysSymmetric(teamPace: real, oppPace: real, spread: real)
    ensures ExpectedPlays(teamPace, oppPace, spread) == ExpectedPlays(oppPace, teamPace, -spread)
    ensures ExpectedPlays(teamPace, oppPace, spread) == ExpectedPlays(teamPace, oppPace, -spread)
  {
  }

  // ---------------------------------------------------------------------
  // Success-rate points.

  const LeagueAvgSuccess: real := 0.46
  const SuccessWeight: real := 55.0

  /** Points for a success rate above (or below) the league average, at
      `weight` points per 1.00 of differential. */
  function SuccessRateAdjustment(successRate: real, leagueAvg: real := LeagueAvgSuccess,
                                 weight: real := SuccessWeight): (r: real)
    ensures successRate == leagueAvg ==> r == 0.0
    ensures weight > 0.0 ==> (r > 0.0 <==> successRate > leagueAvg)
    ensures weight > 0.0 ==> (r < 0.0 <==> successRate < leagueAvg)
  {
    var differential := successRate - leagueAvg;
    differential * weight
  }

  /** Each increment of the success rate is worth `weight` times itself:
      +0.01 at the default weight is +0.55 points. */
  lemma SuccessRateAdjustmentLinear(successRate: real, delta: real, leagueAvg: real, weight: real)
    ensures SuccessRateAdjustment(successRate + delta, leagueAvg, weight)
            == SuccessRateAdjustment(successRate, leagueAvg, weight) + delta * weight
  {
  }

  // ---------------------------------------------------------------------
  // Weather penalty (points taken off the combined total).

  /** Only the highest wind band applies. */
  function WindPenalty(windMph: real): (r: real)
    ensures 0.0 <= r <= 6.0
    ensures r == 0.0 <==> windMph < 10.0
  {
    if windMph >= 20.0 then 6.0
    else if windMph >= 15.0 then 3.0
    else if windMph >= 10.0 then 1.0
    else 0.0
  }

  function ColdPenalty(tempF: real): (r: real)
    ensures r == 0.0 || r == 2.0
    ensures r == 2.0 <==> tempF < 0.0
  {
    if tempF < 0.0 then 2.0 else 0.0
  }

  /** Precipitation lookup; every other code, "none" and "light_rain"
      included, costs nothing. */
  function PrecipitationPenalty(precipitation: string): (r: real)
    ensures 0.0 <= r <= 8.0
    ensures r == 8.0 <==> precipitation == "blizzard"
    ensures r == 0.0 <==> precipitation !in {"heavy_rain", "light_snow", "heavy_snow", "blizzard"}
  {
    if precipitation == "heavy_rain" then 3.0
    else if precipitation == "light_snow" then 2.0
    else if precipitation == "heavy_snow" then 4.0
    else if precipitation == "blizzard" then 8.0
    else 0.0
  }

  /** The three independent weather components, added. */
  function WeatherPenalty(windMph: real, tempF: real, precipitation: string): (r: real)
    ensures 0.0 <= r <= 16.0
  {
    WindPenalty(windMph) + ColdPenalty(tempF) + PrecipitationPenalty(precipitation)
  }

  /** The maximum penalty, 16 points, is reached exactly in the worst band of
      all three components (for instance wind 20, temperature -5, blizzard). */
  lemma WeatherPenaltyMaximum(windMph: real, tempF: real, precipitation: string)
    ensures WeatherPenalty(windMph, tempF, precipitation) == 16.0
            <==> windMph >= 20.0 && tempF < 0.0 && precipitation == "blizzard"
  {
  }

  /** The weather penalty accumulated step by step: one running adjustment,
      a non-cumulative wind band, a cold term and a map lookup. */
  method CalculateWeatherAdjustment(windMph: real, tempF: real, precipitation: string)
    returns (adjustment: real)
    ensures adjustment == WeatherPenalty(windMph, tempF, precipitation)
    ensures 0.0 <= adjustment <= 16.0
  {
    adjustment := 0.0;

    if windMph >= 20.0 {
      adjustment := adjustment + 6.0;
    } else if windMph >= 15.0 {
      adjustment := adjustment + 3.0;
    } else if windMph >= 10.0 {
      adjustment := adjustment + 1.0;
    }

    if tempF < 0.0 {
      adjustment := adjustment + 2.0;
    }

    var precipImpact := map["heavy_rain" := 3.0, "light_snow" := 2.0,
                            "heavy_snow" := 4.0, "blizzard" := 8.0];
    adjustment := adjustment + (if precipitation in precipImpact then precipImpact[precipitation] else 0.0);
  }
}
