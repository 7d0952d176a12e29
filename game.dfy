/** A whole game: both teams projected with the roles swapped and the spread
    negated, the two scores added, the weather penalty taken off once, and the
    advisory insights derived from the totals. Insights are descriptive only:
    nothing here feeds back into a score. */
module Game {
  import opened Records
  import opened Blend
  import opened Projection

  /** Calibration constants the game-level calls pass to each projection. */
  const PtsPerPlayBase: real := 0.365
  const LeagueAvgPassRate: real := 0.60

  datatype Location = TeamAHome | TeamBHome | Neutral

  /** One team's availability report. `edgeOut` is this team's own missing
      edge rushers, which help the other team's offence. */
  datatype Roster = Roster(qbOut: bool, eliteWrOut: int, olOut: int, edgeOut: int)

  datatype Weather = Weather(windMph: real, tempF: real, precipitation: string)

  /** The game parameters. The spread is negative when team A is favoured;
      paces and defensive pass rates are the per-team values handed to the
      projections as overrides. */
  datatype GameSetup = GameSetup(
    gamesA: int,
    gamesB: int,
    location: Location,
    venue: HomeStrength,
    spread: real,
    rosterA: Roster,
    rosterB: Roster,
    paceA: Option<real>,
    paceB: Option<real>,
    defPassRateA: Option<real>,
    defPassRateB: Option<real>,
    weather: Weather)

  /** The venue strength both calls use: the driver asks for it only when one
      team is at home, and uses an average venue at a neutral site. */
  function Venue(s: GameSetup): HomeStrength {
    if s.location == Neutral then Average else s.venue
  }

  /** At a neutral site neither call is at home and both take the road shift
      of an average venue, whatever venue strength the setup carries. */
  lemma NeutralSiteShift(s: GameSetup)
    requires s.location == Neutral
    ensures !ContextA(s).isHome && !ContextB(s).isHome
    ensures VenueShift(ContextA(s).isHome, ContextA(s).homeStrength) == -0.015
    ensures VenueShift(ContextB(s).isHome, ContextB(s).homeStrength) == -0.015
  {
  }

  /** Team A's projection call: its own games, A's spread, B's edge rushers. */
  function ContextA(s: GameSetup): (r: GameContext) {
    GameContext(
      isHome := s.location == TeamAHome,
      teamGamesPlayed := s.gamesA,
      oppGamesPlayed := s.gamesB,
      spread := s.spread,
      injuries := Injuries(s.rosterA.qbOut, s.rosterA.eliteWrOut, s.rosterA.olOut, s.rosterB.edgeOut),
      ptsPerPlayBase := PtsPerPlayBase,
      leagueAvgPassRate := LeagueAvgPassRate,
      homeStrength := Venue(s),
      paceOverride := s.paceA,
      oppPaceOverride := s.paceB,
      defPassRateOverride := s.defPassRateB)
  }

  /** Team B's projection call: the mirror image, with the spread negated. */
  function ContextB(s: GameSetup): (r: GameContext) {
    GameContext(
      isHome := s.location == TeamBHome,
      teamGamesPlayed := s.gamesB,
      oppGamesPlayed := s.gamesA,
      spread := -s.spread,
      injuries := Injuries(s.rosterB.qbOut, s.rosterB.eliteWrOut, s.rosterB.olOut, s.rosterA.edgeOut),
      ptsPerPlayBase := PtsPerPlayBase,
      leagueAvgPassRate := LeagueAvgPassRate,
      homeStrength := Venue(s),
      paceOverride := s.paceB,
      oppPaceOverride := s.paceA,
      defPassRateOverride := s.defPassRateA)
  }

  datatype Insight =
    | HighScoring      // final total of 48 or more
    | LowScoring       // final total of 40 or less
    | HighPassVolume   // 80 or more combined pass attempts
    | WeatherUnder     // weather took 3 points or more off the total
    | HighSuccessRates // average blended success rate of 0.48 or more
    | LowSuccessRates  // average blended success rate of 0.42 or less

  datatype GameSummary = GameSummary(
    teamA: ProjectionResult,
    teamB: ProjectionResult,
    weatherPenalty: real,
    baseTotal: real,
    finalTotal: real,
    insights: seq<Insight>)

  /** The insights fall into four groups, reported in this order; each group
      contributes at most one insight. */
  function Group(i: Insight): (g: nat)
    ensures g <= 3
  {
    match i
    case HighScoring | LowScoring => 0
    case HighPassVolume => 1
    case WeatherUnder => 2
    case HighSuccessRates | LowSuccessRates => 3
  }

  /** Strictly increasing groups: the reported order, and no insight twice. */
  predicate Ordered(s: seq<Insight>) {
    forall i, j :: 0 <= i < j < |s| ==> Group(s[i]) < Group(s[j])
  }

  /** At most one insight, and it belongs to group g. */
  predicate Piece(t: seq<Insight>, g: nat) {
    |t| <= 1 && forall i :: 0 <= i < |t| ==> Group(t[i]) == g
  }

  lemma AppendPiece(s: seq<Insight>, t: seq<Insight>, g: nat)
    requires Ordered(s) && forall i :: 0 <= i < |s| ==> Group(s[i]) < g
    requires Piece(t, g)
    ensures Ordered(s + t) && forall i :: 0 <= i < |s + t| ==> Group((s + t)[i]) <= g
  {
  }

  /** Four pieces, one per group, concatenate into an ordered list in which an
      insight occurs exactly when it occurs in the piece of its own group. */
  lemma PiecesOrdered(a: seq<Insight>, b: seq<Insight>, c: seq<Insight>, d: seq<Insight>)
    requires Piece(a, 0) && Piece(b, 1) && Piece(c, 2) && Piece(d, 3)
    ensures Ordered(a + b + c + d)
    ensures forall i, j :: 0 <= i < j < |a + b + c + d| ==> (a + b + c + d)[i] != (a + b + c + d)[j]
    ensures forall x :: x in a + b + c + d <==> x in [a, b, c, d][Group(x)]
  {
  }

  function ScoringInsight(finalTotal: real): (r: seq<Insight>)
    ensures Piece(r, 0)
    ensures HighScoring in r <==> finalTotal >= 48.0
    ensures LowScoring in r <==> finalTotal <= 40.0
  {
    if finalTotal >= 48.0 then [HighScoring] else if finalTotal <= 40.0 then [LowScoring] else []
  }

  function VolumeInsight(totalPassAttempts: real): (r: seq<Insight>)
    ensures Piece(r, 1)
    ensures HighPassVolume in r <==> totalPassAttempts >= 80.0
  {
    if totalPassAttempts >= 80.0 then [HighPassVolume] else []
  }

  function WeatherInsight(weatherPenalty: real): (r: seq<Insight>)
    ensures Piece(r, 2)
    ensures WeatherUnder in r <==> weatherPenalty >= 3.0
  {
    if weatherPenalty >= 3.0 then [WeatherUnder] else []
  }

  function SuccessInsight(avgSuccess: real): (r: seq<Insight>)
    ensures Piece(r, 3)
    ensures HighSuccessRates in r <==> avgSuccess >= 0.48
    ensures LowSuccessRates in r <==> avgSuccess <= 0.42
  {
    if avgSuccess >= 0.48 then [HighSuccessRates] else if avgSuccess <= 0.42 then [LowSuccessRates] else []
  }

  /** The insights as reported; each one is present exactly when its
      threshold is met. */
  function Insights(finalTotal: real, totalPassAttempts: real, weatherPenalty: real,
                    avgSuccess: real): (r: seq<Insight>)
    ensures HighScoring in r <==> finalTotal >= 48.0
    ensures LowScoring in r <==> finalTotal <= 40.0
    ensures HighPassVolume in r <==> totalPassAttempts >= 80.0
    ensures WeatherUnder in r <==> weatherPenalty >= 3.0
    ensures HighSuccessRates in r <==> avgSuccess >= 0.48
    ensures LowSuccessRates in r <==> avgSuccess <= 0.42
    ensures |r| <= 4
  {
    var scoring, volume := ScoringInsight(finalTotal), VolumeInsight(totalPassAttempts);
    var weather, success := WeatherInsight(weatherPenalty), SuccessInsight(avgSuccess);
    PiecesOrdered(scoring, volume, weather, success);
    scoring + volume + weather + success
  }

  /** The insights come in the reported order (scoring, pass volume, weather,
      success rates), so none is reported twice. */
  lemma InsightsOrdered(finalTotal: real, totalPassAttempts: real, weatherPenalty: real, avgSuccess: real)
    ensures var r := Insights(finalTotal, totalPassAttempts, weatherPenalty, avgSuccess);
            Ordered(r) && forall i, j :: 0 <= i < j < |r| ==> r[i] != r[j]
  {
    PiecesOrdered(ScoringInsight(finalTotal), VolumeInsight(totalPassAttempts),
                  WeatherInsight(weatherPenalty), SuccessInsight(avgSuccess));
  }

  /** Combines the two projections and the weather penalty. */
  function Summarize(a: ProjectionResult, b: ProjectionResult, weatherPenalty: real): (r: GameSummary)
    ensures r.teamA == a && r.teamB == b && r.weatherPenalty == weatherPenalty
    ensures r.baseTotal == a.score + b.score
    ensures r.finalTotal == r.baseTotal - weatherPenalty
    ensures 0.0 <= weatherPenalty ==> r.finalTotal <= r.baseTotal
    ensures r.insights == Insights(r.finalTotal, a.passAttempts + b.passAttempts, weatherPenalty,
                                   (a.successRate + b.successRate) / 2.0)
  {
    var baseTotal := a.score + b.score;
    var weatherAdjustedTotal := baseTotal - weatherPenalty;
    var totalPassAttempts := a.passAttempts + b.passAttempts;
    var avgSuccess := (a.successRate + b.successRate) / 2.0;
    GameSummary(a, b, weatherPenalty, baseTotal, weatherAdjustedTotal,
                Insights(weatherAdjustedTotal, totalPassAttempts, weatherPenalty, avgSuccess))
  }

  /** The totals and insights do not depend on which team is called A. */
  lemma SummarizeSymmetric(a: ProjectionResult, b: ProjectionResult, weatherPenalty: real)
    ensures Summarize(b, a, weatherPenalty).baseTotal == Summarize(a, b, weatherPenalty).baseTotal
    ensures Summarize(b, a, weatherPenalty).finalTotal == Summarize(a, b, weatherPenalty).finalTotal
    ensures Summarize(b, a, weatherPenalty).insights == Summarize(a, b, weatherPenalty).insights
  {
  }

  /** The whole game in closed form. */
  function GameProjection(teamA: TeamStats, teamB: TeamStats, s: GameSetup): (r: Result<GameSummary, ProjectionError>)
    ensures r.Ok? <==> Project(teamA, teamB, ContextA(s)).Ok? && Project(teamB, teamA, ContextB(s)).Ok?
    ensures r.Ok? ==> r.value.teamA == Project(teamA, teamB, ContextA(s)).value
                      && r.value.teamB == Project(teamB, teamA, ContextB(s)).value
    ensures r.Ok? ==> r.value.weatherPenalty == WeatherPenalty(s.weather.windMph, s.weather.tempF, s.weather.precipitation)
    ensures r.Ok? ==> r.value.baseTotal - 16.0 <= r.value.finalTotal <= r.value.baseTotal
  {
    match Project(teamA, teamB, ContextA(s))
    case Err(e) => Err(e)
    case Ok(a) =>
      match Project(teamB, teamA, ContextB(s))
      case Err(e) => Err(e)
      case Ok(b) =>
        Ok(Summarize(a, b, WeatherPenalty(s.weather.windMph, s.weather.tempF, s.weather.precipitation)))
  }

  /** The game as the engine runs it: the weather penalty, team A's projection,
      team B's projection, then the totals. */
  method ProjectGame(teamA: TeamStats, teamB: TeamStats, s: GameSetup)
    returns (r: Result<GameSummary, ProjectionError>)
    ensures r == GameProjection(teamA, teamB, s)
  {
    var weatherAdjustment := CalculateWeatherAdjustment(s.weather.windMph, s.weather.tempF, s.weather.precipitation);
    var teamAProj := ProjectTeamScore(teamA, teamB, ContextA(s));
    if teamAProj.Err? {
      return Err(teamAProj.error);
    }
    var teamBProj := ProjectTeamScore(teamB, teamA, ContextB(s));
    if teamBProj.Err? {
      return Err(teamBProj.error);
    }
    r := Ok(Summarize(teamAProj.value, teamBProj.value, weatherAdjustment));
  }

  /** The same game seen from the other side: B becomes A, the spread is
      negated and the venue follows the home team. */
  function Swapped(s: GameSetup): (r: GameSetup) {
    GameSetup(
      gamesA := s.gamesB,
      gamesB := s.gamesA,
      location := match s.location
                  case TeamAHome => TeamBHome
                  case TeamBHome => TeamAHome
                  case Neutral => Neutral,
      venue := s.venue,
      spread := -s.spread,
      rosterA := s.rosterB,
      rosterB := s.rosterA,
      paceA := s.paceB,
      paceB := s.paceA,
      defPassRateA := s.defPassRateB,
      defPassRateB := s.defPassRateA,
      weather := s.weather)
  }

  /** Relabelling the teams changes nothing: each team gets the same
      projection, and the totals and insights are the same. */
  lemma GameProjectionRoleSymmetric(teamA: TeamStats, teamB: TeamStats, s: GameSetup)
    ensures var r1 := GameProjection(teamA, teamB, s);
            var r2 := GameProjection(teamB, teamA, Swapped(s));
            r1.Ok? == r2.Ok?
            && (r1.Ok? ==> && r2.value.teamA == r1.value.teamB
                           && r2.value.teamB == r1.value.teamA
                           && r2.value.baseTotal == r1.value.baseTotal
                           && r2.value.finalTotal == r1.value.finalTotal
                           && r2.value.insights == r1.value.insights)
  {
  }

  /** Weather can only lower the projected total, by at most 16 points, and it
      is the only difference between the base and the final total. */
  lemma WeatherOnlyLowers(teamA: TeamStats, teamB: TeamStats, s: GameSetup)
    requires GameProjection(teamA, teamB, s).Ok?
    ensures var g := GameProjection(teamA, teamB, s).value;
            g.finalTotal == g.teamA.score + g.teamB.score - g.weatherPenalty
            && g.baseTotal - 16.0 <= g.finalTotal <= g.baseTotal
            && (g.finalTotal == g.baseTotal - 16.0
                <==> s.weather.windMph >= 20.0 && s.weather.tempF < 0.0 && s.weather.precipitation == "blizzard")
  {
    WeatherPenaltyMaximum(s.weather.windMph, s.weather.tempF, s.weather.precipitation);
  }
}
