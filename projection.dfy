/** The single-team score projection. `Project` states the projection in
    closed form: every running value is its blended statistic plus the sum of
    the shifts that injuries and venue apply to it. `ProjectTeamScore` is the
    projection as the engine performs it, one ordered local update at a time,
    and is proved equal to `Project`. */
module Projection {
  import opened Records
  import opened Blend

  datatype HomeStrength = Weak | Average | Strong

  /** EPA per play added at home and taken away on the road. */
  function HomeAdjustment(h: HomeStrength): (r: real)
    ensures 0.01 <= r <= 0.025
    ensures h == Strong <==> r == 0.025
  {
    match h
    case Weak => 0.01
    case Average => 0.015
    case Strong => 0.025
  }

  /** Injury counts as the caller reports them: this team's starting QB, elite
      pass-catchers and offensive linemen out, and the opponent's edge
      rushers out. */
  datatype Injuries = Injuries(qbOut: bool, eliteWrOut: int, olMissing: int, edgeMissing: int)

  /** Everything one projection call needs besides the two teams' records.
      A spread is negative when this team is favoured. */
  datatype GameContext = GameContext(
    isHome: bool,
    teamGamesPlayed: int,
    oppGamesPlayed: int,
    spread: real,
    injuries: Injuries,
    ptsPerPlayBase: real,
    leagueAvgPassRate: real,
    homeStrength: HomeStrength,
    paceOverride: Option<real>,
    oppPaceOverride: Option<real>,
    defPassRateOverride: Option<real>)

  datatype ProjectionResult = ProjectionResult(
    score: real,
    passRate: real,
    plays: real,
    passAttempts: real,
    matchupEpa: real,
    successRate: real,
    successAdjustment: real)

  /** Neither an override nor the opponent's record supplies the defence's
      allowed pass rate, so the expected pass rate cannot be computed. */
  datatype ProjectionError = NoDefPassRateAgainst

  const FallbackPace: real := 62.0
  const MinPassRate: real := 0.35
  const MaxPassRate: real := 0.75

  // ---------------------------------------------------------------------
  // Input resolution.

  /** An override wins whenever it is given, even when it is zero; a pace
      that is missing or zero becomes the 62-play fallback. */
  function ResolvePace(override: Option<real>, recorded: Option<real>): (r: real)
    ensures r != 0.0
    ensures override.Some? ==> r == (if override.value == 0.0 then FallbackPace else override.value)
    ensures override.None? && recorded.Some? ==>
              r == (if recorded.value == 0.0 then FallbackPace else recorded.value)
    ensures override.None? && recorded.None? ==> r == FallbackPace
  {
    var pace := if override.Some? then override else recorded;
    if pace.None? || pace.value == 0.0 then FallbackPace else pace.value
  }

  function ResolveDefPassRate(override: Option<real>, recorded: Option<real>): (r: Option<real>)
    ensures r.None? <==> override.None? && recorded.None?
    ensures override.Some? ==> r == override
    ensures override.None? ==> r == recorded
  {
    if override.Some? then override else recorded
  }

  /** The single clamp of the pipeline, max(0.35, min(0.75, x)). */
  function ClampPassRate(x: real): (r: real)
    ensures MinPassRate <= r <= MaxPassRate
    ensures MinPassRate <= x <= MaxPassRate ==> r == x
    ensures x < MinPassRate ==> r == MinPassRate
    ensures x > MaxPassRate ==> r == MaxPassRate
  {
    if x < MinPassRate then MinPassRate
    else if x > MaxPassRate then MaxPassRate
    else x
  }

  // ---------------------------------------------------------------------
  // The total effect of injuries and venue on each running value.

  function Indicator(b: bool): (r: real) {
    if b then 1.0 else 0.0
  }

  function PassEpaInjuryShift(inj: Injuries): (r: real) {
    - 0.20 * Indicator(inj.qbOut)
    - 0.06 * (inj.eliteWrOut as real)
    - 0.02 * (inj.olMissing as real)
    + (if inj.edgeMissing >= 1 then 0.03 else 0.0)
  }

  function PassRateInjuryShift(inj: Injuries): (r: real) {
    - 0.07 * Indicator(inj.qbOut)
    - 0.02 * (inj.eliteWrOut as real)
    - (if inj.olMissing >= 2 then 0.02 else 0.0)
    + (if inj.edgeMissing >= 1 then 0.025 else 0.0)
  }

  function PassSuccessInjuryShift(inj: Injuries): (r: real) {
    - 0.05 * Indicator(inj.qbOut)
    - 0.02 * (inj.eliteWrOut as real)
    - (if inj.olMissing >= 2 then 0.03 else 0.0)
  }

  function PlaysInjuryShift(inj: Injuries): (r: real) {
    - 3.0 * Indicator(inj.qbOut)
  }

  function DefPassInjuryShift(inj: Injuries): (r: real) {
    if inj.edgeMissing >= 1 then 0.03 else 0.0
  }

  function VenueShift(isHome: bool, h: HomeStrength): (r: real) {
    if isHome then HomeAdjustment(h) else -HomeAdjustment(h)
  }

  // ---------------------------------------------------------------------
  // The running values after every adjustment, in closed form. Offence and
  // success rates are blended by this team's games played, the opposing
  // defence by the opponent's.

  function OffencePassEpa(team: TeamStats, ctx: GameContext): (r: real) {
    WeightedEpa(team.seasonPassEpa, team.last5PassEpa, ctx.teamGamesPlayed)
    + PassEpaInjuryShift(ctx.injuries) + VenueShift(ctx.isHome, ctx.homeStrength)
  }

  function OffenceRunEpa(team: TeamStats, ctx: GameContext): (r: real) {
    WeightedEpa(team.seasonRunEpa, team.last5RunEpa, ctx.teamGamesPlayed)
    + VenueShift(ctx.isHome, ctx.homeStrength)
  }

  function DefencePassEpa(opp: TeamStats, ctx: GameContext): (r: real) {
    WeightedEpa(opp.defSeasonPassEpa, opp.defLast5PassEpa, ctx.oppGamesPlayed)
    + DefPassInjuryShift(ctx.injuries)
  }

  function DefenceRunEpa(opp: TeamStats, ctx: GameContext): (r: real) {
    WeightedEpa(opp.defSeasonRunEpa, opp.defLast5RunEpa, ctx.oppGamesPlayed)
  }

  function PassSuccess(team: TeamStats, ctx: GameContext): (r: real) {
    WeightedEpa(team.seasonPassSuccess, team.last5PassSuccess, ctx.teamGamesPlayed)
    + PassSuccessInjuryShift(ctx.injuries)
  }

  function RunSuccess(team: TeamStats, ctx: GameContext): (r: real) {
    WeightedEpa(team.seasonRunSuccess, team.last5RunSuccess, ctx.teamGamesPlayed)
  }

  function RawPassRate(team: TeamStats, ctx: GameContext, defPassRateAgainst: real): (r: real) {
    ExpectedPassRate(team.passRate, team.proe, defPassRateAgainst, ctx.leagueAvgPassRate, ctx.spread)
    + PassRateInjuryShift(ctx.injuries)
  }

  function Plays(team: TeamStats, opp: TeamStats, ctx: GameContext): (r: real) {
    ExpectedPlays(ResolvePace(ctx.paceOverride, team.pace), ResolvePace(ctx.oppPaceOverride, opp.pace), ctx.spread)
    + PlaysInjuryShift(ctx.injuries)
  }

  // ---------------------------------------------------------------------
  // Building the result.

  /** The relations every projection result satisfies. */
  predicate Consistent(r: ProjectionResult, ptsPerPlayBase: real) {
    && MinPassRate <= r.passRate <= MaxPassRate
    && r.passAttempts == r.passRate * r.plays
    && r.successAdjustment == (r.successRate - LeagueAvgSuccess) * SuccessWeight
    && r.score == (ptsPerPlayBase + r.matchupEpa) * r.plays + r.successAdjustment
  }

  /** Clamps the pass rate, weighs pass and run by it (run rate = 1 - pass
      rate) and turns efficiency and success rate into points. */
  function Assemble(oPass: real, oRun: real, dPass: real, dRun: real,
                    passSuccess: real, runSuccess: real,
                    rawPassRate: real, plays: real, ptsPerPlayBase: real): (r: ProjectionResult)
    ensures Consistent(r, ptsPerPlayBase)
    ensures r.passRate == ClampPassRate(rawPassRate) && r.plays == plays
    ensures r.matchupEpa == r.passRate * NetEpa(oPass, dPass) + (1.0 - r.passRate) * NetEpa(oRun, dRun)
    ensures Between(r.matchupEpa, NetEpa(oPass, dPass), NetEpa(oRun, dRun))
    ensures r.successRate == r.passRate * passSuccess + (1.0 - r.passRate) * runSuccess
    ensures Between(r.successRate, passSuccess, runSuccess)
  {
    var p := ClampPassRate(rawPassRate);
    var m := p * NetEpa(oPass, dPass) + (1.0 - p) * NetEpa(oRun, dRun);
    var sr := p * passSuccess + (1.0 - p) * runSuccess;
    ConvexCombination(p, NetEpa(oPass, dPass), NetEpa(oRun, dRun));
    ConvexCombination(p, passSuccess, runSuccess);
    var adj := SuccessRateAdjustment(sr, weight := SuccessWeight);
    ProjectionResult(
      score := (ptsPerPlayBase + m) * plays + adj,
      passRate := p,
      plays := plays,
      passAttempts := p * plays,
      matchupEpa := m,
      successRate := sr,
      successAdjustment := adj)
  }

  /** The projection of `team` against `opp`. It fails exactly when the
      opposing defence's allowed pass rate is given neither as an override nor
      in the opponent's record. */
  function Project(team: TeamStats, opp: TeamStats, ctx: GameContext): (r: Result<ProjectionResult, ProjectionError>)
    ensures r.Err? <==> ctx.defPassRateOverride.None? && opp.defPassRateAgainst.None?
    ensures r.Ok? ==> Consistent(r.value, ctx.ptsPerPlayBase)
    ensures r.Ok? ==> r.value.plays == Plays(team, opp, ctx)
    ensures r.Ok? ==> r.value.passRate
                      == ClampPassRate(RawPassRate(team, ctx,
                                                   ResolveDefPassRate(ctx.defPassRateOverride, opp.defPassRateAgainst).value))
  {
    match ResolveDefPassRate(ctx.defPassRateOverride, opp.defPassRateAgainst)
    case None => Err(NoDefPassRateAgainst)
    case Some(defRate) =>
      Ok(Assemble(OffencePassEpa(team, ctx), OffenceRunEpa(team, ctx),
                  DefencePassEpa(opp, ctx), DefenceRunEpa(opp, ctx),
                  PassSuccess(team, ctx), RunSuccess(team, ctx),
                  RawPassRate(team, ctx, defRate), Plays(team, opp, ctx), ctx.ptsPerPlayBase))
  }

  /** The injury adjustments in their fixed order: QB, elite pass-catchers,
      offensive line, then the opponent's missing edge rushers. Each running
      value ends up moved by exactly its total injury shift. */
  method ApplyInjuries(inj: Injuries, oPass0: real, passRate0: real, plays0: real,
                       passSuccess0: real, dPass0: real)
    returns (oPass: real, passRate: real, plays: real, passSuccess: real, dPass: real)
    ensures oPass == oPass0 + PassEpaInjuryShift(inj)
    ensures passRate == passRate0 + PassRateInjuryShift(inj)
    ensures plays == plays0 + PlaysInjuryShift(inj)
    ensures passSuccess == passSuccess0 + PassSuccessInjuryShift(inj)
    ensures dPass == dPass0 + DefPassInjuryShift(inj)
  {
    oPass, passRate, plays, passSuccess, dPass := oPass0, passRate0, plays0, passSuccess0, dPass0;
    if inj.qbOut {
      oPass := oPass - 0.20;
      passRate := passRate - 0.07;
      plays := plays - 3.0;
      passSuccess := passSuccess - 0.05;
    }

    oPass := oPass - (inj.eliteWrOut as real) * 0.06;
    passRate := passRate - (inj.eliteWrOut as real) * 0.02;
    passSuccess := passSuccess - (inj.eliteWrOut as real) * 0.02;

    oPass := oPass - (inj.olMissing as real) * 0.02;
    if inj.olMissing >= 2 {
      passRate := passRate - 0.02;
      passSuccess := passSuccess - 0.03;
    }

    if inj.edgeMissing >= 1 {
      dPass := dPass + 0.03;
      oPass := oPass + 0.03;
      passRate := passRate + 0.025;
    }
  }

  /** The projection step by step: resolve inputs, blend, apply the injury
      adjustments in their fixed order, then the venue shift; `Assemble` then
      clamps once and scores. */
  method ProjectTeamScore(team: TeamStats, opp: TeamStats, ctx: GameContext)
    returns (r: Result<ProjectionResult, ProjectionError>)
    ensures r == Project(team, opp, ctx)
    ensures r.Ok? ==> Consistent(r.value, ctx.ptsPerPlayBase)
  {
    var teamPace := if ctx.paceOverride.Some? then ctx.paceOverride else team.pace;
    var oppPace := if ctx.oppPaceOverride.Some? then ctx.oppPaceOverride else opp.pace;
    var defPassRateAgainst := if ctx.defPassRateOverride.Some? then ctx.defPassRateOverride
                              else opp.defPassRateAgainst;

    // no zero pace
    var teamPaceValue := if teamPace.None? || teamPace.value == 0.0 then FallbackPace else teamPace.value;
    var oppPaceValue := if oppPace.None? || oppPace.value == 0.0 then FallbackPace else oppPace.value;

    var oPass := WeightedEpa(team.seasonPassEpa, team.last5PassEpa, ctx.teamGamesPlayed);
    var oRun := WeightedEpa(team.seasonRunEpa, team.last5RunEpa, ctx.teamGamesPlayed);
    var dPass := WeightedEpa(opp.defSeasonPassEpa, opp.defLast5PassEpa, ctx.oppGamesPlayed);
    var dRun := WeightedEpa(opp.defSeasonRunEpa, opp.defLast5RunEpa, ctx.oppGamesPlayed);
    var passSuccess := WeightedEpa(team.seasonPassSuccess, team.last5PassSuccess, ctx.teamGamesPlayed);
    var runSuccess := WeightedEpa(team.seasonRunSuccess, team.last5RunSuccess, ctx.teamGamesPlayed);

    if defPassRateAgainst.None? {
      return Err(NoDefPassRateAgainst);
    }
    var expectedPassRate := ExpectedPassRate(team.passRate, team.proe, defPassRateAgainst.value,
                                             ctx.leagueAvgPassRate, ctx.spread);
    var expectedPlays := ExpectedPlays(teamPaceValue, oppPaceValue, ctx.spread);

    // injuries, in this order
    oPass, expectedPassRate, expectedPlays, passSuccess, dPass :=
      ApplyInjuries(ctx.injuries, oPass, expectedPassRate, expectedPlays, passSuccess, dPass);

    // venue
    var homeAdj := HomeAdjustment(ctx.homeStrength);
    if ctx.isHome {
      oPass := oPass + homeAdj;
      oRun := oRun + homeAdj;
    } else {
      oPass := oPass - homeAdj;
      oRun := oRun - homeAdj;
    }

    assert oPass == OffencePassEpa(team, ctx) && oRun == OffenceRunEpa(team, ctx);
    assert dPass == DefencePassEpa(opp, ctx) && dRun == DefenceRunEpa(opp, ctx);
    assert passSuccess == PassSuccess(team, ctx) && runSuccess == RunSuccess(team, ctx);
    assert expectedPassRate == RawPassRate(team, ctx, defPassRateAgainst.value);
    assert expectedPlays == Plays(team, opp, ctx);


    // efficiency, the clamp and the score are pure expressions from here on
    r := Ok(Assemble(oPass, oRun, dPass, dRun, passSuccess, runSuccess,
                     expectedPassRate, expectedPlays, ctx.ptsPerPlayBase));
  }

  // ---------------------------------------------------------------------
  // Properties of the projection.

  function WithQbOut(ctx: GameContext): (r: GameContext) {
    ctx.(injuries := ctx.injuries.(qbOut := true))
  }

  /** A starting QB out costs exactly 0.20 pass EPA, 0.07 of pass rate (before
      the clamp, and after it when both rates lie inside the clamp range), 3
      plays and 0.05 of pass success, all else equal. */
  lemma QbOutPenalties(team: TeamStats, opp: TeamStats, ctx: GameContext, defRate: real)
    requires !ctx.injuries.qbOut
    ensures OffencePassEpa(team, WithQbOut(ctx)) == OffencePassEpa(team, ctx) - 0.20
    ensures RawPassRate(team, WithQbOut(ctx), defRate) == RawPassRate(team, ctx, defRate) - 0.07
    ensures PassSuccess(team, WithQbOut(ctx)) == PassSuccess(team, ctx) - 0.05
    ensures Plays(team, opp, WithQbOut(ctx)) == Plays(team, opp, ctx) - 3.0
  {
  }

  /** The same statement on projection results. */
  lemma QbOutResult(team: TeamStats, opp: TeamStats, ctx: GameContext)
    requires !ctx.injuries.qbOut
    ensures Project(team, opp, WithQbOut(ctx)).Ok? == Project(team, opp, ctx).Ok?
    ensures Project(team, opp, ctx).Ok? ==>
              Project(team, opp, WithQbOut(ctx)).value.plays == Project(team, opp, ctx).value.plays - 3.0
    ensures Project(team, opp, ctx).Ok? ==>
              var defRate := ResolveDefPassRate(ctx.defPassRateOverride, opp.defPassRateAgainst).value;
              var before := RawPassRate(team, ctx, defRate);
              MinPassRate + 0.07 <= before <= MaxPassRate ==>
                Project(team, opp, WithQbOut(ctx)).value.passRate == Project(team, opp, ctx).value.passRate - 0.07
  {
    QbOutPenalties(team, opp, ctx, if opp.defPassRateAgainst.Some? then opp.defPassRateAgainst.value else 0.0);
    if ctx.defPassRateOverride.Some? {
      QbOutPenalties(team, opp, ctx, ctx.defPassRateOverride.value);
    }
  }

  /** Opponent edge rushers count once: any number from one up has the effect
      of exactly one. */
  lemma EdgeRushersSaturate(team: TeamStats, opp: TeamStats, ctx: GameContext)
    requires ctx.injuries.edgeMissing >= 1
    ensures Project(team, opp, ctx) == Project(team, opp, ctx.(injuries := ctx.injuries.(edgeMissing := 1)))
  {
  }

  /** Moving both offensive EPAs by d moves the score by 8/13 of d per play,
      whatever the pass rate. */
  lemma AssembleOffenceShift(oPass: real, oRun: real, dPass: real, dRun: real,
                             passSuccess: real, runSuccess: real,
                             rawPassRate: real, plays: real, ptsPerPlayBase: real, d: real)
    ensures Assemble(oPass + d, oRun + d, dPass, dRun, passSuccess, runSuccess, rawPassRate, plays, ptsPerPlayBase).score
            == Assemble(oPass, oRun, dPass, dRun, passSuccess, runSuccess, rawPassRate, plays, ptsPerPlayBase).score
               + (8.0 / 13.0) * d * plays
  {
  }

  /** Home and road differ by twice the venue shift in both offensive EPAs,
      which is worth 16/13 of the shift per play. */
  lemma AssembleVenueGap(oPass: real, oRun: real, dPass: real, dRun: real,
                         passSuccess: real, runSuccess: real,
                         rawPassRate: real, plays: real, ptsPerPlayBase: real, h: real)
    ensures Assemble(oPass + 2.0 * h, oRun + 2.0 * h, dPass, dRun, passSuccess, runSuccess, rawPassRate, plays, ptsPerPlayBase).score
            - Assemble(oPass, oRun, dPass, dRun, passSuccess, runSuccess, rawPassRate, plays, ptsPerPlayBase).score
            == (16.0 / 13.0) * h * plays
  {
    AssembleOffenceShift(oPass, oRun, dPass, dRun, passSuccess, runSuccess, rawPassRate, plays, ptsPerPlayBase, 2.0 * h);
    assert (8.0 / 13.0) * (2.0 * h) * plays == (16.0 / 13.0) * h * plays;
  }

  /** Raising the offensive pass EPA never lowers the score while the number of
      plays is non-negative. */
  lemma AssemblePassEpaMonotone(oPass: real, oPass': real, oRun: real, dPass: real, dRun: real,
                                passSuccess: real, runSuccess: real,
                                rawPassRate: real, plays: real, ptsPerPlayBase: real)
    requires oPass <= oPass' && 0.0 <= plays
    ensures Assemble(oPass, oRun, dPass, dRun, passSuccess, runSuccess, rawPassRate, plays, ptsPerPlayBase).score
            <= Assemble(oPass', oRun, dPass, dRun, passSuccess, runSuccess, rawPassRate, plays, ptsPerPlayBase).score
  {
    var before := Assemble(oPass, oRun, dPass, dRun, passSuccess, runSuccess, rawPassRate, plays, ptsPerPlayBase);
    var after := Assemble(oPass', oRun, dPass, dRun, passSuccess, runSuccess, rawPassRate, plays, ptsPerPlayBase);
    var p := before.passRate;
    var np, np', nr := NetEpa(oPass, dPass), NetEpa(oPass', dPass), NetEpa(oRun, dRun);
    NetEpaIncreasing(oPass, oPass', dPass);
    var gain := after.matchupEpa - before.matchupEpa;
    assert gain == p * (np' - np);
    MulNonNegative(p, np' - np);
    MulNonNegative(gain, plays);
    assert after.successAdjustment == before.successAdjustment;
    assert after.score - before.score == gain * plays;
  }

  /** The gap between playing at home and on the road, all else equal, is
      exactly 16/13 of the venue's EPA adjustment per play: both offensive EPAs
      move by twice the adjustment, and net efficiency passes 8/13 of that on,
      whatever the pass rate. */
  lemma HomeAdvantage(team: TeamStats, opp: TeamStats, ctx: GameContext)
    requires Project(team, opp, ctx).Ok?
    ensures var home := Project(team, opp, ctx.(isHome := true)).value;
            var away := Project(team, opp, ctx.(isHome := false)).value;
            home.plays == away.plays
            && home.score - away.score == (16.0 / 13.0) * HomeAdjustment(ctx.homeStrength) * home.plays
  {
    var h := HomeAdjustment(ctx.homeStrength);
    var cA := ctx.(isHome := false);
    var defRate := ResolveDefPassRate(ctx.defPassRateOverride, opp.defPassRateAgainst).value;
    AssembleVenueGap(OffencePassEpa(team, cA), OffenceRunEpa(team, cA), DefencePassEpa(opp, cA), DefenceRunEpa(opp, cA),
                     PassSuccess(team, cA), RunSuccess(team, cA), RawPassRate(team, cA, defRate),
                     Plays(team, opp, cA), ctx.ptsPerPlayBase, h);
  }

  /** A better passing offence never projects fewer points while the team runs
      a non-negative number of plays: raising the season or last-5 pass EPA
      cannot lower the score. */
  lemma PassEpaMonotone(team: TeamStats, opp: TeamStats, ctx: GameContext, seasonPassEpa: real, last5PassEpa: real)
    requires Project(team, opp, ctx).Ok?
    requires team.seasonPassEpa <= seasonPassEpa && team.last5PassEpa <= last5PassEpa
    requires Project(team, opp, ctx).value.plays >= 0.0
    ensures var better := team.(seasonPassEpa := seasonPassEpa, last5PassEpa := last5PassEpa);
            Project(team, opp, ctx).value.score <= Project(better, opp, ctx).value.score
  {
    var better := team.(seasonPassEpa := seasonPassEpa, last5PassEpa := last5PassEpa);
    var defRate := ResolveDefPassRate(ctx.defPassRateOverride, opp.defPassRateAgainst).value;
    WeightedEpaMonotone(team.seasonPassEpa, team.last5PassEpa, seasonPassEpa, last5PassEpa, ctx.teamGamesPlayed);
    assert OffenceRunEpa(better, ctx) == OffenceRunEpa(team, ctx);
    assert PassSuccess(better, ctx) == PassSuccess(team, ctx) && RunSuccess(better, ctx) == RunSuccess(team, ctx);
    assert RawPassRate(better, ctx, defRate) == RawPassRate(team, ctx, defRate);
    assert Plays(better, opp, ctx) == Plays(team, opp, ctx);
    AssemblePassEpaMonotone(OffencePassEpa(team, ctx), OffencePassEpa(better, ctx), OffenceRunEpa(team, ctx),
                            DefencePassEpa(opp, ctx), DefenceRunEpa(opp, ctx),
                            PassSuccess(team, ctx), RunSuccess(team, ctx),
                            RawPassRate(team, ctx, defRate), Plays(team, opp, ctx), ctx.ptsPerPlayBase);
  }

  /** A team missing from both offence tables blends to league average, whatever
      its games played: no EPA, 0.46 pass success and 0.43 run success before
      injuries. */
  lemma LeagueAverageBlend(team: TeamStats, ctx: GameContext)
    requires OffenceSeasonOf(team) == LeagueAverageRow && OffenceLast5Of(team) == LeagueAverageRow
    ensures WeightedEpa(team.seasonPassEpa, team.last5PassEpa, ctx.teamGamesPlayed) == 0.0
    ensures WeightedEpa(team.seasonRunEpa, team.last5RunEpa, ctx.teamGamesPlayed) == 0.0
    ensures RunSuccess(team, ctx) == 0.43
    ensures PassSuccess(team, ctx) == 0.46 + PassSuccessInjuryShift(ctx.injuries)
  {
  }
}
