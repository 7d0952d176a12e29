# NFL game-total projection engine, modelled in Dafny

This project models the projection engine of an NFL totals model. The engine
turns per-team statistics into a projected score for each team, then into a game
total. The statistics are season and last-5-game EPA (expected points added)
per play, success rates, pass tendencies and pace. The game context is the
point spread, injuries, venue and weather. The model follows `model.py`:

- `blend.dfy` (module `Blend`) holds the primitives: the recency blend of a
  season value with a last-5 value, the 1.6 : 1.0 net-efficiency combiner, the
  expected pass rate with its game-script step on the spread, expected plays,
  success-rate points and the weather penalty.
- `records.dfy` (module `Records`) holds the table rows and the fixed-shape team
  record. `MergeTeam` builds the record with the league-average defaults.
- `projection.dfy` (module `Projection`) holds the single-team projection.
  `Project` states it in closed form: each running value is its blended
  statistic plus the total shift from injuries and venue.
  `ProjectTeamScore` performs the same projection as `model.py` does, one ordered
  local update at a time, and is proved equal to `Project`.
- `game.dfy` (module `Game`) holds the game-level arithmetic taken out of the
  interactive driver. Both teams are projected with the roles swapped and the
  spread negated. The scores are added, the weather penalty is taken off once,
  and the advisory insights are derived.

Every quantity is an exact `real`. The model has no IEEE-754 rounding, so
every identity below holds exactly. Functions are deterministic, so identical
inputs give identical projections by construction.

Points about how `model.py` behaves that the model keeps:

- The merge always sets the `pace` and `def_pass_rate_against` keys of the
  team record, and sets them to nothing when the team has no tendencies row.
  So the `.get(..., 65.0)` and `.get(..., 0.60)` fallbacks in the projection
  never fire. A pace that is missing or zero becomes 62.0.
- The merge loops over the teams of the tendencies table only, so every
  record it builds has a tendencies row, and with it a numeric pace and
  allowed pass rate. The `tendency == None` case of `MergeTeam` and
  `Err(NoDefPassRateAgainst)` with no override are reached only by records
  built some other way; the model keeps them because the projection's code
  handles them.
- With no allowed defensive pass rate, from either an override or the record,
  the projection subtracts a number from `None` and raises. The model returns
  `Err(NoDefPassRateAgainst)` in that case, and only then.
- Venue strength is a three-case datatype. A string other than the three
  known ones raises `KeyError` in the source, and the datatype cannot hold one.
- At a neutral site neither team is at home, and the driver never asks for
  venue strength: it uses an average venue. Both teams therefore take the
  road shift of an average venue, −0.015 EPA per play. `Game.Venue` applies
  this rule, so a `GameSetup` that pairs `Neutral` with another strength
  projects as an average venue.
- An override is used whenever it is given, even when it is zero. A zero
  override becomes 62.0; the record's pace is then not consulted.

## Model

| member | source | states |
|---|---|---|
| Blend.NetEpa | model.py:4-9 | the net value moves 8/13 of the way from the defence's allowed EPA toward the offence's EPA, so it lies between the two and equals both when they agree |
| Blend.NetEpaScale | model.py:9 | scaling offence and defence by k scales net EPA by k |
| Blend.NetEpaAdditive | model.py:9 | net EPA of a sum of inputs is the sum of the net EPAs |
| Blend.NetEpaIncreasing | model.py:9 | net EPA strictly increases with the offence's EPA |
| Blend.RecentWeight | model.py:15-22 | the last-5 share is in [0, 0.6] and is zero exactly when 5 or fewer games were played |
| Blend.RecentWeightMonotone | model.py:15-22 | more games played never lowers the weight of the recent sample |
| Blend.WeightedEpa | model.py:11-22 | the blend is the convex mix (1-w)·season + w·last5 with w the step weight; it returns the season value whenever games played ≤ 5, lies between the two values, and equals both when they agree |
| Blend.WeightedEpaMonotone | model.py:11-22 | raising either input never lowers the blend |
| Blend.ConvexCombination | model.py:385-392 | a mix p·a + (1-p)·b with p in [0, 1] lies between a and b |
| Blend.SpreadPassAdjustment | model.py:33-42 | the game-script step lies in [-0.04, 0.05], is positive exactly when spread ≥ 4 and negative exactly when spread ≤ -4 |
| Blend.SpreadPassAdjustmentSteps | model.py:34-42 | 0 for -4 < spread < 4, +0.03 on [4, 7), +0.05 from 7, -0.02 on (-7, -4], -0.04 up to -7 |
| Blend.SpreadPassAdjustmentMonotone | model.py:34-42 | the step never decreases as the spread grows |
| Blend.ExpectedPassRate | model.py:24-44 | the rate is the team's pass rate + 0.6·PROE + 0.4·(defence's allowed rate − league average) + the spread step; neutral inputs with a small spread give back the team's pass rate |
| Blend.PlaysSpreadAdjustment | model.py:52-56 | the step lies in [-4, 3]; it is positive exactly when abs(spread) ≤ 3 (+3) and negative exactly when abs(spread) ≥ 10 (-4), 0 in between |
| Blend.ExpectedPlays | model.py:46-58 | expected plays is the average of both paces plus the spread step; before the step it lies between the two paces |
| Blend.ExpectedPlaysSymmetric | model.py:50-58 | swapping the paces and negating the spread, or negating the spread alone, leaves expected plays unchanged |
| Blend.SuccessRateAdjustment | model.py:86-94 | zero at the league average; for a positive weight, positive exactly above the average and negative exactly below it |
| Blend.SuccessRateAdjustmentLinear | model.py:90-94 | each step of success rate is worth weight times itself (+0.01 is +0.55 points at weight 55) |
| Blend.WindPenalty | model.py:66-71 | the wind term is in [0, 6] and is zero exactly below 10 mph; only the highest band applies |
| Blend.ColdPenalty | model.py:73-74 | the cold term is 2 exactly below 0°F and 0 otherwise |
| Blend.PrecipitationPenalty | model.py:76-82 | the lookup is in [0, 8], is 8 exactly for "blizzard" and 0 exactly for every code outside the four listed |
| Blend.WeatherPenalty | model.py:60-84 | the penalty is never negative and never exceeds 16 points |
| Blend.WeatherPenaltyMaximum | model.py:64-84 | the penalty is 16 exactly when wind ≥ 20, temperature < 0 and precipitation is "blizzard" |
| Blend.CalculateWeatherAdjustment | model.py:60-84 | the running adjustment with its dictionary lookup equals the sum of the three components, in [0, 16] |
| Records.MergeTeam | model.py:271-293 | the tendencies row and both offence rows are recovered unchanged, and so are the two EPA columns of each defence row (the record keeps no defensive success rate); a missing efficiency row reads as 0.0 EPA, 0.46 pass success and 0.43 run success; a missing tendencies row gives pass rate 0.60, PROE 0 and no pace or allowed pass rate |
| Records.MergeTeamInjective | model.py:271-293 | for the same defence rows, two different tendencies rows or present offence rows never build the same record |
| Projection.HomeAdjustment | model.py:369 | the venue shift is between 0.01 and 0.025 EPA per play, 0.025 exactly for a strong venue |
| Projection.ResolvePace | model.py:311-319 | the resolved pace is never zero: an override wins even when zero, then the record's pace, and a missing or zero pace becomes 62.0 |
| Projection.ResolveDefPassRate | model.py:313 | the override wins; the result is missing exactly when both the override and the record's value are missing |
| Projection.ClampPassRate | model.py:382 | the clamped rate is in [0.35, 0.75], equal to the input inside that range and to the nearer bound outside it |
| Projection.Assemble | model.py:377-405 | pass rate is the clamped rate and run rate is 1 − pass rate; matchup EPA = pass rate · net pass EPA + run rate · net run EPA and success rate = pass rate · pass success + run rate · run success, each lying between its pass and run values; pass attempts = pass rate · plays; score = (base + matchup EPA) · plays + (success rate − 0.46) · 55 |
| Projection.Project | model.py:301-405 | the projection fails exactly when no allowed pass rate is available; otherwise its result satisfies the score, pass-attempt and success-points relations, its pass rate is the clamped raw pass rate for the resolved allowed pass rate, and its plays are the resolved-pace expected plays after injuries |
| Projection.ProjectTeamScore | model.py:301-405 | the ordered sequence of override resolution, blends, injury adjustments and venue shift gives exactly the closed-form projection |
| Projection.ApplyInjuries | model.py:347-366 | the QB, pass-catcher, line and edge-rusher adjustments applied in order move pass EPA, pass rate, plays, pass success and the defence's pass EPA each by exactly its total injury shift |
| Projection.QbOutPenalties | model.py:348-352 | a QB out costs exactly 0.20 pass EPA, 0.07 raw pass rate, 0.05 pass success and 3 plays, all else equal |
| Projection.QbOutResult | model.py:348-352 | in the result, a QB out costs exactly 3 plays, and 0.07 of pass rate when the clamp touches neither rate |
| Projection.EdgeRushersSaturate | model.py:363-366 | any number of missing opponent edge rushers from one up projects the same as exactly one |
| Projection.AssembleOffenceShift | model.py:377-395 | moving both offensive EPAs by d moves the score by exactly 8/13 · d per play, whatever the pass rate |
| Projection.AssembleVenueGap | model.py:368-395 | adding twice a venue shift h to both offensive EPAs raises the score by exactly 16/13 · h per play |
| Projection.AssemblePassEpaMonotone | model.py:377-395 | with non-negative plays, a higher offensive pass EPA never lowers the score |
| Projection.HomeAdvantage | model.py:368-375 | home and away differ by exactly 16/13 of the venue shift per play, with the same plays |
| Projection.PassEpaMonotone | model.py:328-395 | with non-negative plays, raising a team's season or last-5 pass EPA never lowers its projected score |
| Projection.LeagueAverageBlend | model.py:279-286 | a team missing from both offence tables blends to 0 EPA, 0.43 run success and 0.46 pass success before injuries, for any games played |
| Game.ScoringInsight | model.py:584-587 | high scoring exactly when the total is at least 48, low scoring exactly when it is at most 40, never both |
| Game.VolumeInsight | model.py:589-591 | high pass volume exactly when the combined pass attempts reach 80 |
| Game.WeatherInsight | model.py:593-594 | the weather note exactly when weather took at least 3 points off |
| Game.SuccessInsight | model.py:596-600 | high success exactly at an average of 0.48 or more, low success exactly at 0.42 or less, never both |
| Game.PiecesOrdered | model.py:582-600 | one piece per group, concatenated in group order, is ordered, repeats no insight and contains an insight exactly when its own group's piece does |
| Game.Insights | model.py:582-600 | each insight is reported exactly when its threshold is met (total ≥ 48 / ≤ 40, pass attempts ≥ 80, weather ≥ 3, average success ≥ 0.48 / ≤ 0.42); at most four are reported |
| Game.InsightsOrdered | model.py:582-600 | the insights come in the reported order (scoring, pass volume, weather, success rates) and none appears twice |
| Game.Summarize | model.py:557-600 | base total is the sum of the two scores; final total is base minus the weather penalty and never above base for a non-negative penalty |
| Game.SummarizeSymmetric | model.py:557-600 | totals and insights do not depend on which projection is called A |
| Game.GameProjection | model.py:537-558 | the game succeeds exactly when both projections do, carries both projections and the weather penalty, and its final total lies within 16 points below the base total; the two calls get their arguments from `ContextA` and `ContextB`: each team's own games and pace override, the other team's pace and allowed pass rate overrides, the other team's missing edge rushers, and the spread as given for A and negated for B |
| Game.NeutralSiteShift | model.py:461-469 | at a neutral site neither team is at home and both take the road shift of an average venue, −0.015 EPA per play, whatever venue the setup carries |
| Game.ProjectGame | model.py:521-558 | computing the weather penalty, then A's and B's projections, then the totals gives exactly the closed-form game |
| Game.GameProjectionRoleSymmetric | model.py:537-555 | relabelling the teams (with the spread negated) gives each team the same projection and the same totals and insights |
| Game.WeatherOnlyLowers | model.py:557-558 | the final total is the two scores minus the weather; it is at most the base total and at least 16 below it, with the bottom reached exactly in a 20 mph, sub-zero blizzard |

## Left out

- CSV loading (`load_team_tendencies`, `load_rbsdm_stats`): file checks, column-name variants and team aliases are file I/O.
- `parse_value` depends on the host language's string-to-float parsing. The model assumes its output contract: every rate is a decimal fraction, and blanks and the tokens `na`, `n/a`, `-`, `none` read as 0.0.
- The table-wide loop of `merge_team_data`: iterating over the tendencies teams, and returning nothing when a table failed to load. Only the building of one team's record is modelled, as `MergeTeam`.
- The debug prints for selected teams in `merge_team_data`, and all printing and rounding in `get_game_projection`.
- The interactive prompts of `get_game_projection` are input parsing. This covers the games-played default and its clamp to 0..17, the location and venue menus, and the prompts that fill a missing pace or defensive pass rate. It also covers the dome defaults (wind 0, 70°F, no precipitation) and the precipitation menu, which never produces "heavy_snow". `GameSetup` takes the values those prompts produce. It can also pair a neutral site with a weak or strong venue, which the prompts never do; `Game.Venue` reads that as an average venue, as the driver does.
- Floating-point rounding. Every quantity is an exact real.
- Injury counts are unbounded integers, as in the source (negative counts included). No range checks are modelled because the source has none.
