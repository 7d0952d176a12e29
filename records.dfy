/** The value records of the engine: the rows the statistics tables supply,
    and the fixed-shape per-team record built from them with the documented
    league-average defaults. */
module Records {

  datatype Option<T> = None | Some(value: T)

  datatype Result<T, E> = Ok(value: T) | Err(error: E)

  /** One row of the tendencies table, every rate already a decimal fraction. */
  datatype TendencyRow = TendencyRow(passRate: real, proe: real, pace: real, defPassRateAgainst: real)

  /** One row of an efficiency table (season or last-5, offence or defence):
      dropback and rush EPA per play and success rates. */
  datatype EfficiencyRow = EfficiencyRow(dropbackEpa: real, dropbackSuccess: real,
                                         rushEpa: real, rushSuccess: real)

  const DefaultPassRate: real := 0.60
  const DefaultProe: real := 0.0
  const DefaultEpa: real := 0.0
  const DefaultPassSuccess: real := 0.46
  const DefaultRunSuccess: real := 0.43

  /** What a team missing from an efficiency table is taken to have. */
  const LeagueAverageRow: EfficiencyRow :=
    EfficiencyRow(DefaultEpa, DefaultPassSuccess, DefaultEpa, DefaultRunSuccess)

  /** The per-team statistics record. `pace` and `defPassRateAgainst` are
      always present as fields but hold no value when the team has no
      tendencies row. */
  datatype TeamStats = TeamStats(
    passRate: real,
    proe: real,
    pace: Option<real>,
    defPassRateAgainst: Option<real>,
    seasonPassEpa: real,
    last5PassEpa: real,
    seasonRunEpa: real,
    last5RunEpa: real,
    seasonPassSuccess: real,
    last5PassSuccess: real,
    seasonRunSuccess: real,
    last5RunSuccess: real,
    defSeasonPassEpa: real,
    defLast5PassEpa: real,
    defSeasonRunEpa: real,
    defLast5RunEpa: real)

  // Views of a record back onto the table rows it was built from.

  function TendencyOf(t: TeamStats): (r: Option<TendencyRow>) {
    if t.pace.Some? && t.defPassRateAgainst.Some?
    then Some(TendencyRow(t.passRate, t.proe, t.pace.value, t.defPassRateAgainst.value))
    else None
  }

  function OffenceSeasonOf(t: TeamStats): (r: EfficiencyRow) {
    EfficiencyRow(t.seasonPassEpa, t.seasonPassSuccess, t.seasonRunEpa, t.seasonRunSuccess)
  }

  function OffenceLast5Of(t: TeamStats): (r: EfficiencyRow) {
    EfficiencyRow(t.last5PassEpa, t.last5PassSuccess, t.last5RunEpa, t.last5RunSuccess)
  }

  /** The defensive record keeps only the EPA columns of its rows. */
  function DefenceSeasonEpaOf(t: TeamStats): (r: (real, real)) {
    (t.defSeasonPassEpa, t.defSeasonRunEpa)
  }

  function DefenceLast5EpaOf(t: TeamStats): (r: (real, real)) {
    (t.defLast5PassEpa, t.defLast5RunEpa)
  }

  function EpaOf(row: Option<EfficiencyRow>): (r: (real, real)) {
    match row
    case Some(r) => (r.dropbackEpa, r.rushEpa)
    case None => (DefaultEpa, DefaultEpa)
  }

  function RowOrAverage(row: Option<EfficiencyRow>): (r: EfficiencyRow) {
    match row
    case Some(r) => r
    case None => LeagueAverageRow
  }

  /** Builds one team's record from the row each table holds for it (None when
      the team is missing from that table), field by field with a default for
      every missing row. */
  function MergeTeam(tendency: Option<TendencyRow>,
                     offSeason: Option<EfficiencyRow>, offLast5: Option<EfficiencyRow>,
                     defSeason: Option<EfficiencyRow>, defLast5: Option<EfficiencyRow>): (t: TeamStats)
    // the tendencies row and both offence rows are recovered unchanged, and so
    // are the two EPA columns of each defence row ...
    ensures TendencyOf(t) == tendency
    ensures OffenceSeasonOf(t) == RowOrAverage(offSeason)
    ensures OffenceLast5Of(t) == RowOrAverage(offLast5)
    ensures DefenceSeasonEpaOf(t) == EpaOf(defSeason)
    ensures DefenceLast5EpaOf(t) == EpaOf(defLast5)
    // ... and a missing tendencies row leaves league-average tendencies and no pace
    ensures tendency.None? ==> t.passRate == 0.60 && t.proe == 0.0 && t.pace.None? && t.defPassRateAgainst.None?
  {
    TeamStats(
      passRate := if tendency.Some? then tendency.value.passRate else DefaultPassRate,
      proe := if tendency.Some? then tendency.value.proe else DefaultProe,
      pace := if tendency.Some? then Some(tendency.value.pace) else None,
      defPassRateAgainst := if tendency.Some? then Some(tendency.value.defPassRateAgainst) else None,
      seasonPassEpa := if offSeason.Some? then offSeason.value.dropbackEpa else DefaultEpa,
      last5PassEpa := if offLast5.Some? then offLast5.value.dropbackEpa else DefaultEpa,
      seasonRunEpa := if offSeason.Some? then offSeason.value.rushEpa else DefaultEpa,
      last5RunEpa := if offLast5.Some? then offLast5.value.rushEpa else DefaultEpa,
      seasonPassSuccess := if offSeason.Some? then offSeason.value.dropbackSuccess else DefaultPassSuccess,
      last5PassSuccess := if offLast5.Some? then offLast5.value.dropbackSuccess else DefaultPassSuccess,
      seasonRunSuccess := if offSeason.Some? then offSeason.value.rushSuccess else DefaultRunSuccess,
      last5RunSuccess := if offLast5.Some? then offLast5.value.rushSuccess else DefaultRunSuccess,
      defSeasonPassEpa := if defSeason.Some? then defSeason.value.dropbackEpa else DefaultEpa,
      defLast5PassEpa := if defLast5.Some? then defLast5.value.dropbackEpa else DefaultEpa,
      defSeasonRunEpa := if defSeason.Some? then defSeason.value.rushEpa else DefaultEpa,
      defLast5RunEpa := if defLast5.Some? then defLast5.value.rushEpa else DefaultEpa)
  }

  /** A record built from present offence rows determines those rows and the
      tendencies row: no two different inputs collapse into one record. */
  lemma MergeTeamInjective(t1: Option<TendencyRow>, t2: Option<TendencyRow>,
                           s1: EfficiencyRow, s2: EfficiencyRow,
                           l1: EfficiencyRow, l2: EfficiencyRow,
                           ds: Option<EfficiencyRow>, dl: Option<EfficiencyRow>)
    requires MergeTeam(t1, Some(s1), Some(l1), ds, dl) == MergeTeam(t2, Some(s2), Some(l2), ds, dl)
    ensures t1 == t2 && s1 == s2 && l1 == l2
  {
  }
}
