/** The matchup listing of `get_matchup_info`: games grouped by week, weeks in ascending order, scores gated by the current week. */
module Matchups {
  import opened Wrappers
  import opened League
  import opened TeamDirectory

  /** `game.get('matchupPeriodId', 0)` */
  function WeekOf(g: Game): int
  {
    g.matchupPeriodId.GetOr(0)
  }

  /** `game.get('home', {}).get('teamId')` */
  function HomeId(g: Game): TeamKey
  {
    match g.home
    case None => None
    case Some(side) => side.teamId
  }

  /** `game.get('away', {}).get('teamId')` */
  function AwayId(g: Game): TeamKey
  {
    match g.away
    case None => None
    case Some(side) => side.teamId
  }

  /** `league_data.get('status', {}).get('currentMatchupPeriod', 0)` */
  function CurrentWeek(league: LeagueData): int
  {
    match league.status
    case None => 0
    case Some(status) => status.currentMatchupPeriod.GetOr(0)
  }

  /** The games of week `w`, in schedule order. */
  function GamesInWeek(schedule: seq<Game>, w: int): (r: seq<Game>)
    ensures |r| <= |schedule|
    ensures forall g :: g in r ==> g in schedule && WeekOf(g) == w
  {
    if schedule == [] then []
    else
      var g := schedule[|schedule| - 1];
      GamesInWeek(schedule[..|schedule| - 1], w) + (if WeekOf(g) == w then [g] else [])
  }

  /** The weeks that have at least one game. */
  function WeeksOf(schedule: seq<Game>): set<int>
  {
    set g | g in schedule :: WeekOf(g)
  }

  /** Some element of a non-empty set of weeks is below all the others. */
  lemma {:induction false} LeastWeekExists(weeks: set<int>)
    requires weeks != {}
    ensures exists least :: least in weeks && forall w :: w in weeks ==> least <= w
    decreases |weeks|
  {
    if forall w :: w !in weeks {
      assert false;
    }
    var x :| x in weeks;
    if weeks - {x} != {} {
      LeastWeekExists(weeks - {x});
      var least :| least in weeks - {x} && forall w :: w in weeks - {x} ==> least <= w;
      LeastOfTwo(weeks, x, least);
    } else {
      LeastOfTwo(weeks, x, x);
    }
  }

  /** If `least` bounds everything but `x` from below, the smaller of the two bounds everything. */
  lemma LeastOfTwo(weeks: set<int>, x: int, least: int)
    requires x in weeks && (least == x || least in weeks)
    requires forall w :: w in weeks - {x} ==> least <= w
    ensures exists m :: m in weeks && forall w :: w in weeks ==> m <= w
  {
    var m := if x < least then x else least;
    forall w | w in weeks ensures m <= w {
      if w != x {
        assert w in weeks - {x};
      }
    }
  }

  /** `sorted(weeks)`: the weeks in strictly ascending order, each once. */
  function SortedWeeks(weeks: set<int>): (r: seq<int>)
    ensures forall i, j :: 0 <= i < j < |r| ==> r[i] < r[j]
    ensures forall w :: w in r <==> w in weeks
    decreases |weeks|
  {
    if weeks == {} then []
    else
      LeastWeekExists(weeks);
      var least :| least in weeks && forall w :: w in weeks ==> least <= w;
      [least] + SortedWeeks(weeks - {least})
  }

  /** One printed line: a week heading, or a game between two known teams with or without its score. */
  datatype Line =
    | Header(week: int)
    | Matchup(week: int, game: Game, away: TeamInfo, home: TeamInfo, withScore: bool)

  /** Both teams of the game are keys of the team map (the key None included). */
  predicate Known(g: Game, teamMap: map<TeamKey, TeamInfo>)
  {
    HomeId(g) in teamMap && AwayId(g) in teamMap
  }

  /** A matchup line names the away and home teams from the map, and shows a score exactly up to the current week. */
  predicate Gated(line: Line, teamMap: map<TeamKey, TeamInfo>, current: int)
  {
    line.Matchup? ==>
      && Known(line.game, teamMap)
      && line.away == teamMap[AwayId(line.game)]
      && line.home == teamMap[HomeId(line.game)]
      && (line.withScore <==> line.week <= current)
  }

  /** The lines printed for one week's games, after its heading. */
  function WeekBlock(games: seq<Game>, teamMap: map<TeamKey, TeamInfo>, week: int, current: int): (r: seq<Line>)
    ensures forall i :: 0 <= i < |r| ==>
              r[i].Matchup? && r[i].week == week && r[i].game in games && Gated(r[i], teamMap, current)
  {
    if games == [] then []
    else
      var g := games[|games| - 1];
      WeekBlock(games[..|games| - 1], teamMap, week, current)
        + if Known(g, teamMap) then [Matchup(week, g, teamMap[AwayId(g)], teamMap[HomeId(g)], week <= current)]
          else []
  }

  /** Heading and block for each week of `weeks`, in that order. */
  function WeekBlocks(schedule: seq<Game>, teamMap: map<TeamKey, TeamInfo>, current: int, weeks: seq<int>): seq<Line>
  {
    if weeks == [] then []
    else
      var w := weeks[|weeks| - 1];
      WeekBlocks(schedule, teamMap, current, weeks[..|weeks| - 1])
        + [Header(w)] + WeekBlock(GamesInWeek(schedule, w), teamMap, w, current)
  }

  /** Everything printed after the title line, week by week in ascending order. */
  function MatchupReport(schedule: seq<Game>, teamMap: map<TeamKey, TeamInfo>, current: int): seq<Line>
  {
    WeekBlocks(schedule, teamMap, current, SortedWeeks(WeeksOf(schedule)))
  }

  /** What `get_matchup_info` does: nothing to show, an exception from the team map, or the listing. */
  datatype MatchupInfo =
    | NoSchedule
    | Failed(error: PyError)
    | Report(currentWeek: int, lines: seq<Line>)

  /** `get_matchup_info(league_data)`, as a value. */
  function MatchupInfoOf(league: LeagueData): MatchupInfo
  {
    match league.schedule
    case None => NoSchedule
    case Some(schedule) =>
      match TeamNameMap(league)
      case Err(e) => Failed(e)
      case Ok(teamMap) => Report(CurrentWeek(league), MatchupReport(schedule, teamMap, CurrentWeek(league)))
  }

  /** The grouping loop: `matchups_by_week[week].append(game)` for every game, in order. */
  method GroupByWeek(schedule: seq<Game>) returns (byWeek: map<int, seq<Game>>)
    ensures byWeek.Keys == WeeksOf(schedule)
    ensures forall w :: w in byWeek ==> byWeek[w] == GamesInWeek(schedule, w)
  {
    byWeek := map[];
    for i := 0 to |schedule|
      invariant Grouped(byWeek, schedule[..i])
    {
      var before := byWeek;
      var game := schedule[i];
      var week := WeekOf(game);
      if week !in byWeek {
        byWeek := byWeek[week := []];
      }
      byWeek := byWeek[week := byWeek[week] + [game]];
      GroupedStep(schedule, i, before, byWeek);
    }
    assert schedule[..|schedule|] == schedule;
  }

  /** `byWeek` holds the games of `schedule` grouped by week. */
  predicate Grouped(byWeek: map<int, seq<Game>>, schedule: seq<Game>)
  {
    && byWeek.Keys == WeeksOf(schedule)
    && forall w :: w in byWeek ==> byWeek[w] == GamesInWeek(schedule, w)
  }

  /** Appending the next game to its week's list, created empty if missing, keeps the grouping. */
  lemma GroupedStep(schedule: seq<Game>, i: nat, before: map<int, seq<Game>>, after: map<int, seq<Game>>)
    requires i < |schedule| && Grouped(before, schedule[..i])
    requires var g := schedule[i];
             after == before[WeekOf(g) := (if WeekOf(g) in before then before[WeekOf(g)] else []) + [g]]
    ensures Grouped(after, schedule[..i + 1])
  {
    var game := schedule[i];
    var week := WeekOf(game);
    var pre := schedule[..i];
    assert schedule[..i + 1] == pre + [game];
    assert after.Keys == WeeksOf(pre + [game]) by {
      WeeksOfSnoc(pre, game);
    }
    forall w | w in after
      ensures after[w] == GamesInWeek(pre + [game], w)
    {
      GamesInWeekSnoc(pre, game, w);
      if w == week && week !in before {
        GamesInWeekEmpty(pre, week);
      }
    }
  }

  /** One more game adds its week to the weeks that have games. */
  lemma WeeksOfSnoc(pre: seq<Game>, g: Game)
    ensures WeeksOf(pre + [g]) == WeeksOf(pre) + {WeekOf(g)}
  {
    forall w | w in WeeksOf(pre + [g])
      ensures w in WeeksOf(pre) + {WeekOf(g)}
    {
      var h :| h in pre + [g] && WeekOf(h) == w;
      if h != g {
        assert h in pre;
      }
    }
    forall w | w in WeeksOf(pre)
      ensures w in WeeksOf(pre + [g])
    {
      var h :| h in pre && WeekOf(h) == w;
      assert h in pre + [g];
    }
    assert g in pre + [g];
  }

  /** One more game joins the end of its own week's list and no other. */
  lemma GamesInWeekSnoc(pre: seq<Game>, g: Game, w: int)
    ensures GamesInWeek(pre + [g], w) == GamesInWeek(pre, w) + if WeekOf(g) == w then [g] else []
  {
    assert (pre + [g])[..|pre + [g]| - 1] == pre;
  }

  /** A week without games has no games: the grouping never makes an empty list. */
  lemma GamesInWeekEmpty(schedule: seq<Game>, w: int)
    requires w !in WeeksOf(schedule)
    ensures GamesInWeek(schedule, w) == []
  {
  }

  /** The inner display loop over one week's games. */
  method ShowWeek(games: seq<Game>, teamMap: map<TeamKey, TeamInfo>, week: int, current: int) returns (block: seq<Line>)
    ensures block == WeekBlock(games, teamMap, week, current)
  {
    block := [];
    for j := 0 to |games|
      invariant block == WeekBlock(games[..j], teamMap, week, current)
    {
      assert games[..j + 1][..j] == games[..j];
      var game := games[j];
      var homeTeamId := HomeId(game);
      var awayTeamId := AwayId(game);
      if homeTeamId in teamMap && awayTeamId in teamMap {
        block := block + [Matchup(week, game, teamMap[awayTeamId], teamMap[homeTeamId], week <= current)];
      }
    }
    assert games[..|games|] == games;
  }

  /** The outer display loop: a heading per week in ascending order, then that week's games. */
  method ShowMatchups(schedule: seq<Game>, teamMap: map<TeamKey, TeamInfo>, current: int) returns (lines: seq<Line>)
    ensures lines == MatchupReport(schedule, teamMap, current)
  {
    var byWeek := GroupByWeek(schedule);
    var weeks := SortedWeeks(byWeek.Keys);
    lines := [];
    for i := 0 to |weeks|
      invariant lines == WeekBlocks(schedule, teamMap, current, weeks[..i])
    {
      var week := weeks[i];
      var block := ShowWeek(byWeek[week], teamMap, week, current);
      WeekBlocksExtend(schedule, teamMap, current, weeks, i);
      lines := lines + [Header(week)] + block;
    }
    assert weeks[..|weeks|] == weeks;
  }

  /** One more week: its heading and block follow the lines of the weeks before it. */
  lemma WeekBlocksExtend(schedule: seq<Game>, teamMap: map<TeamKey, TeamInfo>, current: int, weeks: seq<int>, i: nat)
    requires i < |weeks|
    ensures WeekBlocks(schedule, teamMap, current, weeks[..i + 1])
         == WeekBlocks(schedule, teamMap, current, weeks[..i])
            + [Header(weeks[i])] + WeekBlock(GamesInWeek(schedule, weeks[i]), teamMap, weeks[i], current)
  {
    assert weeks[..i + 1][..i] == weeks[..i];
  }

  /** `get_matchup_info(league_data)` */
  method GetMatchupInfo(league: LeagueData) returns (r: MatchupInfo)
    ensures r == MatchupInfoOf(league)
  {
    if league.schedule.None? {
      return NoSchedule;
    }
    var teamMap := GetTeamNameMap(league);
    if teamMap.Err? {
      return Failed(teamMap.error);
    }
    var currentWeek := CurrentWeek(league);
    var lines := ShowMatchups(league.schedule.value, teamMap.value, currentWeek);
    return Report(currentWeek, lines);
  }
}
