/** What the matchup listing promises: one heading per week in ascending order, every known game once, scores gated by week. */
module MatchupProperties {
  import opened Wrappers
  import opened League
  import opened TeamDirectory
  import opened Matchups

  /** The weeks of the heading lines, in order. */
  function Headers(lines: seq<Line>): seq<int>
  {
    if lines == [] then []
    else
      var l := lines[|lines| - 1];
      Headers(lines[..|lines| - 1]) + if l.Header? then [l.week] else []
  }

  /** The games of the matchup lines of week `w`, in order. */
  function Shown(lines: seq<Line>, w: int): seq<Game>
  {
    if lines == [] then []
    else
      var l := lines[|lines| - 1];
      Shown(lines[..|lines| - 1], w) + if l.Matchup? && l.week == w then [l.game] else []
  }

  /** The games whose two teams are both in the team map, in order. */
  function Visible(games: seq<Game>, teamMap: map<TeamKey, TeamInfo>): seq<Game>
  {
    if games == [] then []
    else
      var g := games[|games| - 1];
      Visible(games[..|games| - 1], teamMap) + if Known(g, teamMap) then [g] else []
  }

  /** Strictly ascending, hence without repeats. */
  predicate Ascending(ws: seq<int>)
  {
    forall i, j :: 0 <= i < j < |ws| ==> ws[i] < ws[j]
  }

  /** Dropping the last week of an ascending list leaves an ascending list of earlier weeks. */
  lemma AscendingInit(weeks: seq<int>, init: seq<int>)
    requires weeks != [] && Ascending(weeks) && init == weeks[..|weeks| - 1]
    ensures Ascending(init)
    ensures forall x :: x in init ==> x < weeks[|weeks| - 1]
  {
    forall x | x in init ensures x < weeks[|weeks| - 1] {
      var j :| 0 <= j < |init| && init[j] == x;
      assert weeks[j] == x;
    }
  }

  // ---- grouping -------------------------------------------------------------------------

  /** Grouping by week loses and duplicates nothing: week `w` holds every game of that week as often as the schedule does. */
  lemma {:induction false} GamesInWeekCounts(schedule: seq<Game>, w: int, g: Game)
    ensures multiset(GamesInWeek(schedule, w))[g] == if WeekOf(g) == w then multiset(schedule)[g] else 0
  {
    if schedule != [] {
      var init := schedule[..|schedule| - 1];
      GamesInWeekCounts(init, w, g);
      assert schedule == init + [schedule[|schedule| - 1]];
    }
  }

  /** A week has a list in the grouping exactly when some game of the schedule falls in it. */
  lemma GamesInWeekNonEmpty(schedule: seq<Game>, w: int)
    ensures GamesInWeek(schedule, w) != [] <==> w in WeeksOf(schedule)
  {
    if w in WeeksOf(schedule) {
      var g :| g in schedule && WeekOf(g) == w;
      GamesInWeekCounts(schedule, w, g);
    } else {
      GamesInWeekEmpty(schedule, w);
    }
  }

  // ---- headings -------------------------------------------------------------------------

  lemma {:induction false} HeadersConcat(a: seq<Line>, b: seq<Line>)
    ensures Headers(a + b) == Headers(a) + Headers(b)
  {
    if b != [] {
      HeadersConcat(a, b[..|b| - 1]);
      assert (a + b)[..|a + b| - 1] == a + b[..|b| - 1];
      assert (a + b)[|a + b| - 1] == b[|b| - 1];
    } else {
      assert a + b == a;
    }
  }

  lemma {:induction false} HeadersOfBlock(games: seq<Game>, teamMap: map<TeamKey, TeamInfo>, week: int, current: int)
    ensures Headers(WeekBlock(games, teamMap, week, current)) == []
  {
    if games != [] {
      var init := games[..|games| - 1];
      var g := games[|games| - 1];
      HeadersOfBlock(init, teamMap, week, current);
      var tail := if Known(g, teamMap) then [Matchup(week, g, teamMap[AwayId(g)], teamMap[HomeId(g)], week <= current)] else [];
      HeadersConcat(WeekBlock(init, teamMap, week, current), tail);
      assert tail == [] || tail[..0] == [];
    }
  }

  lemma {:induction false} HeadersOfBlocks(schedule: seq<Game>, teamMap: map<TeamKey, TeamInfo>, current: int, weeks: seq<int>)
    ensures Headers(WeekBlocks(schedule, teamMap, current, weeks)) == weeks
  {
    if weeks != [] {
      var init := weeks[..|weeks| - 1];
      var w := weeks[|weeks| - 1];
      var before := WeekBlocks(schedule, teamMap, current, init);
      var block := WeekBlock(GamesInWeek(schedule, w), teamMap, w, current);
      HeadersOfBlocks(schedule, teamMap, current, init);
      HeadersOfBlock(GamesInWeek(schedule, w), teamMap, w, current);
      HeadersConcat(before + [Header(w)], block);
      HeadersConcat(before, [Header(w)]);
      assert [Header(w)][..0] == [];
      assert weeks == init + [w];
    }
  }

  /** The listing has one heading per week that has a game, and the headings ascend. */
  lemma ReportHeaders(schedule: seq<Game>, teamMap: map<TeamKey, TeamInfo>, current: int)
    ensures var hs := Headers(MatchupReport(schedule, teamMap, current));
            Ascending(hs) && forall w :: w in hs <==> w in WeeksOf(schedule)
  {
    HeadersOfBlocks(schedule, teamMap, current, SortedWeeks(WeeksOf(schedule)));
  }

  // ---- score gate -----------------------------------------------------------------------

  /** Each matchup line is a game of the schedule, printed under its own week and gated as `Gated` says. */
  predicate AllGated(lines: seq<Line>, schedule: seq<Game>, teamMap: map<TeamKey, TeamInfo>, current: int)
  {
    forall i :: 0 <= i < |lines| && lines[i].Matchup? ==>
      lines[i].game in schedule && WeekOf(lines[i].game) == lines[i].week && Gated(lines[i], teamMap, current)
  }

  lemma AllGatedJoin(before: seq<Line>, w: int, block: seq<Line>, schedule: seq<Game>, teamMap: map<TeamKey, TeamInfo>, current: int)
    requires AllGated(before, schedule, teamMap, current) && AllGated(block, schedule, teamMap, current)
    ensures AllGated(before + [Header(w)] + block, schedule, teamMap, current)
  {
    var lines := before + [Header(w)] + block;
    forall i | 0 <= i < |lines| && lines[i].Matchup?
      ensures lines[i].game in schedule && WeekOf(lines[i].game) == lines[i].week && Gated(lines[i], teamMap, current)
    {
      if i < |before| {
        assert lines[i] == before[i];
      } else {
        assert lines[i] == block[i - |before| - 1];
      }
    }
  }

  lemma BlockGated(schedule: seq<Game>, teamMap: map<TeamKey, TeamInfo>, current: int, w: int)
    ensures AllGated(WeekBlock(GamesInWeek(schedule, w), teamMap, w, current), schedule, teamMap, current)
  {
    var games := GamesInWeek(schedule, w);
    var block := WeekBlock(games, teamMap, w, current);
    forall i | 0 <= i < |block| && block[i].Matchup?
      ensures block[i].game in schedule && WeekOf(block[i].game) == block[i].week
    {
      assert block[i].game in games;
    }
  }

  lemma {:induction false} BlocksGated(schedule: seq<Game>, teamMap: map<TeamKey, TeamInfo>, current: int, weeks: seq<int>)
    ensures AllGated(WeekBlocks(schedule, teamMap, current, weeks), schedule, teamMap, current)
  {
    if weeks != [] {
      var w := weeks[|weeks| - 1];
      BlocksGated(schedule, teamMap, current, weeks[..|weeks| - 1]);
      BlockGated(schedule, teamMap, current, w);
      AllGatedJoin(WeekBlocks(schedule, teamMap, current, weeks[..|weeks| - 1]), w,
                   WeekBlock(GamesInWeek(schedule, w), teamMap, w, current), schedule, teamMap, current);
    }
  }

  /**
   * Every matchup line is a game of the schedule whose home and away teams are both in the
   * team map; it names them from the map, and it carries a score exactly when its week is not
   * after the current week.
   */
  lemma ScoreGate(schedule: seq<Game>, teamMap: map<TeamKey, TeamInfo>, current: int)
    ensures var lines := MatchupReport(schedule, teamMap, current);
            forall i :: 0 <= i < |lines| && lines[i].Matchup? ==>
              && lines[i].game in schedule && WeekOf(lines[i].game) == lines[i].week
              && HomeId(lines[i].game) in teamMap && AwayId(lines[i].game) in teamMap
              && lines[i].away == teamMap[AwayId(lines[i].game)] && lines[i].home == teamMap[HomeId(lines[i].game)]
              && (lines[i].withScore <==> lines[i].week <= current)
  {
    BlocksGated(schedule, teamMap, current, SortedWeeks(WeeksOf(schedule)));
  }

  // ---- week order -----------------------------------------------------------------------

  /** No line of a later week comes before a line of an earlier week. */
  predicate InWeekOrder(lines: seq<Line>)
  {
    forall i, j :: 0 <= i < j < |lines| ==> lines[i].week <= lines[j].week
  }

  lemma InWeekOrderJoin(before: seq<Line>, w: int, block: seq<Line>)
    requires InWeekOrder(before) && forall i :: 0 <= i < |before| ==> before[i].week < w
    requires forall i :: 0 <= i < |block| ==> block[i].week == w
    ensures InWeekOrder(before + [Header(w)] + block)
  {
    var lines := before + [Header(w)] + block;
    forall i | 0 <= i < |lines| ensures (i < |before| ==> lines[i].week < w) && (i >= |before| ==> lines[i].week == w) {
      if i < |before| {
        assert lines[i] == before[i];
      } else if i > |before| {
        assert lines[i] == block[i - |before| - 1];
      }
    }
    forall i, j | 0 <= i < j < |lines| ensures lines[i].week <= lines[j].week {
      if j < |before| {
        assert lines[i] == before[i] && lines[j] == before[j];
      }
    }
  }

  lemma {:induction false} BlocksInWeekOrder(schedule: seq<Game>, teamMap: map<TeamKey, TeamInfo>, current: int, weeks: seq<int>)
    requires Ascending(weeks)
    ensures var lines := WeekBlocks(schedule, teamMap, current, weeks);
            InWeekOrder(lines) && forall i :: 0 <= i < |lines| ==> lines[i].week in weeks
  {
    if weeks != [] {
      var init := weeks[..|weeks| - 1];
      var w := weeks[|weeks| - 1];
      var before := WeekBlocks(schedule, teamMap, current, init);
      var block := WeekBlock(GamesInWeek(schedule, w), teamMap, w, current);
      AscendingInit(weeks, init);
      BlocksInWeekOrder(schedule, teamMap, current, init);
      InWeekOrderJoin(before, w, block);
      var lines := before + [Header(w)] + block;
      assert weeks == init + [w];
      forall i | 0 <= i < |lines| ensures lines[i].week in weeks {
        if i < |before| {
          assert lines[i] == before[i];
        } else if i > |before| {
          assert lines[i] == block[i - |before| - 1];
        }
      }
    }
  }

  /** Lines come in week order: no line of a later week is printed before one of an earlier week. */
  lemma ReportInWeekOrder(schedule: seq<Game>, teamMap: map<TeamKey, TeamInfo>, current: int)
    ensures InWeekOrder(MatchupReport(schedule, teamMap, current))
  {
    BlocksInWeekOrder(schedule, teamMap, current, SortedWeeks(WeeksOf(schedule)));
  }

  // ---- what each week shows -------------------------------------------------------------

  lemma {:induction false} ShownConcat(a: seq<Line>, b: seq<Line>, w: int)
    ensures Shown(a + b, w) == Shown(a, w) + Shown(b, w)
  {
    if b != [] {
      ShownConcat(a, b[..|b| - 1], w);
      assert (a + b)[..|a + b| - 1] == a + b[..|b| - 1];
      assert (a + b)[|a + b| - 1] == b[|b| - 1];
    } else {
      assert a + b == a;
    }
  }

  lemma {:induction false} ShownOfBlock(games: seq<Game>, teamMap: map<TeamKey, TeamInfo>, week: int, current: int, w: int)
    ensures Shown(WeekBlock(games, teamMap, week, current), w) == if w == week then Visible(games, teamMap) else []
  {
    if games != [] {
      var init := games[..|games| - 1];
      var g := games[|games| - 1];
      ShownOfBlock(init, teamMap, week, current, w);
      var tail := if Known(g, teamMap) then [Matchup(week, g, teamMap[AwayId(g)], teamMap[HomeId(g)], week <= current)] else [];
      ShownConcat(WeekBlock(init, teamMap, week, current), tail, w);
      assert tail == [] || tail[..0] == [];
    }
  }

  lemma {:induction false} ShownOfBlocks(schedule: seq<Game>, teamMap: map<TeamKey, TeamInfo>, current: int, weeks: seq<int>, w: int)
    requires Ascending(weeks)
    ensures Shown(WeekBlocks(schedule, teamMap, current, weeks), w)
         == if w in weeks then Visible(GamesInWeek(schedule, w), teamMap) else []
  {
    if weeks != [] {
      var init := weeks[..|weeks| - 1];
      var last := weeks[|weeks| - 1];
      var visible := Visible(GamesInWeek(schedule, w), teamMap);
      AscendingInit(weeks, init);
      assert Shown(WeekBlocks(schedule, teamMap, current, init), w) == if w in init then visible else [] by {
        ShownOfBlocks(schedule, teamMap, current, init, w);
      }
      assert Shown(WeekBlocks(schedule, teamMap, current, weeks), w)
          == Shown(WeekBlocks(schedule, teamMap, current, init), w) + if w == last then visible else [] by {
        ShownOfLastWeek(schedule, teamMap, current, weeks, w);
      }
      assert w in weeks <==> w in init || w == last by {
        assert weeks == init + [last];
      }
    }
  }

  /** The games of week `w` shown by a list of weeks: those shown before the last week, then the last week's own. */
  lemma ShownOfLastWeek(schedule: seq<Game>, teamMap: map<TeamKey, TeamInfo>, current: int, weeks: seq<int>, w: int)
    requires weeks != []
    ensures Shown(WeekBlocks(schedule, teamMap, current, weeks), w)
         == Shown(WeekBlocks(schedule, teamMap, current, weeks[..|weeks| - 1]), w)
            + if w == weeks[|weeks| - 1] then Visible(GamesInWeek(schedule, w), teamMap) else []
  {
    var last := weeks[|weeks| - 1];
    var before := WeekBlocks(schedule, teamMap, current, weeks[..|weeks| - 1]);
    var block := WeekBlock(GamesInWeek(schedule, last), teamMap, last, current);
    ShownOfBlock(GamesInWeek(schedule, last), teamMap, last, current, w);
    ShownOfHeading(before, last, block, w);
  }

  /** A heading between two runs of lines shows no game. */
  lemma ShownOfHeading(before: seq<Line>, week: int, block: seq<Line>, w: int)
    ensures Shown(before + [Header(week)] + block, w) == Shown(before, w) + Shown(block, w)
  {
    ShownConcat(before + [Header(week)], block, w);
    assert (before + [Header(week)])[..|before|] == before;
  }

  /** Week `w` of the listing shows exactly the games of week `w` between two known teams, in schedule order. */
  lemma ReportShowsEachWeek(schedule: seq<Game>, teamMap: map<TeamKey, TeamInfo>, current: int, w: int)
    ensures Shown(MatchupReport(schedule, teamMap, current), w) == Visible(GamesInWeek(schedule, w), teamMap)
  {
    ShownOfBlocks(schedule, teamMap, current, SortedWeeks(WeeksOf(schedule)), w);
    if w !in WeeksOf(schedule) {
      GamesInWeekEmpty(schedule, w);
    }
  }
}
