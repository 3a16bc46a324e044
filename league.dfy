/**
 * The parts of the fantasy-football league snapshot (a parsed JSON object) that the
 * modelled code reads. Each `Option` field is a dictionary key that may be absent;
 * a present key holds a value of the type the code expects.
 */
module League {
  import opened Wrappers

  /** `entry['playerPoolEntry']['player']`: the fields the roster organiser reads. */
  datatype PlayerInfo = PlayerInfo(defaultPositionId: Option<int>, fullName: Option<string>)
  datatype PoolEntry = PoolEntry(player: Option<PlayerInfo>)
  /** One element of `team['roster']['entries']`. */
  datatype RosterEntry = RosterEntry(playerPoolEntry: Option<PoolEntry>)

  /** One element of `league_data['teams']`. */
  datatype Team = Team(
    id: Option<int>,
    name: Option<string>,
    location: Option<string>,
    nickname: Option<string>,
    abbrev: Option<string>,
    owners: Option<seq<string>>)

  /** One element of `league_data['members']`. */
  datatype Member = Member(id: Option<string>, firstName: Option<string>, lastName: Option<string>)

  /** `game['home']` or `game['away']`; the points are not modelled. */
  datatype Side = Side(teamId: Option<int>)

  /** One element of `league_data['schedule']`. */
  datatype Game = Game(matchupPeriodId: Option<int>, home: Option<Side>, away: Option<Side>)

  datatype Status = Status(currentMatchupPeriod: Option<int>)

  /** The league snapshot. */
  datatype LeagueData = LeagueData(
    teams: Option<seq<Team>>,
    members: Option<seq<Member>>,
    schedule: Option<seq<Game>>,
    status: Option<Status>)
}
