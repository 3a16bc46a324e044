/** The team directory `get_team_name_map`: team id to display name, owner and raw name fields. */
module TeamDirectory {
  import opened Wrappers
  import opened PyText
  import opened League

  /** A team-map key: `team.get('id')`, which is None when the team has no id. */
  type TeamKey = Option<int>

  /** The value stored per team id. */
  datatype TeamInfo = TeamInfo(
    name: string,
    owner: string,
    ownerId: string,
    abbrev: string,
    location: string,
    nickname: string)

  /** `d.get(key, '')` */
  function Raw(field: Option<string>): string
  {
    field.GetOr("")
  }

  /** `str(team_id)` as an f-string prints it; a missing id prints as "None". */
  function IdText(id: TeamKey): (r: string)
    ensures r != [] && IsStripped(r)
  {
    match id
    case None => "None"
    case Some(n) => IntText(n)
  }

  /** The name chain: stripped `name`, else stripped location and nickname, else stripped `abbrev` (default "Team"). */
  function ChainName(t: Team): string
  {
    var name := Strip(Raw(t.name));
    if name != "" then name
    else
      var joined := Strip(Strip(Raw(t.location)) + " " + Strip(Raw(t.nickname)));
      if joined != "" then joined else Strip(t.abbrev.GetOr("Team"))
  }

  /** `team_name or f"Team {team_id}"`: never empty and never padded with whitespace. */
  function DisplayName(t: Team): (r: string)
    ensures r != "" && IsStripped(r)
  {
    var n := ChainName(t);
    if n != "" then n
    else
      var r := "Team " + IdText(t.id);
      assert r[0] == 'T' && r[|r| - 1] == IdText(t.id)[|IdText(t.id)| - 1];
      r
  }

  /** The team has an `owners` key holding an empty list. */
  predicate OwnersEmpty(t: Team)
  {
    t.owners == Some([])
  }

  /** `team.get('owners', ['Unknown'])[0]`: a present but empty list raises IndexError. */
  function OwnerIdOf(t: Team): (r: Result<string, PyError>)
  {
    match t.owners
    case None => Ok("Unknown")
    case Some(os) => if os == [] then Err(IndexError) else Ok(os[0])
  }

  /** `f"{first} {last}".strip()` over the member's stripped first and last names. */
  function MemberName(m: Member): (r: string)
    ensures IsStripped(r)
  {
    Strip(Strip(Raw(m.firstName)) + " " + Strip(Raw(m.lastName)))
  }

  /** The name of the first member whose id is `ownerId`, or "Unknown Owner". */
  function OwnerName(ownerId: string, members: seq<Member>): (r: string)
    ensures IsStripped(r)
  {
    if members == [] then "Unknown Owner"
    else if members[0].id == Some(ownerId) then MemberName(members[0])
    else OwnerName(ownerId, members[1..])
  }

  /** The owner name when the `members` key may be absent. */
  function OwnerNameIn(ownerId: string, members: Option<seq<Member>>): string
  {
    match members
    case None => "Unknown Owner"
    case Some(ms) => OwnerName(ownerId, ms)
  }

  /** The entry `get_team_name_map` stores for one team, or the error it raises. */
  function TeamEntry(t: Team, members: Option<seq<Member>>): (r: Result<TeamInfo, PyError>)
    ensures r.Err? <==> OwnersEmpty(t)
    ensures r.Ok? ==> && r.value.name == DisplayName(t) && r.value.owner == OwnerNameIn(r.value.ownerId, members)
                      && r.value.ownerId == (if t.owners.None? then "Unknown" else t.owners.value[0])
                      && r.value.abbrev == Raw(t.abbrev) && r.value.location == Raw(t.location)
                      && r.value.nickname == Raw(t.nickname)
  {
    match OwnerIdOf(t)
    case Err(e) => Err(e)
    case Ok(ownerId) =>
      Ok(TeamInfo(DisplayName(t), OwnerNameIn(ownerId, members), ownerId,
                  Raw(t.abbrev), Raw(t.location), Raw(t.nickname)))
  }

  /** One step of the loop: store the team's entry under its id, or raise with the first error seen. */
  function AddTeam(acc: Result<map<TeamKey, TeamInfo>, PyError>, t: Team, members: Option<seq<Member>>)
    : (r: Result<map<TeamKey, TeamInfo>, PyError>)
    ensures r.Err? <==> acc.Err? || OwnersEmpty(t)
    ensures r.Err? ==> r.error == if acc.Err? then acc.error else IndexError
    ensures r.Ok? ==> && r.value.Keys == acc.value.Keys + {t.id}
                      && Ok(r.value[t.id]) == TeamEntry(t, members)
                      && forall k :: k in acc.value && k != t.id ==> r.value[k] == acc.value[k]
  {
    match acc
    case Err(e) => Err(e)
    case Ok(m) =>
      match TeamEntry(t, members)
      case Err(e) => Err(e)
      case Ok(info) => Ok(m[t.id := info])
  }

  /** The map built from `teams` in order: a later team with the same id replaces an earlier one. */
  function TeamMap(teams: seq<Team>, members: Option<seq<Member>>): Result<map<TeamKey, TeamInfo>, PyError>
  {
    if teams == [] then Ok(map[])
    else AddTeam(TeamMap(teams[..|teams| - 1], members), teams[|teams| - 1], members)
  }

  /** `get_team_name_map(league_data)`, as a value; without a `teams` key it is the empty map. */
  function TeamNameMap(league: LeagueData): Result<map<TeamKey, TeamInfo>, PyError>
  {
    match league.teams
    case None => Ok(map[])
    case Some(teams) => TeamMap(teams, league.members)
  }

  /** The member scan of `get_team_name_map`: first match wins, then the loop stops. */
  method LookupOwner(ownerId: string, members: Option<seq<Member>>) returns (ownerName: string)
    ensures ownerName == OwnerNameIn(ownerId, members)
  {
    ownerName := "Unknown Owner";
    if members.Some? {
      var ms := members.value;
      var i := 0;
      while i < |ms|
        invariant 0 <= i <= |ms|
        invariant OwnerName(ownerId, ms[i..]) == OwnerName(ownerId, ms)
      {
        if ms[i].id == Some(ownerId) {
          ownerName := MemberName(ms[i]);
          break;
        }
        assert ms[i..][1..] == ms[i + 1..];
        i := i + 1;
      }
    }
  }

  /** The name computation of `get_team_name_map` for one team, step by step. */
  method NameOf(team: Team) returns (teamName: string)
    ensures teamName == DisplayName(team)
  {
    teamName := Strip(Raw(team.name));
    if teamName == "" {
      var location := Strip(Raw(team.location));
      var nickname := Strip(Raw(team.nickname));
      teamName := Strip(location + " " + nickname);
      if teamName == "" {
        teamName := Strip(team.abbrev.GetOr("Team"));
      }
    }
    if teamName == "" {
      teamName := "Team " + IdText(team.id);
    }
  }

  /** `get_team_name_map(league_data)` */
  method GetTeamNameMap(league: LeagueData) returns (r: Result<map<TeamKey, TeamInfo>, PyError>)
    ensures r == TeamNameMap(league)
    ensures league.teams.None? ==> r == Ok(map[])
  {
    var teamMap: map<TeamKey, TeamInfo> := map[];
    if league.teams.Some? {
      var teams := league.teams.value;
      for i := 0 to |teams|
        invariant TeamMap(teams[..i], league.members) == Ok(teamMap)
      {
        var team := teams[i];
        TeamMapExtend(teams, i, league.members, teamMap);
        var teamName := NameOf(team);
        if OwnersEmpty(team) {
          TeamMapStaysFailed(teams, i + 1, league.members);
          return Err(IndexError);
        }
        var ownerId := if team.owners.None? then "Unknown" else team.owners.value[0];
        var ownerName := LookupOwner(ownerId, league.members);
        var info := TeamInfo(teamName, ownerName, ownerId, Raw(team.abbrev), Raw(team.location), Raw(team.nickname));
        assert TeamEntry(team, league.members) == Ok(info);
        teamMap := teamMap[team.id := info];
      }
      assert teams[..|teams|] == teams;
    }
    r := Ok(teamMap);
  }

  /** One more team: the map of the longer prefix is the shorter one's map with that team's entry. */
  lemma TeamMapExtend(teams: seq<Team>, i: nat, members: Option<seq<Member>>, m: map<TeamKey, TeamInfo>)
    requires i < |teams| && TeamMap(teams[..i], members) == Ok(m)
    ensures TeamMap(teams[..i + 1], members) == AddTeam(Ok(m), teams[i], members)
  {
    assert teams[..i + 1][..i] == teams[..i];
  }

  /** Once a prefix of the teams has raised, the whole call raises the same error. */
  lemma {:induction false} TeamMapStaysFailed(teams: seq<Team>, n: nat, members: Option<seq<Member>>)
    requires n <= |teams| && TeamMap(teams[..n], members).Err?
    ensures TeamMap(teams, members) == TeamMap(teams[..n], members)
    decreases |teams| - n
  {
    if n < |teams| {
      assert teams[..n + 1][..n] == teams[..n];
      TeamMapStaysFailed(teams, n + 1, members);
    } else {
      assert teams[..n] == teams;
    }
  }
}
