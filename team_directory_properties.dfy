/** What the team directory promises: which ids appear, who wins a clash, when it raises, and the name chain. */
module TeamDirectoryProperties {
  import opened Wrappers
  import opened PyText
  import opened League
  import opened TeamDirectory

  /** A team with an empty `owners` list makes the whole map raise, wherever it stands. */
  lemma {:induction false} EmptyOwnersRaise(teams: seq<Team>, members: Option<seq<Member>>, i: int)
    requires 0 <= i < |teams| && OwnersEmpty(teams[i])
    ensures TeamMap(teams, members).Err?
  {
    if i < |teams| - 1 {
      assert teams[..|teams| - 1][i] == teams[i];
      EmptyOwnersRaise(teams[..|teams| - 1], members, i);
    }
  }

  /** The only error the map raises is IndexError, and only because of a team with an empty `owners` list. */
  lemma {:induction false} RaiseNeedsEmptyOwners(teams: seq<Team>, members: Option<seq<Member>>)
    requires TeamMap(teams, members).Err?
    ensures TeamMap(teams, members).error == IndexError
    ensures exists i :: 0 <= i < |teams| && OwnersEmpty(teams[i])
  {
    if TeamMap(teams[..|teams| - 1], members).Err? {
      RaiseNeedsEmptyOwners(teams[..|teams| - 1], members);
      var i :| 0 <= i < |teams| - 1 && OwnersEmpty(teams[..|teams| - 1][i]);
      assert teams[..|teams| - 1][i] == teams[i];
    }
  }

  /** The map raises exactly when some team has an empty `owners` list, and then the error is IndexError. */
  lemma TeamMapFails(teams: seq<Team>, members: Option<seq<Member>>)
    ensures TeamMap(teams, members).Err?
        <==> exists i :: 0 <= i < |teams| && OwnersEmpty(teams[i])
    ensures TeamMap(teams, members).Err? ==> TeamMap(teams, members).error == IndexError
  {
    if TeamMap(teams, members).Err? {
      RaiseNeedsEmptyOwners(teams, members);
    }
    if exists i :: 0 <= i < |teams| && OwnersEmpty(teams[i]) {
      var i :| 0 <= i < |teams| && OwnersEmpty(teams[i]);
      EmptyOwnersRaise(teams, members, i);
    }
  }

  /** The ids of a sequence of teams. */
  function Ids(teams: seq<Team>): (r: set<TeamKey>)
    ensures forall i :: 0 <= i < |teams| ==> teams[i].id in r
    ensures forall k :: k in r ==> exists i :: 0 <= i < |teams| && teams[i].id == k
  {
    if teams == [] then {} else Ids(teams[..|teams| - 1]) + {teams[|teams| - 1].id}
  }

  /** A successful map has exactly the teams' ids as keys (a missing id is the key None). */
  lemma {:induction false} TeamMapKeys(teams: seq<Team>, members: Option<seq<Member>>, m: map<TeamKey, TeamInfo>)
    requires TeamMap(teams, members) == Ok(m)
    ensures m.Keys == Ids(teams)
  {
    if teams != [] {
      var init := teams[..|teams| - 1];
      var m0 :| TeamMap(init, members) == Ok(m0);
      TeamMapKeys(init, members, m0);
    }
  }

  /** The last team's entry sits under its id; every other key keeps the value the shorter prefix gave it. */
  lemma TeamMapLastStep(teams: seq<Team>, members: Option<seq<Member>>, m: map<TeamKey, TeamInfo>)
    requires teams != [] && TeamMap(teams, members) == Ok(m)
    ensures TeamMap(teams[..|teams| - 1], members).Ok?
    ensures teams[|teams| - 1].id in m && TeamEntry(teams[|teams| - 1], members) == Ok(m[teams[|teams| - 1].id])
    ensures var m0 := TeamMap(teams[..|teams| - 1], members).value;
            forall k :: k in m0 && k != teams[|teams| - 1].id ==> k in m && m[k] == m0[k]
  {
  }

  /** Each team's entry survives unless a later team has the same id: the last team with an id wins. */
  lemma {:induction false} TeamMapLastWins(teams: seq<Team>, members: Option<seq<Member>>, m: map<TeamKey, TeamInfo>, i: int)
    requires TeamMap(teams, members) == Ok(m)
    requires 0 <= i < |teams|
    requires forall j :: i < j < |teams| ==> teams[j].id != teams[i].id
    ensures teams[i].id in m && TeamEntry(teams[i], members) == Ok(m[teams[i].id])
  {
    TeamMapLastStep(teams, members, m);
    if i < |teams| - 1 {
      var init := teams[..|teams| - 1];
      var id := teams[i].id;
      assert init[i] == teams[i];
      forall j | i < j < |init| ensures init[j].id != id {
        assert init[j] == teams[j];
      }
      TeamMapLastWins(init, members, TeamMap(init, members).value, i);
      assert id != teams[|teams| - 1].id;
    }
  }

  /** With no member whose id matches, the owner is "Unknown Owner". */
  lemma {:induction false} OwnerNameNoMatch(ownerId: string, members: seq<Member>)
    requires forall i :: 0 <= i < |members| ==> members[i].id != Some(ownerId)
    ensures OwnerName(ownerId, members) == "Unknown Owner"
  {
    if members != [] {
      assert members[0].id != Some(ownerId);
      OwnerNameNoMatch(ownerId, members[1..]);
    }
  }

  /** The owner is the name of the first member whose id matches; later matches are never read. */
  lemma {:induction false} OwnerNameFirstMatch(ownerId: string, members: seq<Member>, i: int)
    requires 0 <= i < |members| && members[i].id == Some(ownerId)
    requires forall j :: 0 <= j < i ==> members[j].id != Some(ownerId)
    ensures OwnerName(ownerId, members) == MemberName(members[i])
  {
    if i > 0 {
      assert members[0].id != Some(ownerId);
      assert members[1..][i - 1] == members[i];
      OwnerNameFirstMatch(ownerId, members[1..], i - 1);
    }
  }

  /** With a blank `name`, the team is called by its stripped location and nickname, joined by one space. */
  lemma JoinedName(t: Team)
    requires Strip(Raw(t.name)) == ""
    requires Strip(Raw(t.location)) != "" || Strip(Raw(t.nickname)) != ""
    ensures var loc, nick := Strip(Raw(t.location)), Strip(Raw(t.nickname));
            DisplayName(t) == if loc == "" then nick else if nick == "" then loc else loc + " " + nick
  {
    JoinStripped(Strip(Raw(t.location)), Strip(Raw(t.nickname)));
  }

  /**
   * With blank name, location and nickname: a missing `abbrev` gives "Team", a non-blank one
   * gives the abbreviation, and only a present but blank one gives "Team <id>".
   */
  lemma AbbrevFallback(t: Team)
    requires Strip(Raw(t.name)) == ""
    requires Strip(Raw(t.location)) == "" && Strip(Raw(t.nickname)) == ""
    ensures t.abbrev.None? ==> DisplayName(t) == "Team"
    ensures t.abbrev.Some? && Strip(t.abbrev.value) != "" ==> DisplayName(t) == Strip(t.abbrev.value)
    ensures t.abbrev.Some? && Strip(t.abbrev.value) == "" ==> DisplayName(t) == "Team " + IdText(t.id)
  {
    JoinStripped("", "");
    assert IsStripped("Team");
    StripStripped("Team");
  }

  /** Padding around location and nickname never reaches the joined name. */
  lemma PaddedPartsJoined(t: Team, left: string, loc: string, right: string, nick: string)
    requires Strip(Raw(t.name)) == ""
    requires t.location == Some(left + loc + right) && t.nickname == Some(nick)
    requires forall i :: 0 <= i < |left| ==> IsSpace(left[i])
    requires forall i :: 0 <= i < |right| ==> IsSpace(right[i])
    requires loc != [] && IsStripped(loc) && nick != [] && IsStripped(nick)
    ensures DisplayName(t) == loc + " " + nick
  {
    StripPadding(left, loc, right);
    StripStripped(nick);
    JoinedName(t);
  }

  /** The string facts the example below rests on. */
  lemma SmithSquadText()
    ensures " Smith " == " " + "Smith" + " " && "Smith" + " " + "Squad" == "Smith Squad"
    ensures IsStripped("Smith") && IsStripped("Squad") && Strip("") == ""
  {
    StripAllSpace("");
  }

  /** A team with no name, location " Smith " and nickname "Squad" is called "Smith Squad". */
  lemma SmithSquadExample(t: Team)
    requires t.name == None && t.location == Some(" Smith ") && t.nickname == Some("Squad")
    ensures DisplayName(t) == "Smith Squad"
  {
    SmithSquadText();
    PaddedPartsJoined(t, " ", "Smith", " ", "Squad");
  }
}
