# ESPN fantasy football report: roster, lineup, matchups and team directory

This project is a Dafny model of the part of the ESPN fantasy football report that holds the
program's decisions. The rest of the report is HTTP and printing. The model covers four parts:

- **Roster organiser** (`organize_roster_by_position`). It sorts a team's roster entries into the six
  buckets QB, RB, WR, TE, D/ST and K, using the numeric position-code table.
  - A missing or zero code is skipped.
  - A non-zero code outside the table resolves to "Unknown". There is no such bucket, so the call
    raises `KeyError('Unknown')`.
- **Lineup suggestion** (`suggest_starters`). It fills the league template greedily: QB 1, RB 2,
  WR 2, TE 1, FLEX 1, D/ST 1, K 1.
  - A plain slot takes heads of its own bucket.
  - FLEX takes the head of the first non-empty bucket among RB, WR and TE.
  - The leftovers go to the bench in bucket order.
- **Matchup listing** (`get_matchup_info`). It groups the schedule by week and visits the weeks in
  ascending order.
  - A game is shown only when both team ids are keys of the team map.
  - The score line appears exactly when the game's week is not after the current week.
- **Team directory** (`get_team_name_map`). It maps each team id to a display name, owner, owner id
  and the raw abbreviation, location and nickname.
  - The display name comes from a fallback chain.
  - The owner is found by a first-match scan of the members.
  - src/espn_fantasy.py:109-144 holds a line-for-line copy of src/utils/espn_api.py:70-113. The one
    model `TeamDirectory` stands for both copies. The table cites the second file.

## How the model is built

The league snapshot is a set of datatypes (`League`). Each optional JSON key is an `Option` field, so
`d.get(k, default)` reads as `GetOr(default)`. Python exceptions are the values of `PyError`
(`KeyError`, `IndexError`), returned in a `Result`.

Every loop of the source is a method with a loop. Each method's `ensures` ties its result to a
specification function that recurses on the last element (`r == Organized(players)`,
`(starters, bench) == SuggestedLineup(organized)`, `lines == MatchupReport(...)`,
`r == TeamNameMap(league)`). The properties the source promises are lemmas about those functions,
stated against independent definitions: per-position filters, multisets, subsequences, suffixes,
first-match and last-writer characterisations.

`str.strip()` and `str(int)` are modelled in `PyText`, with Python's `isspace` character set.

Where the code and its design notes differ, the model follows the code:

- An entry with an unmapped non-zero position code is not skipped. `organized[pos]` raises
  `KeyError`, so the whole organiser fails (`Roster.OrganizedBuckets`).
- The synthesised name "Team {id}" appears only when `abbrev` is present but blank. A team without an
  `abbrev` key is called "Team" (`TeamDirectoryProperties.AbbrevFallback`).
- A team whose `owners` list is present but empty does not fall back to a default. It raises
  `IndexError` and aborts the whole map (`TeamDirectoryProperties.TeamMapFails`), and with it the
  matchup listing (`Matchups.GetMatchupInfo`).

## Model

| member | source | states |
|---|---|---|
| Roster.OrganizeRosterByPosition | src/espn_fantasy.py:195-213 | The organiser loop computes `Organized(players)`. It stops at the first unknown code with `KeyError('Unknown')`. |
| Roster.OrganizedBuckets | src/espn_fantasy.py:197-211 | The organiser succeeds iff no entry has a non-zero code outside `POSITION_MAP`. The only error is `KeyError('Unknown')`. On success each of the six buckets holds, in input order, the names (default "Unknown Player") of exactly the entries of that position. Entries with a missing or 0 code appear nowhere. |
| Roster.OrganizedKeepsPlacedPlayers | src/espn_fantasy.py:206-211 | The organised buckets hold, with multiplicity, exactly the names of the placed entries. |
| Lineup.SuggestStarters | src/espn_fantasy.py:215-249 | The slot loop and the bench loop compute `SuggestedLineup(organized)`. The input buckets are a value and cannot change. |
| Lineup.FillFlexSlot | src/espn_fantasy.py:228-237 | The FLEX step gathers the options in RB, WR, TE order, takes the first, and removes it from its bucket (`TakeFlex`). |
| Lineup.FillPlainSlot | src/espn_fantasy.py:238-242 | The plain-slot loop pops up to `count` heads of its bucket (`TakePlain`). |
| Lineup.CollectBench | src/espn_fantasy.py:244-247 | The bench loop lists every remaining player, bucket by bucket in bucket order (`BenchOver`). |
| Lineup.FlexOptions | src/espn_fantasy.py:230-232 | Every FLEX option pairs a player with a bucket that holds that player. |
| LineupProperties.PlainSlotTakesHeads | src/espn_fantasy.py:238-242 | A plain slot with count n picks min(n, available) players, all labelled with the position. The picks followed by what is left are that bucket's original list, so the picks are its first players in order. No other bucket changes. A shortfall adds no padding. |
| LineupProperties.FlexSlotPriority | src/espn_fantasy.py:228-237 | FLEX picks at most one player, labelled FLEX. It is the head of RB if RB is non-empty, else the head of WR, else the head of TE. Exactly that head leaves its bucket. With all three empty FLEX stays unfilled and nothing changes. |
| LineupProperties.LineupKeepsPlayers | src/espn_fantasy.py:215-249 | The starter names plus the bench names are a permutation (equal multisets) of all names in the input buckets. |
| LineupProperties.StartersInTemplateOrder | src/espn_fantasy.py:224-242 | The starters' labels are a subsequence of the template order QB, RB, RB, WR, WR, TE, FLEX, D/ST, K. There are at most 9 starters. |
| LineupProperties.ExpandRosterTemplate | src/espn_fantasy.py:31-40 | The starter template unfolds, slot by slot, to the nine labels QB, RB, RB, WR, WR, TE, FLEX, D/ST, K. |
| LineupProperties.BenchInBucketOrder | src/espn_fantasy.py:244-247 | The bench lists buckets in the order QB, RB, WR, TE, D/ST, K, and every bench entry carries its bucket's label. |
| LineupProperties.BenchIsSuffixes | src/espn_fantasy.py:237-247 | For every position, the bench players of that position are a suffix of the organised list, because only heads are ever taken. The bench is in bucket order with plain labels. |
| LineupProperties.StandardLineup | src/espn_fantasy.py:224-247 | For any buckets, the suggested lineup equals a closed form: QB head, two RB heads, two WR heads, TE head, FLEX from the rest of RB, then WR, then TE, D/ST head, K head, and then the leftovers. |
| LineupProperties.FullRosterLineup | src/espn_fantasy.py:215-249 | Any roster with exactly one player per starter slot (1 QB, 2 RB, 2 WR, 1 TE, 1 D/ST, 1 K) starts all eight players in template order. FLEX stays empty and the bench is empty. |
| LineupProperties.ExtraBackLineup | src/espn_fantasy.py:215-249 | The same roster with a third running back starts that back at FLEX, between TE and D/ST, and benches nobody. |
| Matchups.GroupByWeek | src/espn_fantasy.py:261-267 | The grouping loop builds a map whose keys are exactly the weeks (default 0) that have a game. Each week maps to its games in schedule order (`GamesInWeek`). |
| Matchups.GamesInWeek | src/espn_fantasy.py:263-267 | A week's list holds only games of the schedule whose `matchupPeriodId` (default 0) is that week. |
| Matchups.SortedWeeks | src/espn_fantasy.py:270 | `sorted(keys)` is strictly ascending and holds exactly the keys. |
| Matchups.WeekBlock | src/espn_fantasy.py:272-286 | Every line printed for a week's games is a matchup of that week between two known teams, named from the map, with a score exactly when week <= current. |
| Matchups.ShowWeek | src/espn_fantasy.py:272-286 | The inner display loop computes `WeekBlock`. |
| Matchups.ShowMatchups | src/espn_fantasy.py:261-286 | The grouping and display loops compute `MatchupReport`: one heading per sorted week, each followed by that week's block. |
| Matchups.GetMatchupInfo | src/espn_fantasy.py:251-286 | Without `schedule` nothing is listed. An exception from the team map propagates. Otherwise the report carries the current week (`status.currentMatchupPeriod`, default 0) and the listing. |
| MatchupProperties.GamesInWeekCounts | src/espn_fantasy.py:262-267 | Grouping loses and duplicates nothing. Week w holds each game of week w exactly as often as the schedule does, and no game of another week. |
| MatchupProperties.GamesInWeekNonEmpty | src/espn_fantasy.py:264-267 | A week has a non-empty list iff some game of the schedule falls in it. |
| MatchupProperties.ReportHeaders | src/espn_fantasy.py:270-271 | The listing's headings ascend strictly and name exactly the weeks that have a game. |
| MatchupProperties.ScoreGate | src/espn_fantasy.py:273-285 | Every matchup line is a game of the schedule, shown under its own week. Its home and away ids are both keys of the team map, and the away and home entries come from the map. It shows a score iff its week is <= the current week. |
| MatchupProperties.ReportInWeekOrder | src/espn_fantasy.py:270-272 | No line of a later week precedes a line of an earlier week. |
| MatchupProperties.ReportShowsEachWeek | src/espn_fantasy.py:270-276 | The matchup lines of week w are exactly that week's games whose two team ids are known, in schedule order. |
| TeamDirectory.GetTeamNameMap | src/utils/espn_api.py:80-113 | The team loop computes `TeamNameMap(league)`. Without a `teams` key the map is empty. |
| TeamDirectory.NameOf | src/utils/espn_api.py:86-106 | The name steps compute `DisplayName`. |
| TeamDirectory.LookupOwner | src/utils/espn_api.py:96-103 | The member scan with `break` computes the first-match owner name, or "Unknown Owner" without `members`. |
| TeamDirectory.DisplayName | src/utils/espn_api.py:86-106 | The stored name is never empty and has no whitespace at either end. |
| TeamDirectory.TeamEntry | src/utils/espn_api.py:83-112 | One team's entry fails iff its `owners` list is present but empty. Otherwise the owner id is `owners[0]` (default "Unknown"). The abbreviation, location and nickname are copied raw (default ""). |
| TeamDirectory.OwnerName | src/utils/espn_api.py:96-103 | The owner name never has whitespace at either end. |
| TeamDirectory.MemberName | src/utils/espn_api.py:100-102 | A member's name (first and last, stripped and joined) has no whitespace at either end. |
| TeamDirectory.IdText | src/utils/espn_api.py:106 | The id text used in "Team {id}" is non-empty and has no whitespace at either end ("None" for a missing id). |
| TeamDirectory.AddTeam | src/utils/espn_api.py:105-112 | Storing a team adds exactly its id as a key and leaves every other key as it was. It fails iff an earlier team failed or this team's `owners` list is empty. |
| TeamDirectoryProperties.TeamMapFails | src/utils/espn_api.py:95 | The map raises iff some team has an empty `owners` list, and then the error is `IndexError`. |
| TeamDirectoryProperties.EmptyOwnersRaise | src/utils/espn_api.py:95 | A team with an empty `owners` list makes the map raise wherever it stands. |
| TeamDirectoryProperties.RaiseNeedsEmptyOwners | src/utils/espn_api.py:95 | A raising map raises `IndexError` and has a team with an empty `owners` list. |
| TeamDirectoryProperties.TeamMapKeys | src/utils/espn_api.py:82-105 | A successful map has exactly the teams' ids as keys. A missing id is the key None. |
| TeamDirectoryProperties.TeamMapLastWins | src/utils/espn_api.py:82-105 | A team's entry is in the map unless a later team has the same id. The last team with an id wins. |
| TeamDirectoryProperties.OwnerNameNoMatch | src/utils/espn_api.py:96-103 | With no member whose id equals the owner id, the owner is "Unknown Owner". |
| TeamDirectoryProperties.OwnerNameFirstMatch | src/utils/espn_api.py:98-103 | The owner is the name of the first member whose id matches, even when that name is empty. Later matches are never read. |
| TeamDirectoryProperties.JoinedName | src/utils/espn_api.py:86-90 | With a blank `name`, the team is called by its stripped location and nickname, joined by one space, or by just the non-empty one. |
| TeamDirectoryProperties.AbbrevFallback | src/utils/espn_api.py:91-106 | With blank name, location and nickname: a missing `abbrev` gives "Team", a non-blank one gives it stripped, and only a present but blank one gives "Team {id}". |
| TeamDirectoryProperties.PaddedPartsJoined | src/utils/espn_api.py:88-90 | Whitespace padding around the location never reaches the joined name. |
| TeamDirectoryProperties.SmithSquadExample | src/utils/espn_api.py:86-90 | No name, location " Smith " and nickname "Squad" give "Smith Squad". |
| PyText.Strip | src/utils/espn_api.py:86-92 | `strip()` returns an infix with whitespace only outside it and none at either end. |
| PyText.StripStripped | src/utils/espn_api.py:86-92 | Stripping a string with no whitespace at either end leaves it unchanged. |
| PyText.StripAllSpace | src/utils/espn_api.py:86-92 | An all-whitespace string strips to "". |
| PyText.StripPadding | src/utils/espn_api.py:86-92 | `strip()` removes exactly the whitespace padding around a stripped, non-empty string. |
| PyText.JoinStripped | src/utils/espn_api.py:90 | `f"{a} {b}".strip()` over stripped parts is "a b", or the non-empty part alone, or "". |
| PyText.IntText | src/utils/espn_api.py:106 | `str(n)` is non-empty with no whitespace at either end. |
| PyText.NatTextRoundTrip | src/utils/espn_api.py:106 | Reading back the decimal digits of `str(n)` gives n. |

## Left out

- HTTP, authentication and configuration: `get_league_info`, `make_api_request` and `get_league_data`, cookies, headers and the `os.getenv` credentials. They are network I/O. The snapshot is a parameter of every modelled operation.
- Printing: the title line, the text of each line, the `:.2f` formatting of `totalPoints`, and `get_team_info`'s records. The model keeps what is decided: which lines appear, in which order, which team entries they name, and whether a score line follows. Scores are floats and are not modelled.
- `get_roster_info` and `main` only orchestrate and print. Each modelled operation is the part they call.
- The season data store and the settings module are not part of this model. `bench_spots` and `total_roster_size` are never enforced by the code.
- JSON `null` values and values of unexpected types are not modelled. An `Option` field means key present or absent, and a present value has the type the code expects. Team ids are integers or absent.
- The copy `available = {...}` in `suggest_starters` has no counterpart. Buckets are values, so the caller's roster cannot be changed by construction, and the in-place `pop(0)`/`remove` become new bucket values.
- Dictionary identity, aliasing and the in-place `append` on `matchups_by_week` are modelled as map updates, not as shared mutable lists.
