/** Sorting a team's roster entries into position buckets (`organize_roster_by_position`). */
module Roster {
  import opened Wrappers
  import opened League

  /** The six roster positions; `DST` is the team defence, "D/ST". */
  datatype Position = QB | RB | WR | TE | DST | K
  {
    /** The dictionary key used for the position. */
    function Name(): string
    {
      match this
      case QB => "QB"
      case RB => "RB"
      case WR => "WR"
      case TE => "TE"
      case DST => "D/ST"
      case K => "K"
    }
  }

  /** `POSITION_MAP`: ESPN's numeric position codes. */
  const PositionMap: map<int, Position> := map[1 := QB, 2 := RB, 3 := WR, 4 := TE, 5 := K, 16 := DST]

  /** The key order of the organised dictionary, which is also the bench order. */
  const BucketOrder: seq<Position> := [QB, RB, WR, TE, DST, K]

  /** The organised roster: one list of player names per position. */
  datatype Buckets = Buckets(qb: seq<string>, rb: seq<string>, wr: seq<string>,
                             te: seq<string>, dst: seq<string>, k: seq<string>)
  {
    function Get(p: Position): seq<string>
    {
      match p
      case QB => qb
      case RB => rb
      case WR => wr
      case TE => te
      case DST => dst
      case K => k
    }

    /** The buckets with the list at `p` replaced by `xs`. */
    function Set(p: Position, xs: seq<string>): (r: Buckets)
      ensures r.Get(p) == xs
      ensures forall q :: q != p ==> r.Get(q) == Get(q)
    {
      match p
      case QB => this.(qb := xs)
      case RB => this.(rb := xs)
      case WR => this.(wr := xs)
      case TE => this.(te := xs)
      case DST => this.(dst := xs)
      case K => this.(k := xs)
    }

    /** Every player of every bucket, counted with multiplicity. */
    function AllPlayers(): multiset<string>
    {
      multiset(qb) + multiset(rb) + multiset(wr) + multiset(te) + multiset(dst) + multiset(k)
    }
  }

  const NoBuckets: Buckets := Buckets([], [], [], [], [], [])

  /** `entry.get('playerPoolEntry', {}).get('player', {}).get('defaultPositionId')` */
  function PositionIdOf(e: RosterEntry): Option<int>
  {
    match e.playerPoolEntry
    case None => None
    case Some(pe) =>
      match pe.player
      case None => None
      case Some(pl) => pl.defaultPositionId
  }

  /** `entry.get('playerPoolEntry', {}).get('player', {}).get('fullName', 'Unknown Player')` */
  function PlayerNameOf(e: RosterEntry): string
  {
    match e.playerPoolEntry
    case None => "Unknown Player"
    case Some(pe) =>
      match pe.player
      case None => "Unknown Player"
      case Some(pl) => pl.fullName.GetOr("Unknown Player")
  }

  /** What the organiser does with one entry. */
  datatype Placement = Skip | Place(pos: Position) | Unknown

  /** A missing or zero code is skipped; a code outside `POSITION_MAP` resolves to "Unknown". */
  function Classify(e: RosterEntry): Placement
  {
    match PositionIdOf(e)
    case None => Skip
    case Some(code) =>
      if code == 0 then Skip
      else if code in PositionMap then Place(PositionMap[code])
      else Unknown
  }

  /** The organiser's outcome for the entries in order; "Unknown" has no bucket, so it raises KeyError. */
  function Organized(players: seq<RosterEntry>): Result<Buckets, PyError>
  {
    if players == [] then Ok(NoBuckets)
    else
      match Organized(players[..|players| - 1])
      case Err(e) => Err(e)
      case Ok(b) =>
        var e := players[|players| - 1];
        match Classify(e)
        case Skip => Ok(b)
        case Unknown => Err(KeyError("Unknown"))
        case Place(p) => Ok(b.Set(p, b.Get(p) + [PlayerNameOf(e)]))
  }

  /** `organize_roster_by_position(players)` */
  method OrganizeRosterByPosition(players: seq<RosterEntry>) returns (r: Result<Buckets, PyError>)
    ensures r == Organized(players)
  {
    var organized := NoBuckets;
    for i := 0 to |players|
      invariant Organized(players[..i]) == Ok(organized)
    {
      assert players[..i + 1][..i] == players[..i];
      var player := players[i];
      var posId := PositionIdOf(player);
      if posId.Some? && posId.value != 0 {
        var pos := if posId.value in PositionMap then Some(PositionMap[posId.value]) else None;
        var playerName := PlayerNameOf(player);
        match pos {
          case None =>
            OrganizedStaysFailed(players, i + 1);
            return Err(KeyError("Unknown"));
          case Some(p) =>
            organized := organized.Set(p, organized.Get(p) + [playerName]);
        }
      }
    }
    assert players[..|players|] == players;
    r := Ok(organized);
  }

  /** Once a prefix has failed, the whole roster fails with the same KeyError. */
  lemma {:induction false} OrganizedStaysFailed(players: seq<RosterEntry>, n: nat)
    requires n <= |players| && Organized(players[..n]) == Err(KeyError("Unknown"))
    ensures Organized(players) == Err(KeyError("Unknown"))
    decreases |players| - n
  {
    if n < |players| {
      assert players[..n + 1][..n] == players[..n];
      OrganizedStaysFailed(players, n + 1);
    } else {
      assert players[..n] == players;
    }
  }

  /** The names of the entries that go to bucket `p`, in input order (a filter, head first). */
  function NamesAt(players: seq<RosterEntry>, p: Position): seq<string>
  {
    if players == [] then []
    else (if Classify(players[0]) == Place(p) then [PlayerNameOf(players[0])] else [])
         + NamesAt(players[1..], p)
  }

  lemma {:induction false} NamesAtSnoc(players: seq<RosterEntry>, e: RosterEntry, p: Position)
    ensures NamesAt(players + [e], p)
            == NamesAt(players, p) + (if Classify(e) == Place(p) then [PlayerNameOf(e)] else [])
  {
    var last := if Classify(e) == Place(p) then [PlayerNameOf(e)] else [];
    if players == [] {
      assert [e][1..] == [];
    } else {
      var first := if Classify(players[0]) == Place(p) then [PlayerNameOf(players[0])] else [];
      assert NamesAt(players + [e], p) == first + NamesAt(players[1..] + [e], p) by {
        assert (players + [e])[0] == players[0];
        assert (players + [e])[1..] == players[1..] + [e];
      }
      assert NamesAt(players[1..] + [e], p) == NamesAt(players[1..], p) + last by {
        NamesAtSnoc(players[1..], e, p);
      }
    }
  }

  /** A roster entry whose code is neither missing, nor 0, nor in `POSITION_MAP`. */
  predicate HasUnknownCode(players: seq<RosterEntry>)
  {
    exists i :: 0 <= i < |players| && Classify(players[i]) == Unknown
  }

  /**
   * The organiser succeeds exactly when no entry has an unknown non-zero code, and then
   * every bucket holds the names of the entries of that position in input order:
   * entries with a missing or zero code appear nowhere.
   */
  lemma {:induction false} OrganizedBuckets(players: seq<RosterEntry>)
    ensures Organized(players).Ok? <==> !HasUnknownCode(players)
    ensures Organized(players).Err? ==> Organized(players).error == KeyError("Unknown")
    ensures Organized(players).Ok? ==> forall p :: Organized(players).value.Get(p) == NamesAt(players, p)
  {
    if players != [] {
      var init, e := players[..|players| - 1], players[|players| - 1];
      assert players == init + [e];
      OrganizedBuckets(init);
      forall p {
        NamesAtSnoc(init, e, p);
      }
      if HasUnknownCode(init) {
        var i :| 0 <= i < |init| && Classify(init[i]) == Unknown;
        assert players[i] == init[i];
      }
      if Classify(e) == Unknown {
        assert players[|players| - 1] == e;
      }
    }
  }

  /** The organised roster has exactly the non-skipped players of the input, with multiplicity. */
  lemma OrganizedKeepsPlacedPlayers(players: seq<RosterEntry>, b: Buckets)
    requires Organized(players) == Ok(b)
    ensures b.AllPlayers()
            == multiset(NamesAt(players, QB)) + multiset(NamesAt(players, RB)) + multiset(NamesAt(players, WR))
               + multiset(NamesAt(players, TE)) + multiset(NamesAt(players, DST)) + multiset(NamesAt(players, K))
  {
    OrganizedBuckets(players);
    assert b.qb == b.Get(QB) && b.rb == b.Get(RB) && b.wr == b.Get(WR);
    assert b.te == b.Get(TE) && b.dst == b.Get(DST) && b.k == b.Get(K);
  }
}
