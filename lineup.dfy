/** The greedy starter/bench assignment (`suggest_starters`) over the league's roster template. */
module Lineup {
  import opened Roster

  /** A lineup label: a position's own key, or "FLEX". */
  datatype Label = Plain(pos: Position) | Flex
  {
    function Text(): string
    {
      match this
      case Plain(p) => p.Name()
      case Flex => "FLEX"
    }
  }

  /** A `(label, player name)` pair of the starters or the bench. */
  datatype Pick = Pick(position: Label, player: string)

  /** One entry of `ROSTER_SETTINGS["starters"]`. */
  datatype Slot = Slot(position: Label, count: nat)

  /** `ROSTER_SETTINGS["starters"]` */
  const RosterTemplate: seq<Slot> :=
    [Slot(Plain(QB), 1), Slot(Plain(RB), 2), Slot(Plain(WR), 2), Slot(Plain(TE), 1),
     Slot(Flex, 1), Slot(Plain(DST), 1), Slot(Plain(K), 1)]

  /** The positions a FLEX slot may draw from, in priority order. */
  const FlexPriority: seq<Position> := [RB, WR, TE]

  function Min(a: nat, b: nat): nat
  {
    if a < b then a else b
  }

  /** Each name labelled with position `p`. */
  function Labelled(p: Position, names: seq<string>): (r: seq<Pick>)
    ensures |r| == |names|
  {
    seq(|names|, i requires 0 <= i < |names| => Pick(Plain(p), names[i]))
  }

  function Names(picks: seq<Pick>): (r: seq<string>)
    ensures |r| == |picks|
  {
    seq(|picks|, i requires 0 <= i < |picks| => picks[i].player)
  }

  function Labels(picks: seq<Pick>): (r: seq<Label>)
    ensures |r| == |picks|
  {
    seq(|picks|, i requires 0 <= i < |picks| => picks[i].position)
  }

  /** The players labelled `l`, in order. */
  function PlayersAt(picks: seq<Pick>, l: Label): seq<string>
  {
    if picks == [] then []
    else PlayersAt(picks[..|picks| - 1], l)
         + (if picks[|picks| - 1].position == l then [picks[|picks| - 1].player] else [])
  }

  /** `[(x, p) for x in xs]` */
  function Tagged(xs: seq<string>, p: Position): (r: seq<(string, Position)>)
    ensures |r| == |xs|
  {
    seq(|xs|, i requires 0 <= i < |xs| => (xs[i], p))
  }

  /** `list.remove(x)`: drops the first element equal to `x`. */
  function RemoveFirst(xs: seq<string>, x: string): seq<string>
    requires x in xs
  {
    if xs[0] == x then xs[1..] else [xs[0]] + RemoveFirst(xs[1..], x)
  }

  /** A plain slot: the first `count` players of `p`, or all of them when there are fewer. */
  function TakePlain(avail: Buckets, p: Position, count: nat): (seq<Pick>, Buckets)
  {
    var xs := avail.Get(p);
    var n := Min(count, |xs|);
    (Labelled(p, xs[..n]), avail.Set(p, xs[n..]))
  }

  /** The FLEX candidate list: the remaining players of each position of `ps`, in that order. */
  function FlexOptions(avail: Buckets, ps: seq<Position>): (r: seq<(string, Position)>)
    ensures forall i :: 0 <= i < |r| ==> r[i].0 in avail.Get(r[i].1)
  {
    if ps == [] then []
    else
      var prev := FlexOptions(avail, ps[..|ps| - 1]);
      var last := Tagged(avail.Get(ps[|ps| - 1]), ps[|ps| - 1]);
      assert forall i :: |prev| <= i < |prev| + |last| ==> (prev + last)[i] == last[i - |prev|];
      prev + last
  }

  /** The FLEX slot: the first candidate, removed from its own position's list; nothing if there is none. */
  function TakeFlex(avail: Buckets): (seq<Pick>, Buckets)
  {
    var options := FlexOptions(avail, FlexPriority);
    if options == [] then ([], avail)
    else
      var (player, p) := options[0];
      ([Pick(Flex, player)], avail.Set(p, RemoveFirst(avail.Get(p), player)))
  }

  function FillSlot(avail: Buckets, slot: Slot): (seq<Pick>, Buckets)
  {
    match slot.position
    case Flex => TakeFlex(avail)
    case Plain(p) => TakePlain(avail, p, slot.count)
  }

  /** The starters chosen by the slots in order, and the players still available afterwards. */
  function FillSlots(avail: Buckets, slots: seq<Slot>): (seq<Pick>, Buckets)
  {
    if slots == [] then ([], avail)
    else
      var (starters, rest) := FillSlots(avail, slots[..|slots| - 1]);
      var (picks, rest') := FillSlot(rest, slots[|slots| - 1]);
      (starters + picks, rest')
  }

  /** The bench: the remaining players of the positions `ps`, position by position. */
  function BenchOver(avail: Buckets, ps: seq<Position>): seq<Pick>
  {
    if ps == [] then []
    else BenchOver(avail, ps[..|ps| - 1]) + Labelled(ps[|ps| - 1], avail.Get(ps[|ps| - 1]))
  }

  /** The `(starters, bench)` pair `suggest_starters` returns for an organised roster. */
  function SuggestedLineup(organized: Buckets): (seq<Pick>, seq<Pick>)
  {
    var (starters, rest) := FillSlots(organized, RosterTemplate);
    (starters, BenchOver(rest, BucketOrder))
  }

  /** `suggest_starters(organized_roster)`: works on its own copy, so the argument is left as it was. */
  method SuggestStarters(organized: Buckets) returns (starters: seq<Pick>, bench: seq<Pick>)
    ensures (starters, bench) == SuggestedLineup(organized)
  {
    starters := [];
    var available := organized;
    for i := 0 to |RosterTemplate|
      invariant (starters, available) == FillSlots(organized, RosterTemplate[..i])
    {
      assert RosterTemplate[..i + 1][..i] == RosterTemplate[..i];
      var slot := RosterTemplate[i];
      var picks;
      match slot.position {
        case Flex =>
          picks, available := FillFlexSlot(available);
        case Plain(pos) =>
          picks, available := FillPlainSlot(available, pos, slot.count);
      }
      starters := starters + picks;
    }
    assert RosterTemplate[..|RosterTemplate|] == RosterTemplate;
    bench := CollectBench(available);
  }

  /** The FLEX branch of `suggest_starters`: builds the candidate list, then takes its head. */
  method FillFlexSlot(available: Buckets) returns (picks: seq<Pick>, rest: Buckets)
    ensures (picks, rest) == TakeFlex(available)
  {
    var flexOptions: seq<(string, Position)> := [];
    for f := 0 to |FlexPriority|
      invariant flexOptions == FlexOptions(available, FlexPriority[..f])
    {
      assert FlexPriority[..f + 1][..f] == FlexPriority[..f];
      var flexPos := FlexPriority[f];
      flexOptions := flexOptions + Tagged(available.Get(flexPos), flexPos);
    }
    assert FlexPriority[..|FlexPriority|] == FlexPriority;
    picks, rest := [], available;
    if flexOptions != [] {
      var (player, posType) := flexOptions[0];
      picks := [Pick(Flex, player)];
      rest := available.Set(posType, RemoveFirst(available.Get(posType), player));
    }
  }

  /** A plain-slot branch of `suggest_starters`: `count` times, pops the head of the position's list if any. */
  method FillPlainSlot(available: Buckets, pos: Position, count: nat) returns (picks: seq<Pick>, rest: Buckets)
    ensures (picks, rest) == TakePlain(available, pos, count)
  {
    var xs := available.Get(pos);
    picks, rest := [], available;
    for j := 0 to count
      invariant picks == Labelled(pos, xs[..Min(j, |xs|)])
      invariant rest == available.Set(pos, xs[Min(j, |xs|)..])
    {
      if rest.Get(pos) != [] {
        var player := rest.Get(pos)[0];
        LabelledSnoc(pos, xs, Min(j, |xs|));
        SetTwice(available, pos, xs[Min(j, |xs|)..], rest.Get(pos)[1..]);
        rest := rest.Set(pos, rest.Get(pos)[1..]);
        picks := picks + [Pick(Plain(pos), player)];
      }
    }
  }

  /** The bench loop of `suggest_starters`: every remaining player, bucket by bucket. */
  method CollectBench(available: Buckets) returns (bench: seq<Pick>)
    ensures bench == BenchOver(available, BucketOrder)
  {
    bench := [];
    for i := 0 to |BucketOrder|
      invariant bench == BenchOver(available, BucketOrder[..i])
    {
      assert BucketOrder[..i + 1][..i] == BucketOrder[..i];
      var pos := BucketOrder[i];
      var players := available.Get(pos);
      for j := 0 to |players|
        invariant bench == BenchOver(available, BucketOrder[..i]) + Labelled(pos, players[..j])
      {
        LabelledSnoc(pos, players, j);
        bench := bench + [Pick(Plain(pos), players[j])];
      }
      assert players[..|players|] == players;
    }
    assert BucketOrder[..|BucketOrder|] == BucketOrder;
  }

  lemma LabelledSnoc(p: Position, xs: seq<string>, n: nat)
    requires n < |xs|
    ensures Labelled(p, xs[..n + 1]) == Labelled(p, xs[..n]) + [Pick(Plain(p), xs[n])]
  {
  }

  lemma SetTwice(b: Buckets, p: Position, xs: seq<string>, ys: seq<string>)
    ensures b.Set(p, xs).Set(p, ys) == b.Set(p, ys)
  {
  }
}
