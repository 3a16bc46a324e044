/** What `suggest_starters` guarantees about the lineup it builds. */
module LineupProperties {
  import opened Roster
  import opened Lineup

  // ---------------------------------------------------------------------------
  // Sequence helpers

  lemma NamesConcat(a: seq<Pick>, b: seq<Pick>)
    ensures Names(a + b) == Names(a) + Names(b)
  {
    assert forall i :: 0 <= i < |a| + |b| ==> Names(a + b)[i] == (Names(a) + Names(b))[i];
  }

  lemma LabelsConcat(a: seq<Pick>, b: seq<Pick>)
    ensures Labels(a + b) == Labels(a) + Labels(b)
  {
    assert forall i :: 0 <= i < |a| + |b| ==> Labels(a + b)[i] == (Labels(a) + Labels(b))[i];
  }

  lemma NamesLabelled(p: Position, xs: seq<string>)
    ensures Names(Labelled(p, xs)) == xs
  {
    assert forall i :: 0 <= i < |xs| ==> Names(Labelled(p, xs))[i] == xs[i];
  }

  lemma {:induction false} PlayersAtConcat(a: seq<Pick>, b: seq<Pick>, l: Label)
    ensures PlayersAt(a + b, l) == PlayersAt(a, l) + PlayersAt(b, l)
    decreases |b|
  {
    if b == [] {
      assert a + b == a;
    } else {
      var b' := b[..|b| - 1];
      assert (a + b)[..|a + b| - 1] == a + b';
      PlayersAtConcat(a, b', l);
    }
  }

  lemma {:induction false} PlayersAtLabelled(p: Position, xs: seq<string>, l: Label)
    ensures PlayersAt(Labelled(p, xs), l) == if l == Plain(p) then xs else []
  {
    if xs != [] {
      var xs' := xs[..|xs| - 1];
      assert Labelled(p, xs)[..|xs| - 1] == Labelled(p, xs');
      PlayersAtLabelled(p, xs', l);
    }
  }

  lemma AllPlayersSet(b: Buckets, p: Position, xs: seq<string>)
    ensures b.Set(p, xs).AllPlayers() + multiset(b.Get(p)) == b.AllPlayers() + multiset(xs)
  {
  }

  // ---------------------------------------------------------------------------
  // One slot

  /**
   * A plain slot of count n takes the first min(n, available) players of its position, in order,
   * each labelled with the position; the position keeps the rest and no other list changes.
   */
  lemma PlainSlotTakesHeads(avail: Buckets, p: Position, count: nat)
    ensures var (picks, rest) := TakePlain(avail, p, count);
            && |picks| == Min(count, |avail.Get(p)|)
            && (forall i :: 0 <= i < |picks| ==> picks[i].position == Plain(p))
            && Names(picks) + rest.Get(p) == avail.Get(p)
            && (forall q :: q != p ==> rest.Get(q) == avail.Get(q))
  {
    var xs := avail.Get(p);
    var n := Min(count, |xs|);
    NamesLabelled(p, xs[..n]);
    assert xs[..n] + xs[n..] == xs;
  }

  /**
   * The FLEX slot takes at most one player: the head of RB if RB is not empty, else of WR,
   * else of TE, labelled "FLEX" and dropped from its list; with all three empty it stays unfilled.
   */
  lemma FlexSlotPriority(avail: Buckets)
    ensures var (picks, rest) := TakeFlex(avail);
            && (avail.rb != [] ==>
                  picks == [Pick(Flex, avail.rb[0])] && rest == avail.Set(RB, avail.rb[1..]))
            && (avail.rb == [] && avail.wr != [] ==>
                  picks == [Pick(Flex, avail.wr[0])] && rest == avail.Set(WR, avail.wr[1..]))
            && (avail.rb == [] && avail.wr == [] && avail.te != [] ==>
                  picks == [Pick(Flex, avail.te[0])] && rest == avail.Set(TE, avail.te[1..]))
            && (avail.rb == [] && avail.wr == [] && avail.te == [] ==>
                  picks == [] && rest == avail)
  {
    assert [RB][..0] == [];
    assert FlexOptions(avail, [RB]) == Tagged(avail.rb, RB);
    assert [RB, WR][..1] == [RB];
    assert FlexOptions(avail, [RB, WR]) == Tagged(avail.rb, RB) + Tagged(avail.wr, WR);
    assert FlexPriority[..2] == [RB, WR];
    assert FlexOptions(avail, FlexPriority)
           == Tagged(avail.rb, RB) + Tagged(avail.wr, WR) + Tagged(avail.te, TE);
  }

  lemma PlainSlotKeepsPlayers(avail: Buckets, p: Position, count: nat)
    ensures multiset(Names(TakePlain(avail, p, count).0)) + TakePlain(avail, p, count).1.AllPlayers()
            == avail.AllPlayers()
  {
    var xs := avail.Get(p);
    var n := Min(count, |xs|);
    PlainSlotTakesHeads(avail, p, count);
    AllPlayersSet(avail, p, xs[n..]);
    assert multiset(Names(TakePlain(avail, p, count).0)) + multiset(xs[n..]) == multiset(xs);
  }

  lemma FlexSlotKeepsPlayers(avail: Buckets)
    ensures multiset(Names(TakeFlex(avail).0)) + TakeFlex(avail).1.AllPlayers() == avail.AllPlayers()
  {
    FlexSlotPriority(avail);
    if avail.rb != [] {
      TakeHeadKeepsPlayers(avail, RB);
    } else if avail.wr != [] {
      TakeHeadKeepsPlayers(avail, WR);
    } else if avail.te != [] {
      TakeHeadKeepsPlayers(avail, TE);
    }
  }

  lemma TakeHeadKeepsPlayers(avail: Buckets, p: Position)
    requires avail.Get(p) != []
    ensures multiset(Names([Pick(Flex, avail.Get(p)[0])])) + avail.Set(p, avail.Get(p)[1..]).AllPlayers()
            == avail.AllPlayers()
  {
    var xs := avail.Get(p);
    assert multiset(xs) == multiset{xs[0]} + multiset(xs[1..]) by {
      assert xs == [xs[0]] + xs[1..];
    }
    assert Names([Pick(Flex, xs[0])]) == [xs[0]];
    AllPlayersSet(avail, p, xs[1..]);
  }

  /** A slot hands out exactly the players it removes. */
  lemma SlotKeepsPlayers(avail: Buckets, slot: Slot)
    ensures multiset(Names(FillSlot(avail, slot).0)) + FillSlot(avail, slot).1.AllPlayers() == avail.AllPlayers()
  {
    match slot.position
    case Plain(p) => PlainSlotKeepsPlayers(avail, p, slot.count);
    case Flex => FlexSlotKeepsPlayers(avail);
  }

  // ---------------------------------------------------------------------------
  // All slots, then the bench

  lemma {:induction false} FillSlotsKeepPlayers(avail: Buckets, slots: seq<Slot>)
    ensures var (starters, rest) := FillSlots(avail, slots);
            multiset(Names(starters)) + rest.AllPlayers() == avail.AllPlayers()
  {
    if slots != [] {
      var init := slots[..|slots| - 1];
      FillSlotsKeepPlayers(avail, init);
      var (starters, rest) := FillSlots(avail, init);
      var (picks, rest') := FillSlot(rest, slots[|slots| - 1]);
      SlotKeepsPlayers(rest, slots[|slots| - 1]);
      NamesConcat(starters, picks);
    }
  }

  lemma BenchOverBucketOrder(avail: Buckets)
    ensures BenchOver(avail, BucketOrder)
            == Labelled(QB, avail.qb) + Labelled(RB, avail.rb) + Labelled(WR, avail.wr)
               + Labelled(TE, avail.te) + Labelled(DST, avail.dst) + Labelled(K, avail.k)
  {
    var a, b, c, d, e, f :=
      Labelled(QB, avail.qb), Labelled(RB, avail.rb), Labelled(WR, avail.wr),
      Labelled(TE, avail.te), Labelled(DST, avail.dst), Labelled(K, avail.k);
    assert [QB][..0] == [];
    assert BenchOver(avail, [QB]) == a;
    assert [QB, RB][..1] == [QB];
    assert BenchOver(avail, [QB, RB]) == a + b;
    assert [QB, RB, WR][..2] == [QB, RB];
    assert BenchOver(avail, [QB, RB, WR]) == a + b + c;
    assert [QB, RB, WR, TE][..3] == [QB, RB, WR];
    assert BenchOver(avail, [QB, RB, WR, TE]) == a + b + c + d;
    assert [QB, RB, WR, TE, DST][..4] == [QB, RB, WR, TE];
    assert BenchOver(avail, [QB, RB, WR, TE, DST]) == a + b + c + d + e;
    assert BucketOrder[..5] == [QB, RB, WR, TE, DST];
  }

  /** The bench holds every remaining player exactly once. */
  lemma BenchKeepsPlayers(avail: Buckets)
    ensures multiset(Names(BenchOver(avail, BucketOrder))) == avail.AllPlayers()
  {
    BenchOverBucketOrder(avail);
    var a, b, c, d, e, f :=
      Labelled(QB, avail.qb), Labelled(RB, avail.rb), Labelled(WR, avail.wr),
      Labelled(TE, avail.te), Labelled(DST, avail.dst), Labelled(K, avail.k);
    NamesConcat(a, b); NamesConcat(a + b, c); NamesConcat(a + b + c, d);
    NamesConcat(a + b + c + d, e); NamesConcat(a + b + c + d + e, f);
    NamesLabelled(QB, avail.qb); NamesLabelled(RB, avail.rb); NamesLabelled(WR, avail.wr);
    NamesLabelled(TE, avail.te); NamesLabelled(DST, avail.dst); NamesLabelled(K, avail.k);
  }

  /**
   * Nothing is lost or duplicated: starter names plus bench names are, as a multiset,
   * exactly the names in the organised buckets.
   */
  lemma LineupKeepsPlayers(organized: Buckets)
    ensures var (starters, bench) := SuggestedLineup(organized);
            multiset(Names(starters) + Names(bench)) == organized.AllPlayers()
  {
    FillSlotsKeepPlayers(organized, RosterTemplate);
    var (starters, rest) := FillSlots(organized, RosterTemplate);
    BenchKeepsPlayers(rest);
  }

  // ---------------------------------------------------------------------------
  // Starters follow the template

  /** `a` is `b` with some elements deleted. */
  predicate IsSubseq(a: seq<Label>, b: seq<Label>)
  {
    a == [] || (b != [] && ((a[0] == b[0] && IsSubseq(a[1..], b[1..])) || IsSubseq(a, b[1..])))
  }

  lemma {:induction false} SubseqLength(a: seq<Label>, b: seq<Label>)
    requires IsSubseq(a, b)
    ensures |a| <= |b|
    decreases |b|
  {
    if a != [] {
      if a[0] == b[0] && IsSubseq(a[1..], b[1..]) {
        SubseqLength(a[1..], b[1..]);
      } else {
        SubseqLength(a, b[1..]);
      }
    }
  }

  lemma {:induction false} SubseqConcat(a1: seq<Label>, b1: seq<Label>, a2: seq<Label>, b2: seq<Label>)
    requires IsSubseq(a1, b1) && IsSubseq(a2, b2)
    ensures IsSubseq(a1 + a2, b1 + b2)
    decreases |b1|
  {
    if b1 == [] {
      assert a1 + a2 == a2 && b1 + b2 == b2;
    } else {
      assert (b1 + b2)[1..] == b1[1..] + b2;
      if a1 == [] {
        SubseqConcat(a1, b1[1..], a2, b2);
        assert a1 + a2 == a2;
      } else if a1[0] == b1[0] && IsSubseq(a1[1..], b1[1..]) {
        SubseqConcat(a1[1..], b1[1..], a2, b2);
        assert (a1 + a2)[1..] == a1[1..] + a2;
      } else {
        SubseqConcat(a1, b1[1..], a2, b2);
      }
    }
  }

  function Repeat(l: Label, n: nat): (r: seq<Label>)
    ensures |r| == n
  {
    seq(n, _ => l)
  }

  lemma {:induction false} RepeatSubseq(l: Label, k: nat, n: nat)
    requires k <= n
    ensures IsSubseq(Repeat(l, k), Repeat(l, n))
  {
    if k > 0 {
      assert Repeat(l, k)[1..] == Repeat(l, k - 1);
      assert Repeat(l, n)[1..] == Repeat(l, n - 1);
      RepeatSubseq(l, k - 1, n - 1);
    }
  }

  /** The starter labels a slot allows: `count` copies of its position, or one "FLEX" whatever the count. */
  function SlotLabels(slot: Slot): seq<Label>
  {
    match slot.position
    case Flex => [Flex]
    case Plain(p) => Repeat(Plain(p), slot.count)
  }

  /** The template written out label by label. */
  function Expand(slots: seq<Slot>): seq<Label>
  {
    if slots == [] then [] else Expand(slots[..|slots| - 1]) + SlotLabels(slots[|slots| - 1])
  }

  lemma SlotFollowsTemplate(avail: Buckets, slot: Slot)
    ensures IsSubseq(Labels(FillSlot(avail, slot).0), SlotLabels(slot))
  {
    match slot.position
    case Plain(p) =>
      var xs := avail.Get(p);
      var n := Min(slot.count, |xs|);
      assert Labels(Labelled(p, xs[..n])) == Repeat(Plain(p), n);
      RepeatSubseq(Plain(p), n, slot.count);
    case Flex =>
      var picks := TakeFlex(avail).0;
      assert picks == [] || Labels(picks) == [Flex];
      assert IsSubseq([], []);
  }

  /** Whatever the template, the starters' labels are the template's labels with some left out, in order. */
  lemma {:induction false} FillSlotsFollowTemplate(avail: Buckets, slots: seq<Slot>)
    ensures IsSubseq(Labels(FillSlots(avail, slots).0), Expand(slots))
  {
    if slots != [] {
      var init := slots[..|slots| - 1];
      FillSlotsFollowTemplate(avail, init);
      var (starters, rest) := FillSlots(avail, init);
      SlotFollowsTemplate(rest, slots[|slots| - 1]);
      LabelsConcat(starters, FillSlot(rest, slots[|slots| - 1]).0);
      SubseqConcat(Labels(starters), Expand(init),
                   Labels(FillSlot(rest, slots[|slots| - 1]).0), SlotLabels(slots[|slots| - 1]));
    } else {
      assert IsSubseq([], []);
    }
  }

  /** The league template written out: QB, RB, RB, WR, WR, TE, FLEX, D/ST, K. */
  const TemplateLabels: seq<Label> :=
    [Plain(QB), Plain(RB), Plain(RB), Plain(WR), Plain(WR), Plain(TE), Flex, Plain(DST), Plain(K)]

  lemma ExpandRosterTemplate()
    ensures Expand(RosterTemplate) == TemplateLabels
  {
    var t := RosterTemplate;
    assert Repeat(Plain(QB), 1) == [Plain(QB)] && Repeat(Plain(TE), 1) == [Plain(TE)];
    assert Repeat(Plain(RB), 2) == [Plain(RB), Plain(RB)] && Repeat(Plain(WR), 2) == [Plain(WR), Plain(WR)];
    assert Repeat(Plain(DST), 1) == [Plain(DST)] && Repeat(Plain(K), 1) == [Plain(K)];
    assert t[..1][..0] == [];
    assert Expand(t[..1]) == [Plain(QB)];
    assert t[..2][..1] == t[..1];
    assert Expand(t[..2]) == [Plain(QB), Plain(RB), Plain(RB)];
    assert t[..3][..2] == t[..2];
    assert Expand(t[..3]) == [Plain(QB), Plain(RB), Plain(RB), Plain(WR), Plain(WR)];
    assert t[..4][..3] == t[..3];
    assert Expand(t[..4]) == TemplateLabels[..6];
    assert t[..5][..4] == t[..4];
    assert Expand(t[..5]) == TemplateLabels[..7];
    assert t[..6][..5] == t[..5];
    assert Expand(t[..6]) == TemplateLabels[..8];
    assert t[..6] == t[..|t| - 1];
  }

  /**
   * The starters come grouped in template order, QB, RB, RB, WR, WR, TE, FLEX, D/ST, K, with any slot
   * that cannot be filled left out: so there are at most 9 of them and at most one FLEX.
   */
  lemma StartersInTemplateOrder(organized: Buckets)
    ensures IsSubseq(Labels(SuggestedLineup(organized).0), TemplateLabels)
    ensures |SuggestedLineup(organized).0| <= 9
  {
    FillSlotsFollowTemplate(organized, RosterTemplate);
    ExpandRosterTemplate();
    SubseqLength(Labels(SuggestedLineup(organized).0), TemplateLabels);
  }

  // ---------------------------------------------------------------------------
  // The bench

  /** `s` is what is left of `t` after dropping some elements from its front. */
  predicate IsSuffix(s: seq<string>, t: seq<string>)
  {
    |s| <= |t| && s == t[|t| - |s|..]
  }

  lemma SlotLeavesSuffix(avail: Buckets, slot: Slot, p: Position)
    ensures IsSuffix(FillSlot(avail, slot).1.Get(p), avail.Get(p))
  {
    match slot.position
    case Plain(q) =>
      PlainSlotTakesHeads(avail, q, slot.count);
    case Flex =>
      FlexSlotPriority(avail);
  }

  /** Slots only ever take list heads: what is left of each position is a suffix of its list. */
  lemma {:induction false} FillSlotsLeaveSuffix(avail: Buckets, slots: seq<Slot>, p: Position)
    ensures IsSuffix(FillSlots(avail, slots).1.Get(p), avail.Get(p))
  {
    if slots != [] {
      var init := slots[..|slots| - 1];
      FillSlotsLeaveSuffix(avail, init, p);
      var rest := FillSlots(avail, init).1;
      SlotLeavesSuffix(rest, slots[|slots| - 1], p);
    }
  }

  /** Position rank in bucket order; FLEX, which never reaches the bench, comes last. */
  function BucketRank(l: Label): nat
  {
    match l
    case Flex => 6
    case Plain(p) =>
      match p
      case QB => 0
      case RB => 1
      case WR => 2
      case TE => 3
      case DST => 4
      case K => 5
  }

  predicate InBucketOrder(picks: seq<Pick>)
  {
    forall i, j :: 0 <= i < j < |picks| ==> BucketRank(picks[i].position) <= BucketRank(picks[j].position)
  }

  predicate RanksAtMost(picks: seq<Pick>, r: nat)
  {
    forall i :: 0 <= i < |picks| ==> BucketRank(picks[i].position) <= r
  }

  lemma AppendBucket(x: seq<Pick>, p: Position, ys: seq<string>)
    requires InBucketOrder(x) && RanksAtMost(x, BucketRank(Plain(p)))
    ensures InBucketOrder(x + Labelled(p, ys)) && RanksAtMost(x + Labelled(p, ys), BucketRank(Plain(p)))
  {
    var z := x + Labelled(p, ys);
    assert forall i :: |x| <= i < |z| ==> z[i].position == Plain(p);
  }

  /** Bench entries come in bucket order, each labelled with its bucket, never "FLEX". */
  lemma BenchInBucketOrder(avail: Buckets)
    ensures InBucketOrder(BenchOver(avail, BucketOrder))
    ensures forall i :: 0 <= i < |BenchOver(avail, BucketOrder)| ==> BenchOver(avail, BucketOrder)[i].position.Plain?
  {
    BenchOverBucketOrder(avail);
    var a, b, c, d, e, f :=
      Labelled(QB, avail.qb), Labelled(RB, avail.rb), Labelled(WR, avail.wr),
      Labelled(TE, avail.te), Labelled(DST, avail.dst), Labelled(K, avail.k);
    AppendBucket([], QB, avail.qb);
    assert [] + a == a;
    AppendBucket(a, RB, avail.rb);
    AppendBucket(a + b, WR, avail.wr);
    AppendBucket(a + b + c, TE, avail.te);
    AppendBucket(a + b + c + d, DST, avail.dst);
    AppendBucket(a + b + c + d + e, K, avail.k);
  }

  /** Over distinct positions `ps`, the bench's players of `p` are `p`'s list if `p` is among them. */
  lemma {:induction false} BenchOverAt(avail: Buckets, ps: seq<Position>, p: Position)
    requires forall i, j :: 0 <= i < j < |ps| ==> ps[i] != ps[j]
    ensures PlayersAt(BenchOver(avail, ps), Plain(p)) == if p in ps then avail.Get(p) else []
  {
    if ps != [] {
      var init, last := ps[..|ps| - 1], ps[|ps| - 1];
      var before := PlayersAt(BenchOver(avail, init), Plain(p));
      var after := PlayersAt(Labelled(last, avail.Get(last)), Plain(p));
      assert PlayersAt(BenchOver(avail, ps), Plain(p)) == before + after by {
        PlayersAtConcat(BenchOver(avail, init), Labelled(last, avail.Get(last)), Plain(p));
      }
      assert before == if p in init then avail.Get(p) else [] by {
        assert forall i :: 0 <= i < |init| ==> init[i] == ps[i];
        BenchOverAt(avail, init, p);
      }
      assert after == if last == p then avail.Get(p) else [] by {
        PlayersAtLabelled(last, avail.Get(last), Plain(p));
      }
      assert p in ps <==> p in init || p == last by {
        assert ps == init + [last];
      }
      if last == p {
        assert p !in init by {
          assert forall i :: 0 <= i < |init| ==> init[i] == ps[i];
        }
      }
    }
  }

  /** The bench's players of position `p` are exactly the players `p` has left. */
  lemma BenchAtPosition(avail: Buckets, p: Position)
    ensures PlayersAt(BenchOver(avail, BucketOrder), Plain(p)) == avail.Get(p)
  {
    BenchOverAt(avail, BucketOrder, p);
  }

  /**
   * The bench lists the leftovers bucket by bucket (QB, RB, WR, TE, D/ST, K), labelled with their
   * bucket, and for every position its bench players are a suffix of its organised list.
   */
  lemma BenchIsSuffixes(organized: Buckets)
    ensures InBucketOrder(SuggestedLineup(organized).1)
    ensures forall i :: 0 <= i < |SuggestedLineup(organized).1| ==> SuggestedLineup(organized).1[i].position.Plain?
    ensures forall p :: IsSuffix(PlayersAt(SuggestedLineup(organized).1, Plain(p)), organized.Get(p))
  {
    var rest := FillSlots(organized, RosterTemplate).1;
    BenchInBucketOrder(rest);
    forall p
      ensures IsSuffix(PlayersAt(SuggestedLineup(organized).1, Plain(p)), organized.Get(p))
    {
      BenchAtPosition(rest, p);
      FillSlotsLeaveSuffix(organized, RosterTemplate, p);
    }
  }

  // ---------------------------------------------------------------------------
  // The league template in closed form

  /**
   * The lineup the league template yields, read straight off the organised lists: the first
   * 1 QB, 2 RB, 2 WR, 1 TE start; FLEX is the third RB, else the third WR, else the second TE;
   * then 1 D/ST and 1 K; everything else is benched, bucket by bucket.
   */
  function StandardLineupReference(o: Buckets): (seq<Pick>, seq<Pick>)
  {
    var nq, nr, nw, nt, nd, nk :=
      Min(1, |o.qb|), Min(2, |o.rb|), Min(2, |o.wr|), Min(1, |o.te|), Min(1, |o.dst|), Min(1, |o.k|);
    var fr := if |o.rb| > 2 then 1 else 0;
    var fw := if |o.rb| <= 2 && |o.wr| > 2 then 1 else 0;
    var ft := if |o.rb| <= 2 && |o.wr| <= 2 && |o.te| > 1 then 1 else 0;
    (Labelled(QB, o.qb[..nq]) + Labelled(RB, o.rb[..nr]) + Labelled(WR, o.wr[..nw]) + Labelled(TE, o.te[..nt])
       + FlexReference(o) + Labelled(DST, o.dst[..nd]) + Labelled(K, o.k[..nk]),
     Labelled(QB, o.qb[nq..]) + Labelled(RB, o.rb[nr + fr..]) + Labelled(WR, o.wr[nw + fw..])
       + Labelled(TE, o.te[nt + ft..]) + Labelled(DST, o.dst[nd..]) + Labelled(K, o.k[nk..]))
  }

  lemma FillSlotsStep(avail: Buckets, slots: seq<Slot>, k: nat)
    requires k < |slots|
    ensures FillSlots(avail, slots[..k + 1])
            == (FillSlots(avail, slots[..k]).0 + FillSlot(FillSlots(avail, slots[..k]).1, slots[k]).0,
                FillSlot(FillSlots(avail, slots[..k]).1, slots[k]).1)
  {
    assert slots[..k + 1][..k] == slots[..k];
  }

  /** One more plain slot: it takes up to `count` heads of its bucket from what the earlier slots left. */
  lemma PlainSlotNext(avail: Buckets, slots: seq<Slot>, k: nat, p: Position, count: nat,
                      starters: seq<Pick>, rest: Buckets)
    requires k < |slots| && slots[k] == Slot(Plain(p), count)
    requires FillSlots(avail, slots[..k]) == (starters, rest)
    ensures var xs := rest.Get(p);
            FillSlots(avail, slots[..k + 1])
            == (starters + Labelled(p, xs[..Min(count, |xs|)]), rest.Set(p, xs[Min(count, |xs|)..]))
  {
    FillSlotsStep(avail, slots, k);
  }

  /** After the QB slot of the league template. */
  lemma QuarterbackSlot(o: Buckets)
    ensures FillSlots(o, RosterTemplate[..1])
            == (Labelled(QB, o.qb[..Min(1, |o.qb|)]), o.(qb := o.qb[Min(1, |o.qb|)..]))
  {    var nq := Min(1, |o.qb|);
    assert RosterTemplate[..0] == [];
    PlainSlotNext(o, RosterTemplate, 0, QB, 1, [], o);
    assert [] + Labelled(QB, o.qb[..nq]) == Labelled(QB, o.qb[..nq]);
    assert o.Set(QB, o.qb[nq..]) == o.(qb := o.qb[nq..]);
  }

  /** After the QB and RB slots of the league template. */
  lemma RunningBackSlot(o: Buckets)
    ensures var nq, nr := Min(1, |o.qb|), Min(2, |o.rb|);
            FillSlots(o, RosterTemplate[..2])
            == (Labelled(QB, o.qb[..nq]) + Labelled(RB, o.rb[..nr]),
                o.(qb := o.qb[nq..], rb := o.rb[nr..]))
  {    var nq, nr := Min(1, |o.qb|), Min(2, |o.rb|);
    var b1 := o.(qb := o.qb[nq..]);
    QuarterbackSlot(o);
    PlainSlotNext(o, RosterTemplate, 1, RB, 2, Labelled(QB, o.qb[..nq]), b1);
    assert b1.Get(RB) == o.rb;
    assert b1.Set(RB, o.rb[nr..]) == b1.(rb := o.rb[nr..]);
  }

  /** After the QB, RB and WR slots of the league template. */
  lemma ReceiverSlot(o: Buckets)
    ensures var nq, nr, nw := Min(1, |o.qb|), Min(2, |o.rb|), Min(2, |o.wr|);
            FillSlots(o, RosterTemplate[..3])
            == (Labelled(QB, o.qb[..nq]) + Labelled(RB, o.rb[..nr]) + Labelled(WR, o.wr[..nw]),
                o.(qb := o.qb[nq..], rb := o.rb[nr..], wr := o.wr[nw..]))
  {    var nq, nr, nw := Min(1, |o.qb|), Min(2, |o.rb|), Min(2, |o.wr|);
    var b2 := o.(qb := o.qb[nq..], rb := o.rb[nr..]);
    RunningBackSlot(o);
    PlainSlotNext(o, RosterTemplate, 2, WR, 2, Labelled(QB, o.qb[..nq]) + Labelled(RB, o.rb[..nr]), b2);
    assert b2.Get(WR) == o.wr;
    assert b2.Set(WR, o.wr[nw..]) == b2.(wr := o.wr[nw..]);
  }

  /** After the QB, RB, WR and TE slots of the league template. */
  lemma FirstFourSlots(o: Buckets)
    ensures var nq, nr, nw, nt := Min(1, |o.qb|), Min(2, |o.rb|), Min(2, |o.wr|), Min(1, |o.te|);
            FillSlots(o, RosterTemplate[..4])
            == (Labelled(QB, o.qb[..nq]) + Labelled(RB, o.rb[..nr]) + Labelled(WR, o.wr[..nw]) + Labelled(TE, o.te[..nt]),
                o.(qb := o.qb[nq..], rb := o.rb[nr..], wr := o.wr[nw..], te := o.te[nt..]))
  {
    var nq, nr, nw, nt := Min(1, |o.qb|), Min(2, |o.rb|), Min(2, |o.wr|), Min(1, |o.te|);
    var b3 := o.(qb := o.qb[nq..], rb := o.rb[nr..], wr := o.wr[nw..]);
    ReceiverSlot(o);
    PlainSlotNext(o, RosterTemplate, 3, TE, 1,
                  Labelled(QB, o.qb[..nq]) + Labelled(RB, o.rb[..nr]) + Labelled(WR, o.wr[..nw]), b3);
    assert b3.Get(TE) == o.te;
    assert b3.Set(TE, o.te[nt..]) == b3.(te := o.te[nt..]);
  }

  function FlexReference(o: Buckets): seq<Pick>
  {
    if |o.rb| > 2 then [Pick(Flex, o.rb[2])]
    else if |o.wr| > 2 then [Pick(Flex, o.wr[2])]
    else if |o.te| > 1 then [Pick(Flex, o.te[1])]
    else []
  }

  /** The players left after the first five slots of the league template. */
  function AfterFlex(o: Buckets): Buckets
  {
    var fr := if |o.rb| > 2 then 1 else 0;
    var fw := if |o.rb| <= 2 && |o.wr| > 2 then 1 else 0;
    var ft := if |o.rb| <= 2 && |o.wr| <= 2 && |o.te| > 1 then 1 else 0;
    o.(qb := o.qb[Min(1, |o.qb|)..], rb := o.rb[Min(2, |o.rb|) + fr..],
       wr := o.wr[Min(2, |o.wr|) + fw..], te := o.te[Min(1, |o.te|) + ft..])
  }

  /** After the QB, RB, WR, TE and FLEX slots of the league template. */
  lemma FirstFiveSlots(o: Buckets)
    ensures var nq, nr, nw, nt := Min(1, |o.qb|), Min(2, |o.rb|), Min(2, |o.wr|), Min(1, |o.te|);
            FillSlots(o, RosterTemplate[..5])
            == (Labelled(QB, o.qb[..nq]) + Labelled(RB, o.rb[..nr]) + Labelled(WR, o.wr[..nw]) + Labelled(TE, o.te[..nt])
                  + FlexReference(o),
                AfterFlex(o))
  {
    var nq, nr, nw, nt := Min(1, |o.qb|), Min(2, |o.rb|), Min(2, |o.wr|), Min(1, |o.te|);
    FirstFourSlots(o);
    var b4 := o.(qb := o.qb[nq..], rb := o.rb[nr..], wr := o.wr[nw..], te := o.te[nt..]);
    FillSlotsStep(o, RosterTemplate, 4);
    FlexAfterFourSlots(o);
  }

  lemma FlexAfterFourSlots(o: Buckets)
    ensures var nq, nr, nw, nt := Min(1, |o.qb|), Min(2, |o.rb|), Min(2, |o.wr|), Min(1, |o.te|);
            TakeFlex(o.(qb := o.qb[nq..], rb := o.rb[nr..], wr := o.wr[nw..], te := o.te[nt..]))
            == (FlexReference(o), AfterFlex(o))
  {
    var nq, nr, nw, nt := Min(1, |o.qb|), Min(2, |o.rb|), Min(2, |o.wr|), Min(1, |o.te|);
    var b4 := o.(qb := o.qb[nq..], rb := o.rb[nr..], wr := o.wr[nw..], te := o.te[nt..]);
    FlexSlotPriority(b4);
    if |o.rb| > 2 {
      assert b4.rb[0] == o.rb[2] && b4.rb[1..] == o.rb[3..];
      assert b4.Set(RB, b4.rb[1..]) == AfterFlex(o);
    } else if |o.wr| > 2 {
      assert b4.rb == [];
      assert b4.wr[0] == o.wr[2] && b4.wr[1..] == o.wr[3..];
      assert b4.Set(WR, b4.wr[1..]) == AfterFlex(o);
    } else if |o.te| > 1 {
      assert b4.rb == [] && b4.wr == [];
      assert b4.te[0] == o.te[1] && b4.te[1..] == o.te[2..];
      assert b4.Set(TE, b4.te[1..]) == AfterFlex(o);
    } else {
      assert b4.rb == [] && b4.wr == [] && b4.te == [];
      assert b4 == AfterFlex(o);
    }
  }

  /** After the first six slots of the league template. */
  lemma DefenceSlot(o: Buckets)
    ensures var nq, nr, nw, nt, nd := Min(1, |o.qb|), Min(2, |o.rb|), Min(2, |o.wr|), Min(1, |o.te|), Min(1, |o.dst|);
            FillSlots(o, RosterTemplate[..6])
            == (Labelled(QB, o.qb[..nq]) + Labelled(RB, o.rb[..nr]) + Labelled(WR, o.wr[..nw]) + Labelled(TE, o.te[..nt])
                  + FlexReference(o) + Labelled(DST, o.dst[..nd]),
                AfterFlex(o).(dst := o.dst[nd..]))
  {    var nq, nr, nw, nt, nd := Min(1, |o.qb|), Min(2, |o.rb|), Min(2, |o.wr|), Min(1, |o.te|), Min(1, |o.dst|);
    var b5 := AfterFlex(o);
    FirstFiveSlots(o);
    PlainSlotNext(o, RosterTemplate, 5, DST, 1,
                  Labelled(QB, o.qb[..nq]) + Labelled(RB, o.rb[..nr]) + Labelled(WR, o.wr[..nw]) + Labelled(TE, o.te[..nt])
                    + FlexReference(o),
                  b5);
    assert b5.Get(DST) == o.dst;
    assert b5.Set(DST, o.dst[nd..]) == b5.(dst := o.dst[nd..]);
  }

  /** After all seven slots of the league template. */
  lemma AllSlots(o: Buckets)
    ensures var nq, nr, nw, nt, nd, nk :=
              Min(1, |o.qb|), Min(2, |o.rb|), Min(2, |o.wr|), Min(1, |o.te|), Min(1, |o.dst|), Min(1, |o.k|);
            FillSlots(o, RosterTemplate)
            == (Labelled(QB, o.qb[..nq]) + Labelled(RB, o.rb[..nr]) + Labelled(WR, o.wr[..nw]) + Labelled(TE, o.te[..nt])
                  + FlexReference(o) + Labelled(DST, o.dst[..nd]) + Labelled(K, o.k[..nk]),
                AfterFlex(o).(dst := o.dst[nd..], k := o.k[nk..]))
  {    var nq, nr, nw, nt, nd, nk :=
      Min(1, |o.qb|), Min(2, |o.rb|), Min(2, |o.wr|), Min(1, |o.te|), Min(1, |o.dst|), Min(1, |o.k|);
    var b6 := AfterFlex(o).(dst := o.dst[nd..]);
    DefenceSlot(o);
    PlainSlotNext(o, RosterTemplate, 6, K, 1,
                  Labelled(QB, o.qb[..nq]) + Labelled(RB, o.rb[..nr]) + Labelled(WR, o.wr[..nw]) + Labelled(TE, o.te[..nt])
                    + FlexReference(o) + Labelled(DST, o.dst[..nd]),
                  b6);
    assert b6.Get(K) == o.k;
    assert b6.Set(K, o.k[nk..]) == b6.(k := o.k[nk..]);
    assert RosterTemplate[..7] == RosterTemplate;
  }

  /** For the league template, `suggest_starters` returns exactly `StandardLineupReference`. */
  lemma StandardLineup(o: Buckets)
    ensures SuggestedLineup(o) == StandardLineupReference(o)
  {
    AllSlots(o);
    BenchOverBucketOrder(FillSlots(o, RosterTemplate).1);
  }

  lemma LabelledOne(p: Position, xs: seq<string>)
    requires |xs| == 1
    ensures Labelled(p, xs) == [Pick(Plain(p), xs[0])]
  {
  }

  lemma LabelledTwo(p: Position, xs: seq<string>)
    requires |xs| == 2
    ensures Labelled(p, xs) == [Pick(Plain(p), xs[0]), Pick(Plain(p), xs[1])]
  {
  }

  /** Eight players, one per starting slot: every slot but FLEX is filled and the bench is empty. */
  lemma FullRosterLineup(o: Buckets)
    requires |o.qb| == 1 && |o.rb| == 2 && |o.wr| == 2 && |o.te| == 1 && |o.dst| == 1 && |o.k| == 1
    ensures SuggestedLineup(o)
            == ([Pick(Plain(QB), o.qb[0]), Pick(Plain(RB), o.rb[0]), Pick(Plain(RB), o.rb[1]), Pick(Plain(WR), o.wr[0]),
                 Pick(Plain(WR), o.wr[1]), Pick(Plain(TE), o.te[0]), Pick(Plain(DST), o.dst[0]), Pick(Plain(K), o.k[0])],
                [])
  {
    StandardLineup(o);
    assert StandardLineupReference(o).1 == [] by {
      assert o.qb[1..] == [] && o.rb[2..] == [] && o.wr[2..] == [] && o.te[1..] == [];
      assert o.dst[1..] == [] && o.k[1..] == [];
      assert forall p: Position :: Labelled(p, []) == [];
    }
    assert FlexReference(o) == [];
    assert o.qb[..1] == o.qb && o.wr[..2] == o.wr;
    assert o.te[..1] == o.te && o.dst[..1] == o.dst && o.k[..1] == o.k;
    assert o.rb[..2] == [o.rb[0], o.rb[1]];
    LabelledOne(QB, o.qb);
    LabelledTwo(RB, o.rb[..2]);
    LabelledTwo(WR, o.wr);
    LabelledOne(TE, o.te);
    LabelledOne(DST, o.dst);
    LabelledOne(K, o.k);
    assert StandardLineupReference(o).0
           == Labelled(QB, o.qb) + Labelled(RB, o.rb[..2]) + Labelled(WR, o.wr) + Labelled(TE, o.te)
              + FlexReference(o) + Labelled(DST, o.dst) + Labelled(K, o.k);
    assert Labelled(QB, o.qb) + Labelled(RB, o.rb[..2]) + Labelled(WR, o.wr) + Labelled(TE, o.te)
              + FlexReference(o) + Labelled(DST, o.dst) + Labelled(K, o.k)
           == [Pick(Plain(QB), o.qb[0])] + [Pick(Plain(RB), o.rb[0]), Pick(Plain(RB), o.rb[1])]
              + [Pick(Plain(WR), o.wr[0]), Pick(Plain(WR), o.wr[1])] + [Pick(Plain(TE), o.te[0])]
              + [] + [Pick(Plain(DST), o.dst[0])] + [Pick(Plain(K), o.k[0])];
    assert SuggestedLineup(o).1 == [];
    assert SuggestedLineup(o).0
           == [Pick(Plain(QB), o.qb[0]), Pick(Plain(RB), o.rb[0]), Pick(Plain(RB), o.rb[1]), Pick(Plain(WR), o.wr[0]),
               Pick(Plain(WR), o.wr[1]), Pick(Plain(TE), o.te[0]), Pick(Plain(DST), o.dst[0]), Pick(Plain(K), o.k[0])];
  }

  /** A third running back fills FLEX, between the tight end and the defence, and nobody is benched. */
  lemma ExtraBackLineup(o: Buckets)
    requires |o.qb| == 1 && |o.rb| == 3 && |o.wr| == 2 && |o.te| == 1 && |o.dst| == 1 && |o.k| == 1
    ensures SuggestedLineup(o)
            == ([Pick(Plain(QB), o.qb[0]), Pick(Plain(RB), o.rb[0]), Pick(Plain(RB), o.rb[1]), Pick(Plain(WR), o.wr[0]),
                 Pick(Plain(WR), o.wr[1]), Pick(Plain(TE), o.te[0]), Pick(Flex, o.rb[2]), Pick(Plain(DST), o.dst[0]),
                 Pick(Plain(K), o.k[0])],
                [])
  {
    StandardLineup(o);
    assert StandardLineupReference(o).1 == [] by {
      assert o.qb[1..] == [] && o.rb[3..] == [] && o.wr[2..] == [] && o.te[1..] == [];
      assert o.dst[1..] == [] && o.k[1..] == [];
      assert forall p: Position :: Labelled(p, []) == [];
    }
    assert FlexReference(o) == [Pick(Flex, o.rb[2])];
    assert o.qb[..1] == o.qb && o.wr[..2] == o.wr;
    assert o.te[..1] == o.te && o.dst[..1] == o.dst && o.k[..1] == o.k;
    assert o.rb[..2] == [o.rb[0], o.rb[1]];
    LabelledOne(QB, o.qb);
    LabelledTwo(RB, o.rb[..2]);
    LabelledTwo(WR, o.wr);
    LabelledOne(TE, o.te);
    LabelledOne(DST, o.dst);
    LabelledOne(K, o.k);
    assert StandardLineupReference(o).0
           == Labelled(QB, o.qb) + Labelled(RB, o.rb[..2]) + Labelled(WR, o.wr) + Labelled(TE, o.te)
              + FlexReference(o) + Labelled(DST, o.dst) + Labelled(K, o.k);
    assert Labelled(QB, o.qb) + Labelled(RB, o.rb[..2]) + Labelled(WR, o.wr) + Labelled(TE, o.te)
              + FlexReference(o) + Labelled(DST, o.dst) + Labelled(K, o.k)
           == [Pick(Plain(QB), o.qb[0])] + [Pick(Plain(RB), o.rb[0]), Pick(Plain(RB), o.rb[1])]
              + [Pick(Plain(WR), o.wr[0]), Pick(Plain(WR), o.wr[1])] + [Pick(Plain(TE), o.te[0])]
              + [Pick(Flex, o.rb[2])] + [Pick(Plain(DST), o.dst[0])] + [Pick(Plain(K), o.k[0])];
    assert SuggestedLineup(o).1 == [];
    assert SuggestedLineup(o).0
           == [Pick(Plain(QB), o.qb[0]), Pick(Plain(RB), o.rb[0]), Pick(Plain(RB), o.rb[1]), Pick(Plain(WR), o.wr[0]),
               Pick(Plain(WR), o.wr[1]), Pick(Plain(TE), o.te[0]), Pick(Flex, o.rb[2]), Pick(Plain(DST), o.dst[0]),
               Pick(Plain(K), o.k[0])];
  }
}
