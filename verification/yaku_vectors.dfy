/** The hands of `tests/test_yaku.py` whose han the tests fix, stated about
    the model of `yaku_rules.py`: each hand is listed with the reading the
    test describes, and that reading earns exactly the yaku the test names,
    at the han it expects. */
module YakuVectors {
  import opened Seqs
  import opened Tiles
  import opened Melds
  import opened NetworkRules
  import opened YakuRules
  import opened RuleVectors

  // ---------------------------------------------------------------------
  // Computing the yaku of one reading

  lemma {:induction false} AwardedAppend(a: seq<Rule>, b: seq<Rule>)
    ensures Awarded(a + b) == Awarded(a) + Awarded(b)
  {
    if a == [] {
      assert a + b == b;
    } else {
      assert (a + b)[0] == a[0];
      assert (a + b)[1..] == a[1..] + b;
      AwardedAppend(a[1..], b);
    }
  }

  /** Rules of which only rule `i` passes award its entry alone. */
  lemma {:induction false} AwardedOnly(rules: seq<Rule>, i: int)
    requires 0 <= i < |rules| && rules[i].holds
    requires forall j :: 0 <= j < |rules| && j != i ==> !rules[j].holds
    ensures Awarded(rules) == [rules[i].award]
  {
    if i == 0 {
      AwardedNone(rules[1..]);
    } else {
      AwardedOnly(rules[1..], i - 1);
    }
  }

  /** Rules of which only rules `i` and `k` pass, `i` first, award their
      two entries in that order. */
  lemma AwardedPair(rules: seq<Rule>, i: int, k: int)
    requires 0 <= i < k < |rules| && rules[i].holds && rules[k].holds
    requires forall j :: 0 <= j < |rules| && j != i && j != k ==> !rules[j].holds
    ensures Awarded(rules) == [rules[i].award, rules[k].award]
  {
    var a, b := rules[..k], rules[k..];
    assert rules == a + b;
    AwardedAppend(a, b);
    AwardedOnly(a, i);
    AwardedOnly(b, 0);
  }

  lemma AwardedFour(u: seq<Rule>, f: seq<Rule>, y: seq<Rule>, l: seq<Rule>)
    ensures Awarded(u + (f + y + l)) == Awarded(u) + Awarded(f) + Awarded(y) + Awarded(l)
  {
    AwardedAppend(u, f + y + l);
    AwardedAppend(f + y, l);
    AwardedAppend(f, y);
  }

  lemma AwardedOne(r: Rule)
    ensures Awarded([r]) == if r.holds then [r.award] else []
  {
    assert [r][1..] == [];
  }

  /** The yaku of a standard reading, part by part: the universal rules,
      tanyao, the yakuhai, then the rest. */
  lemma StandardYaku(p: int, ms: seq<Meld>, tiles: seq<int>, ctx: Context, win: int, t: Tests)
    requires StandardTests(p, ms, tiles, ctx, win) == t
    ensures YakuFor(Standard(p, ms), tiles, ctx, win)
      == Awarded(UniversalRules(tiles, ctx)) + (if t.tanyao then [Award(Tanyao, 1)] else [])
         + Awarded(YakuhaiRules(ms, ctx)) + Awarded(LaterRules(t, ctx.isMenzen))
  {
    var first := [Rule(t.tanyao, Award(Tanyao, 1))];
    var u, y, l := UniversalRules(tiles, ctx), YakuhaiRules(ms, ctx), LaterRules(t, ctx.isMenzen);
    assert StandardRules(t, ms, ctx) == first + y + l;
    assert RulesFor(Standard(p, ms), tiles, ctx, win) == u + StandardRules(t, ms, ctx);
    AwardedFour(u, first, y, l);
    AwardedOne(first[0]);
  }

  /** The parsed hand holds the codes of its names. */
  /** The tests of a reading, one outcome at a time. */
  lemma TestsOf(p: int, ms: seq<Meld>, tiles: seq<int>, ctx: Context, win: int, t: Tests)
    requires CheckTanyao(tiles) == t.tanyao && CheckPinfuStructure(p, ms, ctx) == t.pinfu
    requires CheckToitoi(ms) == t.toitoi && CheckSanankou(ms, win, ctx.isTsumo) == t.sanankou
    requires CheckSanshoku(ms) == t.sanshoku && CheckSanshokuDouko(ms) == t.sanshokuDouko
    requires CheckItsu(ms) == t.itsu && CheckRyanpeiko(ms) == t.ryanpeiko && CheckIppeiko(ms) == t.ippeiko
    requires CheckHonroutou(tiles) == t.honroutou && CheckJunchan(ms, p) == t.junchan
    requires CheckChanta(ms, p) == t.chanta && CheckShosangen(ms, p) == t.shosangen
    ensures StandardTests(p, ms, tiles, ctx, win) == t
  {
  }

  lemma ParsedMembers(hand: seq<string>, cs: seq<int>)
    requires Codes(hand) == cs
    ensures forall x :: x in Parse(hand) <==> x in cs
  {
    forall x ensures x in Parse(hand) <==> x in cs {
      assert x in Parse(hand) <==> x in multiset(Parse(hand));
      assert x in cs <==> x in multiset(cs);
    }
  }

  /** The tile tests see only which codes occur. */
  lemma SameTileTests(a: seq<int>, b: seq<int>)
    requires forall x :: x in a <==> x in b
    ensures CheckTanyao(a) == CheckTanyao(b) && CheckHonroutou(a) == CheckHonroutou(b)
    ensures SuitsUsed(a) == SuitsUsed(b) && AnyHonour(a) == AnyHonour(b)
  {
  }

  /** A number tile that is not a terminal. */
  predicate Inner(c: int) {
    2 <= c <= 8 || 12 <= c <= 18 || 22 <= c <= 28
  }

  lemma InnerIsSimple(c: int)
    requires Inner(c)
    ensures !IsTerminalOrHonor(c)
  {
    forall i | 0 <= i < |Terminals| ensures Terminals[i] != c {
    }
  }

  /** A hand of inner tiles only passes tanyao and fails honroutou. */
  lemma InnerHand(hand: seq<string>, cs: seq<int>)
    requires Codes(hand) == cs && cs != []
    requires forall i :: 0 <= i < |cs| ==> Inner(cs[i])
    ensures CheckTanyao(Parse(hand)) && !CheckHonroutou(Parse(hand))
  {
    ParsedMembers(hand, cs);
    var p := Parse(hand);
    forall t | t in p ensures !IsTerminalOrHonor(t) {
      var i :| 0 <= i < |cs| && cs[i] == t;
      InnerIsSimple(t);
    }
    assert cs[0] in p;
  }

  /** A hand with both a terminal or honour and an inner tile fails both
      tanyao and honroutou. */
  lemma MixedHand(hand: seq<string>, cs: seq<int>, i: int, j: int)
    requires Codes(hand) == cs && 0 <= i < |cs| && 0 <= j < |cs|
    requires IsTerminalOrHonor(cs[i]) && Inner(cs[j])
    ensures !CheckTanyao(Parse(hand)) && !CheckHonroutou(Parse(hand))
  {
    ParsedMembers(hand, cs);
    assert cs[i] in Parse(hand) && cs[j] in Parse(hand);
    InnerIsSimple(cs[j]);
  }

  lemma SuitWitness(p: seq<int>, x: int, lo: int, hi: int)
    requires x in p && lo <= x <= hi
    ensures AnyIn(p, lo, hi)
  {
  }

  /** A hand with a tile of each number suit uses three suits. */
  lemma ThreeSuitHand(hand: seq<string>, cs: seq<int>, i: int, j: int, k: int)
    requires Codes(hand) == cs && 0 <= i < |cs| && 0 <= j < |cs| && 0 <= k < |cs|
    requires 1 <= cs[i] <= 9 && 11 <= cs[j] <= 19 && 21 <= cs[k] <= 29
    ensures SuitsUsed(Parse(hand)) == 3
  {
    ParsedMembers(hand, cs);
    var p := Parse(hand);
    assert cs[i] in cs && cs[j] in cs && cs[k] in cs;
    SuitWitness(p, cs[i], 1, 9);
    SuitWitness(p, cs[j], 11, 19);
    SuitWitness(p, cs[k], 21, 29);
  }

  /** A hand of manzu alone uses one suit and no honour. */
  lemma ManzuHand(hand: seq<string>, cs: seq<int>)
    requires Codes(hand) == cs && cs != []
    requires forall i :: 0 <= i < |cs| ==> 1 <= cs[i] <= 9
    ensures SuitsUsed(Parse(hand)) == 1 && !AnyHonour(Parse(hand))
  {
    ParsedMembers(hand, cs);
    SameTileTests(Parse(hand), cs);
    assert cs[0] in cs;
  }

  /** A run of inner tiles among the melds: neither junchan nor chanta. */
  lemma InnerRun(melds: seq<Meld>, pair: int, i: int)
    requires 0 <= i < |melds| && melds[i].Shuntsu? && Inner(melds[i].first) && Inner(melds[i].first + 2)
    ensures !CheckJunchan(melds, pair) && !CheckChanta(melds, pair)
  {
    var f := melds[i].first;
    InnerIsSimple(f);
    InnerIsSimple(f + 1);
    InnerIsSimple(f + 2);
    assert melds[i] in melds;
  }

  /** No run of 1..7 recurs ten and twenty higher: no sanshoku. */
  lemma NoSanshokuIn(melds: seq<Meld>)
    requires forall b :: 1 <= b <= 7 && Shuntsu(b) in melds ==> !(Shuntsu(b + 10) in melds && Shuntsu(b + 20) in melds)
    ensures !CheckSanshoku(melds)
  {
  }

  /** The runs of some `b`, `b + 10` and `b + 20`: sanshoku. */
  lemma SanshokuIn(melds: seq<Meld>, b: int)
    requires RunColoursAt(melds, b)
    ensures CheckSanshoku(melds)
  {
  }

  /** No suit holds all of its runs 1-2-3, 4-5-6 and 7-8-9: no itsu. */
  lemma NoItsuIn(melds: seq<Meld>)
    requires !(Shuntsu(1) in melds && Shuntsu(4) in melds && Shuntsu(7) in melds)
    requires !(Shuntsu(11) in melds && Shuntsu(14) in melds && Shuntsu(17) in melds)
    requires !(Shuntsu(21) in melds && Shuntsu(24) in melds && Shuntsu(27) in melds)
    ensures !CheckItsu(melds)
  {
  }

  /** All three runs of the suit starting after `base`: itsu. */
  lemma ItsuIn(melds: seq<Meld>, base: int)
    requires StraightAt(melds, base)
    ensures CheckItsu(melds)
  {
  }

  /** No triplet recurs ten and twenty higher: no sanshoku douko. */
  lemma NoDoukoIn(melds: seq<Meld>)
    requires forall b :: 1 <= b <= 9 && Koutsu(b) in melds ==> !(Koutsu(b + 10) in melds && Koutsu(b + 20) in melds)
    ensures !CheckSanshokuDouko(melds)
  {
  }

  /** Melds that are pairwise different hold each meld at most once. */
  lemma {:induction false} DistinctOnce(melds: seq<Meld>, m: Meld)
    requires forall i, j :: 0 <= i < j < |melds| ==> melds[i] != melds[j]
    ensures multiset(melds)[m] <= 1
  {
    if melds != [] {
      assert melds == [melds[0]] + melds[1..];
      DistinctOnce(melds[1..], m);
      if m == melds[0] {
        assert m !in melds[1..];
      }
    }
  }

  /** Pairwise different melds repeat no run: neither peiko. */
  lemma NoPeikoIn(melds: seq<Meld>)
    requires forall i, j :: 0 <= i < j < |melds| ==> melds[i] != melds[j]
    ensures !CheckIppeiko(melds) && !CheckRyanpeiko(melds)
  {
    if CheckIppeiko(melds) {
      var x :| multiset(melds)[Shuntsu(x)] >= 2;
      DistinctOnce(melds, Shuntsu(x));
    }
    if CheckRyanpeiko(melds) {
      RyanpeikoHasIppeiko(melds);
    }
  }

  /** One run twice beside two other melds: ippeiko, not ryanpeiko. */
  lemma OnePeiko(m: Meld, n: Meld, o: Meld)
    requires m.Shuntsu? && m != n && m != o && n != o
    ensures CheckIppeiko([m, m, n, o]) && !CheckRyanpeiko([m, m, n, o])
  {
    var melds := [m, m, n, o];
    assert multiset(melds)[Shuntsu(m.first)] >= 2;
    RyanpeikoIff(melds);
    forall a | multiset(melds)[Shuntsu(a)] >= 2 ensures Shuntsu(a) == m {
      OnlyTwice(m, n, o, Shuntsu(a));
    }
  }

  lemma OnlyTwice(m: Meld, n: Meld, o: Meld, x: Meld)
    requires m != n && m != o && n != o && multiset([m, m, n, o])[x] >= 2
    ensures x == m
  {
    assert multiset([m, m, n, o]) == multiset{m, m} + multiset{n} + multiset{o};
  }

  /** A ron by a closed hand without reach: the universal rules award the
      flush alone. */
  lemma UniversalOfRon(tiles: seq<int>, ctx: Context)
    requires !ctx.isReach && !ctx.isTsumo && ctx.isMenzen
    ensures Awarded(UniversalRules(tiles, ctx))
      == (if SuitsUsed(tiles) == 1 && !AnyHonour(tiles) then [Award(Chinitsu, 6)] else [])
         + (if SuitsUsed(tiles) == 1 && AnyHonour(tiles) then [Award(Honitsu, 3)] else [])
  {
    var r := [Rule(false, Award(Reach, 1)), Rule(false, Award(MenzenTsumo, 1))];
    assert UniversalRules(tiles, ctx) == r + FlushRules(tiles, true);
    AwardedAppend(r, FlushRules(tiles, true));
    assert Awarded(r) == [] by {
      assert r[1..][1..] == [];
    }
    var f := FlushRules(tiles, true);
    assert Awarded(f) == (if f[0].holds then [f[0].award] else []) + (if f[1].holds then [f[1].award] else []) by {
      assert f[1..][1..] == [];
    }
  }

  /** A ron by a closed hand of one suit without honours, without reach:
      the universal rules award chinitsu alone. */
  lemma ChinitsuOfRon(tiles: seq<int>, ctx: Context)
    requires !ctx.isReach && !ctx.isTsumo && ctx.isMenzen && SuitsUsed(tiles) == 1 && !AnyHonour(tiles)
    ensures Awarded(UniversalRules(tiles, ctx)) == [Award(Chinitsu, 6)]
  {
    UniversalOfRon(tiles, ctx);
  }

  lemma HanTwo(a: Award, b: Award)
    ensures Han([a, b]) == a.han + b.han
  {
    assert [a, b][1..] == [b];
    assert [b][1..] == [];
    assert Han([b]) == b.han + Han([]);
  }

  /** A ron by a closed hand of more than one suit, without reach: the
      universal rules award nothing. */
  lemma NoFlushOfRon(tiles: seq<int>, ctx: Context)
    requires !ctx.isReach && !ctx.isTsumo && ctx.isMenzen && SuitsUsed(tiles) != 1
    ensures Awarded(UniversalRules(tiles, ctx)) == []
  {
    UniversalOfRon(tiles, ctx);
  }

  /** The checker of a test: a ron with the winning tile `win`, closed, no
      reach, east round and east seat. */
  function RonContext(win: string): Context {
    Context(win, false, false, "east", "east", true)
  }

  /** What the yaku tests read of such a checker. */
  predicate EastRon(ctx: Context) {
    !ctx.isReach && !ctx.isTsumo && ctx.isMenzen
      && WindCode(ctx.bakaze) == Some(31) && WindCode(ctx.jikaze) == Some(31)
  }

  lemma RonContextEast(win: string)
    ensures EastRon(RonContext(win))
  {
  }

  lemma RonWinCode(win: string, c: int)
    requires Code(win) == Some(c)
    ensures WinCode(RonContext(win)) == c
  {
  }

  /** Runs alone: no triplet test passes. */
  lemma RunsOnly(melds: seq<Meld>, win: int, isTsumo: bool)
    requires melds != [] && forall i :: 0 <= i < |melds| ==> melds[i].Shuntsu?
    ensures AllRuns(melds) && !CheckToitoi(melds)
    ensures !CheckSanshokuDouko(melds) && !CheckSanankou(melds, win, isTsumo)
  {
    assert melds[0] in melds;
    NoConcealedTriplets(melds, win, isTsumo);
  }

  lemma {:induction false} NoConcealedTriplets(melds: seq<Meld>, win: int, isTsumo: bool)
    requires forall i :: 0 <= i < |melds| ==> melds[i].Shuntsu?
    ensures ConcealedTriplets(melds, win, isTsumo) == 0
  {
    if melds != [] {
      NoConcealedTriplets(melds[1..], win, isTsumo);
    }
  }

  /** A number tile heads no yakuhai pair: with runs alone the reading has
      pinfu's shape. */
  lemma PinfuShape(pair: int, melds: seq<Meld>, ctx: Context)
    requires AllRuns(melds) && EastRon(ctx) && pair < 30
    ensures CheckPinfuStructure(pair, melds, ctx) && !CheckShosangen(melds, pair)
  {
    forall i | 0 <= i < |Dragons| ensures Dragons[i] != pair {
    }
  }

  /** Rules none of whose tests pass award nothing. */
  lemma {:induction false} AwardedNone(rules: seq<Rule>)
    requires forall i :: 0 <= i < |rules| ==> !rules[i].holds
    ensures Awarded(rules) == []
  {
    if rules != [] {
      AwardedNone(rules[1..]);
    }
  }

  /** No triplet of a dragon or of the round or seat wind: no yakuhai. */
  lemma {:induction false} NoYakuhaiIn(melds: seq<Meld>, ctx: Context)
    requires forall m :: m in melds && m.Koutsu? ==>
      m.tile != 41 && m.tile != 43 && m.tile != 45
      && WindCode(ctx.bakaze) != Some(m.tile) && WindCode(ctx.jikaze) != Some(m.tile)
    ensures Awarded(YakuhaiRules(melds, ctx)) == []
  {
    if melds != [] {
      assert melds[0] in melds;
      assert forall m :: m in melds[1..] ==> m in melds;
      NoYakuhaiIn(melds[1..], ctx);
      if melds[0].Koutsu? {
        var r := TripletRules(melds[0].tile, ctx);
        AwardedNone(r);
        AwardedAppend(r, YakuhaiRules(melds[1..], ctx));
      } else {
        assert YakuhaiRules(melds, ctx) == YakuhaiRules(melds[1..], ctx);
      }
    }
  }

  /** At most one meld is a triplet: at most one concealed triplet, so no
      sanankou. */
  lemma {:induction false} OneTripletAt(melds: seq<Meld>, i: int, win: int, isTsumo: bool)
    requires 0 <= i < |melds|
    requires forall j :: 0 <= j < |melds| && j != i ==> melds[j].Shuntsu?
    ensures ConcealedTriplets(melds, win, isTsumo) <= 1 && !CheckSanankou(melds, win, isTsumo)
  {
    if i == 0 {
      NoConcealedTriplets(melds[1..], win, isTsumo);
    } else {
      OneTripletAt(melds[1..], i - 1, win, isTsumo);
    }
  }

  /** A head that is no honour: no shosangen. */
  lemma NumberHead(melds: seq<Meld>, pair: int)
    requires pair < 30
    ensures !CheckShosangen(melds, pair)
  {
    forall i | 0 <= i < |Dragons| ensures Dragons[i] != pair {
    }
  }

  /** Runs alone: no yakuhai. */
  lemma RunsNoYakuhai(melds: seq<Meld>, ctx: Context)
    requires AllRuns(melds)
    ensures Awarded(YakuhaiRules(melds, ctx)) == []
  {
    NoYakuhaiIn(melds, ctx);
  }

  // ---------------------------------------------------------------------
  // test_tanyao_pinfu

  /** 234m 456p 678s 345m and the pair 2s, won on 2m. */
  const TanyaoPinfuHand := ["2m", "3m", "4m", "4p", "5p", "6p", "6s", "7s", "8s", "3m", "4m", "5m", "2s", "2s"]

  lemma TanyaoPinfuCodes()
    ensures Codes(TanyaoPinfuHand) == [2, 3, 4, 14, 15, 16, 26, 27, 28, 3, 4, 5, 22, 22]
  {
    CodesOf(TanyaoPinfuHand, [2, 3, 4, 14, 15, 16, 26, 27, 28, 3, 4, 5, 22, 22]);
  }

  lemma TanyaoPinfuTiles()
    ensures TilesOf([2, 3, 4, 14, 15, 16, 26, 27, 28, 3, 4, 5, 22, 22], 22,
                    [Shuntsu(2), Shuntsu(14), Shuntsu(26), Shuntsu(3)])
  {
    assert [2, 3, 4, 14, 15, 16, 26, 27, 28, 3, 4, 5, 22, 22]
      == Flatten([Shuntsu(2), Shuntsu(14), Shuntsu(26), Shuntsu(3)]) + [22, 22];
  }

  lemma TanyaoPinfuLeadOrder()
    ensures InLeadOrder([Shuntsu(2), Shuntsu(14), Shuntsu(26), Shuntsu(3)],
                        [Shuntsu(2), Shuntsu(3), Shuntsu(14), Shuntsu(26)])
  {
    assert Ordered([Shuntsu(2), Shuntsu(3), Shuntsu(14), Shuntsu(26)]);
  }

  /** The hand reads as the head 2s and four runs. */
  lemma TanyaoPinfuReading()
    ensures Standard(22, [Shuntsu(2), Shuntsu(3), Shuntsu(14), Shuntsu(26)]) in Decompose(TanyaoPinfuHand)
  {
    TanyaoPinfuCodes();
    TanyaoPinfuTiles();
    TanyaoPinfuLeadOrder();
    InOrder([2, 3, 4, 14, 15, 16, 26, 27, 28, 3, 4, 5, 22, 22], 22, [Shuntsu(2), Shuntsu(14), Shuntsu(26), Shuntsu(3)]);
    WinsAs(TanyaoPinfuHand, [2, 3, 4, 14, 15, 16, 26, 27, 28, 3, 4, 5, 22, 22], 22,
      [Shuntsu(2), Shuntsu(14), Shuntsu(26), Shuntsu(3)], [Shuntsu(2), Shuntsu(3), Shuntsu(14), Shuntsu(26)]);
  }

  lemma TanyaoPinfuSimples()
    ensures CheckTanyao(Parse(TanyaoPinfuHand)) && !CheckHonroutou(Parse(TanyaoPinfuHand))
  {
    TanyaoPinfuCodes();
    InnerHand(TanyaoPinfuHand, [2, 3, 4, 14, 15, 16, 26, 27, 28, 3, 4, 5, 22, 22]);
  }

  lemma TanyaoPinfuSuits()
    ensures SuitsUsed(Parse(TanyaoPinfuHand)) == 3
  {
    TanyaoPinfuCodes();
    ThreeSuitHand(TanyaoPinfuHand, [2, 3, 4, 14, 15, 16, 26, 27, 28, 3, 4, 5, 22, 22], 0, 3, 6);
  }

  const TanyaoPinfuMelds := [Shuntsu(2), Shuntsu(3), Shuntsu(14), Shuntsu(26)]

  lemma TanyaoPinfuRuns()
    ensures AllRuns(TanyaoPinfuMelds) && !CheckToitoi(TanyaoPinfuMelds)
    ensures !CheckSanshokuDouko(TanyaoPinfuMelds) && !CheckSanankou(TanyaoPinfuMelds, 2, false)
  {
    RunsOnly(TanyaoPinfuMelds, 2, false);
  }

  lemma TanyaoPinfuShape(ctx: Context)
    requires EastRon(ctx)
    ensures CheckPinfuStructure(22, TanyaoPinfuMelds, ctx) && !CheckShosangen(TanyaoPinfuMelds, 22)
  {
    TanyaoPinfuRuns();
    PinfuShape(22, TanyaoPinfuMelds, ctx);
  }

  lemma TanyaoPinfuNoSanshoku()
    ensures !CheckSanshoku(TanyaoPinfuMelds)
  {
    NoSanshokuIn(TanyaoPinfuMelds);
  }

  lemma TanyaoPinfuNoItsu()
    ensures !CheckItsu(TanyaoPinfuMelds)
  {
    NoItsuIn(TanyaoPinfuMelds);
  }

  lemma TanyaoPinfuNoPeiko()
    ensures !CheckRyanpeiko(TanyaoPinfuMelds) && !CheckIppeiko(TanyaoPinfuMelds)
  {
    NoPeikoIn(TanyaoPinfuMelds);
  }

  lemma TanyaoPinfuNoChanta()
    ensures !CheckJunchan(TanyaoPinfuMelds, 22) && !CheckChanta(TanyaoPinfuMelds, 22)
  {
  }

  lemma TanyaoPinfuTests(tiles: seq<int>, ctx: Context)
    requires CheckTanyao(tiles) && !CheckHonroutou(tiles) && EastRon(ctx)
    ensures StandardTests(22, TanyaoPinfuMelds, tiles, ctx, 2)
      == Tests(true, true, false, false, false, false, false, false, false, false, false, false, false)
  {
    TanyaoPinfuRuns();
    TanyaoPinfuShape(ctx);
    TanyaoPinfuNoSanshoku();
    TanyaoPinfuNoItsu();
    TanyaoPinfuNoPeiko();
    TanyaoPinfuNoChanta();
  }

  lemma TanyaoPinfuNoYakuhai(ctx: Context)
    ensures Awarded(YakuhaiRules(TanyaoPinfuMelds, ctx)) == []
  {
    TanyaoPinfuRuns();
    RunsNoYakuhai(TanyaoPinfuMelds, ctx);
  }

  lemma TanyaoPinfuLater()
    ensures Awarded(LaterRules(Tests(true, true, false, false, false, false, false, false, false, false, false, false, false), true))
      == [Award(Pinfu, 1)]
  {
  }

  lemma TanyaoPinfuJoin()
    ensures [] + [Award(Tanyao, 1)] + [] + [Award(Pinfu, 1)] == [Award(Tanyao, 1), Award(Pinfu, 1)]
  {
  }

  /** The awards of the reading, for any parsed hand that passes tanyao and
      uses all three suits, won by ron in the east round and seat. */
  lemma TanyaoPinfuAwards(tiles: seq<int>, ctx: Context)
    requires CheckTanyao(tiles) && !CheckHonroutou(tiles) && SuitsUsed(tiles) == 3 && EastRon(ctx)
    ensures YakuFor(Standard(22, TanyaoPinfuMelds), tiles, ctx, 2) == [Award(Tanyao, 1), Award(Pinfu, 1)]
  {
    var t := Tests(true, true, false, false, false, false, false, false, false, false, false, false, false);
    TanyaoPinfuTests(tiles, ctx);
    NoFlushOfRon(tiles, ctx);
    TanyaoPinfuNoYakuhai(ctx);
    TanyaoPinfuLater();
    StandardYaku(22, TanyaoPinfuMelds, tiles, ctx, 2, t);
    TanyaoPinfuJoin();
  }

  lemma TanyaoPinfuHandAwards()
    ensures YakuFor(Standard(22, TanyaoPinfuMelds), Parse(TanyaoPinfuHand), RonContext("2m"), WinCode(RonContext("2m")))
      == [Award(Tanyao, 1), Award(Pinfu, 1)]
  {
    TanyaoPinfuSimples();
    TanyaoPinfuSuits();
    RonContextEast("2m");
    assert WinCode(RonContext("2m")) == 2;
    TanyaoPinfuAwards(Parse(TanyaoPinfuHand), RonContext("2m"));
  }

  /** The reading earns tanyao and pinfu, two han, as the test expects. */
  lemma TanyaoPinfuYaku()
    ensures var s := Standard(22, TanyaoPinfuMelds);
      var awards := YakuFor(s, Parse(TanyaoPinfuHand), RonContext("2m"), WinCode(RonContext("2m")));
      s in Decompose(TanyaoPinfuHand) && awards == [Award(Tanyao, 1), Award(Pinfu, 1)] && Han(awards) == 2
  {
    TanyaoPinfuReading();
    TanyaoPinfuHandAwards();
    HanTwo(Award(Tanyao, 1), Award(Pinfu, 1));
  }

  // ---------------------------------------------------------------------
  // test_chinitsu_itsu_pinfu_ippeiko

  /** 123m twice, 456m, 789m and the pair 9m, won on 9m. */
  const RunningFlushHand := ["1m", "1m", "2m", "2m", "3m", "3m", "4m", "5m", "6m", "7m", "8m", "9m", "9m", "9m"]

  const RunningFlushMelds := [Shuntsu(1), Shuntsu(1), Shuntsu(4), Shuntsu(7)]

  /** Codes whose leading block holds what `y` does, in another order. */
  lemma Regrouped(cs: seq<int>, x: seq<int>, y: seq<int>, rest: seq<int>, p: int, ns: seq<Meld>)
    requires cs == x + rest && multiset(x) == multiset(y) && TilesOf(y + rest, p, ns)
    ensures HoldsTiles(cs, p, ns)
  {
    assert multiset(x + rest) == multiset(x) + multiset(rest);
    assert multiset(y + rest) == multiset(y) + multiset(rest);
  }

  lemma RunningFlushCodes()
    ensures Codes(RunningFlushHand) == [1, 1, 2, 2, 3, 3, 4, 5, 6, 7, 8, 9, 9, 9]
  {
    CodesOf(RunningFlushHand, [1, 1, 2, 2, 3, 3, 4, 5, 6, 7, 8, 9, 9, 9]);
  }

  lemma RunningFlushTiles()
    ensures TilesOf([1, 2, 3, 1, 2, 3] + [4, 5, 6, 7, 8, 9, 9, 9], 9, RunningFlushMelds)
  {
    assert [1, 2, 3, 1, 2, 3] + [4, 5, 6, 7, 8, 9, 9, 9] == Flatten(RunningFlushMelds) + [9, 9];
  }

  lemma RunningFlushSplit()
    ensures [1, 1, 2, 2, 3, 3, 4, 5, 6, 7, 8, 9, 9, 9] == [1, 1, 2, 2, 3, 3] + [4, 5, 6, 7, 8, 9, 9, 9]
  {
  }

  lemma RunningFlushRegroup()
    ensures multiset([1, 1, 2, 2, 3, 3]) == multiset([1, 2, 3, 1, 2, 3])
  {
  }

  lemma RunningFlushHolds()
    ensures HoldsTiles([1, 1, 2, 2, 3, 3, 4, 5, 6, 7, 8, 9, 9, 9], 9, RunningFlushMelds)
  {
    RunningFlushTiles();
    RunningFlushRegroup();
    RunningFlushSplit();
    Regrouped([1, 1, 2, 2, 3, 3, 4, 5, 6, 7, 8, 9, 9, 9], [1, 1, 2, 2, 3, 3], [1, 2, 3, 1, 2, 3],
      [4, 5, 6, 7, 8, 9, 9, 9], 9, RunningFlushMelds);
  }

  lemma RunningFlushLeadOrder()
    ensures InLeadOrder(RunningFlushMelds, RunningFlushMelds)
  {
    assert Ordered(RunningFlushMelds);
  }

  /** The hand reads as the head 9m, the run 1-2-3 twice, 4-5-6 and 7-8-9. */
  lemma RunningFlushReading()
    ensures Standard(9, RunningFlushMelds) in Decompose(RunningFlushHand)
  {
    RunningFlushCodes();
    RunningFlushHolds();
    RunningFlushLeadOrder();
    WinsAs(RunningFlushHand, [1, 1, 2, 2, 3, 3, 4, 5, 6, 7, 8, 9, 9, 9], 9, RunningFlushMelds, RunningFlushMelds);
  }

  lemma RunningFlushMixed()
    ensures !CheckTanyao(Parse(RunningFlushHand)) && !CheckHonroutou(Parse(RunningFlushHand))
  {
    RunningFlushCodes();
    MixedHand(RunningFlushHand, [1, 1, 2, 2, 3, 3, 4, 5, 6, 7, 8, 9, 9, 9], 0, 2);
  }

  lemma RunningFlushOneSuit()
    ensures SuitsUsed(Parse(RunningFlushHand)) == 1 && !AnyHonour(Parse(RunningFlushHand))
  {
    RunningFlushCodes();
    ManzuHand(RunningFlushHand, [1, 1, 2, 2, 3, 3, 4, 5, 6, 7, 8, 9, 9, 9]);
  }

  lemma RunningFlushRuns()
    ensures AllRuns(RunningFlushMelds) && !CheckToitoi(RunningFlushMelds)
    ensures !CheckSanshokuDouko(RunningFlushMelds) && !CheckSanankou(RunningFlushMelds, 9, false)
  {
    RunsOnly(RunningFlushMelds, 9, false);
  }

  lemma RunningFlushShape(ctx: Context)
    requires EastRon(ctx)
    ensures CheckPinfuStructure(9, RunningFlushMelds, ctx) && !CheckShosangen(RunningFlushMelds, 9)
  {
    RunningFlushRuns();
    PinfuShape(9, RunningFlushMelds, ctx);
  }

  lemma RunningFlushNoSanshoku()
    ensures !CheckSanshoku(RunningFlushMelds)
  {
    NoSanshokuIn(RunningFlushMelds);
  }

  lemma RunningFlushItsu()
    ensures CheckItsu(RunningFlushMelds)
  {
    ItsuIn(RunningFlushMelds, 0);
  }

  lemma RunningFlushPeiko()
    ensures CheckIppeiko(RunningFlushMelds) && !CheckRyanpeiko(RunningFlushMelds)
  {
    OnePeiko(Shuntsu(1), Shuntsu(4), Shuntsu(7));
  }

  lemma RunningFlushNoChanta()
    ensures !CheckJunchan(RunningFlushMelds, 9) && !CheckChanta(RunningFlushMelds, 9)
  {
    InnerRun(RunningFlushMelds, 9, 2);
  }

  lemma RunningFlushTests(tiles: seq<int>, ctx: Context)
    requires !CheckTanyao(tiles) && !CheckHonroutou(tiles) && EastRon(ctx)
    ensures StandardTests(9, RunningFlushMelds, tiles, ctx, 9)
      == Tests(false, true, false, false, false, false, true, false, true, false, false, false, false)
  {
    RunningFlushRuns();
    RunningFlushShape(ctx);
    RunningFlushNoSanshoku();
    RunningFlushItsu();
    RunningFlushPeiko();
    RunningFlushNoChanta();
  }

  lemma RunningFlushNoYakuhai(ctx: Context)
    ensures Awarded(YakuhaiRules(RunningFlushMelds, ctx)) == []
  {
    RunningFlushRuns();
    RunsNoYakuhai(RunningFlushMelds, ctx);
  }

  lemma RunningFlushLater()
    ensures Awarded(LaterRules(Tests(false, true, false, false, false, false, true, false, true, false, false, false, false), true))
      == [Award(Pinfu, 1), Award(Itsu, 2), Award(Ippeiko, 1)]
  {
  }

  lemma RunningFlushJoin()
    ensures [Award(Chinitsu, 6)] + [] + [] + [Award(Pinfu, 1), Award(Itsu, 2), Award(Ippeiko, 1)]
      == [Award(Chinitsu, 6), Award(Pinfu, 1), Award(Itsu, 2), Award(Ippeiko, 1)]
  {
  }

  /** The awards of the reading, for any parsed hand of one suit without
      honours that fails tanyao and honroutou, won by ron in the east round
      and seat. */
  lemma RunningFlushAwards(tiles: seq<int>, ctx: Context)
    requires !CheckTanyao(tiles) && !CheckHonroutou(tiles) && EastRon(ctx)
    requires SuitsUsed(tiles) == 1 && !AnyHonour(tiles)
    ensures YakuFor(Standard(9, RunningFlushMelds), tiles, ctx, 9)
      == [Award(Chinitsu, 6), Award(Pinfu, 1), Award(Itsu, 2), Award(Ippeiko, 1)]
  {
    var t := Tests(false, true, false, false, false, false, true, false, true, false, false, false, false);
    RunningFlushTests(tiles, ctx);
    ChinitsuOfRon(tiles, ctx);
    RunningFlushNoYakuhai(ctx);
    RunningFlushLater();
    StandardYaku(9, RunningFlushMelds, tiles, ctx, 9, t);
    RunningFlushJoin();
  }

  lemma RunningFlushWin()
    ensures WinCode(RonContext("9m")) == 9
  {
    RonWinCode("9m", 9);
  }

  lemma RunningFlushHandAwards()
    ensures YakuFor(Standard(9, RunningFlushMelds), Parse(RunningFlushHand), RonContext("9m"), WinCode(RonContext("9m")))
      == [Award(Chinitsu, 6), Award(Pinfu, 1), Award(Itsu, 2), Award(Ippeiko, 1)]
  {
    RunningFlushMixed();
    RunningFlushOneSuit();
    RonContextEast("9m");
    RunningFlushWin();
    RunningFlushAwards(Parse(RunningFlushHand), RonContext("9m"));
  }

  lemma HanFour(a: Award, b: Award, c: Award, d: Award)
    ensures Han([a, b, c, d]) == a.han + b.han + c.han + d.han
  {
    assert [a, b, c, d][1..] == [b, c, d];
    assert [b, c, d][1..] == [c, d];
    HanTwo(c, d);
  }

  /** The reading earns chinitsu, pinfu, itsu and ippeiko, ten han, as the
      test expects. */
  lemma RunningFlushYaku()
    ensures var s := Standard(9, RunningFlushMelds);
      var awards := YakuFor(s, Parse(RunningFlushHand), RonContext("9m"), WinCode(RonContext("9m")));
      s in Decompose(RunningFlushHand)
      && awards == [Award(Chinitsu, 6), Award(Pinfu, 1), Award(Itsu, 2), Award(Ippeiko, 1)] && Han(awards) == 10
  {
    RunningFlushReading();
    RunningFlushHandAwards();
    HanFour(Award(Chinitsu, 6), Award(Pinfu, 1), Award(Itsu, 2), Award(Ippeiko, 1));
  }

  // ---------------------------------------------------------------------
  // test_junchan_and_sanshoku

  /** 123m 123p 123s, a triplet of 9m and the pair 9p, won on 1m. */
  const JunchanSanshokuHand := ["1m", "2m", "3m", "1p", "2p", "3p", "1s", "2s", "3s", "9m", "9m", "9m", "9p", "9p"]

  const JunchanSanshokuMelds := [Shuntsu(1), Koutsu(9), Shuntsu(11), Shuntsu(21)]

  lemma JunchanSanshokuCodes()
    ensures Codes(JunchanSanshokuHand) == [1, 2, 3, 11, 12, 13, 21, 22, 23, 9, 9, 9, 19, 19]
  {
    CodesOf(JunchanSanshokuHand, [1, 2, 3, 11, 12, 13, 21, 22, 23, 9, 9, 9, 19, 19]);
  }

  lemma JunchanSanshokuTiles()
    ensures TilesOf([1, 2, 3, 11, 12, 13, 21, 22, 23, 9, 9, 9, 19, 19], 19,
                    [Shuntsu(1), Shuntsu(11), Shuntsu(21), Koutsu(9)])
  {
    assert [1, 2, 3, 11, 12, 13, 21, 22, 23, 9, 9, 9, 19, 19]
      == Flatten([Shuntsu(1), Shuntsu(11), Shuntsu(21), Koutsu(9)]) + [19, 19];
  }

  lemma JunchanSanshokuLeadOrder()
    ensures InLeadOrder([Shuntsu(1), Shuntsu(11), Shuntsu(21), Koutsu(9)], JunchanSanshokuMelds)
  {
    assert Ordered(JunchanSanshokuMelds);
  }

  /** The hand reads as the head 9p, the triplet 9m and the runs 1-2-3 of
      each suit. */
  lemma JunchanSanshokuReading()
    ensures Standard(19, JunchanSanshokuMelds) in Decompose(JunchanSanshokuHand)
  {
    JunchanSanshokuCodes();
    JunchanSanshokuTiles();
    JunchanSanshokuLeadOrder();
    InOrder([1, 2, 3, 11, 12, 13, 21, 22, 23, 9, 9, 9, 19, 19], 19, [Shuntsu(1), Shuntsu(11), Shuntsu(21), Koutsu(9)]);
    WinsAs(JunchanSanshokuHand, [1, 2, 3, 11, 12, 13, 21, 22, 23, 9, 9, 9, 19, 19], 19,
      [Shuntsu(1), Shuntsu(11), Shuntsu(21), Koutsu(9)], JunchanSanshokuMelds);
  }

  lemma JunchanSanshokuMixed()
    ensures !CheckTanyao(Parse(JunchanSanshokuHand)) && !CheckHonroutou(Parse(JunchanSanshokuHand))
  {
    JunchanSanshokuCodes();
    MixedHand(JunchanSanshokuHand, [1, 2, 3, 11, 12, 13, 21, 22, 23, 9, 9, 9, 19, 19], 0, 1);
  }

  lemma JunchanSanshokuSuits()
    ensures SuitsUsed(Parse(JunchanSanshokuHand)) == 3
  {
    JunchanSanshokuCodes();
    ThreeSuitHand(JunchanSanshokuHand, [1, 2, 3, 11, 12, 13, 21, 22, 23, 9, 9, 9, 19, 19], 0, 3, 6);
  }

  lemma JunchanSanshokuTriplets(isTsumo: bool)
    ensures !AllRuns(JunchanSanshokuMelds) && !CheckToitoi(JunchanSanshokuMelds)
    ensures !CheckSanankou(JunchanSanshokuMelds, 1, isTsumo) && !CheckSanshokuDouko(JunchanSanshokuMelds)
  {
    assert JunchanSanshokuMelds[0] in JunchanSanshokuMelds && JunchanSanshokuMelds[1] in JunchanSanshokuMelds;
    OneTripletAt(JunchanSanshokuMelds, 1, 1, isTsumo);
    NoDoukoIn(JunchanSanshokuMelds);
  }

  lemma JunchanSanshokuShape(ctx: Context)
    ensures !CheckPinfuStructure(19, JunchanSanshokuMelds, ctx) && !CheckShosangen(JunchanSanshokuMelds, 19)
  {
    JunchanSanshokuTriplets(ctx.isTsumo);
    NumberHead(JunchanSanshokuMelds, 19);
  }

  lemma JunchanSanshokuSanshoku()
    ensures CheckSanshoku(JunchanSanshokuMelds)
  {
    SanshokuIn(JunchanSanshokuMelds, 1);
  }

  lemma JunchanSanshokuNoItsu()
    ensures !CheckItsu(JunchanSanshokuMelds)
  {
    NoItsuIn(JunchanSanshokuMelds);
  }

  lemma JunchanSanshokuNoPeiko()
    ensures !CheckRyanpeiko(JunchanSanshokuMelds) && !CheckIppeiko(JunchanSanshokuMelds)
  {
    NoPeikoIn(JunchanSanshokuMelds);
  }

  lemma JunchanSanshokuEdges()
    ensures CheckJunchan(JunchanSanshokuMelds, 19) && CheckChanta(JunchanSanshokuMelds, 19)
  {
    assert Terminals[0] == 1 && Terminals[1] == 9 && Terminals[2] == 11 && Terminals[3] == 19 && Terminals[4] == 21;
    assert forall m :: m in JunchanSanshokuMelds ==> JunchanMeld(m);
    JunchanHasChanta(JunchanSanshokuMelds, 19);
  }

  lemma JunchanSanshokuTests(tiles: seq<int>, ctx: Context)
    requires !CheckTanyao(tiles) && !CheckHonroutou(tiles)
    ensures StandardTests(19, JunchanSanshokuMelds, tiles, ctx, 1)
      == Tests(false, false, false, false, true, false, false, false, false, false, true, true, false)
  {
    var t := Tests(false, false, false, false, true, false, false, false, false, false, true, true, false);
    JunchanSanshokuFacts(tiles, ctx);
    TestsOf(19, JunchanSanshokuMelds, tiles, ctx, 1, t);
  }

  lemma JunchanSanshokuFacts(tiles: seq<int>, ctx: Context)
    ensures !AllRuns(JunchanSanshokuMelds) && !CheckToitoi(JunchanSanshokuMelds)
    ensures !CheckSanankou(JunchanSanshokuMelds, 1, ctx.isTsumo) && !CheckSanshokuDouko(JunchanSanshokuMelds)
    ensures !CheckPinfuStructure(19, JunchanSanshokuMelds, ctx) && !CheckShosangen(JunchanSanshokuMelds, 19)
    ensures CheckSanshoku(JunchanSanshokuMelds) && !CheckItsu(JunchanSanshokuMelds)
    ensures !CheckRyanpeiko(JunchanSanshokuMelds) && !CheckIppeiko(JunchanSanshokuMelds)
    ensures CheckJunchan(JunchanSanshokuMelds, 19) && CheckChanta(JunchanSanshokuMelds, 19)
  {
    JunchanSanshokuTriplets(ctx.isTsumo);
    JunchanSanshokuShape(ctx);
    JunchanSanshokuSanshoku();
    JunchanSanshokuNoItsu();
    JunchanSanshokuNoPeiko();
    JunchanSanshokuEdges();
  }

  lemma JunchanSanshokuNoYakuhai(ctx: Context)
    requires EastRon(ctx)
    ensures Awarded(YakuhaiRules(JunchanSanshokuMelds, ctx)) == []
  {
    NoYakuhaiIn(JunchanSanshokuMelds, ctx);
  }

  lemma JunchanSanshokuLater()
    ensures Awarded(LaterRules(Tests(false, false, false, false, true, false, false, false, false, false, true, true, false), true))
      == [Award(Sanshoku, 2), Award(Junchan, 3)]
  {
    var r := LaterRules(Tests(false, false, false, false, true, false, false, false, false, false, true, true, false), true);
    AwardedPair(r, 3, 9);
  }

  lemma JunchanSanshokuJoin()
    ensures [] + [] + [] + [Award(Sanshoku, 2), Award(Junchan, 3)] == [Award(Sanshoku, 2), Award(Junchan, 3)]
  {
  }

  /** The awards of the reading, for any parsed hand of three suits that
      fails tanyao and honroutou, won by ron in the east round and seat. */
  lemma JunchanSanshokuAwards(tiles: seq<int>, ctx: Context)
    requires !CheckTanyao(tiles) && !CheckHonroutou(tiles) && SuitsUsed(tiles) == 3 && EastRon(ctx)
    ensures YakuFor(Standard(19, JunchanSanshokuMelds), tiles, ctx, 1) == [Award(Sanshoku, 2), Award(Junchan, 3)]
  {
    var t := Tests(false, false, false, false, true, false, false, false, false, false, true, true, false);
    JunchanSanshokuTests(tiles, ctx);
    NoFlushOfRon(tiles, ctx);
    JunchanSanshokuNoYakuhai(ctx);
    JunchanSanshokuLater();
    StandardYaku(19, JunchanSanshokuMelds, tiles, ctx, 1, t);
    JunchanSanshokuJoin();
  }

  lemma JunchanSanshokuWin()
    ensures WinCode(RonContext("1m")) == 1
  {
    RonWinCode("1m", 1);
  }

  lemma JunchanSanshokuHandAwards()
    ensures YakuFor(Standard(19, JunchanSanshokuMelds), Parse(JunchanSanshokuHand), RonContext("1m"), WinCode(RonContext("1m")))
      == [Award(Sanshoku, 2), Award(Junchan, 3)]
  {
    JunchanSanshokuMixed();
    JunchanSanshokuSuits();
    RonContextEast("1m");
    JunchanSanshokuWin();
    JunchanSanshokuAwards(Parse(JunchanSanshokuHand), RonContext("1m"));
  }

  /** The reading earns sanshoku and junchan, five han, as the test
      expects; pinfu fails on the triplet. */
  lemma JunchanSanshokuYaku()
    ensures var s := Standard(19, JunchanSanshokuMelds);
      var awards := YakuFor(s, Parse(JunchanSanshokuHand), RonContext("1m"), WinCode(RonContext("1m")));
      s in Decompose(JunchanSanshokuHand) && awards == [Award(Sanshoku, 2), Award(Junchan, 3)] && Han(awards) == 5
  {
    JunchanSanshokuReading();
    JunchanSanshokuHandAwards();
    HanTwo(Award(Sanshoku, 2), Award(Junchan, 3));
  }
}
