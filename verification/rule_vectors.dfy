/** The hands of `tests/test_rules.py`, stated about the model of
    `network_rules.py`: which of them win (and with which reading), which
    are ready, and which discard leaves a hand ready.  Each hand is a
    constant; a lemma per test states its outcome, with small lemmas
    beside it that fix the hand's codes and reading. */
module RuleVectors {
  import opened Seqs
  import opened Tiles
  import opened Melds
  import opened NetworkRules

  // ---------------------------------------------------------------------
  // Readings given meld by meld

  /** Well-formed melds, each lead at most the next, equal leads only for
      equal melds: checked neighbour by neighbour. */
  predicate Ordered(ms: seq<Meld>) {
    ms == [] || (WellFormed(ms[0]) &&
      (|ms| == 1 || ((ms[0].Lead() < ms[1].Lead() || ms[0] == ms[1]) && Ordered(ms[1..]))))
  }

  lemma {:induction false} OrderedLeads(ms: seq<Meld>)
    requires Ordered(ms)
    ensures AllWellFormed(ms) && LeadsAscending(ms) && LeadsDistinguish(ms)
    ensures ms != [] ==> forall i :: 0 <= i < |ms| ==>
      ms[0].Lead() <= ms[i].Lead() && (ms[0].Lead() == ms[i].Lead() ==> ms[i] == ms[0])
  {
    if |ms| > 1 {
      OrderedLeads(ms[1..]);
      forall i | 1 <= i < |ms| ensures ms[i] == ms[1..][i - 1] { }
    }
  }

  /** Codes `cs` are the tiles of the melds `ns` followed by the head pair
      `p, p`. */
  predicate TilesOf(cs: seq<int>, p: int, ns: seq<Meld>) {
    cs == Flatten(ns) + [p, p]
  }

  /** Codes `cs` are the tiles of the melds `ns` and the head pair `p, p`,
      in some order. */
  predicate HoldsTiles(cs: seq<int>, p: int, ns: seq<Meld>) {
    multiset(cs) == multiset(Flatten(ns) + [p, p])
  }

  lemma InOrder(cs: seq<int>, p: int, ns: seq<Meld>)
    requires TilesOf(cs, p, ns)
    ensures HoldsTiles(cs, p, ns)
  {
  }

  /** Codes listed as melds and head, up to one block moved: `a + b + c`
      holds what `a + c + b` does. */
  lemma Rearranged(cs: seq<int>, a: seq<int>, b: seq<int>, c: seq<int>, p: int, ns: seq<Meld>)
    requires cs == a + b + c && TilesOf(a + c + b, p, ns)
    ensures HoldsTiles(cs, p, ns)
  {
    assert multiset(a + b + c) == multiset(a) + multiset(b) + multiset(c);
    assert multiset(a + c + b) == multiset(a) + multiset(c) + multiset(b);
  }

  /** `ms` lists the four melds of `ns` in lead order. */
  predicate InLeadOrder(ns: seq<Meld>, ms: seq<Meld>) {
    |ms| == 4 && Ordered(ms) && multiset(ns) == multiset(ms)
  }

  /** The structure with head `p` and the melds `ns` in lead order holds
      the tiles `cs`. */
  lemma ReadingTiles(cs: seq<int>, p: int, ns: seq<Meld>, ms: seq<Meld>)
    requires HoldsTiles(cs, p, ns) && InLeadOrder(ns, ms)
    ensures multiset(StructureTiles(Standard(p, ms))) == multiset(cs)
  {
    FlattenPermutation(ns, ms);
    var pair, fn, fm := multiset([p, p]), multiset(Flatten(ns)), multiset(Flatten(ms));
    assert multiset(cs) == fn + pair;
    assert multiset(StructureTiles(Standard(p, ms))) == pair + fm;
  }

  /** A hand of fourteen names whose codes are the tiles of head `p` and
      the melds `ns` wins, and the reading with those melds in lead order
      is listed. */
  lemma WinsAs(hand: seq<string>, cs: seq<int>, p: int, ns: seq<Meld>, ms: seq<Meld>)
    requires |hand| == 14 && Codes(hand) == cs && HoldsTiles(cs, p, ns) && InLeadOrder(ns, ms)
    ensures Agari(hand) && Standard(p, ms) in Decompose(hand)
  {
    OrderedLeads(ms);
    ReadingTiles(cs, p, ns, ms);
    assert multiset(Parse(hand)) == multiset(cs);
    ReadingListed(hand, p, ms);
  }

  // ---------------------------------------------------------------------
  // test_agari_sequence_only

  /** 123m 456p 789s 123s and the pair 1m. */
  const SequenceOnly := ["1m", "2m", "3m", "4p", "5p", "6p", "7s", "8s", "9s", "1s", "2s", "3s", "1m", "1m"]

  lemma SequenceOnlyCodes()
    ensures Codes(SequenceOnly) == [1, 2, 3, 14, 15, 16, 27, 28, 29, 21, 22, 23, 1, 1]
  {
    CodesOf(SequenceOnly, [1, 2, 3, 14, 15, 16, 27, 28, 29, 21, 22, 23, 1, 1]);
  }

  lemma SequenceOnlyTiles()
    ensures TilesOf([1, 2, 3, 14, 15, 16, 27, 28, 29, 21, 22, 23, 1, 1], 1,
                    [Shuntsu(1), Shuntsu(14), Shuntsu(27), Shuntsu(21)])
  {
    assert [1, 2, 3, 14, 15, 16, 27, 28, 29, 21, 22, 23, 1, 1]
      == Flatten([Shuntsu(1), Shuntsu(14), Shuntsu(27), Shuntsu(21)]) + [1, 1];
  }

  lemma SequenceOnlyMelds()
    ensures InLeadOrder([Shuntsu(1), Shuntsu(14), Shuntsu(27), Shuntsu(21)],
                        [Shuntsu(1), Shuntsu(14), Shuntsu(21), Shuntsu(27)])
  {
    assert Ordered([Shuntsu(1), Shuntsu(14), Shuntsu(21), Shuntsu(27)]);
  }

  /** The hand wins, read as the head 1m and its four runs. */
  lemma SequenceOnlyWins()
    ensures Agari(SequenceOnly)
    ensures Standard(1, [Shuntsu(1), Shuntsu(14), Shuntsu(21), Shuntsu(27)]) in Decompose(SequenceOnly)
  {
    SequenceOnlyCodes();
    SequenceOnlyTiles();
    InOrder([1, 2, 3, 14, 15, 16, 27, 28, 29, 21, 22, 23, 1, 1], 1, [Shuntsu(1), Shuntsu(14), Shuntsu(27), Shuntsu(21)]);
    SequenceOnlyMelds();
    WinsAs(SequenceOnly, [1, 2, 3, 14, 15, 16, 27, 28, 29, 21, 22, 23, 1, 1], 1,
      [Shuntsu(1), Shuntsu(14), Shuntsu(27), Shuntsu(21)], [Shuntsu(1), Shuntsu(14), Shuntsu(21), Shuntsu(27)]);
  }

  // ---------------------------------------------------------------------
  // test_agari_triplet_only

  /** 111m 222p 333s 444s and the pair 5m. */
  const TripletOnly := ["1m", "1m", "1m", "2p", "2p", "2p", "3s", "3s", "3s", "4s", "4s", "4s", "5m", "5m"]

  lemma TripletOnlyCodes()
    ensures Codes(TripletOnly) == [1, 1, 1, 12, 12, 12, 23, 23, 23, 24, 24, 24, 5, 5]
  {
    CodesOf(TripletOnly, [1, 1, 1, 12, 12, 12, 23, 23, 23, 24, 24, 24, 5, 5]);
  }

  lemma TripletOnlyTiles()
    ensures TilesOf([1, 1, 1, 12, 12, 12, 23, 23, 23, 24, 24, 24, 5, 5], 5,
                    [Koutsu(1), Koutsu(12), Koutsu(23), Koutsu(24)])
  {
    assert [1, 1, 1, 12, 12, 12, 23, 23, 23, 24, 24, 24, 5, 5]
      == Flatten([Koutsu(1), Koutsu(12), Koutsu(23), Koutsu(24)]) + [5, 5];
  }

  lemma TripletOnlyMelds()
    ensures InLeadOrder([Koutsu(1), Koutsu(12), Koutsu(23), Koutsu(24)],
                        [Koutsu(1), Koutsu(12), Koutsu(23), Koutsu(24)])
  {
    assert Ordered([Koutsu(1), Koutsu(12), Koutsu(23), Koutsu(24)]);
  }

  /** The hand wins, read as the head 5m and its four triplets. */
  lemma TripletOnlyWins()
    ensures Agari(TripletOnly)
    ensures Standard(5, [Koutsu(1), Koutsu(12), Koutsu(23), Koutsu(24)]) in Decompose(TripletOnly)
  {
    TripletOnlyCodes();
    TripletOnlyTiles();
    InOrder([1, 1, 1, 12, 12, 12, 23, 23, 23, 24, 24, 24, 5, 5], 5, [Koutsu(1), Koutsu(12), Koutsu(23), Koutsu(24)]);
    TripletOnlyMelds();
    WinsAs(TripletOnly, [1, 1, 1, 12, 12, 12, 23, 23, 23, 24, 24, 24, 5, 5], 5,
      [Koutsu(1), Koutsu(12), Koutsu(23), Koutsu(24)], [Koutsu(1), Koutsu(12), Koutsu(23), Koutsu(24)]);
  }

  // ---------------------------------------------------------------------
  // test_agari_mixed

  /** 123m 555p 789s, a triplet of east and the pair white. */
  const Mixed := ["1m", "2m", "3m", "5p", "5p", "5p", "7s", "8s", "9s", "east", "east", "east", "white", "white"]

  lemma MixedCodes()
    ensures Codes(Mixed) == [1, 2, 3, 15, 15, 15, 27, 28, 29, 31, 31, 31, 41, 41]
  {
    CodesOf(Mixed, [1, 2, 3, 15, 15, 15, 27, 28, 29, 31, 31, 31, 41, 41]);
  }

  lemma MixedTiles()
    ensures TilesOf([1, 2, 3, 15, 15, 15, 27, 28, 29, 31, 31, 31, 41, 41], 41,
                    [Shuntsu(1), Koutsu(15), Shuntsu(27), Koutsu(31)])
  {
    assert [1, 2, 3, 15, 15, 15, 27, 28, 29, 31, 31, 31, 41, 41]
      == Flatten([Shuntsu(1), Koutsu(15), Shuntsu(27), Koutsu(31)]) + [41, 41];
  }

  lemma MixedMelds()
    ensures InLeadOrder([Shuntsu(1), Koutsu(15), Shuntsu(27), Koutsu(31)],
                        [Shuntsu(1), Koutsu(15), Shuntsu(27), Koutsu(31)])
  {
    assert Ordered([Shuntsu(1), Koutsu(15), Shuntsu(27), Koutsu(31)]);
  }

  /** The hand wins, read as the head white, two runs and two triplets. */
  lemma MixedWins()
    ensures Agari(Mixed)
    ensures Standard(41, [Shuntsu(1), Koutsu(15), Shuntsu(27), Koutsu(31)]) in Decompose(Mixed)
  {
    MixedCodes();
    MixedTiles();
    InOrder([1, 2, 3, 15, 15, 15, 27, 28, 29, 31, 31, 31, 41, 41], 41, [Shuntsu(1), Koutsu(15), Shuntsu(27), Koutsu(31)]);
    MixedMelds();
    WinsAs(Mixed, [1, 2, 3, 15, 15, 15, 27, 28, 29, 31, 31, 31, 41, 41], 41,
      [Shuntsu(1), Koutsu(15), Shuntsu(27), Koutsu(31)], [Shuntsu(1), Koutsu(15), Shuntsu(27), Koutsu(31)]);
  }

  // ---------------------------------------------------------------------
  // Facts about hands of distinct codes

  /** Codes that rise from each one to the next are strictly ascending. */
  lemma {:induction false} StepsUp(cs: seq<int>)
    requires forall i :: 0 <= i < |cs| - 1 ==> cs[i] < cs[i + 1]
    ensures StrictlySorted(cs)
  {
    if |cs| > 1 {
      var t := cs[1..];
      forall i | 0 <= i < |t| - 1 ensures t[i] < t[i + 1] {
        assert t[i] == cs[i + 1] && t[i + 1] == cs[i + 2];
      }
      StepsUp(t);
      forall i, j | 0 <= i < j < |cs| ensures cs[i] < cs[j] {
        if i == 0 {
          if j > 1 {
            assert t[0] < t[j - 1];
          }
        } else {
          assert t[i - 1] < t[j - 1];
        }
      }
    }
  }

  /** Parsing a hand whose codes are strictly ascending gives those codes. */
  lemma ParseAscending(hand: seq<string>, cs: seq<int>)
    requires Codes(hand) == cs && StrictlySorted(cs)
    ensures Parse(hand) == cs
  {
    SortedUnique(Parse(hand), cs);
  }

  /** Fourteen names with distinct codes never win: no code is held twice,
      so there is no head and no pair. */
  lemma DistinctCodesLose(hand: seq<string>, cs: seq<int>)
    requires |hand| == |cs| == 14 && Codes(hand) == cs && StrictlySorted(cs)
    ensures !Agari(hand) && Decompose(hand) == []
  {
    ParseAscending(hand, cs);
    forall t | t in cs ensures !HeadSolves(cs, t) {
      OnceInStrictlySorted(cs, t);
    }
    StrictlySortedUnique(SortedSet(cs), cs);
    AgariIffDecompose(hand);
  }

  /** A drawn name adds its code at the end. */
  lemma CodesDraw(hand: seq<string>, t: string)
    requires IsTileName(t)
    ensures Codes(hand + [t]) == Codes(hand) + [Code(t).value]
  {
    assert (hand + [t])[..|hand|] == hand;
  }

  /** The head chosen for a hand that holds `h` once cannot be `h`, and
      removing it leaves `h` held once: the remainder does not split. */
  lemma LoneHonourNoHead(tiles: seq<int>, h: int, x: int)
    requires forall y :: y in multiset(tiles) ==> IsCode(y)
    requires h >= 30 && multiset(tiles)[h] == 1
    ensures !HeadSolves(tiles, x)
  {
    if multiset(tiles)[x] >= 2 {
      var rest := WithoutHead(tiles, x);
      forall y | y in rest ensures IsCode(y) {
        assert y in multiset(rest);
      }
      LoneHonourBlocks(rest, h);
    }
  }

  /** Thirteen names with distinct codes among them east and south are not
      ready: whatever tile is drawn, one of the two winds is still held
      once, so neither a head with melds nor seven pairs can account for
      it. */
  lemma TwoLoneWindsNotReady(hand: seq<string>, cs: seq<int>)
    requires |hand| == 13 && Codes(hand) == cs && StrictlySorted(cs)
    requires 31 in cs && 33 in cs
    ensures !Ready(hand) && Waits(hand) == []
  {
    forall t | IsTileName(t) ensures !Agari(hand + [t]) {
      LoneWindAfterDraw(hand, cs, t);
    }
    ReadyIff(hand);
  }

  lemma LoneWindAfterDraw(hand: seq<string>, cs: seq<int>, t: string)
    requires Codes(hand) == cs && StrictlySorted(cs)
    requires 31 in cs && 33 in cs && IsTileName(t)
    ensures !Agari(hand + [t])
  {
    CodesDraw(hand, t);
    var c := Code(t).value;
    var tiles := Parse(hand + [t]);
    var h := if c == 31 then 33 else 31;
    OnceInStrictlySorted(cs, h);
    assert multiset(tiles) == multiset(cs) + multiset{c};
    LoneHonourLoses(tiles, h);
  }

  /** Codes that hold an honour once have no head and are not seven
      pairs. */
  lemma LoneHonourLoses(tiles: seq<int>, h: int)
    requires forall y :: y in multiset(tiles) ==> IsCode(y)
    requires h >= 30 && multiset(tiles)[h] == 1
    ensures forall x :: !HeadSolves(tiles, x)
    ensures !IsChitoi(tiles, SortedSet(tiles))
  {
    forall x ensures !HeadSolves(tiles, x) {
      LoneHonourNoHead(tiles, h, x);
    }
    assert h in SortedSet(tiles) by {
      assert h in multiset(tiles);
    }
  }

  // ---------------------------------------------------------------------
  // test_not_agari

  /** Fourteen different tiles. */
  const RandomHand := ["1m", "2m", "5m", "8p", "9p", "1s", "2s", "5s", "8s", "east", "south", "west", "north", "white"]

  lemma RandomHandCodes()
    ensures Codes(RandomHand) == [1, 2, 5, 18, 19, 21, 22, 25, 28, 31, 33, 35, 37, 41]
    ensures StrictlySorted([1, 2, 5, 18, 19, 21, 22, 25, 28, 31, 33, 35, 37, 41])
  {
    CodesOf(RandomHand, [1, 2, 5, 18, 19, 21, 22, 25, 28, 31, 33, 35, 37, 41]);
    StepsUp([1, 2, 5, 18, 19, 21, 22, 25, 28, 31, 33, 35, 37, 41]);
  }

  /** The hand does not win and has no reading. */
  lemma RandomHandLoses()
    ensures !Agari(RandomHand) && Decompose(RandomHand) == []
  {
    RandomHandCodes();
    DistinctCodesLose(RandomHand, [1, 2, 5, 18, 19, 21, 22, 25, 28, 31, 33, 35, 37, 41]);
  }

  // ---------------------------------------------------------------------
  // test_chitoitsu

  /** Each code of `ps` twice in a row. */
  function Doubled(ps: seq<int>): seq<int> {
    if ps == [] then [] else [ps[0], ps[0]] + Doubled(ps[1..])
  }

  /** Doubling each code in place holds the same tiles as listing the codes
      twice over. */
  lemma {:induction false} DoubledTiles(ps: seq<int>)
    ensures multiset(Doubled(ps)) == multiset(ps) + multiset(ps)
  {
    if ps != [] {
      var t := ps[1..];
      DoubledTiles(t);
      assert ps == [ps[0]] + t;
      assert Doubled(ps) == [ps[0], ps[0]] + Doubled(t);
    }
  }

  /** 11m 22m 11p 99s, east, south and white, each twice. */
  const SevenPairsHand := ["1m", "1m", "2m", "2m", "1p", "1p", "9s", "9s", "east", "east", "south", "south", "white", "white"]

  /** Fourteen names whose codes are seven ascending codes, each twice in
      a row, win as seven pairs, and that is the first reading. */
  lemma PairedCodesWin(hand: seq<string>, ps: seq<int>)
    requires |hand| == 14 && |ps| == 7 && StrictlySorted(ps) && Codes(hand) == Doubled(ps)
    ensures Agari(hand) && SevenPairs(ps) in Decompose(hand)
    ensures Decompose(hand)[0] == SevenPairs(ps)
  {
    DoubledTiles(ps);
    assert multiset(ps + ps) == multiset(ps) + multiset(ps);
    assert multiset(Parse(hand)) == multiset(ps + ps);
    SevenPairsIff(hand, ps);
    DecomposeSound(hand, SevenPairs(ps));
    AgariIffDecompose(hand);
  }

  lemma SevenPairsHandCodes()
    ensures Codes(SevenPairsHand) == [1, 1, 2, 2, 11, 11, 29, 29, 31, 31, 33, 33, 41, 41]
  {
    CodesOf(SevenPairsHand, [1, 1, 2, 2, 11, 11, 29, 29, 31, 31, 33, 33, 41, 41]);
  }

  lemma DoubledCons(x: int, t: seq<int>)
    ensures Doubled([x] + t) == [x, x] + Doubled(t)
  {
    assert ([x] + t)[1..] == t;
  }

  lemma SevenPairsHandPairs()
    ensures Doubled([1, 2, 11, 29, 31, 33, 41]) == [1, 1, 2, 2, 11, 11, 29, 29, 31, 31, 33, 33, 41, 41]
  {
    DoubledCons(41, []);
    DoubledCons(33, [41]);
    DoubledCons(31, [33, 41]);
    DoubledCons(29, [31, 33, 41]);
    DoubledCons(11, [29, 31, 33, 41]);
    DoubledCons(2, [11, 29, 31, 33, 41]);
    DoubledCons(1, [2, 11, 29, 31, 33, 41]);
  }

  lemma SevenPairsHandAscending()
    ensures StrictlySorted([1, 2, 11, 29, 31, 33, 41])
  {
    StepsUp([1, 2, 11, 29, 31, 33, 41]);
  }

  /** The hand wins, and its first reading is the seven pairs. */
  lemma SevenPairsHandWins()
    ensures Agari(SevenPairsHand) && SevenPairs([1, 2, 11, 29, 31, 33, 41]) in Decompose(SevenPairsHand)
    ensures Decompose(SevenPairsHand)[0] == SevenPairs([1, 2, 11, 29, 31, 33, 41])
  {
    SevenPairsHandCodes();
    SevenPairsHandPairs();
    SevenPairsHandAscending();
    PairedCodesWin(SevenPairsHand, [1, 2, 11, 29, 31, 33, 41]);
  }

  // ---------------------------------------------------------------------
  // test_tenpai

  /** 123m 456p 789s, 23s and a pair of east: waiting on 1s or 4s. */
  const ReadyHand := ["1m", "2m", "3m", "4p", "5p", "6p", "7s", "8s", "9s", "2s", "3s", "east", "east"]

  lemma ReadyHandDrawCodes()
    ensures Codes(ReadyHand + ["1s"]) == [1, 2, 3, 14, 15, 16, 27, 28, 29, 22, 23, 31, 31, 21]
  {
    CodesOf(ReadyHand + ["1s"], [1, 2, 3, 14, 15, 16, 27, 28, 29, 22, 23, 31, 31, 21]);
  }

  lemma ReadyHandDrawTiles()
    ensures HoldsTiles([1, 2, 3, 14, 15, 16, 27, 28, 29, 22, 23, 31, 31, 21], 31,
                       [Shuntsu(1), Shuntsu(14), Shuntsu(27), Shuntsu(21)])
  {
    assert [1, 2, 3, 14, 15, 16, 27, 28, 29] + [21] + [22, 23, 31, 31]
      == Flatten([Shuntsu(1), Shuntsu(14), Shuntsu(27), Shuntsu(21)]) + [31, 31];
    Rearranged([1, 2, 3, 14, 15, 16, 27, 28, 29, 22, 23, 31, 31, 21],
      [1, 2, 3, 14, 15, 16, 27, 28, 29], [22, 23, 31, 31], [21], 31, [Shuntsu(1), Shuntsu(14), Shuntsu(27), Shuntsu(21)]);
  }

  /** Drawing 1s completes the hand: the head east and four runs. */
  lemma ReadyHandDraw1sWins()
    ensures Agari(ReadyHand + ["1s"])
  {
    ReadyHandDrawCodes();
    ReadyHandDrawTiles();
    SequenceOnlyMelds();
    WinsAs(ReadyHand + ["1s"], [1, 2, 3, 14, 15, 16, 27, 28, 29, 22, 23, 31, 31, 21], 31,
      [Shuntsu(1), Shuntsu(14), Shuntsu(27), Shuntsu(21)], [Shuntsu(1), Shuntsu(14), Shuntsu(21), Shuntsu(27)]);
  }

  /** The hand is ready, and 1s is among its waits. */
  lemma ReadyHandIsReady()
    ensures "1s" in Waits(ReadyHand) && Ready(ReadyHand)
  {
    ReadyHandDraw1sWins();
    SouzuOneIsTile();
    WaitMakesReady(ReadyHand, "1s");
  }

  lemma SouzuOneIsTile()
    ensures IsTileName("1s")
  {
  }

  /** A tile name that completes a hand of thirteen is among its waits, and
      the hand is ready. */
  lemma WaitMakesReady(hand: seq<string>, t: string)
    requires |hand| == 13 && IsTileName(t) && Agari(hand + [t])
    ensures t in Waits(hand) && Ready(hand)
  {
    WaitsMembers(hand, t);
  }

  // ---------------------------------------------------------------------
  // test_not_tenpai

  /** Thirteen different tiles: terminals of each suit, their middles,
      east, south, white and red. */
  const NotReadyHand := ["1m", "5m", "9m", "1p", "5p", "9p", "1s", "5s", "9s", "east", "south", "white", "red"]

  lemma NotReadyHandCodes()
    ensures Codes(NotReadyHand) == [1, 5, 9, 11, 15, 19, 21, 25, 29, 31, 33, 41, 45]
    ensures StrictlySorted([1, 5, 9, 11, 15, 19, 21, 25, 29, 31, 33, 41, 45])
  {
    CodesOf(NotReadyHand, [1, 5, 9, 11, 15, 19, 21, 25, 29, 31, 33, 41, 45]);
    StepsUp([1, 5, 9, 11, 15, 19, 21, 25, 29, 31, 33, 41, 45]);
  }

  /** The hand is not ready: it waits on nothing. */
  lemma NotReadyHandIsNotReady()
    ensures !Ready(NotReadyHand) && Waits(NotReadyHand) == []
  {
    NotReadyHandCodes();
    TwoLoneWindsNotReady(NotReadyHand, [1, 5, 9, 11, 15, 19, 21, 25, 29, 31, 33, 41, 45]);
  }

  // ---------------------------------------------------------------------
  // test_reachability_analysis

  /** Removing the first occurrence of a value, located by its index. */
  lemma {:induction false} RemoveFirstIndex<T>(s: seq<T>, i: int, x: T)
    requires 0 <= i < |s| && s[i] == x
    requires forall j :: 0 <= j < i ==> s[j] != x
    ensures RemoveFirst(s, x) == s[..i] + s[i + 1..]
  {
    if i > 0 {
      var t := s[1..];
      assert t[i - 1] == x;
      forall j | 0 <= j < i - 1 ensures t[j] != x {
        assert t[j] == s[j + 1];
      }
      RemoveFirstIndex(t, i - 1, x);
      assert RemoveFirst(s, x) == [s[0]] + (t[..i - 1] + t[i..]);
      assert [s[0]] + (t[..i - 1] + t[i..]) == s[..i] + s[i + 1..];
    }
  }

  /** Removing the first occurrence of a name, located by its code. */
  lemma RemoveFirstAt(s: seq<string>, i: int, x: string)
    requires 0 <= i < |s| && s[i] == x
    requires forall j :: 0 <= j < i ==> Code(s[j]) != Code(x)
    ensures RemoveFirst(s, x) == s[..i] + s[i + 1..]
  {
    forall j | 0 <= j < i ensures s[j] != x {
      assert Code(s[j]) != Code(x);
    }
    RemoveFirstIndex(s, i, x);
  }

  /** Removing `x` from `a + [x] + b`, when no name of `a` has its code,
      leaves `a + b`. */
  lemma RemoveFirstBetween(a: seq<string>, x: string, b: seq<string>)
    requires forall j :: 0 <= j < |a| ==> Code(a[j]) != Code(x)
    ensures x in a + [x] + b && RemoveFirst(a + [x] + b, x) == a + b
  {
    var s := a + [x] + b;
    assert s[|a|] == x;
    RemoveFirstAt(s, |a|, x);
    assert s[..|a|] == a && s[|a| + 1..] == b;
  }

  /** The ready hand with 9m drawn. */
  const ReachHand := ["1m", "2m", "3m", "4p", "5p", "6p", "7s", "8s", "9s", "2s", "3s", "9m", "east", "east"]

  /** The hand is the ready hand with 9m put before its pair of east. */
  lemma ReachHandHoldsReadyHand()
    ensures ReachHand == ReadyHand[..11] + ["9m"] + ReadyHand[11..]
    ensures ReadyHand == ReadyHand[..11] + ReadyHand[11..]
  {
    forall k | 0 <= k < 14 ensures ReachHand[k] == (ReadyHand[..11] + ["9m"] + ReadyHand[11..])[k] {
    }
  }

  lemma ReadyHandHasNo9m()
    ensures forall j :: 0 <= j < 11 ==> Code(ReadyHand[..11][j]) != Code("9m")
  {
  }

  lemma ReachHandWithout9m()
    ensures "9m" in ReachHand && RemoveFirst(ReachHand, "9m") == ReadyHand
  {
    ReachHandHoldsReadyHand();
    ReadyHandHasNo9m();
    RemoveFirstBetween(ReadyHand[..11], "9m", ReadyHand[11..]);
  }

  /** Discarding 9m leaves the hand ready. */
  lemma ReachHandDiscards9m()
    ensures "9m" in TenpaiDiscards(ReachHand)
  {
    ReachHandWithout9m();
    ReadyHandIsReady();
    DiscardsMembers(ReachHand, "9m");
  }
}
