/** `network_rules.py` above the meld search: the winning structures of a
    14-tile hand (`decompose_hand`), the win test (`validate_packet_structure`),
    the waits of a 13-tile hand (`check_protocol_readiness`) and the discards
    that leave a 14-tile hand ready (`check_discard_for_tenpai`).  Each is a
    method with the loops of the source, proved equal to a function that the
    lemmas below characterise. */
module NetworkRules {
  import opened Seqs
  import opened Tiles
  import opened Melds

  /** One reading of a winning hand: seven pairs (`pairs` ascending), or a
      head pair `pair, pair` and its melds. */
  datatype Structure = SevenPairs(pairs: seq<int>) | Standard(pair: int, melds: seq<Meld>)

  /** Every tile a structure accounts for. */
  function StructureTiles(s: Structure): seq<int> {
    match s
    case SevenPairs(ps) => ps + ps
    case Standard(p, ms) => [p, p] + Flatten(ms)
  }

  /** The seven-pairs test: exactly seven distinct codes, each held twice. */
  predicate IsChitoi(tiles: seq<int>, unique: seq<int>) {
    |unique| == 7 && forall t :: t in unique ==> multiset(tiles)[t] == 2
  }

  /** `remaining_tiles` once the head pair `t, t` is removed. */
  function WithoutHead(tiles: seq<int>, t: int): (r: seq<int>)
    requires multiset(tiles)[t] >= 2
    ensures |r| == |tiles| - 2
    ensures multiset(r) == multiset(tiles) - multiset{t, t}
  {
    assert multiset([t, t]) == multiset{t, t};
    RemoveEach(tiles, [t, t])
  }

  /** The standard entries for head `t` among the splits `combs`: those
      with exactly four melds, in enumeration order. */
  function WithHead(t: int, combs: seq<seq<Meld>>): seq<Structure> {
    if combs == [] then []
    else
      var c := combs[|combs| - 1];
      WithHead(t, combs[..|combs| - 1]) + (if |c| == 4 then [Standard(t, c)] else [])
  }

  /** The standard entries with head `t`: none unless `t` is held twice. */
  function HeadEntries(tiles: seq<int>, t: int): seq<Structure> {
    if multiset(tiles)[t] >= 2 then WithHead(t, FindAll(WithoutHead(tiles, t))) else []
  }

  /** The standard entries for the heads `heads`, in that order. */
  function Standards(tiles: seq<int>, heads: seq<int>): seq<Structure> {
    FlatMap(t => HeadEntries(tiles, t), heads)
  }

  /** `decompose_hand`: nothing unless 14 names; otherwise the seven-pairs
      reading if there is one, then the standard readings by ascending
      head. */
  function Decompose(hand: seq<string>): seq<Structure> {
    if |hand| != 14 then []
    else
      var tiles := Parse(hand);
      var unique := SortedSet(tiles);
      (if IsChitoi(tiles, unique) then [SevenPairs(unique)] else []) + Standards(tiles, unique)
  }

  method DecomposeHand(hand: seq<string>) returns (structures: seq<Structure>)
    ensures structures == Decompose(hand)
  {
    if |hand| != 14 {
      return [];
    }
    var tiles := ParseHand(hand);
    var unique := SortedSet(tiles);
    var sevenPairs: seq<Structure> := [];
    if |unique| == 7 {
      var isChitoi, pairs := SevenPairsCheck(tiles, unique);
      if isChitoi {
        sevenPairs := [SevenPairs(pairs)];
      }
    }
    assert sevenPairs == if IsChitoi(tiles, unique) then [SevenPairs(unique)] else [];
    var standards := StandardForm(tiles, unique);
    structures := sevenPairs + standards;
  }

  /** The standard-form loop of `decompose_hand`, head by head. */
  method StandardForm(tiles: seq<int>, unique: seq<int>) returns (structures: seq<Structure>)
    ensures structures == Standards(tiles, unique)
  {
    structures := [];
    for k := 0 to |unique|
      invariant structures == Standards(tiles, unique[..k])
    {
      FlatMapSnoc(t => HeadEntries(tiles, t), unique, k);
      var entries := HeadCombinations(tiles, unique[k]);
      structures := structures + entries;
    }
    assert unique[..|unique|] == unique;
  }

  /** The seven-pairs loop shared by `decompose_hand` and
      `validate_packet_structure`: every one of the seven distinct codes
      must be held exactly twice; `pairs` collects them. */
  method SevenPairsCheck(tiles: seq<int>, unique: seq<int>) returns (isChitoi: bool, pairs: seq<int>)
    requires |unique| == 7
    ensures isChitoi == IsChitoi(tiles, unique)
    ensures isChitoi ==> pairs == unique
  {
    isChitoi := true;
    pairs := [];
    var i := 0;
    while i < |unique|
      invariant 0 <= i <= |unique| && isChitoi
      invariant pairs == unique[..i]
      invariant forall j :: 0 <= j < i ==> multiset(tiles)[unique[j]] == 2
    {
      if multiset(tiles)[unique[i]] != 2 {
        isChitoi := false;
        break;
      }
      pairs := pairs + [unique[i]];
      i := i + 1;
    }
    if !isChitoi {
      var odd := unique[i];
      assert odd in unique && multiset(tiles)[odd] != 2;
    } else {
      assert pairs == unique;
      forall t | t in unique ensures multiset(tiles)[t] == 2 {
        var j :| 0 <= j < |unique| && unique[j] == t;
      }
    }
  }

  /** The standard-form step of `decompose_hand` for one candidate head. */
  method HeadCombinations(tiles: seq<int>, tile: int) returns (entries: seq<Structure>)
    ensures entries == HeadEntries(tiles, tile)
  {
    entries := [];
    if multiset(tiles)[tile] >= 2 {
      var remaining := WithoutHead(tiles, tile);
      var combinations := FindAll(remaining);
      for c := 0 to |combinations|
        invariant entries == WithHead(tile, combinations[..c])
      {
        assert combinations[..c + 1][..c] == combinations[..c];
        if |combinations[c]| == 4 {
          entries := entries + [Standard(tile, combinations[c])];
        }
      }
      assert combinations[..|combinations|] == combinations;
    }
  }

  /** The search finds a split for what head `t` leaves. */
  predicate HeadSolves(tiles: seq<int>, t: int) {
    multiset(tiles)[t] >= 2 && FindSolution(WithoutHead(tiles, t))
  }

  /** What `validate_packet_structure` accepts: 14 names, and among the
      recognised codes a head whose remainder splits into melds, or seven
      pairs. */
  predicate Agari(hand: seq<string>) {
    |hand| == 14 &&
    var tiles := Parse(hand);
    (exists t :: t in tiles && HeadSolves(tiles, t)) || IsChitoi(tiles, SortedSet(tiles))
  }

  method ValidatePacketStructure(hand: seq<string>) returns (ok: bool)
    ensures ok == Agari(hand)
  {
    if |hand| != 14 {
      return false;
    }
    var tiles := ParseHand(hand);
    var unique := SortedSet(tiles);
    ok := FindHead(tiles, unique);
    if !ok && |unique| == 7 {
      var pairs;
      ok, pairs := SevenPairsCheck(tiles, unique);
    }
    assert ok == ((exists t :: t in tiles && HeadSolves(tiles, t)) || IsChitoi(tiles, unique));
  }

  /** The head loop of `validate_packet_structure`: is there a head among
      `unique` whose remainder the search can split? */
  method FindHead(tiles: seq<int>, unique: seq<int>) returns (found: bool)
    requires forall t :: t in unique <==> t in tiles
    ensures found <==> exists t :: t in tiles && HeadSolves(tiles, t)
  {
    for i := 0 to |unique|
      invariant forall j :: 0 <= j < i ==> !HeadSolves(tiles, unique[j])
    {
      var tile := unique[i];
      if multiset(tiles)[tile] >= 2 {
        var remaining := WithoutHead(tiles, tile);
        if FindSolution(remaining) {
          assert HeadSolves(tiles, tile);
          return true;
        }
      }
    }
    forall t | t in tiles ensures !HeadSolves(tiles, t) {
      var j :| 0 <= j < |unique| && unique[j] == t;
    }
    return false;
  }

  /** The names among `names` whose addition to `hand` wins, in order. */
  function WaitsAmong(hand: seq<string>, names: seq<string>): seq<string> {
    Filter(t => Agari(hand + [t]), names)
  }

  /** The wait list of a hand: the 34 names in table order that complete it. */
  function Waits(hand: seq<string>): seq<string> {
    WaitsAmong(hand, AllNames)
  }

  /** `check_protocol_readiness`: no waits unless 13 names; the flag says
      whether the wait list is non-empty. */
  method CheckProtocolReadiness(hand: seq<string>) returns (ready: bool, waits: seq<string>)
    ensures waits == (if |hand| == 13 then Waits(hand) else [])
    ensures ready <==> waits != []
  {
    if |hand| != 13 {
      return false, [];
    }
    waits := CollectWaits(hand, AllNames);
    if waits != [] {
      return true, waits;
    }
    return false, [];
  }

  /** The wait loop of `check_protocol_readiness` over the candidate names. */
  method CollectWaits(hand: seq<string>, allTiles: seq<string>) returns (waits: seq<string>)
    ensures waits == WaitsAmong(hand, allTiles)
  {
    waits := [];
    for k := 0 to |allTiles|
      invariant waits == WaitsAmong(hand, allTiles[..k])
    {
      FilterSnoc(t => Agari(hand + [t]), allTiles, k);
      var tile := allTiles[k];
      var testHand := hand + [tile];
      var ok := ValidatePacketStructure(testHand);
      if ok {
        waits := waits + [tile];
      }
    }
    assert allTiles[..|allTiles|] == allTiles;
  }

  /** Tenpai: 13 names with at least one wait. */
  predicate Ready(hand: seq<string>) {
    |hand| == 13 && Waits(hand) != []
  }

  /** The names among `names` held in `hand` whose single removal leaves
      `hand` ready, in order. */
  function DiscardsAmong(hand: seq<string>, names: seq<string>): seq<string> {
    Filter(t => t in hand && Ready(RemoveFirst(hand, t)), names)
  }

  /** The tenpai discards of a hand: nothing unless 14 names; otherwise the
      distinct names, in string order, whose removal leaves it ready. */
  function TenpaiDiscards(hand: seq<string>): seq<string> {
    if |hand| != 14 then [] else DiscardsAmong(hand, SortedNames(hand))
  }

  /** `check_discard_for_tenpai`. */
  method CheckDiscardForTenpai(hand: seq<string>) returns (discards: seq<string>)
    ensures discards == TenpaiDiscards(hand)
  {
    if |hand| != 14 {
      return [];
    }
    var uniqueTiles := SortedNames(hand);
    discards := CollectDiscards(hand, uniqueTiles);
  }

  /** The discard loop of `check_discard_for_tenpai` over the distinct names. */
  method CollectDiscards(hand: seq<string>, uniqueTiles: seq<string>) returns (discards: seq<string>)
    requires forall t :: t in uniqueTiles ==> t in hand
    ensures discards == DiscardsAmong(hand, uniqueTiles)
  {
    discards := [];
    for k := 0 to |uniqueTiles|
      invariant discards == DiscardsAmong(hand, uniqueTiles[..k])
    {
      FilterSnoc(t => t in hand && Ready(RemoveFirst(hand, t)), uniqueTiles, k);
      var tileToDiscard := uniqueTiles[k];
      var tempHand := RemoveFirst(hand, tileToDiscard);
      var isTenpai, _ := CheckProtocolReadiness(tempHand);
      if isTenpai {
        discards := discards + [tileToDiscard];
      }
    }
    assert uniqueTiles[..|uniqueTiles|] == uniqueTiles;
  }

  // ------------------------------------------------------- decomposition

  lemma {:induction false} WithHeadMembers(t: int, combs: seq<seq<Meld>>)
    ensures forall s :: s in WithHead(t, combs) ==>
              s.Standard? && s.pair == t && |s.melds| == 4 && s.melds in combs
  {
    if combs != [] {
      WithHeadMembers(t, combs[..|combs| - 1]);
    }
  }

  lemma {:induction false} WithHeadHas(t: int, combs: seq<seq<Meld>>, c: seq<Meld>)
    requires c in combs && |c| == 4
    ensures Standard(t, c) in WithHead(t, combs)
  {
    var init := combs[..|combs| - 1];
    if c != combs[|combs| - 1] {
      assert combs == init + [combs[|combs| - 1]];
      WithHeadHas(t, init, c);
    }
  }

  /** A standard entry accounts for every recognised code: the head pair
      plus four well-formed melds. */
  lemma HeadEntrySound(tiles: seq<int>, t: int, s: Structure)
    requires s in HeadEntries(tiles, t)
    ensures s.Standard? && s.pair == t && |s.melds| == 4 && AllWellFormed(s.melds)
    ensures multiset(StructureTiles(s)) == multiset(tiles)
  {
    var rest := WithoutHead(tiles, t);
    WithHeadMembers(t, FindAll(rest));
    FindAllSound(rest, s.melds);
    var pair := multiset{t, t};
    assert multiset([t, t]) == pair;
    assert pair <= multiset(tiles);
    AddBack(pair, multiset(tiles));
  }

  /** In a strictly ascending list a member occurs once. */
  lemma {:induction false} OnceInStrictlySorted(u: seq<int>, x: int)
    requires StrictlySorted(u)
    ensures multiset(u)[x] == if x in u then 1 else 0
  {
    if u != [] {
      assert u == [u[0]] + u[1..];
      assert StrictlySorted(u[1..]) by {
        forall i, j | 0 <= i < j < |u[1..]| ensures u[1..][i] < u[1..][j] {
          assert u[1..][i] == u[i + 1] && u[1..][j] == u[j + 1];
        }
      }
      OnceInStrictlySorted(u[1..], x);
      if x == u[0] {
        assert x !in u[1..] by {
          forall i | 0 <= i < |u[1..]| ensures u[1..][i] != x {
            assert u[1..][i] == u[i + 1];
          }
        }
      }
    }
  }

  /** The seven-pairs reading accounts for every code exactly. */
  lemma ChitoiSound(tiles: seq<int>)
    requires IsChitoi(tiles, SortedSet(tiles))
    ensures multiset(StructureTiles(SevenPairs(SortedSet(tiles)))) == multiset(tiles)
  {
    var u := SortedSet(tiles);
    forall x ensures multiset(u + u)[x] == multiset(tiles)[x] {
      OnceInStrictlySorted(u, x);
      if x !in u {
        assert x !in multiset(tiles);
      }
    }
  }

  /** Fourteen accounted-for codes mean that all fourteen names were
      recognised. */
  lemma AllRecognised(hand: seq<string>)
    requires |Parse(hand)| == |hand|
    ensures forall t :: t in hand ==> IsTileName(t)
  {
    assert |Codes(hand)| == |multiset(Codes(hand))| == |multiset(Parse(hand))|;
  }

  /** Soundness of `decompose_hand`: every reading uses exactly the parsed
      tiles of a 14-name hand whose names are all recognised; a standard
      reading is a head pair and four well-formed melds, a seven-pairs
      reading seven distinct ascending codes. */
  lemma DecomposeSound(hand: seq<string>, s: Structure)
    requires s in Decompose(hand)
    ensures |hand| == 14 && forall t :: t in hand ==> IsTileName(t)
    ensures multiset(StructureTiles(s)) == multiset(Parse(hand))
    ensures s.Standard? ==> |s.melds| == 4 && AllWellFormed(s.melds)
    ensures s.SevenPairs? ==> |s.pairs| == 7 && StrictlySorted(s.pairs)
  {
    var tiles := Parse(hand);
    var unique := SortedSet(tiles);
    if s in Standards(tiles, unique) {
      var k := FlatMapMember(t => HeadEntries(tiles, t), unique, s);
      HeadEntrySound(tiles, unique[k], s);
      assert |StructureTiles(s)| == 14;
    } else {
      ChitoiSound(tiles);
    }
    assert |tiles| == |multiset(tiles)| == |StructureTiles(s)| == 14;
    AllRecognised(hand);
  }

  /** Only standard readings, with their heads in ascending order. */
  predicate HeadsAscending(ss: seq<Structure>) {
    (forall i :: 0 <= i < |ss| ==> ss[i].Standard?) &&
    forall i, j :: 0 <= i < j < |ss| ==> ss[i].pair <= ss[j].pair
  }

  lemma {:induction false} StandardsAscending(tiles: seq<int>, heads: seq<int>)
    requires StrictlySorted(heads)
    ensures HeadsAscending(Standards(tiles, heads))
    ensures forall s :: s in Standards(tiles, heads) ==> s.Standard? && s.pair in heads
  {
    if heads != [] {
      var n := |heads|;
      var init, h := heads[..n - 1], heads[n - 1];
      assert StrictlySorted(init);
      StandardsAscending(tiles, init);
      HeadEntriesHead(tiles, h);
      var a := Standards(tiles, init);
      forall s | s in a ensures s.pair < h {
        var k :| 0 <= k < |init| && init[k] == s.pair;
      }
      AppendAscending(a, HeadEntries(tiles, h), h);
    }
  }

  lemma HeadEntriesHead(tiles: seq<int>, t: int)
    ensures forall s :: s in HeadEntries(tiles, t) ==> s.Standard? && s.pair == t
  {
    if multiset(tiles)[t] >= 2 {
      WithHeadMembers(t, FindAll(WithoutHead(tiles, t)));
    }
  }

  lemma AppendAscending(a: seq<Structure>, b: seq<Structure>, h: int)
    requires HeadsAscending(a) && forall s :: s in a ==> s.pair < h
    requires forall s :: s in b ==> s.Standard? && s.pair == h
    ensures HeadsAscending(a + b)
  {
    var ss := a + b;
    forall i | 0 <= i < |ss| ensures ss[i].Standard? {
      if i >= |a| { assert ss[i] == b[i - |a|]; }
    }
    forall i, j | 0 <= i < j < |ss| ensures ss[i].pair <= ss[j].pair {
      if j < |a| {
        assert ss[i] == a[i] && ss[j] == a[j];
      } else if i < |a| {
        assert ss[i] == a[i] && ss[j] == b[j - |a|];
      } else {
        assert ss[i] == b[i - |a|] && ss[j] == b[j - |a|];
      }
    }
  }

  /** The order of `decompose_hand`: the seven-pairs reading, if any, is
      the first entry; every later entry is standard, by ascending head. */
  lemma DecomposeOrder(hand: seq<string>)
    ensures forall i :: 0 < i < |Decompose(hand)| ==> Decompose(hand)[i].Standard?
    ensures Decompose(hand) != [] && Decompose(hand)[0].SevenPairs? ==> HeadsAscending(Decompose(hand)[1..])
    ensures Decompose(hand) != [] && Decompose(hand)[0].Standard? ==> HeadsAscending(Decompose(hand))
  {
    if |hand| == 14 {
      var tiles := Parse(hand);
      var unique := SortedSet(tiles);
      StandardsAscending(tiles, unique);
      var st := Standards(tiles, unique);
      if IsChitoi(tiles, unique) {
        assert Decompose(hand)[1..] == st;
      } else {
        assert Decompose(hand) == st;
      }
    }
  }

  /** Completeness of `decompose_hand`: every way of reading a 14-name hand
      as a head pair and four well-formed melds appears, up to the order of
      the melds. */
  lemma DecomposeComplete(hand: seq<string>, p: int, ms: seq<Meld>)
    requires |hand| == 14 && |ms| == 4 && AllWellFormed(ms)
    requires multiset(StructureTiles(Standard(p, ms))) == multiset(Parse(hand))
    ensures exists r :: Standard(p, r) in Decompose(hand) && multiset(r) == multiset(ms)
  {
    var tiles := Parse(hand);
    var unique := SortedSet(tiles);
    var r := HeadEntriesComplete(tiles, p, ms);
    assert p in unique;
    var k :| 0 <= k < |unique| && unique[k] == p;
    FlatMapHas(t => HeadEntries(tiles, t), unique, k, Standard(p, r));
    assert Standard(p, r) in Decompose(hand);
  }

  /** The entries for head `p` include every split of the other tiles into
      four well-formed melds, up to meld order. */
  lemma HeadEntriesComplete(tiles: seq<int>, p: int, ms: seq<Meld>) returns (r: seq<Meld>)
    requires Sorted(tiles) && |ms| == 4 && AllWellFormed(ms)
    requires multiset(StructureTiles(Standard(p, ms))) == multiset(tiles)
    ensures Standard(p, r) in HeadEntries(tiles, p) && multiset(r) == multiset(ms)
    ensures p in tiles
  {
    var pair := multiset{p, p};
    assert multiset([p, p]) == pair;
    assert multiset(tiles) == pair + multiset(Flatten(ms));
    assert p in multiset(tiles);
    var rest := WithoutHead(tiles, p);
    TakeOut(pair, multiset(Flatten(ms)));
    RemoveEachSorted(tiles, [p, p]);
    FindAllComplete(rest, ms);
    r :| r in FindAll(rest) && multiset(r) == multiset(ms);
    assert |r| == |multiset(r)| == 4;
    WithHeadHas(p, FindAll(rest), r);
  }

  /** A head and four melds in lead order that account for the parsed hand
      are listed by `decompose_hand` exactly as given, provided no two
      different melds share a lead; the hand then passes the win test. */
  lemma ReadingListed(hand: seq<string>, p: int, ms: seq<Meld>)
    requires |hand| == 14 && |ms| == 4 && AllWellFormed(ms)
    requires LeadsAscending(ms) && LeadsDistinguish(ms)
    requires multiset(StructureTiles(Standard(p, ms))) == multiset(Parse(hand))
    ensures Standard(p, ms) in Decompose(hand)
    ensures Agari(hand)
  {
    var tiles := Parse(hand);
    var unique := SortedSet(tiles);
    var r := HeadEntriesComplete(tiles, p, ms);
    var rest := WithoutHead(tiles, p);
    WithHeadMembers(p, FindAll(rest));
    RemoveEachSorted(tiles, [p, p]);
    FindAllLeadOrder(rest, r);
    LeadOrderUnique(r, ms);
    assert p in unique;
    var k :| 0 <= k < |unique| && unique[k] == p;
    FlatMapHas(t => HeadEntries(tiles, t), unique, k, Standard(p, ms));
    SolutionIffSomeCombination(rest);
    assert HeadSolves(tiles, p);
  }

  /** Two strictly ascending lists with the same members are equal. */
  lemma {:induction false} StrictlySortedUnique(a: seq<int>, b: seq<int>)
    requires StrictlySorted(a) && StrictlySorted(b)
    requires forall x :: x in a <==> x in b
    ensures a == b
  {
    forall x ensures multiset(a)[x] == multiset(b)[x] {
      OnceInStrictlySorted(a, x);
      OnceInStrictlySorted(b, x);
    }
    SortedUnique(a, b);
  }

  /** Seven pairs is recognised exactly when the parsed hand is seven
      distinct codes held twice each, and then it is the first entry. */
  lemma SevenPairsIff(hand: seq<string>, ps: seq<int>)
    ensures SevenPairs(ps) in Decompose(hand) <==>
            |hand| == 14 && |ps| == 7 && StrictlySorted(ps) && multiset(ps + ps) == multiset(Parse(hand))
    ensures SevenPairs(ps) in Decompose(hand) ==> Decompose(hand)[0] == SevenPairs(ps)
  {
    if SevenPairs(ps) in Decompose(hand) {
      DecomposeSound(hand, SevenPairs(ps));
      DecomposeOrder(hand);
    }
    if |hand| == 14 && |ps| == 7 && StrictlySorted(ps) && multiset(ps + ps) == multiset(Parse(hand)) {
      var tiles := Parse(hand);
      var unique := SortedSet(tiles);
      forall x ensures x in unique <==> x in ps {
        assert x in ps <==> x in multiset(ps + ps);
      }
      StrictlySortedUnique(unique, ps);
      forall t | t in ps ensures multiset(tiles)[t] == 2 {
        OnceInStrictlySorted(ps, t);
      }
      assert IsChitoi(tiles, unique);
    }
  }

  // ------------------------------------------------------------ win test

  /** With fourteen codes a head has standard entries exactly when the
      search can split what it leaves: every split of twelve tiles has four
      melds. */
  lemma HeadEntriesIffSolves(tiles: seq<int>, t: int)
    requires |tiles| == 14
    ensures HeadEntries(tiles, t) != [] <==> HeadSolves(tiles, t)
  {
    if multiset(tiles)[t] >= 2 {
      var rest := WithoutHead(tiles, t);
      var combs := FindAll(rest);
      SolutionIffSomeCombination(rest);
      WithHeadMembers(t, combs);
      if combs != [] {
        FindAllSound(rest, combs[0]);
        WithHeadHas(t, combs, combs[0]);
      }
    }
  }

  /** For a hand of recognised names, `validate_packet_structure` accepts
      exactly when `decompose_hand` finds a reading. */
  lemma AgariIffDecompose(hand: seq<string>)
    requires forall t :: t in hand ==> IsTileName(t)
    ensures Agari(hand) <==> Decompose(hand) != []
  {
    if |hand| == 14 {
      var tiles := Parse(hand);
      var unique := SortedSet(tiles);
      var f := t => HeadEntries(tiles, t);
      assert |tiles| == 14;
      if exists t :: t in tiles && HeadSolves(tiles, t) {
        var t :| t in tiles && HeadSolves(tiles, t);
        HeadEntriesIffSolves(tiles, t);
        var k :| 0 <= k < |unique| && unique[k] == t;
        FlatMapHas(f, unique, k, HeadEntries(tiles, t)[0]);
      }
      if Standards(tiles, unique) != [] {
        var k := FlatMapMember(f, unique, Standards(tiles, unique)[0]);
        HeadEntriesIffSolves(tiles, unique[k]);
      }
    }
  }

  /** Two copies of 1m padded to fourteen entries with unknown names. */
  function PaddedPair(): seq<string> {
    ["1m", "1m"] + seq(12, _ => "?")
  }

  lemma PaddedPairParse()
    ensures Parse(PaddedPair()) == [1, 1]
  {
    var hand := PaddedPair();
    forall k | 2 <= k <= 14 ensures Codes(hand[..k]) == [1, 1] {
      UnknownTail(hand, k);
    }
    assert hand[..14] == hand;
    SortedUnique(Parse(hand), [1, 1]);
  }

  /** Unrecognised names are dropped after the length test, so the win
      test can accept a list that `decompose_hand` reads no structure in. */
  lemma UnknownNamesPassTheWinTest()
    ensures Agari(PaddedPair()) && Decompose(PaddedPair()) == []
  {
    PaddedPairParse();
    var tiles := Parse(PaddedPair());
    assert tiles == [1, 1];
    StrictlySortedUnique(SortedSet(tiles), [1]);
    PairOfOnesWins();
    PairOfOnesReadsNothing();
  }

  lemma PairOfOnesWins()
    ensures HeadSolves([1, 1], 1)
  {
    assert WithoutHead([1, 1], 1) == [];
  }

  lemma PairOfOnesReadsNothing()
    ensures Standards([1, 1], [1]) == []
  {
    FindAllOfNothing();
    var none: seq<seq<Meld>> := [[]];
    assert none[..0] == [];
    assert WithoutHead([1, 1], 1) == [];
    assert HeadEntries([1, 1], 1) == [];
    var heads := [1];
    assert heads[..0] == [];
  }

  lemma {:induction false} UnknownTail(hand: seq<string>, k: int)
    requires |hand| == 14 && hand[0] == "1m" && hand[1] == "1m"
    requires forall i :: 2 <= i < 14 ==> hand[i] == "?"
    requires 2 <= k <= 14
    ensures Codes(hand[..k]) == [1, 1]
  {
    if k == 2 {
      assert hand[..2] == ["1m", "1m"];
      assert hand[..2][..1] == ["1m"];
      assert ["1m"][..0] == [];
    } else {
      UnknownTail(hand, k - 1);
      assert hand[..k][..k - 1] == hand[..k - 1];
    }
  }

  // ----------------------------------------------------------- readiness

  /** Position of a name in the table order, or -1 for an unknown name. */
  function Rank(t: string): int {
    if IsTileName(t) then NameOfCode(t); IndexOf(Code(t).value) else -1
  }

  /** A name waits on a hand exactly when it is a tile name whose addition
      wins. */
  lemma WaitsMembers(hand: seq<string>, t: string)
    ensures t in Waits(hand) <==> IsTileName(t) && Agari(hand + [t])
  {
    if IsTileName(t) {
      TableNamesAreInAllNames(t);
    }
    if t in AllNames {
      var i :| 0 <= i < |AllNames| && AllNames[i] == t;
      AllNamesAreTableNames(i);
    }
  }

  /** The waits come in table order: manzu, pinzu, souzu, winds, dragons. */
  lemma WaitsInTableOrder(hand: seq<string>)
    ensures forall i, j :: 0 <= i < j < |Waits(hand)| ==> Rank(Waits(hand)[i]) < Rank(Waits(hand)[j])
  {
    forall i | 0 <= i < |AllNames| ensures Rank(AllNames[i]) == i {
      AllNamesAreTableNames(i);
    }
    FilterKeepsOrder(t => Agari(hand + [t]), AllNames, (a, b) => Rank(a) < Rank(b));
  }

  /** A hand is ready exactly when it has 13 names and some tile completes
      it. */
  lemma ReadyIff(hand: seq<string>)
    ensures Ready(hand) <==> |hand| == 13 && exists t :: IsTileName(t) && Agari(hand + [t])
  {
    if Ready(hand) {
      WaitsMembers(hand, Waits(hand)[0]);
    }
    if exists t :: IsTileName(t) && Agari(hand + [t]) {
      var t :| IsTileName(t) && Agari(hand + [t]);
      WaitsMembers(hand, t);
    }
  }

  // ------------------------------------------------------------ discards

  /** The tenpai discards are exactly the held names whose single removal
      leaves a ready hand. */
  lemma DiscardsMembers(hand: seq<string>, t: string)
    ensures t in TenpaiDiscards(hand) <==> |hand| == 14 && t in hand && Ready(RemoveFirst(hand, t))
  {
  }

  /** The tenpai discards are distinct and in ascending string order. */
  lemma DiscardsAscending(hand: seq<string>)
    ensures StrictlyAscending(TenpaiDiscards(hand))
  {
    if |hand| == 14 {
      FilterKeepsOrder(t => t in hand && Ready(RemoveFirst(hand, t)), SortedNames(hand), StrLess);
    }
  }
}
