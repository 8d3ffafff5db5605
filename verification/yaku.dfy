/** `yaku_rules.py`: the yaku a winning structure earns (`YakuChecker`).
    Each `_check_*` predicate is a function characterised by its contract;
    `execute` is a method with the best-so-far loop of the source. */
module YakuRules {
  import opened Seqs
  import opened Tiles
  import opened Melds
  import opened NetworkRules

  /** The keys of `YAKU_NAMES` that the checker can award. */
  datatype Yaku =
    | Reach | MenzenTsumo | Tanyao | Pinfu
    | YakuhaiHaku | YakuhaiHatsu | YakuhaiChun | YakuhaiBakaze | YakuhaiJikaze
    | Chitoitsu | Toitoi | Sanankou | Ippeiko | Sanshoku | Itsu
    | Honitsu | Chinitsu | Ryanpeiko | Chanta | Junchan | Shosangen
    | SanshokuDouko | Honroutou

  /** One `(name, han)` entry of `current_yaku`. */
  datatype Award = Award(yaku: Yaku, han: nat)

  /** The settings a `YakuChecker` is built with; they never change. */
  datatype Context = Context(
    winTile: string, isTsumo: bool, isReach: bool,
    bakaze: string, jikaze: string, isMenzen: bool)

  /** The labels of `_get_score_name`; `Unnamed` is the empty label of a
      hand with no structure. */
  datatype ScoreName = Unnamed | Normal | Mangan | Haneman | Baiman | Sanbaiman | Yakuman

  /** The dictionary `execute` returns. */
  datatype Evaluation = Evaluation(
    yaku: seq<Yaku>, han: int, fu: int, scoreName: ScoreName, structure: Option<Structure>)

  const NoEvaluation := Evaluation([], 0, 0, Unnamed, None)

  /** The names of the awards, in order. */
  function Names(awards: seq<Award>): (r: seq<Yaku>)
    ensures |r| == |awards|
    ensures forall i :: 0 <= i < |awards| ==> r[i] == awards[i].yaku
  {
    seq(|awards|, i requires 0 <= i < |awards| => awards[i].yaku)
  }

  /** `sum(h for name, h in current_yaku)`. */
  function Han(awards: seq<Award>): nat {
    if awards == [] then 0 else awards[0].han + Han(awards[1..])
  }

  /** One `if <test>: current_yaku.append((name, han))` of the checker:
      the entry it appends and whether its test passes. */
  datatype Rule = Rule(holds: bool, award: Award)

  /** The entries of the rules whose tests pass, in rule order. */
  function Awarded(rules: seq<Rule>): seq<Award> {
    if rules == [] then []
    else (if rules[0].holds then [rules[0].award] else []) + Awarded(rules[1..])
  }

  /** Rule `i` passes and names `y`. */
  predicate FiresAt(rules: seq<Rule>, i: int, y: Yaku) {
    0 <= i < |rules| && rules[i].holds && rules[i].award.yaku == y
  }

  /** Some rule that passes names `y`. */
  ghost predicate Fires(rules: seq<Rule>, y: Yaku) {
    exists i :: FiresAt(rules, i, y)
  }

  /** A yaku is awarded exactly when a rule naming it passes. */
  lemma {:induction false} AwardedNames(rules: seq<Rule>, y: Yaku)
    ensures y in Names(Awarded(rules)) <==> Fires(rules, y)
  {
    if rules != [] {
      var head: seq<Award> := if rules[0].holds then [rules[0].award] else [];
      assert Names(Awarded(rules)) == Names(head) + Names(Awarded(rules[1..]));
      AwardedNames(rules[1..], y);
      if y in Names(head) {
        assert FiresAt(rules, 0, y);
      }
      if Fires(rules[1..], y) {
        var i :| FiresAt(rules[1..], i, y);
        assert FiresAt(rules, i + 1, y);
      }
      if Fires(rules, y) {
        var i :| FiresAt(rules, i, y);
        if i == 0 {
          assert Names(head) == [y];
        } else {
          assert FiresAt(rules[1..], i - 1, y);
        }
      }
    }
  }

  /** Rules passing in a concatenation pass in one of its parts. */
  lemma FiresAppend(a: seq<Rule>, b: seq<Rule>, y: Yaku)
    ensures Fires(a + b, y) <==> Fires(a, y) || Fires(b, y)
  {
    if Fires(a + b, y) {
      var i :| FiresAt(a + b, i, y);
      if i < |a| {
        assert FiresAt(a, i, y);
      } else {
        assert FiresAt(b, i - |a|, y);
      }
    }
    if Fires(a, y) {
      var i :| FiresAt(a, i, y);
      assert FiresAt(a + b, i, y);
    }
    if Fires(b, y) {
      var i :| FiresAt(b, i, y);
      assert FiresAt(a + b, i + |a|, y);
    }
  }

  // ---------------------------------------------------------------------
  // The predicates over tiles

  /** `_check_tanyao`: no terminal and no honour anywhere. */
  function CheckTanyao(tiles: seq<int>): (r: bool)
    ensures r <==> forall t :: t in tiles ==> !IsTerminalOrHonor(t)
  {
    tiles == [] || (!IsTerminalOrHonor(tiles[0]) && CheckTanyao(tiles[1..]))
  }

  /** `_check_honroutou`: every tile is a terminal or an honour. */
  function CheckHonroutou(tiles: seq<int>): (r: bool)
    ensures r <==> forall t :: t in tiles ==> IsTerminalOrHonor(t)
  {
    tiles == [] || (IsTerminalOrHonor(tiles[0]) && CheckHonroutou(tiles[1..]))
  }

  /** Some tile lies in `lo..hi`. */
  function AnyIn(tiles: seq<int>, lo: int, hi: int): (r: bool)
    ensures r <==> exists t :: t in tiles && lo <= t <= hi
  {
    if tiles == [] then false
    else if lo <= tiles[0] <= hi then
      assert tiles[0] in tiles;
      true
    else
      assert forall t :: t in tiles <==> t == tiles[0] || t in tiles[1..];
      AnyIn(tiles[1..], lo, hi)
  }

  /** Some tile is an honour (code 30 or more). */
  function AnyHonour(tiles: seq<int>): (r: bool)
    ensures r <==> exists t :: t in tiles && t >= 30
  {
    if tiles == [] then false
    else if tiles[0] >= 30 then
      assert tiles[0] in tiles;
      true
    else
      assert forall t :: t in tiles <==> t == tiles[0] || t in tiles[1..];
      AnyHonour(tiles[1..])
  }

  /** `suits_count`: how many of the three number suits occur. */
  function SuitsUsed(tiles: seq<int>): nat {
    (if AnyIn(tiles, 1, 9) then 1 else 0) + (if AnyIn(tiles, 11, 19) then 1 else 0)
      + (if AnyIn(tiles, 21, 29) then 1 else 0)
  }

  /** `_check_flush_yaku`: chinitsu for one suit alone, honitsu for one
      suit with honours, each dearer for a closed hand. */
  function FlushRules(tiles: seq<int>, isMenzen: bool): seq<Rule> {
    var oneSuit := SuitsUsed(tiles) == 1;
    [Rule(oneSuit && !AnyHonour(tiles), Award(Chinitsu, if isMenzen then 6 else 5)),
     Rule(oneSuit && AnyHonour(tiles), Award(Honitsu, if isMenzen then 3 else 2))]
  }

  // ---------------------------------------------------------------------
  // The predicates over melds

  /** Every meld is a run. */
  function AllRuns(melds: seq<Meld>): (r: bool)
    ensures r <==> forall m :: m in melds ==> m.Shuntsu?
  {
    melds == [] || (melds[0].Shuntsu? && AllRuns(melds[1..]))
  }

  /** `_check_toitoi`: every meld is a triplet. */
  function CheckToitoi(melds: seq<Meld>): (r: bool)
    ensures r <==> forall m :: m in melds ==> m.Koutsu?
  {
    melds == [] || (melds[0].Koutsu? && CheckToitoi(melds[1..]))
  }

  /** The first tiles of the runs, in meld order (`seq_starts`); a run is
      determined by its first tile, so these also stand for the run tuples
      the source collects. */
  function RunStarts(melds: seq<Meld>): (r: seq<int>)
    ensures forall x :: x in r <==> Shuntsu(x) in melds
    ensures forall x :: multiset(r)[x] == multiset(melds)[Shuntsu(x)]
  {
    if melds == [] then []
    else
      assert melds == [melds[0]] + melds[1..];
      (if melds[0].Shuntsu? then [melds[0].first] else []) + RunStarts(melds[1..])
  }

  /** The tiles of the triplets, in meld order (`triplet_starts`). */
  function TripletTiles(melds: seq<Meld>): (r: seq<int>)
    ensures forall x :: x in r <==> Koutsu(x) in melds
    ensures forall x :: multiset(r)[x] == multiset(melds)[Koutsu(x)]
  {
    if melds == [] then []
    else
      assert melds == [melds[0]] + melds[1..];
      (if melds[0].Koutsu? then [melds[0].tile] else []) + TripletTiles(melds[1..])
  }

  /** `[x - off for x in xs if lo <= x <= hi]`. */
  function Bases(xs: seq<int>, lo: int, hi: int, off: int): (r: seq<int>)
    ensures forall b :: b in r <==> b + off in xs && lo <= b + off <= hi
  {
    if xs == [] then []
    else (if lo <= xs[0] <= hi then [xs[0] - off] else []) + Bases(xs[1..], lo, hi, off)
  }

  /** The final loop of the three-colour checks: a base of the first list
      found in the other two. */
  function AnyInAll(bm: seq<int>, bp: seq<int>, bs: seq<int>): (r: bool)
    ensures r <==> exists b :: b in bm && b in bp && b in bs
  {
    if bm == [] then false
    else if bm[0] in bp && bm[0] in bs then
      var b := bm[0];
      assert b in bm && b in bp && b in bs;
      true
    else
      assert forall b :: b in bm <==> b == bm[0] || b in bm[1..];
      AnyInAll(bm[1..], bp, bs)
  }

  /** Number `b` of `1..top` starts an entry in each of the three suits. */
  predicate ColoursAt(starts: seq<int>, top: int, b: int) {
    1 <= b <= top && b in starts && b + 10 in starts && b + 20 in starts
  }

  /** The same number in `1..top` starts an entry in all three suits. */
  function ThreeColours(starts: seq<int>, top: int): (r: bool)
    ensures r <==> exists b :: ColoursAt(starts, top, b)
  {
    var bm, bp, bs := Bases(starts, 1, top, 0), Bases(starts, 11, 10 + top, 10), Bases(starts, 21, 20 + top, 20);
    var r := AnyInAll(bm, bp, bs);
    assert r <==> exists b :: ColoursAt(starts, top, b) by {
      if r {
        var b :| b in bm && b in bp && b in bs;
        assert b + 0 in starts;
        assert ColoursAt(starts, top, b);
      }
      if exists b :: ColoursAt(starts, top, b) {
        var b :| ColoursAt(starts, top, b);
        assert b + 0 in starts;
        assert b in bm && b in bp && b in bs;
      }
    }
    r
  }

  /** The runs starting at `b`, `b + 10` and `b + 20`, for `b` in 1..7. */
  predicate RunColoursAt(melds: seq<Meld>, b: int) {
    1 <= b <= 7 && Shuntsu(b) in melds && Shuntsu(b + 10) in melds && Shuntsu(b + 20) in melds
  }

  /** `_check_sanshoku`: the same run in all three suits. */
  function CheckSanshoku(melds: seq<Meld>): (r: bool)
    ensures r <==> exists b :: RunColoursAt(melds, b)
  {
    var starts := RunStarts(melds);
    var r := ThreeColours(starts, 7);
    assert r <==> exists b :: RunColoursAt(melds, b) by {
      if r {
        var b :| ColoursAt(starts, 7, b);
        assert RunColoursAt(melds, b);
      }
      if exists b :: RunColoursAt(melds, b) {
        var b :| RunColoursAt(melds, b);
        assert ColoursAt(starts, 7, b);
      }
    }
    r
  }

  /** The triplets of `b`, `b + 10` and `b + 20`, for `b` in 1..9. */
  predicate TripletColoursAt(melds: seq<Meld>, b: int) {
    1 <= b <= 9 && Koutsu(b) in melds && Koutsu(b + 10) in melds && Koutsu(b + 20) in melds
  }

  /** `_check_sanshoku_douko`: the same triplet in all three suits. */
  function CheckSanshokuDouko(melds: seq<Meld>): (r: bool)
    ensures r <==> exists b :: TripletColoursAt(melds, b)
  {
    var tiles := TripletTiles(melds);
    var r := ThreeColours(tiles, 9);
    assert r <==> exists b :: TripletColoursAt(melds, b) by {
      if r {
        var b :| ColoursAt(tiles, 9, b);
        assert TripletColoursAt(melds, b);
      }
      if exists b :: TripletColoursAt(melds, b) {
        var b :| TripletColoursAt(melds, b);
        assert ColoursAt(tiles, 9, b);
      }
    }
    r
  }

  /** The runs 1-2-3, 4-5-6 and 7-8-9 of the suit whose codes start at
      `base`. */
  predicate StraightAt(melds: seq<Meld>, base: int) {
    base in {0, 10, 20} && Shuntsu(base + 1) in melds && Shuntsu(base + 4) in melds && Shuntsu(base + 7) in melds
  }

  /** `_check_itsu`: the runs 1-2-3, 4-5-6 and 7-8-9 of one suit. */
  function CheckItsu(melds: seq<Meld>): (r: bool)
    ensures r <==> exists base :: StraightAt(melds, base)
  {
    var starts := RunStarts(melds);
    var r := (1 in starts && 4 in starts && 7 in starts)
      || (11 in starts && 14 in starts && 17 in starts)
      || (21 in starts && 24 in starts && 27 in starts);
    assert r <==> StraightAt(melds, 0) || StraightAt(melds, 10) || StraightAt(melds, 20);
    r
  }

  /** Some value occurs twice in `xs`: the `seen` loop of `_check_ippeiko`. */
  function HasDuplicate(xs: seq<int>): (r: bool)
    ensures r <==> exists x :: multiset(xs)[x] >= 2
  {
    if xs == [] then false
    else
      assert xs == [xs[0]] + xs[1..];
      var rest := multiset(xs[1..]);
      assert forall x :: multiset(xs)[x] == rest[x] + (if x == xs[0] then 1 else 0);
      if xs[0] in xs[1..] then
        assert multiset(xs)[xs[0]] >= 2;
        true
      else
        assert rest[xs[0]] == 0;
        HasDuplicate(xs[1..])
  }

  /** `_check_ippeiko`: the same run twice. */
  function CheckIppeiko(melds: seq<Meld>): (r: bool)
    ensures r <==> exists x :: multiset(melds)[Shuntsu(x)] >= 2
  {
    var starts := RunStarts(melds);
    assert forall x :: multiset(starts)[x] == multiset(melds)[Shuntsu(x)];
    HasDuplicate(starts)
  }

  /** The sum of `count // 2` over the values `vs`, counts taken from `m`. */
  function HalfCounts(vs: seq<int>, m: multiset<int>): nat {
    if vs == [] then 0 else m[vs[0]] / 2 + HalfCounts(vs[1..], m)
  }

  /** `pairs_found` of `_check_ryanpeiko`: the pairs formed by equal runs,
      summed over the distinct runs (`Counter(seqs).items()`). */
  function PairsFound(xs: seq<int>): nat {
    HalfCounts(SortedSet(xs), multiset(xs))
  }

  /** `_check_ryanpeiko`: at least four runs forming two pairs of equal
      runs. */
  predicate CheckRyanpeiko(melds: seq<Meld>) {
    var starts := RunStarts(melds);
    |starts| >= 4 && PairsFound(starts) >= 2
  }

  /** A positive sum of half counts has a value counted at least twice. */
  lemma {:induction false} HalfCountsPositive(vs: seq<int>, m: multiset<int>)
    requires HalfCounts(vs, m) > 0
    ensures exists v :: v in vs && m[v] >= 2
  {
    var v := vs[0];
    if m[v] >= 2 {
      assert v in vs && m[v] >= 2;
    } else {
      HalfCountsPositive(vs[1..], m);
      var w :| w in vs[1..] && m[w] >= 2;
      assert w in vs && m[w] >= 2;
    }
  }

  /** Every ryanpeiko hand also passes the ippeiko test, which is why the
      source tries ryanpeiko first and ippeiko only in its `elif`. */
  lemma RyanpeikoHasIppeiko(melds: seq<Meld>)
    requires CheckRyanpeiko(melds)
    ensures CheckIppeiko(melds)
  {
    var starts := RunStarts(melds);
    HalfCountsPositive(SortedSet(starts), multiset(starts));
    var v :| v in SortedSet(starts) && multiset(starts)[v] >= 2;
    assert multiset(melds)[Shuntsu(v)] >= 2;
  }

  /** One value of `vs` counted four times, or two values of `vs` counted
      twice each. */
  predicate TwoPairsAmong(vs: seq<int>, m: multiset<int>) {
    (exists a, b :: a in vs && b in vs && a != b && m[a] >= 2 && m[b] >= 2)
    || (exists a :: a in vs && m[a] >= 4)
  }

  lemma {:induction false} HalfCountsAtLeast(vs: seq<int>, m: multiset<int>, a: int)
    requires a in vs
    ensures HalfCounts(vs, m) >= m[a] / 2
  {
    if vs[0] != a {
      assert vs == [vs[0]] + vs[1..];
      HalfCountsAtLeast(vs[1..], m, a);
    }
  }

  lemma {:induction false} HalfCountsAtLeastBoth(vs: seq<int>, m: multiset<int>, a: int, b: int)
    requires a in vs && b in vs && a != b
    ensures HalfCounts(vs, m) >= m[a] / 2 + m[b] / 2
  {
    assert vs == [vs[0]] + vs[1..];
    if vs[0] == a {
      HalfCountsAtLeast(vs[1..], m, b);
    } else if vs[0] == b {
      HalfCountsAtLeast(vs[1..], m, a);
    } else {
      HalfCountsAtLeastBoth(vs[1..], m, a, b);
    }
  }

  lemma {:induction false} HalfCountsTwo(vs: seq<int>, m: multiset<int>)
    requires StrictlySorted(vs) && HalfCounts(vs, m) >= 2
    ensures TwoPairsAmong(vs, m)
  {
    var v, r := vs[0], vs[1..];
    assert vs == [v] + r;
    assert StrictlySorted(r) by {
      forall i, j | 0 <= i < j < |r| ensures r[i] < r[j] {
        assert r[i] == vs[i + 1] && r[j] == vs[j + 1];
      }
    }
    if m[v] >= 4 {
      assert v in vs;
    } else if m[v] >= 2 {
      HalfCountsPositive(r, m);
      var w :| w in r && m[w] >= 2;
      var j :| 0 <= j < |r| && r[j] == w;
      assert vs[j + 1] == w;
      assert v != w;
      assert v in vs && w in vs;
    } else {
      HalfCountsTwo(r, m);
      if exists a :: a in r && m[a] >= 4 {
        var a :| a in r && m[a] >= 4;
        assert a in vs;
      } else {
        var a, b :| a in r && b in r && a != b && m[a] >= 2 && m[b] >= 2;
        assert a in vs && b in vs;
      }
    }
  }

  /** Two different values counted twice each, or one counted four times. */
  ghost predicate TwoPairs(m: multiset<int>) {
    (exists a, b :: a != b && m[a] >= 2 && m[b] >= 2) || (exists a :: m[a] >= 4)
  }

  /** Over distinct values that include every value counted twice, the
      half counts reach two exactly when there are two pairs. */
  lemma HalfCountsIff(vs: seq<int>, m: multiset<int>)
    requires StrictlySorted(vs)
    requires forall a :: m[a] >= 2 ==> a in vs
    ensures HalfCounts(vs, m) >= 2 <==> TwoPairs(m)
  {
    if HalfCounts(vs, m) >= 2 {
      HalfCountsTwo(vs, m);
      if exists a :: a in vs && m[a] >= 4 {
        var a :| a in vs && m[a] >= 4;
        assert m[a] >= 4;
      } else {
        var a, b :| a in vs && b in vs && a != b && m[a] >= 2 && m[b] >= 2;
        assert a != b && m[a] >= 2 && m[b] >= 2;
      }
    }
    if TwoPairs(m) {
      if exists a :: m[a] >= 4 {
        var a :| m[a] >= 4;
        HalfCountsAtLeast(vs, m, a);
      } else {
        var a, b :| a != b && m[a] >= 2 && m[b] >= 2;
        HalfCountsAtLeastBoth(vs, m, a, b);
      }
    }
  }

  /** `pairs_found` reaches two exactly when one value occurs four times
      or two different values occur twice each. */
  lemma PairsFoundIff(xs: seq<int>)
    ensures PairsFound(xs) >= 2 <==> TwoPairs(multiset(xs))
  {
    var vs, m := SortedSet(xs), multiset(xs);
    forall a | m[a] >= 2 ensures a in vs {
      assert a in xs by {
        assert a in m;
      }
    }
    HalfCountsIff(vs, m);
  }

  /** The counting of `_check_ryanpeiko` in the hand's terms: ryanpeiko
      exactly when there are four or more runs and either two different runs
      each occur twice or one run occurs four times. */
  lemma RyanpeikoIff(melds: seq<Meld>)
    ensures CheckRyanpeiko(melds) <==>
      (|RunStarts(melds)| >= 4 &&
       ((exists a, b :: a != b && multiset(melds)[Shuntsu(a)] >= 2 && multiset(melds)[Shuntsu(b)] >= 2)
        || (exists a :: multiset(melds)[Shuntsu(a)] >= 4)))
  {
    var starts := RunStarts(melds);
    PairsFoundIff(starts);
    assert forall x :: multiset(starts)[x] == multiset(melds)[Shuntsu(x)];
    assert TwoPairs(multiset(starts)) <==>
      (exists a, b :: a != b && multiset(melds)[Shuntsu(a)] >= 2 && multiset(melds)[Shuntsu(b)] >= 2)
      || (exists a :: multiset(melds)[Shuntsu(a)] >= 4);
  }

  /** `_is_terminal_or_honor` for every tile of a meld as `_check_chanta`
      tests it: the triplet's tile, or some tile of the run. */
  predicate ChantaMeld(m: Meld) {
    match m
    case Koutsu(t) => IsTerminalOrHonor(t)
    case Shuntsu(f) => IsTerminalOrHonor(f) || IsTerminalOrHonor(f + 1) || IsTerminalOrHonor(f + 2)
  }

  /** `_check_chanta`: the pair and every meld hold a terminal or honour. */
  function CheckChanta(melds: seq<Meld>, pair: int): (r: bool)
    ensures r <==> IsTerminalOrHonor(pair) && forall m :: m in melds ==> ChantaMeld(m)
  {
    IsTerminalOrHonor(pair) && ChantaMelds(melds)
  }

  function ChantaMelds(melds: seq<Meld>): (r: bool)
    ensures r <==> forall m :: m in melds ==> ChantaMeld(m)
  {
    melds == [] || (ChantaMeld(melds[0]) && ChantaMelds(melds[1..]))
  }

  /** The meld test of `_check_junchan`: a terminal in the triplet or run,
      and no tile of the meld an honour. */
  predicate JunchanMeld(m: Meld) {
    (match m
     case Koutsu(t) => IsTerminal(t)
     case Shuntsu(f) => IsTerminal(f) || IsTerminal(f + 1) || IsTerminal(f + 2))
    && forall t :: t in MeldTiles(m) ==> t < 30
  }

  /** `_check_junchan`: a terminal in the pair and in every meld, and no
      honours. */
  function CheckJunchan(melds: seq<Meld>, pair: int): (r: bool)
    ensures r <==> IsTerminal(pair) && forall m :: m in melds ==> JunchanMeld(m)
  {
    IsTerminal(pair) && JunchanMelds(melds)
  }

  function JunchanMelds(melds: seq<Meld>): (r: bool)
    ensures r <==> forall m :: m in melds ==> JunchanMeld(m)
  {
    melds == [] || (JunchanMeld(melds[0]) && JunchanMelds(melds[1..]))
  }

  /** Every junchan hand also passes the chanta test, which is why the
      source tries junchan first and chanta only in its `elif`. */
  lemma JunchanHasChanta(melds: seq<Meld>, pair: int)
    requires CheckJunchan(melds, pair)
    ensures CheckChanta(melds, pair)
  {
    forall m | m in melds ensures ChantaMeld(m) {
      assert JunchanMeld(m);
    }
  }

  /** `dragon_triplets` of `_check_shosangen`. */
  function DragonTriplets(melds: seq<Meld>): (n: nat)
    ensures n == multiset(melds)[Koutsu(41)] + multiset(melds)[Koutsu(43)] + multiset(melds)[Koutsu(45)]
  {
    if melds == [] then 0
    else
      assert melds == [melds[0]] + melds[1..];
      (if melds[0].Koutsu? && melds[0].tile in Dragons then 1 else 0) + DragonTriplets(melds[1..])
  }

  /** `_check_shosangen`: a dragon pair and at least two dragon triplets. */
  function CheckShosangen(melds: seq<Meld>, pair: int): (r: bool)
    ensures r <==> (pair in Dragons &&
                    multiset(melds)[Koutsu(41)] + multiset(melds)[Koutsu(43)] + multiset(melds)[Koutsu(45)] >= 2)
  {
    pair in Dragons && DragonTriplets(melds) >= 2
  }

  /** `ankou_count` of `_check_sanankou`: the triplets, less a triplet of the
      winning tile when the win is by ron. */
  function ConcealedTriplets(melds: seq<Meld>, win: int, isTsumo: bool): (n: nat)
    ensures n + (if isTsumo then 0 else multiset(melds)[Koutsu(win)]) == |TripletTiles(melds)|
  {
    if melds == [] then 0
    else
      assert melds == [melds[0]] + melds[1..];
      (if melds[0].Koutsu? && (isTsumo || melds[0].tile != win) then 1 else 0)
        + ConcealedTriplets(melds[1..], win, isTsumo)
  }

  /** `_check_sanankou`: at least three concealed triplets. */
  function CheckSanankou(melds: seq<Meld>, win: int, isTsumo: bool): (r: bool)
    ensures r <==> |TripletTiles(melds)| - (if isTsumo then 0 else multiset(melds)[Koutsu(win)]) >= 3
  {
    ConcealedTriplets(melds, win, isTsumo) >= 3
  }

  /** The tests `_check_yakuhai` makes of one triplet: one per dragon, one
      for the round wind and one for the seat wind. */
  function TripletRules(tile: int, ctx: Context): seq<Rule> {
    [Rule(tile == 41, Award(YakuhaiHaku, 1)), Rule(tile == 43, Award(YakuhaiHatsu, 1)),
     Rule(tile == 45, Award(YakuhaiChun, 1)),
     Rule(WindCode(ctx.bakaze) == Some(tile), Award(YakuhaiBakaze, 1)),
     Rule(WindCode(ctx.jikaze) == Some(tile), Award(YakuhaiJikaze, 1))]
  }

  /** `_check_yakuhai`: the tests of every triplet, in meld order. */
  function YakuhaiRules(melds: seq<Meld>, ctx: Context): seq<Rule> {
    if melds == [] then []
    else (if melds[0].Koutsu? then TripletRules(melds[0].tile, ctx) else []) + YakuhaiRules(melds[1..], ctx)
  }

  /** `_check_pinfu_structure`: four runs and a head that is neither a
      dragon nor the round or seat wind. */
  predicate CheckPinfuStructure(pair: int, melds: seq<Meld>, ctx: Context) {
    AllRuns(melds) && pair !in Dragons
      && WindCode(ctx.bakaze) != Some(pair) && WindCode(ctx.jikaze) != Some(pair)
  }

  // ---------------------------------------------------------------------
  // One structure

  /** Reach, menzen tsumo and the flush, tested for both kinds of
      structure. */
  function UniversalRules(tiles: seq<int>, ctx: Context): seq<Rule> {
    [Rule(ctx.isReach && ctx.isMenzen, Award(Reach, 1)),
     Rule(ctx.isTsumo && ctx.isMenzen, Award(MenzenTsumo, 1))]
    + FlushRules(tiles, ctx.isMenzen)
  }

  /** The structural tests of a seven-pairs reading. */
  function SevenPairsRules(tiles: seq<int>): seq<Rule> {
    [Rule(true, Award(Chitoitsu, 2)), Rule(CheckTanyao(tiles), Award(Tanyao, 1)),
     Rule(CheckHonroutou(tiles), Award(Honroutou, 2))]
  }

  /** The outcomes of the structural checks of a head-and-four-melds
      reading, besides yakuhai. */
  datatype Tests = Tests(
    tanyao: bool, pinfu: bool, toitoi: bool, sanankou: bool, sanshoku: bool, sanshokuDouko: bool,
    itsu: bool, ryanpeiko: bool, ippeiko: bool, honroutou: bool, junchan: bool, chanta: bool,
    shosangen: bool)

  /** Every `_check_*` of a standard reading, evaluated once. */
  function StandardTests(pair: int, melds: seq<Meld>, tiles: seq<int>, ctx: Context, win: int): Tests {
    Tests(CheckTanyao(tiles), CheckPinfuStructure(pair, melds, ctx), CheckToitoi(melds),
      CheckSanankou(melds, win, ctx.isTsumo), CheckSanshoku(melds), CheckSanshokuDouko(melds),
      CheckItsu(melds), CheckRyanpeiko(melds), CheckIppeiko(melds), CheckHonroutou(tiles),
      CheckJunchan(melds, pair), CheckChanta(melds, pair), CheckShosangen(melds, pair))
  }

  /** The structural tests of a head-and-four-melds reading, in the order
      the source makes them: tanyao, the yakuhai, then the rest. */
  function StandardRules(t: Tests, melds: seq<Meld>, ctx: Context): seq<Rule> {
    [Rule(t.tanyao, Award(Tanyao, 1))] + YakuhaiRules(melds, ctx) + LaterRules(t, ctx.isMenzen)
  }

  /** The tests that follow the yakuhai.  The `if`/`elif` chains become
      rules whose tests exclude the earlier branches: ryanpeiko before
      ippeiko, both for a closed hand only, and honroutou before junchan
      before chanta. */
  function LaterRules(t: Tests, isMenzen: bool): seq<Rule> {
    [Rule(isMenzen && t.pinfu, Award(Pinfu, 1)),
     Rule(t.toitoi, Award(Toitoi, 2)),
     Rule(t.sanankou, Award(Sanankou, 2)),
     Rule(t.sanshoku, Award(Sanshoku, if isMenzen then 2 else 1)),
     Rule(t.sanshokuDouko, Award(SanshokuDouko, 2)),
     Rule(t.itsu, Award(Itsu, if isMenzen then 2 else 1)),
     Rule(isMenzen && t.ryanpeiko, Award(Ryanpeiko, 3)),
     Rule(isMenzen && !t.ryanpeiko && t.ippeiko, Award(Ippeiko, 1)),
     Rule(t.honroutou, Award(Honroutou, 2)),
     Rule(!t.honroutou && t.junchan, Award(Junchan, if isMenzen then 3 else 2)),
     Rule(!t.honroutou && !t.junchan && t.chanta, Award(Chanta, if isMenzen then 2 else 1)),
     Rule(t.shosangen, Award(Shosangen, 2))]
  }

  /** Every test the loop body of `execute` makes for one structure. */
  function RulesFor(s: Structure, tiles: seq<int>, ctx: Context, win: int): seq<Rule> {
    UniversalRules(tiles, ctx) +
    match s
    case SevenPairs(_) => SevenPairsRules(tiles)
    case Standard(pair, melds) => StandardRules(StandardTests(pair, melds, tiles, ctx, win), melds, ctx)
  }

  /** `current_yaku` for one structure; `tiles` are the parsed hand and
      `win` the code of the winning tile. */
  function YakuFor(s: Structure, tiles: seq<int>, ctx: Context, win: int): seq<Award> {
    Awarded(RulesFor(s, tiles, ctx, win))
  }

  /** `_get_score_name`. */
  function ScoreNameOf(han: int): ScoreName {
    if han >= 13 then Yakuman
    else if han >= 11 then Sanbaiman
    else if han >= 8 then Baiman
    else if han >= 6 then Haneman
    else if han >= 5 then Mangan
    else Normal
  }

  /** The order of the labels, lowest first. */
  function Tier(n: ScoreName): int {
    match n
    case Unnamed => 0 case Normal => 1 case Mangan => 2 case Haneman => 3
    case Baiman => 4 case Sanbaiman => 5 case Yakuman => 6
  }

  /** More han never gives a lower label, every han gets a label other than
      the empty one of the no-structure result, and the labels cover the han
      in the bands: below 5, 5, 6-7, 8-10, 11-12, 13 and more. */
  lemma ScoreNameMonotone(h1: int, h2: int)
    requires h1 <= h2
    ensures Tier(ScoreNameOf(h1)) <= Tier(ScoreNameOf(h2))
    ensures ScoreNameOf(h1) != Unnamed
    ensures ScoreNameOf(h1) == Normal <==> h1 < 5
    ensures ScoreNameOf(h1) == Mangan <==> h1 == 5
    ensures ScoreNameOf(h1) == Haneman <==> 6 <= h1 <= 7
    ensures ScoreNameOf(h1) == Baiman <==> 8 <= h1 <= 10
    ensures ScoreNameOf(h1) == Sanbaiman <==> 11 <= h1 <= 12
    ensures ScoreNameOf(h1) == Yakuman <==> 13 <= h1
  {
  }

  // ---------------------------------------------------------------------
  // What a structure earns

  /** The han of each yaku as the checker awards it, open or closed. */
  function Worth(y: Yaku, isMenzen: bool): nat {
    match y
    case Chinitsu => if isMenzen then 6 else 5
    case Honitsu => if isMenzen then 3 else 2
    case Junchan => if isMenzen then 3 else 2
    case Ryanpeiko => 3
    case Sanshoku | Itsu | Chanta => if isMenzen then 2 else 1
    case Chitoitsu | Toitoi | Sanankou | SanshokuDouko | Honroutou | Shosangen => 2
    case Reach | MenzenTsumo | Tanyao | Pinfu | Ippeiko => 1
    case YakuhaiHaku | YakuhaiHatsu | YakuhaiChun | YakuhaiBakaze | YakuhaiJikaze => 1
  }

  /** The han of a list of names, each at its worth. */
  function WorthOf(names: seq<Yaku>, isMenzen: bool): nat {
    if names == [] then 0 else Worth(names[0], isMenzen) + WorthOf(names[1..], isMenzen)
  }

  /** Every award carries the worth of its yaku. */
  predicate AtWorth(awards: seq<Award>, isMenzen: bool) {
    forall a :: a in awards ==> a.han == Worth(a.yaku, isMenzen)
  }

  /** Every rule would append its yaku at its worth. */
  predicate RulesAtWorth(rules: seq<Rule>, isMenzen: bool) {
    forall i :: 0 <= i < |rules| ==> rules[i].award.han == Worth(rules[i].award.yaku, isMenzen)
  }

  lemma RulesAtWorthAppend(a: seq<Rule>, b: seq<Rule>, isMenzen: bool)
    requires RulesAtWorth(a, isMenzen) && RulesAtWorth(b, isMenzen)
    ensures RulesAtWorth(a + b, isMenzen)
  {
    forall i | 0 <= i < |a + b| ensures (a + b)[i] == if i < |a| then a[i] else b[i - |a|] { }
  }

  lemma {:induction false} AwardedAtWorth(rules: seq<Rule>, isMenzen: bool)
    requires RulesAtWorth(rules, isMenzen)
    ensures AtWorth(Awarded(rules), isMenzen)
  {
    if rules != [] {
      assert RulesAtWorth(rules[1..], isMenzen) by {
        forall i | 0 <= i < |rules[1..]| ensures rules[1..][i] == rules[i + 1] { }
      }
      AwardedAtWorth(rules[1..], isMenzen);
    }
  }

  /** A list of awards at their worth totals the worth of its names. */
  lemma {:induction false} HanIsWorth(awards: seq<Award>, isMenzen: bool)
    requires AtWorth(awards, isMenzen)
    ensures Han(awards) == WorthOf(Names(awards), isMenzen)
  {
    if awards != [] {
      assert Names(awards)[1..] == Names(awards[1..]);
      assert awards[0] in awards;
      HanIsWorth(awards[1..], isMenzen);
    }
  }

  lemma {:induction false} YakuhaiAtWorth(melds: seq<Meld>, ctx: Context)
    ensures RulesAtWorth(YakuhaiRules(melds, ctx), ctx.isMenzen)
  {
    if melds != [] {
      YakuhaiAtWorth(melds[1..], ctx);
      if melds[0].Koutsu? {
        RulesAtWorthAppend(TripletRules(melds[0].tile, ctx), YakuhaiRules(melds[1..], ctx), ctx.isMenzen);
      } else {
        assert YakuhaiRules(melds, ctx) == YakuhaiRules(melds[1..], ctx);
      }
    }
  }

  lemma LaterAtWorth(t: Tests, isMenzen: bool)
    ensures RulesAtWorth(LaterRules(t, isMenzen), isMenzen)
  {
  }

  lemma StandardAtWorth(t: Tests, melds: seq<Meld>, ctx: Context)
    ensures RulesAtWorth(StandardRules(t, melds, ctx), ctx.isMenzen)
  {
    var first := [Rule(t.tanyao, Award(Tanyao, 1))];
    YakuhaiAtWorth(melds, ctx);
    LaterAtWorth(t, ctx.isMenzen);
    RulesAtWorthAppend(first, YakuhaiRules(melds, ctx), ctx.isMenzen);
    RulesAtWorthAppend(first + YakuhaiRules(melds, ctx), LaterRules(t, ctx.isMenzen), ctx.isMenzen);
  }

  lemma UniversalAtWorth(tiles: seq<int>, ctx: Context)
    ensures RulesAtWorth(UniversalRules(tiles, ctx), ctx.isMenzen)
  {
  }

  lemma SevenPairsAtWorth(tiles: seq<int>, isMenzen: bool)
    ensures RulesAtWorth(SevenPairsRules(tiles), isMenzen)
  {
  }

  lemma RulesForAtWorth(s: Structure, tiles: seq<int>, ctx: Context, win: int)
    ensures RulesAtWorth(RulesFor(s, tiles, ctx, win), ctx.isMenzen)
  {
    UniversalAtWorth(tiles, ctx);
    match s {
      case SevenPairs(_) =>
        SevenPairsAtWorth(tiles, ctx.isMenzen);
        RulesAtWorthAppend(UniversalRules(tiles, ctx), SevenPairsRules(tiles), ctx.isMenzen);
      case Standard(pair, melds) =>
        var t := StandardTests(pair, melds, tiles, ctx, win);
        StandardAtWorth(t, melds, ctx);
        RulesAtWorthAppend(UniversalRules(tiles, ctx), StandardRules(t, melds, ctx), ctx.isMenzen);
    }
  }

  /** Every test of the checker appends its yaku at the han of the table:
      the han of a structure is the worth of the names it is awarded. */
  lemma HanIsWorthOfNames(s: Structure, tiles: seq<int>, ctx: Context, win: int)
    ensures Han(YakuFor(s, tiles, ctx, win)) == WorthOf(Names(YakuFor(s, tiles, ctx, win)), ctx.isMenzen)
  {
    RulesForAtWorth(s, tiles, ctx, win);
    AwardedAtWorth(RulesFor(s, tiles, ctx, win), ctx.isMenzen);
    HanIsWorth(YakuFor(s, tiles, ctx, win), ctx.isMenzen);
  }

  /** The tile whose triplet earns yakuhai `y`: a dragon, or the code of the
      round or seat wind; `None` for other yaku or a wind name the table
      does not know. */
  function YakuhaiTile(y: Yaku, ctx: Context): Option<int> {
    match y
    case YakuhaiHaku => Some(41)
    case YakuhaiHatsu => Some(43)
    case YakuhaiChun => Some(45)
    case YakuhaiBakaze => WindCode(ctx.bakaze)
    case YakuhaiJikaze => WindCode(ctx.jikaze)
    case _ => None
  }

  /** A triplet of `tile` earns exactly the yakuhai whose tile it is. */
  lemma TripletFires(tile: int, ctx: Context, y: Yaku)
    ensures Fires(TripletRules(tile, ctx), y) <==> YakuhaiTile(y, ctx) == Some(tile)
  {
    var rules := TripletRules(tile, ctx);
    if YakuhaiTile(y, ctx) == Some(tile) {
      var i := match y case YakuhaiHaku => 0 case YakuhaiHatsu => 1 case YakuhaiChun => 2 case YakuhaiBakaze => 3 case _ => 4;
      assert FiresAt(rules, i, y);
    }
  }

  /** `_check_yakuhai` names exactly the yakuhai whose tile has a triplet
      among the melds. */
  lemma {:induction false} YakuhaiFires(melds: seq<Meld>, ctx: Context, y: Yaku)
    ensures Fires(YakuhaiRules(melds, ctx), y) <==>
      YakuhaiTile(y, ctx).Some? && Koutsu(YakuhaiTile(y, ctx).value) in melds
  {
    if melds != [] {
      assert melds == [melds[0]] + melds[1..];
      YakuhaiFires(melds[1..], ctx, y);
      var here := if melds[0].Koutsu? then TripletRules(melds[0].tile, ctx) else [];
      if melds[0].Koutsu? {
        TripletFires(melds[0].tile, ctx, y);
      }
      FiresAppend(here, YakuhaiRules(melds[1..], ctx), y);
    }
  }

  /** Whether a standard reading whose checks came out as `t` earns
      structural yaku `y` (yakuhai aside): the guards of the checker, with
      ryanpeiko taking precedence over ippeiko and honroutou over junchan
      over chanta. */
  predicate Passes(y: Yaku, t: Tests, isMenzen: bool) {
    match y
    case Tanyao => t.tanyao
    case Pinfu => isMenzen && t.pinfu
    case Toitoi => t.toitoi
    case Sanankou => t.sanankou
    case Sanshoku => t.sanshoku
    case SanshokuDouko => t.sanshokuDouko
    case Itsu => t.itsu
    case Ryanpeiko => isMenzen && t.ryanpeiko
    case Ippeiko => isMenzen && !t.ryanpeiko && t.ippeiko
    case Honroutou => t.honroutou
    case Junchan => !t.honroutou && t.junchan
    case Chanta => !t.honroutou && !t.junchan && t.chanta
    case Shosangen => t.shosangen
    case _ => false
  }

  lemma LaterFires(t: Tests, isMenzen: bool, y: Yaku)
    ensures Fires(LaterRules(t, isMenzen), y) <==> !y.Tanyao? && Passes(y, t, isMenzen)
  {
    var rules := LaterRules(t, isMenzen);
    if !y.Tanyao? && Passes(y, t, isMenzen) {
      var i := match y
        case Pinfu => 0 case Toitoi => 1 case Sanankou => 2 case Sanshoku => 3 case SanshokuDouko => 4
        case Itsu => 5 case Ryanpeiko => 6 case Ippeiko => 7 case Honroutou => 8 case Junchan => 9
        case Chanta => 10 case _ => 11;
      assert FiresAt(rules, i, y);
    }
  }

  /** The structural tests of a standard reading pass for exactly the
      yaku it earns. */
  lemma StandardFires(t: Tests, melds: seq<Meld>, ctx: Context, y: Yaku)
    ensures Fires(StandardRules(t, melds, ctx), y) <==>
      Passes(y, t, ctx.isMenzen) || (YakuhaiTile(y, ctx).Some? && Koutsu(YakuhaiTile(y, ctx).value) in melds)
  {
    var first := [Rule(t.tanyao, Award(Tanyao, 1))];
    FiresAppend(first, YakuhaiRules(melds, ctx), y);
    FiresAppend(first + YakuhaiRules(melds, ctx), LaterRules(t, ctx.isMenzen), y);
    YakuhaiFires(melds, ctx, y);
    LaterFires(t, ctx.isMenzen, y);
    if Fires(first, y) {
      var i :| FiresAt(first, i, y);
    }
    if y == Tanyao && t.tanyao {
      assert FiresAt(first, 0, y);
    }
  }

  /** The yaku every structure is tested for: reach and menzen tsumo for a
      closed hand, and the flush. */
  predicate UniversalPasses(y: Yaku, tiles: seq<int>, ctx: Context) {
    match y
    case Reach => ctx.isReach && ctx.isMenzen
    case MenzenTsumo => ctx.isTsumo && ctx.isMenzen
    case Chinitsu => SuitsUsed(tiles) == 1 && !AnyHonour(tiles)
    case Honitsu => SuitsUsed(tiles) == 1 && AnyHonour(tiles)
    case _ => false
  }

  /** The structural yaku of a seven-pairs reading. */
  predicate SevenPairsPasses(y: Yaku, tiles: seq<int>) {
    match y
    case Chitoitsu => true
    case Tanyao => CheckTanyao(tiles)
    case Honroutou => CheckHonroutou(tiles)
    case _ => false
  }

  lemma UniversalFires(tiles: seq<int>, ctx: Context, y: Yaku)
    ensures Fires(UniversalRules(tiles, ctx), y) <==> UniversalPasses(y, tiles, ctx)
  {
    var rules := UniversalRules(tiles, ctx);
    if UniversalPasses(y, tiles, ctx) {
      var i := match y case Reach => 0 case MenzenTsumo => 1 case Chinitsu => 2 case _ => 3;
      assert FiresAt(rules, i, y);
    }
  }

  lemma SevenPairsFires(tiles: seq<int>, y: Yaku)
    ensures Fires(SevenPairsRules(tiles), y) <==> SevenPairsPasses(y, tiles)
  {
    var rules := SevenPairsRules(tiles);
    if SevenPairsPasses(y, tiles) {
      var i := match y case Chitoitsu => 0 case Tanyao => 1 case _ => 2;
      assert FiresAt(rules, i, y);
    }
  }

  /** Whether structure `s` earns yaku `y`, yakuhai included. */
  predicate Earned(y: Yaku, s: Structure, tiles: seq<int>, ctx: Context, win: int) {
    UniversalPasses(y, tiles, ctx) ||
    match s
    case SevenPairs(_) => SevenPairsPasses(y, tiles)
    case Standard(pair, melds) =>
      Passes(y, StandardTests(pair, melds, tiles, ctx, win), ctx.isMenzen)
      || (YakuhaiTile(y, ctx).Some? && Koutsu(YakuhaiTile(y, ctx).value) in melds)
  }

  /** The names a standard reading collects, for any outcome `t` of its
      structural tests. */
  lemma StandardNames(tiles: seq<int>, ctx: Context, t: Tests, melds: seq<Meld>, y: Yaku)
    ensures y in Names(Awarded(UniversalRules(tiles, ctx) + StandardRules(t, melds, ctx)))
        <==> UniversalPasses(y, tiles, ctx) || Passes(y, t, ctx.isMenzen)
             || (YakuhaiTile(y, ctx).Some? && Koutsu(YakuhaiTile(y, ctx).value) in melds)
  {
    AwardedNames(UniversalRules(tiles, ctx) + StandardRules(t, melds, ctx), y);
    UniversalFires(tiles, ctx, y);
    StandardFires(t, melds, ctx, y);
    FiresAppend(UniversalRules(tiles, ctx), StandardRules(t, melds, ctx), y);
  }

  /** The names a seven-pairs reading collects. */
  lemma SevenPairsNames(tiles: seq<int>, ctx: Context, y: Yaku)
    ensures y in Names(Awarded(UniversalRules(tiles, ctx) + SevenPairsRules(tiles)))
        <==> UniversalPasses(y, tiles, ctx) || SevenPairsPasses(y, tiles)
  {
    AwardedNames(UniversalRules(tiles, ctx) + SevenPairsRules(tiles), y);
    UniversalFires(tiles, ctx, y);
    SevenPairsFires(tiles, y);
    FiresAppend(UniversalRules(tiles, ctx), SevenPairsRules(tiles), y);
  }

  /** `current_yaku` names exactly the yaku the structure earns. */
  lemma YakuForNames(s: Structure, tiles: seq<int>, ctx: Context, win: int, y: Yaku)
    ensures y in Names(YakuFor(s, tiles, ctx, win)) <==> Earned(y, s, tiles, ctx, win)
  {
    match s {
      case SevenPairs(_) =>
        SevenPairsNames(tiles, ctx, y);
      case Standard(pair, melds) =>
        StandardNames(tiles, ctx, StandardTests(pair, melds, tiles, ctx, win), melds, y);
    }
  }

  /** A standard reading never has both flushes, and never chitoitsu,
      whatever its structural tests say. */
  lemma StandardFlushExclusive(tiles: seq<int>, ctx: Context, t: Tests, melds: seq<Meld>)
    ensures var names := Names(Awarded(UniversalRules(tiles, ctx) + StandardRules(t, melds, ctx)));
      !(Chinitsu in names && Honitsu in names) && Chitoitsu !in names
  {
    StandardNames(tiles, ctx, t, melds, Chinitsu);
    StandardNames(tiles, ctx, t, melds, Honitsu);
    StandardNames(tiles, ctx, t, melds, Chitoitsu);
  }

  /** The `if`/`elif` of the peiko: a standard reading never has both,
      whatever its structural tests say. */
  lemma StandardPeikoExclusive(tiles: seq<int>, ctx: Context, t: Tests, melds: seq<Meld>)
    ensures var names := Names(Awarded(UniversalRules(tiles, ctx) + StandardRules(t, melds, ctx)));
      !(Ryanpeiko in names && Ippeiko in names)
  {
    StandardNames(tiles, ctx, t, melds, Ryanpeiko);
    StandardNames(tiles, ctx, t, melds, Ippeiko);
  }

  /** The `if`/`elif` chain of the outside-hand yaku: a standard reading
      has at most one of honroutou, junchan and chanta, whatever its
      structural tests say. */
  lemma StandardChainsExclusive(tiles: seq<int>, ctx: Context, t: Tests, melds: seq<Meld>)
    ensures var names := Names(Awarded(UniversalRules(tiles, ctx) + StandardRules(t, melds, ctx)));
      !(Honroutou in names && Junchan in names)
      && !(Honroutou in names && Chanta in names)
      && !(Junchan in names && Chanta in names)
  {
    StandardNames(tiles, ctx, t, melds, Honroutou);
    StandardNames(tiles, ctx, t, melds, Junchan);
    StandardNames(tiles, ctx, t, melds, Chanta);
  }

  /** An open standard hand earns none of reach, menzen tsumo, pinfu,
      ippeiko and ryanpeiko, whatever its structural tests say. */
  lemma OpenStandardYaku(tiles: seq<int>, ctx: Context, t: Tests, melds: seq<Meld>)
    requires !ctx.isMenzen
    ensures var names := Names(Awarded(UniversalRules(tiles, ctx) + StandardRules(t, melds, ctx)));
      Reach !in names && MenzenTsumo !in names && Pinfu !in names
      && Ippeiko !in names && Ryanpeiko !in names
  {
    StandardNames(tiles, ctx, t, melds, Reach);
    StandardNames(tiles, ctx, t, melds, MenzenTsumo);
    StandardNames(tiles, ctx, t, melds, Pinfu);
    StandardNames(tiles, ctx, t, melds, Ippeiko);
    StandardNames(tiles, ctx, t, melds, Ryanpeiko);
  }

  /** A seven-pairs reading always has chitoitsu, never both flushes, and
      for an open hand neither reach nor menzen tsumo. */
  lemma SevenPairsExclusions(tiles: seq<int>, ctx: Context)
    ensures var names := Names(Awarded(UniversalRules(tiles, ctx) + SevenPairsRules(tiles)));
      Chitoitsu in names
      && !(Chinitsu in names && Honitsu in names)
      && Pinfu !in names && Ippeiko !in names && Ryanpeiko !in names
      && (!ctx.isMenzen ==> Reach !in names && MenzenTsumo !in names)
  {
    SevenPairsNames(tiles, ctx, Chitoitsu);
    SevenPairsNames(tiles, ctx, Chinitsu);
    SevenPairsNames(tiles, ctx, Honitsu);
    SevenPairsNames(tiles, ctx, Pinfu);
    SevenPairsNames(tiles, ctx, Ippeiko);
    SevenPairsNames(tiles, ctx, Ryanpeiko);
    SevenPairsNames(tiles, ctx, Reach);
    SevenPairsNames(tiles, ctx, MenzenTsumo);
  }

  // ---------------------------------------------------------------------
  // execute

  /** The code `_check_sanankou` compares triplets with. */
  function WinCode(ctx: Context): int {
    CodeOrZero(ctx.winTile)
  }

  /** The body of the loop of `execute` for the checker built from `hand`
      and `ctx`: `current_yaku` of one structure. */
  function Scorer(hand: seq<string>, ctx: Context): Structure -> seq<Award> {
    s => YakuFor(s, Parse(hand), ctx, WinCode(ctx))
  }

  /** Structure `k` has the greatest han of `ss`, and every earlier one has
      strictly less. */
  predicate IsFirstBest(ss: seq<Structure>, score: Structure -> seq<Award>, k: int) {
    0 <= k < |ss|
    && (forall j :: 0 <= j < |ss| ==> Han(score(ss[j])) <= Han(score(ss[k])))
    && (forall j :: 0 <= j < k ==> Han(score(ss[j])) < Han(score(ss[k])))
  }

  /** The `best_result` entry for structure `s` and its yaku. */
  function Entry(s: Structure, awards: seq<Award>): Evaluation {
    Evaluation(Names(awards), Han(awards), 30, ScoreNameOf(Han(awards)), Some(s))
  }

  /** `YakuChecker(hand, ...).execute()`.  The source indexes the parsed
      winning tile for every standard reading, so a standard reading needs a
      winning tile the table knows. */
  method Execute(hand: seq<string>, ctx: Context) returns (result: Evaluation)
    requires IsTileName(ctx.winTile) || forall s :: s in Decompose(hand) ==> s.SevenPairs?
    ensures Decompose(hand) == [] ==> result == NoEvaluation
    ensures Decompose(hand) != [] ==>
      result.structure.Some? &&
      exists k :: IsFirstBest(Decompose(hand), Scorer(hand, ctx), k)
        && result == Entry(Decompose(hand)[k], Scorer(hand, ctx)(Decompose(hand)[k]))
  {
    var structures := DecomposeHand(hand);
    if structures == [] {
      return NoEvaluation;
    }
    result := BestOf(structures, Scorer(hand, ctx));
  }

  /** The loop of `execute` over a non-empty list of structures, each scored
      by `score`: keep the first entry whose han beats every earlier one. */
  method BestOf(structures: seq<Structure>, score: Structure -> seq<Award>) returns (result: Evaluation)
    requires structures != []
    ensures result.structure.Some?
    ensures exists k :: IsFirstBest(structures, score, k) && result == Entry(structures[k], score(structures[k]))
  {
    var bestHan: int := -1;
    result := NoEvaluation;
    ghost var k := -1;
    for i := 0 to |structures|
      invariant -1 <= k < i
      invariant k == -1 <==> i == 0
      invariant k == -1 ==> bestHan == -1
      invariant k >= 0 ==>
        bestHan == Han(score(structures[k])) && result == Entry(structures[k], score(structures[k]))
      invariant forall j :: 0 <= j < i ==> Han(score(structures[j])) <= bestHan
      invariant forall j :: 0 <= j < k ==> Han(score(structures[j])) < bestHan
    {
      var current := score(structures[i]);
      var total := Han(current);
      if total > bestHan {
        bestHan := total;
        result := Entry(structures[i], current);
        k := i;
      }
    }
    assert IsFirstBest(structures, score, k);
  }
}
