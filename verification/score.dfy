/** Fu and points (`score_counter.py`).  `calculate_fu` keeps its
    accumulator loops and is proved against the function `Fu`;
    `calculate_score` is straight-line arithmetic and stays a function. */
module ScoreCounter {
  import opened Seqs
  import opened Tiles
  import opened Melds
  import opened NetworkRules
  import opened YakuRules

  /** `math.ceil(fu / 10) * 10` on integers: the least multiple of ten
      that is not below `x`. */
  function RoundUp10(x: int): (r: int)
    ensures r % 10 == 0 && x <= r < x + 10
  {
    if x % 10 == 0 then x else x - x % 10 + 10
  }

  // ---------------------------------------------------------------------
  // calculate_fu

  /** `wind_map.get(name, 0)`. */
  function WindOrZero(name: string): int {
    match WindCode(name)
    case Some(c) => c
    case None => 0
  }

  /** The fu of one triplet: 2 for a simple tile, 4 for a terminal or
      honour, doubled when it counts as concealed (a closed hand, and not a
      ron on the triplet's own tile). */
  function TripletFu(tile: int, win: int, isTsumo: bool, isMenzen: bool): int {
    var base := if IsTerminalOrHonor(tile) then 4 else 2;
    if isMenzen && !(!isTsumo && win == tile) then 2 * base else base
  }

  /** The fu of the melds: the triplets' fu summed, runs adding nothing. */
  function MeldsFu(melds: seq<Meld>, win: int, isTsumo: bool, isMenzen: bool): int {
    if melds == [] then 0
    else
      var last := melds[|melds| - 1];
      MeldsFu(melds[..|melds| - 1], win, isTsumo, isMenzen)
      + (if last.Koutsu? then TripletFu(last.tile, win, isTsumo, isMenzen) else 0)
  }

  /** The head's fu: 2 for a dragon, 2 for the round wind, 2 for the seat
      wind, added together. */
  function HeadFu(head: int, bakaze: int, jikaze: int): int {
    (if head >= 41 then 2 else 0) + (if head == bakaze then 2 else 0) + (if head == jikaze then 2 else 0)
  }

  /** A run that the win tile completes from a closed wait: its middle
      tile (kanchan), or the edges `1-2-[3]` and `[7]-8-9` written as the
      codes 3 and 7, which only manzu runs can match. */
  predicate ClosedWait(m: Meld, win: int) {
    m.Shuntsu? && win in MeldTiles(m)
    && (win == m.first + 1 || (m.first == 1 && win == 3) || (m.first + 2 == 9 && win == 7))
  }

  /** The wait fu: 2 for a single wait on the head, or for a closed wait in
      some run, and never more than 2. */
  function WaitFu(head: int, melds: seq<Meld>, win: int): int {
    if win == head || exists m :: m in melds && ClosedWait(m, win) then 2 else 0
  }

  /** The fu accumulated on the standard path before rounding. */
  function RawFu(pair: int, melds: seq<Meld>, win: int, isTsumo: bool, isMenzen: bool,
                 bakaze: int, jikaze: int): int
  {
    20 + (if isMenzen && !isTsumo then 10 else 0) + (if isTsumo then 2 else 0)
    + MeldsFu(melds, win, isTsumo, isMenzen) + HeadFu(pair, bakaze, jikaze) + WaitFu(pair, melds, win)
  }

  /** What `calculate_fu` returns: 0 without a structure, 25 for seven
      pairs, 20 or 30 for pinfu, otherwise the accumulated fu rounded up to
      a multiple of ten (except that 25 would stay 25). */
  function Fu(structure: Option<Structure>, winTile: string, isTsumo: bool, isMenzen: bool,
              bakaze: string, jikaze: string, yakuNames: seq<Yaku>): int
  {
    match structure
    case None => 0
    case Some(SevenPairs(_)) => 25
    case Some(Standard(pair, melds)) =>
      if Pinfu in yakuNames then (if isTsumo then 20 else 30)
      else
        var raw := RawFu(pair, melds, CodeOrZero(winTile), isTsumo, isMenzen,
                         WindOrZero(bakaze), WindOrZero(jikaze));
        if raw == 25 then 25 else RoundUp10(raw)
  }

  /** `calculate_fu`. */
  method CalculateFu(structure: Option<Structure>, winTile: string, isTsumo: bool, isMenzen: bool,
                     bakaze: string, jikaze: string, yakuNames: seq<Yaku>) returns (fu: int)
    ensures fu == Fu(structure, winTile, isTsumo, isMenzen, bakaze, jikaze, yakuNames)
  {
    if structure.None? {
      return 0;
    }
    var s := structure.value;
    if s.SevenPairs? {
      return 25;
    }
    if Pinfu in yakuNames {
      return if isTsumo then 20 else 30;
    }
    fu := 20;
    if isMenzen && !isTsumo {
      fu := fu + 10;
    }
    if isTsumo {
      fu := fu + 2;
    }
    var win := CodeOrZero(winTile);
    var bakazeCode := WindOrZero(bakaze);
    var jikazeCode := WindOrZero(jikaze);
    var melds := s.melds;
    ghost var start := fu;
    for i := 0 to |melds|
      invariant fu == start + MeldsFu(melds[..i], win, isTsumo, isMenzen)
    {
      assert melds[..i + 1][..i] == melds[..i];
      match melds[i] {
        case Koutsu(tile) =>
          var baseVal := 2;
          if IsTerminalOrHonor(tile) {
            baseVal := baseVal * 2;
          }
          var isAnkou := isMenzen;
          if !isTsumo && win == tile {
            isAnkou := false;
          }
          if isAnkou {
            baseVal := baseVal * 2;
          }
          fu := fu + baseVal;
        case Shuntsu(_) =>
      }
    }
    assert melds[..|melds|] == melds;

    var head := s.pair;
    if head >= 41 {
      fu := fu + 2;
    }
    if head == bakazeCode {
      fu := fu + 2;
    }
    if head == jikazeCode {
      fu := fu + 2;
    }

    var addWaitFu := 0;
    if win == head {
      addWaitFu := 2;
    }
    if addWaitFu == 0 {
      var i := 0;
      while i < |melds|
        invariant 0 <= i <= |melds|
        invariant addWaitFu == 0
        invariant forall j :: 0 <= j < i ==> !ClosedWait(melds[j], win)
      {
        if melds[i].Shuntsu? {
          var tiles := MeldTiles(melds[i]);
          if win in tiles {
            if win == tiles[1] {
              addWaitFu := 2;
              break;
            }
            if tiles[0] == 1 && win == 3 {
              addWaitFu := 2;
              break;
            }
            if tiles[2] == 9 && win == 7 {
              addWaitFu := 2;
              break;
            }
          }
        }
        i := i + 1;
      }
      assert addWaitFu == 2 ==> ClosedWait(melds[i], win);
    }
    assert addWaitFu == WaitFu(head, melds, win);
    fu := fu + addWaitFu;
    assert fu == RawFu(head, melds, win, isTsumo, isMenzen, bakazeCode, jikazeCode);

    if fu == 25 {
      return 25;
    }
    CeilingIsRoundUp10(fu);
    fu := (fu + 9) / 10 * 10;
  }

  /** `math.ceil(fu / 10) * 10` computed with floor division. */
  lemma CeilingIsRoundUp10(x: int)
    ensures (x + 9) / 10 * 10 == RoundUp10(x)
  {
  }

  /** The triplets' fu is even and never negative. */
  lemma {:induction false} MeldsFuEven(melds: seq<Meld>, win: int, isTsumo: bool, isMenzen: bool)
    ensures MeldsFu(melds, win, isTsumo, isMenzen) >= 0
    ensures MeldsFu(melds, win, isTsumo, isMenzen) % 2 == 0
  {
    if melds != [] {
      MeldsFuEven(melds[..|melds| - 1], win, isTsumo, isMenzen);
    }
  }

  /** Runs add no meld fu: a hand of runs only has none. */
  lemma {:induction false} RunsHaveNoMeldFu(melds: seq<Meld>, win: int, isTsumo: bool, isMenzen: bool)
    requires AllRuns(melds)
    ensures MeldsFu(melds, win, isTsumo, isMenzen) == 0
  {
    if melds != [] {
      assert melds[|melds| - 1] in melds;
      RunsHaveNoMeldFu(melds[..|melds| - 1], win, isTsumo, isMenzen);
    }
  }

  /** Every piece of the standard path adds an even amount to 20, so the
      accumulated fu is even and at least 20: the `fu == 25` exception can
      never fire there. */
  lemma RawFuEven(pair: int, melds: seq<Meld>, win: int, isTsumo: bool, isMenzen: bool,
                  bakaze: int, jikaze: int)
    ensures var raw := RawFu(pair, melds, win, isTsumo, isMenzen, bakaze, jikaze);
      raw % 2 == 0 && raw >= 20 && raw != 25
  {
    MeldsFuEven(melds, win, isTsumo, isMenzen);
  }

  /** The shapes of `calculate_fu`'s result: 0 exactly without a structure,
      25 for seven pairs, and on the standard path a multiple of ten of at
      least 20; off the pinfu shortcut it is the least multiple of ten not
      below the accumulated fu. */
  lemma FuShape(structure: Option<Structure>, winTile: string, isTsumo: bool, isMenzen: bool,
                bakaze: string, jikaze: string, yakuNames: seq<Yaku>)
    ensures var fu := Fu(structure, winTile, isTsumo, isMenzen, bakaze, jikaze, yakuNames);
      (fu == 0 <==> structure.None?)
      && (structure.Some? && structure.value.SevenPairs? ==> fu == 25)
      && (structure.Some? && structure.value.Standard? ==> fu % 10 == 0 && fu >= 20)
  {
    if structure.Some? && structure.value.Standard? {
      var s := structure.value;
      RawFuEven(s.pair, s.melds, CodeOrZero(winTile), isTsumo, isMenzen, WindOrZero(bakaze), WindOrZero(jikaze));
    }
  }

  /** Off the pinfu shortcut, the standard path rounds the accumulated fu
      up to the nearest multiple of ten. */
  lemma FuRoundsRaw(pair: int, melds: seq<Meld>, winTile: string, isTsumo: bool, isMenzen: bool,
                    bakaze: string, jikaze: string, yakuNames: seq<Yaku>)
    requires Pinfu !in yakuNames
    ensures var raw := RawFu(pair, melds, CodeOrZero(winTile), isTsumo, isMenzen,
                             WindOrZero(bakaze), WindOrZero(jikaze));
      var fu := Fu(Some(Standard(pair, melds)), winTile, isTsumo, isMenzen, bakaze, jikaze, yakuNames);
      fu % 10 == 0 && raw <= fu < raw + 10
  {
    RawFuEven(pair, melds, CodeOrZero(winTile), isTsumo, isMenzen, WindOrZero(bakaze), WindOrZero(jikaze));
  }

  /** The pinfu test hand: pinfu on tsumo is 20 fu, whatever the melds. */
  lemma PinfuTsumoFu(pair: int, melds: seq<Meld>)
    ensures Fu(Some(Standard(pair, melds)), "4m", true, true, "east", "east", [Pinfu]) == 20
  {
  }

  /** The tanyao test hand 234m 345m 456p 678s + 22s, ron on 2m, closed: 20
      base and 10 for a closed ron, no triplet, head or wait fu. */
  lemma TanyaoRonFu()
    ensures Fu(Some(Standard(22, [Shuntsu(2), Shuntsu(3), Shuntsu(14), Shuntsu(26)])),
               "2m", false, true, "east", "east", [Tanyao]) == 30
  {
    var melds := [Shuntsu(2), Shuntsu(3), Shuntsu(14), Shuntsu(26)];
    assert !ClosedWait(melds[0], 2);
    assert forall m :: m in melds ==> !ClosedWait(m, 2);
    RunsHaveNoMeldFu(melds, 2, false, true);
  }

  /** The seven-pairs test hand: 25 fu. */
  lemma SevenPairsFu(pairs: seq<int>)
    ensures Fu(Some(SevenPairs(pairs)), "1m", false, true, "east", "east", []) == 25
  {
  }

  // ---------------------------------------------------------------------
  // calculate_score

  /** The payment text of `calculate_score`: `'0'`, `"ALL: p"`,
      `"Oya: o, Ko: k"` or `"Target: p"`. */
  datatype Payments = NoPayment | All(each: int) | OyaKo(oya: int, ko: int) | Target(pay: int)

  datatype ScoreResult = ScoreResult(total: int, payments: Payments)

  function Pow2(n: nat): (r: nat)
    ensures r >= 1
  {
    if n == 0 then 1 else 2 * Pow2(n - 1)
  }

  /** The limit-hand condition. */
  predicate IsLimit(han: nat, fu: int) {
    han >= 5 || (han >= 4 && fu >= 40) || (han >= 3 && fu >= 70)
  }

  /** The base points of a limit hand, by han band. */
  function LimitBase(han: nat): int {
    if han >= 13 then 8000
    else if han >= 11 then 6000
    else if han >= 8 then 4000
    else if han >= 6 then 3000
    else 2000
  }

  /** `LIMIT_SCORES` of `ScoreCalculator.__init__`. */
  const LimitScores: map<nat, int> :=
    map[5 := 2000, 6 := 3000, 7 := 3000, 8 := 4000, 9 := 4000, 10 := 4000,
        11 := 6000, 12 := 6000, 13 := 8000]

  /** The band chain `calculate_score` uses agrees with the `LIMIT_SCORES`
      table on every han the table holds. */
  lemma LimitBaseIsTable(han: nat)
    requires han in LimitScores
    ensures LimitBase(han) == LimitScores[han]
  {
  }

  /** The base points: the limit value, or `fu * 2^(2 + han)` capped at
      2000. */
  function BasePoints(han: nat, fu: int): int {
    if IsLimit(han, fu) then LimitBase(han)
    else
      var raw := fu * Pow2(2 + han);
      if raw > 2000 then 2000 else raw
  }

  /** `round100`: the least multiple of 100 that is not below `val`. */
  function Round100(val: int): (r: int)
    ensures r % 100 == 0 && val <= r < val + 100
  {
    if val % 100 == 0 then val else val - val % 100 + 100
  }

  /** No multiple of 100 at or above `x` lies below `Round100(x)`. */
  lemma Round100Least(x: int, m: int)
    requires m % 100 == 0 && x <= m
    ensures Round100(x) <= m
  {
  }

  /** Rounding keeps the order of its inputs. */
  lemma Round100Monotone(x: int, y: int)
    requires x <= y
    ensures Round100(x) <= Round100(y)
  {
    Round100Least(x, Round100(y));
  }

  /** `p` is the share `x` rounded up to a multiple of 100. */
  predicate RoundedShare(p: int, x: int) {
    p % 100 == 0 && x <= p < x + 100
  }

  /** The sum a set of payments makes. */
  function Total(p: Payments): int {
    match p
    case NoPayment => 0
    case All(each) => 3 * each
    case OyaKo(oya, ko) => oya + 2 * ko
    case Target(pay) => pay
  }

  /** `calculate_score`. */
  function CalculateScore(han: nat, fu: int, isOya: bool, isTsumo: bool): (r: ScoreResult)
    ensures r.total == Total(r.payments)
    ensures r.payments.NoPayment? <==> han == 0
    ensures r.payments.All? <==> han > 0 && isTsumo && isOya
    ensures r.payments.OyaKo? <==> han > 0 && isTsumo && !isOya
    ensures r.payments.Target? <==> han > 0 && !isTsumo
    ensures var b := BasePoints(han, fu);
      match r.payments
      case NoPayment => true
      case All(each) => RoundedShare(each, 2 * b)
      case OyaKo(oya, ko) => RoundedShare(oya, 2 * b) && RoundedShare(ko, b)
      case Target(pay) => RoundedShare(pay, (if isOya then 6 else 4) * b)
  {
    if han == 0 then ScoreResult(0, NoPayment)
    else
      var base := BasePoints(han, fu);
      if isTsumo then
        if isOya then
          var pay := Round100(base * 2);
          ScoreResult(pay * 3, All(pay))
        else
          var payOya := Round100(base * 2);
          var payKo := Round100(base);
          ScoreResult(payOya + payKo * 2, OyaKo(payOya, payKo))
      else
        var pay := Round100(base * (if isOya then 6 else 4));
        ScoreResult(pay, Target(pay))
  }

  /** A limit hand has base at least 2000 and at most 8000; any other hand
      is capped at 2000, and is not negative when its fu is not. */
  lemma BaseBounds(han: nat, fu: int)
    ensures IsLimit(han, fu) ==> 2000 <= BasePoints(han, fu) <= 8000
    ensures !IsLimit(han, fu) ==> BasePoints(han, fu) <= 2000
    ensures fu >= 0 ==> BasePoints(han, fu) >= 0
  {
  }

  lemma {:induction false} Pow2Monotone(m: nat, n: nat)
    requires m <= n
    ensures Pow2(m) <= Pow2(n)
  {
    if m < n {
      Pow2Monotone(m, n - 1);
    }
  }

  /** More han never lowers the base points (for a non-negative fu). */
  lemma BaseMonotoneInHan(h1: nat, h2: nat, fu: int)
    requires h1 <= h2 && fu >= 0
    ensures BasePoints(h1, fu) <= BasePoints(h2, fu)
  {
    if !IsLimit(h2, fu) {
      Pow2Monotone(2 + h1, 2 + h2);
      assert fu * Pow2(2 + h1) <= fu * Pow2(2 + h2) by {
        MultiplyMonotone(fu, Pow2(2 + h1), Pow2(2 + h2));
      }
    }
  }

  lemma MultiplyMonotone(a: int, x: int, y: int)
    requires a >= 0 && x <= y
    ensures a * x <= a * y
  {
    assert a * y - a * x == a * (y - x);
  }

  /** More fu never lowers the base points. */
  lemma BaseMonotoneInFu(han: nat, f1: int, f2: int)
    requires f1 <= f2
    ensures BasePoints(han, f1) <= BasePoints(han, f2)
  {
    var p := Pow2(2 + han);
    assert f1 * p <= f2 * p by {
      MultiplyMonotone(p, f1, f2);
    }
  }

  /** The dealer never receives less than a non-dealer with the same hand
      (for non-negative base points). */
  lemma DealerGetsMore(han: nat, fu: int, isTsumo: bool)
    requires fu >= 0
    ensures CalculateScore(han, fu, false, isTsumo).total <= CalculateScore(han, fu, true, isTsumo).total
  {
    var b := BasePoints(han, fu);
    BaseBounds(han, fu);
    if han > 0 {
      if isTsumo {
        Round100Monotone(b, 2 * b);
      } else {
        Round100Monotone(4 * b, 6 * b);
      }
    }
  }

  /** The pinfu tsumo test: 2 han 20 fu, non-dealer tsumo, pays 700 from
      the dealer and 400 from each other player, 1500 in all. */
  lemma PinfuTsumoScore()
    ensures CalculateScore(2, 20, false, true) == ScoreResult(1500, OyaKo(700, 400))
  {
    assert BasePoints(2, 20) == 320;
  }

  /** The tanyao ron test: 1 han 30 fu, non-dealer ron, 1000. */
  lemma TanyaoRonScore()
    ensures CalculateScore(1, 30, false, false) == ScoreResult(1000, Target(1000))
  {
    assert BasePoints(1, 30) == 240;
  }

  /** The seven-pairs test: 2 han 25 fu, non-dealer ron, 1600. */
  lemma SevenPairsScore()
    ensures CalculateScore(2, 25, false, false) == ScoreResult(1600, Target(1600))
  {
    assert BasePoints(2, 25) == 400;
  }
}
