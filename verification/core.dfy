/** The game state (`core.py`): `ConnectionManager` holds the player's hand
    and the shared deck as lists it changes in place. */
module Core {
  import opened Seqs
  import opened Tiles
  import opened Melds

  // ---------------------------------------------------------------------
  // _sort_key

  predicate IsNumeral(s: string) {
    |s| > 0 && forall i :: 0 <= i < |s| ==> '0' <= s[i] <= '9'
  }

  /** `int(s)` for a string of decimal digits. */
  function NumeralValue(s: string): nat
    requires forall i :: 0 <= i < |s| ==> '0' <= s[i] <= '9'
  {
    if s == [] then 0
    else 10 * NumeralValue(s[..|s| - 1]) + (s[|s| - 1] as int - '0' as int)
  }

  /** The names `_sort_key` gives a key without raising: `"unknown"`, and
      every non-empty name whose digits parse when it ends in a suit
      letter. */
  predicate KeyDefined(tile: string) {
    tile == "unknown" || (|tile| > 0 && (tile[|tile| - 1] in "mps" ==> IsNumeral(tile[..|tile| - 1])))
  }

  predicate AllKeyed(s: seq<string>) {
    forall t :: t in s ==> KeyDefined(t)
  }

  function SuitOrder(suit: char): int {
    if suit == 'm' then 0 else if suit == 'p' then 100 else 200
  }

  /** `honor_order.get(tile, 900)`. */
  function HonourOrder(tile: string): int {
    match tile
    case "east" => 301 case "south" => 302 case "west" => 303 case "north" => 304
    case "white" => 401 case "green" => 402 case "red" => 403
    case _ => 900
  }

  /** `_sort_key`. */
  function SortKey(tile: string): int
    requires KeyDefined(tile)
  {
    if tile == "unknown" then 999
    else
      var suit := tile[|tile| - 1];
      if suit in "mps" then SuitOrder(suit) + NumeralValue(tile[..|tile| - 1])
      else HonourOrder(tile)
  }

  /** A two-character number name: its key is the suit's offset plus its
      digit. */
  lemma NumberNameKey(d: char, suit: char)
    requires '1' <= d <= '9' && suit in "mps"
    ensures KeyDefined([d, suit]) && SortKey([d, suit]) == SuitOrder(suit) + (d as int - '0' as int)
  {
    var n := [d, suit];
    assert n[..1] == [d] && [d][..0] == [];
    assert n != "unknown" && n[|n| - 1] == suit;
    assert IsNumeral([d]);
    assert NumeralValue([d]) == d as int - '0' as int;
  }

  /** The key of a tile code: manzu 1-9, pinzu 101-109, souzu 201-209,
      winds 301-304, dragons 401-403. */
  function KeyOfCode(c: int): int {
    if c < 10 then c
    else if c < 20 then 100 + (c - 10)
    else if c < 30 then 200 + (c - 20)
    else if c < 40 then 301 + (c - 31) / 2
    else 401 + (c - 41) / 2
  }

  lemma SortKeyOfName(n: string)
    requires IsTileName(n)
    ensures KeyDefined(n) && SortKey(n) == KeyOfCode(Code(n).value)
  {
    var c := Code(n).value;
    if c < 30 {
      assert |n| == 2 && '1' <= n[0] <= '9' && n[1] in "mps"
        && c == (if n[1] == 'm' then 0 else if n[1] == 'p' then 10 else 20) + (n[0] as int - '0' as int);
      NumberNameKey(n[0], n[1]);
      assert n == [n[0], n[1]];
    }
  }

  /** On tile names `_sort_key` follows the codes of `_parse_hand`: manzu
      before pinzu before souzu before winds before dragons, by rank inside
      a suit; two names share a key only if they are equal; and
      `"unknown"` sorts after every name. */
  lemma SortKeyOrder(a: string, b: string)
    requires IsTileName(a) && IsTileName(b)
    ensures KeyDefined(a) && KeyDefined(b)
    ensures SortKey(a) < SortKey(b) <==> Code(a).value < Code(b).value
    ensures SortKey(a) == SortKey(b) <==> a == b
    ensures SortKey(a) < SortKey("unknown")
  {
    SortKeyOfName(a);
    SortKeyOfName(b);
    NameOfCode(a);
    NameOfCode(b);
  }

  // ---------------------------------------------------------------------
  // get_hand

  predicate KeySorted(s: seq<string>)
    requires AllKeyed(s)
  {
    forall i, j :: 0 <= i < j < |s| ==> SortKey(s[i]) <= SortKey(s[j])
  }

  /** Insert `t` after every element whose key is not greater than its
      own. */
  function InsertByKey(s: seq<string>, t: string): (r: seq<string>)
    requires AllKeyed(s) && KeyDefined(t)
    ensures multiset(r) == multiset(s) + multiset{t}
    ensures AllKeyed(r)
  {
    if s == [] then [t]
    else if SortKey(t) < SortKey(s[0]) then [t] + s
    else
      assert s == [s[0]] + s[1..];
      [s[0]] + InsertByKey(s[1..], t)
  }

  /** A key no greater than every key of a sorted sequence can go in
      front of it. */
  lemma ConsSorted(a: string, rest: seq<string>)
    requires KeyDefined(a) && AllKeyed(rest) && KeySorted(rest)
    requires forall x :: x in rest ==> SortKey(a) <= SortKey(x)
    ensures AllKeyed([a] + rest) && KeySorted([a] + rest)
  {
    var r := [a] + rest;
    forall i, j | 0 <= i < j < |r| ensures SortKey(r[i]) <= SortKey(r[j]) {
      assert r[j] == rest[j - 1];
      if i > 0 {
        assert r[i] == rest[i - 1];
      } else {
        assert r[j] in rest;
      }
    }
  }

  /** Insertion keeps a key-sorted sequence sorted. */
  lemma {:induction false} InsertByKeySorted(s: seq<string>, t: string)
    requires AllKeyed(s) && KeyDefined(t) && KeySorted(s)
    ensures KeySorted(InsertByKey(s, t))
  {
    if s == [] {
    } else if SortKey(t) < SortKey(s[0]) {
      ConsSorted(t, s);
    } else {
      var rest := InsertByKey(s[1..], t);
      InsertByKeySorted(s[1..], t);
      forall x | x in rest ensures SortKey(s[0]) <= SortKey(x) {
        assert x in multiset(s[1..]) + multiset{t};
      }
      ConsSorted(s[0], rest);
    }
  }

  /** `sorted(hand, key=_sort_key)`: a permutation of `hand` in key order,
      built by insertion. */
  function SortByKey(hand: seq<string>): (r: seq<string>)
    requires AllKeyed(hand)
    ensures multiset(r) == multiset(hand)
    ensures AllKeyed(r) && KeySorted(r)
  {
    if hand == [] then []
    else
      assert hand == hand[..|hand| - 1] + [hand[|hand| - 1]];
      var sorted := SortByKey(hand[..|hand| - 1]);
      InsertByKeySorted(sorted, hand[|hand| - 1]);
      InsertByKey(sorted, hand[|hand| - 1])
  }

  // ---------------------------------------------------------------------
  // The deck

  /** Four copies of each name, in order. */
  function Quads<T>(names: seq<T>): seq<T> {
    seq(4 * |names|, i requires 0 <= i < 4 * |names| => names[i / 4])
  }

  /** Appending a name appends its four copies. */
  lemma QuadsSnoc<T>(names: seq<T>, n: T)
    ensures Quads(names + [n]) == Quads(names) + [n, n, n, n]
  {
    var a, b := Quads(names + [n]), Quads(names) + [n, n, n, n];
    assert |a| == |b|;
    forall i | 0 <= i < |a| ensures a[i] == b[i] {
      if i < 4 * |names| {
        assert i / 4 < |names|;
      } else {
        assert i / 4 == |names|;
      }
    }
  }

  /** The deck `__init__` builds before shuffling: the number tiles of each
      suit in turn, then the honours, four of each. */
  function NewDeck(): seq<string> {
    Quads(AllNames)
  }

  /** The copies of `t` in the full deck: four of each tile name. */
  function Copies(t: string): nat {
    if IsTileName(t) then 4 else 0
  }

  lemma {:induction false} QuadsCount<T>(names: seq<T>, t: T)
    ensures multiset(Quads(names))[t] == 4 * multiset(names)[t]
  {
    if names != [] {
      var init, n := names[..|names| - 1], names[|names| - 1];
      QuadsCount(init, t);
      assert names == init + [n];
      QuadsSnoc(init, n);
    }
  }

  /** An element of a sequence without repetitions occurs exactly once. */
  lemma {:induction false} CountDistinct(s: seq<string>, t: string)
    requires forall i, j :: 0 <= i < j < |s| ==> s[i] != s[j]
    ensures multiset(s)[t] == if t in s then 1 else 0
  {
    if s != [] {
      var init, last := s[..|s| - 1], s[|s| - 1];
      assert s == init + [last];
      CountDistinct(init, t);
      if t == last {
        assert t !in init by {
          forall i | 0 <= i < |init| ensures init[i] != t {
            assert init[i] == s[i];
          }
        }
      }
    }
  }

  lemma AllNamesDistinct()
    ensures forall i, j :: 0 <= i < j < |AllNames| ==> AllNames[i] != AllNames[j]
  {
    forall i, j | 0 <= i < j < |AllNames| ensures AllNames[i] != AllNames[j] {
      AllNamesAreTableNames(i);
      AllNamesAreTableNames(j);
    }
  }

  /** A name is in `AllNames` exactly when it is a tile name. */
  lemma InAllNamesIff(n: string)
    ensures n in AllNames <==> IsTileName(n)
  {
    if IsTileName(n) {
      TableNamesAreInAllNames(n);
    }
    if n in AllNames {
      var j :| 0 <= j < |AllNames| && AllNames[j] == n;
      AllNamesAreTableNames(j);
    }
  }

  /** Each tile name occurs once in `AllNames`, and nothing else does. */
  lemma AllNamesOnce(t: string)
    ensures multiset(AllNames)[t] == if IsTileName(t) then 1 else 0
  {
    AllNamesDistinct();
    CountDistinct(AllNames, t);
    InAllNamesIff(t);
  }

  /** The deck `__init__` builds: 136 tiles, exactly four copies of each of
      the 34 tile names and nothing else. */
  lemma NewDeckCounts(t: string)
    ensures |NewDeck()| == 136
    ensures multiset(NewDeck())[t] == Copies(t)
  {
    QuadsCount(AllNames, t);
    AllNamesOnce(t);
  }

  /** Hand and deck together hold at most the full deck's copies. */
  ghost predicate PartOfFullDeck(hand: seq<string>, deck: seq<string>) {
    forall t :: multiset(hand)[t] + multiset(deck)[t] <= Copies(t)
  }

  /** Every tile of a part of the full deck is a tile name, and so has a
      key. */
  lemma PartsAreNames(hand: seq<string>, deck: seq<string>)
    requires PartOfFullDeck(hand, deck)
    ensures forall t :: t in hand ==> IsTileName(t) && KeyDefined(t)
    ensures forall t :: t in deck ==> IsTileName(t)
  {
    forall t | t in hand ensures IsTileName(t) && KeyDefined(t) {
      assert multiset(hand)[t] > 0;
      SortKeyOrder(t, t);
    }
    forall t | t in deck ensures IsTileName(t) {
      assert multiset(deck)[t] > 0;
    }
  }

  /** Moving the deck's last tile onto the hand keeps hand and deck part
      of the full deck. */
  lemma MoveLast(hand: seq<string>, deck: seq<string>, t: string)
    requires PartOfFullDeck(hand, deck + [t])
    ensures PartOfFullDeck(hand + [t], deck)
  {
    assert multiset(hand + [t]) == multiset(hand) + multiset{t};
    assert multiset(deck + [t]) == multiset(deck) + multiset{t};
  }

  /** The deal of `__init__`: thirteen times, pop the deck's last tile onto
      the hand. */
  method Deal(shuffled: seq<string>) returns (hand: seq<string>, deck: seq<string>)
    requires |shuffled| >= 13
    ensures |hand| == 13 && deck == shuffled[..|shuffled| - 13]
    ensures forall k :: 0 <= k < 13 ==> hand[k] == shuffled[|shuffled| - 1 - k]
    ensures multiset(hand) + multiset(deck) == multiset(shuffled)
  {
    hand, deck := [], shuffled;
    for k := 0 to 13
      invariant |deck| == |shuffled| - k && deck == shuffled[..|shuffled| - k]
      invariant |hand| == k && forall j :: 0 <= j < k ==> hand[j] == shuffled[|shuffled| - 1 - j]
      invariant multiset(hand) + multiset(deck) == multiset(shuffled)
    {
      if deck != [] {
        var t := deck[|deck| - 1];
        assert deck == deck[..|deck| - 1] + [t];
        hand := hand + [t];
        deck := deck[..|deck| - 1];
      }
    }
  }

  /** The deck of `__init__`, built name by name, four copies each. */
  method BuildDeck() returns (d: seq<string>)
    ensures d == NewDeck()
  {
    d := [];
    for i := 0 to |AllNames|
      invariant d == Quads(AllNames[..i])
    {
      var name := AllNames[i];
      assert AllNames[..i + 1] == AllNames[..i] + [name];
      QuadsSnoc(AllNames[..i], name);
      d := d + [name, name, name, name];
    }
    assert AllNames[..|AllNames|] == AllNames;
  }

  // ---------------------------------------------------------------------
  // ConnectionManager

  class ConnectionManager {
    var melds: seq<Meld>
    var isReach: bool
    var isContinuous: bool
    var deck: seq<string>
    var hand: seq<string>

    /** The hand never exceeds 14 tiles, and hand and deck together are
        part of the full deck (tiles discarded or drawn away have left
        both). */
    ghost predicate Valid()
      reads this
    {
      |hand| <= 14 && PartOfFullDeck(hand, deck)
    }

    /** `__init__`, with `random.shuffle` as the parameter `shuffle`, which
        may be any permutation. */
    constructor (shuffle: seq<string> -> seq<string>)
      requires forall d :: multiset(shuffle(d)) == multiset(d)
      ensures Valid()
      ensures forall t :: multiset(hand)[t] + multiset(deck)[t] == Copies(t)
      ensures |hand| == 13 && |deck| == 123
      ensures var shuffled := shuffle(NewDeck());
        |shuffled| == 136
        && deck == shuffled[..123]
        && forall k :: 0 <= k < 13 ==> hand[k] == shuffled[135 - k]
      ensures melds == [] && !isReach && !isContinuous
    {
      var d := BuildDeck();
      d := shuffle(d);
      ghost var shuffled := d;
      NewDeckCounts("");
      assert |d| == |multiset(d)| == 136;
      var h;
      h, d := Deal(d);
      assert forall k :: 0 <= k < 13 ==> h[k] == shuffled[135 - k];
      melds := [];
      isReach := false;
      isContinuous := false;
      deck := d;
      hand := h;
      new;
      forall t ensures multiset(hand)[t] + multiset(deck)[t] == Copies(t) {
        NewDeckCounts(t);
      }
    }

    /** `get_hand`: the hand in key order, without changing it. */
    function GetHand(): (r: seq<string>)
      reads this
      requires Valid()
      ensures multiset(r) == multiset(hand) && |r| == |hand|
      ensures AllKeyed(r) && KeySorted(r)
    {
      PartsAreNames(hand, deck);
      var r := SortByKey(hand);
      assert |r| == |multiset(r)|;
      r
    }

    /** `discard`: remove the first occurrence of the tile shown at
        `displayIndex` of the sorted hand and return it; an index outside
        the hand returns `None` and changes nothing. */
    method Discard(displayIndex: int) returns (r: Option<string>)
      requires Valid()
      modifies this`hand
      ensures Valid()
      ensures 0 <= displayIndex < |old(hand)| ==>
        r == Some(old(GetHand())[displayIndex])
        && r.value in old(hand)
        && hand == RemoveFirst(old(hand), r.value)
      ensures !(0 <= displayIndex < |old(hand)|) ==> r == None && hand == old(hand)
    {
      var sortedHand := GetHand();
      if 0 <= displayIndex < |sortedHand| {
        var tileToDiscard := sortedHand[displayIndex];
        assert tileToDiscard in multiset(hand);
        ghost var before := hand;
        hand := RemoveFirst(hand, tileToDiscard);
        assert forall t :: multiset(hand)[t] <= multiset(before)[t];
        return Some(tileToDiscard);
      }
      return None;
    }

    /** `draw_tile`: pop the last tile of the deck, or `None` when it is
        empty. */
    method DrawTile() returns (r: Option<string>)
      requires Valid()
      modifies this`deck
      ensures Valid()
      ensures old(deck) == [] ==> r == None && deck == old(deck)
      ensures old(deck) != [] ==>
        r == Some(old(deck)[|old(deck)| - 1]) && deck == old(deck)[..|old(deck)| - 1]
    {
      if deck == [] {
        return None;
      }
      var t := deck[|deck| - 1];
      assert deck == deck[..|deck| - 1] + [t];
      deck := deck[..|deck| - 1];
      return Some(t);
    }

    /** `draw`: refuse at 14 tiles or more; otherwise move the deck's last
        tile onto the end of the hand. */
    method Draw() returns (r: Option<string>)
      requires Valid()
      modifies this`hand, this`deck
      ensures Valid()
      ensures |old(hand)| >= 14 || old(deck) == [] ==>
        r == None && hand == old(hand) && deck == old(deck)
      ensures |old(hand)| < 14 && old(deck) != [] ==>
        var t := old(deck)[|old(deck)| - 1];
        r == Some(t) && hand == old(hand) + [t] && deck == old(deck)[..|old(deck)| - 1]
    {
      if |hand| >= 14 {
        return None;
      }
      ghost var deck0 := deck;
      PartsAreNames(hand, deck);
      r := DrawTile();
      if r.Some? {
        assert deck0 == deck + [r.value];
        MoveLast(hand, deck, r.value);
        assert IsTileName(r.value);
      }
      if r.Some? && r.value != "" {
        hand := hand + [r.value];
      }
    }
  }
}
