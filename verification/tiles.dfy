/** Tile names and their integer codes (`_parse_hand`).  The three suits
    use 1-9, 11-19 and 21-29; winds and dragons use odd codes 31-37 and
    41-45, so that no three consecutive codes ever straddle two suits or
    touch an honour. */
module Tiles {
  import opened Seqs

  /** The name-to-code table of `_parse_hand`; `None` for a name the table
      does not hold. */
  function Code(name: string): Option<int> {
    match name
    case "1m" => Some(1) case "2m" => Some(2) case "3m" => Some(3)
    case "4m" => Some(4) case "5m" => Some(5) case "6m" => Some(6)
    case "7m" => Some(7) case "8m" => Some(8) case "9m" => Some(9)
    case "1p" => Some(11) case "2p" => Some(12) case "3p" => Some(13)
    case "4p" => Some(14) case "5p" => Some(15) case "6p" => Some(16)
    case "7p" => Some(17) case "8p" => Some(18) case "9p" => Some(19)
    case "1s" => Some(21) case "2s" => Some(22) case "3s" => Some(23)
    case "4s" => Some(24) case "5s" => Some(25) case "6s" => Some(26)
    case "7s" => Some(27) case "8s" => Some(28) case "9s" => Some(29)
    case "east" => Some(31) case "south" => Some(33) case "west" => Some(35) case "north" => Some(37)
    case "white" => Some(41) case "green" => Some(43) case "red" => Some(45)
    case _ => None
  }

  predicate IsTileName(name: string) {
    Code(name).Some?
  }

  /** The 34 names in the fixed order manzu, pinzu, souzu, winds, dragons. */
  const AllNames: seq<string> := [
    "1m", "2m", "3m", "4m", "5m", "6m", "7m", "8m", "9m",
    "1p", "2p", "3p", "4p", "5p", "6p", "7p", "8p", "9p",
    "1s", "2s", "3s", "4s", "5s", "6s", "7s", "8s", "9s",
    "east", "south", "west", "north", "white", "green", "red"
  ]

  const Terminals: seq<int> := [1, 9, 11, 19, 21, 29]
  const Dragons: seq<int> := [41, 43, 45]

  predicate IsCode(c: int) {
    1 <= c <= 9 || 11 <= c <= 19 || 21 <= c <= 29 || c in {31, 33, 35, 37, 41, 43, 45}
  }

  predicate IsTerminal(c: int) {
    c in Terminals
  }

  predicate IsTerminalOrHonor(c: int) {
    c >= 30 || c in Terminals
  }

  /** `wind_map.get(name)` of the yaku and fu rules. */
  function WindCode(name: string): (r: Option<int>)
    ensures r.Some? <==> name in {"east", "south", "west", "north"}
    ensures r.Some? ==> r == Code(name)
  {
    if name == "east" then Some(31)
    else if name == "south" then Some(33)
    else if name == "west" then Some(35)
    else if name == "north" then Some(37)
    else None
  }

  /** `_parse_hand([name])[0]` where the caller falls back to 0: the code
      of a single name, 0 for a name the table does not hold. */
  function CodeOrZero(name: string): (c: int)
    ensures IsTileName(name) ==> c == Code(name).value
    ensures !IsTileName(name) ==> c == 0
  {
    match Code(name)
    case Some(x) => x
    case None => 0
  }

  /** The inverse of the table: the name of a code. */
  function NameOf(c: int): (n: string)
    requires IsCode(c)
    ensures Code(n) == Some(c)
  {
    match c
    case 1 => "1m" case 2 => "2m" case 3 => "3m" case 4 => "4m" case 5 => "5m"
    case 6 => "6m" case 7 => "7m" case 8 => "8m" case 9 => "9m"
    case 11 => "1p" case 12 => "2p" case 13 => "3p" case 14 => "4p" case 15 => "5p"
    case 16 => "6p" case 17 => "7p" case 18 => "8p" case 19 => "9p"
    case 21 => "1s" case 22 => "2s" case 23 => "3s" case 24 => "4s" case 25 => "5s"
    case 26 => "6s" case 27 => "7s" case 28 => "8s" case 29 => "9s"
    case 31 => "east" case 33 => "south" case 35 => "west" case 37 => "north"
    case 41 => "white" case 43 => "green" case _ => "red"
  }

  /** Every name of the table has a valid code, and decoding that code gives
      the name back: the table is a bijection between names and codes. */
  lemma NameOfCode(n: string)
    requires IsTileName(n)
    ensures IsCode(Code(n).value) && NameOf(Code(n).value) == n
  {
  }

  /** Position of a code in `AllNames`. */
  function IndexOf(c: int): (i: int)
    requires IsCode(c)
    ensures 0 <= i < |AllNames|
  {
    if c < 10 then c - 1 else if c < 20 then c - 2 else if c < 30 then c - 3
    else if c < 40 then 27 + (c - 31) / 2 else 31 + (c - 41) / 2
  }

  /** Each entry of `AllNames` is a table name, and its code leads back to
      its position. */
  lemma AllNamesAreTableNames(i: int)
    requires 0 <= i < |AllNames|
    ensures IsTileName(AllNames[i]) && IndexOf(Code(AllNames[i]).value) == i
  {
    if i < 9 {
    } else if i < 18 {
    } else if i < 27 {
    } else {
    }
  }

  /** `AllNames` holds the name of each code at that code's position. */
  lemma AllNamesAtIndex(c: int)
    requires IsCode(c)
    ensures AllNames[IndexOf(c)] == NameOf(c)
  {
  }

  /** Every table name occurs in `AllNames`, at the position of its code. */
  lemma TableNamesAreInAllNames(n: string)
    requires IsTileName(n)
    ensures IsCode(Code(n).value) && AllNames[IndexOf(Code(n).value)] == n
    ensures n in AllNames
  {
    NameOfCode(n);
    AllNamesAtIndex(Code(n).value);
  }

  /** Three consecutive codes are all tiles only inside one number suit:
      a run can never cross suits or contain an honour. */
  lemma RunStaysInSuit(first: int)
    requires IsCode(first) && IsCode(first + 1) && IsCode(first + 2)
    ensures first < 30
    ensures 1 <= first <= 7 || 11 <= first <= 17 || 21 <= first <= 27
  {
  }

  /** The codes of the recognised names, in hand order (the loop of
      `_parse_hand` before sorting). */
  function Codes(hand: seq<string>): (r: seq<int>)
    ensures |r| <= |hand|
    ensures forall x :: x in r ==> IsCode(x)
    ensures |r| == |hand| <==> forall t :: t in hand ==> IsTileName(t)
  {
    if hand == [] then []
    else
      var init, last := hand[..|hand| - 1], hand[|hand| - 1];
      assert forall t :: t in hand <==> t in init || t == last;
      if IsTileName(last) then
        NameOfCode(last);
        Codes(init) + [Code(last).value]
      else Codes(init)
  }

  /** A hand of table names has their codes, in hand order. */
  lemma {:induction false} CodesOf(hand: seq<string>, cs: seq<int>)
    requires |hand| == |cs|
    requires forall i :: 0 <= i < |hand| ==> Code(hand[i]) == Some(cs[i])
    ensures Codes(hand) == cs
  {
    if hand != [] {
      var n := |hand| - 1;
      CodesOf(hand[..n], cs[..n]);
      assert cs == cs[..n] + [cs[n]];
    }
  }

  /** The sorted codes of the recognised names. */
  function Parse(hand: seq<string>): seq<int>
  {
    Sort(Codes(hand))
  }

  /** `_parse_hand`: map each recognised name to its code, drop the rest,
      and return the codes in ascending order. */
  method ParseHand(hand: seq<string>) returns (parsed: seq<int>)
    ensures parsed == Parse(hand)
    ensures Sorted(parsed)
    ensures multiset(parsed) == multiset(Codes(hand))
    ensures forall x :: x in parsed ==> IsCode(x)
    ensures |parsed| == |hand| <==> forall t :: t in hand ==> IsTileName(t)
  {
    parsed := [];
    for i := 0 to |hand|
      invariant parsed == Codes(hand[..i])
    {
      assert hand[..i + 1][..i] == hand[..i];
      var tile := hand[i];
      match Code(tile) {
        case Some(c) => parsed := parsed + [c];
        case None =>
      }
    }
    assert hand[..|hand|] == hand;
    parsed := Sort(parsed);
    forall x | x in parsed ensures IsCode(x) {
      assert x in multiset(parsed);
    }
  }
}
