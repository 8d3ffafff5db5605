/** The backtracking search of `network_rules.py` that splits a tile list
    into melds: `_find_solution` (does a split exist?) and
    `_find_all_combinations` (every split).  Both always work on the first
    (for a sorted list, the smallest) remaining tile and try a triplet
    before a run. */
module Melds {
  import opened Seqs
  import opened Tiles

  /** A meld: a triplet ('koutsu') of one code, or a run ('shuntsu')
      `first, first + 1, first + 2`. */
  datatype Meld = Koutsu(tile: int) | Shuntsu(first: int)
  {
    /** `m_tiles[0]`, the meld's smallest tile. */
    function Lead(): int {
      match this
      case Koutsu(t) => t
      case Shuntsu(f) => f
    }
  }

  /** `m_tiles`, the three tiles of a meld in ascending order. */
  function MeldTiles(m: Meld): seq<int> {
    match m
    case Koutsu(t) => [t, t, t]
    case Shuntsu(f) => [f, f + 1, f + 2]
  }

  /** The search only starts a run from a number tile. */
  predicate WellFormed(m: Meld) {
    m.Shuntsu? ==> m.first < 30
  }

  predicate AllWellFormed(ms: seq<Meld>) {
    forall i :: 0 <= i < |ms| ==> WellFormed(ms[i])
  }

  /** All tiles of a list of melds, meld after meld. */
  function Flatten(ms: seq<Meld>): (r: seq<int>)
    ensures |r| == 3 * |ms|
  {
    if ms == [] then [] else MeldTiles(ms[0]) + Flatten(ms[1..])
  }

  /** The guard under which the search takes meld `m` out of `tiles`:
      `count[first] >= 3` for a triplet, and `first`, `first + 1`,
      `first + 2` all present for a run. */
  predicate Fits(tiles: seq<int>, m: Meld) {
    match m
    case Koutsu(t) => multiset(tiles)[t] >= 3
    case Shuntsu(f) => f in tiles && f + 1 in tiles && f + 2 in tiles
  }

  lemma FitsIffIncluded(tiles: seq<int>, m: Meld)
    ensures Fits(tiles, m) <==> multiset(MeldTiles(m)) <= multiset(tiles)
  {
    var mt := multiset(tiles);
    match m
    case Koutsu(t) =>
      assert multiset(MeldTiles(m)) == multiset{t, t, t};
      assert multiset(MeldTiles(m))[t] == 3;
    case Shuntsu(f) =>
      var mm := multiset(MeldTiles(m));
      if Fits(tiles, m) {
        forall x ensures mm[x] <= mt[x] {
          if x == f || x == f + 1 || x == f + 2 { assert mm[x] == 1; assert x in mt; }
          else { assert x !in mm; }
        }
      }
  }

  /** The three `remaining.remove(...)` calls that take meld `m` out. */
  function Take(tiles: seq<int>, m: Meld): (r: seq<int>)
    requires Fits(tiles, m)
    ensures |r| == |tiles| - 3
    ensures multiset(r) == multiset(tiles) - multiset(MeldTiles(m))
  {
    FitsIffIncluded(tiles, m);
    RemoveEach(tiles, MeldTiles(m))
  }

  lemma TakeSorted(tiles: seq<int>, m: Meld)
    requires Fits(tiles, m) && Sorted(tiles)
    ensures Sorted(Take(tiles, m))
  {
    FitsIffIncluded(tiles, m);
    RemoveEachSorted(tiles, MeldTiles(m));
  }

  /** `[(meld)] + sub` for every `sub`. */
  function Prefix(m: Meld, rs: seq<seq<Meld>>): (r: seq<seq<Meld>>)
    ensures |r| == |rs|
    ensures forall k :: 0 <= k < |rs| ==> r[k] == [m] + rs[k]
  {
    seq(|rs|, k requires 0 <= k < |rs| => [m] + rs[k])
  }

  /** `_find_solution`: can `tiles` be split into triplets and runs? */
  predicate FindSolution(tiles: seq<int>)
    decreases |tiles|, 1
  {
    tiles == [] || Solvable(tiles, Koutsu(tiles[0])) || Solvable(tiles, Shuntsu(tiles[0]))
  }

  /** The search may take `m` first and can split what is left. */
  predicate Solvable(tiles: seq<int>, m: Meld)
    requires tiles != []
    decreases |tiles|, 0
  {
    FirstStep(tiles, m) && FindSolution(Take(tiles, m))
  }

  /** `_find_all_combinations`: every split of `tiles` into triplets and
      runs, triplet branch first. */
  function FindAll(tiles: seq<int>): seq<seq<Meld>>
    decreases |tiles|, 1
  {
    if tiles == [] then [[]]
    else Branch(tiles, Koutsu(tiles[0])) + Branch(tiles, Shuntsu(tiles[0]))
  }

  /** The splits that start by taking `m` out, or none if the search may
      not take `m` first. */
  function Branch(tiles: seq<int>, m: Meld): seq<seq<Meld>>
    requires tiles != []
    decreases |tiles|, 0
  {
    if FirstStep(tiles, m) then Prefix(m, FindAll(Take(tiles, m))) else []
  }

  /** The two melds the search may take first out of a non-empty list. */
  predicate FirstStep(tiles: seq<int>, m: Meld)
    requires tiles != []
  {
    (m == Koutsu(tiles[0]) || (m == Shuntsu(tiles[0]) && tiles[0] < 30)) && Fits(tiles, m)
  }

  /** On no tiles the enumeration holds exactly the empty split. */
  lemma FindAllOfNothing()
    ensures FindAll([]) == [[]]
    ensures FindSolution([])
  {
  }

  /** `_find_solution` is the existence form of `_find_all_combinations`. */
  lemma {:induction false} SolutionIffSomeCombination(tiles: seq<int>)
    ensures FindSolution(tiles) <==> FindAll(tiles) != []
    decreases |tiles|, 1
  {
    if tiles != [] {
      SolvableIffBranch(tiles, Koutsu(tiles[0]));
      SolvableIffBranch(tiles, Shuntsu(tiles[0]));
    }
  }

  lemma {:induction false} SolvableIffBranch(tiles: seq<int>, m: Meld)
    requires tiles != []
    ensures Solvable(tiles, m) <==> Branch(tiles, m) != []
    decreases |tiles|, 0
  {
    if FirstStep(tiles, m) {
      SolutionIffSomeCombination(Take(tiles, m));
    }
  }

  lemma {:induction false} FlattenAppend(a: seq<Meld>, b: seq<Meld>)
    ensures Flatten(a + b) == Flatten(a) + Flatten(b)
  {
    if a != [] {
      assert (a + b)[1..] == a[1..] + b;
      assert (a + b)[0] == a[0];
      FlattenAppend(a[1..], b);
      calc {
        Flatten(a + b);
        MeldTiles(a[0]) + Flatten(a[1..] + b);
        MeldTiles(a[0]) + (Flatten(a[1..]) + Flatten(b));
        (MeldTiles(a[0]) + Flatten(a[1..])) + Flatten(b);
      }
    } else {
      assert a + b == b;
    }
  }

  /** The meld `r[0]` and the tiles under it, as `r` splits `tiles`. */
  lemma FlattenCons(m: Meld, rest: seq<Meld>)
    ensures Flatten([m] + rest) == MeldTiles(m) + Flatten(rest)
  {
    assert ([m] + rest)[1..] == rest;
  }

  /** An enumerated split of a non-empty list is a first step followed by
      an enumerated split of what it leaves. */
  lemma FindAllStep(tiles: seq<int>, r: seq<Meld>)
    requires tiles != [] && r in FindAll(tiles)
    ensures r != [] && FirstStep(tiles, r[0]) && r[1..] in FindAll(Take(tiles, r[0]))
  {
    var trip, run := Branch(tiles, Koutsu(tiles[0])), Branch(tiles, Shuntsu(tiles[0]));
    if r in trip {
      BranchStep(tiles, Koutsu(tiles[0]), r);
    } else {
      BranchStep(tiles, Shuntsu(tiles[0]), r);
    }
  }

  lemma BranchStep(tiles: seq<int>, m: Meld, r: seq<Meld>)
    requires tiles != [] && r in Branch(tiles, m)
    ensures FirstStep(tiles, m) && r != [] && r[0] == m && r[1..] in FindAll(Take(tiles, m))
  {
    assert FirstStep(tiles, m);
    var subs := FindAll(Take(tiles, m));
    var ps := Prefix(m, subs);
    assert r in ps;
    var k :| 0 <= k < |ps| && ps[k] == r;
    assert r == [m] + subs[k];
    assert r[1..] == subs[k];
  }

  /** Conversely every first step extends every split of what it leaves. */
  lemma FindAllExtend(tiles: seq<int>, m: Meld, sub: seq<Meld>)
    requires tiles != [] && FirstStep(tiles, m) && sub in FindAll(Take(tiles, m))
    ensures [m] + sub in FindAll(tiles)
  {
    var subs := FindAll(Take(tiles, m));
    var k :| 0 <= k < |subs| && subs[k] == sub;
    assert Branch(tiles, m)[k] == [m] + sub;
  }

  /** Every enumerated split partitions the input multiset into
      well-formed melds. */
  lemma {:induction false} FindAllSound(tiles: seq<int>, r: seq<Meld>)
    requires r in FindAll(tiles)
    ensures multiset(Flatten(r)) == multiset(tiles)
    ensures |tiles| == 3 * |r|
    ensures AllWellFormed(r)
    decreases |tiles|
  {
    if tiles == [] {
      assert r == [];
    } else {
      FindAllStep(tiles, r);
      var rest := Take(tiles, r[0]);
      FindAllSound(rest, r[1..]);
      StepSound(tiles, r);
    }
  }

  /** Taking a first step and then splitting the rest splits the whole. */
  lemma StepSound(tiles: seq<int>, r: seq<Meld>)
    requires tiles != [] && r != [] && FirstStep(tiles, r[0])
    requires multiset(Flatten(r[1..])) == multiset(Take(tiles, r[0])) && AllWellFormed(r[1..])
    ensures multiset(Flatten(r)) == multiset(tiles)
    ensures AllWellFormed(r)
  {
    FitsIffIncluded(tiles, r[0]);
    var a, b := multiset(MeldTiles(r[0])), multiset(tiles);
    assert multiset(Flatten(r[1..])) == b - a;
    assert multiset(Flatten(r)) == a + (b - a);
    AddBack(a, b);
    assert WellFormed(r[0]);
    forall i | 0 <= i < |r| ensures WellFormed(r[i]) {
      if i > 0 { assert r[i] == r[1..][i - 1]; }
    }
  }

  /** On a sorted input each meld of an enumerated split starts at the
      smallest tile still left when it was taken. */
  lemma {:induction false} FindAllLeads(tiles: seq<int>, r: seq<Meld>)
    requires r in FindAll(tiles) && Sorted(tiles)
    ensures forall i :: 0 <= i < |r| ==> LowerBound(r[i].Lead(), Flatten(r[i..]))
    decreases |tiles|
  {
    if tiles != [] {
      FindAllStep(tiles, r);
      TakeSorted(tiles, r[0]);
      FindAllLeads(Take(tiles, r[0]), r[1..]);
      FindAllSound(tiles, r);
      LeadsStep(tiles, r);
    }
  }

  lemma LeadsStep(tiles: seq<int>, r: seq<Meld>)
    requires Sorted(tiles) && tiles != [] && r != [] && r[0].Lead() == tiles[0]
    requires multiset(Flatten(r)) == multiset(tiles)
    requires forall i :: 0 <= i < |r[1..]| ==> LowerBound(r[1..][i].Lead(), Flatten(r[1..][i..]))
    ensures forall i :: 0 <= i < |r| ==> LowerBound(r[i].Lead(), Flatten(r[i..]))
  {
    SortedHeadIsLowerBound(tiles);
    forall x | x in Flatten(r) ensures tiles[0] <= x {
      assert x in multiset(Flatten(r));
    }
    forall i | 0 <= i < |r| ensures LowerBound(r[i].Lead(), Flatten(r[i..])) {
      if i == 0 {
        assert r[0..] == r;
      } else {
        assert r[i..] == r[1..][i - 1..];
      }
    }
  }

  /** A split flattens to the tiles before meld `i`, those of meld `i`, then those after it. */
  lemma FlattenAt(ms: seq<Meld>, i: int)
    requires 0 <= i < |ms|
    ensures Flatten(ms) == Flatten(ms[..i]) + (MeldTiles(ms[i]) + Flatten(ms[i + 1..]))
  {
    assert ms == ms[..i] + ms[i..];
    FlattenAppend(ms[..i], ms[i..]);
    assert ms[i..][1..] == ms[i + 1..];
  }

  /** Removing meld `i` from a split removes its three tiles. */
  lemma FlattenWithout(ms: seq<Meld>, i: int)
    requires 0 <= i < |ms|
    ensures multiset(Flatten(ms)) == multiset(MeldTiles(ms[i])) + multiset(Flatten(ms[..i] + ms[i + 1..]))
  {
    var pre, post := ms[..i], ms[i + 1..];
    FlattenAt(ms, i);
    FlattenAppend(pre, post);
    var a, m, b := Flatten(pre), MeldTiles(ms[i]), Flatten(post);
    assert multiset(a + (m + b)) == multiset(a) + multiset(m) + multiset(b);
    assert multiset(Flatten(pre + post)) == multiset(a) + multiset(b);
  }

  lemma MultisetWithout<T>(ms: seq<T>, i: int)
    requires 0 <= i < |ms|
    ensures multiset(ms) == multiset{ms[i]} + multiset(ms[..i] + ms[i + 1..])
  {
    assert ms == ms[..i] + [ms[i]] + ms[i + 1..];
  }

  lemma {:induction false} InFlatten(ms: seq<Meld>, x: int)
    requires x in Flatten(ms)
    ensures exists i :: 0 <= i < |ms| && x in MeldTiles(ms[i])
  {
    FlattenCons(ms[0], ms[1..]);
    assert ms == [ms[0]] + ms[1..];
    if x !in MeldTiles(ms[0]) {
      InFlatten(ms[1..], x);
      var i :| 0 <= i < |ms[1..]| && x in MeldTiles(ms[1..][i]);
      assert ms[i + 1] == ms[1..][i];
    }
  }

  /** In any split of a sorted list the smallest tile leads a triplet or a
      run of its own: the only two melds the search tries. */
  lemma SmallestTileLeadsAMeld(tiles: seq<int>, ms: seq<Meld>) returns (i: int)
    requires Sorted(tiles) && tiles != []
    requires multiset(Flatten(ms)) == multiset(tiles)
    ensures 0 <= i < |ms|
    ensures ms[i] == Koutsu(tiles[0]) || ms[i] == Shuntsu(tiles[0])
  {
    var least := tiles[0];
    assert least in multiset(Flatten(ms));
    InFlatten(ms, least);
    i :| 0 <= i < |ms| && least in MeldTiles(ms[i]);
    FlattenWithout(ms, i);
    LeadInTiles(ms[i]);
    var lead := ms[i].Lead();
    assert lead in multiset(tiles);
    SortedHeadIsLowerBound(tiles);
    assert least <= lead;
    HoldingItsLead(ms[i], least);
  }

  lemma LeadInTiles(m: Meld)
    ensures m.Lead() in multiset(MeldTiles(m))
  {
    assert MeldTiles(m)[0] == m.Lead();
  }

  /** A meld holding a tile no larger than its lead starts at that tile. */
  lemma HoldingItsLead(m: Meld, x: int)
    requires x in MeldTiles(m) && x <= m.Lead()
    ensures m == Koutsu(x) || m == Shuntsu(x)
  {
  }

  /** `ms` without its meld `i`. */
  function Without(ms: seq<Meld>, i: int): (r: seq<Meld>)
    requires 0 <= i < |ms|
    ensures |r| == |ms| - 1
  {
    ms[..i] + ms[i + 1..]
  }

  /** Taking the smallest tile's meld out of a split of `tiles` leaves a
      split of what the search leaves after that first step. */
  lemma TakeFromSplit(tiles: seq<int>, ms: seq<Meld>, i: int)
    requires Sorted(tiles) && tiles != []
    requires AllWellFormed(ms) && multiset(Flatten(ms)) == multiset(tiles)
    requires 0 <= i < |ms| && (ms[i] == Koutsu(tiles[0]) || ms[i] == Shuntsu(tiles[0]))
    ensures FirstStep(tiles, ms[i])
    ensures multiset(Flatten(Without(ms, i))) == multiset(Take(tiles, ms[i]))
    ensures AllWellFormed(Without(ms, i))
    ensures multiset(ms) == multiset{ms[i]} + multiset(Without(ms, i))
  {
    var others := Without(ms, i);
    FlattenWithout(ms, i);
    MultisetWithout(ms, i);
    FitsIffIncluded(tiles, ms[i]);
    assert WellFormed(ms[i]);
    TakeOut(multiset(MeldTiles(ms[i])), multiset(Flatten(others)));
    WithoutWellFormed(ms, i);
  }

  lemma WithoutWellFormed(ms: seq<Meld>, i: int)
    requires AllWellFormed(ms) && 0 <= i < |ms|
    ensures AllWellFormed(Without(ms, i))
  {
    var others := Without(ms, i);
    forall j | 0 <= j < |others| ensures WellFormed(others[j]) {
      if j < i { assert others[j] == ms[j]; } else { assert others[j] == ms[j + 1]; }
    }
  }

  /** No false negatives: every split of a sorted list into well-formed
      melds is found by the enumeration, up to the order of its melds. */
  lemma {:induction false} FindAllComplete(tiles: seq<int>, ms: seq<Meld>)
    requires Sorted(tiles)
    requires AllWellFormed(ms)
    requires multiset(Flatten(ms)) == multiset(tiles)
    ensures exists r :: r in FindAll(tiles) && multiset(r) == multiset(ms)
    decreases |ms|
  {
    if tiles == [] {
      assert |Flatten(ms)| == |multiset(Flatten(ms))| == 0;
      assert ms == [];
      assert [] in FindAll(tiles);
    } else {
      var i := SmallestTileLeadsAMeld(tiles, ms);
      var m := ms[i];
      TakeFromSplit(tiles, ms, i);
      var rest := Take(tiles, m);
      TakeSorted(tiles, m);
      FindAllComplete(rest, Without(ms, i));
      var r' :| r' in FindAll(rest) && multiset(r') == multiset(Without(ms, i));
      FindAllExtend(tiles, m, r');
      assert multiset([m] + r') == multiset{m} + multiset(r');
    }
  }

  /** The melds come in ascending order of their leads. */
  predicate LeadsAscending(ms: seq<Meld>) {
    forall i, j :: 0 <= i < j < |ms| ==> ms[i].Lead() <= ms[j].Lead()
  }

  /** No two different melds share a lead (a triplet and a run of the same
      tile could come in either order). */
  predicate LeadsDistinguish(ms: seq<Meld>) {
    forall i, j :: 0 <= i < |ms| && 0 <= j < |ms| && ms[i].Lead() == ms[j].Lead() ==> ms[i] == ms[j]
  }

  /** On a sorted input the enumeration lists the melds of every split in
      ascending order of their leads. */
  lemma FindAllLeadOrder(tiles: seq<int>, r: seq<Meld>)
    requires r in FindAll(tiles) && Sorted(tiles)
    ensures LeadsAscending(r)
  {
    FindAllLeads(tiles, r);
    forall i, j | 0 <= i < j < |r| ensures r[i].Lead() <= r[j].Lead() {
      var tail := r[i..];
      FlattenAt(tail, j - i);
      assert tail[j - i] == r[j];
      LeadInTiles(r[j]);
      assert r[j].Lead() in Flatten(tail);
    }
  }

  /** Two lists of the same melds, both in lead order, are equal when no two
      different melds share a lead. */
  lemma {:induction false} LeadOrderUnique(r: seq<Meld>, ms: seq<Meld>)
    requires LeadsAscending(r) && LeadsAscending(ms) && LeadsDistinguish(ms)
    requires multiset(r) == multiset(ms)
    ensures r == ms
    decreases |ms|
  {
    assert |r| == |multiset(r)| == |ms|;
    if ms != [] {
      assert r[0] in multiset(ms) && ms[0] in multiset(r);
      var j :| 0 <= j < |ms| && ms[j] == r[0];
      var k :| 0 <= k < |r| && r[k] == ms[0];
      assert r[0].Lead() <= ms[0].Lead() <= r[0].Lead();
      assert r[0] == ms[0];
      assert r == [r[0]] + r[1..] && ms == [ms[0]] + ms[1..];
      assert multiset(r) == multiset{r[0]} + multiset(r[1..]);
      assert multiset(ms) == multiset{r[0]} + multiset(ms[1..]);
      TakeOut(multiset{r[0]}, multiset(r[1..]));
      TakeOut(multiset{r[0]}, multiset(ms[1..]));
      LeadsTail(r);
      LeadsTail(ms);
      LeadOrderUnique(r[1..], ms[1..]);
    }
  }

  lemma LeadsTail(ms: seq<Meld>)
    requires ms != []
    ensures LeadsAscending(ms) ==> LeadsAscending(ms[1..])
    ensures LeadsDistinguish(ms) ==> LeadsDistinguish(ms[1..])
  {
    forall i | 0 <= i < |ms| - 1 ensures ms[1..][i] == ms[i + 1] { }
  }

  /** Melds listed in another order have the same tiles. */
  lemma {:induction false} FlattenPermutation(a: seq<Meld>, b: seq<Meld>)
    requires multiset(a) == multiset(b)
    ensures multiset(Flatten(a)) == multiset(Flatten(b))
    decreases |a|
  {
    if a != [] {
      assert a[0] in multiset(b);
      var i :| 0 <= i < |b| && b[i] == a[0];
      var one, restA, restB := multiset{a[0]}, multiset(a[1..]), multiset(Without(b, i));
      MultisetWithout(b, i);
      assert a == [a[0]] + a[1..];
      assert multiset(a) == one + restA && multiset(b) == one + restB;
      TakeOut(one, restA);
      TakeOut(one, restB);
      assert restA == restB;
      FlattenPermutation(a[1..], Without(b, i));
      FlattenWithout(b, i);
      FlattenWithout(a, 0);
    }
  }

  /** In a split of codes an honour occurs only in triplets, three times
      in each: a run of codes stays in one number suit. */
  lemma {:induction false} HonourCountInSplit(ms: seq<Meld>, h: int)
    requires forall x :: x in Flatten(ms) ==> IsCode(x)
    requires h >= 30
    ensures multiset(Flatten(ms))[h] == 3 * multiset(ms)[Koutsu(h)]
  {
    if ms != [] {
      CodesCons(ms);
      CountCons(ms, h);
      HonourCountInSplit(ms[1..], h);
      HonourCountInMeld(ms[0], h);
    }
  }

  /** Codes in the tiles of melds are codes in the first meld and in the
      rest. */
  lemma CodesCons(ms: seq<Meld>)
    requires ms != []
    requires forall x :: x in Flatten(ms) ==> IsCode(x)
    ensures forall x :: x in MeldTiles(ms[0]) ==> IsCode(x)
    ensures forall x :: x in Flatten(ms[1..]) ==> IsCode(x)
  {
    var here, rest := MeldTiles(ms[0]), Flatten(ms[1..]);
    assert Flatten(ms) == here + rest;
    forall x | x in here ensures IsCode(x) {
      assert x in Flatten(ms);
    }
    forall x | x in rest ensures IsCode(x) {
      assert x in Flatten(ms);
    }
  }

  /** The count of a tile in the first meld and in the rest; the count of
      its triplet likewise. */
  lemma CountCons(ms: seq<Meld>, h: int)
    requires ms != []
    ensures multiset(Flatten(ms))[h] == multiset(MeldTiles(ms[0]))[h] + multiset(Flatten(ms[1..]))[h]
    ensures multiset(ms)[Koutsu(h)] == (if ms[0] == Koutsu(h) then 1 else 0) + multiset(ms[1..])[Koutsu(h)]
  {
    var here, rest := MeldTiles(ms[0]), Flatten(ms[1..]);
    assert Flatten(ms) == here + rest;
    assert multiset(Flatten(ms)) == multiset(here) + multiset(rest);
    assert multiset(ms) == multiset{ms[0]} + multiset(ms[1..]) by {
      assert ms == [ms[0]] + ms[1..];
    }
  }

  /** An honour occurs three times in its own triplet and in no other meld
      of codes. */
  lemma HonourCountInMeld(m: Meld, h: int)
    requires forall x :: x in MeldTiles(m) ==> IsCode(x)
    requires h >= 30
    ensures multiset(MeldTiles(m))[h] == if m == Koutsu(h) then 3 else 0
  {
    if m.Shuntsu? {
      var f := m.first;
      assert f in MeldTiles(m) && f + 1 in MeldTiles(m) && f + 2 in MeldTiles(m);
      RunStaysInSuit(f);
    }
  }

  /** An honour held once or twice can be in no split: the search finds
      none. */
  lemma LoneHonourBlocks(tiles: seq<int>, h: int)
    requires forall x :: x in tiles ==> IsCode(x)
    requires h >= 30 && 1 <= multiset(tiles)[h] <= 2
    ensures !FindSolution(tiles)
  {
    SolutionIffSomeCombination(tiles);
    var splits := FindAll(tiles);
    if splits != [] {
      var ms := splits[0];
      FindAllSound(tiles, ms);
      forall x | x in Flatten(ms) ensures IsCode(x) {
        assert x in multiset(tiles);
      }
      HonourCountInSplit(ms, h);
    }
  }
}
