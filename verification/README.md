# reach-conn-checker rules engine in Dafny

reach-conn-checker is a closed-hand riichi-mahjong checker dressed up as a
network monitor. This project models its rules engine and the game state
it keeps:

- **Tile encoding and decomposition** (`network_rules.py`):
  - the name-to-code table;
  - the backtracking meld search (`_find_solution`, `_find_all_combinations`);
  - `decompose_hand`;
  - the win test `validate_packet_structure`;
  - the readiness and discard helpers built on top.
- **Yaku evaluation** (`yaku_rules.py`): every `_check_*` predicate, the
  best-structure loop of `YakuChecker.execute`, and `_get_score_name`.
- **Fu and points** (`score_counter.py`): `calculate_fu`, `calculate_score`
  and its `round100`.
- **`ConnectionManager`** (`core.py`): the deck it builds and deals, the
  sort key used to display the hand, and `discard`, `draw_tile` and `draw`.
  Each of these changes the `hand` and `deck` lists in place.

Each module follows one source file:

| module | file | what it holds |
|---|---|---|
| `Seqs` | `seqs.dfy` | list operations the source uses: `list.remove`, `sorted`, `sorted(set(...))`, filters and flattening. |
| `Tiles` | `tiles.dfy` | the table of `_parse_hand` and `Parse`/`ParseHand`. |
| `Melds` | `melds.dfy` | the two meld searches. |
| `NetworkRules` | `network.dfy` | the rest of `network_rules.py`. |
| `YakuRules` | `yaku.dfy` | `yaku_rules.py`. |
| `ScoreCounter` | `score.dfy` | `score_counter.py`. |
| `Core` | `core.dfy` | `core.py`; `ConnectionManager` is a class with `hand` and `deck` fields. |
| `RuleVectors` | `rule_vectors.dfy` | the hands of `tests/test_rules.py`, each stated as a lemma. |
| `YakuVectors` | `yaku_vectors.dfy` | three hands of `tests/test_yaku.py`, each stated as a lemma about one of its readings. |

Code that loops and appends in the source is a method here. It keeps the
source's loop, with invariants, and is proved equal to a function:

- `ParseHand`;
- `DecomposeHand`;
- `ValidatePacketStructure`;
- `CheckProtocolReadiness`;
- `CheckDiscardForTenpai`;
- `Execute`;
- `CalculateFu`;
- the `ConnectionManager` operations.

Lemmas then characterise those functions.

Codes are plain integers:

| tiles | codes |
|---|---|
| manzu | 1–9 |
| pinzu | 11–19 |
| souzu | 21–29 |
| east, south, west, north | 31, 33, 35, 37 |
| white, green, red | 41, 43, 45 |

A meld is `Koutsu(tile)` or `Shuntsu(first)`. The tiles of a run are
determined by its first tile.

`validate_packet_structure` checks the length of its input before
`_parse_hand` drops unknown strings. So a list of `"1m"`, `"1m"` and twelve
unknown strings passes the win test, even though `decompose_hand` returns
nothing for it. The model keeps this behaviour (`UnknownNamesPassTheWinTest`).
For hands made of tile names, the two agree (`AgariIffDecompose`).

## Model

| member | source | states |
|---|---|---|
| Seqs.RemoveFirst | reach_conn_checker/core.py:99 | `list.remove(x)` on a list holding `x` drops exactly one `x`: the length falls by one and the multiset loses one copy |
| Seqs.Sort | reach_conn_checker/network_rules.py:42 | `sorted` returns an ascending permutation of its input |
| Seqs.SortedUnique | reach_conn_checker/network_rules.py:42 | two ascending lists with the same elements are equal, so the sorted list is unique |
| Seqs.SortedSet | reach_conn_checker/network_rules.py:133 | `sorted(list(set(tiles)))` is strictly ascending and has exactly the elements of `tiles` |
| Seqs.SortedNames | reach_conn_checker/network_rules.py:238 | `sorted(list(set(hand_input)))` on strings is strictly ascending in string order and has exactly the names of the hand |
| Seqs.StrLessTotal | reach_conn_checker/network_rules.py:238 | Python's string order is total on distinct strings (irreflexive and transitive in `StrLessIrreflexive` and `StrLessTransitive`) |
| Tiles.Codes | reach_conn_checker/network_rules.py:38-41 | the loop keeps only mapped names: every result is a table code, and no name is dropped exactly when every name is in the table |
| Tiles.ParseHand | reach_conn_checker/network_rules.py:12-42 | the parsed hand is ascending, is a permutation of the codes of the recognised names, holds only table codes, and has the hand's length exactly when every name is recognised |
| Tiles.NameOf | reach_conn_checker/network_rules.py:23-34 | every table code has a name that maps back to it |
| Tiles.NameOfCode | reach_conn_checker/network_rules.py:23-34 | name to code to name is the identity on the table's names |
| Tiles.RunStaysInSuit | reach_conn_checker/network_rules.py:19-20 | three consecutive table codes start below 30 inside one suit (1–7, 11–17 or 21–27), so no run crosses suits or uses honours |
| Tiles.TableNamesAreInAllNames | reach_conn_checker/network_rules.py:273-278 | the 34-name list of `check_protocol_readiness` contains every table name, at the position of its code |
| Tiles.AllNamesAreTableNames | reach_conn_checker/network_rules.py:273-278 | every entry of that list is a table name |
| Tiles.WindCode | reach_conn_checker/yaku_rules.py:210 | `wind_map.get` gives a code exactly for the four wind names, and it is their table code |
| Tiles.Code | reach_conn_checker/network_rules.py:23-34 | the name-to-code table of `_parse_hand`: `None` for a name outside it. Its inverse `NameOf`, `NameOfCode` and `RunStaysInSuit` characterise it |
| Tiles.CodesOf | reach_conn_checker/network_rules.py:38-41 | a hand of table names maps, in hand order, to the codes of its names |
| Tiles.CodeOrZero | reach_conn_checker/score_counter.py:56-59 | the parsed winning tile is its table code, and 0 when the name is not in the table |
| Melds.FindSolution | reach_conn_checker/network_rules.py:47-76 | `_find_solution`: the empty list is solved; otherwise a triplet or a run of the smallest tile is taken and the rest must be solved. `SolutionIffSomeCombination` ties it to `FindAll`, and `LoneHonourBlocks` shows an honour held once or twice blocks it |
| Melds.FindAll | reach_conn_checker/network_rules.py:78-115 | `_find_all_combinations`: the triplet branch's lists, then the run branch's, of the smallest tile. `FindAllSound`, `FindAllComplete`, `FindAllLeads` and `FindAllLeadOrder` characterise it |
| Melds.FitsIffIncluded | reach_conn_checker/network_rules.py:59-68 | the guards of the triplet and run branches hold exactly when the meld's tiles are contained in the remaining tiles |
| Melds.Take | reach_conn_checker/network_rules.py:60-72 | removing a meld's three tiles leaves the multiset difference, three tiles shorter |
| Melds.FindAllOfNothing | reach_conn_checker/network_rules.py:84-85 | `_find_all_combinations([])` is `[[]]`, and `_find_solution([])` is true |
| Melds.SolutionIffSomeCombination | reach_conn_checker/network_rules.py:47-115 | `_find_solution(t)` holds exactly when `_find_all_combinations(t)` is non-empty |
| Melds.FindAllSound | reach_conn_checker/network_rules.py:78-115 | every enumerated list partitions the input multiset into melds, three tiles each, and every run starts below 30 |
| Melds.FindAllLeads | reach_conn_checker/network_rules.py:89-113 | on sorted input, each meld starts with the smallest tile still remaining at its step |
| Melds.FindAllComplete | reach_conn_checker/network_rules.py:78-115 | every partition of a sorted tile list into well-formed melds is enumerated, up to the order of its melds |
| Melds.FindAllLeadOrder | reach_conn_checker/network_rules.py:89-113 | on sorted input, the melds of every enumerated list come in ascending order of their smallest tiles |
| Melds.FlattenPermutation | reach_conn_checker/network_rules.py:78-115 | the same melds in another order hold the same tiles, so a split is fixed by its melds only up to order |
| Melds.HonourCountInSplit | reach_conn_checker/network_rules.py:59-72 | in a split of table codes, an honour occurs exactly three times per triplet of it, and in no run |
| Melds.LoneHonourBlocks | reach_conn_checker/network_rules.py:47-76 | a list of codes holding an honour once or twice has no solution |
| Melds.FindAllStep | reach_conn_checker/network_rules.py:91-113 | every enumerated list starts with a meld one of the branches admits and continues with an enumeration of what that meld leaves |
| Melds.FindAllExtend | reach_conn_checker/network_rules.py:98-113 | conversely, an admitted first meld followed by any enumeration of the rest is enumerated |
| NetworkRules.WithoutHead | reach_conn_checker/network_rules.py:156-158 | removing the head pair leaves the multiset minus two copies, two tiles shorter |
| NetworkRules.SevenPairsCheck | reach_conn_checker/network_rules.py:137-151 | with 7 distinct tiles, the flag holds exactly when each of them occurs twice, and the pairs are those 7 tiles in order |
| NetworkRules.HeadCombinations | reach_conn_checker/network_rules.py:155-169 | the loop appends one standard entry per 4-meld combination of the tiles left by the head |
| NetworkRules.StandardForm | reach_conn_checker/network_rules.py:153-169 | the loop over the unique tiles collects those entries head by head |
| NetworkRules.Decompose | reach_conn_checker/network_rules.py:117-171 | `decompose_hand`: nothing unless 14 names; otherwise the seven-pairs entry when it applies, then one standard entry per head and meld combination. `DecomposeSound`, `DecomposeOrder`, `DecomposeComplete` and `SevenPairsIff` characterise it |
| NetworkRules.DecomposeHand | reach_conn_checker/network_rules.py:117-171 | the method computes the decomposition function `Decompose` |
| NetworkRules.DecomposeSound | reach_conn_checker/network_rules.py:129-171 | every structure comes from a 14-name hand of table names, and its tiles are exactly the parsed hand. A standard entry has 4 well-formed melds; a seven-pairs entry has 7 strictly ascending pairs |
| NetworkRules.DecomposeOrder | reach_conn_checker/network_rules.py:136-169 | only the first entry can be seven pairs, and the standard entries come in non-decreasing head order (the entries of one head are adjacent) |
| NetworkRules.ReadingListed | reach_conn_checker/network_rules.py:153-169 | a head and four well-formed melds, in order of their smallest tiles, that hold exactly the parsed hand are listed, and the hand wins |
| NetworkRules.DecomposeComplete | reach_conn_checker/network_rules.py:153-169 | every reading of a 14-tile hand as a pair and 4 well-formed melds is listed, up to meld order |
| NetworkRules.SevenPairsIff | reach_conn_checker/network_rules.py:137-151 | a seven-pairs entry is listed exactly when the hand is 14 tiles of 7 distinct pairs, and then it comes first |
| NetworkRules.HeadEntriesIffSolves | reach_conn_checker/network_rules.py:154-200 | for 14 tiles, a head gives standard entries exactly when `_find_solution` accepts what it leaves |
| NetworkRules.FindHead | reach_conn_checker/network_rules.py:192-201 | the head loop finds a head exactly when some tile of the hand is a head whose remainder is solvable |
| NetworkRules.Agari | reach_conn_checker/network_rules.py:173-218 | the win test: 14 names, and a head whose remainder `_find_solution` accepts, or seven distinct pairs. `AgariIffDecompose`, `FindHead` and `UnknownNamesPassTheWinTest` characterise it |
| NetworkRules.ValidatePacketStructure | reach_conn_checker/network_rules.py:173-218 | the method computes the win predicate `Agari`: length 14 and a solvable head, or seven pairs |
| NetworkRules.AgariIffDecompose | reach_conn_checker/network_rules.py:173-218 | for a hand of table names, the win test holds exactly when `decompose_hand` is non-empty |
| NetworkRules.UnknownNamesPassTheWinTest | reach_conn_checker/network_rules.py:185-201 | a hand of `"1m"`, `"1m"` and twelve unknown strings passes the win test although `decompose_hand` returns nothing |
| NetworkRules.Waits | reach_conn_checker/network_rules.py:252-291 | the names of the fixed 34-name list whose addition wins. `WaitsMembers`, `WaitsInTableOrder` and `ReadyIff` characterise it |
| NetworkRules.CheckProtocolReadiness | reach_conn_checker/network_rules.py:252-291 | with 13 tiles, the wait list is the table names whose addition wins, and otherwise it is empty; the flag holds exactly when the list is non-empty |
| NetworkRules.CollectWaits | reach_conn_checker/network_rules.py:280-286 | the loop keeps exactly the candidates whose addition passes the win test, in candidate order |
| NetworkRules.WaitsMembers | reach_conn_checker/network_rules.py:273-286 | a name is a wait exactly when it is a table name whose addition passes the win test |
| NetworkRules.WaitsInTableOrder | reach_conn_checker/network_rules.py:273-286 | the waits come in the fixed m/p/s/winds/dragons order, without repeats |
| NetworkRules.ReadyIff | reach_conn_checker/network_rules.py:262-291 | a hand is ready exactly when it has 13 tiles and some tile name completes it |
| NetworkRules.TenpaiDiscards | reach_conn_checker/network_rules.py:229-250 | the distinct names of a 14-tile hand whose removal leaves a ready hand, in string order. `DiscardsMembers` and `DiscardsAscending` characterise it |
| NetworkRules.CheckDiscardForTenpai | reach_conn_checker/network_rules.py:229-250 | the method computes `TenpaiDiscards`, which is empty unless the hand has 14 tiles |
| NetworkRules.CollectDiscards | reach_conn_checker/network_rules.py:240-248 | the loop keeps exactly the candidates whose single removal leaves a ready hand |
| NetworkRules.DiscardsMembers | reach_conn_checker/network_rules.py:234-250 | a name is listed exactly when the hand has 14 tiles, holds the name, and removing one copy leaves a ready hand |
| NetworkRules.DiscardsAscending | reach_conn_checker/network_rules.py:238-248 | the discards are distinct and in ascending string order |
| YakuRules.CheckTanyao | reach_conn_checker/yaku_rules.py:194-200 | true exactly when no tile is a terminal or an honour |
| YakuRules.CheckHonroutou | reach_conn_checker/yaku_rules.py:355-362 | true exactly when every tile is a terminal or an honour |
| YakuRules.AnyHonour | reach_conn_checker/yaku_rules.py:478-482 | the honour flag of the flush check is set exactly when some tile is 30 or more |
| YakuRules.AllRuns | reach_conn_checker/yaku_rules.py:229-232 | the first pinfu condition holds exactly when every meld is a run |
| YakuRules.CheckToitoi | reach_conn_checker/yaku_rules.py:248-253 | true exactly when every meld is a triplet |
| YakuRules.CheckSanshoku | reach_conn_checker/yaku_rules.py:292-318 | true exactly when for some base the runs starting at base, base+10 and base+20 are all present |
| YakuRules.CheckSanshokuDouko | reach_conn_checker/yaku_rules.py:320-334 | true exactly when for some base the triplets at base, base+10 and base+20 are all present |
| YakuRules.CheckItsu | reach_conn_checker/yaku_rules.py:336-353 | true exactly when one suit has the runs 1-2-3, 4-5-6 and 7-8-9 |
| YakuRules.CheckIppeiko | reach_conn_checker/yaku_rules.py:255-270 | true exactly when some run occurs twice among the melds |
| YakuRules.RyanpeikoIff | reach_conn_checker/yaku_rules.py:272-290 | the ryanpeiko test holds exactly when there are at least four runs and either two different runs each occur twice or one run occurs four times |
| YakuRules.PairsFoundIff | reach_conn_checker/yaku_rules.py:283-290 | `pairs_found` reaches two exactly when one value occurs four times or two different values occur twice each |
| YakuRules.HalfCountsIff | reach_conn_checker/yaku_rules.py:286-290 | summing `c // 2` over the distinct values reaches two exactly under the same condition |
| YakuRules.RyanpeikoHasIppeiko | reach_conn_checker/yaku_rules.py:272-290 | whenever the ryanpeiko count passes, so does the ippeiko test |
| YakuRules.HalfCountsPositive | reach_conn_checker/yaku_rules.py:285-288 | a positive `pairs_found` means some run occurs at least twice |
| YakuRules.CheckChanta | reach_conn_checker/yaku_rules.py:364-388 | true exactly when the pair is a terminal or honour and every meld holds one |
| YakuRules.CheckJunchan | reach_conn_checker/yaku_rules.py:390-415 | true exactly when the pair is a terminal and every meld holds a terminal and no honour |
| YakuRules.JunchanHasChanta | reach_conn_checker/yaku_rules.py:364-415 | junchan's test implies chanta's |
| YakuRules.DragonTriplets | reach_conn_checker/yaku_rules.py:426-431 | the count is the number of white, green and red triplets |
| YakuRules.CheckShosangen | reach_conn_checker/yaku_rules.py:417-432 | true exactly when the pair is a dragon and the melds hold at least two dragon triplets |
| YakuRules.CheckSanankou | reach_conn_checker/yaku_rules.py:434-461 | true exactly when the triplets, less those of the winning tile on ron, number at least three |
| YakuRules.CheckPinfuStructure | reach_conn_checker/yaku_rules.py:226-246 | `_check_pinfu_structure`: all runs, and a pair that is no dragon, round wind or seat wind. `AllRuns` states its first condition, and `StandardFires` and `OpenStandardYaku` state when pinfu is awarded |
| YakuRules.ConcealedTriplets | reach_conn_checker/yaku_rules.py:440-461 | every triplet counts as concealed, except on ron those of the winning tile |
| YakuRules.AwardedNames | reach_conn_checker/yaku_rules.py:83-175 | a yaku is in `current_yaku` exactly when one of the `if` tests that append it passes |
| YakuRules.YakuhaiFires | reach_conn_checker/yaku_rules.py:202-224 | `_check_yakuhai` names exactly the yakuhai whose tile (dragon, round wind or seat wind) has a triplet, so one wind triplet can count twice |
| YakuRules.StandardFires | reach_conn_checker/yaku_rules.py:111-175 | the standard branch awards exactly the yaku whose guard passes, with ryanpeiko before ippeiko and honroutou before junchan before chanta, plus the yakuhai |
| YakuRules.UniversalFires | reach_conn_checker/yaku_rules.py:86-94 | reach and menzen tsumo need a closed hand; chinitsu needs one suit and no honours; honitsu needs one suit with honours |
| YakuRules.SevenPairsFires | reach_conn_checker/yaku_rules.py:99-108 | the seven-pairs branch always awards chitoitsu, plus tanyao and honroutou when their tests pass |
| YakuRules.YakuForNames | reach_conn_checker/yaku_rules.py:83-175 | the names awarded to a structure are exactly the yaku it earns by the predicate `Earned` |
| YakuRules.StandardFlushExclusive | reach_conn_checker/yaku_rules.py:469-497 | a standard reading never has both flushes, and never chitoitsu |
| YakuRules.StandardPeikoExclusive | reach_conn_checker/yaku_rules.py:149-156 | a standard reading never has both ryanpeiko and ippeiko |
| YakuRules.StandardChainsExclusive | reach_conn_checker/yaku_rules.py:158-171 | a standard reading has at most one of honroutou, junchan and chanta |
| YakuRules.OpenStandardYaku | reach_conn_checker/yaku_rules.py:86-156 | an open standard hand gets none of reach, menzen tsumo, pinfu, ippeiko and ryanpeiko |
| YakuRules.SevenPairsExclusions | reach_conn_checker/yaku_rules.py:86-108 | a seven-pairs reading has chitoitsu and never both flushes, pinfu or either peiko; open, it has neither reach nor menzen tsumo |
| YakuRules.HanIsWorthOfNames | reach_conn_checker/yaku_rules.py:178 | the han of a structure is the sum of the worths of its yaku names (closed or open values) |
| YakuRules.ScoreNameOf | reach_conn_checker/yaku_rules.py:499-505 | `_get_score_name`; its band table is `ScoreNameMonotone` |
| YakuRules.ScoreNameMonotone | reach_conn_checker/yaku_rules.py:499-505 | the label is fixed by bands: below 5 han `Normal`, 5 `Mangan`, 6–7 `Haneman`, 8–10 `Baiman`, 11–12 `Sanbaiman`, 13 and more `Yakuman` (each exactly), so every han has a label and more han never gives a lower one |
| YakuRules.BestOf | reach_conn_checker/yaku_rules.py:80-187 | the loop returns the entry of the first structure whose han is at least every other's and strictly above every earlier one |
| YakuRules.Execute | reach_conn_checker/yaku_rules.py:67-192 | no decomposition gives the empty result; otherwise the result is the first best structure's entry, with its yaku names, their han, fu 30 and the score label |
| ScoreCounter.RoundUp10 | reach_conn_checker/score_counter.py:148 | the least multiple of 10 at or above its argument |
| ScoreCounter.CeilingIsRoundUp10 | reach_conn_checker/score_counter.py:148 | the integer form of `math.ceil(fu / 10) * 10` is that multiple |
| ScoreCounter.Fu | reach_conn_checker/score_counter.py:27-148 | `calculate_fu`. `FuShape`, `FuRoundsRaw`, `PinfuTsumoFu` and `SevenPairsFu` characterise it |
| ScoreCounter.CalculateFu | reach_conn_checker/score_counter.py:27-148 | the method's accumulator loops and the `break` of the wait loop compute the fu function `Fu` |
| ScoreCounter.MeldsFuEven | reach_conn_checker/score_counter.py:74-97 | the triplet fu is non-negative and even |
| ScoreCounter.RunsHaveNoMeldFu | reach_conn_checker/score_counter.py:74-97 | runs add no meld fu |
| ScoreCounter.RawFuEven | reach_conn_checker/score_counter.py:44-144 | the accumulated fu is even and at least 20, so never 25 |
| ScoreCounter.FuShape | reach_conn_checker/score_counter.py:32-148 | fu is 0 exactly without a structure, 25 for seven pairs, and a multiple of 10 of at least 20 for a standard structure |
| ScoreCounter.FuRoundsRaw | reach_conn_checker/score_counter.py:44-148 | without pinfu, a standard structure's fu is the accumulated fu rounded up to a multiple of 10 |
| ScoreCounter.PinfuTsumoFu | reach_conn_checker/score_counter.py:40-42 | pinfu tsumo gives 20 fu whatever the melds |
| ScoreCounter.TanyaoRonFu | reach_conn_checker/score_counter.py:44-148 | the closed tanyao ron hand of the tests gives 30 fu |
| ScoreCounter.SevenPairsFu | reach_conn_checker/score_counter.py:36-37 | seven pairs gives 25 fu |
| ScoreCounter.LimitBaseIsTable | reach_conn_checker/score_counter.py:15-25 | the limit bands of `calculate_score` agree with the `LIMIT_SCORES` table for 5 to 13 han |
| ScoreCounter.Round100 | reach_conn_checker/score_counter.py:177-178 | `round100` gives the least multiple of 100 at or above its argument |
| ScoreCounter.Round100Least | reach_conn_checker/score_counter.py:177-178 | no multiple of 100 at or above the argument is smaller |
| ScoreCounter.Round100Monotone | reach_conn_checker/score_counter.py:177-178 | rounding preserves order |
| ScoreCounter.CalculateScore | reach_conn_checker/score_counter.py:150-199 | han 0 pays nothing. Otherwise: a dealer tsumo pays one share of twice the base from each of three players; a non-dealer tsumo pays twice the base from the dealer and the base from each of two others; a ron pays six or four times the base. Each share is rounded up to 100, and the total is the sum of the payments |
| ScoreCounter.BasePoints | reach_conn_checker/score_counter.py:161-173 | the base of `calculate_score`: the limit table from 5 han, else `fu * 2 ** (2 + han)` capped at 2000. `BaseBounds`, `BaseMonotoneInHan`, `BaseMonotoneInFu` and `LimitBaseIsTable` characterise it |
| ScoreCounter.BaseBounds | reach_conn_checker/score_counter.py:161-173 | a limit hand's base is 2000 to 8000; any other is capped at 2000 |
| ScoreCounter.BaseMonotoneInHan | reach_conn_checker/score_counter.py:161-173 | more han never lowers the base |
| ScoreCounter.BaseMonotoneInFu | reach_conn_checker/score_counter.py:161-173 | more fu never lowers the base |
| ScoreCounter.DealerGetsMore | reach_conn_checker/score_counter.py:182-199 | the dealer's total is never below the non-dealer's for the same han and fu |
| ScoreCounter.PinfuTsumoScore | reach_conn_checker/score_counter.py:150-199 | 2 han 20 fu non-dealer tsumo totals 1500, paid 700 by the dealer and 400 by each other player |
| ScoreCounter.TanyaoRonScore | reach_conn_checker/score_counter.py:150-199 | 1 han 30 fu non-dealer ron totals 1000 |
| ScoreCounter.SevenPairsScore | reach_conn_checker/score_counter.py:150-199 | 2 han 25 fu non-dealer ron totals 1600 |
| Core.SortKey | reach_conn_checker/core.py:64-83 | `_sort_key`. `NumberNameKey`, `SortKeyOfName` and `SortKeyOrder` characterise it |
| Core.NumberNameKey | reach_conn_checker/core.py:72-76 | a number tile's key is its suit's offset plus its rank |
| Core.SortKeyOfName | reach_conn_checker/core.py:64-83 | on tile names the key is 1–9, 101–109, 201–209, 301–304 or 401–403 by code |
| Core.SortKeyOrder | reach_conn_checker/core.py:64-83 | on tile names, key order is code order (manzu, pinzu, souzu, winds, dragons, by rank); distinct names have distinct keys; `"unknown"` sorts after every name |
| Core.InsertByKey | reach_conn_checker/core.py:86 | insertion adds exactly one copy of the tile |
| Core.InsertByKeySorted | reach_conn_checker/core.py:86 | insertion keeps a key-sorted list sorted |
| Core.SortByKey | reach_conn_checker/core.py:86 | `sorted(hand, key=_sort_key)` is a key-sorted permutation of the hand |
| Core.QuadsCount | reach_conn_checker/core.py:50-53 | extending by four copies of each name holds four times each name's count |
| Core.AllNamesOnce | reach_conn_checker/core.py:47-53 | the suffix-and-honour loops name each of the 34 tiles once and nothing else |
| Core.NewDeckCounts | reach_conn_checker/core.py:46-53 | the unshuffled deck has 136 tiles, four of each tile name and nothing else |
| Core.BuildDeck | reach_conn_checker/core.py:46-53 | the loops build that deck |
| Core.Deal | reach_conn_checker/core.py:58-61 | thirteen pops move the deck's last 13 tiles, last first, onto the hand, and the deck keeps the rest |
| Core.PartsAreNames | reach_conn_checker/core.py:46-53 | a hand and deck within the full deck's counts hold only tile names |
| Core.MoveLast | reach_conn_checker/core.py:120-122 | moving the deck's last tile onto the hand keeps them within the full deck's counts |
| Core.ConnectionManager.constructor | reach_conn_checker/core.py:35-61 | for any shuffle, hand and deck together hold exactly four of each of the 34 tile names. The hand has 13 tiles, the shuffled deck's last 13 taken last first, and the deck keeps its first 123. No melds; the flags are false |
| Core.ConnectionManager.GetHand | reach_conn_checker/core.py:85-86 | a permutation of the hand in key order, without changing it |
| Core.ConnectionManager.Discard | reach_conn_checker/core.py:88-107 | a valid display index removes exactly the first occurrence of the sorted hand's tile there and returns it; any other index returns `None` and changes nothing; the deck never changes |
| Core.ConnectionManager.DrawTile | reach_conn_checker/core.py:109-112 | an empty deck gives `None`; otherwise the deck's last tile is popped and returned |
| Core.ConnectionManager.Draw | reach_conn_checker/core.py:114-123 | with 14 tiles or more, or an empty deck, nothing changes and `None` is returned. Otherwise the deck's last tile moves to the end of the hand and is returned. Every operation keeps the hand at no more than 14 tiles and within the full deck |
| RuleVectors.SequenceOnlyWins | tests/test_rules.py:6-9 | the hand 123m 456p 789s 123s 11m wins, read as the head 1m and four runs |
| RuleVectors.TripletOnlyWins | tests/test_rules.py:11-14 | the hand 111m 222p 333s 444s 55m wins, read as the head 5m and four triplets |
| RuleVectors.MixedWins | tests/test_rules.py:16-19 | the hand 123m 555p 789s, three east and two white wins, read as the head white, two runs and two triplets |
| RuleVectors.RandomHandLoses | tests/test_rules.py:21-24 | the random hand does not win and has no reading |
| RuleVectors.SevenPairsHandWins | tests/test_rules.py:26-29 | the seven-pairs hand wins, and its first reading is the seven pairs |
| RuleVectors.ReadyHandIsReady | tests/test_rules.py:31-38 | 123m 456p 789s 23s and two east is ready, and 1s is among its waits |
| RuleVectors.WaitMakesReady | reach_conn_checker/network_rules.py:262-291 | a tile name that completes a 13-tile hand is among its waits, and the hand is ready |
| RuleVectors.NotReadyHandIsNotReady | tests/test_rules.py:40-45 | the hand of thirteen different terminals, middles and honours is not ready and waits on nothing |
| RuleVectors.ReachHandDiscards9m | tests/test_rules.py:47-56 | 9m is among the discards that leave the 14-tile hand ready |
| YakuVectors.TanyaoPinfuYaku | tests/test_yaku.py:7-17 | the reading of head 2s and runs 234m, 345m, 456p, 678s is listed, and on a closed ron of 2m it earns exactly tanyao and pinfu, 2 han |
| YakuVectors.RunningFlushYaku | tests/test_yaku.py:40-61 | the reading of head 9m and runs 123m, 123m, 456m, 789m is listed, and on a closed ron of 9m it earns exactly chinitsu, pinfu, itsu and ippeiko, 10 han |
| YakuVectors.JunchanSanshokuYaku | tests/test_yaku.py:110-120 | the reading of head 9p, runs 123m, 123p, 123s and the triplet 999m is listed, and on a closed ron of 1m it earns exactly sanshoku and junchan, 5 han |

## Left out

- `cli.py`, `tui.py` and `cpu.py` (terminal interface, curses and random discards) are not part of this model. Their helpers only forward to the rules modelled here.
- `random.shuffle` in `ConnectionManager.__init__` is the constructor's parameter `shuffle`. It may be any function that returns a permutation of its argument.
- `print_fake_log` (clock and printing), `get_code`/`TILE_MAP` (display lookup) and the `check_*` forwarding methods of `ConnectionManager` are not modelled.
- The `except ValueError` branch of `discard`, with its debug print, is not modelled. The removed tile always comes from the sorted hand, so that branch is never taken.
- `audit_protocol_compliance` is an alias of `validate_packet_structure` and has no member of its own.
- The `get_all_tiles_func` parameter of `check_protocol_readiness` is never used by the source, so it is not modelled.
- The no-op `'kan'` branch of `calculate_fu` is not modelled: no meld is a kan. The absent kokushi check is not modelled either.
- `math.ceil(x / 10)` and `math.ceil(x / 100)` are float divisions of integers. They are modelled as integer ceilings, which agree with them for the small values involved.
- The `YAKU_NAMES` display strings are the enum `Yaku`, and the score labels are the enum `ScoreName`. The `payments` strings are the structured `Payments` values. `calculate_fu` receives the yaku as `seq<Yaku>`, and its `'Pinfu (Flat Network)' in yaku_names` test is `Pinfu in yakuNames`.
- Ippatsu has a name in `YAKU_NAMES` but is never awarded, so it has no enum value.
- YakuRules.Execute: the `fu` of each entry is the source's constant placeholder 30. The dead `best_result['han'] == -1` return is not modelled: a non-empty list of structures always sets a best entry.
- YakuRules.Execute: `_check_sanankou` indexes the parsed winning tile, so the source raises for a standard reading with a winning tile outside the table. The method therefore requires a table name as winning tile unless every reading is seven pairs. For seven-pairs-only hands, `WinCode` is then 0 and is never read.
- Core.SortKey: `int(tile[:-1])` also accepts signs, surrounding spaces, underscores and non-ASCII digits. The model only gives keys to `"unknown"`, names not ending in `m`, `p` or `s`, and names whose prefix is ASCII digits. Every tile name is among these.
- ScoreCounter.CalculateScore: `han` is a `nat`. For negative han, `2 ** (2 + han)` is a float in the source, and the model does not cover that case.
- The yaku vectors state the awards of one listed reading of each test hand, under east round, east seat. They do not prove that `execute` picks that reading as the best one, so the test's `han` is stated for that reading only.
- `test_not_tenpai` passes a tuple to `assertFalse`, so as written it would never pass. `NotReadyHandIsNotReady` states what it evidently means: the flag is false and there are no waits.
- The fields `melds`, `isReach` and `isContinuous` are only initialised. The modelled operations never change them.
