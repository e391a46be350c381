# Hex board generator and board loader — a Dafny model

This project models two pieces of a Unity game client that builds a hexagonal, Catan-like board.

- **HexBoardGenerator** builds a board procedurally. Its `Generate` does these steps in order:
  1. It lists every axial coordinate `(q, r)` of a hexagon of the configured radius into a dictionary of tiles.
  2. It forces every tile within `edgeWaterDepth` rings of the rim to Water.
  3. It shuffles the remaining land and turns `round(|land| * waterFraction)` more tiles into Water, preferring tiles next to water already placed.
  4. It shuffles the land again and hands out equal quotas of Wood, Brick, Sheep, Wheat and Ore. The rest becomes Desert.
  5. It runs `smoothingPasses` majority-vote passes over the six-neighbour adjacency.
- **BoardLoader** takes a board sent by the server as JSON.
  - It cuts the `"board":` array out of the message with `IndexOf`/`Substring`.
  - It wraps the array as `{"board":…}` and hands that to a JSON parser.
  - It places one tile per record whose type name selects an assigned prefab.

The modules, in dependency order:

| module | file | contents |
|---|---|---|
| `Seqs` | seqs.dfy | `NoDups`, `Elems` and cardinality facts |
| `Resources` | resources.dfy | the `ResourceType` enum and its C# default (`Wood`) |
| `Hex` | hex.dfy | axial coordinates, `Neighbors` (GetNeighbors), hex distance, the hexagon and the row-by-row grid order |
| `Randomness` | randomness.dfy | exact fractions for the float settings, `Mathf.RoundToInt`, the `Random` class over an injected stream of draws, and the Fisher–Yates shuffle (as a function and as an in-place array method) |
| `Water` | water.dfy | specification functions for border forcing, cluster candidates, the water-placement loop and `AssignWater` as a whole |
| `Quota` | quota.dfy | specification functions for the quota hand-out and `AssignResources` |
| `Smoothing` | smoothing.dfy | the tally, the majority vote with the code's tie-break, one pass and `n` passes |
| `Generator` | generator.dfy | `class HexBoardGenerator` with the `tiles` dictionary as a field and one method per step, each proved equal to the specification functions; end-to-end lemmas about `Generate` |
| `BoardLoader` | board_loader.dfy | `IndexOf`, `ExtractBoardJson`, the wrapper string, `GetPrefab` and `class Loader` with `BuildBoard` |

How the source's state and inputs are represented:

- **Tile dictionary.** The `Dictionary<Vector2Int, HexTile>` is a field `tiles: map<Axial, ResourceType>`. Its enumeration order is a second field `order: seq<Axial>`, the insertion order, because the code never removes a key between `Clear` and the enumerations.
- **Randomness.** `UnityEngine.Random` is an object over an injected function `stream: nat -> nat`. It has a counter `drawn`, and every `Random.Range` or `Random.value` call consumes one element.
  - `Random.Range(lo, hi)` (int) is `lo + stream(k) % (hi - lo)`.
  - `Random.value` is `stream(k) % (2^24 + 1)` in units of `2^-24`, so 1.0 is included, as in Unity.
  - The two float draws for the noise offset are consumed and discarded.
- **Float settings.** `desertFraction`, `waterFraction` and `waterClusterFactor` are exact fractions `num/den`. `Mathf.RoundToInt(n * f)` is round-half-to-even of the exact product.

## Model

| member | source | states |
|---|---|---|
| Hex.Neighbors | Assets/Scripts/HexBoardGenerator.cs:253-262 | the six offsets give six distinct cells, none of them the cell itself |
| Hex.NeighborsAtDistanceOne | Assets/Scripts/HexBoardGenerator.cs:253-262 | b is among a's neighbours exactly when their hex distance is 1 |
| Hex.AdjacencySymmetric | Assets/Scripts/HexBoardGenerator.cs:253-262 | the offset set is closed under negation: b neighbours a iff a neighbours b |
| Hex.DistanceIsLargestDifference | Assets/Scripts/HexBoardGenerator.cs:129-131 | hex distance is the largest of the q, r and q+r differences |
| Hex.HexagonIsDistanceBall | Assets/Scripts/HexBoardGenerator.cs:70-81 | the hexagon `|q|,|r|,|q+r| <= radius` is the ball of that radius around the origin |
| Hex.RowBoundsAreHexagon | Assets/Scripts/HexBoardGenerator.cs:72-74 | for a column q in range, `r1 <= r <= r2` holds exactly for the hexagon's cells |
| Hex.RowsBeforeLowerHalf | Assets/Scripts/HexBoardGenerator.cs:70-74 | closed form of the cells in the columns before q, for the lower half |
| Hex.RowsBeforeUpperHalf | Assets/Scripts/HexBoardGenerator.cs:70-74 | closed form of the cells in the columns before q, for the upper half |
| Hex.GridCount | Assets/Scripts/HexBoardGenerator.cs:70-81 | all columns together hold 3R²+3R+1 cells |
| Hex.Row | Assets/Scripts/HexBoardGenerator.cs:72-80 | the cells the inner loop adds for column q are exactly the hexagon's cells with that q, in increasing r starting at r1 |
| Hex.GridRowsExactly | Assets/Scripts/HexBoardGenerator.cs:70-81 | the columns before q hold exactly the hexagon cells with q' < q, sorted, with the closed-form count |
| Hex.GridOrderIsHexagon | Assets/Scripts/HexBoardGenerator.cs:70-81 | `GridOrder`, the grid loop's order, holds exactly the hexagon's cells, sorted by (q, r), with no duplicate and 3R²+3R+1 entries |
| Generator.GridTiles | Assets/Scripts/HexBoardGenerator.cs:70-81 | the dictionary after the grid loop has exactly the hexagon's cells as keys |
| Generator.HexBoardGenerator.constructor | Assets/Scripts/HexBoardGenerator.cs:50 | a new generator starts with an empty dictionary |
| Generator.HexBoardGenerator.BuildGrid | Assets/Scripts/HexBoardGenerator.cs:62-81 | the cleared dictionary ends equal to the hexagon map, and its order equals the grid order |
| Generator.GridLoop | Assets/Scripts/HexBoardGenerator.cs:70-81 | the nested loops produce exactly the hexagon map, in grid order, without duplicate keys |
| Generator.RowLoop | Assets/Scripts/HexBoardGenerator.cs:74-80 | one column appends exactly its cells in r order; no `Add` meets a key already present |
| Water.BorderBandIsOuterRings | Assets/Scripts/HexBoardGenerator.cs:129-131 | the border test holds exactly for cells at distance at least radius − depth + 1 from the centre |
| Water.LandOfExactly | Assets/Scripts/HexBoardGenerator.cs:123-138 | `LandOf`, the `landTiles` list of the border loop, holds exactly the in-order tiles outside the band that are not Water, without duplicates |
| Water.ForceBorderEffect | Assets/Scripts/HexBoardGenerator.cs:124-137 | `ForceBorder`, the dictionary after the border loop, keeps the keys, makes every band tile Water and leaves the others alone; when depth > radius every tile is Water and the land list is empty |
| Generator.HexBoardGenerator.ForceEdgeWater | Assets/Scripts/HexBoardGenerator.cs:123-138 | the dictionary ends border-forced and the land list is returned |
| Generator.BorderLoop | Assets/Scripts/HexBoardGenerator.cs:124-137 | the loop over the keys in order yields the border-forced map and the land list of LandOf |
| Randomness.RoundToInt | Assets/Scripts/HexBoardGenerator.cs:140 | the rounded count never exceeds n when f ≤ 1, so it can index the land list |
| Randomness.RoundToIntIsNearest | Assets/Scripts/HexBoardGenerator.cs:140 | the count lies within half a unit of n·f, and a tie goes to the even neighbour |
| Randomness.RoundingIsNearest | Assets/Scripts/HexBoardGenerator.cs:207 | the half-to-even rounding of an exact product is nearest, even on ties and bounded by n |
| Randomness.RangeDraw | Assets/Scripts/HexBoardGenerator.cs:146 | an integer range draw lies in [lo, hi) |
| Randomness.ValueDraw | Assets/Scripts/HexBoardGenerator.cs:156 | a value draw lies in [0, 1] |
| Randomness.ValueBelowBounds | Assets/Scripts/HexBoardGenerator.cs:156 | with factor 0 the cluster branch is never taken; with factor 1 it is taken unless the draw is exactly 1.0 |
| Randomness.Random.constructor | Assets/Scripts/HexBoardGenerator.cs:65-68 | the global generator the `Random` calls read is the injected stream, with nothing drawn yet |
| Randomness.Random.Range | Assets/Scripts/HexBoardGenerator.cs:146 | returns a value in [lo, hi) taken from the next draw and consumes exactly one draw |
| Randomness.Random.Value | Assets/Scripts/HexBoardGenerator.cs:156 | returns a value in [0, 1] taken from the next draw and consumes exactly one draw |
| Randomness.Random.Discard | Assets/Scripts/HexBoardGenerator.cs:65-68 | a noise-offset draw consumes exactly one draw |
| Randomness.Swap | Assets/Scripts/HexBoardGenerator.cs:145-148 | exchanges positions i and j and keeps every other position |
| Randomness.ShuffleFrom | Assets/Scripts/HexBoardGenerator.cs:143-149 | the shuffle keeps the length |
| Randomness.ShufflePermutes | Assets/Scripts/HexBoardGenerator.cs:143-149 | the shuffle is a permutation (same multiset) and does not touch positions before i |
| Randomness.ShuffleKeepsKeys | Assets/Scripts/HexBoardGenerator.cs:199-205 | a shuffled list has the same elements and stays duplicate-free |
| Randomness.Shuffle | Assets/Scripts/HexBoardGenerator.cs:143-149 | the in-place swap loop leaves the array equal to the Fisher–Yates specification and consumes one draw per element |
| Randomness.SwapWithDraw | Assets/Scripts/HexBoardGenerator.cs:145-148 | one iteration swaps entry i with the drawn position and consumes one draw |
| Randomness.SwapEntries | Assets/Scripts/HexBoardGenerator.cs:145-148 | the swap through a temporary exchanges the two entries and keeps the rest |
| Water.AddCandidatesExactly | Assets/Scripts/HexBoardGenerator.cs:162-170 | one water tile's pass adds exactly its in-map non-Water neighbours not already listed |
| Water.CandidatesExactly | Assets/Scripts/HexBoardGenerator.cs:159-171 | `Candidates`, the cluster branch's `neighbors` list, holds, without duplicates, exactly the in-map non-Water tiles adjacent to some placed water tile |
| Generator.HexBoardGenerator.ClusterCandidates | Assets/Scripts/HexBoardGenerator.cs:159-171 | the nested loops build exactly that duplicate-free candidate list |
| Water.PickWaterTile | Assets/Scripts/HexBoardGenerator.cs:155-184 | with no water placed the pick is `landTiles[i]` and draws nothing; otherwise, when the value draw is below the cluster factor and the candidate list is non-empty, the pick is a candidate and takes two draws, and in every other case it is `landTiles[i]` after one draw; with factor 0 it is always `landTiles[i]` |
| Generator.HexBoardGenerator.PickTile | Assets/Scripts/HexBoardGenerator.cs:155-184 | the branchy pick agrees with the pick specification, draws included |
| Water.PlaceWaterEffect | Assets/Scripts/HexBoardGenerator.cs:153-188 | `PlaceWaterFrom`, the placement loop, keeps the keys, appends one entry per iteration to the water list, keeps Water as Water and changes a tile only to Water and only when it was placed |
| Water.PlacedAreWater | Assets/Scripts/HexBoardGenerator.cs:186-187 | every entry of the water list is a tile that is Water |
| Water.AtMostCountNewWater | Assets/Scripts/HexBoardGenerator.cs:153-188 | the loop adds at most `waterCount` new water tiles |
| Water.UnclusteredPicksLandInOrder | Assets/Scripts/HexBoardGenerator.cs:183 | with factor 0 the water list is the prefix `landTiles[0..waterCount)` |
| Water.UnclusteredNewWater | Assets/Scripts/HexBoardGenerator.cs:153-188 | with factor 0 and distinct land tiles exactly `waterCount` tiles become water |
| Water.WaterLoopEffect | Assets/Scripts/HexBoardGenerator.cs:153-188 | the loop keeps the keys, never turns Water into anything else, changes tiles only to Water and adds at most `waterCount` water tiles |
| Generator.HexBoardGenerator.PlaceWater | Assets/Scripts/HexBoardGenerator.cs:151-188 | the loop leaves the dictionary and draw counter equal to the placement specification |
| Water.ShuffledLandIsInterior | Assets/Scripts/HexBoardGenerator.cs:137-149 | every shuffled land tile is an in-map non-Water tile after forcing; no duplicates |
| Water.AssignWaterEffect | Assets/Scripts/HexBoardGenerator.cs:121-189 | `AssignWaterSpec`, AssignWater as a whole, keeps the keys, makes the band Water, keeps Water as Water, changes tiles only to Water and adds at most `waterCount` water beyond the band |
| Water.UnclusteredWaterCount | Assets/Scripts/HexBoardGenerator.cs:140-188 | with factor 0, exactly `RoundToInt(|landTiles| * waterFraction)` tiles become water beyond the band |
| Generator.HexBoardGenerator.AssignWater | Assets/Scripts/HexBoardGenerator.cs:121-189 | the method leaves the dictionary and draw counter equal to the AssignWater specification |
| Quota.NonWaterOfExactly | Assets/Scripts/HexBoardGenerator.cs:193-196 | `NonWaterOf`, AssignResources' land list, holds exactly the in-order non-Water tiles, without duplicates |
| Generator.HexBoardGenerator.CollectLand | Assets/Scripts/HexBoardGenerator.cs:193-196 | the loop returns that land list |
| Quota.QuotaTypeBlocks | Assets/Scripts/HexBoardGenerator.cs:213-218 | position i gets type t exactly when i lies in t's block of `perResource` positions (Desert: from 5·perResource on) |
| Quota.AssignQuotasEffect | Assets/Scripts/HexBoardGenerator.cs:211-219 | `AssignQuotas`, the hand-out loop, keeps the keys, gives `landTiles[j]` its quota type and leaves every other tile alone |
| Quota.QuotaBlock | Assets/Scripts/HexBoardGenerator.cs:211-219 | each of the five resources gets exactly `perResource` tiles and Desert gets the rest |
| Quota.QuotaKeepsWater | Assets/Scripts/HexBoardGenerator.cs:211-219 | the hand-out keeps the Water tiles exactly |
| Quota.QuotaCounts | Assets/Scripts/HexBoardGenerator.cs:209-219 | after the hand-out Water is unchanged, each of the five resources has `perResource` tiles and Desert has `landCount − 5·perResource` |
| Generator.HexBoardGenerator.HandOutQuotas | Assets/Scripts/HexBoardGenerator.cs:211-219 | the if-chain loop leaves the dictionary equal to the quota specification; a `perResource` of zero or below makes every land tile Desert, as a quota of 0 does |
| Quota.PerResource | Assets/Scripts/HexBoardGenerator.cs:207-209 | the five quotas fit in the land list; for a desert fraction of at most 1 the quota is `resourceCount / 5`, so 5·quota ≤ resourceCount < 5·quota + 5 |
| Quota.ShuffledLand | Assets/Scripts/HexBoardGenerator.cs:193-205 | the shuffled land list is duplicate-free, holds exactly the non-Water tiles and has `landCount` entries |
| Quota.AssignResourcesEffect | Assets/Scripts/HexBoardGenerator.cs:191-220 | `AssignResourcesSpec`, AssignResources as a whole, keeps the keys and the Water tiles, gives each resource `PerResource` tiles and Desert the rest, and consumes `landCount` draws, for any desert fraction |
| Generator.HexBoardGenerator.AssignResources | Assets/Scripts/HexBoardGenerator.cs:191-220 | the method, with C#'s truncating `resourceCount / 5`, leaves the dictionary and draw counter equal to the AssignResources specification for any desert fraction |
| Smoothing.Neighborhood | Assets/Scripts/HexBoardGenerator.cs:237-238 | the tallied sequence is never empty and starts with the tile's own type |
| Smoothing.NeighborTypesExactly | Assets/Scripts/HexBoardGenerator.cs:238 | the neighbour types tallied are exactly the types of in-map neighbours |
| Smoothing.OccurrencesAbsent | Assets/Scripts/HexBoardGenerator.cs:234 | a type never tallied has count 0 |
| Smoothing.TallyOrderKeys | Assets/Scripts/HexBoardGenerator.cs:231-238 | the tally's keys are duplicate-free and are exactly the types tallied |
| Smoothing.TallyOrderSorted | Assets/Scripts/HexBoardGenerator.cs:242 | the tally enumerates its keys in order of first occurrence |
| Generator.TallyStep | Assets/Scripts/HexBoardGenerator.cs:232-235 | `Inc` adds one to the type's count and appends a new key at the end |
| Generator.Inc | Assets/Scripts/HexBoardGenerator.cs:232-235 | after `Inc` the tally's keys and counts describe the tallied types with one more occurrence |
| Generator.HexBoardGenerator.Tally | Assets/Scripts/HexBoardGenerator.cs:231-238 | the tally's keys and counts are the occurrence counts of the tile and its in-map neighbours |
| Smoothing.BestIsMaximal | Assets/Scripts/HexBoardGenerator.cs:240-246 | `Best`, the best-so-far scan, ends with a non-Water key of maximal count, or the fallback when every key is Water |
| Smoothing.BestIsFirst | Assets/Scripts/HexBoardGenerator.cs:245 | the strict `>` keeps the first key that reaches the maximal count |
| Smoothing.MajorityIsFirstMostFrequent | Assets/Scripts/HexBoardGenerator.cs:231-246 | `MajorityType`, the vote for a land tile, is a non-Water type, present in its neighbourhood, of maximal count, and the earliest-seen among equally frequent types |
| Smoothing.MajorityComesFirst | Assets/Scripts/HexBoardGenerator.cs:242-246 | ties go to the type met first in the tile-then-neighbours order |
| Smoothing.SmoothedType | Assets/Scripts/HexBoardGenerator.cs:229-247 | a tile's new type is Water exactly when it was Water |
| Generator.HexBoardGenerator.MajorityAt | Assets/Scripts/HexBoardGenerator.cs:231-247 | the tally-and-scan code computes the specified vote |
| Generator.HexBoardGenerator.SnapshotTypes | Assets/Scripts/HexBoardGenerator.cs:224-248 | the snapshot is computed from the state before the pass for every key |
| Smoothing.SmoothPassKeepsWater | Assets/Scripts/HexBoardGenerator.cs:224-250 | `SmoothPass`, one snapshot pass, keeps the keys and the exact set of Water tiles |
| Smoothing.UniformLandIsStable | Assets/Scripts/HexBoardGenerator.cs:224-250 | a board whose land is one type is a fixed point of a pass |
| Generator.HexBoardGenerator.SmoothResources | Assets/Scripts/HexBoardGenerator.cs:222-251 | one call replaces the dictionary by the snapshot pass of its old value |
| Smoothing.SmoothTimesNone | Assets/Scripts/HexBoardGenerator.cs:99 | zero or negative pass counts leave the board unchanged |
| Smoothing.SmoothTimesKeepsWater | Assets/Scripts/HexBoardGenerator.cs:99 | `SmoothTimes`, any number of passes, keeps the keys and the Water set |
| Generator.HexBoardGenerator.SmoothPasses | Assets/Scripts/HexBoardGenerator.cs:99 | the loop runs exactly `smoothingPasses` passes |
| Generator.HexBoardGenerator.BuildStages | Assets/Scripts/HexBoardGenerator.cs:70-98 | grid, border, water and resources in the source's order equal `ResourceStage`, which is `AssignResourcesSpec` applied to `WaterStage`, which is `AssignWaterSpec` applied to the grid |
| Generator.HexBoardGenerator.Generate | Assets/Scripts/HexBoardGenerator.cs:59-101 | the whole pipeline, noise draws included, equals `GenerateSpec`: two draws, then `ResourceStage`, then `SmoothTimes` |
| Generator.HexBoardGenerator.StagesAndSmoothing | Assets/Scripts/HexBoardGenerator.cs:70-99 | after the two noise draws, grid, water, resources and the smoothing passes equal `GenerateSpec` |
| Generator.RoundZero | Assets/Scripts/HexBoardGenerator.cs:140 | a zero fraction rounds to a zero count |
| Generator.LaterStagesKeepWater | Assets/Scripts/HexBoardGenerator.cs:97-99 | resources and smoothing keep the keys and exactly the Water set left by AssignWater |
| Generator.GeneratedBoardIsHexagon | Assets/Scripts/HexBoardGenerator.cs:59-101 | a board generated by `GenerateSpec` has exactly the hexagon's cells, 3R²+3R+1 of them |
| Generator.GeneratedBorderIsWater | Assets/Scripts/HexBoardGenerator.cs:59-101 | on a generated board every band tile is Water; with depth > radius the whole board is Water |
| Generator.NoNewWaterWhenDry | Assets/Scripts/HexBoardGenerator.cs:121-189 | with waterFraction 0 AssignWater makes only band tiles Water |
| Generator.DryBoardWaterIsBand | Assets/Scripts/HexBoardGenerator.cs:59-101 | with waterFraction 0 a generated tile is Water exactly when it is in the band |
| BoardLoader.IndexOf | Assets/Scripts/BoardLoader.cs:40 | the result is the first occurrence at or after `from`, or −1 exactly when there is none |
| BoardLoader.ClosingBracket | Assets/Scripts/BoardLoader.cs:43 | the bracket search finds the first `]` at or after the start, or −1 exactly when none follows |
| BoardLoader.ExtractBoardJson | Assets/Scripts/BoardLoader.cs:37-45 | a successful extraction ends at its first `]` |
| BoardLoader.ExtractWithoutKey | Assets/Scripts/BoardLoader.cs:40-41 | without `"board":` the result is `[]` |
| BoardLoader.ExtractAfterKey | Assets/Scripts/BoardLoader.cs:40-44 | after the first key the result starts 8 characters on and runs to the first following `]`; it fails exactly when no `]` follows |
| BoardLoader.WrapperJson | Assets/Scripts/BoardLoader.cs:55 | the wrapper is `{"board":` + the array + `}` |
| BoardLoader.WrapperExtracts | Assets/Scripts/BoardLoader.cs:55 | extracting from the wrapper gives back any array that ends at its first `]` |
| BoardLoader.WrapperRoundTrip | Assets/Scripts/BoardLoader.cs:55 | the wrapped extraction extracts to itself again |
| BoardLoader.ParseResourceIsNameInverse | Assets/Scripts/BoardLoader.cs:84-97 | `ParseResource`, the switch on the type name, recognises exactly the seven enum member names; every other string gives nothing |
| BoardLoader.GetPrefabFindsAssigned | Assets/Scripts/BoardLoader.cs:84-97 | `GetPrefab`: a prefab is found exactly for a member name whose prefab field is assigned |
| BoardLoader.PlacementsExactly | Assets/Scripts/BoardLoader.cs:67-74 | `Placements`, the tiles the loop instantiates: a placement exists exactly for a record whose name selects an assigned prefab, at that record's coordinate; never more placements than records |
| BoardLoader.Loader.constructor | Assets/Scripts/BoardLoader.cs:19-33 | a new loader has placed nothing |
| BoardLoader.Loader.BuildBoard | Assets/Scripts/BoardLoader.cs:53-75 | the call succeeds exactly when extraction and parsing succeed, and then it replaces the placed tiles with the placements of the parsed records; on failure nothing changes |

## Left out

- Perlin-noise sampling, `noiseValue` and the noise loop (HexBoardGenerator.cs:83-95): floats and a foreign noise function, and no later step reads `noiseValue`. The two offset draws are still consumed (`Random.Discard`).
- `AxialToWorld`, `worldPos`, `hexSize`, `ClearChildren`, `InstantiatePrefabs` and the Instantiate/Destroy loops in `BuildBoard`: engine calls and float geometry. `BuildBoard`'s scene content is the `placed` sequence of (coordinate, type) pairs.
- `JsonUtility.FromJson` is a parameter `parse` of `BuildBoard`: `None` stands for a parse that throws. A parse that yields a null `board` array, which makes the source's `foreach` throw, is not modelled.
- Unity's random distributions are not modelled. A draw is any natural number from the injected stream, reduced into range. Float `Random.value` is quantised to multiples of 2^-24.
- Float arithmetic is not modelled. `landTiles.Count * fraction` is an exact rational product, so a float product that rounds differently at a .5 boundary is not captured.
- `IndexOf(string)` in C# is culture-sensitive by default. The model compares characters ordinally.
- Dictionary enumeration order is taken to be insertion order. .NET does not promise this, but it holds for a dictionary that has only had keys added since `Clear`.
- The other scripts (Connect.cs, AuthManager.cs, AdminWsClient.cs) are network and authentication plumbing and are not part of this model.
- Generator.HexBoardGenerator.AssignWater: requires `waterFraction <= 1` (`WaterFractionInRange`, as are `WaterStage`, `ResourceStage`, `GenerateSpec` and the methods that reach AssignWater). The source narrows the field only through its `[Range(0, 1)]` inspector attribute. Above 1, `waterCount` can exceed `landTiles.Count`; an iteration with `i >= landTiles.Count` that reaches the `landTiles[i]` branch then throws, while one that takes a cluster pick does not. Neither the throw nor the runs above 1 that avoid it are modelled.
- Generator.HexBoardGenerator.AssignResources: has no requirement on `desertFraction`. Above 1, `resourceCount` can be negative; C#'s `resourceCount / 5` is then 0 or negative, and either way every land tile becomes Desert. The model computes the truncating division and proves this case equal to a quota of 0.
- Negative float settings are not representable: `Fraction` is a ratio of natural numbers, although the public float fields could be set below 0 from code (`[Range]` clamps only the inspector).
- Water.AtMostCountNewWater: states "at most `waterCount`", not "exactly". A cluster pick can take a tile that a later `landTiles[i]` pick chooses again, so the source itself can fall short. Exactly `waterCount` is proved only for factor 0 (`Water.UnclusteredWaterCount`).
- Smoothing.MajorityIsFirstMostFrequent: the tie-break follows the code, which keeps the first maximal type in the tally's enumeration order (the tile, then its in-map neighbours in direction order). A fixed priority over resource types is a different rule and is not what the code does.
- A new `HexTile` has type `Wood`, the C# enum default, rather than an "unset" value. Border forcing and the land test at HexBoardGenerator.cs:137 see that default.
- Invalid configurations are not rejected. A negative radius gives an empty board, as the code's loop does. Only the `waterFraction` bound above is required.
