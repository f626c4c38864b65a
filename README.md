# Rooms, regions and chunk links of a tile grid

This project is a Dafny model of the core of `space`. `space` keeps track of which tiles of a tile map can reach which other tiles, and walks agents through the map.

The map is cut into equal rectangular chunks. Inside a chunk, connected open tiles form regions. Regions that can reach each other share a room. A room carries an identifier and the total tile count of its regions. Where two regions meet across a chunk boundary there is a link. A link is named by a packed 32-bit key and stored in a grid-wide dictionary as the pair of regions it joins. A path hands an agent one tile at a time: it follows a local route inside one chunk and refills that route from a queue of links.

The model covers:

- **`LinkUtils`** (`LinkUtils.dfy`): the key packing `Hash`, done on 32-bit bit-vectors, with field readers that invert it. Also `GetOtherRegion` on a link pair.
- **`Utils`** (`Utils.dfy`): the hand-reduced 3×3 predicate `Partitions3by3Area`. It is proved equal, on all 256 inputs, to a reference definition: the blocked neighbours form at least two 8-connected groups once the centre is removed. A separate proof shows that 123 inputs make it true.
- **`Rooms`** and **`Regions`** (`Rooms.dfy`, `Regions.dfy`): classes whose methods update sizes, room references and link lists in place.
  - The link dictionary is a class with a map field.
  - `ResetLinks` is a loop over the region's keys. Its new state is stated through the function `Purged`.
  - Lemmas say what `Purged` removes and keeps. `ResetLinks` keeps every remaining link listed at both of its ends.
- **`Grid`** (`Grid.dfy`): the chunk grid constructor.
  - Its checks throw with C# semantics: a zero divisor, an indivisible size, a negative array length, or a store out of bounds.
  - The nested loops fill a 2-D array.
  - Lemmas show that the chunks tile the map exactly.
  - The constructor is modelled twice: once as written and once corrected (see Findings).
- **`Navigation`** (`Navigation.dfy`): the path cursor `GetNextTilePosition` as a state machine over its two queues.
  - `WithinChunk` uses C# truncating division, from `Division.dfy`.
  - `GetTileFromLink` gives the target tile of a link.
  - One expansion step of the local search is modelled, with integer costs.
  - `ReconstructLocalPath` is modelled as written, beside a corrected walk back through the predecessor map.

`Wrappers.dfy` holds `Option` and `Result`. A `Failure` stands for a thrown exception.

## Model

| member | source | states |
|---|---|---|
| LinkUtils.Hash | src/LinkUtils.cs:17-28 | bit 30 of the key is set exactly when `right`; bit 31 is never set, so every key is below 2^31 |
| LinkUtils.HashX | src/LinkUtils.cs:20 | bits 0..11 of the key are `x` modulo 4096 |
| LinkUtils.HashY | src/LinkUtils.cs:21 | bits 12..23 of the key are `y` modulo 4096 |
| LinkUtils.HashSize | src/LinkUtils.cs:22 | bits 24..29, read back as `(key >> 24) & 63`, are the run length modulo 64 |
| LinkUtils.HashRoundTrip | src/LinkUtils.cs:17-28 | within the field widths, decoding the four fields of a key gives back x, y, size and direction |
| LinkUtils.HashInjective | src/LinkUtils.cs:17-28 | within the field widths, two crossings with the same key are the same crossing |
| LinkUtils.ScenarioKeys | test/ChunkGridTests.cs:259-262 | the four keys of the two-room scenario have the exact bit layouts the tests look up |
| LinkUtils.GetOtherRegion | src/LinkUtils.cs:30-37 | from `r1` it gives `r2`; from any other region it gives `r1` |
| LinkUtils.OtherRegionTwice | src/LinkUtils.cs:30-37 | for a link between two distinct regions, crossing twice returns to the start, and crossing once reaches the other end |
| Utils.Partitions3by3Area | src/Utils.cs:14-30 | a true answer needs between two and six blocked neighbours, so it is false with fewer than two blocked or fewer than two open |
| Utils.PartitionsIffDisconnected | src/Utils.cs:14-30 | the formula is true exactly when the blocked neighbours split into two or more 8-connected groups |
| Utils.CutImpliesPartitions | src/Utils.cs:14-30 | any split of the blocked neighbours with no adjacent pair across it makes the formula true |
| Utils.PartitionsImpliesCut | src/Utils.cs:14-30 | when the formula is true, such a split exists |
| Utils.VerticalWall | src/Utils.cs:20 | top and bottom blocked with left and right open is true whatever the corners |
| Utils.HorizontalWall | src/Utils.cs:26 | left and right blocked with top and bottom open is true whatever the corners |
| Utils.TrueCasesIs123 | src/Utils.cs:9-30 | exactly 123 of the 256 inputs make the formula true |
| Rooms.Room.constructor | src/Room.cs:9-16 | a new room has size 0 and the given identifier |
| Rooms.Room.MergeFrom | src/Room.cs:20-24 | the room takes the other room's identifier and adds the other's size to its own; a distinct other room is unchanged |
| Regions.IndexOf | src/Region.cs:35 | the position `List.Remove` looks up: an occurrence of the key with none before it |
| Regions.RemoveFirst | src/Region.cs:35 | removing a key drops exactly one occurrence when present and nothing otherwise; it is the first occurrence, and the other keys keep their order |
| Regions.LinkCache.constructor | src/LinkUtils.cs:1 | the link dictionary maps a key to the pair of regions the link joins; a new one is empty |
| Regions.Region.constructor | src/Region.cs:12-16 | a new region has size 0, no links, and a fresh room of size 0 |
| Regions.Region.IncrementSize | src/Region.cs:18-22 | the region and its room each grow by exactly one; nothing else changes |
| Regions.Region.ResetLinks | src/Region.cs:28-40 | the region's links are emptied and its held keys leave the dictionary; other entries are kept; each other region loses what `Purged` removes; every remaining link is still listed at both ends |
| Regions.Region.PurgeLinks | src/Region.cs:30-38 | the loop over the held keys leaves the dictionary and the other regions' lists as `Purged` describes; sizes and rooms are unchanged |
| Regions.Region.PurgeStep | src/Region.cs:30-37 | one iteration drops the next held key from the dictionary and extends each other region's `Purged` record by that key; sizes and rooms are unchanged |
| Regions.Region.DropLink | src/Region.cs:32-37 | a key still in the dictionary leaves the dictionary and the list of the region across it; nothing else changes |
| Regions.PurgedRemovesDropped | src/Region.cs:30-37 | a reset removes one occurrence of each held key that leads to the target region, and nothing else, from that region's list |
| Regions.PurgedKeepsUnheld | src/Region.cs:30-37 | a key the resetting region did not hold stays in, or out of, every other region's list |
| Regions.PurgedDropsHeld | src/Region.cs:30-37 | a held key that leads to the target region is gone from a list that held it at most once |
| Regions.TotalAfterResize | src/Region.cs:18-22 | changing one region's size changes its room's tile total by the difference and no other room's total, as `IncrementSize` and `Destroy` change the room sizes |
| Regions.TotalAfterMove | src/Region.cs:47-52 | moving one region to another room takes its size from the old room's total and adds it to the new room's, as `ReplaceRoom` changes the room sizes |
| Regions.Region.Destroy | src/Region.cs:42-45 | the room's size drops by the region's size; size and room reference are unchanged |
| Regions.Region.ReplaceRoom | src/Region.cs:47-52 | the region moves to the new room; the old room loses and the new room gains the region's size; their combined size is preserved; the same room is unchanged |
| Grid.Build | src/ChunkGrid.cs:9-24 | with the array allocated by chunk count, the constructor succeeds with non-negative counts that tile the map exactly, and never stores out of range |
| Grid.BuildAsWritten | src/ChunkGrid.cs:9-24 | as written, a success has every visited index inside the chunk-size array; on a map of non-negative size it agrees with the corrected outcome, and the divisibility errors are the same |
| Grid.ChunkCounts | src/ChunkGrid.cs:9-15 | success exactly when neither chunk size is 0 and both divide the map size; the counts times the chunk sizes give the map size |
| Grid.AsWrittenRejectsLargeMap | src/ChunkGrid.cs:14-24 | the as-written constructor throws on a 64×64 map of 4×4 chunks, which the corrected one builds as 16×16 |
| Grid.AsWrittenNeedsFewChunks | src/ChunkGrid.cs:14-24 | for a non-empty divisible map, the as-written constructor succeeds exactly when no axis has more chunks than a chunk has tiles; the corrected one always succeeds |
| Grid.TileInItsChunk | src/ChunkGrid.cs:14-22 | every map tile lies in the chunk indexed by its coordinates divided by the chunk size, and that index is in range |
| Grid.ChunksDisjoint | src/ChunkGrid.cs:22 | two chunks that share a tile are the same chunk |
| Grid.ChunkInsideMap | src/ChunkGrid.cs:14-22 | every tile of every chunk lies inside the map |
| Grid.Fill | src/ChunkGrid.cs:18-24 | the fill succeeds exactly when every visited index fits the array; then each index below the counts holds its chunk and every other cell is untouched |
| Grid.ChunkGrid.constructor | src/ChunkGrid.cs:7-25 | the corrected grid stores the chunk counts and an array of exactly that size, with the chunk of origin `(x*chunkSizeX, y*chunkSizeY)` at each index |
| Grid.Create | src/ChunkGrid.cs:7-25 | builds the corrected grid or reports the exception the constructor throws |
| Grid.CreateAsWritten | src/ChunkGrid.cs:7-25 | the as-written constructor throws exactly as `BuildAsWritten` says; otherwise it yields a chunk-size by chunk-size array holding its chunk at every index below the counts and nothing in every other cell |
| Grid.ChunkGrid.GetRoomAt | src/ChunkGrid.cs:28-31 | any tile yields a fresh, empty room |
| Division.TruncDiv | src/navigation/Path.cs:102-103 | C# `/` on `int`: the quotient is non-negative when dividend and divisor have the same sign and non-positive otherwise |
| Division.TruncRem | src/ChunkGrid.cs:9 | C# `%` on `int`: the remainder is smaller in magnitude than the divisor and has the dividend's sign |
| Division.DivisionIdentity | src/navigation/Path.cs:102-103 | C# quotient and remainder rebuild the dividend, which with the remainder's bounds fixes the quotient as rounded toward zero |
| Division.TruncMatchesEuclid | src/navigation/Path.cs:102-103 | with a non-negative dividend and a positive divisor, C# and Euclidean division agree |
| Division.SmallNegativeTruncatesToZero | src/navigation/Path.cs:102-103 | a small negative dividend divides to 0 in C#, where Euclidean division gives -1 |
| Navigation.GetTileFromLink | src/navigation/Path.cs:126-137 | a rightward link leads one column past its boundary tile, a downward one one row past it, at most the run length along the boundary |
| Navigation.TileFromLinkInRun | src/navigation/Path.cs:126-137 | a link's tile is one step across the boundary the link crosses, inside the run of the link |
| Navigation.WithinChunk | src/navigation/Path.cs:100-105 | a tile is in a chunk when C# truncating division of its coordinates by the chunk size gives the chunk's index (no contract of its own; `WithinChunkOnMap` and `WithinChunkAdmitsNegativeTile` state what that means) |
| Navigation.WithinChunkOnMap | src/navigation/Path.cs:100-105 | on tiles with non-negative coordinates, `WithinChunk` is membership of the chunk's rectangle |
| Navigation.WithinChunkAdmitsNegativeTile | src/navigation/Path.cs:100-105 | tile (-1, 0) counts as inside chunk (0, 0) though it lies outside that chunk's rectangle |
| Navigation.RankedAfterRelax | src/navigation/Path.cs:86-90 | lowering a tile's cost to one above its new predecessor keeps every predecessor cheaper than its successor |
| Navigation.RelaxedStep | src/navigation/Path.cs:86-92 | relaxing one more neighbour extends the record of what an expansion changed |
| Navigation.Path.Relax | src/navigation/Path.cs:84-93 | a neighbour is relaxed exactly when it lies in the search's chunk and is new or now cheaper; it then gets the cost one above the current tile's and the current tile as predecessor; otherwise nothing changes; predecessors stay cheaper |
| Navigation.Neighbour | src/navigation/Path.cs:79-82 | each of the four steps leads to an orthogonally adjacent tile |
| Navigation.Improving | src/navigation/Path.cs:79-93 | the neighbours one expansion queues, in direction order, are adjacent, in the chunk, and new or now cheaper |
| Navigation.ImprovingHas | src/navigation/Path.cs:79-93 | among the directions looked at so far, a neighbour is listed exactly when it is in the chunk and new or now cheaper |
| Navigation.ImprovingExactly | src/navigation/Path.cs:79-93 | over all four directions, a neighbour is queued exactly when it is in the chunk and new or now cheaper |
| Navigation.Path.ExpandStep | src/navigation/Path.cs:80-93 | one direction extends the queue, the costs and the predecessors exactly as `Improving` and `Relaxed` say, keeping the ranking |
| Navigation.Path.Expand | src/navigation/Path.cs:57-94 | the queue is exactly the neighbours in the end tile's chunk (C# truncating division) that are new or now cheaper, in the order left, right, up, down; each gets the cost one above the current tile's and the current tile as predecessor; every other tile is unchanged; predecessors stay cheaper |
| Navigation.Trail | src/navigation/Path.cs:114-124 | the walk back from a tile ends at that tile, follows predecessors step by step, and starts just after a tile with none |
| Navigation.AsWrittenLosesRoute | src/navigation/Path.cs:114-124 | with the guard as written, a search that ends one step from its start leaves no route, where the walk back gives a one-tile route |
| Navigation.Path.constructor | src/navigation/Path.cs:21-27 | a new path keeps its grid, link queue and destination, and has no local route |
| Navigation.Path.GetNextTilePosition | src/navigation/Path.cs:29-53 | a reached front tile is dropped; a non-empty route answers its front and leaves the link queue alone; an empty route takes exactly one link (or the destination) as the search target; a failed search or an empty new route throws |
| Navigation.Path.ReconstructLocalPath | src/navigation/Path.cs:114-124 | as written: the route is cleared and always left empty, and the call throws exactly when the end tile has no predecessor |
| Navigation.Path.ReconstructRoute | src/navigation/Path.cs:114-124 | corrected: the route is the walk back from the end tile, in walking order |

## Left out

- `src/navigation/Navigator.cs` and `src/Navigation.cs` are not part of this model. Their A* uses float priorities, square-root heuristics and a priority queue library that is not among the sources. `Navigation.cs` is also an older copy of the path code.
- `LocalAStarSearch` (src/navigation/Path.cs:55-98) is a parameter of `GetNextTilePosition`. The model keeps the expansion step (`Expand`) with integer costs. It leaves out the priority queue, its capacity and the float heuristic `LocalHeuristic`.
  - `None` stands for any exception the search throws. That is the exception at line 97 when the open list runs dry. It is also the `KeyNotFoundException` from `ReconstructLocalPath` when the start tile is already the target: `cameFrom` is then empty (lines 73-75 and 118-120). `GetNextTilePosition` shows both as `Failure(NoPath)`.
  - The parameter is unconstrained, so it may also return a non-empty route. The search as written never does: `ReconstructLocalPath` either leaves the route empty or throws (`Navigation.Path.ReconstructLocalPath`). So in the source every refill of the route ends in an exception, and at the latest in the `Peek` of line 52. In effect `GetNextTilePosition` is modelled over the corrected search (`ReconstructRoute`).
- `LinkData` is not among the sources. Keys are taken apart by a `decode` parameter into x, y, size and direction. The `(int)` casts and unsigned wrap-around of its fields are not modelled.
- `Chunk` (src/Chunk.cs) is a stub. The grid stores it as a record of origin and size. Its region array and its call to a `Region(Room)` constructor, which src/Region.cs does not define, are not modelled.
- Room identifiers come from a random generator in the source. Here the caller passes them to the `Room` and `Region` constructors and to the `GetRoomAt` method.
- The tile map (`ITileMap`) is reduced to its width and height, which the grid constructor takes as arguments. `src/Benchmark.cs` and the interface files are timing code and declarations only.
- `Path.cs` reads `chunkSizeX`, `chunkSizeY`, `xChunks` and `yChunks` from the grid, which src/ChunkGrid.cs keeps as locals. The model's `ChunkGrid` exposes them as constants.
- Regions.Region.ResetLinks: requires that no held link leads back to the region itself. In the source such a link would remove from the list being iterated, and the iteration throws. A `null` end of a link pair is not modelled either.
- Regions.Region.ReplaceRoom: states the size change of the two rooms it touches. The agreement between each room's size and the sum of its regions' sizes is proved on values (`Total`), not as a heap invariant over all regions of a grid.
- Navigation.Path.Expand: requires non-zero chunk sizes, which every successfully built grid has. A zero size would throw `DivideByZeroException` in the source.
- Link keys are packed on 32-bit bit-vectors. The dictionary and the link lists hold them as the equal number in `0 .. 2^32-1` (`UInt32`).
- `Queue` and `List` objects shared between callers become sequence fields. Aliasing of a link queue with the caller's queue is not modelled.
- C# `int` is 32 bits; the model's integers are unbounded. Sizes, costs and chunk origins cannot overflow in the model.
- Navigation.Path.ReconstructLocalPath: the source loop never completes an iteration. It is modelled as the test of its guard followed by the throw.

## Findings

| source | as written | input that shows it | evidently intended | confidence | as-written member | corrected member |
|---|---|---|---|---|---|---|
| src/ChunkGrid.cs:16 | the chunk array is allocated `[chunkSizeX, chunkSizeY]`, the chunk size | a 64×64 map with 4×4 chunks: 16 chunks per axis, so the store at index [4, 0] is out of range and the constructor throws | allocate `[xChunks, yChunks]`, the chunk counts | not executed | Grid.CreateAsWritten, Grid.AsWrittenRejectsLargeMap | Grid.Create, Grid.ChunkGrid.constructor |
| src/navigation/Path.cs:118 | the walk-back loop runs while the current tile is NOT a predecessor key, and reads that missing key | `cameFrom = {(1,0) ↦ (0,0)}`, end tile (1,0): the route stays empty, so the next `Peek` throws; with the end tile not a key, the read throws | walk back while the current tile has a predecessor, and give the route in walking order | not executed | Navigation.Path.ReconstructLocalPath, Navigation.AsWrittenLosesRoute | Navigation.Path.ReconstructRoute, Navigation.Trail |
