/**
 * The path cursor: a walker asks for the next tile to step to, and the path
 * hands out tiles from a local route inside one chunk, refilling that route
 * from the queue of chunk-boundary links (or, at the end, the destination)
 * by a search confined to the target's chunk.
 */
module Navigation {
  import opened Wrappers
  import opened Division
  import opened LinkUtils
  import opened Grid

  /** A tile coordinate pair `(x, y)`. */
  type Tile = (int, int)

  /**
   * A link key taken apart: the boundary tile, the length of the run of open
   * tiles along the boundary, and whether the link crosses rightward.
   */
  datatype LinkData = LinkData(x: nat, y: nat, size: nat, right: bool)

  /** The exceptions a step of the cursor can throw. */
  datatype PathError =
    | NoPath       // the local search exhausted its open list
    | KeyNotFound  // a dictionary read of a missing key
    | EmptyQueue   // `Peek` on an empty queue

  /** The four steps the local search tries, in order: left, right, up, down. */
  const AdjacentDirections: seq<Tile> := [(-1, 0), (1, 0), (0, -1), (0, 1)]

  /** Two tiles one orthogonal step apart. */
  predicate Adjacent(a: Tile, b: Tile)
  {
    ((a.0 - b.0 == 1 || b.0 - a.0 == 1) && a.1 == b.1) ||
    ((a.1 - b.1 == 1 || b.1 - a.1 == 1) && a.0 == b.0)
  }

  /** The tile one step from `p` in direction `d` of `AdjacentDirections`. */
  function Neighbour(p: Tile, d: nat): (t: Tile)
    requires d < |AdjacentDirections|
    ensures Adjacent(p, t)
  {
    (p.0 + AdjacentDirections[d].0, p.1 + AdjacentDirections[d].1)
  }

  /**
   * The tile a walker heads for to take a link: one step past the boundary,
   * halfway along the run.
   */
  function GetTileFromLink(link: LinkData): (t: Tile)
    ensures link.right ==> t.0 == link.x + 1 && link.y <= t.1 <= link.y + link.size
    ensures !link.right ==> t.1 == link.y + 1 && link.x <= t.0 <= link.x + link.size
  {
    if link.right then (link.x + 1, link.y + link.size / 2)
    else (link.x + link.size / 2, link.y + 1)
  }

  /**
   * For a run of at least one tile, the link's tile is one step past the
   * boundary tile, across the boundary the link's direction names, and lies
   * within the run.
   */
  lemma TileFromLinkInRun(link: LinkData)
    requires link.size > 0
    ensures var t := GetTileFromLink(link);
      if link.right then t.0 == link.x + 1 && link.y <= t.1 < link.y + link.size
      else t.1 == link.y + 1 && link.x <= t.0 < link.x + link.size
  {
  }

  /** The chunk index of a tile, by C# truncating division. */
  function ChunkIndex(t: Tile, chunkSizeX: int, chunkSizeY: int): (int, int)
    requires chunkSizeX != 0 && chunkSizeY != 0
  {
    (TruncDiv(t.0, chunkSizeX), TruncDiv(t.1, chunkSizeY))
  }

  /** The tile lies in chunk `(chunkX, chunkY)`, as C# division sees it. */
  predicate WithinChunk(chunkX: int, chunkY: int, t: Tile, chunkSizeX: int, chunkSizeY: int)
    requires chunkSizeX != 0 && chunkSizeY != 0
  {
    ChunkIndex(t, chunkSizeX, chunkSizeY) == (chunkX, chunkY)
  }

  /** On tiles with non-negative coordinates, `WithinChunk` is membership of the chunk's rectangle. */
  lemma WithinChunkOnMap(chunkX: int, chunkY: int, t: Tile, chunkSizeX: int, chunkSizeY: int)
    requires chunkSizeX > 0 && chunkSizeY > 0 && t.0 >= 0 && t.1 >= 0
    ensures WithinChunk(chunkX, chunkY, t, chunkSizeX, chunkSizeY) <==>
      Contains(ChunkAt(chunkX, chunkY, chunkSizeX, chunkSizeY), t.0, t.1)
  {
    TruncMatchesEuclid(t.0, chunkSizeX);
    TruncMatchesEuclid(t.1, chunkSizeY);
    if Contains(ChunkAt(chunkX, chunkY, chunkSizeX, chunkSizeY), t.0, t.1) {
      AxisIndex(chunkSizeX, chunkX, t.0);
      AxisIndex(chunkSizeY, chunkY, t.1);
    }
  }

  lemma AxisIndex(size: int, i: int, t: int)
    requires size > 0 && i * size <= t < i * size + size
    ensures t / size == i
  {
    AxisUnique(size, i, t / size, t);
  }

  /**
   * Truncation puts the tiles just left of the map in chunk column 0: with
   * chunks wider than one tile, tile `(-1, 0)` is within chunk `(0, 0)`
   * though outside its rectangle.
   */
  lemma WithinChunkAdmitsNegativeTile(chunkSizeX: int, chunkSizeY: int)
    requires chunkSizeX > 1 && chunkSizeY > 0
    ensures WithinChunk(0, 0, (-1, 0), chunkSizeX, chunkSizeY)
    ensures !Contains(ChunkAt(0, 0, chunkSizeX, chunkSizeY), -1, 0)
  {
  }

  /** Every tile has a predecessor with a strictly smaller cost: a rank that makes walking back terminate. */
  ghost predicate RankedBy(cameFrom: map<Tile, Tile>, costs: map<Tile, int>)
  {
    (forall t :: t in costs ==> costs[t] >= 0) &&
    forall t :: t in cameFrom ==> t in costs && cameFrom[t] in costs && costs[cameFrom[t]] < costs[t]
  }

  /**
   * Giving `t` the predecessor `p` and the cost one above `p`'s, when that
   * lowers or sets `t`'s cost, keeps the ranking.
   */
  lemma RankedAfterRelax(cameFrom: map<Tile, Tile>, costs: map<Tile, int>, p: Tile, t: Tile)
    requires RankedBy(cameFrom, costs) && p in costs && p != t
    requires t !in costs || costs[p] + 1 < costs[t]
    ensures RankedBy(cameFrom[t := p], costs[t := costs[p] + 1])
  {
  }

  /** From `p`, tile `t` is worth relaxing: it lies in `chunk` and is new, or now reached more cheaply. */
  ghost predicate Improves(costs: map<Tile, int>, p: Tile, t: Tile, chunk: (int, int), chunkSizeX: int, chunkSizeY: int)
    requires chunkSizeX != 0 && chunkSizeY != 0 && p in costs
  {
    ChunkIndex(t, chunkSizeX, chunkSizeY) == chunk && (t !in costs || costs[p] + 1 < costs[t])
  }

  /**
   * The neighbours of `p` among the first `n` directions (left, right, up,
   * down) that are worth relaxing, in direction order: what one expansion queues.
   */
  ghost function Improving(costs: map<Tile, int>, p: Tile, chunk: (int, int), chunkSizeX: int, chunkSizeY: int,
                           n: nat): (ts: seq<Tile>)
    requires chunkSizeX != 0 && chunkSizeY != 0 && p in costs && n <= |AdjacentDirections|
    ensures forall t :: t in ts ==> Adjacent(p, t) && Improves(costs, p, t, chunk, chunkSizeX, chunkSizeY)
  {
    if n == 0 then []
    else
      var t := Neighbour(p, n - 1);
      Improving(costs, p, chunk, chunkSizeX, chunkSizeY, n - 1) +
      (if Improves(costs, p, t, chunk, chunkSizeX, chunkSizeY) then [t] else [])
  }

  /** The neighbour in direction `d` is not among those of the earlier directions. */
  lemma {:induction false} ImprovingExcludesLater(costs: map<Tile, int>, p: Tile, chunk: (int, int),
                                                  chunkSizeX: int, chunkSizeY: int, n: nat, d: nat)
    requires chunkSizeX != 0 && chunkSizeY != 0 && p in costs && n <= d < |AdjacentDirections|
    ensures Neighbour(p, d) !in Improving(costs, p, chunk, chunkSizeX, chunkSizeY, n)
  {
    if n > 0 {
      ImprovingExcludesLater(costs, p, chunk, chunkSizeX, chunkSizeY, n - 1, d);
      assert Neighbour(p, n - 1) != Neighbour(p, d);
    }
  }

  /** Among the first `n` directions, a neighbour is listed exactly when it is worth relaxing. */
  lemma {:induction false} ImprovingHas(costs: map<Tile, int>, p: Tile, chunk: (int, int),
                                        chunkSizeX: int, chunkSizeY: int, n: nat, d: nat)
    requires chunkSizeX != 0 && chunkSizeY != 0 && p in costs && d < n <= |AdjacentDirections|
    ensures Neighbour(p, d) in Improving(costs, p, chunk, chunkSizeX, chunkSizeY, n) <==>
      Improves(costs, p, Neighbour(p, d), chunk, chunkSizeX, chunkSizeY)
  {
    if d == n - 1 {
      ImprovingExcludesLater(costs, p, chunk, chunkSizeX, chunkSizeY, n - 1, d);
    } else {
      ImprovingHas(costs, p, chunk, chunkSizeX, chunkSizeY, n - 1, d);
      assert Neighbour(p, n - 1) != Neighbour(p, d);
    }
  }

  /** Over all four directions, a neighbour is queued exactly when it is worth relaxing. */
  lemma ImprovingExactly(costs: map<Tile, int>, p: Tile, chunk: (int, int), chunkSizeX: int, chunkSizeY: int)
    requires chunkSizeX != 0 && chunkSizeY != 0 && p in costs
    ensures forall d :: 0 <= d < |AdjacentDirections| ==>
      (Neighbour(p, d) in Improving(costs, p, chunk, chunkSizeX, chunkSizeY, |AdjacentDirections|) <==>
       Improves(costs, p, Neighbour(p, d), chunk, chunkSizeX, chunkSizeY))
  {
    forall d | 0 <= d < |AdjacentDirections|
      ensures Neighbour(p, d) in Improving(costs, p, chunk, chunkSizeX, chunkSizeY, |AdjacentDirections|) <==>
        Improves(costs, p, Neighbour(p, d), chunk, chunkSizeX, chunkSizeY)
    {
      ImprovingHas(costs, p, chunk, chunkSizeX, chunkSizeY, |AdjacentDirections|, d);
    }
  }

  /**
   * `costs'` and `cameFrom'` are `costs` and `cameFrom` after relaxing from
   * `p`: each queued tile now costs one above `p` (less than before, if it
   * had a cost) and has `p` as predecessor; every other tile is as before.
   */
  ghost predicate Relaxed(costs: map<Tile, int>, cameFrom: map<Tile, Tile>, costs': map<Tile, int>,
                          cameFrom': map<Tile, Tile>, queued: seq<Tile>, p: Tile)
    requires p in costs
  {
    (forall t :: t in queued ==>
      t in costs' && costs'[t] == costs[p] + 1 && t in cameFrom' && cameFrom'[t] == p &&
      (t !in costs || costs[p] + 1 < costs[t])) &&
    (forall t :: t !in queued ==>
      (t in costs' <==> t in costs) && (t in costs ==> costs'[t] == costs[t]) &&
      (t in cameFrom' <==> t in cameFrom) && (t in cameFrom ==> cameFrom'[t] == cameFrom[t]))
  }

  /** Relaxing one more tile `t` from `p`, when that lowers or sets its cost, extends `Relaxed`. */
  lemma RelaxedStep(costs: map<Tile, int>, cameFrom: map<Tile, Tile>, costs': map<Tile, int>,
                    cameFrom': map<Tile, Tile>, queued: seq<Tile>, p: Tile, t: Tile)
    requires p in costs && p in costs' && costs'[p] == costs[p] && p != t
    requires Relaxed(costs, cameFrom, costs', cameFrom', queued, p)
    requires t !in costs' || costs'[p] + 1 < costs'[t]
    ensures Relaxed(costs, cameFrom, costs'[t := costs[p] + 1], cameFrom'[t := p], queued + [t], p)
  {
  }

  /**
   * The tiles walked back from `t` through `cameFrom`, in walking order:
   * the route from just after the first tile without a predecessor up to `t`.
   */
  ghost function Trail(cameFrom: map<Tile, Tile>, costs: map<Tile, int>, t: Tile): (route: seq<Tile>)
    requires RankedBy(cameFrom, costs)
    ensures t in cameFrom <==> |route| > 0
    ensures |route| > 0 ==> route[|route| - 1] == t && route[0] in cameFrom && cameFrom[route[0]] !in cameFrom
    ensures forall k :: 0 <= k < |route| ==> route[k] in cameFrom
    ensures forall k :: 0 < k < |route| ==> cameFrom[route[k]] == route[k - 1]
    decreases if t in costs then costs[t] else 0
  {
    if t in cameFrom then Trail(cameFrom, costs, cameFrom[t]) + [t] else []
  }

  /**
   * `ReconstructLocalPath` as written: the route is cleared, and the loop
   * runs only while the current tile is NOT a key, where it reads that very
   * key and throws.
   */
  function ReconstructAsWritten(cameFrom: map<Tile, Tile>, endTile: Tile): Result<seq<Tile>, PathError>
  {
    if endTile in cameFrom then Success([]) else Failure(KeyNotFound)
  }

  /**
   * With the guard as written, a search that reached its target one step
   * from the start leaves no route at all, where walking back yields the
   * one-tile route to the target.
   */
  lemma AsWrittenLosesRoute()
    ensures ReconstructAsWritten(map[(1, 0) := (0, 0)], (1, 0)) == Success([])
    ensures Trail(map[(1, 0) := (0, 0)], map[(0, 0) := 0, (1, 0) := 1], (1, 0)) == [(1, 0)]
  {
  }

  class Path {
    var localPath: seq<Tile>
    var highLevelPath: seq<UInt32>
    const endTileX: int
    const endTileY: int
    const chunkGrid: ChunkGrid

    /** A path over `chunkGrid` following the links `highLevelPath` to `(endTileX, endTileY)`, with no local route yet. */
    constructor (chunkGrid: ChunkGrid, highLevelPath: seq<UInt32>, endTileX: int, endTileY: int)
      ensures this.chunkGrid == chunkGrid && this.highLevelPath == highLevelPath
      ensures this.endTileX == endTileX && this.endTileY == endTileY
      ensures localPath == []
    {
      this.chunkGrid := chunkGrid;
      this.highLevelPath := highLevelPath;
      this.endTileX := endTileX;
      this.endTileY := endTileY;
      localPath := [];
    }

    /**
     * The next tile to step to from `current`. A reached front tile is
     * dropped; when the local route is then empty, the next link's tile (or,
     * with no links left, the destination) becomes the target of a local
     * search from `current`, whose route replaces the local one. `decode`
     * takes a link key apart; `search` stands for the local search and yields
     * `None` when it throws.
     */
    method GetNextTilePosition(current: Tile, decode: UInt32 -> LinkData, search: (Tile, Tile) -> Option<seq<Tile>>)
      returns (r: Result<Tile, PathError>)
      modifies this
      ensures var remaining := if |old(localPath)| > 0 && old(localPath)[0] == current
                               then old(localPath)[1..] else old(localPath);
        if |remaining| > 0 then
          localPath == remaining && highLevelPath == old(highLevelPath) && r == Success(remaining[0])
        else
          var target := if |old(highLevelPath)| > 0 then GetTileFromLink(decode(old(highLevelPath)[0]))
                        else (endTileX, endTileY);
          highLevelPath == (if |old(highLevelPath)| > 0 then old(highLevelPath)[1..] else []) &&
          match search(current, target)
          case None => localPath == [] && r == Failure(NoPath)
          case Some(route) =>
            localPath == route && r == (if |route| > 0 then Success(route[0]) else Failure(EmptyQueue))
    {
      if |localPath| > 0 && localPath[0] == current {
        localPath := localPath[1..];
      }
      if |localPath| == 0 {
        var target: Tile;
        if |highLevelPath| > 0 {
          var link := highLevelPath[0];
          highLevelPath := highLevelPath[1..];
          target := GetTileFromLink(decode(link));
        } else {
          target := (endTileX, endTileY);
        }
        var outcome := search(current, target);
        if outcome.None? {
          return Failure(NoPath);
        }
        localPath := outcome.value;
      }
      if |localPath| == 0 {
        return Failure(EmptyQueue);
      }
      return Success(localPath[0]);
    }

    /**
     * `ReconstructLocalPath` as written: the route is cleared, then the loop
     * runs only while `current` is not a key of `cameFrom`, and its first
     * statement reads `cameFrom[current]`, which throws. No iteration can
     * complete, so the loop is the test of its guard.
     */
    method ReconstructLocalPath(cameFrom: map<Tile, Tile>, endTile: Tile) returns (r: Result<(), PathError>)
      modifies this
      ensures highLevelPath == old(highLevelPath) && localPath == []
      ensures ReconstructAsWritten(cameFrom, endTile) ==
        if r.Success? then Success(localPath) else Failure(r.error)
    {
      localPath := [];
      var current := endTile;
      if current !in cameFrom {
        return Failure(KeyNotFound);
      }
      return Success(());
    }

    /**
     * `ReconstructLocalPath` with the loop guard the search needs: walks back
     * from `endTile` while the current tile has a predecessor, putting each
     * tile in front of the route. `costs` are the search's costs, which rank
     * `cameFrom` so that the walk ends.
     */
    method ReconstructRoute(cameFrom: map<Tile, Tile>, ghost costs: map<Tile, int>, endTile: Tile)
      requires RankedBy(cameFrom, costs)
      modifies this
      ensures highLevelPath == old(highLevelPath)
      ensures localPath == Trail(cameFrom, costs, endTile)
    {
      localPath := [];
      var current := endTile;
      while current in cameFrom
        invariant highLevelPath == old(highLevelPath)
        invariant Trail(cameFrom, costs, current) + localPath == Trail(cameFrom, costs, endTile)
        decreases if current in costs then costs[current] else 0
      {
        localPath := [current] + localPath;
        current := cameFrom[current];
      }
    }

    /**
     * The search's treatment of one neighbour `otherTile` of `currentTile`:
     * skipped outside chunk `(chunkX, chunkY)`; otherwise, when it is new or
     * now reached more cheaply, it gets the cost one above `currentTile`'s and
     * `currentTile` as its predecessor.
     */
    method Relax(currentTile: Tile, otherTile: Tile, chunkX: int, chunkY: int,
                 costs: map<Tile, int>, cameFrom: map<Tile, Tile>)
      returns (costs': map<Tile, int>, cameFrom': map<Tile, Tile>, relaxed: bool)
      requires chunkGrid.chunkSizeX != 0 && chunkGrid.chunkSizeY != 0
      requires currentTile in costs && currentTile != otherTile && RankedBy(cameFrom, costs)
      ensures relaxed <==>
        WithinChunk(chunkX, chunkY, otherTile, chunkGrid.chunkSizeX, chunkGrid.chunkSizeY) &&
        (otherTile !in costs || costs[currentTile] + 1 < costs[otherTile])
      ensures relaxed ==>
        costs' == costs[otherTile := costs[currentTile] + 1] && cameFrom' == cameFrom[otherTile := currentTile]
      ensures !relaxed ==> costs' == costs && cameFrom' == cameFrom
      ensures RankedBy(cameFrom', costs')
    {
      costs', cameFrom', relaxed := costs, cameFrom, false;
      if WithinChunk(chunkX, chunkY, otherTile, chunkGrid.chunkSizeX, chunkGrid.chunkSizeY) {
        var cost := costs[currentTile] + 1;
        if otherTile !in costs || cost < costs[otherTile] {
          RankedAfterRelax(cameFrom, costs, currentTile, otherTile);
          costs' := costs[otherTile := cost];
          cameFrom' := cameFrom[otherTile := currentTile];
          relaxed := true;
        }
      }
    }

    /**
     * One expansion of the local search towards `endTile` (integer costs;
     * priorities left out): each neighbour of `currentTile` inside the chunk
     * of `endTile` that is new, or now reached more cheaply, gets the cost one
     * above the current tile's and `currentTile` as its predecessor, and is
     * queued, in the order left, right, up, down.
     */
    method Expand(currentTile: Tile, endTile: Tile, costs: map<Tile, int>, cameFrom: map<Tile, Tile>)
      returns (costs': map<Tile, int>, cameFrom': map<Tile, Tile>, queued: seq<Tile>)
      requires chunkGrid.chunkSizeX != 0 && chunkGrid.chunkSizeY != 0
      requires currentTile in costs && RankedBy(cameFrom, costs)
      ensures queued == Improving(costs, currentTile, ChunkIndex(endTile, chunkGrid.chunkSizeX, chunkGrid.chunkSizeY),
                                  chunkGrid.chunkSizeX, chunkGrid.chunkSizeY, |AdjacentDirections|)
      ensures forall d :: 0 <= d < |AdjacentDirections| ==>
        (Neighbour(currentTile, d) in queued <==>
         Improves(costs, currentTile, Neighbour(currentTile, d),
                  ChunkIndex(endTile, chunkGrid.chunkSizeX, chunkGrid.chunkSizeY), chunkGrid.chunkSizeX, chunkGrid.chunkSizeY))
      ensures forall t :: t in queued ==>
        Adjacent(currentTile, t) &&
        ChunkIndex(t, chunkGrid.chunkSizeX, chunkGrid.chunkSizeY) == ChunkIndex(endTile, chunkGrid.chunkSizeX, chunkGrid.chunkSizeY)
      ensures Relaxed(costs, cameFrom, costs', cameFrom', queued, currentTile)
      ensures RankedBy(cameFrom', costs')
    {
      var chunk := ChunkIndex(endTile, chunkGrid.chunkSizeX, chunkGrid.chunkSizeY);
      costs', cameFrom', queued := costs, cameFrom, [];
      for d := 0 to |AdjacentDirections|
        invariant currentTile in costs' && costs'[currentTile] == costs[currentTile]
        invariant RankedBy(cameFrom', costs')
        invariant queued == Improving(costs, currentTile, chunk, chunkGrid.chunkSizeX, chunkGrid.chunkSizeY, d)
        invariant Relaxed(costs, cameFrom, costs', cameFrom', queued, currentTile)
      {
        costs', cameFrom', queued := ExpandStep(currentTile, d, chunk, costs, cameFrom, costs', cameFrom', queued);
      }
      ImprovingExactly(costs, currentTile, chunk, chunkGrid.chunkSizeX, chunkGrid.chunkSizeY);
    }

    /** One direction of `Expand`: the neighbour in direction `d` is relaxed and queued when it is worth it. */
    method ExpandStep(currentTile: Tile, d: nat, chunk: (int, int), ghost costs: map<Tile, int>,
                      ghost cameFrom: map<Tile, Tile>, costs': map<Tile, int>, cameFrom': map<Tile, Tile>,
                      queued: seq<Tile>)
      returns (costs'': map<Tile, int>, cameFrom'': map<Tile, Tile>, queued': seq<Tile>)
      requires chunkGrid.chunkSizeX != 0 && chunkGrid.chunkSizeY != 0 && d < |AdjacentDirections|
      requires currentTile in costs && currentTile in costs' && costs'[currentTile] == costs[currentTile]
      requires RankedBy(cameFrom', costs')
      requires queued == Improving(costs, currentTile, chunk, chunkGrid.chunkSizeX, chunkGrid.chunkSizeY, d)
      requires Relaxed(costs, cameFrom, costs', cameFrom', queued, currentTile)
      ensures currentTile in costs'' && costs''[currentTile] == costs[currentTile]
      ensures RankedBy(cameFrom'', costs'')
      ensures queued' == Improving(costs, currentTile, chunk, chunkGrid.chunkSizeX, chunkGrid.chunkSizeY, d + 1)
      ensures Relaxed(costs, cameFrom, costs'', cameFrom'', queued', currentTile)
    {
      var otherTile := Neighbour(currentTile, d);
      ImprovingExcludesLater(costs, currentTile, chunk, chunkGrid.chunkSizeX, chunkGrid.chunkSizeY, d, d);
      var relaxed;
      costs'', cameFrom'', relaxed := Relax(currentTile, otherTile, chunk.0, chunk.1, costs', cameFrom');
      queued' := queued;
      if relaxed {
        RelaxedStep(costs, cameFrom, costs', cameFrom', queued, currentTile, otherTile);
        queued' := queued + [otherTile];
      }
    }
  }
}
