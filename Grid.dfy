/**
 * The chunk grid: a tile map cut into equal rectangular chunks. Building it
 * checks that the chunk size divides the map size, counts the chunks along
 * each axis and stores one chunk record per (column, row) in a 2-D array.
 */
module Grid {
  import opened Wrappers
  import opened Division
  import opened Rooms

  /** A chunk as the grid sees it: its top-left tile and its extent. */
  datatype Chunk = Chunk(topLeftX: int, topLeftY: int, width: int, height: int)

  /** The exceptions the constructor can throw. */
  datatype GridError =
    | DivideByZero     // a chunk size of 0 in `%`
    | NotDivisible     // the map size is not a multiple of the chunk size
    | NegativeLength   // a 2-D array allocated with a negative length
    | IndexOutOfRange  // a store outside the allocated array

  /** The tile `(tx, ty)` lies inside chunk `c`. */
  predicate Contains(c: Chunk, tx: int, ty: int)
  {
    c.topLeftX <= tx < c.topLeftX + c.width && c.topLeftY <= ty < c.topLeftY + c.height
  }

  /** The chunk the constructor stores at index `(x, y)`. */
  function ChunkAt(x: int, y: int, chunkSizeX: int, chunkSizeY: int): Chunk
  {
    Chunk(x * chunkSizeX, y * chunkSizeY, chunkSizeX, chunkSizeY)
  }

  /**
   * The divisibility check and the chunk counts. The width is tested first
   * and `||` stops at the first failing test, so a zero `chunkSizeY` goes
   * unnoticed when the width test already fails.
   */
  function ChunkCounts(width: int, height: int, chunkSizeX: int, chunkSizeY: int): (r: Result<(int, int), GridError>)
    ensures r.Success? <==>
      chunkSizeX != 0 && chunkSizeY != 0 &&
      TruncRem(width, chunkSizeX) == 0 && TruncRem(height, chunkSizeY) == 0
    ensures r.Success? ==>
      r.value.0 * chunkSizeX == width && r.value.1 * chunkSizeY == height
    ensures r.Failure? && r.error == DivideByZero ==>
      chunkSizeX == 0 || chunkSizeY == 0
    ensures r.Failure? && r.error == NotDivisible ==>
      (chunkSizeX != 0 && TruncRem(width, chunkSizeX) != 0) ||
      (chunkSizeY != 0 && TruncRem(height, chunkSizeY) != 0)
    ensures r.Failure? ==> r.error == DivideByZero || r.error == NotDivisible
  {
    if chunkSizeX == 0 then Failure(DivideByZero)
    else if TruncRem(width, chunkSizeX) != 0 then Failure(NotDivisible)
    else if chunkSizeY == 0 then Failure(DivideByZero)
    else if TruncRem(height, chunkSizeY) != 0 then Failure(NotDivisible)
    else
      DivisionIdentity(width, chunkSizeX);
      DivisionIdentity(height, chunkSizeY);
      Success((TruncDiv(width, chunkSizeX), TruncDiv(height, chunkSizeY)))
  }

  /**
   * What the constructor as written ends in: the array is allocated with the
   * chunk SIZE as its lengths, and the fill loop stores at every index below
   * the chunk COUNTS. Where it succeeds on a map of non-negative size it agrees
   * with the corrected constructor, and it throws the same divisibility errors.
   */
  function BuildAsWritten(width: int, height: int, chunkSizeX: int, chunkSizeY: int): (r: Result<(int, int), GridError>)
    ensures r.Success? ==> FillFits(r.value.0, r.value.1, chunkSizeX, chunkSizeY)
    ensures r.Success? && width >= 0 && height >= 0 ==> Build(width, height, chunkSizeX, chunkSizeY) == r
    ensures r.Failure? && (r.error == DivideByZero || r.error == NotDivisible) ==> Build(width, height, chunkSizeX, chunkSizeY) == r
  {
    match ChunkCounts(width, height, chunkSizeX, chunkSizeY)
    case Failure(e) => Failure(e)
    case Success((xChunks, yChunks)) =>
      if chunkSizeX < 0 || chunkSizeY < 0 then Failure(NegativeLength)
      else if !FillFits(xChunks, yChunks, chunkSizeX, chunkSizeY) then Failure(IndexOutOfRange)
      else Success((xChunks, yChunks))
  }

  /**
   * What the constructor ends in once the array is allocated with the chunk
   * counts as its lengths: the counts tile the map exactly, and no store is
   * out of range.
   */
  function Build(width: int, height: int, chunkSizeX: int, chunkSizeY: int): (r: Result<(int, int), GridError>)
    ensures r.Success? ==> r.value.0 >= 0 && r.value.1 >= 0
    ensures r.Success? ==> r.value.0 * chunkSizeX == width && r.value.1 * chunkSizeY == height
    ensures r.Failure? ==> r.error != IndexOutOfRange
  {
    match ChunkCounts(width, height, chunkSizeX, chunkSizeY)
    case Failure(e) => Failure(e)
    case Success((xChunks, yChunks)) =>
      if xChunks < 0 || yChunks < 0 then Failure(NegativeLength)
      else Success((xChunks, yChunks))
  }

  /** Every index the fill loop visits lies inside an array of lengths `length0` by `length1`. */
  predicate FillFits(xChunks: int, yChunks: int, length0: int, length1: int)
  {
    xChunks <= 0 || yChunks <= 0 || (xChunks <= length0 && yChunks <= length1)
  }

  /**
   * The as-written constructor throws on a map of more chunks per axis than
   * a chunk has tiles per axis: a 64-by-64 map in 4-by-4 chunks has 16
   * chunks per axis and an array of 4 by 4.
   */
  lemma AsWrittenRejectsLargeMap()
    ensures BuildAsWritten(64, 64, 4, 4) == Failure(IndexOutOfRange)
    ensures Build(64, 64, 4, 4) == Success((16, 16))
  {
  }

  /**
   * For positive chunk sizes and a divisible, non-empty map, the as-written
   * constructor succeeds exactly when no axis has more chunks than a chunk
   * has tiles along it; the corrected one always succeeds.
   */
  lemma AsWrittenNeedsFewChunks(width: int, height: int, chunkSizeX: int, chunkSizeY: int)
    requires width > 0 && height > 0 && chunkSizeX > 0 && chunkSizeY > 0
    requires width % chunkSizeX == 0 && height % chunkSizeY == 0
    ensures Build(width, height, chunkSizeX, chunkSizeY) == Success((width / chunkSizeX, height / chunkSizeY))
    ensures BuildAsWritten(width, height, chunkSizeX, chunkSizeY).Success? <==>
      width / chunkSizeX <= chunkSizeX && height / chunkSizeY <= chunkSizeY
  {
  }

  /** On a non-negative divisible map, every tile lies in the chunk whose index is its coordinates divided by the chunk size. */
  lemma TileInItsChunk(width: int, height: int, chunkSizeX: int, chunkSizeY: int, tx: int, ty: int)
    requires chunkSizeX > 0 && chunkSizeY > 0 && width % chunkSizeX == 0 && height % chunkSizeY == 0
    requires 0 <= tx < width && 0 <= ty < height
    ensures 0 <= tx / chunkSizeX < width / chunkSizeX && 0 <= ty / chunkSizeY < height / chunkSizeY
    ensures Contains(ChunkAt(tx / chunkSizeX, ty / chunkSizeY, chunkSizeX, chunkSizeY), tx, ty)
  {
  }

  /** Two chunks of the grid that share a tile are the same chunk: the chunks do not overlap. */
  lemma ChunksDisjoint(chunkSizeX: int, chunkSizeY: int, x: int, y: int, x': int, y': int, tx: int, ty: int)
    requires chunkSizeX > 0 && chunkSizeY > 0
    requires Contains(ChunkAt(x, y, chunkSizeX, chunkSizeY), tx, ty)
    requires Contains(ChunkAt(x', y', chunkSizeX, chunkSizeY), tx, ty)
    ensures x == x' && y == y'
  {
    AxisUnique(chunkSizeX, x, x', tx);
    AxisUnique(chunkSizeY, y, y', ty);
  }

  lemma AxisUnique(size: int, i: int, j: int, t: int)
    requires size > 0
    requires i * size <= t < i * size + size && j * size <= t < j * size + size
    ensures i == j
  {
    if i < j {
      MultiplyMonotonic(i + 1, j, size);
    } else if j < i {
      MultiplyMonotonic(j + 1, i, size);
    }
  }

  lemma MultiplyMonotonic(a: int, b: int, size: int)
    requires a <= b && size > 0
    ensures a * size <= b * size
  {
  }

  /** Every chunk of the grid lies inside the map: no chunk reaches past its edges. */
  lemma ChunkInsideMap(width: int, height: int, chunkSizeX: int, chunkSizeY: int, x: int, y: int, tx: int, ty: int)
    requires chunkSizeX > 0 && chunkSizeY > 0 && width % chunkSizeX == 0 && height % chunkSizeY == 0
    requires 0 <= x < width / chunkSizeX && 0 <= y < height / chunkSizeY
    requires Contains(ChunkAt(x, y, chunkSizeX, chunkSizeY), tx, ty)
    ensures 0 <= tx < width && 0 <= ty < height
  {
    AxisInside(width, chunkSizeX, x);
    AxisInside(height, chunkSizeY, y);
  }

  lemma AxisInside(length: int, size: int, i: int)
    requires size > 0 && length % size == 0 && 0 <= i < length / size
    ensures 0 <= i * size && i * size + size <= length
  {
    assert length == (length / size) * size;
    assert (i + 1) * size <= (length / size) * size;
  }

  /**
   * The nested fill loops of the constructor over an allocated array. An
   * index outside the array throws, as a C# array store does; the loops stop
   * there.
   */
  method Fill(chunks: array2<Option<Chunk>>, xChunks: int, yChunks: int, chunkSizeX: int, chunkSizeY: int)
    returns (r: Result<(), GridError>)
    modifies chunks
    ensures r.Success? <==> FillFits(xChunks, yChunks, chunks.Length0, chunks.Length1)
    ensures r.Failure? ==> r.error == IndexOutOfRange
    ensures r.Success? ==> forall x, y :: 0 <= x < chunks.Length0 && 0 <= y < chunks.Length1 ==>
      chunks[x, y] == if x < xChunks && y < yChunks then Some(ChunkAt(x, y, chunkSizeX, chunkSizeY))
                      else old(chunks[x, y])
  {
    var x := 0;
    while x < xChunks
      invariant 0 <= x && (x <= xChunks || x == 0)
      invariant x > 0 && yChunks > 0 ==> x <= chunks.Length0 && yChunks <= chunks.Length1
      invariant forall i, j :: 0 <= i < chunks.Length0 && 0 <= j < chunks.Length1 ==>
        chunks[i, j] == if i < x && j < yChunks then Some(ChunkAt(i, j, chunkSizeX, chunkSizeY))
                        else old(chunks[i, j])
    {
      var y := 0;
      while y < yChunks
        invariant 0 <= y && (y <= yChunks || y == 0)
        invariant y > 0 ==> x < chunks.Length0 && y <= chunks.Length1
        invariant forall i, j :: 0 <= i < chunks.Length0 && 0 <= j < chunks.Length1 ==>
          chunks[i, j] == if (i < x && j < yChunks) || (i == x && j < y) then Some(ChunkAt(i, j, chunkSizeX, chunkSizeY))
                          else old(chunks[i, j])
      {
        if x >= chunks.Length0 || y >= chunks.Length1 {
          return Failure(IndexOutOfRange);
        }
        chunks[x, y] := Some(ChunkAt(x, y, chunkSizeX, chunkSizeY));
        y := y + 1;
      }
      x := x + 1;
    }
    return Success(());
  }

  class ChunkGrid {
    const chunkSizeX: int
    const chunkSizeY: int
    const xChunks: int
    const yChunks: int
    const chunks: array2<Option<Chunk>>

    /** Index `(x, y)` of the array holds the chunk whose top-left tile is `(x * chunkSizeX, y * chunkSizeY)`, for every index below the counts. */
    ghost predicate Filled()
      reads chunks
    {
      chunks.Length0 == xChunks && chunks.Length1 == yChunks &&
      forall x, y :: 0 <= x < xChunks && 0 <= y < yChunks ==>
        chunks[x, y] == Some(ChunkAt(x, y, chunkSizeX, chunkSizeY))
    }

    /**
     * The constructor over a tile map of `width` by `height` tiles, with the
     * array allocated by chunk count. It is reached only when `Build` succeeds;
     * `Create` holds the checks that throw.
     */
    constructor (width: int, height: int, chunkSizeX: int, chunkSizeY: int)
      requires Build(width, height, chunkSizeX, chunkSizeY).Success?
      ensures this.chunkSizeX == chunkSizeX && this.chunkSizeY == chunkSizeY
      ensures (xChunks, yChunks) == Build(width, height, chunkSizeX, chunkSizeY).value
      ensures fresh(chunks) && Filled()
    {
      var counts := ChunkCounts(width, height, chunkSizeX, chunkSizeY).value;
      this.chunkSizeX := chunkSizeX;
      this.chunkSizeY := chunkSizeY;
      xChunks := counts.0;
      yChunks := counts.1;
      var a := new Option<Chunk>[counts.0, counts.1]((x, y) => None);
      var r := Fill(a, counts.0, counts.1, chunkSizeX, chunkSizeY);
      chunks := a;
    }

    /** The room at tile `(x, y)`: for now a brand-new, empty room, whatever the tile. */
    method GetRoomAt(x: int, y: int, roomId: int) returns (room: Room)
      ensures fresh(room) && room.size == 0 && room.id == roomId
    {
      room := new Room(roomId);
    }
  }

  /** Builds the grid, or reports the exception the constructor throws. */
  method Create(width: int, height: int, chunkSizeX: int, chunkSizeY: int) returns (r: Result<ChunkGrid, GridError>)
    ensures r.Success? <==> Build(width, height, chunkSizeX, chunkSizeY).Success?
    ensures r.Failure? ==> r.error == Build(width, height, chunkSizeX, chunkSizeY).error
    ensures r.Success? ==>
      fresh(r.value.chunks) && r.value.Filled() &&
      (r.value.xChunks, r.value.yChunks) == Build(width, height, chunkSizeX, chunkSizeY).value
  {
    var outcome := Build(width, height, chunkSizeX, chunkSizeY);
    if outcome.Failure? {
      return Failure(outcome.error);
    }
    var grid := new ChunkGrid(width, height, chunkSizeX, chunkSizeY);
    return Success(grid);
  }

  /**
   * The constructor as written: the array allocated `chunkSizeX` by
   * `chunkSizeY`, then filled by chunk count. Yields the array it builds.
   */
  method CreateAsWritten(width: int, height: int, chunkSizeX: int, chunkSizeY: int)
    returns (r: Result<array2<Option<Chunk>>, GridError>)
    ensures r.Success? <==> BuildAsWritten(width, height, chunkSizeX, chunkSizeY).Success?
    ensures r.Failure? ==> r.error == BuildAsWritten(width, height, chunkSizeX, chunkSizeY).error
    ensures r.Success? ==>
      fresh(r.value) && r.value.Length0 == chunkSizeX && r.value.Length1 == chunkSizeY
    ensures r.Success? ==> forall x, y :: 0 <= x < chunkSizeX && 0 <= y < chunkSizeY ==>
      r.value[x, y] ==
        if x < BuildAsWritten(width, height, chunkSizeX, chunkSizeY).value.0 &&
           y < BuildAsWritten(width, height, chunkSizeX, chunkSizeY).value.1
        then Some(ChunkAt(x, y, chunkSizeX, chunkSizeY)) else None
  {
    var counts := ChunkCounts(width, height, chunkSizeX, chunkSizeY);
    if counts.Failure? {
      return Failure(counts.error);
    }
    if chunkSizeX < 0 || chunkSizeY < 0 {
      return Failure(NegativeLength);
    }
    var a := new Option<Chunk>[chunkSizeX, chunkSizeY]((x, y) => None);
    var filled := Fill(a, counts.value.0, counts.value.1, chunkSizeX, chunkSizeY);
    if filled.Failure? {
      return Failure(filled.error);
    }
    return Success(a);
  }
}
