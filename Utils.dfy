/**
 * The 3x3 partition-possibility test used before a tile is blocked.
 *
 * The eight arguments are the neighbours of a centre tile, named row by row
 * (the centre `e` is left out):
 *
 *     a b c
 *     d . f
 *     g h i
 *
 * A flag is set when that neighbour is blocked. Blocking the centre can cut
 * the open tiles around it apart exactly when the blocked neighbours form two
 * or more separate groups under 8-adjacency once the centre is taken away:
 * the new block would join two walls. `Disconnected` states that definition
 * directly; `PartitionsIffDisconnected` proves the hand-reduced formula
 * agrees with it on every input.
 */
module Utils {

  /**
   * The hand-reduced formula: sixteen disjuncts, each with two set and two
   * clear flags, so a true answer needs at least two blocked and at least two
   * open neighbours. It reads nothing but its arguments.
   */
  function Partitions3by3Area(a: bool, b: bool, c: bool, d: bool, f: bool, g: bool, h: bool, i: bool): (r: bool)
    ensures r ==> 2 <= Flagged(Ring(a, b, c, d, f, g, h, i)) <= 6
  {
    (a && !b && c && !h) ||
    (a && !b && !d && f) ||
    (a && !b && !d && h) ||
    (a && !d && g && !h) ||
    (a && !f && !h && i) ||
    (b && !d && !f && h) ||
    (b && !d && g && !h) ||
    (b && !f && !h && i) ||
    (!b && c && d && !f) ||
    (!b && c && !f && h) ||
    (!b && c && g && !h) ||
    (!b && d && f && !h) ||
    (c && !f && !h && i) ||
    (d && !f && !h && i) ||
    (!d && f && g && !h) ||
    (!f && g && !h && i)
  }

  /** The eight neighbour flags as one value. */
  datatype Ring = Ring(a: bool, b: bool, c: bool, d: bool, f: bool, g: bool, h: bool, i: bool)

  /** Number of set flags. */
  function Flagged(r: Ring): nat
  {
    (if r.a then 1 else 0) + (if r.b then 1 else 0) + (if r.c then 1 else 0) + (if r.d then 1 else 0) +
    (if r.f then 1 else 0) + (if r.g then 1 else 0) + (if r.h then 1 else 0) + (if r.i then 1 else 0)
  }

  function Partitions(r: Ring): bool
  {
    Partitions3by3Area(r.a, r.b, r.c, r.d, r.f, r.g, r.h, r.i)
  }

  /** Flag of ring cell `k`, numbering the cells 0..7 in the order a, b, c, d, f, g, h, i. */
  function Cell(r: Ring, k: nat): bool
  {
    if k == 0 then r.a else if k == 1 then r.b else if k == 2 then r.c else if k == 3 then r.d
    else if k == 4 then r.f else if k == 5 then r.g else if k == 6 then r.h else r.i
  }

  /** Grid position of ring cell `k` inside the 3x3 block; the centre (1, 1) is no ring cell. */
  function Column(k: nat): int
  {
    if k == 0 || k == 3 || k == 5 then 0 else if k == 1 || k == 6 then 1 else 2
  }

  function Row(k: nat): int
  {
    if k <= 2 then 0 else if k <= 4 then 1 else 2
  }

  /** Two distinct ring cells touch, orthogonally or diagonally. */
  predicate Adjacent(j: nat, k: nat)
  {
    j != k && -1 <= Column(j) - Column(k) <= 1 && -1 <= Row(j) - Row(k) <= 1
  }

  /** No two touching flagged cells lie on different sides of `side`. */
  ghost predicate NoCrossing(flags: Ring, side: Ring)
  {
    forall j, k :: 0 <= j < 8 && 0 <= k < 8 && Adjacent(j, k) && Cell(flags, j) && Cell(flags, k) ==>
      Cell(side, j) == Cell(side, k)
  }

  /** `side` cuts the flagged cells into two non-empty groups with no touching pair between them. */
  ghost predicate SplitBy(flags: Ring, side: Ring)
  {
    && (exists j :: 0 <= j < 8 && Cell(flags, j) && Cell(side, j))
    && (exists k :: 0 <= k < 8 && Cell(flags, k) && !Cell(side, k))
    && NoCrossing(flags, side)
  }

  /** The reference definition: the flagged cells fall into at least two 8-connected groups. */
  ghost predicate Disconnected(flags: Ring)
  {
    exists side :: SplitBy(flags, side)
  }

  /** A cut leaves the formula true. */
  lemma CutImpliesPartitions(flags: Ring, side: Ring)
    requires SplitBy(flags, side)
    ensures Partitions(flags)
  {
    var Ring(a, b, c, d, f, g, h, i) := flags;
    var Ring(sa, sb, sc, sd, sf, sg, sh, si) := side;
    assert a && b ==> sa == sb by { assert Adjacent(0, 1); }
    assert a && d ==> sa == sd by { assert Adjacent(0, 3); }
    assert b && c ==> sb == sc by { assert Adjacent(1, 2); }
    assert b && d ==> sb == sd by { assert Adjacent(1, 3); }
    assert b && f ==> sb == sf by { assert Adjacent(1, 4); }
    assert c && f ==> sc == sf by { assert Adjacent(2, 4); }
    assert d && g ==> sd == sg by { assert Adjacent(3, 5); }
    assert d && h ==> sd == sh by { assert Adjacent(3, 6); }
    assert f && h ==> sf == sh by { assert Adjacent(4, 6); }
    assert f && i ==> sf == si by { assert Adjacent(4, 7); }
    assert g && h ==> sg == sh by { assert Adjacent(5, 6); }
    assert h && i ==> sh == si by { assert Adjacent(6, 7); }
  }

  // The sides used as witnesses below: the group that holds the first set
  // flag of a disjunct, closed off by that disjunct's two clear flags.
  const OnlyA := Ring(true, false, false, false, false, false, false, false)
  const OnlyC := Ring(false, false, true, false, false, false, false, false)
  const TopRow := Ring(true, true, true, false, false, false, false, false)
  const LeftColumn := Ring(true, false, false, true, false, true, false, false)
  const RightColumn := Ring(false, false, true, false, true, false, false, true)
  const TopRight := Ring(true, true, true, false, true, false, false, true)
  const TopLeft := Ring(true, true, true, true, false, true, false, false)

  lemma CutOnlyA(flags: Ring)
    requires !flags.b && !flags.d
    ensures NoCrossing(flags, OnlyA)
  {
  }

  lemma CutOnlyC(flags: Ring)
    requires !flags.b && !flags.f
    ensures NoCrossing(flags, OnlyC)
  {
  }

  lemma CutTopRow(flags: Ring)
    requires !flags.d && !flags.f
    ensures NoCrossing(flags, TopRow)
  {
  }

  lemma CutLeftColumn(flags: Ring)
    requires !flags.b && !flags.h
    ensures NoCrossing(flags, LeftColumn)
  {
  }

  lemma CutRightColumn(flags: Ring)
    requires !flags.b && !flags.h
    ensures NoCrossing(flags, RightColumn)
  {
  }

  lemma CutTopRight(flags: Ring)
    requires !flags.d && !flags.h
    ensures NoCrossing(flags, TopRight)
  {
  }

  lemma CutTopLeft(flags: Ring)
    requires !flags.f && !flags.h
    ensures NoCrossing(flags, TopLeft)
  {
  }

  lemma CutWitness(flags: Ring, side: Ring, j: nat, k: nat)
    requires j < 8 && Cell(flags, j) && Cell(side, j)
    requires k < 8 && Cell(flags, k) && !Cell(side, k)
    requires NoCrossing(flags, side)
    ensures Disconnected(flags)
  {
    assert SplitBy(flags, side);
  }

  /** Every disjunct of the formula names two flagged cells that a cut separates. */
  lemma PartitionsImpliesCut(flags: Ring)
    requires Partitions(flags)
    ensures Disconnected(flags)
  {
    var Ring(a, b, c, d, f, g, h, i) := flags;
    if a && !b && c && !h { CutLeftColumn(flags); CutWitness(flags, LeftColumn, 0, 2); }
    else if a && !b && !d && f { CutOnlyA(flags); CutWitness(flags, OnlyA, 0, 4); }
    else if a && !b && !d && h { CutOnlyA(flags); CutWitness(flags, OnlyA, 0, 6); }
    else if a && !d && g && !h { CutTopRight(flags); CutWitness(flags, TopRight, 0, 5); }
    else if a && !f && !h && i { CutTopLeft(flags); CutWitness(flags, TopLeft, 0, 7); }
    else if b && !d && !f && h { CutTopRow(flags); CutWitness(flags, TopRow, 1, 6); }
    else if b && !d && g && !h { CutTopRight(flags); CutWitness(flags, TopRight, 1, 5); }
    else if b && !f && !h && i { CutTopLeft(flags); CutWitness(flags, TopLeft, 1, 7); }
    else if !b && c && d && !f { CutOnlyC(flags); CutWitness(flags, OnlyC, 2, 3); }
    else if !b && c && !f && h { CutOnlyC(flags); CutWitness(flags, OnlyC, 2, 6); }
    else if !b && c && g && !h { CutRightColumn(flags); CutWitness(flags, RightColumn, 2, 5); }
    else if !b && d && f && !h { CutLeftColumn(flags); CutWitness(flags, LeftColumn, 3, 4); }
    else if c && !f && !h && i { CutTopLeft(flags); CutWitness(flags, TopLeft, 2, 7); }
    else if d && !f && !h && i { CutTopLeft(flags); CutWitness(flags, TopLeft, 3, 7); }
    else if !d && f && g && !h { CutTopRight(flags); CutWitness(flags, TopRight, 4, 5); }
    else { CutTopLeft(flags); CutWitness(flags, TopLeft, 5, 7); }
  }

  /** The formula is exactly the reference definition, on all 256 inputs. */
  lemma PartitionsIffDisconnected(flags: Ring)
    ensures Partitions(flags) <==> Disconnected(flags)
  {
    if Partitions(flags) {
      PartitionsImpliesCut(flags);
    }
    if Disconnected(flags) {
      var side :| SplitBy(flags, side);
      CutImpliesPartitions(flags, side);
    }
  }

  /** Top and bottom blocked, left and right open: a vertical wall, whatever the corners. */
  lemma VerticalWall(a: bool, c: bool, g: bool, i: bool)
    ensures Partitions3by3Area(a, true, c, false, false, g, true, i)
  {
  }

  /** Left and right blocked, top and bottom open: a horizontal wall, whatever the corners. */
  lemma HorizontalWall(a: bool, c: bool, g: bool, i: bool)
    ensures Partitions3by3Area(a, false, c, true, true, g, false, i)
  {
  }

  /** Sum of a count over both values of one flag. */
  function Both(count: bool -> nat): nat
  {
    count(false) + count(true)
  }

  /** Number of inputs with the first three flags fixed that make the formula true. */
  function TrueCasesWith(a: bool, b: bool, c: bool): nat
  {
    Both(d => Both(f => Both(g => Both(h => Both(i =>
      if Partitions3by3Area(a, b, c, d, f, g, h, i) then 1 else 0)))))
  }

  /** Number of the 256 inputs that make the formula true. */
  function TrueCases(): nat
  {
    Both(a => Both(b => Both(c => TrueCasesWith(a, b, c))))
  }

  // The eight counts below, one per value of (a, b, c), are each checked by
  // evaluating the formula on the 32 inputs they cover.

  lemma TrueCases000()
    ensures TrueCasesWith(false, false, false) == 9
  {
  }

  lemma TrueCases001()
    ensures TrueCasesWith(false, false, true) == 21
  {
  }

  lemma TrueCases010()
    ensures TrueCasesWith(false, true, false) == 11
  {
  }

  lemma TrueCases011()
    ensures TrueCasesWith(false, true, true) == 11
  {
  }

  lemma TrueCases100()
    ensures TrueCasesWith(true, false, false) == 21
  {
  }

  lemma TrueCases101()
    ensures TrueCasesWith(true, false, true) == 28
  {
  }

  lemma TrueCases110()
    ensures TrueCasesWith(true, true, false) == 11
  {
  }

  lemma TrueCases111()
    ensures TrueCasesWith(true, true, true) == 11
  {
  }

  /** 123 of the 256 inputs make the formula true. */
  lemma TrueCasesIs123()
    ensures TrueCases() == 123
  {
    TrueCases000();
    TrueCases001();
    TrueCases010();
    TrueCases011();
    TrueCases100();
    TrueCases101();
    TrueCases110();
    TrueCases111();
  }
}
