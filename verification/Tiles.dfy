/** Cutting a tensor into tiles and putting it together again. */
module Tiles {
  import opened IndexIterator

  type Array = seq<nat> -> real

  // ---- one axis -------------------------------------------------------------------------------

  function Total(sizes: seq<nat>): nat { if |sizes| == 0 then 0 else sizes[0] + Total(sizes[1..]) }

  /** Where the i-th block of an axis starts. */
  function Offset(sizes: seq<nat>, i: nat): nat
    requires i <= |sizes|
  {
    if i == 0 then 0 else sizes[0] + Offset(sizes[1..], i - 1)
  }

  predicate Inside(sizes: seq<nat>, i: nat, x: nat)
    requires i < |sizes|
  {
    Offset(sizes, i) <= x < Offset(sizes, i) + sizes[i]
  }

  /** The block an index falls into. */
  function Block(sizes: seq<nat>, x: nat): (i: nat)
    requires x < Total(sizes)
    ensures i < |sizes|
  {
    if x < sizes[0] then 0 else 1 + Block(sizes[1..], x - sizes[0])
  }

  /** Blocks of any sizes, empty ones included, are disjoint and cover their axis. */
  lemma {:induction false} BlocksPartition(sizes: seq<nat>, i: nat, x: nat)
    requires i < |sizes|
    ensures Inside(sizes, i, x) <==> x < Total(sizes) && i == Block(sizes, x)
    decreases |sizes|
  {
    if i == 0 {
      assert Offset(sizes, 0) == 0;
    } else {
      if x >= sizes[0] {
        BlocksPartition(sizes[1..], i - 1, x - sizes[0]);
      }
      assert Offset(sizes, i) == sizes[0] + Offset(sizes[1..], i - 1);
    }
  }

  // ---- all axes -------------------------------------------------------------------------------

  /** Block sizes for every axis. */
  type Grid = seq<seq<nat>>

  function Shape(grid: Grid): seq<nat> { seq(|grid|, ax requires 0 <= ax < |grid| => Total(grid[ax])) }

  /** The number of blocks on every axis. */
  function Counts(grid: Grid): seq<nat> { seq(|grid|, ax requires 0 <= ax < |grid| => |grid[ax]|) }

  predicate InTile(grid: Grid, coord: seq<nat>, idx: seq<nat>)
    requires InRange(Counts(grid), coord)
  {
    |idx| == |grid| &&
    forall ax | 0 <= ax < |grid| :: coord[ax] < Counts(grid)[ax] && Inside(grid[ax], coord[ax], idx[ax])
  }

  /** The tile an index falls into. */
  function Owner(grid: Grid, idx: seq<nat>): (coord: seq<nat>)
    requires InRange(Shape(grid), idx)
    ensures InRange(Counts(grid), coord)
  {
    seq(|grid|, ax requires 0 <= ax < |grid| => assert idx[ax] < Shape(grid)[ax]; Block(grid[ax], idx[ax]))
  }

  /** Tiles are disjoint and cover the tensor: each index lies in its owner and in no other tile. */
  lemma TilesPartition(grid: Grid, coord: seq<nat>, idx: seq<nat>)
    requires InRange(Counts(grid), coord) && |idx| == |grid|
    ensures InTile(grid, coord, idx) <==> InRange(Shape(grid), idx) && coord == Owner(grid, idx)
  {
    forall ax | 0 <= ax < |grid|
      ensures coord[ax] < |grid[ax]|
      ensures Inside(grid[ax], coord[ax], idx[ax]) <==>
                idx[ax] < Shape(grid)[ax] && coord[ax] == Block(grid[ax], idx[ax])
    {
      assert coord[ax] < Counts(grid)[ax];
      BlocksPartition(grid[ax], coord[ax], idx[ax]);
    }
    if InTile(grid, coord, idx) {
      assert forall ax | 0 <= ax < |grid| :: Inside(grid[ax], coord[ax], idx[ax]);
      assert InRange(Shape(grid), idx);
      assert coord == Owner(grid, idx);
    } else if InRange(Shape(grid), idx) {
      var ax :| 0 <= ax < |grid| && !Inside(grid[ax], coord[ax], idx[ax]);
      assert coord[ax] != Owner(grid, idx)[ax];
    }
  }

  /** An index within its tile, and back. */
  function Local(grid: Grid, coord: seq<nat>, idx: seq<nat>): seq<nat>
    requires InRange(Counts(grid), coord) && InTile(grid, coord, idx)
  {
    seq(|grid|, ax requires 0 <= ax < |grid| => assert coord[ax] < Counts(grid)[ax]; idx[ax] - Offset(grid[ax],
                                                                                                      coord[ax]))
  }

  function Global(grid: Grid, coord: seq<nat>, loc: seq<nat>): seq<nat>
    requires InRange(Counts(grid), coord) && |loc| == |grid|
  {
    seq(|grid|, ax requires 0 <= ax < |grid| => assert coord[ax] < Counts(grid)[ax]; loc[ax]
          + Offset(grid[ax], coord[ax]))
  }

  lemma GlobalOfLocal(grid: Grid, coord: seq<nat>, idx: seq<nat>)
    requires InRange(Counts(grid), coord) && InTile(grid, coord, idx)
    ensures Global(grid, coord, Local(grid, coord, idx)) == idx
  {
  }

  /** The region of an array that a tile holds. */
  function Cut(arr: Array, grid: Grid, coord: seq<nat>): Array
    requires InRange(Counts(grid), coord)
  {
    (loc: seq<nat>) => if |loc| == |grid| then arr(Global(grid, coord, loc)) else 0.0
  }

  /** An array with a tile written over its region. */
  function Pasted(arr: Array, grid: Grid, coord: seq<nat>, tile: Array): Array
    requires InRange(Counts(grid), coord)
  {
    (idx: seq<nat>) => if InTile(grid, coord, idx) then tile(Local(grid, coord, idx)) else arr(idx)
  }

  function Zero(): Array { (idx: seq<nat>) => 0.0 }

  class Tiled {
    const grid: Grid
    var tiles: map<seq<nat>, Array>

    constructor (grid: Grid)
      ensures this.grid == grid && tiles == map[]
    {
      this.grid, tiles := grid, map[];
    }

    ghost predicate Valid()
      reads this
    {
      forall coord | coord in tiles :: InRange(Counts(grid), coord)
    }

    /** What a dense copy of this tensor holds at an index: zero where no tile was stored. */
    ghost function At(idx: seq<nat>): real
      requires InRange(Shape(grid), idx)
      reads this
    {
      TilesPartition(grid, Owner(grid, idx), idx);
      if Owner(grid, idx) in tiles then tiles[Owner(grid, idx)](Local(grid, Owner(grid, idx), idx)) else 0.0
    }

    /** Every tile, zero-filled. */
    method AddTiles()
      modifies this
      ensures tiles.Keys == set k | 0 <= k < Size(Counts(grid)) :: All(Counts(grid))[k]
      ensures Valid() && forall coord | coord in tiles :: tiles[coord] == Zero()
    {
      tiles := map[];
      var coords := All(Counts(grid));
      for k := 0 to |coords|
        invariant tiles.Keys == set j | 0 <= j < k :: coords[j]
        invariant forall coord | coord in tiles :: tiles[coord] == Zero()
      {
        tiles := tiles[coords[k] := Zero()];
      }
      ProductInRange(Counts(grid));
    }

    /** A tiled tensor with the contents of an array. */
    constructor Make(grid: Grid, arr: Array)
      ensures this.grid == grid && Valid()
      ensures forall coord | InRange(Counts(grid), coord) :: coord in tiles && tiles[coord] == Cut(arr, grid, coord)
    {
      this.grid, tiles := grid, map[];
      new;
      AddTiles();
      Fill(arr);
    }

    /** Writes every tile's region of an array into the tile. */
    method Fill(arr: Array)
      requires Valid()
      modifies this
      ensures Valid()
      ensures forall coord | InRange(Counts(grid), coord) :: coord in tiles && tiles[coord] == Cut(arr, grid, coord)
    {
      hide InRange, All, Cut;
      var coords := All(Counts(grid));
      ProductInRange(Counts(grid));
      for k := 0 to |coords|
        invariant Valid()
        invariant forall j | 0 <= j < k :: coords[j] in tiles && tiles[coords[j]] == Cut(arr, grid, coords[j])
      {
        tiles := tiles[coords[k] := Cut(arr, grid, coords[k])];
      }
      forall coord | InRange(Counts(grid), coord)
        ensures coord in tiles && tiles[coord] == Cut(arr, grid, coord)
      {
        ProductIsComplete(Counts(grid), coord);
      }
    }

    /** A dense copy: each index comes from its owner, or is zero when that tile is missing. */
    method Gather() returns (dense: Array)
      requires Valid()
      ensures forall idx | InRange(Shape(grid), idx) :: dense(idx) == At(idx)
    {
      dense := Zero();
      var coords := All(Counts(grid));
      ProductInRange(Counts(grid));
      for k := 0 to |coords|
        invariant forall idx | InRange(Shape(grid), idx) ::
                    dense(idx) == if Owner(grid, idx) in coords[..k] then At(idx) else 0.0
      {
        if coords[k] in tiles {
          var tile := tiles[coords[k]];
          ghost var before := dense;
          dense := Pasted(dense, grid, coords[k], tile);
          forall idx | InRange(Shape(grid), idx)
            ensures dense(idx) == if Owner(grid, idx) in coords[..k + 1] then At(idx) else 0.0
          {
            TilesPartition(grid, coords[k], idx);
          }
        }
      }
      forall idx | InRange(Shape(grid), idx)
        ensures dense(idx) == At(idx)
      {
        ProductIsComplete(Counts(grid), Owner(grid, idx));
      }
    }
  }

  /** The Cartesian product of the block ranges holds exactly the coordinates in range. */
  lemma ProductInRange(counts: seq<nat>)
    ensures forall k | 0 <= k < Size(counts) :: InRange(counts, All(counts)[k])
  {
    forall k | 0 <= k < Size(counts)
      ensures InRange(counts, All(counts)[k])
    {
      DigitsInRange(counts, k);
    }
  }

  lemma ProductIsComplete(counts: seq<nat>, coord: seq<nat>)
    requires InRange(counts, coord)
    ensures exists k | 0 <= k < Size(counts) :: All(counts)[k] == coord
  {
    IndexAtItsPosition(counts, coord);
    var k := StrideSum(Strides(counts), coord);
    assert All(counts)[k] == coord;
  }

  /** The axis of a dimension is recognised by its length; a length that both spaces share counts as occupied. */
  function GridFor(shape: seq<nat>, occupied: seq<nat>, virt: seq<nat>): Grid {
    seq(|shape|, ax requires 0 <= ax < |shape| => if shape[ax] == Total(occupied) then occupied else virt)
  }

  /** Scattering an array whose axes are all occupied or virtual, then gathering it, gives the array back. */
  method ScatterAndGather(shape: seq<nat>, arr: Array, occupied: seq<nat>, virt: seq<nat>) returns (dense: Array)
    requires forall ax | 0 <= ax < |shape| :: shape[ax] == Total(occupied) || shape[ax] == Total(virt)
    ensures forall idx | InRange(shape, idx) :: dense(idx) == arr(idx)
  {
    var grid := GridFor(shape, occupied, virt);
    var t := new Tiled.Make(grid, arr);
    dense := t.Gather();
    assert Shape(grid) == shape;
    forall idx | InRange(shape, idx)
      ensures t.At(idx) == arr(idx)
    {
      var coord := Owner(grid, idx);
      TilesPartition(grid, coord, idx);
      GlobalOfLocal(grid, coord, idx);
    }
  }

  // ---- where a tile lies ----------------------------------------------------------------------

  /** A block starts where the sizes of the blocks before it end. */
  lemma {:induction false} OffsetIs(sizes: seq<nat>, i: nat)
    requires i <= |sizes|
    ensures Offset(sizes, i) == Total(sizes[..i])
    decreases i
  {
    if i > 0 {
      OffsetIs(sizes[1..], i - 1);
      assert sizes[..i][1..] == sizes[1..][..i - 1];
    }
  }

  /** The index of a tile's element in the whole tensor: on every axis, the sizes of the blocks before its own, and then
      its place. */
  ghost predicate Places(grid: Grid, coord: seq<nat>, loc: seq<nat>, idx: seq<nat>)
    requires InRange(Counts(grid), coord)
  {
    && |loc| == |grid| == |idx|
    && forall ax | 0 <= ax < |grid| ::
         assert coord[ax] < Counts(grid)[ax]; idx[ax] == Total(grid[ax][..coord[ax]]) + loc[ax]
  }

  /** A tile's element is the array's element at the tile's offset plus its place. */
  lemma CutIs(arr: Array, grid: Grid, coord: seq<nat>, loc: seq<nat>, idx: seq<nat>)
    requires InRange(Counts(grid), coord) && Places(grid, coord, loc, idx)
    ensures Cut(arr, grid, coord)(loc) == arr(idx)
  {
    GlobalIs(grid, coord, loc, idx);
  }

  lemma GlobalIs(grid: Grid, coord: seq<nat>, loc: seq<nat>, idx: seq<nat>)
    requires InRange(Counts(grid), coord) && Places(grid, coord, loc, idx)
    ensures Global(grid, coord, loc) == idx
  {
    forall ax | 0 <= ax < |grid|
      ensures Global(grid, coord, loc)[ax] == idx[ax]
    {
      assert coord[ax] < Counts(grid)[ax];
      OffsetIs(grid[ax], coord[ax]);
    }
  }

  /** What is pasted stands there: the element at the tile's offset plus a place is the tile's element at that place, as
      long as the place lies in the tile. */
  lemma PastedIs(arr: Array, grid: Grid, coord: seq<nat>, tile: Array, loc: seq<nat>, idx: seq<nat>)
    requires InRange(Counts(grid), coord) && Places(grid, coord, loc, idx) && InTile(grid, coord, idx)
    ensures Pasted(arr, grid, coord, tile)(idx) == tile(loc)
  {
    assert Local(grid, coord, idx) == loc by {
      LocalIs(grid, coord, loc, idx);
    }
  }

  lemma LocalIs(grid: Grid, coord: seq<nat>, loc: seq<nat>, idx: seq<nat>)
    requires InRange(Counts(grid), coord) && Places(grid, coord, loc, idx) && InTile(grid, coord, idx)
    ensures Local(grid, coord, idx) == loc
  {
    forall ax | 0 <= ax < |grid|
      ensures Local(grid, coord, idx)[ax] == loc[ax]
    {
      assert coord[ax] < Counts(grid)[ax];
      OffsetIs(grid[ax], coord[ax]);
    }
  }
}
