/**
 * RandomSpawner and GridCell: a pool of free cells of a `side x side`
 * grid. Make draws a cell from the pool and drops an object above it; the
 * GridCell on that object gives the cell back when the object is destroyed.
 */
module Spawning {
  import opened Geometry
  import opened Lists

  // ---------------------------------------------------------------------
  // C# integer division

  /** C#'s `/` on ints: the quotient rounded toward zero. */
  function Quot(a: int, b: int): int
    requires b != 0
  {
    if a >= 0 || a % b == 0 then a / b
    else if b > 0 then a / b + 1
    else a / b - 1
  }

  /** C#'s `%` on ints: the remainder takes the sign of the dividend. */
  function Rem(a: int, b: int): (r: int)
    requires b != 0
    ensures a == Quot(a, b) * b + r
  {
    a - Quot(a, b) * b
  }

  // ---------------------------------------------------------------------
  // The grid

  /** The number of cells per side: the floor of range / cellSize, but at least one. */
  function Side(range: real, cellSize: real): (side: int)
    requires cellSize != 0.0
    ensures side >= 1
    ensures (range / cellSize).Floor >= 1 ==> side == (range / cellSize).Floor
  {
    var side := (range / cellSize).Floor;
    if side <= 0 then 1 else side
  }

  /** `Enumerable.Range(0, n)`: the cells `0 .. n - 1` in order. */
  function Cells(n: nat): (s: seq<int>)
    ensures |s| == n && forall i :: 0 <= i < n ==> s[i] == i
  {
    seq(n, i => i)
  }

  /** Reset's pool: sorted, without repeats, and holding exactly the cells of the grid. */
  lemma CellsAreTheGrid(n: nat)
    ensures Sorted(Cells(n)) && forall c :: c in Cells(n) <==> 0 <= c < n
    ensures forall i, j :: 0 <= i < j < n ==> Cells(n)[i] != Cells(n)[j]
  {
    forall c | 0 <= c < n
      ensures c in Cells(n)
    {
      assert Cells(n)[c] == c;
    }
  }

  /** The column of a cell. */
  function Column(cellIndex: int, side: int): int
    requires side >= 1
  {
    Rem(cellIndex, side)
  }

  /** The row of a cell. */
  function Row(cellIndex: int, side: int): int
    requires side >= 1
  {
    Quot(cellIndex, side)
  }

  /**
   * The point above a cell from which Make looks down: `maxHeight` above
   * the spawner, on a grid centred on it, so that a cell of the grid lies
   * at most `side / 2` steps before and `(side - 1) / 2` steps after the
   * spawner along each axis.
   */
  function CellPosition(origin: Vec3, side: int, cellSize: real, maxHeight: real, cellIndex: int): (p: Vec3)
    requires side >= 1
    ensures p.y == origin.y + maxHeight
    ensures 0 <= cellIndex < side * side && cellSize >= 0.0 ==>
      && origin.x - (side / 2) as real * cellSize <= p.x <= origin.x + ((side - 1) / 2) as real * cellSize
      && origin.z - (side / 2) as real * cellSize <= p.z <= origin.z + ((side - 1) / 2) as real * cellSize
  {
    CellWithinGrid(origin, side, cellSize, maxHeight, cellIndex);
    GridPoint(origin, side, cellSize, maxHeight, Column(cellIndex, side), Row(cellIndex, side))
  }

  /** The point above a cell of the grid lies within the grid's steps around the spawner. */
  lemma CellWithinGrid(origin: Vec3, side: int, c: real, maxHeight: real, cellIndex: int)
    requires side >= 1
    ensures 0 <= cellIndex < side * side && c >= 0.0 ==>
      var g := GridPoint(origin, side, c, maxHeight, Column(cellIndex, side), Row(cellIndex, side));
      && origin.x - (side / 2) as real * c <= g.x <= origin.x + ((side - 1) / 2) as real * c
      && origin.z - (side / 2) as real * c <= g.z <= origin.z + ((side - 1) / 2) as real * c
  {
    if 0 <= cellIndex < side * side && c >= 0.0 {
      GridCoordinates(cellIndex, side);
      GridPointWithin(origin, side, c, maxHeight, Column(cellIndex, side), Row(cellIndex, side));
    }
  }

  /** The point above column `x` and row `y` of the grid lies within the grid's steps around the spawner. */
  lemma GridPointWithin(origin: Vec3, side: int, c: real, maxHeight: real, x: int, y: int)
    requires 0 <= x < side && 0 <= y < side && c >= 0.0
    ensures var g := GridPoint(origin, side, c, maxHeight, x, y);
      && origin.x - (side / 2) as real * c <= g.x <= origin.x + ((side - 1) / 2) as real * c
      && origin.z - (side / 2) as real * c <= g.z <= origin.z + ((side - 1) / 2) as real * c
  {
    var h, top := side / 2, (side - 1) / 2;
    assert -h <= x - h <= top && -h <= y - h <= top;
    AxisWithin(origin.x, x - h, h, top, c);
    AxisWithin(origin.z, y - h, h, top, c);
  }

  /** Along one axis: `k` steps of size `c`, with `-h <= k <= top`, stay within `h` steps before and `top` after. */
  lemma AxisWithin(o: real, k: int, h: int, top: int, c: real)
    requires -h <= k <= top && c >= 0.0
    ensures o - h as real * c <= o + k as real * c <= o + top as real * c
  {
    ScaleBetween(-(h as real), k as real, top as real, c);
  }

  /** Scaling by a non-negative step keeps the order of three values. */
  lemma ScaleBetween(lo: real, d: real, hi: real, c: real)
    requires lo <= d <= hi && c >= 0.0
    ensures lo * c <= d * c <= hi * c
  {
    assert (d - lo) * c >= 0.0 && (hi - d) * c >= 0.0;
  }

  /** The point at height `maxHeight` above column `x` and row `y`. */
  function GridPoint(origin: Vec3, side: int, cellSize: real, maxHeight: real, x: int, y: int): Vec3
  {
    origin.Plus(Vec3((x - side / 2) as real * cellSize, maxHeight, (y - side / 2) as real * cellSize))
  }

  /** A cell of the grid has a column and a row inside the grid, and they number it row by row. */
  lemma GridCoordinates(cellIndex: int, side: int)
    requires side >= 1 && 0 <= cellIndex < side * side
    ensures 0 <= Column(cellIndex, side) < side && 0 <= Row(cellIndex, side) < side
    ensures cellIndex == Row(cellIndex, side) * side + Column(cellIndex, side)
  {
    var y := cellIndex / side;
    assert Row(cellIndex, side) == y;
    if y >= side {
      assert y * side >= side * side;
    }
  }

  /** The point above a cell tells the cell: different cells are looked at from different points. */
  lemma CellPositionIdentifiesCell(origin: Vec3, side: int, cellSize: real, maxHeight: real, c1: int, c2: int)
    requires side >= 1 && cellSize != 0.0
    ensures CellPosition(origin, side, cellSize, maxHeight, c1) == CellPosition(origin, side, cellSize, maxHeight, c2)
      ==> c1 == c2
  {
    var x1, y1 := Column(c1, side), Row(c1, side);
    var x2, y2 := Column(c2, side), Row(c2, side);
    GridPointIdentifiesCell(origin, side, cellSize, maxHeight, x1, y1, x2, y2);
    if x1 == x2 && y1 == y2 {
      assert c1 == y1 * side + x1 && c2 == y2 * side + x2;
    }
  }

  /** Different columns or rows give different points. */
  lemma GridPointIdentifiesCell(origin: Vec3, side: int, cellSize: real, maxHeight: real, x1: int, y1: int, x2: int, y2: int)
    requires cellSize != 0.0
    ensures GridPoint(origin, side, cellSize, maxHeight, x1, y1) == GridPoint(origin, side, cellSize, maxHeight, x2, y2)
      ==> x1 == x2 && y1 == y2
  {
    var h := side / 2;
    var dx1, dx2 := (x1 - h) as real * cellSize, (x2 - h) as real * cellSize;
    var dy1, dy2 := (y1 - h) as real * cellSize, (y2 - h) as real * cellSize;
    if GridPoint(origin, side, cellSize, maxHeight, x1, y1) == GridPoint(origin, side, cellSize, maxHeight, x2, y2) {
      assert dx1 == dx2 && dy1 == dy2;
      OffsetDetermines(x1 - h, x2 - h, cellSize);
      OffsetDetermines(y1 - h, y2 - h, cellSize);
    }
  }

  /** Equal offsets along an axis come from equal grid steps. */
  lemma OffsetDetermines(a: int, b: int, c: real)
    requires c != 0.0 && a as real * c == b as real * c
    ensures a == b
  {
    assert (a as real - b as real) * c == 0.0;
  }

  // ---------------------------------------------------------------------
  // The pool as a list

  /** Ascending order. */
  predicate Sorted(s: seq<int>)
  {
    forall i, j :: 0 <= i < j < |s| ==> s[i] <= s[j]
  }

  /**
   * `List.BinarySearch` between `lo` and `hi` (inclusive): the index of an
   * element equal to `key`, or the complement of where the search ended.
   */
  function Search(s: seq<int>, key: int, lo: int, hi: int): (r: int)
    requires 0 <= lo && hi < |s|
    ensures r >= 0 ==> lo <= r <= hi && s[r] == key
    decreases hi - lo
  {
    if lo > hi then -lo - 1
    else
      var mid := lo + (hi - lo) / 2;
      if s[mid] == key then mid
      else if s[mid] < key then Search(s, key, mid + 1, hi)
      else Search(s, key, lo, mid - 1)
  }

  /** In a sorted list a search that fails has not passed over the key. */
  lemma {:induction false} SearchSorted(s: seq<int>, key: int, lo: int, hi: int)
    requires 0 <= lo && hi < |s| && Sorted(s)
    ensures Search(s, key, lo, hi) < 0 ==> forall k :: lo <= k <= hi ==> s[k] != key
    decreases hi - lo
  {
    if lo <= hi {
      var mid := lo + (hi - lo) / 2;
      if s[mid] < key {
        SearchSorted(s, key, mid + 1, hi);
        forall k | lo <= k <= mid
          ensures s[k] != key
        {
          assert s[k] <= s[mid];
        }
      } else if s[mid] > key {
        SearchSorted(s, key, lo, mid - 1);
        forall k | mid <= k <= hi
          ensures s[k] != key
        {
          assert s[mid] <= s[k];
        }
      }
    }
  }

  /** The whole-list search of FreeCell. */
  function BinarySearch(s: seq<int>, key: int): (r: int)
    ensures r >= 0 ==> r < |s| && s[r] == key
  {
    Search(s, key, 0, |s| - 1)
  }

  /** The pool after FreeCell: inserted where the search found an equal cell, appended otherwise. */
  function Freed(pool: seq<int>, cellIndex: int): (r: seq<int>)
    ensures |r| == |pool| + 1
  {
    var i := BinarySearch(pool, cellIndex);
    if i <= -1 || i >= |pool| then pool + [cellIndex]
    else pool[..i] + [cellIndex] + pool[i..]
  }

  /** FreeCell adds the cell once and keeps every other cell, whichever branch it takes. */
  lemma FreedAddsCell(pool: seq<int>, cellIndex: int)
    ensures multiset(Freed(pool, cellIndex)) == multiset(pool) + multiset{cellIndex}
  {
    var i := BinarySearch(pool, cellIndex);
    if 0 <= i < |pool| {
      assert pool == pool[..i] + pool[i..];
    }
  }

  /**
   * A cell freed into a sorted pool that does not hold it goes to the end:
   * the pool then stays sorted only when no cell in it is larger.
   */
  lemma FreedAppendsMissingCell(pool: seq<int>, cellIndex: int)
    requires Sorted(pool) && cellIndex !in pool
    ensures Freed(pool, cellIndex) == pool + [cellIndex]
    ensures Sorted(Freed(pool, cellIndex)) <==> forall c :: c in pool ==> c <= cellIndex
  {
    var r := pool + [cellIndex];
    if Sorted(r) {
      forall c | c in pool
        ensures c <= cellIndex
      {
        var k :| 0 <= k < |pool| && pool[k] == c;
        assert r[k] <= r[|pool|];
      }
    } else if forall c :: c in pool ==> c <= cellIndex {
      forall a, b | 0 <= a < b < |r|
        ensures r[a] <= r[b]
      {
        assert r[a] == pool[a];
        if b == |pool| {
          assert pool[a] in pool;
        } else {
          assert r[b] == pool[b];
        }
      }
      assert false;
    }
  }

  /** A cell that is already in a sorted pool is inserted next to its copy, so the pool stays sorted. */
  lemma FreedKeepsDuplicateSorted(pool: seq<int>, cellIndex: int)
    requires Sorted(pool) && cellIndex in pool
    ensures Sorted(Freed(pool, cellIndex))
  {
    SearchSorted(pool, cellIndex, 0, |pool| - 1);
    var i := BinarySearch(pool, cellIndex);
    assert 0 <= i < |pool| && pool[i] == cellIndex;
    var r := pool[..i] + [cellIndex] + pool[i..];
    assert Freed(pool, cellIndex) == r;
    forall a | 0 <= a < |r|
      ensures r[a] == pool[if a <= i then a else a - 1]
    {
    }
    forall a, b | 0 <= a < b < |r|
      ensures r[a] <= r[b]
    {
      var pa, pb := if a <= i then a else a - 1, if b <= i then b else b - 1;
      assert r[a] == pool[pa] && r[b] == pool[pb] && pa <= pb;
    }
  }

  /** Make followed by destroying the object it made gives the drawn cell back: the same cells, as many as before. */
  lemma MakeThenFreeRestoresPool(pool: seq<int>, i: int)
    requires 0 <= i < |pool|
    ensures multiset(Freed(RemoveAt(pool, i), pool[i])) == multiset(pool)
    ensures |Freed(RemoveAt(pool, i), pool[i])| == |pool|
  {
    FreedAddsCell(RemoveAt(pool, i), pool[i]);
    RemoveAtTakesOne(pool, i);
  }

  // ---------------------------------------------------------------------
  // Regenerate, on values

  /** The draws Regenerate may use: the k-th one picks an index of a pool that has lost k cells. */
  predicate ValidDraws(poolSize: int, picks: seq<int>)
  {
    forall k :: 0 <= k < |picks| && k < poolSize ==> 0 <= picks[k] < poolSize - k
  }

  /**
   * Up to `left` Makes in a row, stopping at the first that makes nothing:
   * the pool afterwards and the number of objects made. `hits` says, for
   * a cell, whether the ray cast down from above it hits something.
   */
  function Spawn(pool: seq<int>, picks: seq<int>, hits: int -> bool, left: int): (r: (seq<int>, nat))
    requires ValidDraws(|pool|, picks) && left <= |picks|
    ensures r.1 <= |pool| && (left >= 0 ==> r.1 <= left)
    decreases left
  {
    if left <= 0 || pool == [] then (pool, 0)
    else
      var cell := pool[picks[0]];
      var rest := RemoveAt(pool, picks[0]);
      if !hits(cell) then (rest, 0)
      else
        var r := Spawn(rest, picks[1..], hits, left - 1);
        (r.0, r.1 + 1)
  }

  /**
   * Every Make that runs takes one cell out of the pool, the one whose
   * object could not be placed included; fewer than `left` objects are made
   * only when the pool ran dry or a placement failed.
   */
  lemma {:induction false} SpawnConsumes(pool: seq<int>, picks: seq<int>, hits: int -> bool, left: int)
    requires ValidDraws(|pool|, picks) && left <= |picks|
    ensures var r := Spawn(pool, picks, hits, left);
      multiset(r.0) <= multiset(pool) &&
      (r.1 == left ==> |r.0| == |pool| - r.1) &&
      (r.1 < left ==> (r.0 == [] && |pool| == r.1) || |r.0| == |pool| - r.1 - 1)
    decreases left
  {
    if left > 0 && pool != [] {
      SpawnStep(pool, picks, hits, left);
      var rest := RemoveAt(pool, picks[0]);
      RemoveAtTakesOne(pool, picks[0]);
      if hits(pool[picks[0]]) {
        SpawnConsumes(rest, picks[1..], hits, left - 1);
      }
    }
  }

  // ---------------------------------------------------------------------
  // The two components

  class RandomSpawner {
    const numToSpawn: int
    const maxHeight: real
    const range: real
    const cellSize: real
    /** The spawner's own position, the centre of the grid. */
    const origin: Vec3

    var numCellsSide: int
    var numCells: int
    var freeCellIndices: seq<int>

    /** A grid with at least one cell per side, and cells of some size. */
    predicate Valid()
      reads this
    {
      numCellsSide >= 1 && cellSize != 0.0
    }

    /** The component as Awake leaves it: settings from the inspector, then Reset. */
    constructor(numToSpawn: int, maxHeight: real, range: real, cellSize: real, origin: Vec3)
      requires cellSize != 0.0
      ensures this.numToSpawn == numToSpawn && this.maxHeight == maxHeight && this.range == range
      ensures this.cellSize == cellSize && this.origin == origin
      ensures Valid() && numCellsSide == Side(range, cellSize) && numCells == numCellsSide * numCellsSide
      ensures freeCellIndices == Cells(numCells)
    {
      this.numToSpawn, this.maxHeight, this.range, this.cellSize, this.origin :=
        numToSpawn, maxHeight, range, cellSize, origin;
      new;
      Reset();
    }

    /** Reset: a grid of at least one cell, every cell free, in order. */
    method Reset()
      requires cellSize != 0.0
      modifies this
      ensures Valid() && numCellsSide == Side(range, cellSize) && numCells == numCellsSide * numCellsSide
      ensures freeCellIndices == Cells(numCells)
    {
      numCellsSide := (range / cellSize).Floor;
      if numCellsSide <= 0 {
        numCellsSide := 1;
      }
      numCells := numCellsSide * numCellsSide;
      freeCellIndices := Cells(numCells);
    }

    /**
     * Make: with no free cell it makes nothing. Otherwise it takes the
     * drawn cell out of the pool, and makes an object on it when the ray
     * cast down from above the cell hits something.
     */
    method Make(pick: int, raycast: Vec3 -> bool) returns (go: GridCell?)
      requires Valid()
      requires freeCellIndices != [] ==> 0 <= pick < |freeCellIndices|
      modifies this
      ensures Valid() && numCellsSide == old(numCellsSide) && numCells == old(numCells)
      ensures old(freeCellIndices) == [] ==> freeCellIndices == [] && go == null
      ensures old(freeCellIndices) != [] ==>
        var cell := old(freeCellIndices)[pick];
        freeCellIndices == RemoveAt(old(freeCellIndices), pick) &&
        (go != null <==> raycast(CellPosition(origin, numCellsSide, cellSize, maxHeight, cell))) &&
        (go != null ==> fresh(go) && go.isInitialized && go.spawner == this && go.cellIndex == cell)
    {
      if |freeCellIndices| == 0 {
        return null;
      }
      var i := pick;
      var cellIndex := freeCellIndices[i];
      freeCellIndices := RemoveAt(freeCellIndices, i);
      var position := CellPosition(origin, numCellsSide, cellSize, maxHeight, cellIndex);
      go := Generate(cellIndex, position, raycast);
    }

    /** Generate: an object with a GridCell for the cell, when the ray cast from the position hits. */
    method Generate(cellIndex: int, position: Vec3, raycast: Vec3 -> bool) returns (go: GridCell?)
      ensures go != null <==> raycast(position)
      ensures go != null ==> fresh(go) && go.isInitialized && go.spawner == this && go.cellIndex == cellIndex
    {
      if !raycast(position) {
        return null;
      }
      go := new GridCell();
      go.Initialize(this, cellIndex);
    }

    /** FreeCell: the cell goes back into the pool. */
    method FreeCell(cellIndex: int)
      modifies this
      ensures numCellsSide == old(numCellsSide) && numCells == old(numCells)
      ensures freeCellIndices == Freed(old(freeCellIndices), cellIndex)
    {
      var i := BinarySearch(freeCellIndices, cellIndex);
      if i <= -1 || i >= |freeCellIndices| {
        freeCellIndices := freeCellIndices + [cellIndex];
        return;
      }
      freeCellIndices := freeCellIndices[..i] + [cellIndex] + freeCellIndices[i..];
    }

    /**
     * Regenerate: Reset, then up to numToSpawn Makes, stopping at the first
     * that makes nothing. `made` is the number of objects made.
     */
    method Regenerate(picks: seq<int>, raycast: Vec3 -> bool) returns (made: nat)
      requires cellSize != 0.0
      requires ValidDraws(Side(range, cellSize) * Side(range, cellSize), picks) && numToSpawn <= |picks|
      modifies this
      ensures Valid() && numCellsSide == Side(range, cellSize) && numCells == numCellsSide * numCellsSide
      ensures var hits := c => raycast(CellPosition(origin, Side(range, cellSize), cellSize, maxHeight, c));
        (freeCellIndices, made) == Spawn(Cells(numCells), picks, hits, numToSpawn)
    {
      Reset();
      ghost var hits := c => raycast(CellPosition(origin, Side(range, cellSize), cellSize, maxHeight, c));
      ghost var whole := Spawn(Cells(numCells), picks, hits, numToSpawn);
      var numLeftToSpawn := numToSpawn;
      made := 0;
      SpawnStarts(freeCellIndices, picks, numLeftToSpawn, hits);
      ghost var side, cells := numCellsSide, numCells;
      while numLeftToSpawn > 0
        invariant Valid() && numCellsSide == side && numCells == cells
        invariant numLeftToSpawn == numToSpawn - made
        invariant SpawnReaches(freeCellIndices, picks, made, numLeftToSpawn, hits, whole)
        decreases numLeftToSpawn
      {
        if freeCellIndices == [] {
          SpawnRunsDry(freeCellIndices, picks, made, numLeftToSpawn, hits, whole);
        } else {
          SpawnMakes(freeCellIndices, picks, made, numLeftToSpawn, hits, whole);
        }
        var go := Make(if freeCellIndices == [] then 0 else picks[made], raycast);
        if go == null {
          break;
        }
        numLeftToSpawn := numLeftToSpawn - 1;
        made := made + 1;
      }
      if numLeftToSpawn <= 0 {
        SpawnDone(freeCellIndices, picks, made, numLeftToSpawn, hits, whole);
      }
    }
  }

  /** Regenerate's loop invariant: the rest of the run, from this pool on, finishes the whole run. */
  ghost predicate SpawnReaches(pool: seq<int>, picks: seq<int>, made: nat, left: int, hits: int -> bool,
    whole: (seq<int>, nat))
  {
    && made <= |picks| && ValidDraws(|pool|, picks[made..]) && left <= |picks| - made
    && var r := Spawn(pool, picks[made..], hits, left);
    r.0 == whole.0 && r.1 + made == whole.1
  }

  /** Before the first Make, the rest of the run is the whole run. */
  lemma SpawnStarts(pool: seq<int>, picks: seq<int>, left: int, hits: int -> bool)
    requires ValidDraws(|pool|, picks) && left <= |picks|
    ensures SpawnReaches(pool, picks, 0, left, hits, Spawn(pool, picks, hits, left))
  {
    assert picks[0..] == picks;
  }

  /** A Make on an empty pool ends the run. */
  lemma SpawnRunsDry(pool: seq<int>, picks: seq<int>, made: nat, left: int, hits: int -> bool,
    whole: (seq<int>, nat))
    requires SpawnReaches(pool, picks, made, left, hits, whole) && left > 0 && pool == []
    ensures whole == (pool, made)
  {
  }

  /** The run ends when no objects are left to make. */
  lemma SpawnDone(pool: seq<int>, picks: seq<int>, made: nat, left: int, hits: int -> bool,
    whole: (seq<int>, nat))
    requires SpawnReaches(pool, picks, made, left, hits, whole) && left <= 0
    ensures whole == (pool, made)
  {
  }

  /** A Make on a non-empty pool: the run ends when it fails, and goes on from the smaller pool otherwise. */
  lemma SpawnMakes(pool: seq<int>, picks: seq<int>, made: nat, left: int, hits: int -> bool,
    whole: (seq<int>, nat))
    requires SpawnReaches(pool, picks, made, left, hits, whole) && left > 0 && pool != []
    ensures made < |picks| && 0 <= picks[made] < |pool|
    ensures !hits(pool[picks[made]]) ==> whole == (RemoveAt(pool, picks[made]), made)
    ensures hits(pool[picks[made]]) ==>
      SpawnReaches(RemoveAt(pool, picks[made]), picks, made + 1, left - 1, hits, whole)
  {
    SpawnStep(pool, picks[made..], hits, left);
    assert picks[made..][0] == picks[made];
    assert picks[made..][1..] == picks[made + 1..];
  }

  /** One Make of Spawn: nothing more when it fails, the rest of the run on the smaller pool otherwise. */
  lemma SpawnStep(pool: seq<int>, picks: seq<int>, hits: int -> bool, left: int)
    requires ValidDraws(|pool|, picks) && 0 < left <= |picks|
    ensures pool == [] ==> Spawn(pool, picks, hits, left) == (pool, 0)
    ensures pool != [] ==> 0 <= picks[0] < |pool|
    ensures pool != [] && !hits(pool[picks[0]]) ==> Spawn(pool, picks, hits, left) == (RemoveAt(pool, picks[0]), 0)
    ensures pool != [] && hits(pool[picks[0]]) ==>
      ValidDraws(|pool| - 1, picks[1..]) &&
      Spawn(pool, picks, hits, left) == var r := Spawn(RemoveAt(pool, picks[0]), picks[1..], hits, left - 1); (r.0, r.1 + 1)
  {
    if pool != [] {
      forall k | 0 <= k < |picks[1..]| && k < |pool| - 1
        ensures 0 <= picks[1..][k] < |pool| - 1 - k
      {
        assert picks[1..][k] == picks[k + 1];
      }
    }
  }

  class GridCell {
    var spawner: RandomSpawner?
    var cellIndex: int
    var isInitialized: bool

    /** A cell component just added to an object: not yet initialised. */
    constructor()
      ensures spawner == null && cellIndex == 0 && !isInitialized
    {
      spawner, cellIndex, isInitialized := null, 0, false;
    }

    /** Initialize: only once; remembers the spawner and the cell. */
    method Initialize(spawner: RandomSpawner, cellIndex: int)
      requires !isInitialized
      modifies this
      ensures this.spawner == spawner && this.cellIndex == cellIndex && isInitialized
    {
      this.spawner := spawner;
      this.cellIndex := cellIndex;
      isInitialized := true;
    }

    /**
     * OnDestroy: gives the cell back to the spawner, unless the spawner is
     * gone (`spawnerAlive` is Unity's test of a destroyed object).
     */
    method OnDestroy(spawnerAlive: bool)
      requires isInitialized
      modifies spawner
      ensures spawner != null && !spawnerAlive ==> unchanged(spawner)
      ensures spawner != null && spawnerAlive ==>
        spawner.freeCellIndices == Freed(old(spawner.freeCellIndices), cellIndex) &&
        spawner.numCellsSide == old(spawner.numCellsSide) && spawner.numCells == old(spawner.numCells)
    {
      if spawner == null || !spawnerAlive {
        return;
      }
      spawner.FreeCell(cellIndex);
    }
  }
}
