/**
 * The vertical UV wrap-shift pass of MeshBuilder.ShiftUvsTowardsOrigin, as
 * pure functions over the UV list, and what it guarantees: it moves a face's
 * vertices by one whole number of tiles, keeps the face's shape, lands the
 * face's vertical midpoint within one tile of the middle tile, and is a no-op
 * when repeated.
 */
module UvWrap {
  import opened Geometry
  import opened UvRanges
  import opened Wrappers

  function Abs(x: real): real { if x < 0.0 then -x else x }

  /** Every listed vertex index addresses an entry of `uvs`. */
  predicate IndicesIn(idx: seq<int>, count: int)
  {
    forall k :: 0 <= k < |idx| ==> 0 <= idx[k] < count
  }

  /** No vertex index is listed twice. */
  predicate Distinct(idx: seq<int>)
  {
    forall a, b :: 0 <= a < b < |idx| ==> idx[a] != idx[b]
  }

  /** The vertical UV coordinates of the listed vertices, in list order. */
  function Ys(uvs: seq<Vec2>, idx: seq<int>): (ys: seq<real>)
    requires IndicesIn(idx, |uvs|)
    ensures |ys| == |idx|
  {
    seq(|idx|, k requires 0 <= k < |idx| => uvs[idx[k]].y)
  }

  /** The largest element (LINQ `Max`). */
  function MaxOf(s: seq<real>): (m: real)
    requires |s| > 0
    ensures m in s
    ensures forall k :: 0 <= k < |s| ==> s[k] <= m
  {
    if |s| == 1 then s[0]
    else
      var rest := MaxOf(s[1..]);
      if s[0] < rest then rest else s[0]
  }

  /** The smallest element (LINQ `Min`). */
  function MinOf(s: seq<real>): (m: real)
    requires |s| > 0
    ensures m in s
    ensures forall k :: 0 <= k < |s| ==> m <= s[k]
  {
    if |s| == 1 then s[0]
    else
      var rest := MinOf(s[1..]);
      if rest < s[0] then rest else s[0]
  }

  /** A wrap range with tiles of some height: a non-zero tile count and a non-zero rect height. */
  predicate Tiled(u: UvRange)
  {
    u.numRepeatsVertical != 0 && u.rect.height != 0.0
  }

  /**
   * A setting under which the pass stays finite on every face: no range, a
   * zero tile count (the pass then moves nothing), or tiles with a height.
   */
  predicate Usable(r: Option<UvRange>)
  {
    r.Some? ==> r.value.numRepeatsVertical == 0 || Tiled(r.value)
  }

  /**
   * The pass over these vertices never divides a distance by a zero tile
   * height: it returns early, or the count is zero, or the tiles have a
   * height, or the midpoint already sits on the target.
   */
  predicate Finite(uvs: seq<Vec2>, idx: seq<int>, u: UvRange)
    requires IndicesIn(idx, |uvs|)
  {
    || u.numRepeatsVertical == 0
    || u.rect.height != 0.0
    || AllInRange(uvs, idx, u)
    || MidY(uvs, idx) == Target(u)
  }

  /** What the pass needs of its inputs: with a range, valid indices and a finite computation. */
  predicate PassDefined(uvs: seq<Vec2>, idx: seq<int>, r: Option<UvRange>)
  {
    r.Some? ==> IndicesIn(idx, |uvs|) && Finite(uvs, idx, r.value)
  }

  /** The vertical UV range in use: the configured one, or [0, 1] without one. */
  function UvRangeY(r: Option<UvRange>): (v: RangeFloat)
    ensures r.None? ==> v == RangeFloat(0.0, 1.0)
    ensures r.Some? ==> v.min == r.value.rect.y && v.Span() == r.value.rect.height
  {
    match r
    case None => RangeFloat(0.0, 1.0)
    case Some(u) => u.Vertical()
  }

  /** The height of one vertical tile, `range / numRepeatsVertical` (negative for a negative count). */
  function TileHeight(u: UvRange): real
    requires u.numRepeatsVertical != 0
  {
    u.Vertical().Span() / u.numRepeatsVertical as real
  }

  /** C#'s integer `n / 2`, which rounds towards zero. */
  function HalfTowardZero(n: int): (h: int)
    ensures n >= 0 ==> 0 <= 2 * h <= n < 2 * h + 2
    ensures n < 0 ==> 2 * h - 2 < n <= 2 * h <= 0
  {
    if n >= 0 then n / 2 else -((-n) / 2)
  }

  /** The middle tile's lower edge, `Lerp((N / 2) / N)` with integer `N / 2`. */
  function Target(u: UvRange): real
    requires u.numRepeatsVertical != 0
  {
    var n := u.numRepeatsVertical;
    u.Vertical().Lerp(HalfTowardZero(n) as real / n as real)
  }

  /**
   * The whole number of tiles that moves `current` towards `target`: the
   * floor of the distance in tiles, upwards when below, downwards when above.
   */
  function TileSteps(current: real, target: real, tile: real): int
    requires current != target ==> tile != 0.0
  {
    if current < target then ((target - current) / tile).Floor
    else if current > target then -((current - target) / tile).Floor
    else 0
  }

  /** The midpoint of the listed vertices' vertical extent. */
  function MidY(uvs: seq<Vec2>, idx: seq<int>): real
    requires IndicesIn(idx, |uvs|) && |idx| > 0
  {
    var ys := Ys(uvs, idx);
    (MaxOf(ys) + MinOf(ys)) * 0.5
  }

  /** Whether every listed vertex already has its vertical UV inside the range (min inclusive). */
  predicate AllInRange(uvs: seq<Vec2>, idx: seq<int>, u: UvRange)
    requires IndicesIn(idx, |uvs|)
  {
    forall k :: 0 <= k < |idx| ==> u.Vertical().Contains(uvs[idx[k]].y)
  }

  /**
   * How many whole tiles the pass moves the listed vertices: none when all
   * are in range, and none for a zero count, whose target `0 / (float)0` is
   * NaN so that neither comparison holds.
   */
  function WrapTiles(uvs: seq<Vec2>, idx: seq<int>, u: UvRange): int
    requires IndicesIn(idx, |uvs|) && Finite(uvs, idx, u)
  {
    if AllInRange(uvs, idx, u) || u.numRepeatsVertical == 0 then 0
    else TileSteps(MidY(uvs, idx), Target(u), TileHeight(u))
  }

  /** The signed vertical shift of the pass (zero for a zero count, which has no tile height). */
  function WrapShift(uvs: seq<Vec2>, idx: seq<int>, u: UvRange): real
    requires IndicesIn(idx, |uvs|) && Finite(uvs, idx, u)
  {
    if u.numRepeatsVertical == 0 then 0.0
    else WrapTiles(uvs, idx, u) as real * TileHeight(u)
  }

  /** `uvs[index] += (0, s)` for each listed index in turn (a repeated index moves again). */
  function ApplyShift(uvs: seq<Vec2>, idx: seq<int>, s: real): (r: seq<Vec2>)
    requires IndicesIn(idx, |uvs|)
    ensures |r| == |uvs|
    decreases |idx|
  {
    if idx == [] then uvs
    else ApplyShift(uvs[idx[0] := uvs[idx[0]].Plus(Vec2(0.0, s))], idx[1..], s)
  }

  /** Shifting the vertex at position `i` first leaves the shift of the rest of the list. */
  lemma ApplyShiftStep(uvs: seq<Vec2>, idx: seq<int>, i: int, s: real)
    requires IndicesIn(idx, |uvs|) && 0 <= i < |idx|
    ensures IndicesIn(idx[i..], |uvs|) && IndicesIn(idx[i + 1..], |uvs|)
    ensures ApplyShift(uvs[idx[i] := uvs[idx[i]].Plus(Vec2(0.0, s))], idx[i + 1..], s) == ApplyShift(uvs, idx[i..], s)
  {
    assert idx[i..][0] == idx[i] && idx[i..][1..] == idx[i + 1..];
  }

  /** The whole pass: nothing without a range or when all listed vertices are in range. */
  function WrapPass(uvs: seq<Vec2>, idx: seq<int>, r: Option<UvRange>): (res: seq<Vec2>)
    requires PassDefined(uvs, idx, r)
    ensures |res| == |uvs|
  {
    if r.None? || AllInRange(uvs, idx, r.value) then uvs
    else ApplyShift(uvs, idx, WrapShift(uvs, idx, r.value))
  }

  // ---------------------------------------------------------------------
  // What the pass does to each vertex

  /** The total vertical move of vertex `k`: the shift once for each time it is listed. */
  function MovesAt(idx: seq<int>, k: int, s: real): real
    decreases |idx|
  {
    if idx == [] then 0.0 else (if idx[0] == k then s else 0.0) + MovesAt(idx[1..], k, s)
  }

  /** Each vertex keeps its U and moves vertically by the shift once per time it is listed. */
  lemma {:induction false} ApplyShiftAt(uvs: seq<Vec2>, idx: seq<int>, s: real, k: int)
    requires IndicesIn(idx, |uvs|) && 0 <= k < |uvs|
    ensures ApplyShift(uvs, idx, s)[k].x == uvs[k].x
    ensures ApplyShift(uvs, idx, s)[k].y == uvs[k].y + MovesAt(idx, k, s)
    decreases |idx|
  {
    if idx != [] {
      var moved := uvs[idx[0] := uvs[idx[0]].Plus(Vec2(0.0, s))];
      assert ApplyShift(uvs, idx, s) == ApplyShift(moved, idx[1..], s);
      ApplyShiftAt(moved, idx[1..], s, k);
    }
  }

  /** A zero shift moves nothing, however often an index is listed. */
  lemma {:induction false} MovesAtZero(idx: seq<int>, k: int)
    ensures MovesAt(idx, k, 0.0) == 0.0
    decreases |idx|
  {
    if idx != [] {
      MovesAtZero(idx[1..], k);
    }
  }

  /** In a list without repeats, a listed index moves by the shift once and any other not at all. */
  lemma {:induction false} MovesAtDistinct(idx: seq<int>, k: int, s: real)
    requires Distinct(idx)
    ensures MovesAt(idx, k, s) == if k in idx then s else 0.0
    decreases |idx|
  {
    if idx != [] {
      assert idx == [idx[0]] + idx[1..];
      assert Distinct(idx[1..]);
      MovesAtDistinct(idx[1..], k, s);
      if k == idx[0] {
        assert k !in idx[1..];
      }
    }
  }

  /** A zero shift changes nothing. */
  lemma ZeroShift(uvs: seq<Vec2>, idx: seq<int>)
    requires IndicesIn(idx, |uvs|)
    ensures ApplyShift(uvs, idx, 0.0) == uvs
  {
    forall k | 0 <= k < |uvs| ensures ApplyShift(uvs, idx, 0.0)[k] == uvs[k] {
      ApplyShiftAt(uvs, idx, 0.0, k);
      MovesAtZero(idx, k);
    }
  }

  /**
   * With a zero tile count the C# target is `0 / (float)0`, NaN: neither
   * comparison holds, the shift stays 0 and the pass leaves every UV as it was.
   */
  lemma ZeroCountMovesNothing(uvs: seq<Vec2>, idx: seq<int>, u: UvRange)
    requires IndicesIn(idx, |uvs|) && u.numRepeatsVertical == 0
    ensures WrapPass(uvs, idx, Some(u)) == uvs
  {
    if !AllInRange(uvs, idx, u) {
      ZeroShift(uvs, idx);
    }
  }

  /**
   * With a zero rect height (tiles of zero height) the pass is finite only
   * when the midpoint already sits on the target, and then it moves nothing.
   */
  lemma FlatRangeMovesNothing(uvs: seq<Vec2>, idx: seq<int>, u: UvRange)
    requires IndicesIn(idx, |uvs|) && Finite(uvs, idx, u) && u.rect.height == 0.0
    ensures WrapPass(uvs, idx, Some(u)) == uvs
  {
    if !AllInRange(uvs, idx, u) {
      if u.numRepeatsVertical != 0 {
        assert WrapTiles(uvs, idx, u) == 0;
      }
      ZeroShift(uvs, idx);
    }
  }

  /** With distinct indices, listed vertices move by exactly `s` vertically and nothing else changes. */
  lemma ApplyShiftDistinct(uvs: seq<Vec2>, idx: seq<int>, s: real)
    requires IndicesIn(idx, |uvs|) && Distinct(idx)
    ensures forall k :: 0 <= k < |uvs| ==>
      ApplyShift(uvs, idx, s)[k] == if k in idx then Vec2(uvs[k].x, uvs[k].y + s) else uvs[k]
  {
    forall k | 0 <= k < |uvs|
      ensures ApplyShift(uvs, idx, s)[k] == if k in idx then Vec2(uvs[k].x, uvs[k].y + s) else uvs[k]
    {
      ApplyShiftAt(uvs, idx, s, k);
      MovesAtDistinct(idx, k, s);
    }
  }

  /**
   * The pass moves every listed vertex (listed once) vertically by the same
   * whole number of tiles, `WrapTiles`, and leaves U and all other vertices
   * alone.
   */
  lemma WrapPassMovesByTiles(uvs: seq<Vec2>, idx: seq<int>, u: UvRange)
    requires IndicesIn(idx, |uvs|) && Distinct(idx) && u.numRepeatsVertical != 0 && Finite(uvs, idx, u)
    ensures forall k :: 0 <= k < |uvs| ==>
      WrapPass(uvs, idx, Some(u))[k]
        == if k in idx then Vec2(uvs[k].x, uvs[k].y + WrapTiles(uvs, idx, u) as real * TileHeight(u))
           else uvs[k]
  {
    if !AllInRange(uvs, idx, u) {
      var s := WrapShift(uvs, idx, u);
      assert s == WrapTiles(uvs, idx, u) as real * TileHeight(u);
      assert WrapPass(uvs, idx, Some(u)) == ApplyShift(uvs, idx, s);
      ApplyShiftDistinct(uvs, idx, s);
    } else {
      assert WrapTiles(uvs, idx, u) == 0;
    }
  }

  /** So every vertical difference between two listed vertices survives the pass. */
  lemma WrapPassKeepsShape(uvs: seq<Vec2>, idx: seq<int>, u: UvRange, a: int, b: int)
    requires IndicesIn(idx, |uvs|) && Distinct(idx) && Finite(uvs, idx, u)
    requires 0 <= a < |idx| && 0 <= b < |idx|
    ensures var r := WrapPass(uvs, idx, Some(u));
      r[idx[a]].y - r[idx[b]].y == uvs[idx[a]].y - uvs[idx[b]].y
  {
    if u.numRepeatsVertical == 0 {
      ZeroCountMovesNothing(uvs, idx, u);
    } else {
      WrapPassMovesByTiles(uvs, idx, u);
      assert idx[a] in idx && idx[b] in idx;
    }
  }

  // ---------------------------------------------------------------------
  // Where the pass lands

  lemma DivTimes(d: real, t: real)
    requires t != 0.0
    ensures (d / t) * t == d
  {
  }

  lemma MulAtMost(a: real, b: real, t: real)
    requires a <= b && 0.0 < t
    ensures a * t <= b * t
  {
  }

  lemma MulLess(a: real, b: real, t: real)
    requires a < b && 0.0 < t
    ensures a * t < b * t
  {
  }

  /** `q * t` lies within one `|t|` of `floor(q) * t`, on the side that `t`'s sign gives. */
  lemma FloorTimes(q: real, t: real)
    requires t != 0.0
    ensures Abs(q.Floor as real * t - q * t) < Abs(t)
    ensures t > 0.0 ==> q.Floor as real * t <= q * t
  {
    var f := q.Floor as real;
    assert f <= q < f + 1.0;
    if t > 0.0 {
      MulAtMost(f, q, t);
      MulLess(q, f + 1.0, t);
      assert (f + 1.0) * t == f * t + t;
    } else {
      MulAtMost(f, q, -t);
      MulLess(q, f + 1.0, -t);
      assert (f + 1.0) * -t == f * -t - t;
      assert f * -t == -(f * t) && q * -t == -(q * t);
    }
  }

  /**
   * `after` is strictly less than one tile from `target`, and, for an
   * upward-pointing tile, between `before` and `target` (no overshoot).
   */
  predicate Lands(before: real, after: real, target: real, tile: real)
  {
    && Abs(after - target) < Abs(tile)
    && (tile > 0.0 ==>
          (before <= target ==> before <= after <= target)
          && (target <= before ==> target <= after <= before))
  }

  /**
   * Moving `current` by `TileSteps` whole tiles leaves it strictly less than
   * one tile from `target`, and for an upward-pointing tile it never passes
   * `target`.
   */
  lemma TileStepsLand(current: real, target: real, tile: real)
    requires tile != 0.0
    ensures Lands(current, current + TileSteps(current, target, tile) as real * tile, target, tile)
  {
    if current < target {
      LandFromBelow(current, target, tile);
    } else if current > target {
      LandFromAbove(current, target, tile);
    }
  }

  lemma LandFromBelow(current: real, target: real, tile: real)
    requires tile != 0.0 && current < target
    ensures Lands(current, current + TileSteps(current, target, tile) as real * tile, target, tile)
  {
    var d := target - current;
    var q := d / tile;
    var p := q.Floor as real * tile;
    FloorStep(q, tile, d);
    LandsUp(current, target, tile, p, d);
  }

  lemma LandFromAbove(current: real, target: real, tile: real)
    requires tile != 0.0 && current > target
    ensures Lands(current, current + TileSteps(current, target, tile) as real * tile, target, tile)
  {
    var d := current - target;
    var q := d / tile;
    var p := q.Floor as real * tile;
    FloorStep(q, tile, d);
    assert (-q.Floor) as real * tile == -p;
    LandsDown(current, target, tile, p, d);
  }

  /** For `q = d / t`: `floor(q) * t` is within one `|t|` of `d`, and between 0 and `d` when `t > 0` and `d >= 0`. */
  lemma FloorStep(q: real, t: real, d: real)
    requires t != 0.0 && q == d / t
    ensures Abs(q.Floor as real * t - d) < Abs(t)
    ensures t > 0.0 && d >= 0.0 ==> 0.0 <= q.Floor as real * t <= d
  {
    DivTimes(d, t);
    FloorTimes(q, t);
    if t > 0.0 && d >= 0.0 {
      assert q >= 0.0;
      MulAtMost(0.0, q.Floor as real, t);
    }
  }

  /** Moving up by `p`, within one tile of the distance `d` to the target and not past it. */
  lemma LandsUp(current: real, target: real, tile: real, p: real, d: real)
    requires tile != 0.0 && d == target - current && Abs(p - d) < Abs(tile)
    requires tile > 0.0 ==> 0.0 <= p <= d
    ensures Lands(current, current + p, target, tile)
  {
  }

  /** Moving down by `p`, within one tile of the distance `d` to the target and not past it. */
  lemma LandsDown(current: real, target: real, tile: real, p: real, d: real)
    requires tile != 0.0 && d == current - target && Abs(p - d) < Abs(tile)
    requires tile > 0.0 ==> 0.0 <= p <= d
    ensures Lands(current, current - p, target, tile)
  {
  }

  /** Shifting every listed vertex (listed once) by `s` shifts the extent's midpoint by `s`. */
  lemma MidYShift(uvs: seq<Vec2>, idx: seq<int>, s: real)
    requires IndicesIn(idx, |uvs|) && Distinct(idx) && |idx| > 0
    ensures MidY(ApplyShift(uvs, idx, s), idx) == MidY(uvs, idx) + s
  {
    var moved := ApplyShift(uvs, idx, s);
    ApplyShiftDistinct(uvs, idx, s);
    var ys, ys' := Ys(uvs, idx), Ys(moved, idx);
    assert forall k :: 0 <= k < |idx| ==> ys'[k] == ys[k] + s by {
      forall k | 0 <= k < |idx| ensures ys'[k] == ys[k] + s {
        assert idx[k] in idx;
      }
    }
    ShiftedExtremes(ys, ys', s);
  }

  /** Adding `s` to every element adds `s` to the maximum and to the minimum. */
  lemma ShiftedExtremes(ys: seq<real>, ys': seq<real>, s: real)
    requires |ys| == |ys'| > 0
    requires forall k :: 0 <= k < |ys| ==> ys'[k] == ys[k] + s
    ensures MaxOf(ys') == MaxOf(ys) + s && MinOf(ys') == MinOf(ys) + s
  {
    var hi, lo := MaxOf(ys), MinOf(ys);
    var i :| 0 <= i < |ys| && ys[i] == hi;
    var j :| 0 <= j < |ys| && ys[j] == lo;
    assert ys'[i] <= MaxOf(ys');
    assert MinOf(ys') <= ys'[j];
    var i' :| 0 <= i' < |ys'| && ys'[i'] == MaxOf(ys');
    var j' :| 0 <= j' < |ys'| && ys'[j'] == MinOf(ys');
    assert ys[i'] <= hi && lo <= ys[j'];
  }

  /**
   * After a pass that moved anything, the listed vertices' vertical midpoint
   * lies strictly within one tile of the middle tile's lower edge, and, for
   * an upward range, on the same side of it as before (no overshoot).
   */
  lemma WrapPassLands(uvs: seq<Vec2>, idx: seq<int>, u: UvRange)
    requires IndicesIn(idx, |uvs|) && Distinct(idx) && Tiled(u)
    requires !AllInRange(uvs, idx, u)
    ensures |idx| > 0
    ensures Lands(MidY(uvs, idx), MidY(WrapPass(uvs, idx, Some(u)), idx), Target(u), TileHeight(u))
  {
    var before, target, tile := WrapShiftIsTiles(uvs, idx, u);
    var after, shift := WrapPassMidY(uvs, idx, u);
    LandsAfterShift(before, shift, after, target, tile);
  }

  /** A pass that finds a vertex out of range moves the listed vertices' midpoint by its shift. */
  lemma WrapPassMidY(uvs: seq<Vec2>, idx: seq<int>, u: UvRange) returns (after: real, shift: real)
    requires IndicesIn(idx, |uvs|) && Distinct(idx) && Tiled(u) && !AllInRange(uvs, idx, u)
    ensures |idx| > 0 && after == MidY(WrapPass(uvs, idx, Some(u)), idx)
    ensures shift == WrapShift(uvs, idx, u) && after == MidY(uvs, idx) + shift
  {
    shift := WrapShift(uvs, idx, u);
    assert WrapPass(uvs, idx, Some(u)) == ApplyShift(uvs, idx, shift);
    MidYShift(uvs, idx, shift);
    after := MidY(WrapPass(uvs, idx, Some(u)), idx);
  }

  /** Moving by the whole tiles TileSteps gives lands where TileStepsLand says. */
  lemma LandsAfterShift(before: real, shift: real, after: real, target: real, tile: real)
    requires tile != 0.0 && after == before + shift && shift == TileSteps(before, target, tile) as real * tile
    ensures Lands(before, after, target, tile)
  {
    TileStepsLand(before, target, tile);
  }

  /** A pass that finds a vertex out of range shifts by the whole tiles between the midpoint and the target. */
  lemma WrapShiftIsTiles(uvs: seq<Vec2>, idx: seq<int>, u: UvRange) returns (before: real, target: real, tile: real)
    requires IndicesIn(idx, |uvs|) && Tiled(u) && !AllInRange(uvs, idx, u)
    ensures |idx| > 0 && before == MidY(uvs, idx) && target == Target(u) && tile == TileHeight(u) && tile != 0.0
    ensures WrapShift(uvs, idx, u) == TileSteps(before, target, tile) as real * tile
  {
    before, target, tile := MidY(uvs, idx), Target(u), TileHeight(u);
  }

  /** The shift of a pass that finds a vertex out of range, from the midpoint, target and tile height it computes. */
  lemma WrapShiftFrom(uvs: seq<Vec2>, idx: seq<int>, u: UvRange, current: real, target: real, tile: real)
    requires IndicesIn(idx, |uvs|) && u.numRepeatsVertical != 0 && Finite(uvs, idx, u)
    requires !AllInRange(uvs, idx, u) && |idx| > 0
    requires current == MidY(uvs, idx) && target == Target(u) && tile == TileHeight(u)
    ensures WrapShift(uvs, idx, u) == TileSteps(current, target, tile) as real * tile
  {
  }

  /** A tiled range has tiles of non-zero height. */
  lemma TileHeightNonZero(u: UvRange)
    requires Tiled(u)
    ensures TileHeight(u) != 0.0
  {
  }

  /** The tiles point upwards exactly when the rect's height and the tile count have the same sign. */
  lemma TileHeightSign(u: UvRange)
    requires u.numRepeatsVertical != 0
    ensures TileHeight(u) > 0.0 <==> (u.rect.height > 0.0 <==> u.numRepeatsVertical > 0) && u.rect.height != 0.0
  {
  }

  lemma DivBelowOne(d: real, t: real)
    requires 0.0 <= d < t
    ensures 0.0 <= d / t < 1.0
  {
  }

  /** From strictly within one tile of the target, no whole tile is taken. */
  lemma TileStepsNear(current: real, target: real, tile: real)
    requires tile > 0.0 && Abs(current - target) < tile
    ensures TileSteps(current, target, tile) == 0
  {
    if current < target {
      DivBelowOne(target - current, tile);
    } else if current > target {
      DivBelowOne(current - target, tile);
    }
  }

  /**
   * Running the pass again on the same face changes nothing, when the tiles
   * point upwards (a downward tile alternates between two tiles).
   */
  lemma WrapPassIdempotent(uvs: seq<Vec2>, idx: seq<int>, r: Option<UvRange>)
    requires IndicesIn(idx, |uvs|) && Distinct(idx)
    requires r.Some? && r.value.numRepeatsVertical != 0 ==> TileHeight(r.value) > 0.0
    ensures WrapPass(WrapPass(uvs, idx, r), idx, r) == WrapPass(uvs, idx, r)
  {
    if r.Some? && r.value.numRepeatsVertical != 0 {
      TileHeightSign(r.value);
    }
    if r.Some? && r.value.numRepeatsVertical == 0 {
      ZeroCountMovesNothing(uvs, idx, r.value);
    } else if r.Some? && !AllInRange(uvs, idx, r.value) {
      var u := r.value;
      var once := WrapPass(uvs, idx, r);
      if !AllInRange(once, idx, u) {
        WrapPassLands(uvs, idx, u);
        TileStepsNear(MidY(once, idx), Target(u), TileHeight(u));
        assert WrapShift(once, idx, u) == 0.0;
        ZeroShift(once, idx);
      }
    }
  }

  /** The one-tile downward range over `[-1, 0]` used to show the alternation. */
  function DownRange(): (u: UvRange)
    ensures Tiled(u) && Target(u) == 0.0 && TileHeight(u) == -1.0
  {
    var u := UvRange(Rect(0.0, 0.0, 1.0, -1.0), 1, 1);
    assert u.Vertical().Lerp(0.0) == 0.0;
    u
  }

  /**
   * A downward range (negative height) makes the pass alternate between two
   * tiles: it is not idempotent there.
   */
  lemma DownwardRangeAlternates()
    ensures WrapPass([Vec2(0.0, 0.25)], [0], Some(DownRange())) == [Vec2(0.0, -0.75)]
    ensures WrapPass([Vec2(0.0, -0.75)], [0], Some(DownRange())) == [Vec2(0.0, 0.25)]
  {
    DownFromQuarter();
    DownFromBelow();
  }

  lemma DownFromQuarter()
    ensures WrapPass([Vec2(0.0, 0.25)], [0], Some(DownRange())) == [Vec2(0.0, -0.75)]
  {
    var u := DownRange();
    SingleVertexPass(0.25, u);
    assert TileSteps(0.25, 0.0, -1.0) == 1 by {
      assert (0.25 - 0.0) / -1.0 == -0.25;
    }
  }

  lemma DownFromBelow()
    ensures WrapPass([Vec2(0.0, -0.75)], [0], Some(DownRange())) == [Vec2(0.0, 0.25)]
  {
    var u := DownRange();
    SingleVertexPass(-0.75, u);
    assert TileSteps(-0.75, 0.0, -1.0) == -1 by {
      assert (0.0 - -0.75) / -1.0 == -0.75;
    }
  }

  /** The pass on a single vertex outside the range, spelled out. */
  lemma SingleVertexPass(y: real, u: UvRange)
    requires Tiled(u) && !u.Vertical().Contains(y)
    ensures WrapPass([Vec2(0.0, y)], [0], Some(u))
      == [Vec2(0.0, y + TileSteps(y, Target(u), TileHeight(u)) as real * TileHeight(u))]
  {
    var uvs := [Vec2(0.0, y)];
    assert Ys(uvs, [0]) == [y];
    assert MaxOf([y]) == y && MinOf([y]) == y;
    assert MidY(uvs, [0]) == y;
    assert !AllInRange(uvs, [0], u);
    assert WrapTiles(uvs, [0], u) == TileSteps(y, Target(u), TileHeight(u));
    var s := WrapShift(uvs, [0], u);
    assert s == TileSteps(y, Target(u), TileHeight(u)) as real * TileHeight(u);
    assert WrapPass(uvs, [0], Some(u)) == ApplyShift(uvs, [0], s);
    assert ApplyShift(uvs, [0], s) == ApplyShift([Vec2(0.0, y + s)], [], s);
    assert ApplyShift([Vec2(0.0, y + s)], [], s) == [Vec2(0.0, y + s)];
  }
}
