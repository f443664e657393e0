/**
 * CreateCubes: unit cubes added to a MeshBuilder, either as a series (each
 * cube's transformation is the previous one times the next step, cycling
 * through the steps) or as a tree (every step branches off each cube, down
 * to a given depth). Matrices are kept symbolic; where a matrix sends a
 * point is a parameter.
 */
module Cubes {
  import opened Geometry
  import opened MeshModel
  import opened MeshBuilding
  import opened Lists

  /** The matrices in play: the identity, a translation-rotation-scale, and products. */
  datatype Matrix = Identity | Trs(translation: Vec3, euler: Vec3, scale: Vec3) | Times(left: Matrix, right: Matrix)

  /** Matrix4x4.MultiplyPoint, left to the caller. */
  type PointMap = (Matrix, Vec3) -> Vec3

  /** The corners of the unit cube, in the order AddCube adds them. */
  const CubeCorners: seq<Vec3> := [
    Vec3(0.5, 0.5, 0.5), Vec3(-0.5, 0.5, 0.5), Vec3(0.5, -0.5, 0.5), Vec3(-0.5, -0.5, 0.5),
    Vec3(0.5, 0.5, -0.5), Vec3(-0.5, 0.5, -0.5), Vec3(0.5, -0.5, -0.5), Vec3(-0.5, -0.5, -0.5)]

  /** The positions of one cube's eight vertices under a transformation. */
  function CubeVertices(multiplyPoint: PointMap, transformation: Matrix): (vs: seq<Vec3>)
    ensures |vs| == 8
  {
    seq(8, k requires 0 <= k < 8 => multiplyPoint(transformation, CubeCorners[k]))
  }

  /** AddCube's twelve triangles, as offsets from its first vertex. */
  const CubeTable: seq<int> := [
    0, 1, 2, 1, 3, 2, 0, 2, 4, 2, 6, 4,
    0, 4, 1, 1, 4, 5, 4, 6, 5, 5, 6, 7,
    1, 5, 3, 3, 5, 7, 2, 3, 6, 3, 7, 6]

  /** Every entry of a sequence moved by `d`. */
  function Shift(s: seq<int>, d: int): (r: seq<int>)
    ensures |r| == |s| && forall k :: 0 <= k < |s| ==> r[k] == s[k] + d
  {
    seq(|s|, k requires 0 <= k < |s| => s[k] + d)
  }

  /** The twelve triangles of a cube whose eight vertices start at `v`. */
  function CubeIndices(v: int): (ts: seq<int>)
    ensures |ts| == 36
  {
    Shift(CubeTable, v)
  }

  /** The vertices of cubes placed by a list of transformations, cube after cube. */
  function CubesVertices(multiplyPoint: PointMap, transformations: seq<Matrix>): (vs: seq<Vec3>)
    ensures |vs| == 8 * |transformations|
  {
    if transformations == [] then []
    else
      var k := |transformations| - 1;
      CubesVertices(multiplyPoint, transformations[..k]) + CubeVertices(multiplyPoint, transformations[k])
  }

  /** The triangles of `count` cubes whose vertices start at `base`. */
  function CubesIndices(base: int, count: nat): (ts: seq<int>)
    ensures |ts| == 36 * count
  {
    if count == 0 then [] else CubesIndices(base, count - 1) + CubeIndices(base + 8 * (count - 1))
  }

  /** A mesh after cubes with these transformations have been added on default settings. */
  function WithCubes(m: MeshData, multiplyPoint: PointMap, transformations: seq<Matrix>): MeshData
  {
    MeshData(m.vertices + CubesVertices(multiplyPoint, transformations),
      m.uvs + Blank(8 * |transformations|),
      m.triangles + CubesIndices(|m.vertices|, |transformations|))
  }

  // ---------------------------------------------------------------------
  // One cube

  /** Every index of a cube is one of its own eight vertices, and each of them is used. */
  lemma CubeIndicesFresh(v: int)
    ensures forall x :: x in CubeIndices(v) ==> v <= x < v + 8
    ensures forall x :: v <= x < v + 8 ==> x in CubeIndices(v)
  {
    CubeIndicesFlat(v);
  }

  /** Every index of a cube is one of its own eight vertices. */
  lemma CubeIndicesWithin(v: int)
    ensures forall x :: x in CubeIndices(v) ==> v <= x < v + 8
  {
    CubeIndicesFresh(v);
  }

  // ---------------------------------------------------------------------
  // Many cubes

  /** The vertices of two lists of cubes, one after the other. */
  lemma {:induction false} CubesVerticesAppend(multiplyPoint: PointMap, a: seq<Matrix>, b: seq<Matrix>)
    ensures CubesVertices(multiplyPoint, a + b) == CubesVertices(multiplyPoint, a) + CubesVertices(multiplyPoint, b)
    decreases |b|
  {
    if b != [] {
      var k := |b| - 1;
      assert (a + b)[..|a + b| - 1] == a + b[..k];
      CubesVerticesAppend(multiplyPoint, a, b[..k]);
    } else {
      assert a + b == a;
    }
  }

  /** The triangles of two batches of cubes, the second batch's vertices after the first's. */
  lemma {:induction false} CubesIndicesAppend(base: int, c1: nat, c2: nat)
    ensures CubesIndices(base, c1 + c2) == CubesIndices(base, c1) + CubesIndices(base + 8 * c1, c2)
    decreases c2
  {
    if c2 > 0 {
      CubesIndicesAppend(base, c1, c2 - 1);
    }
  }

  /** Adding two batches of cubes is adding them all at once. */
  lemma WithCubesAppend(m: MeshData, multiplyPoint: PointMap, a: seq<Matrix>, b: seq<Matrix>)
    ensures WithCubes(WithCubes(m, multiplyPoint, a), multiplyPoint, b) == WithCubes(m, multiplyPoint, a + b)
  {
    CubesVerticesAppend(multiplyPoint, a, b);
    CubesIndicesAppend(|m.vertices|, |a|, |b|);
    BlankSplit(8 * |a|, 8 * |b|);
    GrowsTwice(m, CubesVertices(multiplyPoint, a), CubesVertices(multiplyPoint, b), Blank(8 * |a|), Blank(8 * |b|),
      CubesIndices(|m.vertices|, |a|), CubesIndices(|m.vertices| + 8 * |a|, |b|));
  }

  /** Two appends to each list of a mesh are one append of both parts. */
  lemma GrowsTwice(m: MeshData, va: seq<Vec3>, vb: seq<Vec3>, ua: seq<Vec2>, ub: seq<Vec2>, ta: seq<int>, tb: seq<int>)
    ensures MeshData(m.vertices + va + vb, m.uvs + ua + ub, m.triangles + ta + tb)
      == MeshData(m.vertices + (va + vb), m.uvs + (ua + ub), m.triangles + (ta + tb))
  {
    assert m.vertices + va + vb == m.vertices + (va + vb);
    assert m.uvs + ua + ub == m.uvs + (ua + ub);
    assert m.triangles + ta + tb == m.triangles + (ta + tb);
  }

  /** One cube: its eight vertices, eight blank uvs and its twelve triangles on the old vertex count. */
  lemma WithOneCube(m: MeshData, multiplyPoint: PointMap, transformation: Matrix)
    ensures WithCubes(m, multiplyPoint, [transformation])
      == MeshData(m.vertices + CubeVertices(multiplyPoint, transformation), m.uvs + Blank(8),
           m.triangles + CubeIndices(|m.vertices|))
  {
    assert [transformation][..0] == [];
    assert CubesIndices(|m.vertices|, 1) == CubeIndices(|m.vertices|);
  }

  /** Cube `i` of a batch uses only its own eight vertices, `base + 8i .. base + 8i + 7`. */
  lemma {:induction false} CubesIndicesAt(base: int, count: nat, i: int)
    requires 0 <= i < count
    ensures CubesIndices(base, count)[36 * i .. 36 * i + 36] == CubeIndices(base + 8 * i)
    decreases count
  {
    if i < count - 1 {
      CubesIndicesAt(base, count - 1, i);
      EarlierCubeIndices(base, count, i);
    } else {
      LastCubeIndices(base, count, i);
    }
  }

  /** A cube before the last keeps its block when the last cube's indices are appended. */
  lemma EarlierCubeIndices(base: int, count: nat, i: int)
    requires 0 <= i < count - 1
    requires CubesIndices(base, count - 1)[36 * i .. 36 * i + 36] == CubeIndices(base + 8 * i)
    ensures CubesIndices(base, count)[36 * i .. 36 * i + 36] == CubeIndices(base + 8 * i)
  {
    SliceOfFront(CubesIndices(base, count - 1), CubeIndices(base + 8 * (count - 1)), 36 * i, 36 * i + 36);
  }

  /** The last cube of a batch is the last block of its indices. */
  lemma LastCubeIndices(base: int, count: nat, i: int)
    requires 0 <= i && i == count - 1
    ensures CubesIndices(base, count)[36 * i .. 36 * i + 36] == CubeIndices(base + 8 * i)
  {
    SliceOfBack(CubesIndices(base, i), CubeIndices(base + 8 * i));
  }

  /** Every index of a batch of cubes is one of the batch's `8 * count` vertices. */
  lemma {:induction false} CubesIndicesInBatch(base: int, count: nat)
    ensures forall x :: x in CubesIndices(base, count) ==> base <= x < base + 8 * count
    decreases count
  {
    if count > 0 {
      CubesIndicesInBatch(base, count - 1);
      CubeIndicesWithin(base + 8 * (count - 1));
    }
  }

  /** Cubes added to a well-formed mesh keep it well formed: every index addresses a vertex. */
  lemma WithCubesIsWellFormed(m: MeshData, multiplyPoint: PointMap, transformations: seq<Matrix>)
    requires m.Wf() && m.IndicesValid()
    ensures var m' := WithCubes(m, multiplyPoint, transformations);
      m'.Wf() && m'.IndicesValid() && |m'.vertices| == |m.vertices| + 8 * |transformations|
  {
    var m' := WithCubes(m, multiplyPoint, transformations);
    var added := CubesIndices(|m.vertices|, |transformations|);
    CubesIndicesInBatch(|m.vertices|, |transformations|);
    forall k | 0 <= k < |m'.triangles|
      ensures 0 <= m'.triangles[k] < |m'.vertices|
    {
      if k >= |m.triangles| {
        assert m'.triangles[k] == added[k - |m.triangles|];
        assert added[k - |m.triangles|] in added;
      }
    }
  }

  // ---------------------------------------------------------------------
  // The transformations of a series and of a tree

  /** The transformation of cube `k` of a series: the start times the steps so far, cycling through them. */
  function SeriesTransform(start: Matrix, steps: seq<Matrix>, k: nat): Matrix
    requires steps != [] || k == 0
  {
    if k == 0 then start
    else Times(SeriesTransform(start, steps, k - 1), steps[(k - 1) % |steps|])
  }

  /** The transformations of the first `count` cubes of a series. */
  function Series(start: Matrix, steps: seq<Matrix>, count: nat): (ts: seq<Matrix>)
    requires steps != [] || count <= 1
    ensures |ts| == count
  {
    if count == 0 then [] else Series(start, steps, count - 1) + [SeriesTransform(start, steps, count - 1)]
  }

  /** Cube `k` of a series has the `k`-th transformation. */
  lemma {:induction false} SeriesAt(start: Matrix, steps: seq<Matrix>, count: nat)
    requires steps != [] || count <= 1
    ensures forall k :: 0 <= k < count ==> Series(start, steps, count)[k] == SeriesTransform(start, steps, k)
  {
    if count > 0 {
      SeriesAt(start, steps, count - 1);
    }
  }

  /** The number of cubes a series of `steps` steps adds: one per step; a failing modulo after the first cube stops it. */
  function SeriesLength(stepList: seq<Matrix>, steps: int): nat
  {
    if steps <= 0 then 0 else if stepList == [] then 1 else steps
  }

  /**
   * The transformations of AddCubeTree's cubes, in the order it adds them:
   * the cube itself, then for each step the subtree of the cube times that
   * step, one level shallower.
   */
  function Tree(current: Matrix, steps: seq<Matrix>, depth: int): (ts: seq<Matrix>)
    requires depth >= 0 || steps == []
    ensures |ts| >= 1 && ts[0] == current
    decreases if depth >= 0 then depth else 0, 1, 0
  {
    [current] + (if depth == 0 then [] else Branches(current, steps, depth, |steps|))
  }

  /** The subtrees of the first `k` steps. */
  function Branches(current: Matrix, steps: seq<Matrix>, depth: int, k: nat): seq<Matrix>
    requires depth != 0 && (depth >= 0 || steps == []) && k <= |steps|
    decreases if depth >= 0 then depth else 0, 0, k
  {
    if k == 0 then []
    else Branches(current, steps, depth, k - 1) + Tree(Times(current, steps[k - 1]), steps, depth - 1)
  }

  /** `1 + k + k^2 + ... + k^depth`. */
  function GeometricSum(k: nat, depth: nat): nat
  {
    if depth == 0 then 1 else GeometricSum(k, depth - 1) + Power(k, depth)
  }

  /** `k^d`. */
  function Power(k: nat, d: nat): nat
  {
    if d == 0 then 1 else k * Power(k, d - 1)
  }

  /** The geometric sum unrolled from the front: `1 + k * (1 + k + ... + k^(depth - 1))`. */
  lemma {:induction false} GeometricSumFront(k: nat, depth: nat)
    requires depth >= 1
    ensures GeometricSum(k, depth) == 1 + k * GeometricSum(k, depth - 1)
    decreases depth
  {
    if depth > 1 {
      GeometricSumFront(k, depth - 1);
      var rest, top := GeometricSum(k, depth - 2), Power(k, depth - 1);
      assert GeometricSum(k, depth - 1) == rest + top;
      assert Power(k, depth) == k * top;
      Distribute(k, rest, top);
    } else {
      assert Power(k, 1) == k * Power(k, 0);
    }
  }

  /** `(k - 1) * g + g == k * g`. */
  lemma MultiplySuccessor(k: int, g: int)
    ensures (k - 1) * g + g == k * g
  {
  }

  /** `k * (x + y) == k * x + k * y`. */
  lemma Distribute(k: int, x: int, y: int)
    ensures k * (x + y) == k * x + k * y
  {
  }

  /** Every branch of a tree of the same depth has the same number of cubes. */
  lemma {:induction false} BranchesCount(current: Matrix, steps: seq<Matrix>, depth: nat, k: nat)
    requires depth >= 1 && k <= |steps|
    ensures |Branches(current, steps, depth, k)| == k * GeometricSum(|steps|, depth - 1)
    decreases depth, 0, k
  {
    if k > 0 {
      BranchesCount(current, steps, depth, k - 1);
      TreeCount(Times(current, steps[k - 1]), steps, depth - 1);
      MultiplySuccessor(k, GeometricSum(|steps|, depth - 1));
    }
  }

  /** With `n` steps and depth `d >= 0`, AddCubeTree adds `1 + n + n^2 + ... + n^d` cubes. */
  lemma {:induction false} TreeCount(current: Matrix, steps: seq<Matrix>, depth: nat)
    ensures |Tree(current, steps, depth)| == GeometricSum(|steps|, depth)
    decreases depth, 1, 0
  {
    if depth > 0 {
      BranchesCount(current, steps, depth, |steps|);
      GeometricSumFront(|steps|, depth);
    }
  }

  // ---------------------------------------------------------------------
  // The step lists UpdateMesh chooses

  /** The stack types of the inspector. */
  datatype StackType = Shrink | Rotate | TreeStack | Custom

  /** How the cubes are combined: a tree (Branch) or a series (Alternate). */
  datatype CombinationType = Branch | Alternate

  const Up := Vec3(0.0, 1.0, 0.0)
  const NoRotation := Vec3(0.0, 0.0, 0.0)
  const UnitScale := Vec3(1.0, 1.0, 1.0)

  /** The default steps of each stack type when no scene transforms are used. */
  function StackSteps(stackType: StackType): (steps: seq<Matrix>)
    ensures |steps| == if stackType == TreeStack then 2 else 1
  {
    match stackType
    case Shrink => [Trs(Vec3(0.0, 0.95, 0.0), NoRotation, Vec3(0.9, 0.9, 0.9))]
    case Rotate => [Trs(Up, Vec3(0.0, 10.0, 0.0), UnitScale)]
    case TreeStack =>
      [Trs(Vec3(-0.5, 0.75, 0.0), NoRotation, Vec3(0.5, 0.5, 0.5)),
       Trs(Vec3(0.5, 0.75, 0.0), NoRotation, Vec3(0.5, 0.5, 0.5))]
    case Custom => [Trs(Up, NoRotation, UnitScale)]
  }

  // ---------------------------------------------------------------------
  // The methods

  /** AddCube: the eight corners under the transformation, then twelve triangles on them. */
  method AddCube(builder: MeshBuilder, multiplyPoint: PointMap, transformation: Matrix)
    requires builder.Valid() && builder.Settings() == DefaultConfig
    modifies builder
    ensures builder.Valid() && builder.Settings() == DefaultConfig
    ensures builder.Data() == WithCubes(old(builder.Data()), multiplyPoint, [transformation])
  {
    ghost var m0 := builder.Data();
    var v1, v2, v3, v4, v5, v6, v7, v8 := AddCubeCorners(builder, multiplyPoint, transformation);
    ghost var m1 := builder.Data();
    AddCubeFaces(builder, v1, v2, v3, v4, v5, v6, v7, v8);
    CubeTrianglesInOrder(m1.triangles, builder.triangles, v1);
    WithOneCube(m0, multiplyPoint, transformation);
  }

  /** The first half of AddCube: its eight AddVertex calls, numbered from the old vertex count. */
  method AddCubeCorners(builder: MeshBuilder, multiplyPoint: PointMap, transformation: Matrix)
    returns (v1: int, v2: int, v3: int, v4: int, v5: int, v6: int, v7: int, v8: int)
    requires builder.Valid() && builder.Settings() == DefaultConfig
    modifies builder
    ensures builder.Valid() && builder.Settings() == DefaultConfig
    ensures var v := |old(builder.vertices)|;
      v1 == v && v2 == v + 1 && v3 == v + 2 && v4 == v + 3 && v5 == v + 4 && v6 == v + 5 && v7 == v + 6 && v8 == v + 7
    ensures builder.Data() == MeshData(old(builder.vertices) + CubeVertices(multiplyPoint, transformation),
      old(builder.uvs) + Blank(8), old(builder.triangles))
  {
    ghost var m0 := builder.Data();
    v1 := AddPlainVertex(builder, multiplyPoint(transformation, CubeCorners[0]));
    v2 := AddPlainVertex(builder, multiplyPoint(transformation, CubeCorners[1]));
    v3 := AddPlainVertex(builder, multiplyPoint(transformation, CubeCorners[2]));
    v4 := AddPlainVertex(builder, multiplyPoint(transformation, CubeCorners[3]));
    v5 := AddPlainVertex(builder, multiplyPoint(transformation, CubeCorners[4]));
    v6 := AddPlainVertex(builder, multiplyPoint(transformation, CubeCorners[5]));
    v7 := AddPlainVertex(builder, multiplyPoint(transformation, CubeCorners[6]));
    v8 := AddPlainVertex(builder, multiplyPoint(transformation, CubeCorners[7]));
    CubeVerticesInOrder(m0, builder.Data(), multiplyPoint, transformation);
  }

  /** The second half of AddCube: its twelve AddTriangle calls. */
  method AddCubeFaces(builder: MeshBuilder, v1: int, v2: int, v3: int, v4: int, v5: int, v6: int, v7: int, v8: int)
    requires builder.Valid() && builder.Settings() == DefaultConfig
    modifies builder
    ensures builder.Valid() && builder.Settings() == DefaultConfig
    ensures builder.Data() == old(builder.Data()).(triangles := old(builder.triangles)
      + [v1, v2, v3] + [v2, v4, v3] + [v1, v3, v5] + [v3, v7, v5] + [v1, v5, v2] + [v2, v5, v6]
      + [v5, v7, v6] + [v6, v7, v8] + [v2, v6, v4] + [v4, v6, v8] + [v3, v4, v7] + [v4, v8, v7])
  {
    AddPlainTriangle(builder, v1, v2, v3);
    AddPlainTriangle(builder, v2, v4, v3);
    AddPlainTriangle(builder, v1, v3, v5);
    AddPlainTriangle(builder, v3, v7, v5);
    AddPlainTriangle(builder, v1, v5, v2);
    AddPlainTriangle(builder, v2, v5, v6);
    AddPlainTriangle(builder, v5, v7, v6);
    AddPlainTriangle(builder, v6, v7, v8);
    AddPlainTriangle(builder, v2, v6, v4);
    AddPlainTriangle(builder, v4, v6, v8);
    AddPlainTriangle(builder, v3, v4, v7);
    AddPlainTriangle(builder, v4, v8, v7);
  }

  /** Eight vertices added one after another are the cube's vertices. */
  lemma CubeVerticesInOrder(m0: MeshData, m1: MeshData, multiplyPoint: PointMap, transformation: Matrix)
    requires var c := CubeCorners; var t := transformation;
      m1 == MeshData(m0.vertices + [multiplyPoint(t, c[0])] + [multiplyPoint(t, c[1])] + [multiplyPoint(t, c[2])]
        + [multiplyPoint(t, c[3])] + [multiplyPoint(t, c[4])] + [multiplyPoint(t, c[5])] + [multiplyPoint(t, c[6])]
        + [multiplyPoint(t, c[7])],
        m0.uvs + [Zero2] + [Zero2] + [Zero2] + [Zero2] + [Zero2] + [Zero2] + [Zero2] + [Zero2], m0.triangles)
    ensures m1 == MeshData(m0.vertices + CubeVertices(multiplyPoint, transformation), m0.uvs + Blank(8), m0.triangles)
  {
  }

  /** The cube's triangles are the table moved to the cube's first vertex. */
  lemma CubeIndicesWritten(v: int)
    ensures CubeIndices(v) == [v, v + 1, v + 2, v + 1, v + 3, v + 2, v, v + 2, v + 4, v + 2, v + 6, v + 4,
      v, v + 4, v + 1, v + 1, v + 4, v + 5, v + 4, v + 6, v + 5, v + 5, v + 6, v + 7,
      v + 1, v + 5, v + 3, v + 3, v + 5, v + 7, v + 2, v + 3, v + 6, v + 3, v + 7, v + 6]
  {
  }

  /** The same, written out in two halves. */
  lemma CubeIndicesFlat(v: int)
    ensures CubeIndices(v) == [v, v + 1, v + 2, v + 1, v + 3, v + 2, v, v + 2, v + 4, v + 2, v + 6, v + 4,
      v, v + 4, v + 1, v + 1, v + 4, v + 5]
      + [v + 4, v + 6, v + 5, v + 5, v + 6, v + 7,
      v + 1, v + 5, v + 3, v + 3, v + 5, v + 7, v + 2, v + 3, v + 6, v + 3, v + 7, v + 6]
  {
    CubeIndicesWritten(v);
  }

  /** The first six triangles AddCube appends, written out. */
  lemma CubeFrontHalf(v: int)
    ensures [v, v + 1, v + 2] + [v + 1, v + 3, v + 2] + [v, v + 2, v + 4] + [v + 2, v + 6, v + 4]
      + [v, v + 4, v + 1] + [v + 1, v + 4, v + 5] == [v, v + 1, v + 2, v + 1, v + 3, v + 2, v, v + 2, v + 4, v + 2, v + 6, v + 4,
      v, v + 4, v + 1, v + 1, v + 4, v + 5]
  {
  }

  /** The last six triangles AddCube appends, written out. */
  lemma CubeBackHalf(v: int)
    ensures [v + 4, v + 6, v + 5] + [v + 5, v + 6, v + 7] + [v + 1, v + 5, v + 3] + [v + 3, v + 5, v + 7]
      + [v + 2, v + 3, v + 6] + [v + 3, v + 7, v + 6] == [v + 4, v + 6, v + 5, v + 5, v + 6, v + 7,
      v + 1, v + 5, v + 3, v + 3, v + 5, v + 7, v + 2, v + 3, v + 6, v + 3, v + 7, v + 6]
  {
  }

  /** Appending parts one after another is appending them all at once. */
  lemma AppendRegroups(s: seq<int>, front: seq<int>, part: seq<int>)
    ensures s + front + part == s + (front + part)
  {
  }

  /** Twelve triangles appended one after another are the cube's triangles. */
  lemma CubeTrianglesInOrder(t0: seq<int>, t1: seq<int>, v: int)
    requires t1 == t0 + [v, v + 1, v + 2] + [v + 1, v + 3, v + 2] + [v, v + 2, v + 4] + [v + 2, v + 6, v + 4]
      + [v, v + 4, v + 1] + [v + 1, v + 4, v + 5] + [v + 4, v + 6, v + 5] + [v + 5, v + 6, v + 7]
      + [v + 1, v + 5, v + 3] + [v + 3, v + 5, v + 7] + [v + 2, v + 3, v + 6] + [v + 3, v + 7, v + 6]
    ensures t1 == t0 + CubeIndices(v)
  {
    var x1, x2, x3, x4 := [v, v + 1, v + 2], [v + 1, v + 3, v + 2], [v, v + 2, v + 4], [v + 2, v + 6, v + 4];
    var x5, x6, x7, x8 := [v, v + 4, v + 1], [v + 1, v + 4, v + 5], [v + 4, v + 6, v + 5], [v + 5, v + 6, v + 7];
    var x9, x10, x11, x12 := [v + 1, v + 5, v + 3], [v + 3, v + 5, v + 7], [v + 2, v + 3, v + 6], [v + 3, v + 7, v + 6];
    // the first six onto t0
    AppendRegroups(t0, x1, x2);
    AppendRegroups(t0, x1 + x2, x3);
    AppendRegroups(t0, x1 + x2 + x3, x4);
    AppendRegroups(t0, x1 + x2 + x3 + x4, x5);
    AppendRegroups(t0, x1 + x2 + x3 + x4 + x5, x6);
    var front := x1 + x2 + x3 + x4 + x5 + x6;
    // the last six onto that
    var t6 := t0 + front;
    AppendRegroups(t6, x7, x8);
    AppendRegroups(t6, x7 + x8, x9);
    AppendRegroups(t6, x7 + x8 + x9, x10);
    AppendRegroups(t6, x7 + x8 + x9 + x10, x11);
    AppendRegroups(t6, x7 + x8 + x9 + x10 + x11, x12);
    var back := x7 + x8 + x9 + x10 + x11 + x12;
    AppendRegroups(t0, front, back);
    CubeFrontHalf(v);
    CubeBackHalf(v);
    CubeIndicesFlat(v);
  }

  /** The next cube of a series, added after the first `k`, makes the first `k + 1`. */
  lemma SeriesGrows(m: MeshData, before: MeshData, after: MeshData, multiplyPoint: PointMap, start: Matrix,
    steps: seq<Matrix>, k: nat, current: Matrix)
    requires steps != [] || k == 0
    requires current == SeriesTransform(start, steps, k)
    requires before == WithCubes(m, multiplyPoint, Series(start, steps, k))
    requires after == WithCubes(before, multiplyPoint, [current])
    ensures after == WithCubes(m, multiplyPoint, Series(start, steps, k + 1))
  {
    WithCubesAppend(m, multiplyPoint, Series(start, steps, k), [current]);
  }

  /** The next transform of a series is the current one times the step its index selects. */
  lemma SeriesStep(start: Matrix, steps: seq<Matrix>, k: nat, current: Matrix, next: Matrix)
    requires steps != [] && current == SeriesTransform(start, steps, k)
    requires next == Times(current, steps[k % |steps|])
    ensures next == SeriesTransform(start, steps, k + 1)
  {
  }

  /**
   * AddCubeSeries: `steps` cubes, each transformation the previous one times
   * the next step. With no steps at all the modulo divides by zero after
   * the first cube: `thrown` reports that exception.
   */
  method AddCubeSeries(builder: MeshBuilder, multiplyPoint: PointMap, currentTransformation: Matrix,
    nextTransformationSteps: seq<Matrix>, steps: int) returns (thrown: bool)
    requires builder.Valid() && builder.Settings() == DefaultConfig
    modifies builder
    ensures builder.Valid() && builder.Settings() == DefaultConfig
    ensures thrown <==> steps > 0 && nextTransformationSteps == []
    ensures var count := SeriesLength(nextTransformationSteps, steps);
      builder.Data() == WithCubes(old(builder.Data()), multiplyPoint,
        Series(currentTransformation, nextTransformationSteps, count))
  {
    ghost var m0 := builder.Data();
    var current := currentTransformation;
    var currentStep := 0;
    while currentStep < steps
      invariant 0 <= currentStep <= if steps > 0 then steps else 0
      invariant nextTransformationSteps == [] ==> currentStep == 0
      invariant builder.Valid() && builder.Settings() == DefaultConfig
      invariant current == SeriesTransform(currentTransformation, nextTransformationSteps, currentStep)
      invariant builder.Data() == WithCubes(m0, multiplyPoint, Series(currentTransformation, nextTransformationSteps, currentStep))
    {
      AddSeriesCube(builder, multiplyPoint, m0, currentTransformation, nextTransformationSteps, currentStep, current);
      if nextTransformationSteps == [] {
        return true;
      }
      ghost var previous := current;
      current := Times(current, nextTransformationSteps[currentStep % |nextTransformationSteps|]);
      SeriesStep(currentTransformation, nextTransformationSteps, currentStep, previous, current);
      currentStep := currentStep + 1;
    }
    return false;
  }

  /** One pass of AddCubeSeries' loop: the cube with the series' `k`-th transformation. */
  method AddSeriesCube(builder: MeshBuilder, multiplyPoint: PointMap, ghost m0: MeshData, start: Matrix,
    steps: seq<Matrix>, k: nat, current: Matrix)
    requires builder.Valid() && builder.Settings() == DefaultConfig
    requires (steps != [] || k == 0) && current == SeriesTransform(start, steps, k)
    requires builder.Data() == WithCubes(m0, multiplyPoint, Series(start, steps, k))
    modifies builder
    ensures builder.Valid() && builder.Settings() == DefaultConfig
    ensures builder.Data() == WithCubes(m0, multiplyPoint, Series(start, steps, k + 1))
  {
    ghost var before := builder.Data();
    AddCube(builder, multiplyPoint, current);
    SeriesGrows(m0, before, builder.Data(), multiplyPoint, start, steps, k, current);
  }

  /** AddCubeTree: this cube, then the tree one level shallower for each step. */
  method AddCubeTree(builder: MeshBuilder, multiplyPoint: PointMap, currentTransformation: Matrix,
    nextTransformationSteps: seq<Matrix>, steps: int)
    requires builder.Valid() && builder.Settings() == DefaultConfig
    requires steps >= 0 || nextTransformationSteps == []
    modifies builder
    ensures builder.Valid() && builder.Settings() == DefaultConfig
    ensures builder.Data()
      == WithCubes(old(builder.Data()), multiplyPoint, Tree(currentTransformation, nextTransformationSteps, steps))
    decreases if steps >= 0 then steps else 0, 1
  {
    ghost var m0 := builder.Data();
    AddCube(builder, multiplyPoint, currentTransformation);
    if steps == 0 {
      return;
    }
    AddSubtrees(builder, multiplyPoint, currentTransformation, nextTransformationSteps, steps);
    TreeAssembled(m0, multiplyPoint, currentTransformation, nextTransformationSteps, steps);
  }

  /** The loop of AddCubeTree: the subtree of the cube times each step, in step order. */
  method AddSubtrees(builder: MeshBuilder, multiplyPoint: PointMap, currentTransformation: Matrix,
    nextTransformationSteps: seq<Matrix>, steps: int)
    requires builder.Valid() && builder.Settings() == DefaultConfig
    requires steps != 0 && (steps >= 0 || nextTransformationSteps == [])
    modifies builder
    ensures builder.Valid() && builder.Settings() == DefaultConfig
    ensures builder.Data() == WithCubes(old(builder.Data()), multiplyPoint,
      Branches(currentTransformation, nextTransformationSteps, steps, |nextTransformationSteps|))
    decreases if steps >= 0 then steps else 0, 0
  {
    ghost var m1 := builder.Data();
    for k := 0 to |nextTransformationSteps|
      invariant builder.Valid() && builder.Settings() == DefaultConfig
      invariant builder.Data()
        == WithCubes(m1, multiplyPoint, Branches(currentTransformation, nextTransformationSteps, steps, k))
    {
      ghost var before := builder.Data();
      var transf := nextTransformationSteps[k];
      AddCubeTree(builder, multiplyPoint, Times(currentTransformation, transf), nextTransformationSteps, steps - 1);
      BranchesGrow(m1, before, builder.Data(), multiplyPoint, currentTransformation, nextTransformationSteps, steps, k);
    }
  }

  /** One more subtree after the first `k` is the first `k + 1`. */
  lemma BranchesGrow(m: MeshData, before: MeshData, after: MeshData, multiplyPoint: PointMap, current: Matrix,
    steps: seq<Matrix>, depth: int, k: nat)
    requires depth != 0 && (depth >= 0 || steps == []) && k < |steps|
    requires before == WithCubes(m, multiplyPoint, Branches(current, steps, depth, k))
    requires after == WithCubes(before, multiplyPoint, Tree(Times(current, steps[k]), steps, depth - 1))
    ensures after == WithCubes(m, multiplyPoint, Branches(current, steps, depth, k + 1))
  {
    WithCubesAppend(m, multiplyPoint, Branches(current, steps, depth, k), Tree(Times(current, steps[k]), steps, depth - 1));
  }

  /** The cube itself and then all its subtrees make up the tree. */
  lemma TreeAssembled(m: MeshData, multiplyPoint: PointMap, current: Matrix, steps: seq<Matrix>, depth: int)
    requires depth != 0 && (depth >= 0 || steps == [])
    ensures WithCubes(WithCubes(m, multiplyPoint, [current]), multiplyPoint, Branches(current, steps, depth, |steps|))
      == WithCubes(m, multiplyPoint, Tree(current, steps, depth))
  {
    WithCubesAppend(m, multiplyPoint, [current], Branches(current, steps, depth, |steps|));
  }

  /**
   * UpdateMesh: the steps come from the scene's transforms or from the
   * stack type, then a tree (Branch) or a series (Alternate) from the
   * identity on a new builder. `thrown` reports the series' division by
   * zero, which leaves the mesh component without the new mesh.
   */
  method UpdateMesh(multiplyPoint: PointMap, useSceneTransforms: bool, sceneTransforms: seq<Matrix>,
    stackType: StackType, combinationType: CombinationType, numberOfSteps: int)
    returns (builder: MeshBuilder, thrown: bool)
    requires combinationType == Branch ==> numberOfSteps >= 0 || (useSceneTransforms && sceneTransforms == [])
    ensures fresh(builder) && builder.Valid() && builder.Settings() == DefaultConfig
    ensures thrown <==> combinationType == Alternate && numberOfSteps > 0 && useSceneTransforms && sceneTransforms == []
    ensures var steps := if useSceneTransforms then sceneTransforms else StackSteps(stackType);
      builder.Data() == WithCubes(EmptyMesh, multiplyPoint,
        if combinationType == Branch then Tree(Identity, steps, numberOfSteps)
        else Series(Identity, steps, SeriesLength(steps, numberOfSteps)))
  {
    builder := new MeshBuilder();
    var transformationSteps := if useSceneTransforms then sceneTransforms else StackSteps(stackType);
    if combinationType == Branch {
      AddCubeTree(builder, multiplyPoint, Identity, transformationSteps, numberOfSteps);
      thrown := false;
    } else {
      thrown := AddCubeSeries(builder, multiplyPoint, Identity, transformationSteps, numberOfSteps);
    }
  }
}
