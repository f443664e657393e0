/**
 * Extrude: a second copy of the ear clipper, which restarts its scan after
 * every ear, and the prism UpdateMesh builds from the triangulation of a
 * polygon: the front face at depth 0, the back face at depth `height` wound
 * the other way, and two triangles on four fresh vertices for every edge.
 */
module Extrusion {
  import opened Geometry
  import opened Wrappers
  import opened MeshModel
  import opened EarClipping
  import opened Lists
  import opened MeshBuilding

  // ---------------------------------------------------------------------
  // TriangulatePolygon

  /**
   * Extrude.TriangulatePolygon. The C# method appends to a list its caller
   * passes in (UpdateMesh passes a new, empty one); here the appended
   * indices are returned. Fewer than two points, or a pass without an ear,
   * is the exception the C# code throws: `status` says which.
   */
  method TriangulatePolygon(points: seq<Vec2>, indices: seq<int>)
    returns (status: Status, triangles: seq<int>, pointsLeft: seq<Vec2>, indicesLeft: seq<int>)
    requires |indices| == |points|
    ensures Triangulate(points, indices) == Outcome(triangles, pointsLeft, indicesLeft, status)
  {
    ghost var expected := Triangulate(points, indices);
    if |points| < 2 {
      return TooFewPoints, [], points, indices;
    }
    var pts, idx := points, indices;
    triangles := [];
    var i := 0;
    while i < |pts|
      invariant ScanReaches(Restart, pts, idx, i, triangles, expected)
      decreases |pts|, |pts| - i
    {
      var n := |pts|;
      var i2 := (i + 1) % n;
      var i3 := (i + 2) % n;
      NextNext(n, i);
      var isEar := EarAt(pts, i);
      if !isEar {
        ReachesPastSkip(Restart, pts, idx, i, triangles, expected);
        i := i + 1;
        continue;
      }
      EarHasThreeCorners(pts, i);
      if n == 3 {
        ReachesFinish(Restart, pts, idx, i, triangles, expected);
      } else {
        ReachesPastClip(Restart, pts, idx, i, triangles, expected);
      }
      triangles := triangles + [idx[i], idx[i2], idx[i3]];
      pts := RemoveAt(pts, i2);
      idx := RemoveAt(idx, i2);
      if |pts| < 3 {
        return Triangulated, triangles, pts, idx;
      }
      i := 0;
    }
    ReachesEnd(Restart, pts, idx, triangles, expected);
    return NoEarFound, triangles, pts, idx;
  }

  /** An ear needs three corners: with two, the "third" corner is the first again. */
  lemma EarHasThreeCorners(pts: seq<Vec2>, i: int)
    requires IsEar(pts, i)
    ensures |pts| >= 3
  {
    if |pts| <= 2 {
      NoEarBelowThree(pts, i);
    }
  }

  // ---------------------------------------------------------------------
  // The prism UpdateMesh builds

  /** The indices `0 .. n-1` UpdateMesh numbers the polygon's corners with. */
  function Iota(n: nat): (r: seq<int>)
    ensures |r| == n && forall k :: 0 <= k < n ==> r[k] == k
  {
    seq(n, k => k)
  }

  /** Corner `i` of the polygon, lifted to depth `z`. */
  function Corner(polygon: seq<Vec2>, i: int, z: real): Vec3
    requires 0 <= i < |polygon|
  {
    Vec3(polygon[i].x, polygon[i].y, z)
  }

  /** The polygon at depth `z`, one vertex per corner. */
  function Face(polygon: seq<Vec2>, z: real): (vs: seq<Vec3>)
    ensures |vs| == |polygon|
  {
    seq(|polygon|, i requires 0 <= i < |polygon| => Corner(polygon, i, z))
  }

  /** The back face: each front triangle shifted by `n` and wound the other way. */
  function BackFace(ts: seq<int>, n: int): (r: seq<int>)
    ensures |r| == |ts| - |ts| % 3
    decreases |ts|
  {
    if |ts| < 3 then []
    else
      var k := |ts| - 3;
      BackFace(ts[..k], n) + [n + ts[k + 2], n + ts[k + 1], n + ts[k]]
  }

  /**
   * The side vertices of the first `count` edges: for edge `i` to the next
   * corner `j`, the front vertices of `i` and `j`, then the back ones.
   */
  function SideVertices(polygon: seq<Vec2>, height: real, count: nat): (vs: seq<Vec3>)
    requires count <= |polygon|
    ensures |vs| == 4 * count
  {
    if count == 0 then []
    else
      var i := count - 1;
      var j := Next(|polygon|, i);
      SideVertices(polygon, height, i)
        + [Corner(polygon, i, 0.0), Corner(polygon, j, 0.0), Corner(polygon, i, height), Corner(polygon, j, height)]
  }

  /** The two side triangles of the first `count` edges, whose vertices start at `base`. */
  function SideTriangles(base: int, count: nat): (r: seq<int>)
    ensures |r| == 6 * count
  {
    if count == 0 then []
    else
      var v := base + 4 * (count - 1);
      SideTriangles(base, count - 1) + [v, v + 2, v + 1, v + 1, v + 2, v + 3]
  }

  /** The mesh UpdateMesh builds for a polygon, its depth, and the triangulation of its front face. */
  function Prism(polygon: seq<Vec2>, height: real, ts: seq<int>): MeshData
  {
    var n := |polygon|;
    MeshData(Face(polygon, 0.0) + Face(polygon, height) + SideVertices(polygon, height, n),
      Blank(6 * n),
      ts + BackFace(ts, n) + SideTriangles(2 * n, n))
  }

  // ---------------------------------------------------------------------
  // What the prism is made of

  /** Back triangle `t` is front triangle `t` shifted by `n` with its last and first corners swapped. */
  lemma {:induction false} BackFaceMirrors(ts: seq<int>, n: int, t: int)
    requires |ts| % 3 == 0 && 0 <= t < |ts| / 3
    ensures BackFace(ts, n)[3 * t .. 3 * t + 3] == [n + ts[3 * t + 2], n + ts[3 * t + 1], n + ts[3 * t]]
    decreases |ts|
  {
    var k := |ts| - 3;
    if 3 * t < k {
      BackFaceMirrors(ts[..k], n, t);
    }
  }

  /** Front indices in `[0, n)` give back indices in `[n, 2n)`. */
  lemma {:induction false} BackFaceRange(ts: seq<int>, n: int)
    requires |ts| % 3 == 0 && forall x :: x in ts ==> 0 <= x < n
    ensures forall x :: x in BackFace(ts, n) ==> n <= x < 2 * n
    decreases |ts|
  {
    if ts != [] {
      var k := |ts| - 3;
      assert forall x :: x in ts[..k] ==> x in ts;
      BackFaceRange(ts[..k], n);
      assert ts[k] in ts && ts[k + 1] in ts && ts[k + 2] in ts;
    }
  }

  /** Side vertex `4i + r` of edge `i`: corner `i` or the next one, at the front or the back. */
  lemma {:induction false} SideVertexAt(polygon: seq<Vec2>, height: real, count: nat, i: int, r: int)
    requires count <= |polygon| && 0 <= i < count && 0 <= r < 4
    ensures var j := Next(|polygon|, i);
      SideVertices(polygon, height, count)[4 * i + r]
        == Corner(polygon, if r % 2 == 0 then i else j, if r < 2 then 0.0 else height)
    decreases count
  {
    if i < count - 1 {
      SideVertexAt(polygon, height, count - 1, i, r);
    }
  }

  /**
   * Edge `i`'s two side triangles: (front i, back i, front j) and
   * (front j, back i, back j), on the four vertices from `base + 4i`.
   */
  lemma {:induction false} SideTrianglesAt(base: int, count: nat, i: int)
    requires 0 <= i < count
    ensures var v := base + 4 * i;
      SideTriangles(base, count)[6 * i .. 6 * i + 6] == [v, v + 2, v + 1, v + 1, v + 2, v + 3]
    decreases count
  {
    if i < count - 1 {
      SideTrianglesAt(base, count - 1, i);
    }
  }

  /** Every side triangle uses only the side vertices: indices in `[base, base + 4 count)`. */
  lemma {:induction false} SideTrianglesRange(base: int, count: nat)
    ensures forall x :: x in SideTriangles(base, count) ==> base <= x < base + 4 * count
    decreases count
  {
    if count > 0 {
      SideTrianglesRange(base, count - 1);
    }
  }

  /** The prism has six vertices per corner, one UV each, and indexes only its own vertices. */
  lemma PrismIsWellFormed(polygon: seq<Vec2>, height: real, ts: seq<int>)
    requires |ts| % 3 == 0 && forall x :: x in ts ==> 0 <= x < |polygon|
    ensures var m := Prism(polygon, height, ts);
      && |m.vertices| == 6 * |polygon| && m.Wf() && m.IndicesValid()
      && |m.triangles| == 2 * |ts| + 6 * |polygon|
  {
    var n := |polygon|;
    var m := Prism(polygon, height, ts);
    BackFaceRange(ts, n);
    SideTrianglesRange(2 * n, n);
    var back, sides := BackFace(ts, n), SideTriangles(2 * n, n);
    forall k | 0 <= k < |m.triangles|
      ensures 0 <= m.triangles[k] < |m.vertices|
    {
      if k < |ts| {
        assert m.triangles[k] in ts;
      } else if k < 2 * |ts| {
        assert m.triangles[k] == back[k - |ts|];
        assert back[k - |ts|] in back;
      } else {
        assert m.triangles[k] == sides[k - 2 * |ts|];
        assert sides[k - 2 * |ts|] in sides;
      }
    }
  }

  /**
   * Each back triangle is a front triangle in reverse order, one corner for
   * one corner at depth `height` instead of 0.
   */
  lemma BackTriangleMirrorsFront(polygon: seq<Vec2>, height: real, ts: seq<int>, t: int, r: int)
    requires |ts| % 3 == 0 && forall x :: x in ts ==> 0 <= x < |polygon|
    requires 0 <= t < |ts| / 3 && 0 <= r < 3
    ensures var m := Prism(polygon, height, ts);
      var front, back := m.triangles[3 * t + 2 - r], m.triangles[|ts| + 3 * t + r];
      && 0 <= front < |polygon| && 0 <= back < |m.vertices|
      && m.vertices[front] == Corner(polygon, front, 0.0)
      && m.vertices[back] == Corner(polygon, front, height)
  {
    var n := |polygon|;
    var m := Prism(polygon, height, ts);
    PrismIsWellFormed(polygon, height, ts);
    BackFaceMirrors(ts, n, t);
    var back := BackFace(ts, n);
    assert m.triangles[|ts| + 3 * t + r] == back[3 * t + r];
    assert back[3 * t + r] == back[3 * t .. 3 * t + 3][r];
    var front := m.triangles[3 * t + 2 - r];
    assert front == ts[3 * t + 2 - r] && front in ts;
    assert m.vertices[n + front] == Face(polygon, height)[front];
  }

  /**
   * The side quad of edge `i` joins corner `i` and the next corner `j`:
   * its triangles are (front i, back i, front j) and (front j, back i, back j).
   */
  lemma SideQuadJoinsEdge(polygon: seq<Vec2>, height: real, ts: seq<int>, i: int)
    requires |ts| % 3 == 0 && 0 <= i < |polygon|
    ensures var m := Prism(polygon, height, ts);
      var n, j := |polygon|, Next(|polygon|, i);
      var s, v := 2 * |ts| + 6 * i, 2 * n + 4 * i;
      && |m.triangles| == 2 * |ts| + 6 * n && |m.vertices| == 6 * n
      && m.triangles[s .. s + 6] == [v, v + 2, v + 1, v + 1, v + 2, v + 3]
      && m.vertices[v] == Corner(polygon, i, 0.0) && m.vertices[v + 1] == Corner(polygon, j, 0.0)
      && m.vertices[v + 2] == Corner(polygon, i, height) && m.vertices[v + 3] == Corner(polygon, j, height)
  {
    SideQuadTriangles(polygon, height, ts, i);
    SideQuadVertices(polygon, height, ts, i);
  }

  /** The six indices of edge `i`'s side quad, located in the whole prism. */
  lemma SideQuadTriangles(polygon: seq<Vec2>, height: real, ts: seq<int>, i: int)
    requires |ts| % 3 == 0 && 0 <= i < |polygon|
    ensures var m := Prism(polygon, height, ts);
      var s, v := 2 * |ts| + 6 * i, 2 * |polygon| + 4 * i;
      && |m.triangles| == 2 * |ts| + 6 * |polygon|
      && m.triangles[s .. s + 6] == [v, v + 2, v + 1, v + 1, v + 2, v + 3]
  {
    var faces := ts + BackFace(ts, |polygon|);
    assert |faces| == 2 * |ts|;
    SideTrianglesAfter(faces, |polygon|, i);
  }

  /** Edge `i`'s two side triangles, located after the face triangles. */
  lemma SideTrianglesAfter(faces: seq<int>, n: nat, i: int)
    requires 0 <= i < n
    ensures var s, v := |faces| + 6 * i, 2 * n + 4 * i;
      (faces + SideTriangles(2 * n, n))[s .. s + 6] == [v, v + 2, v + 1, v + 1, v + 2, v + 3]
  {
    var sides := SideTriangles(2 * n, n);
    SideTrianglesAt(2 * n, n, i);
    assert (faces + sides)[|faces| + 6 * i .. |faces| + 6 * i + 6] == sides[6 * i .. 6 * i + 6];
  }

  /** The four vertices of edge `i`'s side quad, located in the whole prism. */
  lemma SideQuadVertices(polygon: seq<Vec2>, height: real, ts: seq<int>, i: int)
    requires 0 <= i < |polygon|
    ensures var m := Prism(polygon, height, ts);
      var n, j := |polygon|, Next(|polygon|, i);
      var v := 2 * n + 4 * i;
      && |m.vertices| == 6 * n
      && m.vertices[v] == Corner(polygon, i, 0.0) && m.vertices[v + 1] == Corner(polygon, j, 0.0)
      && m.vertices[v + 2] == Corner(polygon, i, height) && m.vertices[v + 3] == Corner(polygon, j, height)
  {
    var n := |polygon|;
    var vs := Prism(polygon, height, ts).vertices;
    var sideVs := SideVertices(polygon, height, n);
    var v := 2 * n + 4 * i;
    SideVertexAt(polygon, height, n, i, 0);
    SideVertexAt(polygon, height, n, i, 1);
    SideVertexAt(polygon, height, n, i, 2);
    SideVertexAt(polygon, height, n, i, 3);
    assert vs[v] == sideVs[4 * i];
    assert vs[v + 1] == sideVs[4 * i + 1];
    assert vs[v + 2] == sideVs[4 * i + 2];
    assert vs[v + 3] == sideVs[4 * i + 3];
  }

  /**
   * On success the prism of `n` corners has `6n` vertices and
   * `2 * 3(n - 2) + 6n` indices; on failure UpdateMesh builds nothing.
   */
  lemma PrismCounts(polygon: seq<Vec2>, height: real)
    requires Triangulate(polygon, Iota(|polygon|)).status == Triangulated
    ensures var n := |polygon|;
      var m := Prism(polygon, height, Triangulate(polygon, Iota(n)).triangles);
      && n >= 3 && m.Wf() && m.IndicesValid()
      && |m.vertices| == 6 * n && |m.triangles| == 12 * n - 12
  {
    var n := |polygon|;
    var ts := Triangulate(polygon, Iota(n)).triangles;
    TriangulateOutcome(polygon, Iota(n));
    forall x | x in ts
      ensures 0 <= x < n
    {
      assert x in Iota(n);
    }
    PrismIsWellFormed(polygon, height, ts);
  }

  // ---------------------------------------------------------------------
  // UpdateMesh, loop by loop

  /** The loop that numbers the corners 0 .. n-1. */
  method CornerIndices(n: nat) returns (indices: seq<int>)
    ensures indices == Iota(n)
  {
    indices := [];
    for i := 0 to n
      invariant indices == Iota(i)
    {
      indices := indices + [i];
    }
  }

  /** One face loop: a vertex per corner at depth `z`. */
  method AddFaceVertices(builder: MeshBuilder, polygon: seq<Vec2>, z: real)
    requires builder.Valid() && builder.Settings() == DefaultConfig
    modifies builder
    ensures builder.Valid() && builder.Settings() == DefaultConfig
    ensures builder.Data() == old(builder.Data()).(vertices := old(builder.vertices) + Face(polygon, z),
      uvs := old(builder.uvs) + Blank(|polygon|))
  {
    ghost var m0 := builder.Data();
    for i := 0 to |polygon|
      invariant builder.Valid() && builder.Settings() == DefaultConfig
      invariant builder.Data() == m0.(vertices := m0.vertices + Face(polygon, z)[..i], uvs := m0.uvs + Blank(i))
    {
      var _ := AddPlainVertex(builder, Vec3(polygon[i].x, polygon[i].y, z));
      assert Face(polygon, z)[..i + 1] == Face(polygon, z)[..i] + [Corner(polygon, i, z)];
      assert Blank(i + 1) == Blank(i) + [Zero2];
    }
    assert Face(polygon, z)[..|polygon|] == Face(polygon, z);
  }

  /** The front-face loop: one AddTriangle per triple of the triangulation. */
  method AddFrontTriangles(builder: MeshBuilder, ts: seq<int>)
    requires builder.Valid() && builder.Settings() == DefaultConfig && |ts| % 3 == 0
    modifies builder
    ensures builder.Valid() && builder.Settings() == DefaultConfig
    ensures builder.Data() == old(builder.Data()).(triangles := old(builder.triangles) + ts)
  {
    ghost var m0 := builder.Data();
    var t := 0;
    while t < |ts|
      invariant 0 <= t <= |ts| && t % 3 == 0
      invariant builder.Valid() && builder.Settings() == DefaultConfig
      invariant builder.Data() == m0.(triangles := m0.triangles + ts[..t])
    {
      DefaultAddsAnything(builder.Data(), [ts[t], ts[t + 1], ts[t + 2]]);
      DefaultTriangle(builder.Data(), ts[t], ts[t + 1], ts[t + 2]);
      builder.AddTriangle(ts[t], ts[t + 1], ts[t + 2]);
      assert ts[..t + 3] == ts[..t] + [ts[t], ts[t + 1], ts[t + 2]];
      t := t + 3;
    }
    assert ts[..|ts|] == ts;
  }

  /** The back-face loop: each triple shifted by `n`, last corner first. */
  method AddBackTriangles(builder: MeshBuilder, ts: seq<int>, n: int)
    requires builder.Valid() && builder.Settings() == DefaultConfig && |ts| % 3 == 0
    modifies builder
    ensures builder.Valid() && builder.Settings() == DefaultConfig
    ensures builder.Data() == old(builder.Data()).(triangles := old(builder.triangles) + BackFace(ts, n))
  {
    ghost var m0 := builder.Data();
    var t := 0;
    while t < |ts|
      invariant 0 <= t <= |ts| && t % 3 == 0
      invariant builder.Valid() && builder.Settings() == DefaultConfig
      invariant builder.Data() == m0.(triangles := m0.triangles + BackFace(ts[..t], n))
    {
      DefaultAddsAnything(builder.Data(), [n + ts[t + 2], n + ts[t + 1], n + ts[t]]);
      DefaultTriangle(builder.Data(), n + ts[t + 2], n + ts[t + 1], n + ts[t]);
      builder.AddTriangle(n + ts[t + 2], n + ts[t + 1], n + ts[t]);
      assert ts[..t + 3][..t] == ts[..t];
      t := t + 3;
    }
    assert ts[..|ts|] == ts;
  }

  /** One pass of the sides loop: edge `i` to the next corner, its four vertices and two triangles. */
  method AddSide(builder: MeshBuilder, polygon: seq<Vec2>, height: real, i: int)
    requires builder.Valid() && builder.Settings() == DefaultConfig && 0 <= i < |polygon|
    modifies builder
    ensures builder.Valid() && builder.Settings() == DefaultConfig
    ensures var j, v := Next(|polygon|, i), |old(builder.vertices)|;
      builder.Data() == MeshData(
        old(builder.vertices) + [Corner(polygon, i, 0.0), Corner(polygon, j, 0.0), Corner(polygon, i, height), Corner(polygon, j, height)],
        old(builder.uvs) + [Zero2, Zero2, Zero2, Zero2],
        old(builder.triangles) + [v, v + 2, v + 1, v + 1, v + 2, v + 3])
  {
    var j := (i + 1) % |polygon|;
    ghost var m0 := builder.Data();
    var v1 := AddPlainVertex(builder, Vec3(polygon[i].x, polygon[i].y, 0.0));
    var v2 := AddPlainVertex(builder, Vec3(polygon[j].x, polygon[j].y, 0.0));
    var v3 := AddPlainVertex(builder, Vec3(polygon[i].x, polygon[i].y, height));
    var v4 := AddPlainVertex(builder, Vec3(polygon[j].x, polygon[j].y, height));
    AddPlainTriangle(builder, v1, v3, v2);
    AddPlainTriangle(builder, v2, v3, v4);
    SideInOrder(m0, builder.Data(), Corner(polygon, i, 0.0), Corner(polygon, j, 0.0), Corner(polygon, i, height),
      Corner(polygon, j, height), v1);
  }

  /** Four single vertex appends and two triangles are one side. */
  lemma SideInOrder(m0: MeshData, m1: MeshData, a: Vec3, b: Vec3, c: Vec3, d: Vec3, v: int)
    requires m1 == MeshData(m0.vertices + [a] + [b] + [c] + [d], m0.uvs + [Zero2] + [Zero2] + [Zero2] + [Zero2],
      m0.triangles + [v, v + 2, v + 1] + [v + 1, v + 2, v + 3])
    ensures m1 == MeshData(m0.vertices + [a, b, c, d], m0.uvs + [Zero2, Zero2, Zero2, Zero2],
      m0.triangles + [v, v + 2, v + 1, v + 1, v + 2, v + 3])
  {
    assert m0.vertices + [a] + [b] + [c] + [d] == m0.vertices + [a, b, c, d];
    assert m0.uvs + [Zero2] + [Zero2] + [Zero2] + [Zero2] == m0.uvs + [Zero2, Zero2, Zero2, Zero2];
    assert m0.triangles + [v, v + 2, v + 1] + [v + 1, v + 2, v + 3] == m0.triangles + [v, v + 2, v + 1, v + 1, v + 2, v + 3];
  }

  /** The sides loop: for each edge, four new vertices and the two triangles between them. */
  method AddSides(builder: MeshBuilder, polygon: seq<Vec2>, height: real)
    requires builder.Valid() && builder.Settings() == DefaultConfig
    modifies builder
    ensures builder.Valid() && builder.Settings() == DefaultConfig
    ensures builder.Data() == MeshData(old(builder.vertices) + SideVertices(polygon, height, |polygon|),
      old(builder.uvs) + Blank(4 * |polygon|),
      old(builder.triangles) + SideTriangles(|old(builder.vertices)|, |polygon|))
  {
    ghost var m0 := builder.Data();
    var base := |builder.vertices|;
    for i := 0 to |polygon|
      invariant builder.Valid() && builder.Settings() == DefaultConfig
      invariant builder.Data() == MeshData(m0.vertices + SideVertices(polygon, height, i),
        m0.uvs + Blank(4 * i), m0.triangles + SideTriangles(base, i))
    {
      ghost var before := builder.Data();
      AddSide(builder, polygon, height, i);
      SidesGrow(polygon, height, m0, base, i, before, builder.Data());
    }
  }

  /** The sides of the first `i` edges and then edge `i`'s are the sides of the first `i + 1`. */
  lemma SidesGrow(polygon: seq<Vec2>, height: real, m0: MeshData, base: int, i: int, before: MeshData, after: MeshData)
    requires 0 <= i < |polygon| && base == |m0.vertices|
    requires before == MeshData(m0.vertices + SideVertices(polygon, height, i),
      m0.uvs + Blank(4 * i), m0.triangles + SideTriangles(base, i))
    requires var j, v := Next(|polygon|, i), |before.vertices|;
      after == MeshData(
        before.vertices + [Corner(polygon, i, 0.0), Corner(polygon, j, 0.0), Corner(polygon, i, height), Corner(polygon, j, height)],
        before.uvs + [Zero2, Zero2, Zero2, Zero2],
        before.triangles + [v, v + 2, v + 1, v + 1, v + 2, v + 3])
    ensures after == MeshData(m0.vertices + SideVertices(polygon, height, i + 1),
      m0.uvs + Blank(4 * (i + 1)), m0.triangles + SideTriangles(base, i + 1))
  {
    var j := Next(|polygon|, i);
    var quad := [Corner(polygon, i, 0.0), Corner(polygon, j, 0.0), Corner(polygon, i, height), Corner(polygon, j, height)];
    var v := base + 4 * i;
    var pair := [v, v + 2, v + 1, v + 1, v + 2, v + 3];
    assert SideVertices(polygon, height, i + 1) == SideVertices(polygon, height, i) + quad;
    assert SideTriangles(base, i + 1) == SideTriangles(base, i) + pair;
    assert Blank(4 * (i + 1)) == Blank(4 * i) + [Zero2, Zero2, Zero2, Zero2];
    assert m0.vertices + SideVertices(polygon, height, i) + quad == m0.vertices + (SideVertices(polygon, height, i) + quad);
    assert m0.uvs + Blank(4 * i) + [Zero2, Zero2, Zero2, Zero2] == m0.uvs + (Blank(4 * i) + [Zero2, Zero2, Zero2, Zero2]);
    assert m0.triangles + SideTriangles(base, i) + pair == m0.triangles + (SideTriangles(base, i) + pair);
  }

  /** The lists UpdateMesh has built, stage by stage, make up the prism. */
  lemma PrismAssembled(polygon: seq<Vec2>, height: real, ts: seq<int>, beforeSides: MeshData, m: MeshData)
    requires var n := |polygon|;
      beforeSides == MeshData(Face(polygon, 0.0) + Face(polygon, height), Blank(n) + Blank(n), ts + BackFace(ts, n))
    requires m == MeshData(beforeSides.vertices + SideVertices(polygon, height, |polygon|),
      beforeSides.uvs + Blank(4 * |polygon|),
      beforeSides.triangles + SideTriangles(|beforeSides.vertices|, |polygon|))
    ensures m == Prism(polygon, height, ts)
  {
    var n := |polygon|;
    assert Blank(n) + Blank(n) + Blank(4 * n) == Blank(6 * n);
  }

  /** A triangulation's index list holds whole triangles. */
  lemma TrianglesComeInThrees(pts: seq<Vec2>, idx: seq<int>)
    requires |idx| == |pts|
    ensures |Triangulate(pts, idx).triangles| % 3 == 0
  {
    TriangulateOutcome(pts, idx);
  }

  /** The two faces and their triangles, added to an empty mesh in UpdateMesh's order. */
  lemma FacesAssembled(polygon: seq<Vec2>, height: real, ts: seq<int>,
    m0: MeshData, m1: MeshData, m2: MeshData, m3: MeshData, m4: MeshData)
    requires m0 == EmptyMesh
    requires m1 == m0.(vertices := m0.vertices + Face(polygon, 0.0), uvs := m0.uvs + Blank(|polygon|))
    requires m2 == m1.(triangles := m1.triangles + ts)
    requires m3 == m2.(vertices := m2.vertices + Face(polygon, height), uvs := m2.uvs + Blank(|polygon|))
    requires m4 == m3.(triangles := m3.triangles + BackFace(ts, |polygon|))
    ensures m4 == MeshData(Face(polygon, 0.0) + Face(polygon, height), Blank(|polygon|) + Blank(|polygon|),
      ts + BackFace(ts, |polygon|))
  {
    assert [] + Face(polygon, 0.0) == Face(polygon, 0.0);
    assert [] + Blank(|polygon|) == Blank(|polygon|);
    assert [] + ts == ts;
  }

  /**
   * Extrude.UpdateMesh: triangulate the polygon with corner indices
   * 0 .. n-1, then build the prism on a new MeshBuilder. When the
   * triangulation throws, no mesh is built.
   */
  method UpdateMesh(polygon: seq<Vec2>, height: real) returns (r: Result<MeshBuilder, Status>)
    ensures var o := Triangulate(polygon, Iota(|polygon|));
      && (r.Ok? <==> o.status == Triangulated)
      && (r.Err? ==> r.error == o.status)
      && (r.Ok? ==>
            fresh(r.value) && r.value.Valid() && r.value.Settings() == DefaultConfig
            && r.value.Data() == Prism(polygon, height, o.triangles))
  {
    var indices := CornerIndices(|polygon|);
    var status, triangles, _, _ := TriangulatePolygon(polygon, indices);
    if status != Triangulated {
      return Err(status);
    }
    TrianglesComeInThrees(polygon, indices);
    var n := |polygon|;
    var builder := new MeshBuilder();
    ghost var m0 := builder.Data();
    AddFaceVertices(builder, polygon, 0.0);
    ghost var m1 := builder.Data();
    AddFrontTriangles(builder, triangles);
    ghost var m2 := builder.Data();
    AddFaceVertices(builder, polygon, height);
    ghost var m3 := builder.Data();
    AddBackTriangles(builder, triangles, n);
    ghost var beforeSides := builder.Data();
    FacesAssembled(polygon, height, triangles, m0, m1, m2, m3, beforeSides);
    AddSides(builder, polygon, height);
    PrismAssembled(polygon, height, triangles, beforeSides, builder.Data());
    return Ok(builder);
  }
}
