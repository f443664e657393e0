/**
 * LatheMeshBuilder: sweeps a 2D profile around the vertical axis on
 * `numSplines` splines, one ring of vertices per profile point, and joins
 * consecutive rings with quads. The matrices and quaternions of the sweep
 * are kept symbolic: the segment transform of a profile point is named by
 * its height and the twist, and where a vertex lands is a parameter.
 */
module Lathe {
  import opened Geometry
  import opened MeshModel
  import opened MeshBuilding
  import opened Lists

  /** The sweep's matrices: the identity, or the segment transform of a height under a twist. */
  datatype Transform = Identity | SegmentTransform(y: real, twist: Vec3)

  /**
   * Where a profile point lands: from the previous call's last segment
   * transform, this segment's transform, the spline index and the number of
   * splines (which fix the rotation around the axis), and the point.
   */
  type Placement = (Transform, Transform, int, int, Vec2) -> Vec3

  /** GetTransformSegmentLocalToModel, named by what it depends on. */
  function SegmentOf(point: Vec2, twist: Vec3): Transform
  {
    SegmentTransform(point.y, twist)
  }

  /**
   * GetIndex: the vertex of spline `s` on profile point `p`, counted from
   * `offset`, one ring of `numSplines` vertices per profile point: a spline
   * of the ring falls inside the block of ring `p`.
   */
  function GetIndex(numSplines: int, s: int, p: int, offset: int): (i: int)
    ensures 0 <= s < numSplines ==> offset + p * numSplines <= i < offset + p * numSplines + numSplines
  {
    offset + s + p * numSplines
  }

  // ---------------------------------------------------------------------
  // What Add appends

  /** The ring of profile point `point`: one vertex on each of the first `k` splines. */
  function RingVertices(place: Placement, prev: Transform, segment: Transform, numSplines: int, point: Vec2, k: int): (vs: seq<Vec3>)
    ensures |vs| == if k > 0 then k else 0
    decreases k
  {
    if k <= 0 then []
    else RingVertices(place, prev, segment, numSplines, point, k - 1) + [place(prev, segment, k - 1, numSplines, point)]
  }

  /** The vertices of the first `count` profile points, ring after ring. */
  function SweptVertices(place: Placement, prev: Transform, profile: seq<Vec2>, twist: Vec3, numSplines: int, count: int): (vs: seq<Vec3>)
    requires 0 <= count <= |profile|
    decreases count
  {
    if count == 0 then []
    else
      var point := profile[count - 1];
      SweptVertices(place, prev, profile, twist, numSplines, count - 1)
        + RingVertices(place, prev, SegmentOf(point, twist), numSplines, point, numSplines)
  }

  /** The quads between splines `s - 1` and `s`, for `s` from 1 to `k`, joining profile points `p - 1` and `p`. */
  function RingStrip(numSplines: int, p: int, offset: int, k: int): (r: seq<int>)
    ensures |r| == if k > 0 then 6 * k else 0
    decreases k
  {
    if k <= 0 then []
    else
      RingStrip(numSplines, p, offset, k - 1)
        + SplitQuad(GetIndex(numSplines, k - 1, p - 1, offset), GetIndex(numSplines, k, p - 1, offset),
            GetIndex(numSplines, k - 1, p, offset), GetIndex(numSplines, k, p, offset))
  }

  /** AddTrianglesRing: the strip, then the quad from the last spline back to the first. */
  function Ring(numSplines: int, p: int, offset: int): (r: seq<int>)
  {
    var n := numSplines;
    RingStrip(n, p, offset, n - 1)
      + SplitQuad(GetIndex(n, n - 1, p - 1, offset), GetIndex(n, 0, p - 1, offset),
          GetIndex(n, n - 1, p, offset), GetIndex(n, 0, p, offset))
  }

  /** The rings joining profile points 0 .. count-1: one per consecutive pair. */
  function Rings(numSplines: int, offset: int, count: int): seq<int>
    decreases count
  {
    if count <= 1 then []
    else Rings(numSplines, offset, count - 1) + Ring(numSplines, count - 1, offset)
  }

  // ---------------------------------------------------------------------
  // The layout

  /** `count` rings of `n` vertices make `count * n` vertices. */
  lemma {:induction false} SweptCount(place: Placement, prev: Transform, profile: seq<Vec2>, twist: Vec3, n: int, count: int)
    requires 0 <= count <= |profile| && n >= 1
    ensures |SweptVertices(place, prev, profile, twist, n, count)| == count * n
    decreases count
  {
    if count > 0 {
      SweptCount(place, prev, profile, twist, n, count - 1);
      assert (count - 1) * n + n == count * n;
    }
  }

  /** Vertex `s` of a ring is the point placed on spline `s`. */
  lemma {:induction false} RingVertexAt(place: Placement, prev: Transform, segment: Transform, n: int, point: Vec2, k: int, s: int)
    requires 0 <= s < k
    ensures RingVertices(place, prev, segment, n, point, k)[s] == place(prev, segment, s, n, point)
    decreases k
  {
    if s < k - 1 {
      RingVertexAt(place, prev, segment, n, point, k - 1, s);
    }
  }

  /**
   * GetIndex matches the order Add appends in: the vertex at
   * `GetIndex(n, s, p, 0)` is profile point `p` placed on spline `s`.
   */
  lemma {:induction false} GetIndexFindsVertex(place: Placement, prev: Transform, profile: seq<Vec2>, twist: Vec3, n: int, count: int, s: int, p: int)
    requires 0 <= count <= |profile| && 0 <= p < count && 0 <= s < n
    ensures var vs := SweptVertices(place, prev, profile, twist, n, count);
      0 <= GetIndex(n, s, p, 0) < |vs|
      && vs[GetIndex(n, s, p, 0)] == place(prev, SegmentOf(profile[p], twist), s, n, profile[p])
    decreases count
  {
    var vs := SweptVertices(place, prev, profile, twist, n, count);
    SweptCount(place, prev, profile, twist, n, count - 1);
    var before := (count - 1) * n;
    if p < count - 1 {
      GetIndexFindsVertex(place, prev, profile, twist, n, count - 1, s, p);
    } else {
      assert GetIndex(n, s, p, 0) == before + s;
      RingVertexAt(place, prev, SegmentOf(profile[p], twist), n, profile[p], n, s);
    }
  }

  /** A product grows with its left factor. */
  lemma MulMonotone(a: int, b: int, n: int)
    requires 0 <= a <= b && n >= 0
    ensures a * n <= b * n
  {
  }

  /** Quad `s` of ring `p` joins spline `s` and the next one round the axis. */
  lemma {:induction false} RingStripAt(n: int, p: int, offset: int, k: int, s: int)
    requires 0 <= s < k
    ensures RingStrip(n, p, offset, k)[6 * s .. 6 * s + 6]
      == SplitQuad(GetIndex(n, s, p - 1, offset), GetIndex(n, s + 1, p - 1, offset),
           GetIndex(n, s, p, offset), GetIndex(n, s + 1, p, offset))
    decreases k
  {
    if s < k - 1 {
      RingStripAt(n, p, offset, k - 1, s);
    }
  }

  /** The spline after `s`, counting round: `s + 1`, or 0 after the last. */
  lemma NextSpline(n: int, s: int)
    requires n >= 1 && 0 <= s < n
    ensures (s + 1) % n == if s < n - 1 then s + 1 else 0
  {
  }

  /**
   * Every quad of a ring joins spline `s` to spline `(s + 1) % n`: the
   * last one wraps round from spline `n - 1` to spline 0.
   */
  lemma RingJoinsNeighbours(n: int, p: int, offset: int, s: int)
    requires n >= 1 && 0 <= s < n
    ensures var r, t := Ring(n, p, offset), (s + 1) % n;
      |r| == 6 * n
      && r[6 * s .. 6 * s + 6]
        == SplitQuad(GetIndex(n, s, p - 1, offset), GetIndex(n, t, p - 1, offset),
             GetIndex(n, s, p, offset), GetIndex(n, t, p, offset))
  {
    var strip := RingStrip(n, p, offset, n - 1);
    var last := SplitQuad(GetIndex(n, n - 1, p - 1, offset), GetIndex(n, 0, p - 1, offset),
      GetIndex(n, n - 1, p, offset), GetIndex(n, 0, p, offset));
    assert Ring(n, p, offset) == strip + last;
    assert |strip| == 6 * (n - 1) && |last| == 6;
    NextSpline(n, s);
    if s < n - 1 {
      SliceOfFront(strip, last, 6 * s, 6 * s + 6);
      RingStripAt(n, p, offset, n - 1, s);
    } else {
      SliceOfBack(strip, last);
    }
  }

  /** Each ring has `6n` indices: `2n` triangles, so a profile of `P` points gets `(P - 1) * 2n` triangles. */
  lemma {:induction false} RingsCount(n: int, offset: int, count: int)
    requires n >= 1 && count >= 1
    ensures |Rings(n, offset, count)| == 6 * n * (count - 1)
    decreases count
  {
    if count > 1 {
      RingsCount(n, offset, count - 1);
      assert |Ring(n, count - 1, offset)| == 6 * n;
      assert 6 * n * (count - 2) + 6 * n == 6 * n * (count - 1);
    }
  }

  /** A vertex of profile point `p` on spline `s` lies among the `count * n` vertices of the call. */
  lemma IndexInCall(n: int, offset: int, count: int, s: int, p: int)
    requires n >= 1 && 0 <= s < n && 0 <= p < count
    ensures offset <= GetIndex(n, s, p, offset) < offset + count * n
  {
    MulMonotone(p, count - 1, n);
    assert (count - 1) * n + n == count * n;
  }

  /** The indices of ring `p` lie among the vertices of profile points `p - 1` and `p`. */
  lemma {:induction false} RingStripInCall(n: int, p: int, offset: int, count: int, k: int)
    requires n >= 1 && 1 <= p < count && k <= n - 1
    ensures forall x :: x in RingStrip(n, p, offset, k) ==> offset <= x < offset + count * n
    decreases k
  {
    if k > 0 {
      RingStripInCall(n, p, offset, count, k - 1);
      IndexInCall(n, offset, count, k - 1, p - 1);
      IndexInCall(n, offset, count, k, p - 1);
      IndexInCall(n, offset, count, k - 1, p);
      IndexInCall(n, offset, count, k, p);
    }
  }

  /**
   * No ring reaches outside the call that adds it: with at least one spline
   * every index lies in `[offset, offset + P * n)`, so two Add calls are
   * never stitched together.
   */
  lemma {:induction false} RingsStayInCall(n: int, offset: int, count: int, total: int)
    requires n >= 1 && count <= total
    ensures forall x :: x in Rings(n, offset, count) ==> offset <= x < offset + total * n
    decreases count
  {
    if count > 1 {
      RingsStayInCall(n, offset, count - 1, total);
      RingStripInCall(n, count - 1, offset, total, n - 1);
      IndexInCall(n, offset, total, n - 1, count - 2);
      IndexInCall(n, offset, total, 0, count - 2);
      IndexInCall(n, offset, total, n - 1, count - 1);
      IndexInCall(n, offset, total, 0, count - 1);
    }
  }

  /**
   * Without splines Add places no vertex, yet the wrap quad of a two-point
   * profile still refers to spline -1: index `offset - 1`, which lies
   * before the call's vertices.
   */
  lemma NoSplinesWrapQuad(place: Placement, prev: Transform, a: Vec2, b: Vec2, twist: Vec3, offset: int)
    ensures SweptVertices(place, prev, [a, b], twist, 0, 2) == []
    ensures Rings(0, offset, 2) == [offset - 1, offset, offset - 1, offset - 1, offset, offset]
  {
  }

  // ---------------------------------------------------------------------
  // The builder

  class LatheMeshBuilder {
    const meshBuilder: MeshBuilder
    const numSplines: int
    var previousRotated: Transform

    /** The inner builder keeps its default settings: nothing here changes them. */
    predicate Valid()
      reads this, meshBuilder
    {
      meshBuilder.Valid() && meshBuilder.Settings() == DefaultConfig
    }

    /** A new lathe: an empty default builder and the identity as the previous transform. */
    constructor(numSplines: int)
      ensures Valid() && fresh(meshBuilder) && meshBuilder.Data() == EmptyMesh
      ensures this.numSplines == numSplines && previousRotated == Identity
    {
      this.numSplines := numSplines;
      meshBuilder := new MeshBuilder();
      previousRotated := Identity;
    }

    /** Clears the inner builder; `previousRotated` is left as it is. */
    method Reset()
      requires Valid()
      modifies meshBuilder
      ensures Valid() && meshBuilder.Data() == EmptyMesh
      ensures previousRotated == old(previousRotated)
    {
      meshBuilder.Reset();
    }

    /**
     * Add: a ring of `numSplines` vertices per profile point, placed with
     * the transform left by the previous call, then a ring of quads between
     * each pair of consecutive points. Afterwards `previousRotated` is the
     * last point's segment transform (the identity for an empty profile).
     */
    method Add(profile: seq<Vec2>, twist: Vec3, place: Placement)
      requires Valid()
      modifies this, meshBuilder
      ensures Valid()
      ensures var added := SweptVertices(place, old(previousRotated), profile, twist, numSplines, |profile|);
        meshBuilder.Data() == MeshData(old(meshBuilder.vertices) + added,
          old(meshBuilder.uvs) + Blank(|added|),
          old(meshBuilder.triangles) + Rings(numSplines, |old(meshBuilder.vertices)|, |profile|))
      ensures previousRotated == if profile == [] then Identity else SegmentOf(profile[|profile| - 1], twist)
    {
      var offset := meshBuilder.VertexCount();
      var segmentLocalToModelspace := AddProfileVertices(profile, twist, place);
      previousRotated := segmentLocalToModelspace;
      AddRings(|profile|, offset);
    }

    /** The second loop of Add: a ring of quads for each profile point after the first. */
    method AddRings(count: int, offset: int)
      requires Valid()
      modifies meshBuilder
      ensures Valid()
      ensures meshBuilder.Data() == old(meshBuilder.Data()).(triangles := old(meshBuilder.triangles) + Rings(numSplines, offset, count))
    {
      ghost var m1 := meshBuilder.Data();
      var vertexIndex := 1;
      while vertexIndex < count
        invariant 1 <= vertexIndex <= if count <= 1 then 1 else count
        invariant Valid()
        invariant meshBuilder.Data() == m1.(triangles := m1.triangles + Rings(numSplines, offset, vertexIndex))
      {
        AddTrianglesRing(vertexIndex, offset);
        vertexIndex := vertexIndex + 1;
      }
    }

    /**
     * The first loop of Add: a ring of vertices per profile point, all
     * placed with `previousRotated`. Returns the last segment transform.
     */
    method AddProfileVertices(profile: seq<Vec2>, twist: Vec3, place: Placement) returns (segment: Transform)
      requires Valid()
      modifies meshBuilder
      ensures Valid()
      ensures var added := SweptVertices(place, previousRotated, profile, twist, numSplines, |profile|);
        meshBuilder.Data() == old(meshBuilder.Data()).(vertices := old(meshBuilder.vertices) + added,
          uvs := old(meshBuilder.uvs) + Blank(|added|))
      ensures segment == if profile == [] then Identity else SegmentOf(profile[|profile| - 1], twist)
    {
      ghost var m0 := meshBuilder.Data();
      segment := Identity;
      for vertexIndex := 0 to |profile|
        invariant Valid()
        invariant segment == if vertexIndex == 0 then Identity else SegmentOf(profile[vertexIndex - 1], twist)
        invariant var added := SweptVertices(place, previousRotated, profile, twist, numSplines, vertexIndex);
          meshBuilder.Data() == m0.(vertices := m0.vertices + added, uvs := m0.uvs + Blank(|added|))
      {
        var sideVertex := profile[vertexIndex];
        segment := SegmentOf(sideVertex, twist);
        ghost var before := meshBuilder.Data();
        AddRing(place, previousRotated, segment, sideVertex);
        PlainGrows(m0, SweptVertices(place, previousRotated, profile, twist, numSplines, vertexIndex),
          RingVertices(place, previousRotated, segment, numSplines, sideVertex, numSplines), before, meshBuilder.Data());
      }
    }

    /** The inner loop of Add: the point placed on each spline in turn. */
    method AddRing(place: Placement, prev: Transform, segment: Transform, point: Vec2)
      requires Valid()
      modifies meshBuilder
      ensures Valid()
      ensures var added := RingVertices(place, prev, segment, numSplines, point, numSplines);
        meshBuilder.Data() == old(meshBuilder.Data()).(vertices := old(meshBuilder.vertices) + added,
          uvs := old(meshBuilder.uvs) + Blank(|added|))
    {
      ghost var m0 := meshBuilder.Data();
      var splineIndex := 0;
      while splineIndex < numSplines
        invariant Valid()
        invariant 0 <= splineIndex <= if numSplines > 0 then numSplines else 0
        invariant var added := RingVertices(place, prev, segment, numSplines, point, splineIndex);
          meshBuilder.Data() == m0.(vertices := m0.vertices + added, uvs := m0.uvs + Blank(|added|))
      {
        var vertex := place(prev, segment, splineIndex, numSplines, point);
        ghost var before := meshBuilder.Data();
        var _ := AddPlainVertex(meshBuilder, vertex);
        PlainGrowsByOne(m0, RingVertices(place, prev, segment, numSplines, point, splineIndex), vertex, before, meshBuilder.Data());
        splineIndex := splineIndex + 1;
      }
    }

    /** AddTrianglesRing: the quads joining profile points `vertexIndex - 1` and `vertexIndex`. */
    method AddTrianglesRing(vertexIndex: int, offset: int)
      requires Valid()
      modifies meshBuilder
      ensures Valid()
      ensures meshBuilder.Data()
        == old(meshBuilder.Data()).(triangles := old(meshBuilder.triangles) + Ring(numSplines, vertexIndex, offset))
    {
      ghost var m0 := meshBuilder.Data();
      var n := numSplines;
      var splineIndex := 1;
      while splineIndex < n
        invariant Valid()
        invariant 1 <= splineIndex <= if n > 1 then n else 1
        invariant meshBuilder.Data() == m0.(triangles := m0.triangles + RingStrip(n, vertexIndex, offset, splineIndex - 1))
      {
        var a, b := GetIndex(n, splineIndex - 1, vertexIndex - 1, offset), GetIndex(n, splineIndex, vertexIndex - 1, offset);
        var c, d := GetIndex(n, splineIndex - 1, vertexIndex, offset), GetIndex(n, splineIndex, vertexIndex, offset);
        DefaultAddsAnything(meshBuilder.Data(), [a, b, c, d]);
        DefaultQuad(meshBuilder.Data(), a, b, c, d);
        meshBuilder.AddQuad(a, b, c, d);
        splineIndex := splineIndex + 1;
      }
      var a, b := GetIndex(n, n - 1, vertexIndex - 1, offset), GetIndex(n, 0, vertexIndex - 1, offset);
      var c, d := GetIndex(n, n - 1, vertexIndex, offset), GetIndex(n, 0, vertexIndex, offset);
      DefaultAddsAnything(meshBuilder.Data(), [a, b, c, d]);
      DefaultQuad(meshBuilder.Data(), a, b, c, d);
      meshBuilder.AddQuad(a, b, c, d);
    }
  }
}
