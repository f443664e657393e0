/**
 * MeshBuilder: the three lists it appends to in place, its settings, and
 * its operations. Every method is proved to perform exactly the step of
 * module MeshModel that it stands for, so the lemmas there are about what
 * these methods do.
 */
module MeshBuilding {
  import opened Geometry
  import opened UvRanges
  import opened Wrappers
  import opened UvWrap
  import opened MeshModel
  import opened EarClipping
  import opened Lists

  class MeshBuilder {
    var vertices: seq<Vec3>
    var uvs: seq<Vec2>
    var triangles: seq<int>

    var isDoubleSided: bool
    var offset: Vec3
    var textureSizeInUnits: Vec2
    var automaticUvOrigin: Vec3
    var automaticUvOffset: Vec2
    var automaticUvRange: Option<UvRange>
    var triangleSubdivisionEnabled: bool

    /** The three lists, as one value. */
    function Data(): MeshData
      reads this
    {
      MeshData(vertices, uvs, triangles)
    }

    /** The settings, as one value. */
    function Settings(): Config
      reads this
    {
      Config(isDoubleSided, offset, textureSizeInUnits, automaticUvOrigin, automaticUvOffset,
        automaticUvRange, triangleSubdivisionEnabled)
    }

    /** One UV per vertex. */
    predicate Valid()
      reads this
    {
      Data().Wf()
    }

    /** A new builder: empty lists and the default settings. */
    constructor()
      ensures Valid() && Data() == EmptyMesh && Settings() == DefaultConfig
    {
      vertices, uvs, triangles := [], [], [];
      isDoubleSided, offset := false, Zero3;
      textureSizeInUnits := One2;
      automaticUvOrigin, automaticUvOffset := Zero3, Zero2;
      automaticUvRange := None;
      triangleSubdivisionEnabled := false;
    }

    /** The number of vertices added so far; the index the next vertex gets. */
    function VertexCount(): (n: nat)
      reads this
      ensures Valid() ==> n == |Data().uvs|
    {
      |vertices|
    }

    /** Clears the three lists and restores every setting to its default. */
    method Reset()
      modifies this
      ensures Valid() && Data() == EmptyMesh && Settings() == DefaultConfig
    {
      vertices, uvs, triangles := [], [], [];
      isDoubleSided := false;
      offset := Zero3;
      textureSizeInUnits := One2;
      automaticUvOffset := Zero2;
      automaticUvOrigin := Zero3;
      automaticUvRange := None;
      triangleSubdivisionEnabled := false;
    }

    /** Appends a vertex (moved by the offset, its UV remapped) and returns its index. */
    method AddVertex(position: Vec3, uv: Vec2) returns (index: int)
      requires Valid()
      modifies this
      ensures Valid() && Settings() == old(Settings())
      ensures index == old(VertexCount())
      ensures Data() == AppendVertex(old(Data()), Settings(), position, uv)
    {
      index := |vertices|;
      vertices := vertices + [position.Plus(offset)];
      var remapped := Vec2(uv.x, UvRangeY(automaticUvRange).Lerp(uv.y));
      uvs := uvs + [remapped];
    }

    /** Appends a copy of an existing vertex through AddVertex. */
    method Clone(vertexIndex: int) returns (index: int)
      requires Valid() && Data().HasVertex(vertexIndex)
      modifies this
      ensures Valid() && Settings() == old(Settings())
      ensures index == old(VertexCount())
      ensures Data() == CloneVertex(old(Data()), Settings(), vertexIndex)
    {
      index := AddVertex(vertices[vertexIndex], uvs[vertexIndex]);
    }

    /**
     * Moves the listed vertices' vertical UVs by whole tiles towards the
     * middle tile, unless there is no range or all of them are in range.
     */
    method ShiftUvsTowardsOrigin(vertexIndices: seq<int>)
      requires Valid() && PassDefined(uvs, vertexIndices, automaticUvRange)
      modifies this
      ensures Valid() && Settings() == old(Settings())
      ensures Data() == old(Data()).(uvs := WrapPass(old(uvs), vertexIndices, automaticUvRange))
    {
      if automaticUvRange.None? {
        return;
      }
      var u := automaticUvRange.value;
      if AllInRange(uvs, vertexIndices, u) {
        return;
      }
      var numTiles := u.numRepeatsVertical;
      if numTiles == 0 {
        // the target `0 / (float)0` is NaN: neither comparison holds and the shift stays 0
        ShiftVertices(vertexIndices, 0.0);
        return;
      }
      var shiftY := TileShift(vertexIndices);
      ShiftVertices(vertexIndices, shiftY);
    }

    /**
     * The shift of a pass that found a listed UV out of range: the whole
     * tiles between the listed vertices' vertical midpoint and the middle
     * tile's lower edge.
     */
    method TileShift(vertexIndices: seq<int>) returns (shiftY: real)
      requires Valid() && PassDefined(uvs, vertexIndices, automaticUvRange) && automaticUvRange.Some?
      requires automaticUvRange.value.numRepeatsVertical != 0 && !AllInRange(uvs, vertexIndices, automaticUvRange.value)
      ensures shiftY == WrapShift(uvs, vertexIndices, automaticUvRange.value)
    {
      var u := automaticUvRange.value;
      var numTiles := u.numRepeatsVertical;
      var tileIndex := HalfTowardZero(numTiles);
      var rangeY := UvRangeY(automaticUvRange);
      var target := rangeY.Lerp(tileIndex as real / numTiles as real);
      var range := rangeY.Span() / numTiles as real;
      var ys := Ys(uvs, vertexIndices);
      var currentY := (MaxOf(ys) + MinOf(ys)) * 0.5;
      assert target == Target(u) && range == TileHeight(u) && currentY == MidY(uvs, vertexIndices);

      shiftY := 0.0;
      if currentY < target {
        shiftY := ((target - currentY) / range).Floor as real * range;
      } else if currentY > target {
        shiftY := -((currentY - target) / range).Floor as real * range;
      }
      assert shiftY == TileSteps(currentY, target, range) as real * range;
      WrapShiftFrom(uvs, vertexIndices, u, currentY, target, range);
    }

    /** `uvs[index] += (0, shift)` for each listed index, in list order. */
    method ShiftVertices(vertexIndices: seq<int>, shift: real)
      requires Valid() && IndicesIn(vertexIndices, |uvs|)
      modifies this
      ensures Valid() && Settings() == old(Settings())
      ensures Data() == old(Data()).(uvs := ApplyShift(old(uvs), vertexIndices, shift))
    {
      var i := 0;
      while i < |vertexIndices|
        invariant 0 <= i <= |vertexIndices| && |uvs| == |old(uvs)|
        invariant vertices == old(vertices) && triangles == old(triangles) && Settings() == old(Settings())
        invariant ApplyShift(uvs, vertexIndices[i..], shift) == ApplyShift(old(uvs), vertexIndices, shift)
      {
        var index := vertexIndices[i];
        ApplyShiftStep(uvs, vertexIndices, i, shift);
        uvs := uvs[index := uvs[index].Plus(Vec2(0.0, shift))];
        i := i + 1;
      }
      assert vertexIndices[i..] == [];
    }

    /** The wrap pass on the triangle's vertices, then its three indices appended. */
    method AddTriangleInternal(v0: int, v1: int, v2: int)
      requires Valid() && CanShift(Data(), Settings(), [v0, v1, v2])
      modifies this
      ensures Valid() && Settings() == old(Settings())
      ensures Data() == TriangleInternal(old(Data()), Settings(), v0, v1, v2)
    {
      if automaticUvRange.Some? {
        ShiftUvsTowardsOrigin([v0, v1, v2]);
      }
      triangles := triangles + [v0];
      triangles := triangles + [v1];
      triangles := triangles + [v2];
    }

    /** A triangle on three existing vertices, and its reverse-wound copy when double-sided. */
    method AddTriangle(v0: int, v1: int, v2: int)
      requires Valid() && CanAdd(Data(), Settings(), [v0, v1, v2])
      modifies this
      ensures Valid() && Settings() == old(Settings())
      ensures Data() == Triangle(old(Data()), Settings(), v0, v1, v2)
    {
      IndicesOfThree(v0, v1, v2, |vertices|);
      AddTriangleInternal(v0, v1, v2);
      if !isDoubleSided {
        return;
      }
      var c0 := Clone(v0);
      var c2 := Clone(v2);
      var c1 := Clone(v1);
      IndicesOfThree(c0, c2, c1, |vertices|);
      AddTriangleInternal(c0, c2, c1);
    }

    /** Three new vertices and the triangle on them. */
    method AddTriangleWithUvs(vertex1: Vec3, uv1: Vec2, vertex2: Vec3, uv2: Vec2, vertex3: Vec3, uv3: Vec2)
      requires Valid() && Shiftable(Settings())
      modifies this
      ensures Valid() && Settings() == old(Settings())
      ensures Data() == VertexTriangle(old(Data()), Settings(), vertex1, uv1, vertex2, uv2, vertex3, uv3)
    {
      var a := AddVertex(vertex1, uv1);
      var b := AddVertex(vertex2, uv2);
      var c := AddVertex(vertex3, uv3);
      IndicesOfThree(a, b, c, |vertices|);
      AddTriangle(a, b, c);
    }

    /** The wrap pass on all four corners, then the two triangles of the 00-11 split. */
    method AddQuad(v00: int, v01: int, v10: int, v11: int)
      requires Valid() && CanAdd(Data(), Settings(), [v00, v01, v10, v11])
      modifies this
      ensures Valid() && Settings() == old(Settings())
      ensures Data() == Quad(old(Data()), Settings(), v00, v01, v10, v11)
    {
      var n := |vertices|;
      IndicesOfFour(v00, v01, v10, v11, n);
      IndicesOfThree(v00, v11, v10, n);
      IndicesOfThree(v00, v01, v11, n);
      if automaticUvRange.Some? {
        ShiftUvsTowardsOrigin([v00, v01, v10, v11]);
      }
      AddTriangle(v00, v11, v10);
      IndicesOfThree(v00, v01, v11, |vertices|);
      AddTriangle(v00, v01, v11);
    }

    /** Four new vertices and the quad on them. */
    method AddQuadWithUvs(vertex00: Vec3, uv00: Vec2, vertex01: Vec3, uv01: Vec2,
                          vertex10: Vec3, uv10: Vec2, vertex11: Vec3, uv11: Vec2)
      requires Valid() && Shiftable(Settings())
      modifies this
      ensures Valid() && Settings() == old(Settings())
      ensures Data() == VertexQuad(old(Data()), Settings(), vertex00, uv00, vertex01, uv01, vertex10, uv10, vertex11, uv11)
    {
      var a := AddVertex(vertex00, uv00);
      var b := AddVertex(vertex01, uv01);
      var c := AddVertex(vertex10, uv10);
      var d := AddVertex(vertex11, uv11);
      IndicesOfFour(a, b, c, d, |vertices|);
      AddQuad(a, b, c, d);
    }

    /** A quad whose UVs the automatic projection computes from its four corners. */
    method AddProjectedQuad(project: QuadProjection, vertex00: Vec3, vertex01: Vec3, vertex10: Vec3, vertex11: Vec3)
      requires Valid() && Shiftable(Settings())
      modifies this
      ensures Valid() && Settings() == old(Settings())
      ensures Data() == ProjectedQuad(old(Data()), Settings(), project, vertex00, vertex01, vertex10, vertex11)
    {
      var q := project(vertex00, vertex01, vertex10, vertex11);
      AddQuadWithUvs(vertex00, q.uv00, vertex01, q.uv01, vertex10, q.uv10, vertex11, q.uv11);
    }

    /** A triangle whose UVs the automatic projection computes from its three corners. */
    method AddProjectedTriangle(project: TriangleProjection, vertex1: Vec3, vertex2: Vec3, vertex3: Vec3)
      requires Valid() && Shiftable(Settings())
      modifies this
      ensures Valid() && Settings() == old(Settings())
      ensures Data() == ProjectedTriangle(old(Data()), Settings(), project, vertex1, vertex2, vertex3)
    {
      var t := project(vertex1, vertex2, vertex3);
      AddTriangleWithUvs(vertex1, t.uv1, vertex2, t.uv2, vertex3, t.uv3);
    }

    /** Six projected quads on eight corner positions; any other number of positions is refused. */
    method AddCuboid(project: QuadProjection, vertexPositions: seq<Vec3>) returns (r: Result<(), string>)
      requires Valid() && Shiftable(Settings())
      modifies this
      ensures Valid() && Settings() == old(Settings())
      ensures var expected := Cuboid(old(Data()), Settings(), project, vertexPositions);
        && r.Ok? == expected.Ok?
        && (expected.Ok? ==> Data() == expected.value)
        && (expected.Err? ==> Data() == old(Data()) && r == Err(expected.error))
    {
      if |vertexPositions| != 8 {
        return Err("AddCuboid takes 8 vertices.");
      }
      var pos := vertexPositions;
      AddProjectedQuad(project, pos[0], pos[4], pos[2], pos[6]);
      AddProjectedQuad(project, pos[1], pos[0], pos[3], pos[2]);
      AddProjectedQuad(project, pos[4], pos[5], pos[6], pos[7]);
      AddProjectedQuad(project, pos[1], pos[5], pos[7], pos[3]);
      AddProjectedQuad(project, pos[2], pos[6], pos[3], pos[7]);
      AddProjectedQuad(project, pos[1], pos[5], pos[0], pos[4]);
      return Ok(());
    }

    /** One ear of TriangulatePolygon: the wrap pass on its corners, then AddTriangleInternal. */
    method AddEar(a: int, b: int, c: int)
      requires Valid() && CanShift(Data(), Settings(), [a, b, c])
      modifies this
      ensures Valid() && Settings() == old(Settings())
      ensures Data() == EarTriangle(old(Data()), Settings(), a, b, c)
    {
      if automaticUvRange.Some? {
        ShiftUvsTowardsOrigin([a, b, c]);
      }
      AddTriangleInternal(a, b, c);
    }

    /**
     * Ear clipping as MeshBuilder does it: after an ear the scan resumes at
     * the same position. Each ear gets the wrap pass and AddTriangleInternal.
     * Returns how the scan ended and the outline left over.
     */
    method TriangulatePolygon(points: seq<Vec2>, indices: seq<int>)
      returns (status: Status, pointsLeft: seq<Vec2>, indicesLeft: seq<int>)
      requires Valid() && |indices| == |points| && CanShift(Data(), Settings(), indices)
      modifies this
      ensures Valid() && Settings() == old(Settings())
      ensures var o := TriangulateResuming(points, indices);
        && status == o.status && pointsLeft == o.points && indicesLeft == o.indices
        && CanShift(old(Data()), Settings(), o.triangles)
        && |o.triangles| % 3 == 0
        && Data() == EarTriangles(old(Data()), Settings(), o.triangles)
    {
      ghost var m0, cfg := Data(), Settings();
      ghost var expected := TriangulateResuming(points, indices);
      if |points| < 3 {
        return TooFewPoints, points, indices;
      }
      var pts, idx := points, indices;
      ghost var emitted: seq<int> := [];
      var i := 0;
      ProgressStarts(m0, cfg, indices, points);
      while i < |pts|
        invariant Valid() && Settings() == cfg && |pts| >= 3
        invariant Progress(m0, cfg, indices, pts, idx, i, emitted, expected, Data())
        decreases |pts|, |pts| - i
      {
        var n := |pts|;
        var i2 := (i + 1) % n;
        var i3 := (i + 2) % n;
        NextNext(n, i);
        var isEar := EarAt(pts, i);
        if !isEar {
          ProgressPastSkip(m0, cfg, indices, pts, idx, i, emitted, expected, Data());
          i := i + 1;
          continue;
        }
        ghost var before := Data();
        ProgressEarShiftable(m0, cfg, indices, pts, idx, i, emitted, expected, before);
        AddEar(idx[i], idx[i2], idx[i3]);
        ProgressPastEar(m0, cfg, indices, pts, idx, i, emitted, expected, before, Data());
        emitted := emitted + EarIndices(idx, i);
        pts := RemoveAt(pts, i2);
        idx := RemoveAt(idx, i2);
        if |pts| < 3 {
          return Triangulated, pts, idx;
        }
      }
      ProgressEnd(m0, cfg, indices, pts, idx, emitted, expected, Data());
      return NoEarFound, pts, idx;
    }
  }

  /**
   * The two tests both scans make at corner `i`: the turn through the
   * next two corners is clockwise, and no other corner lies inside that
   * triangle or on it. Together they are exactly IsEar.
   */
  method EarAt(pts: seq<Vec2>, i: int) returns (isEar: bool)
    requires 0 <= i < |pts|
    ensures isEar == IsEar(pts, i)
  {
    var n := |pts|;
    var i2 := (i + 1) % n;
    var i3 := (i + 2) % n;
    EarChecks(pts, i);
    var u, v, w := pts[i], pts[i2], pts[i3];
    if !Clockwise(u, v, w) {
      return false;
    }
    var anyInsideTriangle := exists j :: 0 <= j < n && j != i && j != i2 && j != i3 && InsideTriangle(u, v, w, pts[j]);
    return !anyInsideTriangle;
  }

  // ---------------------------------------------------------------------
  // Calls on the default settings, as the generators make them

  /** AddVertex on the builder's default settings: the position as it is, with UV (0, 0). */
  method AddPlainVertex(builder: MeshBuilder, position: Vec3) returns (index: int)
    requires builder.Valid() && builder.Settings() == DefaultConfig
    modifies builder
    ensures builder.Valid() && builder.Settings() == DefaultConfig && index == |old(builder.vertices)|
    ensures builder.Data() == MeshData(old(builder.vertices) + [position], old(builder.uvs) + [Zero2], old(builder.triangles))
  {
    DefaultAppend(builder.Data(), position);
    index := builder.AddVertex(position, Zero2);
  }

  /** AddTriangle on the builder's default settings: the three indices appended. */
  method AddPlainTriangle(builder: MeshBuilder, v0: int, v1: int, v2: int)
    requires builder.Valid() && builder.Settings() == DefaultConfig
    modifies builder
    ensures builder.Valid() && builder.Settings() == DefaultConfig
    ensures builder.Data() == old(builder.Data()).(triangles := old(builder.triangles) + [v0, v1, v2])
  {
    DefaultAddsAnything(builder.Data(), [v0, v1, v2]);
    DefaultTriangle(builder.Data(), v0, v1, v2);
    builder.AddTriangle(v0, v1, v2);
  }

  // ---------------------------------------------------------------------
  // Helpers for the loop of TriangulatePolygon

  /** `(i + 2) % n` is the corner after the next one. */
  lemma NextNext(n: int, i: int)
    requires n > 0 && 0 <= i < n
    ensures (i + 1) % n == Next(n, i) && (i + 2) % n == Next(n, Next(n, i))
  {
    if i + 2 < n {
      ModBelow(i + 1, n);
      ModBelow(i + 2, n);
    } else if i + 2 == n {
      ModBelow(i + 1, n);
      ModAfterWrap(n);
    } else {
      ModAfterWrap(n);
    }
  }

  /** A number below `n` is its own remainder. */
  lemma ModBelow(x: int, n: int)
    requires 0 <= x < n
    ensures x % n == x
  {
  }

  /** `n` and `n + 1` have the remainders of 0 and 1. */
  lemma ModAfterWrap(n: int)
    requires n > 0
    ensures n % n == 0 && (n + 1) % n == 1 % n
  {
    if n > 1 {
      assert (n + 1) % n == 1;
    }
  }

  /** The loop's two checks on corner `i` decide together whether it starts an ear. */
  lemma EarChecks(pts: seq<Vec2>, i: int)
    requires 0 <= i < |pts|
    ensures var n := |pts|;
      var i2, i3 := (i + 1) % n, (i + 2) % n;
      IsEar(pts, i) <==>
        Clockwise(pts[i], pts[i2], pts[i3])
        && !(exists j :: 0 <= j < n && j != i && j != i2 && j != i3 && InsideTriangle(pts[i], pts[i2], pts[i3], pts[j]))
  {
    NextNext(|pts|, i);
  }

  /**
   * The loop invariant of TriangulatePolygon: the outline left is drawn from
   * the input indices, the mesh `m` is the starting mesh with the emitted
   * ears added, and the rest of the scan completes the whole outcome.
   */
  ghost predicate Progress(m0: MeshData, cfg: Config, indices: seq<int>, pts: seq<Vec2>, idx: seq<int>, i: int,
    emitted: seq<int>, whole: Outcome, m: MeshData)
  {
    && m0.Wf() && CanShift(m0, cfg, indices)
    && (forall x :: x in idx ==> x in indices)
    && |emitted| % 3 == 0 && CanShift(m0, cfg, emitted)
    && m == EarTriangles(m0, cfg, emitted)
    && ScanReaches(Resume, pts, idx, i, emitted, whole)
  }

  /** The invariant holds before the first corner is looked at. */
  lemma ProgressStarts(m0: MeshData, cfg: Config, indices: seq<int>, points: seq<Vec2>)
    requires m0.Wf() && CanShift(m0, cfg, indices) && |indices| == |points| >= 3
    ensures Progress(m0, cfg, indices, points, indices, 0, [], TriangulateResuming(points, indices), m0)
  {
    assert CanShift(m0, cfg, []);
  }

  /** Passing over a corner that is no ear keeps the invariant. */
  lemma ProgressPastSkip(m0: MeshData, cfg: Config, indices: seq<int>, pts: seq<Vec2>, idx: seq<int>, i: int,
    emitted: seq<int>, whole: Outcome, m: MeshData)
    requires Progress(m0, cfg, indices, pts, idx, i, emitted, whole, m) && i < |pts| && !IsEar(pts, i)
    ensures Progress(m0, cfg, indices, pts, idx, i + 1, emitted, whole, m)
  {
    ReachesPastSkip(Resume, pts, idx, i, emitted, whole);
  }

  /** The wrap pass of the next ear only reads UVs that exist. */
  lemma ProgressEarShiftable(m0: MeshData, cfg: Config, indices: seq<int>, pts: seq<Vec2>, idx: seq<int>, i: int,
    emitted: seq<int>, whole: Outcome, m: MeshData)
    requires Progress(m0, cfg, indices, pts, idx, i, emitted, whole, m) && i < |pts|
    ensures m.Wf() && CanShift(m, cfg, EarIndices(idx, i)) && CanShift(m0, cfg, EarIndices(idx, i))
    ensures CanShift(m, cfg, [idx[i], idx[Next(|idx|, i)], idx[Next(|idx|, Next(|idx|, i))]])
  {
    EarIndicesShiftable(m0, cfg, indices, idx, i);
  }

  /** Adding and clipping an ear of four or more corners keeps the invariant. */
  lemma ProgressPastClip(m0: MeshData, cfg: Config, indices: seq<int>, pts: seq<Vec2>, idx: seq<int>, i: int,
    emitted: seq<int>, whole: Outcome, m: MeshData, m': MeshData)
    requires Progress(m0, cfg, indices, pts, idx, i, emitted, whole, m) && i < |pts| && IsEar(pts, i) && |pts| >= 4
    requires m.Wf() && CanShift(m, cfg, EarIndices(idx, i))
    requires m' == EarTriangle(m, cfg, idx[i], idx[Next(|idx|, i)], idx[Next(|idx|, Next(|idx|, i))])
    ensures Progress(m0, cfg, indices, Clip(pts, i), Clip(idx, i), i, emitted + EarIndices(idx, i), whole, m')
  {
    var t := EarIndices(idx, i);
    EarIndicesShiftable(m0, cfg, indices, idx, i);
    EarTrianglesSnoc(m0, cfg, emitted, t[0], t[1], t[2]);
    assert [t[0], t[1], t[2]] == t;
    ClipKeepsMembers(idx, i);
    ReachesPastClip(Resume, pts, idx, i, emitted, whole);
  }

  /** Adding the ear of the last triangle completes the whole outcome. */
  lemma ProgressFinish(m0: MeshData, cfg: Config, indices: seq<int>, pts: seq<Vec2>, idx: seq<int>, i: int,
    emitted: seq<int>, whole: Outcome, m: MeshData, m': MeshData)
    requires Progress(m0, cfg, indices, pts, idx, i, emitted, whole, m) && i < |pts| && IsEar(pts, i) && |pts| == 3
    requires m.Wf() && CanShift(m, cfg, EarIndices(idx, i))
    requires m' == EarTriangle(m, cfg, idx[i], idx[Next(|idx|, i)], idx[Next(|idx|, Next(|idx|, i))])
    ensures whole == Outcome(emitted + EarIndices(idx, i), Clip(pts, i), Clip(idx, i), Triangulated)
    ensures |whole.triangles| % 3 == 0 && CanShift(m0, cfg, whole.triangles)
    ensures m' == EarTriangles(m0, cfg, whole.triangles)
  {
    var t := EarIndices(idx, i);
    EarIndicesShiftable(m0, cfg, indices, idx, i);
    EarTrianglesSnoc(m0, cfg, emitted, t[0], t[1], t[2]);
    assert [t[0], t[1], t[2]] == t;
    ReachesFinish(Resume, pts, idx, i, emitted, whole);
  }

  /** Adding an ear either completes the whole outcome (three corners left) or keeps the invariant on the clipped outline. */
  lemma ProgressPastEar(m0: MeshData, cfg: Config, indices: seq<int>, pts: seq<Vec2>, idx: seq<int>, i: int,
    emitted: seq<int>, whole: Outcome, m: MeshData, m': MeshData)
    requires Progress(m0, cfg, indices, pts, idx, i, emitted, whole, m) && i < |pts| && IsEar(pts, i) && |pts| >= 3
    requires m.Wf() && CanShift(m, cfg, EarIndices(idx, i))
    requires m' == EarTriangle(m, cfg, idx[i], idx[Next(|idx|, i)], idx[Next(|idx|, Next(|idx|, i))])
    ensures |pts| == 3 ==>
      && whole == Outcome(emitted + EarIndices(idx, i), Clip(pts, i), Clip(idx, i), Triangulated)
      && |whole.triangles| % 3 == 0 && CanShift(m0, cfg, whole.triangles)
      && m' == EarTriangles(m0, cfg, whole.triangles)
    ensures |pts| >= 4 ==> Progress(m0, cfg, indices, Clip(pts, i), Clip(idx, i), i, emitted + EarIndices(idx, i), whole, m')
  {
    if |pts| == 3 {
      ProgressFinish(m0, cfg, indices, pts, idx, i, emitted, whole, m, m');
    } else {
      ProgressPastClip(m0, cfg, indices, pts, idx, i, emitted, whole, m, m');
    }
  }

  /** Running off the end leaves the mesh with every ear the whole outcome emitted. */
  lemma ProgressEnd(m0: MeshData, cfg: Config, indices: seq<int>, pts: seq<Vec2>, idx: seq<int>,
    emitted: seq<int>, whole: Outcome, m: MeshData)
    requires Progress(m0, cfg, indices, pts, idx, |pts|, emitted, whole, m)
    ensures whole == Outcome(emitted, pts, idx, NoEarFound)
    ensures |whole.triangles| % 3 == 0 && CanShift(m0, cfg, whole.triangles)
    ensures m == EarTriangles(m0, cfg, whole.triangles)
  {
    ReachesEnd(Resume, pts, idx, emitted, whole);
  }

  /** Clipping keeps only entries that were there. */
  lemma ClipKeepsMembers(idx: seq<int>, i: int)
    requires 0 <= i < |idx|
    ensures forall x :: x in Clip(idx, i) ==> x in idx
  {
    var r := Clip(idx, i);
    forall x | x in r
      ensures x in idx
    {
      var k :| 0 <= k < |r| && r[k] == x;
      if k < Next(|idx|, i) {
        assert idx[k] == x;
      } else {
        assert idx[k + 1] == x;
      }
    }
  }

  /** The ear's three indices come from the input list, so the wrap pass can read them. */
  lemma EarIndicesShiftable(m: MeshData, cfg: Config, indices: seq<int>, idx: seq<int>, i: int)
    requires CanShift(m, cfg, indices) && 0 <= i < |idx|
    requires forall x :: x in idx ==> x in indices
    ensures CanShift(m, cfg, EarIndices(idx, i))
  {
    var n := |idx|;
    var t := EarIndices(idx, i);
    if cfg.automaticUvRange.Some? {
      forall k | 0 <= k < 3
        ensures 0 <= t[k] < |m.uvs|
      {
        assert t[k] in idx;
        var j :| 0 <= j < |indices| && indices[j] == t[k];
      }
    }
  }
}
