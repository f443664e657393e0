/**
 * The mesh MeshBuilder accumulates (three append-only lists) and the settings
 * it reads, with every builder operation as a pure step from one mesh to the
 * next. The MeshBuilder class in module MeshBuilding is proved to perform
 * exactly these steps; the lemmas here say what the steps do.
 */
module MeshModel {
  import opened Geometry
  import opened UvRanges
  import opened Wrappers
  import opened UvWrap

  /** The three lists: positions, UVs (one per vertex) and triangle indices (three per triangle). */
  datatype MeshData = MeshData(vertices: seq<Vec3>, uvs: seq<Vec2>, triangles: seq<int>)
  {
    /** One UV per vertex: the two lists run in parallel. */
    predicate Wf()
    {
      |vertices| == |uvs|
    }

    /**
     * Every triangle index addresses a vertex. The builder does not check
     * this itself; it holds as long as every index passed to it was valid.
     */
    predicate IndicesValid()
    {
      forall k :: 0 <= k < |triangles| ==> 0 <= triangles[k] < |vertices|
    }

    /** A vertex index that the lists can be read at. */
    predicate HasVertex(v: int)
    {
      0 <= v < |vertices| && v < |uvs|
    }
  }

  const EmptyMesh := MeshData([], [], [])

  /** The builder's public settings. */
  datatype Config = Config(
    isDoubleSided: bool,
    offset: Vec3,
    textureSizeInUnits: Vec2,
    automaticUvOrigin: Vec3,
    automaticUvOffset: Vec2,
    automaticUvRange: Option<UvRange>,
    triangleSubdivisionEnabled: bool)

  /** The settings of a new builder, and the ones Reset restores. */
  const DefaultConfig := Config(false, Zero3, One2, Zero3, Zero2, None, false)

  /** The UV a new vertex gets: `y` is interpolated through the vertical range. */
  function RemapUv(cfg: Config, uv: Vec2): Vec2
  {
    Vec2(uv.x, UvRangeY(cfg.automaticUvRange).Lerp(uv.y))
  }

  /** Without a range the remap interpolates through [0, 1], which leaves a UV as it is. */
  lemma RemapWithoutRange(cfg: Config, uv: Vec2)
    requires cfg.automaticUvRange.None?
    ensures RemapUv(cfg, uv) == uv
  {
  }

  // ---------------------------------------------------------------------
  // Vertices

  /** AddVertex: one position (moved by the offset) and one remapped UV are appended. */
  function AppendVertex(m: MeshData, cfg: Config, position: Vec3, uv: Vec2): (m': MeshData)
    ensures m.Wf() ==> m'.Wf()
    ensures m.IndicesValid() ==> m'.IndicesValid()
    ensures |m'.vertices| == |m.vertices| + 1 && |m'.uvs| == |m.uvs| + 1
    ensures m'.vertices[..|m.vertices|] == m.vertices && m'.uvs[..|m.uvs|] == m.uvs
    ensures m'.triangles == m.triangles
  {
    MeshData(m.vertices + [position.Plus(cfg.offset)], m.uvs + [RemapUv(cfg, uv)], m.triangles)
  }

  /** Clone: AddVertex with the stored position and UV of an existing vertex. */
  function CloneVertex(m: MeshData, cfg: Config, v: int): (m': MeshData)
    requires m.HasVertex(v)
    ensures m.Wf() ==> m'.Wf()
    ensures |m'.vertices| == |m.vertices| + 1
  {
    AppendVertex(m, cfg, m.vertices[v], m.uvs[v])
  }

  /**
   * A clone is an exact copy of its source vertex exactly when there is no
   * offset and the UV remap leaves that vertex's `y` where it is.
   */
  lemma CloneIsCopyIff(m: MeshData, cfg: Config, v: int)
    requires m.Wf() && m.HasVertex(v)
    ensures var m' := CloneVertex(m, cfg, v);
      (m'.vertices[|m.vertices|] == m.vertices[v] && m'.uvs[|m.uvs|] == m.uvs[v])
      <==> (cfg.offset == Zero3 && UvRangeY(cfg.automaticUvRange).Lerp(m.uvs[v].y) == m.uvs[v].y)
  {
    var p := m.vertices[v];
    if p.Plus(cfg.offset) == p {
      assert cfg.offset.x == p.Plus(cfg.offset).x - p.x;
      assert cfg.offset.y == p.Plus(cfg.offset).y - p.y;
      assert cfg.offset.z == p.Plus(cfg.offset).z - p.z;
    }
  }

  /** In particular, with no offset and no range every clone is an exact copy. */
  lemma CloneWithDefaults(m: MeshData, cfg: Config, v: int)
    requires m.Wf() && m.HasVertex(v)
    requires cfg.offset == Zero3 && cfg.automaticUvRange.None?
    ensures CloneVertex(m, cfg, v) == MeshData(m.vertices + [m.vertices[v]], m.uvs + [m.uvs[v]], m.triangles)
  {
    RemapWithoutRange(cfg, m.uvs[v]);
  }

  // ---------------------------------------------------------------------
  // Triangles

  /** The settings under which the wrap pass is well defined. */
  predicate Shiftable(cfg: Config)
  {
    Usable(cfg.automaticUvRange)
  }

  /** The wrap pass can run on these vertices: with a range set it reads their UVs. */
  predicate CanShift(m: MeshData, cfg: Config, vs: seq<int>)
  {
    Shiftable(cfg) && (cfg.automaticUvRange.Some? ==> IndicesIn(vs, |m.uvs|))
  }

  /** AddTriangle can run on these vertices: the double-sided copy also reads their positions. */
  predicate CanAdd(m: MeshData, cfg: Config, vs: seq<int>)
  {
    CanShift(m, cfg, vs) && (cfg.isDoubleSided ==> IndicesIn(vs, |m.vertices|))
  }

  /** A list of three indices is valid exactly when each of them is. */
  lemma IndicesOfThree(a: int, b: int, c: int, n: int)
    ensures IndicesIn([a, b, c], n) <==> 0 <= a < n && 0 <= b < n && 0 <= c < n
  {
    assert [a, b, c][0] == a && [a, b, c][1] == b && [a, b, c][2] == c;
  }

  /** A list of four indices is valid exactly when each of them is. */
  lemma IndicesOfFour(a: int, b: int, c: int, d: int, n: int)
    ensures IndicesIn([a, b, c, d], n) <==> 0 <= a < n && 0 <= b < n && 0 <= c < n && 0 <= d < n
  {
    assert [a, b, c, d][0] == a && [a, b, c, d][1] == b && [a, b, c, d][2] == c && [a, b, c, d][3] == d;
  }

  /** AddTriangleInternal: the wrap pass on the three UVs, then the three indices appended. */
  function TriangleInternal(m: MeshData, cfg: Config, v0: int, v1: int, v2: int): (m': MeshData)
    requires m.Wf() && CanShift(m, cfg, [v0, v1, v2])
    ensures m'.Wf()
    ensures m'.vertices == m.vertices && m'.triangles == m.triangles + [v0, v1, v2]
    ensures m.IndicesValid() && IndicesIn([v0, v1, v2], |m.vertices|) ==> m'.IndicesValid()
  {
    MeshData(m.vertices, WrapPass(m.uvs, [v0, v1, v2], cfg.automaticUvRange), m.triangles + [v0, v1, v2])
  }

  /**
   * AddTriangle: the triangle itself, and when double-sided three clones
   * (of v0, v2, v1 in that order) joined into the reverse-wound triangle.
   */
  function Triangle(m: MeshData, cfg: Config, v0: int, v1: int, v2: int): (m': MeshData)
    requires m.Wf() && CanAdd(m, cfg, [v0, v1, v2])
    ensures m'.Wf()
    ensures m.IndicesValid() && IndicesIn([v0, v1, v2], |m.vertices|) ==> m'.IndicesValid()
    ensures |m'.vertices| == |m.vertices| + (if cfg.isDoubleSided then 3 else 0)
    ensures |m'.triangles| == |m.triangles| + (if cfg.isDoubleSided then 6 else 3)
  {
    IndicesOfThree(v0, v1, v2, |m.vertices|);
    var t := TriangleInternal(m, cfg, v0, v1, v2);
    if !cfg.isDoubleSided then t
    else
      var n := |t.vertices|;
      var c := CloneVertex(CloneVertex(CloneVertex(t, cfg, v0), cfg, v2), cfg, v1);
      IndicesOfThree(n, n + 1, n + 2, |c.vertices|);
      TriangleInternal(c, cfg, n, n + 1, n + 2)
  }

  /** Single-sided, AddTriangle appends exactly `v0, v1, v2` and adds no vertex. */
  lemma TriangleSingleSided(m: MeshData, cfg: Config, v0: int, v1: int, v2: int)
    requires m.Wf() && CanAdd(m, cfg, [v0, v1, v2])
    requires !cfg.isDoubleSided
    ensures Triangle(m, cfg, v0, v1, v2).triangles == m.triangles + [v0, v1, v2]
    ensures Triangle(m, cfg, v0, v1, v2).vertices == m.vertices
  {
  }

  /**
   * Double-sided, AddTriangle also appends copies of v0, v2, v1 (moved by the
   * offset again) and the triangle on them, which has the opposite winding.
   */
  lemma TriangleDoubleSided(m: MeshData, cfg: Config, v0: int, v1: int, v2: int)
    requires m.Wf() && CanAdd(m, cfg, [v0, v1, v2])
    requires cfg.isDoubleSided && m.HasVertex(v0) && m.HasVertex(v1) && m.HasVertex(v2)
    ensures var n := |m.vertices|;
      && Triangle(m, cfg, v0, v1, v2).triangles == m.triangles + [v0, v1, v2, n, n + 1, n + 2]
      && Triangle(m, cfg, v0, v1, v2).vertices == m.vertices
           + [m.vertices[v0].Plus(cfg.offset), m.vertices[v2].Plus(cfg.offset), m.vertices[v1].Plus(cfg.offset)]
  {
    IndicesOfThree(v0, v1, v2, |m.vertices|);
    var t := TriangleInternal(m, cfg, v0, v1, v2);
    var c0 := CloneVertex(t, cfg, v0);
    var c1 := CloneVertex(c0, cfg, v2);
    var c2 := CloneVertex(c1, cfg, v1);
    assert c2.vertices == m.vertices
      + [m.vertices[v0].Plus(cfg.offset), m.vertices[v2].Plus(cfg.offset), m.vertices[v1].Plus(cfg.offset)];
  }

  // ---------------------------------------------------------------------
  // The ears of MeshBuilder.TriangulatePolygon

  /**
   * One ear: the wrap pass on its three UVs, then AddTriangleInternal, which
   * runs the pass a second time.
   */
  function EarTriangle(m: MeshData, cfg: Config, a: int, b: int, c: int): (m': MeshData)
    requires m.Wf() && CanShift(m, cfg, [a, b, c])
    ensures m'.Wf() && m'.vertices == m.vertices && m'.triangles == m.triangles + [a, b, c]
  {
    var s := m.(uvs := WrapPass(m.uvs, [a, b, c], cfg.automaticUvRange));
    TriangleInternal(s, cfg, a, b, c)
  }

  /** The ears' triangles, three indices at a time, in order. */
  function EarTriangles(m: MeshData, cfg: Config, ts: seq<int>): (m': MeshData)
    requires m.Wf() && |ts| % 3 == 0 && CanShift(m, cfg, ts)
    ensures m'.Wf() && m'.vertices == m.vertices && m'.triangles == m.triangles + ts
    decreases |ts|
  {
    if ts == [] then m
    else
      IndicesOfThree(ts[0], ts[1], ts[2], |m.uvs|);
      var m1 := EarTriangle(m, cfg, ts[0], ts[1], ts[2]);
      var m' := EarTriangles(m1, cfg, ts[3..]);
      assert ts == [ts[0], ts[1], ts[2]] + ts[3..];
      m'
  }

  /** One more ear at the end is one more EarTriangle step. */
  lemma {:induction false} EarTrianglesSnoc(m: MeshData, cfg: Config, ts: seq<int>, a: int, b: int, c: int)
    requires m.Wf() && |ts| % 3 == 0 && CanShift(m, cfg, ts) && CanShift(m, cfg, [a, b, c])
    ensures |ts + [a, b, c]| % 3 == 0 && CanShift(m, cfg, ts + [a, b, c])
    ensures EarTriangles(m, cfg, ts + [a, b, c]) == EarTriangle(EarTriangles(m, cfg, ts), cfg, a, b, c)
    decreases |ts|
  {
    IndicesOfThree(a, b, c, |m.uvs|);
    if ts != [] {
      IndicesOfThree(ts[0], ts[1], ts[2], |m.uvs|);
      var m1 := EarTriangle(m, cfg, ts[0], ts[1], ts[2]);
      assert (ts + [a, b, c])[3..] == ts[3..] + [a, b, c];
      EarTrianglesSnoc(m1, cfg, ts[3..], a, b, c);
    } else {
      assert [a, b, c][3..] == [];
    }
  }

  /**
   * The second pass of an ear changes nothing when the tiles point upwards
   * (or there is none) and the ear's corners are distinct: an ear adds
   * exactly the triangle AddTriangleInternal adds.
   */
  lemma EarTriangleIsOnePass(m: MeshData, cfg: Config, a: int, b: int, c: int)
    requires m.Wf() && CanShift(m, cfg, [a, b, c])
    requires a != b && b != c && a != c
    requires cfg.automaticUvRange.Some? && cfg.automaticUvRange.value.numRepeatsVertical != 0 ==>
      TileHeight(cfg.automaticUvRange.value) > 0.0
    ensures EarTriangle(m, cfg, a, b, c) == TriangleInternal(m, cfg, a, b, c)
  {
    if cfg.automaticUvRange.Some? {
      assert Distinct([a, b, c]);
      WrapPassIdempotent(m.uvs, [a, b, c], cfg.automaticUvRange);
    }
  }

  // ---------------------------------------------------------------------
  // Quads

  /** AddQuad: the wrap pass on all four UVs, then the split along the 00-11 diagonal. */
  function Quad(m: MeshData, cfg: Config, v00: int, v01: int, v10: int, v11: int): (m': MeshData)
    requires m.Wf() && CanAdd(m, cfg, [v00, v01, v10, v11])
    ensures m'.Wf()
    ensures m.IndicesValid() && IndicesIn([v00, v01, v10, v11], |m.vertices|) ==> m'.IndicesValid()
    ensures |m'.vertices| == |m.vertices| + (if cfg.isDoubleSided then 6 else 0)
    ensures |m'.triangles| == |m.triangles| + (if cfg.isDoubleSided then 12 else 6)
  {
    var n := |m.vertices|;
    IndicesOfFour(v00, v01, v10, v11, n);
    IndicesOfThree(v00, v11, v10, n);
    var s := m.(uvs := WrapPass(m.uvs, [v00, v01, v10, v11], cfg.automaticUvRange));
    var a := Triangle(s, cfg, v00, v11, v10);
    IndicesOfThree(v00, v01, v11, n);
    IndicesOfThree(v00, v01, v11, |a.vertices|);
    Triangle(a, cfg, v00, v01, v11)
  }

  /** AddQuad's split along the 00-11 diagonal: the triangles (v00, v11, v10) and (v00, v01, v11). */
  function SplitQuad(v00: int, v01: int, v10: int, v11: int): (r: seq<int>)
    ensures |r| == 6 && r[..3] == [v00, v11, v10] && r[3..] == [v00, v01, v11]
  {
    [v00, v11, v10, v00, v01, v11]
  }

  /** Single-sided, a quad is exactly the triangles (v00, v11, v10) and (v00, v01, v11). */
  lemma QuadSplit(m: MeshData, cfg: Config, v00: int, v01: int, v10: int, v11: int)
    requires m.Wf() && CanAdd(m, cfg, [v00, v01, v10, v11]) && !cfg.isDoubleSided
    ensures Quad(m, cfg, v00, v01, v10, v11).triangles == m.triangles + SplitQuad(v00, v01, v10, v11)
    ensures Quad(m, cfg, v00, v01, v10, v11).vertices == m.vertices
  {
    var n := |m.vertices|;
    IndicesOfFour(v00, v01, v10, v11, n);
    IndicesOfThree(v00, v11, v10, n);
    IndicesOfThree(v00, v01, v11, n);
    var s := m.(uvs := WrapPass(m.uvs, [v00, v01, v10, v11], cfg.automaticUvRange));
    TriangleSingleSided(s, cfg, v00, v11, v10);
    TriangleSingleSided(Triangle(s, cfg, v00, v11, v10), cfg, v00, v01, v11);
  }

  // ---------------------------------------------------------------------
  // Overloads taking positions

  /** AddTriangle(position, uv, ...): three new vertices, then the triangle on them. */
  function VertexTriangle(m: MeshData, cfg: Config, p1: Vec3, uv1: Vec2, p2: Vec3, uv2: Vec2, p3: Vec3, uv3: Vec2): (m': MeshData)
    requires m.Wf() && Shiftable(cfg)
    ensures m'.Wf()
    ensures m.IndicesValid() ==> m'.IndicesValid()
    ensures |m'.vertices| == |m.vertices| + (if cfg.isDoubleSided then 6 else 3)
    ensures |m'.triangles| == |m.triangles| + (if cfg.isDoubleSided then 6 else 3)
  {
    var n := |m.vertices|;
    var a := AppendVertex(AppendVertex(AppendVertex(m, cfg, p1, uv1), cfg, p2, uv2), cfg, p3, uv3);
    Triangle(a, cfg, n, n + 1, n + 2)
  }

  /** AddQuad(position, uv, ...): four new vertices, then the quad on them. */
  function VertexQuad(m: MeshData, cfg: Config, p00: Vec3, uv00: Vec2, p01: Vec3, uv01: Vec2,
                      p10: Vec3, uv10: Vec2, p11: Vec3, uv11: Vec2): (m': MeshData)
    requires m.Wf() && Shiftable(cfg)
    ensures m'.Wf()
    ensures m.IndicesValid() ==> m'.IndicesValid()
    ensures |m'.vertices| == |m.vertices| + (if cfg.isDoubleSided then 10 else 4)
    ensures |m'.triangles| == |m.triangles| + (if cfg.isDoubleSided then 12 else 6)
  {
    var n := |m.vertices|;
    var a := AppendVertex(AppendVertex(AppendVertex(AppendVertex(m, cfg, p00, uv00), cfg, p01, uv01), cfg, p10, uv10), cfg, p11, uv11);
    Quad(a, cfg, n, n + 1, n + 2, n + 3)
  }

  /** The UVs the automatic projection assigns to the corners of a quad. */
  datatype QuadUvs = QuadUvs(uv00: Vec2, uv01: Vec2, uv10: Vec2, uv11: Vec2)

  /**
   * The automatic UV projection of a quad's corners (from the face normal,
   * the UV origin, offset and texture size); its float geometry is opaque here.
   */
  type QuadProjection = (Vec3, Vec3, Vec3, Vec3) -> QuadUvs

  /** AddQuad(position x4): the projected UVs, then AddQuad(position, uv, ...). */
  function ProjectedQuad(m: MeshData, cfg: Config, project: QuadProjection, p00: Vec3, p01: Vec3, p10: Vec3, p11: Vec3): (m': MeshData)
    requires m.Wf() && Shiftable(cfg)
    ensures m'.Wf()
    ensures m.IndicesValid() ==> m'.IndicesValid()
    ensures |m'.vertices| == |m.vertices| + (if cfg.isDoubleSided then 10 else 4)
    ensures |m'.triangles| == |m.triangles| + (if cfg.isDoubleSided then 12 else 6)
  {
    var q := project(p00, p01, p10, p11);
    VertexQuad(m, cfg, p00, q.uv00, p01, q.uv01, p10, q.uv10, p11, q.uv11)
  }

  /** The indices of the split of a quad on the four vertices from `n` on. */
  function QuadIndices(n: int): (ts: seq<int>)
    ensures |ts| == 6 && forall k :: 0 <= k < 6 ==> n <= ts[k] < n + 4
  {
    SplitQuad(n, n + 1, n + 2, n + 3)
  }

  /** The stored positions of four corners: each moved by the offset. */
  function Corners(cfg: Config, p00: Vec3, p01: Vec3, p10: Vec3, p11: Vec3): seq<Vec3>
  {
    [p00.Plus(cfg.offset), p01.Plus(cfg.offset), p10.Plus(cfg.offset), p11.Plus(cfg.offset)]
  }

  /** A single-sided quad on four new vertices adds those vertices and indices among them only. */
  lemma ProjectedQuadSingleSided(m: MeshData, cfg: Config, project: QuadProjection, p00: Vec3, p01: Vec3, p10: Vec3, p11: Vec3)
    requires m.Wf() && Shiftable(cfg) && !cfg.isDoubleSided
    ensures var m' := ProjectedQuad(m, cfg, project, p00, p01, p10, p11);
      && m'.vertices == m.vertices + Corners(cfg, p00, p01, p10, p11)
      && m'.triangles == m.triangles + QuadIndices(|m.vertices|)
  {
    var q := project(p00, p01, p10, p11);
    var n := |m.vertices|;
    var a := AppendVertex(AppendVertex(AppendVertex(AppendVertex(m, cfg, p00, q.uv00), cfg, p01, q.uv01), cfg, p10, q.uv10), cfg, p11, q.uv11);
    assert a.vertices == m.vertices + Corners(cfg, p00, p01, p10, p11);
    QuadSplit(a, cfg, n, n + 1, n + 2, n + 3);
  }

  /** The UVs the automatic projection assigns to the corners of a triangle. */
  datatype TriangleUvs = TriangleUvs(uv1: Vec2, uv2: Vec2, uv3: Vec2)

  /** The automatic UV projection of a triangle's corners; as opaque as QuadProjection. */
  type TriangleProjection = (Vec3, Vec3, Vec3) -> TriangleUvs

  /** AddTriangle(position x3): the projected UVs, then AddTriangle(position, uv, ...). */
  function ProjectedTriangle(m: MeshData, cfg: Config, project: TriangleProjection, p1: Vec3, p2: Vec3, p3: Vec3): (m': MeshData)
    requires m.Wf() && Shiftable(cfg)
    ensures m'.Wf()
    ensures m.IndicesValid() ==> m'.IndicesValid()
    ensures |m'.vertices| == |m.vertices| + (if cfg.isDoubleSided then 6 else 3)
    ensures |m'.triangles| == |m.triangles| + (if cfg.isDoubleSided then 6 else 3)
  {
    var t := project(p1, p2, p3);
    VertexTriangle(m, cfg, p1, t.uv1, p2, t.uv2, p3, t.uv3)
  }

  /** A single-sided projected triangle adds its three corners and one triangle on exactly them. */
  lemma ProjectedTriangleSingleSided(m: MeshData, cfg: Config, project: TriangleProjection, p1: Vec3, p2: Vec3, p3: Vec3)
    requires m.Wf() && Shiftable(cfg) && !cfg.isDoubleSided
    ensures var m' := ProjectedTriangle(m, cfg, project, p1, p2, p3);
      var n := |m.vertices|;
      && m'.vertices == m.vertices + [p1.Plus(cfg.offset), p2.Plus(cfg.offset), p3.Plus(cfg.offset)]
      && m'.triangles == m.triangles + [n, n + 1, n + 2]
  {
    var t := project(p1, p2, p3);
    var n := |m.vertices|;
    var a := AppendVertex(AppendVertex(AppendVertex(m, cfg, p1, t.uv1), cfg, p2, t.uv2), cfg, p3, t.uv3);
    IndicesOfThree(n, n + 1, n + 2, |a.uvs|);
    assert a.vertices == m.vertices + [p1.Plus(cfg.offset), p2.Plus(cfg.offset), p3.Plus(cfg.offset)];
    TriangleSingleSided(a, cfg, n, n + 1, n + 2);
  }

  // ---------------------------------------------------------------------
  // Cuboids

  /**
   * AddCuboid: exactly eight positions (numbered as the corners of a unit cube,
   * bit 0 = x, bit 1 = y, bit 2 = z) are demanded; then six projected quads.
   */
  function Cuboid(m: MeshData, cfg: Config, project: QuadProjection, pos: seq<Vec3>): (r: Result<MeshData, string>)
    requires m.Wf() && Shiftable(cfg)
    ensures r.Err? <==> |pos| != 8
    ensures r.Ok? ==> r.value.Wf()
    ensures r.Ok? && m.IndicesValid() ==> r.value.IndicesValid()
    ensures r.Ok? ==> |r.value.triangles| == |m.triangles| + (if cfg.isDoubleSided then 72 else 36)
  {
    if |pos| != 8 then Err("AddCuboid takes 8 vertices.")
    else
      var m1 := ProjectedQuad(m, cfg, project, pos[0], pos[4], pos[2], pos[6]);
      var m2 := ProjectedQuad(m1, cfg, project, pos[1], pos[0], pos[3], pos[2]);
      var m3 := ProjectedQuad(m2, cfg, project, pos[4], pos[5], pos[6], pos[7]);
      var m4 := ProjectedQuad(m3, cfg, project, pos[1], pos[5], pos[7], pos[3]);
      var m5 := ProjectedQuad(m4, cfg, project, pos[2], pos[6], pos[3], pos[7]);
      Ok(ProjectedQuad(m5, cfg, project, pos[1], pos[5], pos[0], pos[4]))
  }

  /**
   * A single-sided cuboid appends the 24 face corners (each an input position
   * moved by the offset, four per face in the face order) and 36 indices,
   * every one addressing a corner it just added.
   */
  lemma CuboidSingleSided(m: MeshData, cfg: Config, project: QuadProjection, pos: seq<Vec3>)
    requires m.Wf() && Shiftable(cfg) && !cfg.isDoubleSided && |pos| == 8
    ensures var r := Cuboid(m, cfg, project, pos);
      var n := |m.vertices|;
      && r.Ok?
      && r.value.vertices == m.vertices
           + Corners(cfg, pos[0], pos[4], pos[2], pos[6]) + Corners(cfg, pos[1], pos[0], pos[3], pos[2])
           + Corners(cfg, pos[4], pos[5], pos[6], pos[7]) + Corners(cfg, pos[1], pos[5], pos[7], pos[3])
           + Corners(cfg, pos[2], pos[6], pos[3], pos[7]) + Corners(cfg, pos[1], pos[5], pos[0], pos[4])
      && r.value.triangles == m.triangles
           + QuadIndices(n) + QuadIndices(n + 4) + QuadIndices(n + 8)
           + QuadIndices(n + 12) + QuadIndices(n + 16) + QuadIndices(n + 20)
  {
    var m1 := ProjectedQuad(m, cfg, project, pos[0], pos[4], pos[2], pos[6]);
    var m2 := ProjectedQuad(m1, cfg, project, pos[1], pos[0], pos[3], pos[2]);
    var m3 := ProjectedQuad(m2, cfg, project, pos[4], pos[5], pos[6], pos[7]);
    var m4 := ProjectedQuad(m3, cfg, project, pos[1], pos[5], pos[7], pos[3]);
    var m5 := ProjectedQuad(m4, cfg, project, pos[2], pos[6], pos[3], pos[7]);
    ProjectedQuadSingleSided(m, cfg, project, pos[0], pos[4], pos[2], pos[6]);
    ProjectedQuadSingleSided(m1, cfg, project, pos[1], pos[0], pos[3], pos[2]);
    ProjectedQuadSingleSided(m2, cfg, project, pos[4], pos[5], pos[6], pos[7]);
    ProjectedQuadSingleSided(m3, cfg, project, pos[1], pos[5], pos[7], pos[3]);
    ProjectedQuadSingleSided(m4, cfg, project, pos[2], pos[6], pos[3], pos[7]);
    ProjectedQuadSingleSided(m5, cfg, project, pos[1], pos[5], pos[0], pos[4]);
  }

  /** The 36 indices of six quads laid out one after the other from `n` on. */
  function SixQuadIndices(n: int): (ts: seq<int>)
    ensures |ts| == 36
    ensures forall k :: 0 <= k < 36 ==> n <= ts[k] < n + 24
  {
    var ts := QuadIndices(n) + QuadIndices(n + 4) + QuadIndices(n + 8)
      + QuadIndices(n + 12) + QuadIndices(n + 16) + QuadIndices(n + 20);
    assert forall x :: x in ts ==> n <= x < n + 24;
    ts
  }

  /** Counted over the whole cube: 24 vertices and 36 indices. */
  lemma CuboidCounts(m: MeshData, cfg: Config, project: QuadProjection, pos: seq<Vec3>)
    requires m.Wf() && Shiftable(cfg) && !cfg.isDoubleSided && |pos| == 8
    ensures Cuboid(m, cfg, project, pos).Ok?
    ensures |Cuboid(m, cfg, project, pos).value.vertices| == |m.vertices| + 24
    ensures |Cuboid(m, cfg, project, pos).value.triangles| == |m.triangles| + 36
  {
    CuboidSingleSided(m, cfg, project, pos);
  }

  /** Every index a single-sided cuboid appends addresses one of the 24 vertices it added. */
  lemma CuboidIndicesFresh(m: MeshData, cfg: Config, project: QuadProjection, pos: seq<Vec3>)
    requires m.Wf() && Shiftable(cfg) && !cfg.isDoubleSided && |pos| == 8
    ensures Cuboid(m, cfg, project, pos).Ok?
    ensures var ts := Cuboid(m, cfg, project, pos).value.triangles;
      forall k :: |m.triangles| <= k < |m.triangles| + 36 ==> |m.vertices| <= ts[k] < |m.vertices| + 24
  {
    CuboidTriangles(m, cfg, project, pos);
    var ts := Cuboid(m, cfg, project, pos).value.triangles;
    NewIndices(m.triangles, SixQuadIndices(|m.vertices|), ts, |m.vertices|);
  }

  /** The indices a single-sided cuboid appends are the six quads' in order. */
  lemma CuboidTriangles(m: MeshData, cfg: Config, project: QuadProjection, pos: seq<Vec3>)
    requires m.Wf() && Shiftable(cfg) && !cfg.isDoubleSided && |pos| == 8
    ensures Cuboid(m, cfg, project, pos).Ok?
    ensures Cuboid(m, cfg, project, pos).value.triangles == m.triangles + SixQuadIndices(|m.vertices|)
  {
    var n := |m.vertices|;
    CuboidSingleSided(m, cfg, project, pos);
    SixQuadIndicesUnfold(n);
    AppendSix(m.triangles, QuadIndices(n), QuadIndices(n + 4), QuadIndices(n + 8),
      QuadIndices(n + 12), QuadIndices(n + 16), QuadIndices(n + 20));
  }

  lemma AppendSix<T>(t: seq<T>, a: seq<T>, b: seq<T>, c: seq<T>, d: seq<T>, e: seq<T>, f: seq<T>)
    ensures t + a + b + c + d + e + f == t + (a + b + c + d + e + f)
  {
  }

  lemma SixQuadIndicesUnfold(n: int)
    ensures SixQuadIndices(n) == QuadIndices(n) + QuadIndices(n + 4) + QuadIndices(n + 8)
      + QuadIndices(n + 12) + QuadIndices(n + 16) + QuadIndices(n + 20)
  {
  }

  lemma NewIndices(before: seq<int>, added: seq<int>, ts: seq<int>, n: int)
    requires ts == before + added && |added| == 36
    requires forall k :: 0 <= k < 36 ==> n <= added[k] < n + 24
    ensures forall k :: |before| <= k < |before| + 36 ==> n <= ts[k] < n + 24
  {
    assert forall k :: |before| <= k < |before| + 36 ==> ts[k] == added[k - |before|];
  }

  // ---------------------------------------------------------------------
  // A builder that keeps its default settings (Extrude and LatheMeshBuilder use one)

  /** The UVs of `k` vertices added without one: AddVertex's default, (0, 0). */
  function Blank(k: nat): (r: seq<Vec2>)
    ensures |r| == k
  {
    seq(k, _ => Zero2)
  }

  /** Blank UVs for two runs of vertices are the blank UVs of the whole run. */
  lemma BlankSplit(a: nat, b: nat)
    ensures Blank(a + b) == Blank(a) + Blank(b)
  {
  }

  /** Appending one run of plain vertices after another appends the two runs together. */
  lemma PlainGrows(m0: MeshData, before: seq<Vec3>, more: seq<Vec3>, m1: MeshData, m2: MeshData)
    requires m1 == m0.(vertices := m0.vertices + before, uvs := m0.uvs + Blank(|before|))
    requires m2 == m1.(vertices := m1.vertices + more, uvs := m1.uvs + Blank(|more|))
    ensures m2 == m0.(vertices := m0.vertices + (before + more), uvs := m0.uvs + Blank(|before + more|))
  {
    BlankSplit(|before|, |more|);
    assert m0.vertices + before + more == m0.vertices + (before + more);
    assert m0.uvs + Blank(|before|) + Blank(|more|) == m0.uvs + (Blank(|before|) + Blank(|more|));
  }

  /** The same for a run of one vertex added with UV (0, 0). */
  lemma PlainGrowsByOne(m0: MeshData, before: seq<Vec3>, v: Vec3, m1: MeshData, m2: MeshData)
    requires m1 == m0.(vertices := m0.vertices + before, uvs := m0.uvs + Blank(|before|))
    requires m2 == MeshData(m1.vertices + [v], m1.uvs + [Zero2], m1.triangles)
    ensures m2 == m0.(vertices := m0.vertices + (before + [v]), uvs := m0.uvs + Blank(|before + [v]|))
  {
    assert Blank(1) == [Zero2];
    PlainGrows(m0, before, [v], m1, m2);
  }

  /** The default settings let AddTriangle and AddQuad take any indices: no range to read UVs for, single-sided. */
  lemma DefaultAddsAnything(m: MeshData, vs: seq<int>)
    ensures CanAdd(m, DefaultConfig, vs)
  {
  }

  /** AddVertex(position) on default settings: the position as it is, and UV (0, 0). */
  lemma DefaultAppend(m: MeshData, position: Vec3)
    ensures AppendVertex(m, DefaultConfig, position, Zero2)
      == MeshData(m.vertices + [position], m.uvs + [Zero2], m.triangles)
  {
    RemapWithoutRange(DefaultConfig, Zero2);
  }

  /** AddTriangle on default settings appends the three indices and nothing else. */
  lemma DefaultTriangle(m: MeshData, v0: int, v1: int, v2: int)
    requires m.Wf()
    ensures Triangle(m, DefaultConfig, v0, v1, v2) == m.(triangles := m.triangles + [v0, v1, v2])
  {
  }

  /** AddQuad on default settings appends its two triangles and nothing else. */
  lemma DefaultQuad(m: MeshData, v00: int, v01: int, v10: int, v11: int)
    requires m.Wf()
    ensures Quad(m, DefaultConfig, v00, v01, v10, v11) == m.(triangles := m.triangles + SplitQuad(v00, v01, v10, v11))
  {
    DefaultTriangle(m, v00, v11, v10);
    DefaultTriangle(m.(triangles := m.triangles + [v00, v11, v10]), v00, v01, v11);
  }
}
