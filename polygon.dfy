/**
 * Ear-clipping triangulation of a simple clockwise polygon, shared by
 * MeshBuilder.TriangulatePolygon and Extrude.TriangulatePolygon: the
 * orientation and containment predicates, one scan step, and the scan
 * itself in its two variants (after clipping an ear, restart at the first
 * corner, or resume at the same position).
 */
module EarClipping {
  import opened Geometry
  import opened Lists

  // ---------------------------------------------------------------------
  // Orientation

  /**
   * The turn taken at p2 on the way p1 -> p2 -> p3: the dot product of the
   * normal of the first edge with the second edge (twice the signed area).
   */
  function Turn(p1: Vec2, p2: Vec2, p3: Vec2): real
  {
    var d1 := Vec2(p2.x - p1.x, p2.y - p1.y);
    var d2 := Vec2(p3.x - p2.x, p3.y - p2.y);
    -d1.y * d2.x + d1.x * d2.y
  }

  /**
   * A strictly clockwise turn: anticlockwise and collinear triples are not
   * clockwise, so in particular its three points are distinct, and walking
   * a clockwise triple backwards turns anticlockwise.
   */
  predicate Clockwise(p1: Vec2, p2: Vec2, p3: Vec2)
    ensures Clockwise(p1, p2, p3) ==> p1 != p2 && p2 != p3 && p3 != p1
    ensures Clockwise(p1, p2, p3) <==> Turn(p3, p2, p1) > 0.0
  {
    TurnReverses(p1, p2, p3);
    TurnOfRepeated(p1, p2);
    TurnOfRepeated(p1, p3);
    TurnOfRepeated(p2, p1);
    Turn(p1, p2, p3) < 0.0
  }

  /**
   * Whether `t` lies inside the triangle or on its boundary, whichever way
   * the triangle winds; its own corners count as inside.
   */
  predicate InsideTriangle(p1: Vec2, p2: Vec2, p3: Vec2, t: Vec2)
    ensures t == p1 || t == p2 || t == p3 ==> InsideTriangle(p1, p2, p3, t)
  {
    ClockwiseCyclic(p1, p2, p3);
    ClockwiseCyclic(p2, p3, p1);
    ClockwiseCyclic(p3, p1, p2);
    if Clockwise(p1, p2, p3) then
      !Clockwise(p2, p1, t) && !Clockwise(p3, p2, t) && !Clockwise(p1, p3, t)
    else
      !Clockwise(p1, p2, t) && !Clockwise(p2, p3, t) && !Clockwise(p3, p1, t)
  }

  /** Starting the walk at the next corner does not change the turn. */
  lemma TurnRotates(p1: Vec2, p2: Vec2, p3: Vec2)
    ensures Turn(p2, p3, p1) == Turn(p1, p2, p3)
  {
    var a := p2.x - p1.x;
    var b := p2.y - p1.y;
    var c := p3.x - p2.x;
    var d := p3.y - p2.y;
    assert Turn(p1, p2, p3) == a * d - b * c;
    assert Turn(p2, p3, p1) == c * (-b - d) - d * (-a - c);
  }

  /** Walking the triangle backwards negates the turn. */
  lemma TurnReverses(p1: Vec2, p2: Vec2, p3: Vec2)
    ensures Turn(p3, p2, p1) == -Turn(p1, p2, p3)
  {
    var a := p2.x - p1.x;
    var b := p2.y - p1.y;
    var c := p3.x - p2.x;
    var d := p3.y - p2.y;
    assert Turn(p1, p2, p3) == a * d - b * c;
    assert Turn(p3, p2, p1) == (-c) * (-b) - (-d) * (-a);
  }

  /** Clockwise is a property of the cyclic order: rotating keeps it, reversing a clockwise triple loses it. */
  lemma ClockwiseCyclic(p1: Vec2, p2: Vec2, p3: Vec2)
    ensures Clockwise(p1, p2, p3) <==> Clockwise(p2, p3, p1)
    ensures Clockwise(p1, p2, p3) ==> !Clockwise(p3, p2, p1) && !Clockwise(p1, p3, p2)
  {
    TurnRotates(p1, p2, p3);
    TurnReverses(p1, p2, p3);
    TurnRotates(p1, p3, p2);
    TurnReverses(p2, p3, p1);
  }

  /** A triple that visits a point twice never turns. */
  lemma TurnOfRepeated(p: Vec2, q: Vec2)
    ensures Turn(p, q, p) == 0.0 && Turn(p, p, q) == 0.0 && Turn(q, p, p) == 0.0
  {
    var a := q.x - p.x;
    var b := q.y - p.y;
    assert Turn(p, q, p) == -b * (-a) + a * (-b);
  }

  /** For a proper (non-degenerate) triangle, containment does not depend on the winding it is given in. */
  lemma InsideEitherWinding(p1: Vec2, p2: Vec2, p3: Vec2, t: Vec2)
    requires Turn(p1, p2, p3) != 0.0
    ensures InsideTriangle(p1, p2, p3, t) == InsideTriangle(p1, p3, p2, t)
  {
    TurnRotates(p1, p2, p3);
    TurnReverses(p2, p3, p1);
  }

  // ---------------------------------------------------------------------
  // One step of the scan

  /** The corner after `i` and the one after that, around the outline. */
  function Next(n: int, i: int): int
    requires n > 0
  {
    (i + 1) % n
  }

  /**
   * Corner `i` starts an ear: the turn through the next two corners is
   * clockwise and no other corner lies inside that triangle or on it.
   */
  predicate IsEar(pts: seq<Vec2>, i: int)
  {
    && 0 <= i < |pts|
    && var n := |pts|;
       var i2, i3 := Next(n, i), Next(n, Next(n, i));
       && Clockwise(pts[i], pts[i2], pts[i3])
       && forall j :: 0 <= j < n && j != i && j != i2 && j != i3 ==> !InsideTriangle(pts[i], pts[i2], pts[i3], pts[j])
  }

  /**
   * A test for whether an outline has an ear at a position. The scan below
   * is stated for any such test; the one both sources use is IsEar.
   */
  type EarTest = (seq<Vec2>, int) -> bool

  /** The three indices of the ear at `i`, in outline order. */
  function EarIndices(idx: seq<int>, i: int): (tri: seq<int>)
    requires 0 <= i < |idx|
    ensures |tri| == 3
  {
    var n := |idx|;
    [idx[i], idx[Next(n, i)], idx[Next(n, Next(n, i))]]
  }

  /** Clipping the ear at `i` removes its middle corner. */
  function Clip<T>(s: seq<T>, i: int): (r: seq<T>)
    requires 0 <= i < |s|
    ensures |r| == |s| - 1
  {
    RemoveAt(s, Next(|s|, i))
  }

  // ---------------------------------------------------------------------
  // The scan

  /** Where the scan goes on after clipping an ear. */
  datatype Rewind = Restart | Resume

  datatype Status = Triangulated | TooFewPoints | NoEarFound

  /** What a scan leaves behind: the indices it emitted, the remaining outline (points and indices), and how it ended. */
  datatype Outcome = Outcome(triangles: seq<int>, points: seq<Vec2>, indices: seq<int>, status: Status)

  /**
   * The `for` loop from position `i` on: skip corners that are no ear; at an
   * ear, emit it and clip it, stop once fewer than three corners remain, and
   * otherwise go on at the first corner (Restart) or at the same position
   * (Resume). Running off the end is a failure.
   */
  function ScanFrom(ear: EarTest, rewind: Rewind, pts: seq<Vec2>, idx: seq<int>, i: int): (o: Outcome)
    requires |idx| == |pts| && 0 <= i <= |pts|
    ensures |o.points| == |o.indices| <= |pts|
    ensures o.status != TooFewPoints
    decreases |pts|, |pts| - i
  {
    if i == |pts| then Outcome([], pts, idx, NoEarFound)
    else if !ear(pts, i) then ScanFrom(ear, rewind, pts, idx, i + 1)
    else
      var tri := EarIndices(idx, i);
      var pts', idx' := Clip(pts, i), Clip(idx, i);
      if |pts'| < 3 then Outcome(tri, pts', idx', Triangulated)
      else
        var o := ScanFrom(ear, rewind, pts', idx', if rewind == Restart then 0 else i);
        o.(triangles := tri + o.triangles)
  }

  /** Extrude.TriangulatePolygon: fewer than two points is refused, then the restarting scan. */
  function Triangulate(pts: seq<Vec2>, idx: seq<int>): (o: Outcome)
    requires |idx| == |pts|
    ensures o.status == TooFewPoints <==> |pts| < 2
  {
    if |pts| < 2 then Outcome([], pts, idx, TooFewPoints)
    else ScanFrom(IsEar, Restart, pts, idx, 0)
  }

  /** MeshBuilder.TriangulatePolygon: fewer than three points is refused, then the resuming scan. */
  function TriangulateResuming(pts: seq<Vec2>, idx: seq<int>): (o: Outcome)
    requires |idx| == |pts|
    ensures o.status == TooFewPoints <==> |pts| < 3
  {
    if |pts| < 3 then Outcome([], pts, idx, TooFewPoints)
    else ScanFrom(IsEar, Resume, pts, idx, 0)
  }

  // ---------------------------------------------------------------------
  // What a scan guarantees

  /** An outline of at most two corners has no ear. */
  lemma NoEarBelowThree(pts: seq<Vec2>, i: int)
    requires |pts| <= 2 && 0 <= i < |pts|
    ensures !IsEar(pts, i)
  {
    var n := |pts|;
    if n == 2 {
      assert Next(n, Next(n, i)) == i;
    }
  }

  /** A scan emits whole triangles. */
  lemma {:induction false} ScanEmitsTriples(ear: EarTest, rewind: Rewind, pts: seq<Vec2>, idx: seq<int>, i: int)
    requires |idx| == |pts| && 0 <= i <= |pts|
    ensures |ScanFrom(ear, rewind, pts, idx, i).triangles| % 3 == 0
    decreases |pts|, |pts| - i
  {
    if i < |pts| {
      if !ear(pts, i) {
        ScanEmitsTriples(ear, rewind, pts, idx, i + 1);
      } else {
        var tri, pts', idx' := EarIndices(idx, i), Clip(pts, i), Clip(idx, i);
        if |pts'| >= 3 {
          var j := if rewind == Restart then 0 else i;
          ScanEmitsTriples(ear, rewind, pts', idx', j);
          assert ScanFrom(ear, rewind, pts, idx, i).triangles == tri + ScanFrom(ear, rewind, pts', idx', j).triangles;
        }
      }
    }
  }

  /** An ear test that, like IsEar, finds nothing on an outline of at most two corners. */
  ghost predicate NeedsThree(ear: EarTest)
  {
    forall pts: seq<Vec2>, j :: |pts| <= 2 ==> !ear(pts, j)
  }

  /**
   * A successful scan of `n` corners emits exactly `n - 2` triangles and
   * leaves two corners; it needs at least three to start with.
   */
  lemma {:induction false} ScanCounts(ear: EarTest, rewind: Rewind, pts: seq<Vec2>, idx: seq<int>, i: int)
    requires |idx| == |pts| && 0 <= i <= |pts| && NeedsThree(ear)
    ensures var o := ScanFrom(ear, rewind, pts, idx, i);
      o.status == Triangulated ==> |pts| >= 3 && |o.triangles| == 3 * (|pts| - 2) && |o.points| == 2
    decreases |pts|, |pts| - i
  {
    if i < |pts| {
      if !ear(pts, i) {
        ScanCounts(ear, rewind, pts, idx, i + 1);
      } else {
        var pts', idx' := Clip(pts, i), Clip(idx, i);
        if |pts'| >= 3 {
          ScanCounts(ear, rewind, pts', idx', if rewind == Restart then 0 else i);
        }
      }
    }
  }

  /** Every emitted index, and every index left over, is one of the input indices. */
  lemma {:induction false} ScanUsesInputIndices(ear: EarTest, rewind: Rewind, pts: seq<Vec2>, idx: seq<int>, i: int)
    requires |idx| == |pts| && 0 <= i <= |pts|
    ensures var o := ScanFrom(ear, rewind, pts, idx, i);
      && (forall x :: x in o.triangles ==> x in idx)
      && (forall x :: x in o.indices ==> x in idx)
    decreases |pts|, |pts| - i
  {
    if i < |pts| {
      if !ear(pts, i) {
        ScanUsesInputIndices(ear, rewind, pts, idx, i + 1);
      } else {
        var pts', idx' := Clip(pts, i), Clip(idx, i);
        assert forall x :: x in idx' ==> x in idx by {
          forall x | x in idx' ensures x in idx {
            var k :| 0 <= k < |idx'| && idx'[k] == x;
          }
        }
        if |pts'| >= 3 {
          ScanUsesInputIndices(ear, rewind, pts', idx', if rewind == Restart then 0 else i);
        }
      }
    }
  }

  /** The first triangle a scan emits is an ear of the outline it was given, at or after the start position. */
  lemma {:induction false} FirstTriangleIsEar(ear: EarTest, rewind: Rewind, pts: seq<Vec2>, idx: seq<int>, i: int)
    requires |idx| == |pts| && 0 <= i <= |pts|
    requires |ScanFrom(ear, rewind, pts, idx, i).triangles| > 0
    ensures |ScanFrom(ear, rewind, pts, idx, i).triangles| >= 3
    ensures exists e :: (i <= e < |pts| && ear(pts, e)
      && ScanFrom(ear, rewind, pts, idx, i).triangles[..3] == EarIndices(idx, e))
    decreases |pts| - i
  {
    ScanEmitsTriples(ear, rewind, pts, idx, i);
    if !ear(pts, i) {
      FirstTriangleIsEar(ear, rewind, pts, idx, i + 1);
    } else {
      assert ScanFrom(ear, rewind, pts, idx, i).triangles[..3] == EarIndices(idx, i);
    }
  }

  /**
   * `tris` is a run of ear clips on the outline: empty, or an ear of the
   * outline followed by a run of ear clips on what is left once that ear's
   * middle corner is removed.
   */
  ghost predicate ClipsEars(ear: EarTest, pts: seq<Vec2>, idx: seq<int>, tris: seq<int>)
    requires |idx| == |pts|
    decreases |pts|
  {
    || tris == []
    || exists e :: 0 <= e < |pts| && ear(pts, e) && 3 <= |tris| && tris[..3] == EarIndices(idx, e)
         && ClipsEars(ear, Clip(pts, e), Clip(idx, e), tris[3..])
  }

  /** Every triangle a scan emits was an ear of the outline at the moment it was clipped, successful scan or not. */
  lemma {:induction false} ScanClipsEars(ear: EarTest, rewind: Rewind, pts: seq<Vec2>, idx: seq<int>, i: int)
    requires |idx| == |pts| && 0 <= i <= |pts|
    ensures ClipsEars(ear, pts, idx, ScanFrom(ear, rewind, pts, idx, i).triangles)
    decreases |pts|, |pts| - i
  {
    if i < |pts| {
      if !ear(pts, i) {
        ScanClipsEars(ear, rewind, pts, idx, i + 1);
      } else {
        var tri, pts', idx' := EarIndices(idx, i), Clip(pts, i), Clip(idx, i);
        var ts := ScanFrom(ear, rewind, pts, idx, i).triangles;
        var rest: seq<int> := [];
        if |pts'| >= 3 {
          var j := if rewind == Restart then 0 else i;
          ScanClipsEars(ear, rewind, pts', idx', j);
          rest := ScanFrom(ear, rewind, pts', idx', j).triangles;
        }
        assert ts == tri + rest;
        assert ts[..3] == tri && ts[3..] == rest;
        assert ClipsEars(ear, pts', idx', ts[3..]);
      }
    }
  }

  /**
   * The restarting scan gives up only when the outline it is left with has
   * no ear at all: each failure follows a full pass over that outline.
   */
  lemma {:induction false} RestartFailsOnlyWithoutEar(ear: EarTest, pts: seq<Vec2>, idx: seq<int>, i: int)
    requires |idx| == |pts| && 0 <= i <= |pts|
    requires forall j :: 0 <= j < i ==> !ear(pts, j)
    ensures var o := ScanFrom(ear, Restart, pts, idx, i);
      o.status == NoEarFound ==> forall j :: 0 <= j < |o.points| ==> !ear(o.points, j)
    decreases |pts|, |pts| - i
  {
    if i < |pts| {
      if !ear(pts, i) {
        RestartFailsOnlyWithoutEar(ear, pts, idx, i + 1);
      } else {
        var pts', idx' := Clip(pts, i), Clip(idx, i);
        if |pts'| >= 3 {
          RestartFailsOnlyWithoutEar(ear, pts', idx', 0);
        }
      }
    }
  }

  /** IsEar finds nothing on an outline of at most two corners. */
  lemma IsEarNeedsThree()
    ensures NeedsThree(IsEar)
  {
    forall pts: seq<Vec2>, j | |pts| <= 2 ensures !IsEar(pts, j) {
      if 0 <= j < |pts| {
        NoEarBelowThree(pts, j);
      }
    }
  }

  /**
   * Extrude's triangulation, on success: `n - 2` triangles from `n >= 3`
   * points, every index one of the given ones; on failure after the guard,
   * an outline without any ear is left; and either way, every triangle
   * emitted was an ear of the outline at the moment it was clipped.
   */
  lemma TriangulateOutcome(pts: seq<Vec2>, idx: seq<int>)
    requires |idx| == |pts|
    ensures var o := Triangulate(pts, idx);
      && |o.triangles| % 3 == 0
      && (o.status == Triangulated ==> |pts| >= 3 && |o.triangles| == 3 * (|pts| - 2))
      && (forall x :: x in o.triangles ==> x in idx)
      && (o.status == NoEarFound ==> forall j :: 0 <= j < |o.points| ==> !IsEar(o.points, j))
      && ClipsEars(IsEar, pts, idx, o.triangles)
  {
    if |pts| >= 2 {
      ScanClipsEars(IsEar, Restart, pts, idx, 0);
      IsEarNeedsThree();
      ScanEmitsTriples(IsEar, Restart, pts, idx, 0);
      ScanCounts(IsEar, Restart, pts, idx, 0);
      ScanUsesInputIndices(IsEar, Restart, pts, idx, 0);
      RestartFailsOnlyWithoutEar(IsEar, pts, idx, 0);
    }
  }

  /** For Extrude: exactly two points pass the guard but never form an ear, so the scan fails. */
  lemma TwoPointsFail(p: Vec2, q: Vec2)
    ensures Triangulate([p, q], [0, 1]).status == NoEarFound
  {
    var pts := [p, q];
    NoEarBelowThree(pts, 0);
    NoEarBelowThree(pts, 1);
    assert ScanFrom(IsEar, Restart, pts, [0, 1], 1) == ScanFrom(IsEar, Restart, pts, [0, 1], 2);
  }

  /** An anticlockwise triangle has no clockwise corner, so both scans fail on it. */
  lemma AnticlockwiseTriangleFails(rewind: Rewind, a: Vec2, b: Vec2, c: Vec2, idx: seq<int>)
    requires Turn(a, b, c) > 0.0 && |idx| == 3
    ensures ScanFrom(IsEar, rewind, [a, b, c], idx, 0) == Outcome([], [a, b, c], idx, NoEarFound)
  {
    TurnRotates(a, b, c);
    TurnRotates(b, c, a);
    var pts := [a, b, c];
    assert !IsEar(pts, 0) && !IsEar(pts, 1) && !IsEar(pts, 2);
    assert ScanFrom(IsEar, rewind, pts, idx, 2) == ScanFrom(IsEar, rewind, pts, idx, 3);
    assert ScanFrom(IsEar, rewind, pts, idx, 1) == ScanFrom(IsEar, rewind, pts, idx, 2);
  }

  /** A clockwise triangle is one ear: both scans emit it as given and stop. */
  lemma ClockwiseTriangleSucceeds(rewind: Rewind, a: Vec2, b: Vec2, c: Vec2, idx: seq<int>)
    requires Clockwise(a, b, c) && |idx| == 3
    ensures ScanFrom(IsEar, rewind, [a, b, c], idx, 0).status == Triangulated
    ensures ScanFrom(IsEar, rewind, [a, b, c], idx, 0).triangles == idx
  {
    assert IsEar([a, b, c], 0);
  }

  // ---------------------------------------------------------------------
  // Single steps of the scan, for tracing it on a given outline

  /** A corner is no ear when another corner lies inside the triangle it starts. */
  lemma NotEarWitness(pts: seq<Vec2>, i: int, j: int)
    requires 0 <= i < |pts| && 0 <= j < |pts|
    requires j != i && j != Next(|pts|, i) && j != Next(|pts|, Next(|pts|, i))
    requires InsideTriangle(pts[i], pts[Next(|pts|, i)], pts[Next(|pts|, Next(|pts|, i))], pts[j])
    ensures !IsEar(pts, i)
  {
  }

  /** On four corners an ear needs a clockwise turn and the one remaining corner outside. */
  lemma EarOfFour(pts: seq<Vec2>, i: int)
    requires |pts| == 4 && 0 <= i < 4
    requires Clockwise(pts[i], pts[Next(4, i)], pts[Next(4, Next(4, i))])
    requires !InsideTriangle(pts[i], pts[Next(4, i)], pts[Next(4, Next(4, i))], pts[Next(4, Next(4, Next(4, i)))])
    ensures IsEar(pts, i)
  {
    var i2, i3, i4 := Next(4, i), Next(4, Next(4, i)), Next(4, Next(4, Next(4, i)));
    forall j | 0 <= j < 4 && j != i && j != i2 && j != i3
      ensures !InsideTriangle(pts[i], pts[i2], pts[i3], pts[j])
    {
      assert j == i4;
    }
  }

  /** On three corners every clockwise turn is an ear: there is no other corner to lie inside it. */
  lemma EarOfThree(a: Vec2, b: Vec2, c: Vec2)
    requires Clockwise(a, b, c)
    ensures IsEar([a, b, c], 0)
  {
  }

  /** The scan passes over a corner that is no ear. */
  lemma ScanSkips(rewind: Rewind, pts: seq<Vec2>, idx: seq<int>, i: int)
    requires |idx| == |pts| && 0 <= i < |pts| && !IsEar(pts, i)
    ensures ScanFrom(IsEar, rewind, pts, idx, i) == ScanFrom(IsEar, rewind, pts, idx, i + 1)
  {
  }

  /** The scan clips an ear and goes on with what is left. */
  lemma ScanClips(rewind: Rewind, pts: seq<Vec2>, idx: seq<int>, i: int, j: int)
    requires |idx| == |pts| && 0 <= i < |pts| && IsEar(pts, i) && |pts| >= 4
    requires j == if rewind == Restart then 0 else i
    ensures var o := ScanFrom(IsEar, rewind, Clip(pts, i), Clip(idx, i), j);
      ScanFrom(IsEar, rewind, pts, idx, i) == o.(triangles := EarIndices(idx, i) + o.triangles)
  {
  }

  /** The scan clips the last ear and stops. */
  lemma ScanFinishes(rewind: Rewind, pts: seq<Vec2>, idx: seq<int>, i: int)
    requires |idx| == |pts| && 0 <= i < |pts| && IsEar(pts, i) && |pts| == 3
    ensures ScanFrom(IsEar, rewind, pts, idx, i) == Outcome(EarIndices(idx, i), Clip(pts, i), Clip(idx, i), Triangulated)
  {
  }

  /**
   * Loop invariant of a scan that is run step by step: what is still to come
   * from position `i`, after the indices already emitted, is the whole outcome.
   */
  ghost predicate ScanReaches(rewind: Rewind, pts: seq<Vec2>, idx: seq<int>, i: int, emitted: seq<int>, whole: Outcome)
  {
    && |idx| == |pts| && 0 <= i <= |pts|
    && var o := ScanFrom(IsEar, rewind, pts, idx, i);
    o.(triangles := emitted + o.triangles) == whole
  }

  /** Skipping a corner that is no ear keeps the invariant. */
  lemma ReachesPastSkip(rewind: Rewind, pts: seq<Vec2>, idx: seq<int>, i: int, emitted: seq<int>, whole: Outcome)
    requires ScanReaches(rewind, pts, idx, i, emitted, whole) && i < |pts| && !IsEar(pts, i)
    ensures ScanReaches(rewind, pts, idx, i + 1, emitted, whole)
  {
    ScanSkips(rewind, pts, idx, i);
  }

  /** Clipping an ear of an outline of four or more corners keeps the invariant, with the ear emitted. */
  lemma ReachesPastClip(rewind: Rewind, pts: seq<Vec2>, idx: seq<int>, i: int, emitted: seq<int>, whole: Outcome)
    requires ScanReaches(rewind, pts, idx, i, emitted, whole) && i < |pts| && IsEar(pts, i) && |pts| >= 4
    ensures ScanReaches(rewind, Clip(pts, i), Clip(idx, i), if rewind == Restart then 0 else i,
      emitted + EarIndices(idx, i), whole)
  {
    var j := if rewind == Restart then 0 else i;
    ScanClips(rewind, pts, idx, i, j);
    var o := ScanFrom(IsEar, rewind, Clip(pts, i), Clip(idx, i), j);
    assert emitted + (EarIndices(idx, i) + o.triangles) == (emitted + EarIndices(idx, i)) + o.triangles;
  }

  /** Clipping the ear of a triangle ends the scan. */
  lemma ReachesFinish(rewind: Rewind, pts: seq<Vec2>, idx: seq<int>, i: int, emitted: seq<int>, whole: Outcome)
    requires ScanReaches(rewind, pts, idx, i, emitted, whole) && i < |pts| && IsEar(pts, i) && |pts| == 3
    ensures whole == Outcome(emitted + EarIndices(idx, i), Clip(pts, i), Clip(idx, i), Triangulated)
  {
    ScanFinishes(rewind, pts, idx, i);
  }

  /** Running off the end of the outline fails with what is left. */
  lemma ReachesEnd(rewind: Rewind, pts: seq<Vec2>, idx: seq<int>, emitted: seq<int>, whole: Outcome)
    requires ScanReaches(rewind, pts, idx, |pts|, emitted, whole)
    ensures whole == Outcome(emitted, pts, idx, NoEarFound)
  {
  }

  // ---------------------------------------------------------------------
  // A notched pentagon

  /** A simple clockwise pentagon with one reflex corner, (1, 1). */
  const Notch: seq<Vec2> := [Vec2(0.0, 0.0), Vec2(0.0, 2.0), Vec2(2.0, 1.0), Vec2(1.0, 0.0), Vec2(1.0, 1.0)]

  /** Corner 0 of the Notch is no ear: the reflex corner lies inside its triangle. */
  lemma NotchCornerZero()
    ensures !IsEar(Notch, 0)
  {
    var a, b, c, e := Vec2(0.0, 0.0), Vec2(0.0, 2.0), Vec2(2.0, 1.0), Vec2(1.0, 1.0);
    assert Clockwise(a, b, c);
    assert !Clockwise(b, a, e) && !Clockwise(c, b, e) && !Clockwise(a, c, e);
    assert InsideTriangle(a, b, c, e);
    assert Next(5, 0) == 1 && Next(5, 1) == 2;
    NotEarWitness(Notch, 0, 4);
  }

  /** Corner 1 of the Notch is no ear: the reflex corner lies inside its triangle. */
  lemma NotchCornerOne()
    ensures !IsEar(Notch, 1)
  {
    var b, c, d, e := Vec2(0.0, 2.0), Vec2(2.0, 1.0), Vec2(1.0, 0.0), Vec2(1.0, 1.0);
    assert Clockwise(b, c, d);
    assert !Clockwise(c, b, e) && !Clockwise(d, c, e) && !Clockwise(b, d, e);
    assert InsideTriangle(b, c, d, e);
    assert Next(5, 1) == 2 && Next(5, 2) == 3;
    NotEarWitness(Notch, 1, 4);
  }

  /** Corner 2 of the Notch is an ear. */
  lemma NotchEarAtTwo()
    ensures IsEar(Notch, 2)
  {
    var a, b, c, d, e := Vec2(0.0, 0.0), Vec2(0.0, 2.0), Vec2(2.0, 1.0), Vec2(1.0, 0.0), Vec2(1.0, 1.0);
    assert Notch == [a, b, c, d, e];
    assert Next(5, 2) == 3 && Next(5, 3) == 4;
    assert Clockwise(c, d, e);
    assert Clockwise(e, d, a);
    assert !InsideTriangle(c, d, e, a);
    assert Clockwise(e, d, b);
    assert !InsideTriangle(c, d, e, b);
  }

  /** The four corners left once the ear at 2 is clipped. */
  const Notch4: seq<Vec2> := [Vec2(0.0, 0.0), Vec2(0.0, 2.0), Vec2(2.0, 1.0), Vec2(1.0, 1.0)]

  /** Of those four, corner 0 is no ear: the reflex corner lies inside its triangle. */
  lemma Notch4CornerZero()
    ensures !IsEar(Notch4, 0)
  {
    var a, b, c, e := Vec2(0.0, 0.0), Vec2(0.0, 2.0), Vec2(2.0, 1.0), Vec2(1.0, 1.0);
    assert Clockwise(a, b, c);
    assert !Clockwise(b, a, e) && !Clockwise(c, b, e) && !Clockwise(a, c, e);
    assert InsideTriangle(a, b, c, e);
    assert Next(4, 0) == 1 && Next(4, 1) == 2;
    NotEarWitness(Notch4, 0, 3);
  }

  /** Of those four, corner 1 is an ear. */
  lemma Notch4CornerOne()
    ensures IsEar(Notch4, 1)
  {
    var a, b, c, e := Vec2(0.0, 0.0), Vec2(0.0, 2.0), Vec2(2.0, 1.0), Vec2(1.0, 1.0);
    assert Next(4, 1) == 2 && Next(4, 2) == 3 && Next(4, 3) == 0;
    assert Clockwise(b, c, e);
    assert Clockwise(e, c, a);
    assert !InsideTriangle(b, c, e, a);
    EarOfFour(Notch4, 1);
  }

  /** Of those four, corner 2 is no ear: its turn is anticlockwise. */
  lemma Notch4CornerTwo()
    ensures !IsEar(Notch4, 2)
  {
    var a, c, e := Vec2(0.0, 0.0), Vec2(2.0, 1.0), Vec2(1.0, 1.0);
    assert Next(4, 2) == 3 && Next(4, 3) == 0;
    assert !Clockwise(c, e, a);
  }

  /** Of those four, corner 3 is an ear. */
  lemma Notch4CornerThree()
    ensures IsEar(Notch4, 3)
  {
    var a, b, c, e := Vec2(0.0, 0.0), Vec2(0.0, 2.0), Vec2(2.0, 1.0), Vec2(1.0, 1.0);
    assert Next(4, 3) == 0 && Next(4, 0) == 1 && Next(4, 1) == 2;
    assert Clockwise(e, a, b);
    assert Clockwise(a, e, c);
    assert !InsideTriangle(e, a, b, c);
    EarOfFour(Notch4, 3);
  }

  /** On any five corners whose first ear is at 2, either scan passes over 0 and 1 and clips that ear. */
  lemma FirstEarAtTwo(rewind: Rewind, pts: seq<Vec2>, idx: seq<int>)
    requires |idx| == |pts| == 5
    requires !IsEar(pts, 0) && !IsEar(pts, 1) && IsEar(pts, 2)
    ensures var o := ScanFrom(IsEar, rewind, Clip(pts, 2), Clip(idx, 2), if rewind == Restart then 0 else 2);
      ScanFrom(IsEar, rewind, pts, idx, 0) == o.(triangles := EarIndices(idx, 2) + o.triangles)
  {
    ScanSkips(rewind, pts, idx, 0);
    ScanSkips(rewind, pts, idx, 1);
    ScanClips(rewind, pts, idx, 2, if rewind == Restart then 0 else 2);
  }

  /** Clipping the ear at corner 2 of the Notch leaves Notch4 and emits that corner's triangle. */
  lemma NotchClipAtTwo(k: int)
    ensures var idx := [k, k + 1, k + 2, k + 3, k + 4];
      && Clip(Notch, 2) == Notch4
      && Clip(idx, 2) == [k, k + 1, k + 2, k + 4]
      && EarIndices(idx, 2) == [k + 2, k + 3, k + 4]
  {
    assert Next(5, 2) == 3;
  }

  /** Either scan passes over corners 0 and 1 of the Notch and clips the ear at 2, leaving Notch4. */
  lemma NotchClipsTwo(rewind: Rewind, k: int)
    ensures var o := ScanFrom(IsEar, rewind, Notch4, [k, k + 1, k + 2, k + 4], if rewind == Restart then 0 else 2);
      ScanFrom(IsEar, rewind, Notch, [k, k + 1, k + 2, k + 3, k + 4], 0) == o.(triangles := [k + 2, k + 3, k + 4] + o.triangles)
  {
    NotchClipAtTwo(k);
    NotchCornerZero();
    NotchCornerOne();
    NotchEarAtTwo();
    FirstEarAtTwo(rewind, Notch, [k, k + 1, k + 2, k + 3, k + 4]);
  }

  /** Resuming at corner 2 of Notch4: one more ear, at 3, and the scan runs off the end. */
  lemma ResumeOnNotch4(k: int)
    ensures ScanFrom(IsEar, Resume, Notch4, [k, k + 1, k + 2, k + 4], 2)
         == Outcome([k + 4, k, k + 1], [Vec2(0.0, 2.0), Vec2(2.0, 1.0), Vec2(1.0, 1.0)], [k + 1, k + 2, k + 4], NoEarFound)
  {
    var i4, i3 := [k, k + 1, k + 2, k + 4], [k + 1, k + 2, k + 4];
    var p3 := [Vec2(0.0, 2.0), Vec2(2.0, 1.0), Vec2(1.0, 1.0)];
    Notch4CornerTwo();
    Notch4CornerThree();
    ScanSkips(Resume, Notch4, i4, 2);
    assert Next(4, 3) == 0;
    assert Clip(Notch4, 3) == p3;
    assert Clip(i4, 3) == i3;
    assert EarIndices(i4, 3) == [k + 4, k, k + 1];
    ScanClips(Resume, Notch4, i4, 3, 3);
  }

  /** The whole resuming scan of the Notch: two ears, then it runs off the end. */
  lemma ResumeScansNotch(k: int)
    ensures ScanFrom(IsEar, Resume, Notch, [k, k + 1, k + 2, k + 3, k + 4], 0)
         == Outcome([k + 2, k + 3, k + 4, k + 4, k, k + 1], [Vec2(0.0, 2.0), Vec2(2.0, 1.0), Vec2(1.0, 1.0)], [k + 1, k + 2, k + 4], NoEarFound)
  {
    var idx, o4 := [k, k + 1, k + 2, k + 3, k + 4], ScanFrom(IsEar, Resume, Notch4, [k, k + 1, k + 2, k + 4], 2);
    calc {
      ScanFrom(IsEar, Resume, Notch, idx, 0);
    == { NotchClipsTwo(Resume, k); }
      o4.(triangles := [k + 2, k + 3, k + 4] + o4.triangles);
    == { ResumeOnNotch4(k); }
      Outcome([k + 2, k + 3, k + 4] + [k + 4, k, k + 1], [Vec2(0.0, 2.0), Vec2(2.0, 1.0), Vec2(1.0, 1.0)], [k + 1, k + 2, k + 4], NoEarFound);
    == { assert [k + 2, k + 3, k + 4] + [k + 4, k, k + 1] == [k + 2, k + 3, k + 4, k + 4, k, k + 1]; }
      Outcome([k + 2, k + 3, k + 4, k + 4, k, k + 1], [Vec2(0.0, 2.0), Vec2(2.0, 1.0), Vec2(1.0, 1.0)], [k + 1, k + 2, k + 4], NoEarFound);
    }
  }

  /**
   * As written in MeshBuilder: after clipping the ear at the last position
   * the resuming scan runs off the end, and gives up on the Notch although
   * the triangle it is left with is itself an ear.
   */
  lemma ResumeGivesUpOnNotch(k: int)
    ensures var o := TriangulateResuming(Notch, [k, k + 1, k + 2, k + 3, k + 4]);
      && o.status == NoEarFound
      && o.triangles == [k + 2, k + 3, k + 4, k + 4, k, k + 1]
      && o.points == [Vec2(0.0, 2.0), Vec2(2.0, 1.0), Vec2(1.0, 1.0)]
      && IsEar(o.points, 0)
  {
    ResumeScansNotch(k);
    var a, b, c := Vec2(0.0, 2.0), Vec2(2.0, 1.0), Vec2(1.0, 1.0);
    assert Clockwise(a, b, c);
    EarOfThree(a, b, c);
  }

  /** The last three corners left by the restarting scan form an ear, which finishes the outline. */
  lemma RestartOnLastThree(k: int)
    ensures ScanFrom(IsEar, Restart, [Vec2(0.0, 0.0), Vec2(0.0, 2.0), Vec2(1.0, 1.0)], [k, k + 1, k + 4], 0)
         == Outcome([k, k + 1, k + 4], [Vec2(0.0, 0.0), Vec2(1.0, 1.0)], [k, k + 4], Triangulated)
  {
    var a, b, e := Vec2(0.0, 0.0), Vec2(0.0, 2.0), Vec2(1.0, 1.0);
    var i3 := [k, k + 1, k + 4];
    assert Clockwise(a, b, e);
    EarOfThree(a, b, e);
    assert Next(3, 0) == 1;
    assert Clip([a, b, e], 0) == [a, e];
    assert Clip(i3, 0) == [k, k + 4];
    assert EarIndices(i3, 0) == [k, k + 1, k + 4];
    ScanFinishes(Restart, [a, b, e], i3, 0);
  }

  /** Restarting on Notch4: corner 0 is passed over. */
  lemma RestartSkipsNotch4(k: int)
    ensures var i4 := [k, k + 1, k + 2, k + 4];
      ScanFrom(IsEar, Restart, Notch4, i4, 0) == ScanFrom(IsEar, Restart, Notch4, i4, 1)
  {
    Notch4CornerZero();
    ScanSkips(Restart, Notch4, [k, k + 1, k + 2, k + 4], 0);
  }

  /** Restarting on Notch4: the ear at 1 is clipped. */
  lemma RestartClipsNotch4(k: int)
    ensures var o := ScanFrom(IsEar, Restart, [Vec2(0.0, 0.0), Vec2(0.0, 2.0), Vec2(1.0, 1.0)], [k, k + 1, k + 4], 0);
      ScanFrom(IsEar, Restart, Notch4, [k, k + 1, k + 2, k + 4], 1) == o.(triangles := [k + 1, k + 2, k + 4] + o.triangles)
  {
    var i4 := [k, k + 1, k + 2, k + 4];
    Notch4CornerOne();
    assert Next(4, 1) == 2;
    assert Clip(Notch4, 1) == [Vec2(0.0, 0.0), Vec2(0.0, 2.0), Vec2(1.0, 1.0)];
    assert Clip(i4, 1) == [k, k + 1, k + 4];
    assert EarIndices(i4, 1) == [k + 1, k + 2, k + 4];
    ScanClips(Restart, Notch4, i4, 1, 0);
  }

  /** Restarting on Notch4 finishes the outline with two more ears. */
  lemma RestartOnNotch4(k: int)
    ensures ScanFrom(IsEar, Restart, Notch4, [k, k + 1, k + 2, k + 4], 0)
         == Outcome([k + 1, k + 2, k + 4, k, k + 1, k + 4], [Vec2(0.0, 0.0), Vec2(1.0, 1.0)], [k, k + 4], Triangulated)
  {
    RestartSkipsNotch4(k);
    RestartClipsNotch4(k);
    RestartOnLastThree(k);
    NotchTriangles(k);
  }

  /** The whole restarting scan of the Notch: three ears, and two corners left. */
  lemma RestartScansNotch(k: int)
    ensures ScanFrom(IsEar, Restart, Notch, [k, k + 1, k + 2, k + 3, k + 4], 0)
         == Outcome([k + 2, k + 3, k + 4, k + 1, k + 2, k + 4, k, k + 1, k + 4], [Vec2(0.0, 0.0), Vec2(1.0, 1.0)], [k, k + 4], Triangulated)
  {
    NotchClipsTwo(Restart, k);
    RestartOnNotch4(k);
    NotchTriangles(k);
  }

  /** The ears the restarting scan clips from the Notch, joined up. */
  lemma NotchTriangles(k: int)
    ensures [k + 1, k + 2, k + 4] + [k, k + 1, k + 4] == [k + 1, k + 2, k + 4, k, k + 1, k + 4]
    ensures [k + 2, k + 3, k + 4] + [k + 1, k + 2, k + 4, k, k + 1, k + 4]
         == [k + 2, k + 3, k + 4, k + 1, k + 2, k + 4, k, k + 1, k + 4]
  {
  }

  /** Restarting instead (as Extrude does) triangulates the Notch completely. */
  lemma RestartTriangulatesNotch(k: int)
    ensures var o := Triangulate(Notch, [k, k + 1, k + 2, k + 3, k + 4]);
      && o.status == Triangulated
      && o.triangles == [k + 2, k + 3, k + 4, k + 1, k + 2, k + 4, k, k + 1, k + 4]
  {
    RestartScansNotch(k);
  }
}
