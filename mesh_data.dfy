/** The constant geometry tables of UCreateMesh (main.cpp:644-1132): how many vertices
    `verts` holds and which vertices the 16-bit index table `indices` and the 32-bit
    table `lightIndices` refer to. Both tables are read by the graphics API three
    entries at a time, one triangle each, and the source lays them out one triangle
    per line; the model keeps that grouping and flattens it with Elements. The float
    values of the vertices are not modelled, only their number. */
module MeshData {

  /** Floats per vertex position, normal and texture coordinate (main.cpp:1135-1137). */
  const FloatsPerPosition := 3
  const FloatsPerNormal := 3
  const FloatsPerUV := 2
  const FloatsPerVertex := FloatsPerPosition + FloatsPerNormal + FloatsPerUV

  /** The number of float literals in `verts` (main.cpp:644-890), 8 on each of its 108
      rows; sizeof(verts) is 4 bytes per float. */
  const VertsFloatCount := 864
  const VertsByteSize := 4 * VertsFloatCount

  /** The number of vertices in `verts` (VertsAreWholeVertices relates it to the float
      count). */
  const VertexCount := 108

  /** Largest value of a GLushort plus one. */
  const UShortLimit := 0x1_0000

  /** One triangle: three vertex numbers. */
  datatype Triangle = Tri(a: nat, b: nat, c: nat)

  /** Vertex j (0, 1 or 2) of a triangle. */
  function Corner(t: Triangle, j: int): nat {
    if j == 0 then t.a else if j == 1 then t.b else t.c
  }

  /** The entries of a table of triangles, three per triangle, in order: entry i is
      corner i % 3 of triangle i / 3. */
  function Elements(ts: seq<Triangle>): (e: seq<nat>)
    ensures |e| == 3 * |ts|
  {
    seq(3 * |ts|, i requires 0 <= i < 3 * |ts| => Corner(ts[i / 3], i % 3))
  }

  /** Every vertex the triangle names is below bound. */
  predicate Below(t: Triangle, bound: int) {
    t.a < bound && t.b < bound && t.c < bound
  }

  predicate AllBelow(ts: seq<Triangle>, bound: int) {
    forall k :: 0 <= k < |ts| ==> Below(ts[k], bound)
  }

  /** Every entry of s names one of `bound` vertices. */
  predicate InRange(s: seq<nat>, bound: int) {
    forall i :: 0 <= i < |s| ==> s[i] < bound
  }

  // ---------------------------------------------------------------------------
  // `indices` (main.cpp:893-1110), section by section as the source lays it out

  /** The mug base: a fan of 16 triangles from vertex 0 over the rim 1..16 (main.cpp:894-912). */
  const MugBase: seq<Triangle> := [
    Tri(0, 1, 2), Tri(0, 2, 3), Tri(0, 3, 4), Tri(0, 4, 5),
    Tri(0, 5, 6), Tri(0, 6, 7), Tri(0, 7, 8), Tri(0, 8, 9),
    Tri(0, 9, 10), Tri(0, 10, 11), Tri(0, 11, 12), Tri(0, 12, 13),
    Tri(0, 13, 14), Tri(0, 14, 15), Tri(0, 15, 16), Tri(0, 1, 16)]

  /** The mug body: two triangles per side between the base rim 1..16 and the top rim 18..33 (main.cpp:913-947). */
  const MugBody: seq<Triangle> := MugBodyFront + MugBodyBack

  /** Sides 1 to 8 (main.cpp:915-930). */
  const MugBodyFront: seq<Triangle> := [
    Tri(1, 2, 18), Tri(2, 18, 19), Tri(2, 3, 19), Tri(3, 19, 20),
    Tri(3, 4, 20), Tri(4, 20, 21), Tri(4, 5, 21), Tri(5, 21, 22),
    Tri(5, 6, 22), Tri(6, 22, 23), Tri(6, 7, 23), Tri(7, 23, 24),
    Tri(7, 8, 24), Tri(8, 24, 25), Tri(8, 9, 25), Tri(9, 25, 26)]

  /** Sides 9 to 16 (main.cpp:931-946). */
  const MugBodyBack: seq<Triangle> := [
    Tri(9, 10, 26), Tri(10, 26, 27), Tri(10, 11, 27), Tri(11, 27, 28),
    Tri(11, 12, 28), Tri(12, 28, 29), Tri(12, 13, 29), Tri(13, 29, 30),
    Tri(13, 14, 30), Tri(14, 30, 31), Tri(14, 15, 31), Tri(15, 31, 32),
    Tri(15, 16, 32), Tri(16, 32, 33), Tri(16, 1, 33), Tri(1, 18, 33)]

  /** The outer side of the handle (main.cpp:948-966). */
  const OuterTorus: seq<Triangle> := [
    Tri(34, 35, 52), Tri(35, 52, 53), Tri(35, 36, 53), Tri(36, 53, 54),
    Tri(36, 37, 54), Tri(37, 54, 55), Tri(37, 38, 55), Tri(38, 55, 56),
    Tri(38, 39, 56), Tri(39, 56, 57), Tri(39, 40, 57), Tri(40, 57, 58),
    Tri(40, 41, 58), Tri(41, 58, 59), Tri(41, 42, 59), Tri(42, 59, 60)]

  /** The front side of the handle (main.cpp:967-986). */
  const FrontTorus: seq<Triangle> := [
    Tri(34, 35, 43), Tri(35, 43, 44), Tri(35, 36, 44), Tri(36, 44, 45),
    Tri(36, 37, 45), Tri(37, 45, 46), Tri(37, 38, 46), Tri(38, 46, 47),
    Tri(38, 39, 47), Tri(39, 47, 48), Tri(39, 40, 48), Tri(40, 48, 49),
    Tri(40, 41, 49), Tri(41, 49, 50), Tri(41, 42, 50), Tri(42, 50, 51)]

  /** The back side of the handle (main.cpp:987-1005). */
  const BackTorus: seq<Triangle> := [
    Tri(52, 53, 61), Tri(53, 61, 62), Tri(53, 54, 62), Tri(54, 62, 63),
    Tri(54, 55, 63), Tri(55, 63, 64), Tri(55, 56, 64), Tri(56, 64, 65),
    Tri(56, 57, 65), Tri(57, 65, 66), Tri(57, 58, 66), Tri(58, 66, 67),
    Tri(58, 59, 67), Tri(59, 67, 68), Tri(59, 60, 68), Tri(60, 68, 69)]

  /** The inner side of the handle (main.cpp:1006-1024). */
  const InnerTorus: seq<Triangle> := [
    Tri(43, 44, 61), Tri(44, 61, 62), Tri(44, 45, 62), Tri(45, 62, 63),
    Tri(45, 46, 63), Tri(46, 63, 64), Tri(46, 47, 64), Tri(47, 64, 65),
    Tri(47, 48, 65), Tri(48, 65, 66), Tri(48, 49, 66), Tri(49, 66, 67),
    Tri(49, 50, 67), Tri(50, 67, 68), Tri(50, 51, 68), Tri(51, 68, 69)]

  /** The two ends of the handle (main.cpp:1025-1031). */
  const HandleInside: seq<Triangle> := [
    Tri(34, 43, 52), Tri(43, 52, 61), Tri(42, 51, 60), Tri(51, 60, 69)]

  /** The table plane (main.cpp:1032-1036). */
  const Plane: seq<Triangle> := [
    Tri(70, 71, 72), Tri(71, 72, 73)]

  /** The cylinder base: a fan from vertex 74 (main.cpp:1037-1055). */
  const CylinderBase: seq<Triangle> := [
    Tri(74, 75, 76), Tri(74, 76, 77), Tri(74, 77, 78), Tri(74, 78, 79),
    Tri(74, 79, 80), Tri(74, 80, 81), Tri(74, 81, 82), Tri(74, 82, 83),
    Tri(74, 83, 84), Tri(74, 84, 85), Tri(74, 85, 86), Tri(74, 86, 87),
    Tri(74, 87, 88), Tri(74, 88, 89), Tri(74, 89, 90), Tri(74, 75, 90)]

  /** The cylinder top: a fan from vertex 91 (main.cpp:1056-1074). */
  const CylinderTop: seq<Triangle> := [
    Tri(91, 92, 93), Tri(91, 93, 94), Tri(91, 94, 95), Tri(91, 95, 96),
    Tri(91, 96, 97), Tri(91, 97, 98), Tri(91, 98, 99), Tri(91, 99, 100),
    Tri(91, 100, 101), Tri(91, 101, 102), Tri(91, 102, 103), Tri(91, 103, 104),
    Tri(91, 104, 105), Tri(91, 105, 106), Tri(91, 106, 107), Tri(91, 92, 107)]

  /** The cylinder side (main.cpp:1075-1109). */
  const CylinderBody: seq<Triangle> := CylinderBodyFront + CylinderBodyBack

  /** Sides 1 to 8 (main.cpp:1077-1092). */
  const CylinderBodyFront: seq<Triangle> := [
    Tri(75, 76, 92), Tri(76, 92, 93), Tri(76, 77, 93), Tri(77, 93, 94),
    Tri(77, 78, 94), Tri(78, 94, 95), Tri(78, 79, 95), Tri(79, 95, 96),
    Tri(79, 80, 96), Tri(80, 96, 97), Tri(80, 81, 97), Tri(81, 97, 98),
    Tri(81, 82, 98), Tri(82, 98, 99), Tri(82, 83, 99), Tri(83, 99, 100)]

  /** Sides 9 to 16 (main.cpp:1093-1108). */
  const CylinderBodyBack: seq<Triangle> := [
    Tri(83, 84, 100), Tri(84, 100, 101), Tri(84, 85, 101), Tri(85, 101, 102),
    Tri(85, 86, 102), Tri(86, 102, 103), Tri(86, 87, 103), Tri(87, 103, 104),
    Tri(87, 88, 104), Tri(88, 104, 105), Tri(88, 89, 105), Tri(89, 105, 106),
    Tri(89, 90, 106), Tri(90, 106, 107), Tri(90, 75, 107), Tri(75, 92, 107)]

  /** The whole triangle list, in source order. */
  const IndexTriangles: seq<Triangle> :=
    MugBase + (MugBody + (OuterTorus + (FrontTorus + (BackTorus + (InnerTorus
    + (HandleInside + (Plane + (CylinderBase + (CylinderTop + CylinderBody)))))))))

  /** The GLushort table `indices` as uploaded to the element buffer. */
  const Indices: seq<nat> := Elements(IndexTriangles)

  // ---------------------------------------------------------------------------
  // `lightIndices` (main.cpp:1112-1132): a fan of 16 triangles from vertex 17 over the
  // top rim 18..33. It is counted but never uploaded to a buffer.

  const LightTriangles: seq<Triangle> := [
    Tri(17, 18, 19), Tri(17, 19, 20), Tri(17, 20, 21), Tri(17, 21, 22),
    Tri(17, 22, 23), Tri(17, 23, 24), Tri(17, 24, 25), Tri(17, 25, 26),
    Tri(17, 26, 27), Tri(17, 27, 28), Tri(17, 28, 29), Tri(17, 29, 30),
    Tri(17, 30, 31), Tri(17, 31, 32), Tri(17, 32, 33), Tri(17, 18, 33)]

  /** The GLuint table `lightIndices`. */
  const LightIndices: seq<nat> := Elements(LightTriangles)

  // ---------------------------------------------------------------------------
  // Flattening

  /** Flattening distributes over concatenation. */
  lemma ElementsAppend(x: seq<Triangle>, y: seq<Triangle>)
    ensures Elements(x + y) == Elements(x) + Elements(y)
  {
    var l, r := Elements(x + y), Elements(x) + Elements(y);
    forall i | 0 <= i < |l| ensures l[i] == r[i] {
      if i < 3 * |x| {
        assert (x + y)[i / 3] == x[i / 3];
      } else {
        var j := i - 3 * |x|;
        assert j / 3 == i / 3 - |x| && j % 3 == i % 3;
        assert (x + y)[i / 3] == y[j / 3];
      }
    }
  }

  /** The entries of a table's first triangles are a prefix of the table's entries. */
  lemma ElementsPrefix(x: seq<Triangle>, y: seq<Triangle>)
    ensures |Elements(x)| <= |Elements(x + y)|
    ensures Elements(x + y)[..|Elements(x)|] == Elements(x)
  {
    ElementsAppend(x, y);
    assert (Elements(x) + Elements(y))[..|Elements(x)|] == Elements(x);
  }

  lemma AllBelowAppend(x: seq<Triangle>, y: seq<Triangle>, bound: int)
    requires AllBelow(x, bound) && AllBelow(y, bound)
    ensures AllBelow(x + y, bound)
  {
  }

  /** A table of triangles whose vertices are all below bound flattens to entries that
      are all below bound, and conversely. */
  lemma ElementsInRange(ts: seq<Triangle>, bound: int)
    ensures InRange(Elements(ts), bound) <==> AllBelow(ts, bound)
  {
    var e := Elements(ts);
    if InRange(e, bound) {
      forall k | 0 <= k < |ts| ensures Below(ts[k], bound) {
        assert (3 * k) / 3 == k && (3 * k + 1) / 3 == k && (3 * k + 2) / 3 == k;
        assert e[3 * k] == ts[k].a && e[3 * k + 1] == ts[k].b && e[3 * k + 2] == ts[k].c;
      }
    }
    if AllBelow(ts, bound) {
      forall i | 0 <= i < |e| ensures e[i] < bound {
        assert Below(ts[i / 3], bound);
      }
    }
  }

  // ---------------------------------------------------------------------------
  // Properties of the tables

  /** `verts` holds whole vertices: 108 of them, 8 floats each. */
  lemma VertsAreWholeVertices()
    ensures VertexCount == 108 && VertexCount * FloatsPerVertex == VertsFloatCount
  {
  }

  /** The index table lists 182 whole triangles, its entry count fits a GLushort, and
      every entry names a vertex that `verts` holds (so every entry fits a GLushort). */
  lemma IndexTableWellFormed()
    ensures |Indices| == 546 && |Indices| % 3 == 0 && |Indices| < UShortLimit
    ensures InRange(Indices, VertexCount) && VertexCount <= UShortLimit
  {
    MugBaseBelow();
    MugBodyBelow();
    OuterTorusBelow();
    FrontTorusBelow();
    BackTorusBelow();
    InnerTorusBelow();
    HandleInsideBelow();
    PlaneBelow();
    CylinderBaseBelow();
    CylinderTopBelow();
    CylinderBodyBelow();
    AllBelowAppend(CylinderTop, CylinderBody, VertexCount);
    AllBelowAppend(CylinderBase, CylinderTop + CylinderBody, VertexCount);
    AllBelowAppend(Plane, CylinderBase + (CylinderTop + CylinderBody), VertexCount);
    AllBelowAppend(HandleInside, Plane + (CylinderBase + (CylinderTop + CylinderBody)), VertexCount);
    AllBelowAppend(InnerTorus, HandleInside + (Plane + (CylinderBase + (CylinderTop + CylinderBody))), VertexCount);
    AllBelowAppend(BackTorus, InnerTorus + (HandleInside + (Plane + (CylinderBase + (CylinderTop + CylinderBody)))), VertexCount);
    AllBelowAppend(FrontTorus, BackTorus + (InnerTorus + (HandleInside + (Plane + (CylinderBase + (CylinderTop + CylinderBody))))), VertexCount);
    AllBelowAppend(OuterTorus, FrontTorus + (BackTorus + (InnerTorus + (HandleInside + (Plane + (CylinderBase + (CylinderTop + CylinderBody)))))), VertexCount);
    AllBelowAppend(MugBody, OuterTorus + (FrontTorus + (BackTorus + (InnerTorus + (HandleInside + (Plane + (CylinderBase + (CylinderTop + CylinderBody))))))), VertexCount);
    AllBelowAppend(MugBase, MugBody + (OuterTorus + (FrontTorus + (BackTorus + (InnerTorus + (HandleInside + (Plane + (CylinderBase + (CylinderTop + CylinderBody)))))))), VertexCount);
    ElementsInRange(IndexTriangles, VertexCount);
  }

  lemma MugBaseBelow()
    ensures AllBelow(MugBase, VertexCount)
  {
  }

  lemma MugBodyBelow()
    ensures AllBelow(MugBody, VertexCount)
  {
    MugBodyFrontBelow();
    MugBodyBackBelow();
    AllBelowAppend(MugBodyFront, MugBodyBack, VertexCount);
  }

  lemma MugBodyFrontBelow()
    ensures AllBelow(MugBodyFront, VertexCount)
  {
  }

  lemma MugBodyBackBelow()
    ensures AllBelow(MugBodyBack, VertexCount)
  {
  }

  lemma OuterTorusBelow()
    ensures AllBelow(OuterTorus, VertexCount)
  {
  }

  lemma FrontTorusBelow()
    ensures AllBelow(FrontTorus, VertexCount)
  {
  }

  lemma BackTorusBelow()
    ensures AllBelow(BackTorus, VertexCount)
  {
  }

  lemma InnerTorusBelow()
    ensures AllBelow(InnerTorus, VertexCount)
  {
  }

  lemma HandleInsideBelow()
    ensures AllBelow(HandleInside, VertexCount)
  {
  }

  lemma PlaneBelow()
    ensures AllBelow(Plane, VertexCount)
  {
  }

  lemma CylinderBaseBelow()
    ensures AllBelow(CylinderBase, VertexCount)
  {
  }

  lemma CylinderTopBelow()
    ensures AllBelow(CylinderTop, VertexCount)
  {
  }

  lemma CylinderBodyBelow()
    ensures AllBelow(CylinderBody, VertexCount)
  {
    CylinderBodyFrontBelow();
    CylinderBodyBackBelow();
    AllBelowAppend(CylinderBodyFront, CylinderBodyBack, VertexCount);
  }

  lemma CylinderBodyFrontBelow()
    ensures AllBelow(CylinderBodyFront, VertexCount)
  {
  }

  lemma CylinderBodyBackBelow()
    ensures AllBelow(CylinderBodyBack, VertexCount)
  {
  }

  /** `lightIndices` lists 16 whole triangles over vertices that `verts` holds. */
  lemma LightIndicesWellFormed()
    ensures |LightIndices| == 48 && |LightIndices| % 3 == 0
    ensures InRange(LightIndices, VertexCount)
  {
    assert AllBelow(LightTriangles, VertexCount);
    ElementsInRange(LightTriangles, VertexCount);
  }

  /** The first |LightIndices| entries of `indices` are the mug base, not the light
      table: a draw of nLightIndices elements from the uploaded element buffer draws the
      base fan around vertex 0 rather than the fan around vertex 17. */
  lemma LightCountPrefixIsMugBase()
    ensures |LightIndices| <= |Indices|
    ensures Indices[..|LightIndices|] == Elements(MugBase)
    ensures Indices[..|LightIndices|] != LightIndices
  {
    ElementsPrefix(MugBase, IndexTriangles[|MugBase|..]);
    assert Elements(MugBase)[0] == 0 && LightIndices[0] == 17;
  }
}
