/** The constant cube tables of vertex_data.ts: CubeData1, an indexed mesh of
    the 8 corners of the cube [-1, 1]^3 with one color per corner, and CubeData,
    the same 12 triangles written out corner by corner with one color per face. */
module CubeTables {
  import opened VertexLayout

  /** `{ vertexData, indexData }`: interleaved vertex records and the triangle
      list that indexes them (a Uint32Array, so natural numbers). */
  datatype IndexedMesh = IndexedMesh(vertexData: seq<real>, indexData: seq<nat>)

  /** `{ positions, colors }`: three floats per triangle corner in each. */
  datatype TriangleList = TriangleList(positions: seq<real>, colors: seq<real>)

  /** CubeData1's `vertexData`: position, then color, of the corners a .. h. */
  const CubeVertexData: seq<real> :=
    // position,           color
    [-1.0, -1.0,  1.0,   0.0, 0.0, 1.0] +   // vertex a, index 0
    [ 1.0, -1.0,  1.0,   1.0, 0.0, 1.0] +   // vertex b, index 1
    [ 1.0,  1.0,  1.0,   1.0, 1.0, 1.0] +   // vertex c, index 2
    [-1.0,  1.0,  1.0,   0.0, 1.0, 1.0] +   // vertex d, index 3
    [-1.0, -1.0, -1.0,   0.0, 0.0, 0.0] +   // vertex e, index 4
    [ 1.0, -1.0, -1.0,   1.0, 0.0, 0.0] +   // vertex f, index 5
    [ 1.0,  1.0, -1.0,   1.0, 1.0, 0.0] +   // vertex g, index 6
    [-1.0,  1.0, -1.0,   0.0, 1.0, 0.0]     // vertex h, index 7

  /** CubeData1's `indexData`: two triangles per face. */
  const CubeIndexData: seq<nat> :=
    [0, 1, 2, 2, 3, 0] +   // front
    [1, 5, 6, 6, 2, 1] +   // right
    [4, 7, 6, 6, 5, 4] +   // back
    [0, 3, 7, 7, 4, 0] +   // left
    [3, 2, 6, 6, 7, 3] +   // top
    [0, 4, 5, 5, 1, 0]     // bottom

  /** CubeData's `positions`: the corners of the 12 triangles, face by face. */
  const CubePositions: seq<real> :=
    [ -1.0, -1.0,  1.0,   1.0, -1.0,  1.0,   1.0,  1.0,  1.0,
      1.0,  1.0,  1.0,  -1.0,  1.0,  1.0,  -1.0, -1.0,  1.0] +   // front
    [  1.0, -1.0,  1.0,   1.0, -1.0, -1.0,   1.0,  1.0, -1.0,
      1.0,  1.0, -1.0,   1.0,  1.0,  1.0,   1.0, -1.0,  1.0] +   // right
    [ -1.0, -1.0, -1.0,  -1.0,  1.0, -1.0,   1.0,  1.0, -1.0,
      1.0,  1.0, -1.0,   1.0, -1.0, -1.0,  -1.0, -1.0, -1.0] +   // back
    [ -1.0, -1.0,  1.0,  -1.0,  1.0,  1.0,  -1.0,  1.0, -1.0,
     -1.0,  1.0, -1.0,  -1.0, -1.0, -1.0,  -1.0, -1.0,  1.0] +   // left
    [ -1.0,  1.0,  1.0,   1.0,  1.0,  1.0,   1.0,  1.0, -1.0,
      1.0,  1.0, -1.0,  -1.0,  1.0, -1.0,  -1.0,  1.0,  1.0] +   // top
    [ -1.0, -1.0,  1.0,  -1.0, -1.0, -1.0,   1.0, -1.0, -1.0,
      1.0, -1.0, -1.0,   1.0, -1.0,  1.0,  -1.0, -1.0,  1.0]   // bottom

  /** CubeData's `colors`: one color per face. */
  const CubeColors: seq<real> :=
    [ 0.0, 0.0, 1.0,  0.0, 0.0, 1.0,  0.0, 0.0, 1.0,
      0.0, 0.0, 1.0,  0.0, 0.0, 1.0,  0.0, 0.0, 1.0] +   // front - blue
    [ 1.0, 0.0, 0.0,  1.0, 0.0, 0.0,  1.0, 0.0, 0.0,
      1.0, 0.0, 0.0,  1.0, 0.0, 0.0,  1.0, 0.0, 0.0] +   // right - red
    [ 1.0, 1.0, 0.0,  1.0, 1.0, 0.0,  1.0, 1.0, 0.0,
      1.0, 1.0, 0.0,  1.0, 1.0, 0.0,  1.0, 1.0, 0.0] +   // back - yellow
    [ 0.0, 1.0, 1.0,  0.0, 1.0, 1.0,  0.0, 1.0, 1.0,
      0.0, 1.0, 1.0,  0.0, 1.0, 1.0,  0.0, 1.0, 1.0] +   // left - aqua
    [ 0.0, 1.0, 0.0,  0.0, 1.0, 0.0,  0.0, 1.0, 0.0,
      0.0, 1.0, 0.0,  0.0, 1.0, 0.0,  0.0, 1.0, 0.0] +   // top - green
    [ 1.0, 0.0, 1.0,  1.0, 0.0, 1.0,  1.0, 0.0, 1.0,
      1.0, 0.0, 1.0,  1.0, 0.0, 1.0,  1.0, 0.0, 1.0]   // bottom - fuchsia

  /** CubeData1: 8 vertex records of 6 floats and 36 indices, all naming one of them. */
  function CubeData1(): (mesh: IndexedMesh)
    ensures |mesh.vertexData| == 8 * Stride
    ensures |mesh.indexData| == 36
    ensures forall t | 0 <= t < |mesh.indexData| :: mesh.indexData[t] < 8
  {
    IndexedMesh(CubeVertexData, CubeIndexData)
  }

  /** CubeData: 36 triangle corners, so 108 floats of positions and 108 of colors. */
  function CubeData(): (cube: TriangleList)
    ensures |cube.positions| == 36 * 3 && |cube.colors| == 36 * 3
  {
    TriangleList(CubePositions, CubeColors)
  }

  /** Corner number `t` of a table holding three floats per corner. */
  function Corner(table: seq<real>, t: int): (c: Vec3)
    requires 0 <= t && 3 * t + 3 <= |table|
  {
    Vec3(table[3 * t], table[3 * t + 1], table[3 * t + 2])
  }

  // The facts below are predicates on the literal tables. Each group of
  // corners (a face, or the front and back corners of CubeData1) is first
  // evaluated corner by corner at literal indices; a case split over the index
  // then turns those instances into a statement for every index.

  /** Corner `t` of CubeData is the position of the vertex that index `t` of CubeData1 names. */
  predicate CornerAgrees(t: int)
    requires 0 <= t < 36
  {
    CubeIndexData[t] < 8 && Corner(CubePositions, t) == VertexPosition(CubeVertexData, CubeIndexData[t])
  }

  lemma FrontCornersAgree()
    ensures CornerAgrees(0) && CornerAgrees(1) && CornerAgrees(2) &&
      CornerAgrees(3) && CornerAgrees(4) && CornerAgrees(5)
  {
  }

  lemma RightCornersAgree()
    ensures CornerAgrees(6) && CornerAgrees(7) && CornerAgrees(8) &&
      CornerAgrees(9) && CornerAgrees(10) && CornerAgrees(11)
  {
  }

  lemma BackCornersAgree()
    ensures CornerAgrees(12) && CornerAgrees(13) && CornerAgrees(14) &&
      CornerAgrees(15) && CornerAgrees(16) && CornerAgrees(17)
  {
  }

  lemma LeftCornersAgree()
    ensures CornerAgrees(18) && CornerAgrees(19) && CornerAgrees(20) &&
      CornerAgrees(21) && CornerAgrees(22) && CornerAgrees(23)
  {
  }

  lemma TopCornersAgree()
    ensures CornerAgrees(24) && CornerAgrees(25) && CornerAgrees(26) &&
      CornerAgrees(27) && CornerAgrees(28) && CornerAgrees(29)
  {
  }

  lemma BottomCornersAgree()
    ensures CornerAgrees(30) && CornerAgrees(31) && CornerAgrees(32) &&
      CornerAgrees(33) && CornerAgrees(34) && CornerAgrees(35)
  {
  }

  /** Every corner of CubeData agrees with CubeData1. */
  lemma AllCornersAgree()
    ensures forall t | 0 <= t < 36 :: CornerAgrees(t)
  {
    FrontCornersAgree(); RightCornersAgree(); BackCornersAgree();
    LeftCornersAgree(); TopCornersAgree(); BottomCornersAgree();
    forall t | 0 <= t < 36
      ensures CornerAgrees(t)
    {
      // Splitting by index turns t into a literal, so the per-face lemmas' literal instances apply.
      if t == 0 {
      } else if t == 1 {
      } else if t == 2 {
      } else if t == 3 {
      } else if t == 4 {
      } else if t == 5 {
      } else if t == 6 {
      } else if t == 7 {
      } else if t == 8 {
      } else if t == 9 {
      } else if t == 10 {
      } else if t == 11 {
      } else if t == 12 {
      } else if t == 13 {
      } else if t == 14 {
      } else if t == 15 {
      } else if t == 16 {
      } else if t == 17 {
      } else if t == 18 {
      } else if t == 19 {
      } else if t == 20 {
      } else if t == 21 {
      } else if t == 22 {
      } else if t == 23 {
      } else if t == 24 {
      } else if t == 25 {
      } else if t == 26 {
      } else if t == 27 {
      } else if t == 28 {
      } else if t == 29 {
      } else if t == 30 {
      } else if t == 31 {
      } else if t == 32 {
      } else if t == 33 {
      } else if t == 34 {
      } else {
      }
    }
  }

  /** The two tables describe the same 12 triangles: corner `t` of CubeData is
      the position of the vertex that CubeData1's index `t` names. */
  lemma CubeTablesAgree()
    ensures |CubeData().positions| == 3 * |CubeData1().indexData|
    ensures forall t | 0 <= t < |CubeData1().indexData| ::
      Corner(CubeData().positions, t) == VertexPosition(CubeData1().vertexData, CubeData1().indexData[t])
  {
    AllCornersAgree();
    var mesh, cube := CubeData1(), CubeData();
    assert mesh.vertexData == CubeVertexData && mesh.indexData == CubeIndexData;
    assert cube.positions == CubePositions;
    forall t | 0 <= t < |mesh.indexData|
      ensures Corner(cube.positions, t) == VertexPosition(mesh.vertexData, mesh.indexData[t])
    {
      assert CornerAgrees(t);
    }
  }

  /** Vertex `q` of CubeData1 has the color `(position + 1) / 2`. */
  predicate ColorIsPosition(q: int)
    requires 0 <= q < 8
  {
    var p, c := VertexPosition(CubeVertexData, q), VertexColor(CubeVertexData, q);
    c == Vec3((p.x + 1.0) / 2.0, (p.y + 1.0) / 2.0, (p.z + 1.0) / 2.0)
  }

  /** The front corners a .. d and the back corners e .. h. */
  lemma CornersColoredByPosition()
    ensures ColorIsPosition(0) && ColorIsPosition(1) && ColorIsPosition(2) && ColorIsPosition(3)
    ensures ColorIsPosition(4) && ColorIsPosition(5) && ColorIsPosition(6) && ColorIsPosition(7)
  {
  }

  /** Every corner of CubeData1 is colored by its position mapped from [-1, 1] to [0, 1]:
      `color = (position + 1) / 2`, the rgb cube. */
  lemma CubeData1ColorsArePositions()
    ensures forall q | 0 <= q < 8 ::
      var p, c := VertexPosition(CubeData1().vertexData, q), VertexColor(CubeData1().vertexData, q);
      c == Vec3((p.x + 1.0) / 2.0, (p.y + 1.0) / 2.0, (p.z + 1.0) / 2.0)
  {
    CornersColoredByPosition();
    var mesh := CubeData1();
    assert mesh.vertexData == CubeVertexData;
    forall q | 0 <= q < 8
      ensures var p, c := VertexPosition(mesh.vertexData, q), VertexColor(mesh.vertexData, q);
        c == Vec3((p.x + 1.0) / 2.0, (p.y + 1.0) / 2.0, (p.z + 1.0) / 2.0)
    {
      // Splitting by index turns q into a literal, so the literal instances of CornersColoredByPosition apply.
      if q == 0 {
      } else if q == 1 {
      } else if q == 2 {
      } else if q == 3 {
      } else if q == 4 {
      } else if q == 5 {
      } else if q == 6 {
      } else {
      }
      assert ColorIsPosition(q);
    }
  }

  /** Triangle `tri` of CubeData1's index list names three different vertices. */
  predicate ProperTriangle(tri: int)
    requires 0 <= tri < 12
  {
    CubeIndexData[3 * tri] != CubeIndexData[3 * tri + 1] &&
    CubeIndexData[3 * tri + 1] != CubeIndexData[3 * tri + 2] &&
    CubeIndexData[3 * tri] != CubeIndexData[3 * tri + 2]
  }

  // Stated on the constant table, where the solver evaluates it far more
  // cheaply than through CubeData1().
  lemma TrianglesProper()
    ensures forall tri | 0 <= tri < 12 :: ProperTriangle(tri)
  {
  }

  /** The index list is 12 triangles, each naming three different corners. */
  lemma CubeData1TrianglesAreProper()
    ensures |CubeData1().indexData| == 3 * 12
    ensures forall tri | 0 <= tri < 12 ::
      var idx := CubeData1().indexData;
      idx[3 * tri] != idx[3 * tri + 1] && idx[3 * tri + 1] != idx[3 * tri + 2] && idx[3 * tri] != idx[3 * tri + 2]
  {
    TrianglesProper();
    var mesh := CubeData1();
    assert mesh.indexData == CubeIndexData;
    forall tri | 0 <= tri < 12
      ensures var idx := mesh.indexData;
        idx[3 * tri] != idx[3 * tri + 1] && idx[3 * tri + 1] != idx[3 * tri + 2] && idx[3 * tri] != idx[3 * tri + 2]
    {
      assert ProperTriangle(tri);
    }
  }

  /** The face colors of CubeData, in table order: front blue, right red, back
      yellow, left aqua, top green, bottom fuchsia. */
  const FaceColors: seq<Vec3> := [
    Vec3(0.0, 0.0, 1.0), Vec3(1.0, 0.0, 0.0), Vec3(1.0, 1.0, 0.0),
    Vec3(0.0, 1.0, 1.0), Vec3(0.0, 1.0, 0.0), Vec3(1.0, 0.0, 1.0)]

  /** The plane of each face, in the same order: the coordinate axis across it
      (0 = x, 1 = y, 2 = z) and the side of the cube it is on. Front is z = 1,
      right x = 1, back z = -1, left x = -1, top y = 1, bottom y = -1. */
  const FaceAxis: seq<int> := [2, 0, 2, 0, 1, 1]
  const FaceSide: seq<real> := [1.0, 1.0, -1.0, -1.0, 1.0, -1.0]

  function Coordinate(p: Vec3, axis: int): (x: real)
  {
    if axis == 0 then p.x else if axis == 1 then p.y else p.z
  }

  /** Corner `t` of CubeData carries the color of face `t / 6`. */
  predicate ColorOnFace(t: int)
    requires 0 <= t < 36
  {
    Corner(CubeColors, t) == FaceColors[t / 6]
  }

  /** Corner `t` of CubeData lies in the plane of face `t / 6`. */
  predicate PlaneOnFace(t: int)
    requires 0 <= t < 36
  {
    Coordinate(Corner(CubePositions, t), FaceAxis[t / 6]) == FaceSide[t / 6]
  }

  lemma FrontFaceOfCubeData()
    ensures ColorOnFace(0) && ColorOnFace(1) && ColorOnFace(2) && ColorOnFace(3) && ColorOnFace(4) && ColorOnFace(5)
    ensures PlaneOnFace(0) && PlaneOnFace(1) && PlaneOnFace(2) && PlaneOnFace(3) && PlaneOnFace(4) && PlaneOnFace(5)
  {
  }

  lemma RightFaceOfCubeData()
    ensures ColorOnFace(6) && ColorOnFace(7) && ColorOnFace(8) && ColorOnFace(9) && ColorOnFace(10) && ColorOnFace(11)
    ensures PlaneOnFace(6) && PlaneOnFace(7) && PlaneOnFace(8) && PlaneOnFace(9) && PlaneOnFace(10) && PlaneOnFace(11)
  {
  }

  lemma BackFaceOfCubeData()
    ensures ColorOnFace(12) && ColorOnFace(13) && ColorOnFace(14) && ColorOnFace(15) && ColorOnFace(16) && ColorOnFace(17)
    ensures PlaneOnFace(12) && PlaneOnFace(13) && PlaneOnFace(14) && PlaneOnFace(15) && PlaneOnFace(16) && PlaneOnFace(17)
  {
  }

  lemma LeftFaceOfCubeData()
    ensures ColorOnFace(18) && ColorOnFace(19) && ColorOnFace(20) && ColorOnFace(21) && ColorOnFace(22) && ColorOnFace(23)
    ensures PlaneOnFace(18) && PlaneOnFace(19) && PlaneOnFace(20) && PlaneOnFace(21) && PlaneOnFace(22) && PlaneOnFace(23)
  {
  }

  lemma TopFaceOfCubeData()
    ensures ColorOnFace(24) && ColorOnFace(25) && ColorOnFace(26) && ColorOnFace(27) && ColorOnFace(28) && ColorOnFace(29)
    ensures PlaneOnFace(24) && PlaneOnFace(25) && PlaneOnFace(26) && PlaneOnFace(27) && PlaneOnFace(28) && PlaneOnFace(29)
  {
  }

  lemma BottomFaceOfCubeData()
    ensures ColorOnFace(30) && ColorOnFace(31) && ColorOnFace(32) && ColorOnFace(33) && ColorOnFace(34) && ColorOnFace(35)
    ensures PlaneOnFace(30) && PlaneOnFace(31) && PlaneOnFace(32) && PlaneOnFace(33) && PlaneOnFace(34) && PlaneOnFace(35)
  {
  }

  /** Every corner of CubeData lies on its face. */
  lemma AllCornersOnFaces()
    ensures forall t | 0 <= t < 36 :: ColorOnFace(t) && PlaneOnFace(t)
  {
    FrontFaceOfCubeData(); RightFaceOfCubeData(); BackFaceOfCubeData();
    LeftFaceOfCubeData(); TopFaceOfCubeData(); BottomFaceOfCubeData();
    forall t | 0 <= t < 36
      ensures ColorOnFace(t) && PlaneOnFace(t)
    {
      // Splitting by index turns t into a literal, so the per-face lemmas' literal instances apply.
      if t == 0 {
      } else if t == 1 {
      } else if t == 2 {
      } else if t == 3 {
      } else if t == 4 {
      } else if t == 5 {
      } else if t == 6 {
      } else if t == 7 {
      } else if t == 8 {
      } else if t == 9 {
      } else if t == 10 {
      } else if t == 11 {
      } else if t == 12 {
      } else if t == 13 {
      } else if t == 14 {
      } else if t == 15 {
      } else if t == 16 {
      } else if t == 17 {
      } else if t == 18 {
      } else if t == 19 {
      } else if t == 20 {
      } else if t == 21 {
      } else if t == 22 {
      } else if t == 23 {
      } else if t == 24 {
      } else if t == 25 {
      } else if t == 26 {
      } else if t == 27 {
      } else if t == 28 {
      } else if t == 29 {
      } else if t == 30 {
      } else if t == 31 {
      } else if t == 32 {
      } else if t == 33 {
      } else if t == 34 {
      } else {
      }
    }
  }

  /** CubeData is six faces of six corners: corner `t` carries the color of face
      `t / 6` and lies in that face's plane. */
  lemma CubeDataFaces()
    ensures forall t | 0 <= t < 36 ::
      Corner(CubeData().colors, t) == FaceColors[t / 6] &&
      Coordinate(Corner(CubeData().positions, t), FaceAxis[t / 6]) == FaceSide[t / 6]
  {
    AllCornersOnFaces();
    var cube := CubeData();
    assert cube.positions == CubePositions && cube.colors == CubeColors;
    forall t | 0 <= t < 36
      ensures Corner(cube.colors, t) == FaceColors[t / 6]
      ensures Coordinate(Corner(cube.positions, t), FaceAxis[t / 6]) == FaceSide[t / 6]
    {
      assert ColorOnFace(t) && PlaneOnFace(t);
    }
  }
}
