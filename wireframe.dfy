/** The wireframe mesh builders of vertex_data.ts. Each samples a U x V grid of
    surface points and then walks the (U-1) x (V-1) cells, emitting for each
    cell a chunk of vertex records that a line-list draw turns into segments. */
module WireframeData {
  import opened VertexLayout

  /** `SpherePosition(radius, theta, phi, center)` of math-func.ts, which is
      not part of this model: any function of that shape. */
  type SphereSampler = (real, real, real, Vec3) -> Vec3

  /** `TorusPosition(R, r, theta, phi, center)` of math-func.ts, which is not
      part of this model: any function of that shape. */
  type TorusSampler = (real, real, real, real, Vec3) -> Vec3

  /** The angle, in degrees, at which grid index `index` of `count` samples is
      taken when the samples sweep `range` degrees: `index * range / (count - 1)`. */
  function Angle(index: int, range: real, count: int): (angle: real)
    requires count >= 2
  {
    (index as real) * range / ((count - 1) as real)
  }

  /** The first sample is taken at 0 degrees and the last one at the full range. */
  lemma AngleSweep(range: real, count: int)
    requires count >= 2
    ensures Angle(0, range, count) == 0.0
    ensures Angle(count - 1, range, count) == range
  {
  }

  /** Every sample of a non-negative range lies within it, and later samples are
      taken at larger angles. */
  lemma AngleMonotone(a: int, b: int, range: real, count: int)
    requires count >= 2 && 0 <= a <= b < count && 0.0 <= range
    ensures 0.0 <= Angle(a, range, count) <= Angle(b, range, count) <= range
  {
    var step := range / ((count - 1) as real);
    assert 0.0 <= step;
    assert Angle(a, range, count) == (a as real) * step;
    assert Angle(b, range, count) == (b as real) * step;
    assert Angle(count - 1, range, count) == range;
    var rise, rest := (b as real) - (a as real), ((count - 1) as real) - (b as real);
    assert 0.0 <= rise && 0.0 <= rest;
    assert 0.0 <= rise * step && 0.0 <= rest * step;
  }

  /** `pts` has `rows` rows of `cols` points each. */
  predicate IsGrid(pts: seq<seq<Vec3>>, rows: int, cols: int)
  {
    |pts| == rows && forall a | 0 <= a < |pts| :: |pts[a]| == cols
  }

  /** The sampling loops shared by both builders: row `i` of `pts` holds the
      points sampled at the first angle of index `i` and the second angles of
      the indices `0 .. cols - 1`. */
  method SampleGrid(rows: int, cols: int, range1: real, range2: real, sample: (real, real) -> Vec3)
    returns (pts: seq<seq<Vec3>>)
    requires rows >= 2 && cols >= 2
    ensures IsGrid(pts, rows, cols)
    ensures forall a, b | 0 <= a < rows && 0 <= b < cols ::
      pts[a][b] == sample(Angle(a, range1, rows), Angle(b, range2, cols))
  {
    pts := [];
    for i := 0 to rows
      invariant IsGrid(pts, i, cols)
      invariant forall a, b | 0 <= a < i && 0 <= b < cols ::
        pts[a][b] == sample(Angle(a, range1, rows), Angle(b, range2, cols))
    {
      var row: seq<Vec3> := [];
      for j := 0 to cols
        invariant |row| == j
        invariant forall b | 0 <= b < j :: row[b] == sample(Angle(i, range1, rows), Angle(b, range2, cols))
      {
        var pt := sample(Angle(i, range1, rows), Angle(j, range2, cols));
        row := row + [pt];
      }
      pts := pts + [row];
    }
  }

  // ---------------------------------------------------------------------------
  // Sphere: four vertices per cell, p0, p1, p0, p3.

  /** Number of vertices the sphere emits for a u x v grid. */
  function SphereVertexCount(u: int, v: int): (count: int)
  {
    (u - 1) * (v - 1) * 4
  }

  /** The grid point `(row, column)` whose position the sphere buffer holds at
      vertex `m`: for the cell `(i, j)` of that vertex, `pts[i][j]` at slots 0 and 2,
      `pts[i + 1][j]` at slot 1 and `pts[i][j + 1]` at slot 3. It always lies in the grid. */
  function SphereCorner(m: int, u: int, v: int): (rc: (int, int))
    requires u >= 2 && v >= 2 && 0 <= m < SphereVertexCount(u, v)
    ensures 0 <= rc.0 < u && 0 <= rc.1 < v
  {
    var s := SlotOf(m, 4, v - 1);
    SlotRowBound(m, 4, u - 1, v - 1);
    if s.k == 1 then (s.row + 1, s.col)
    else if s.k == 3 then (s.row, s.col + 1)
    else (s.row, s.col)
  }

  /** The sphere's grid point `rc`: `SpherePosition(radius, i * 180 / (u - 1), j * 360 / (v - 1), center)`. */
  function SpherePoint(spherePosition: SphereSampler, radius: real, center: Vec3, u: int, v: int, rc: (int, int)): (p: Vec3)
    requires u >= 2 && v >= 2
  {
    spherePosition(radius, Angle(rc.0, 180.0, u), Angle(rc.1, 360.0, v), center)
  }

  /** `buf` holds the records of the first `cells` cells of the sphere's line
      list over `pts`, in row-major order. */
  ghost predicate SphereEmitted(buf: seq<real>, pts: seq<seq<Vec3>>, u: int, v: int, color: Vec3, cells: int)
  {
    u >= 2 && v >= 2 && IsGrid(pts, u, v) && 0 <= cells && 4 * cells <= SphereVertexCount(u, v) &&
    |buf| == 4 * cells * Stride &&
    forall m | 0 <= m < 4 * cells ::
      VertexPosition(buf, m) == pts[SphereCorner(m, u, v).0][SphereCorner(m, u, v).1] &&
      VertexColor(buf, m) == color
  }

  /** Pushing the chunk `p0, p1, p0, p3` of cell `(i, j)` extends the emitted prefix by that cell. */
  lemma SphereEmitStep(buf: seq<real>, pts: seq<seq<Vec3>>, u: int, v: int, color: Vec3, i: int, j: int)
    requires 0 <= i < u - 1 && 0 <= j < v - 1
    requires SphereEmitted(buf, pts, u, v, color, i * (v - 1) + j)
    ensures SphereEmitted(buf + Records([pts[i][j], pts[i + 1][j], pts[i][j], pts[i][j + 1]], color),
                          pts, u, v, color, i * (v - 1) + j + 1)
  {
    var c := i * (v - 1) + j;
    var ps := [pts[i][j], pts[i + 1][j], pts[i][j], pts[i][j + 1]];
    var next := buf + Records(ps, color);
    SphereCellCorners(i, j, 3, u, v);
    forall m | 0 <= m < 4 * (c + 1)
      ensures VertexPosition(next, m) == pts[SphereCorner(m, u, v).0][SphereCorner(m, u, v).1]
      ensures VertexColor(next, m) == color
    {
      if m < 4 * c {
        ReadPrefix(buf, Records(ps, color), m);
      } else {
        SphereCellCorners(i, j, m - 4 * c, u, v);
        RecordsAt(buf, 4 * c, ps, color, m - 4 * c);
      }
    }
  }

  /** The emission loops of SphereWireframeData over a sampled grid. */
  method EmitSphereLines(pts: seq<seq<Vec3>>, u: int, v: int, color: Vec3) returns (buf: seq<real>)
    requires u >= 2 && v >= 2 && IsGrid(pts, u, v)
    ensures |buf| == (u - 1) * (v - 1) * 4 * Stride
    ensures forall m | 0 <= m < SphereVertexCount(u, v) ::
      VertexPosition(buf, m) == pts[SphereCorner(m, u, v).0][SphereCorner(m, u, v).1] &&
      VertexColor(buf, m) == color
  {
    var pp: seq<seq<real>> := [];
    for i := 0 to u - 1
      invariant |pp| == i * (v - 1)
      invariant SphereEmitted(Flatten(pp), pts, u, v, color, |pp|)
    {
      for j := 0 to v - 1
        invariant |pp| == i * (v - 1) + j
        invariant SphereEmitted(Flatten(pp), pts, u, v, color, |pp|)
      {
        var p0 := pts[i][j];
        var p1 := pts[i + 1][j];
        var p3 := pts[i][j + 1];
        var chunk := Records([p0, p1, p0, p3], color);
        SphereEmitStep(Flatten(pp), pts, u, v, color, i, j);
        FlattenPush(pp, chunk);
        pp := pp + [chunk];
      }
    }
    buf := Flatten(pp);
  }

  /** SphereWireframeData: nothing for u < 2 or v < 2; otherwise the line list
      whose vertex `m` is the sampled sphere point SphereCorner(m) in the given color. */
  method SphereWireframeData(spherePosition: SphereSampler, radius: real, u: int, v: int,
                             center: Vec3 := Vec3(0.0, 0.0, 0.0), color: Vec3 := Vec3(0.0, 1.0, 1.0))
    returns (r: Option<seq<real>>)
    ensures r.None? <==> (u < 2 || v < 2)
    ensures r.Some? ==> |r.value| == (u - 1) * (v - 1) * 4 * Stride
    ensures r.Some? ==> forall m | 0 <= m < SphereVertexCount(u, v) ::
      VertexPosition(r.value, m) == SpherePoint(spherePosition, radius, center, u, v, SphereCorner(m, u, v)) &&
      VertexColor(r.value, m) == color
  {
    if u < 2 || v < 2 {
      return None;
    }
    var pts := SampleGrid(u, v, 180.0, 360.0, (theta, phi) => spherePosition(radius, theta, phi, center));
    var buf := EmitSphereLines(pts, u, v, color);
    return Some(buf);
  }

  /** Slot `k` of cell `(i, j)` is sphere vertex `4 * (i * (v - 1) + j) + k`, and it
      holds the `k`-th of the cell's corners `p0, p1, p0, p3`, that is
      `pts[i][j]`, `pts[i + 1][j]`, `pts[i][j]`, `pts[i][j + 1]`. */
  lemma SphereCellCorners(i: int, j: int, k: int, u: int, v: int)
    requires u >= 2 && v >= 2 && 0 <= i < u - 1 && 0 <= j < v - 1 && 0 <= k < 4
    ensures var m := 4 * (i * (v - 1) + j) + k;
      0 <= m < SphereVertexCount(u, v) &&
      SphereCorner(m, u, v) == [(i, j), (i + 1, j), (i, j), (i, j + 1)][k]
  {
    VertexIndexBound(CellSlot(i, j, k), 4, u - 1, v - 1);
    IndexRoundTrip(CellSlot(i, j, k), 4, v - 1);
  }

  /** Two grid points joined by one edge of the grid: they differ by one step
      in exactly one of the two indices. */
  predicate GridEdge(a: (int, int), b: (int, int))
  {
    (a.0 == b.0 && (a.1 + 1 == b.1 || b.1 + 1 == a.1)) ||
    (a.1 == b.1 && (a.0 + 1 == b.0 || b.0 + 1 == a.0))
  }

  /** Under line-list topology line `t` joins vertices `2 t` and `2 t + 1`; every
      line of the sphere buffer is an edge of the sampled grid. */
  lemma SphereLinesAreGridEdges(t: int, u: int, v: int)
    requires u >= 2 && v >= 2 && 0 <= t && 2 * t + 1 < SphereVertexCount(u, v)
    ensures GridEdge(SphereCorner(2 * t, u, v), SphereCorner(2 * t + 1, u, v))
  {
    var s, s' := SlotOf(2 * t, 4, v - 1), SlotOf(2 * t + 1, 4, v - 1);
    assert (2 * t) / 4 == (2 * t + 1) / 4 && (2 * t) % 4 + 1 == (2 * t + 1) % 4;
    assert s.row == s'.row && s.col == s'.col;
  }

  // ---------------------------------------------------------------------------
  // Torus: six vertices per cell, p0, p1, p3, p0, p2, p1.

  /** Number of vertices the torus emits for an N x n grid. */
  function TorusVertexCount(N: int, n: int): (count: int)
  {
    (N - 1) * (n - 1) * 6
  }

  /** The grid point whose position the torus buffer holds at vertex `m`: for
      the cell `(i, j)` of that vertex, with `p0 = pts[i][j]`, `p1 = pts[i + 1][j]`,
      `p2 = pts[i + 1][j + 1]` and `p3 = pts[i][j + 1]`, slots 0 .. 5 hold
      `p0, p1, p3, p0, p2, p1`. It always lies in the grid. */
  function TorusCorner(m: int, N: int, n: int): (rc: (int, int))
    requires N >= 2 && n >= 2 && 0 <= m < TorusVertexCount(N, n)
    ensures 0 <= rc.0 < N && 0 <= rc.1 < n
  {
    var s := SlotOf(m, 6, n - 1);
    SlotRowBound(m, 6, N - 1, n - 1);
    if s.k == 1 || s.k == 5 then (s.row + 1, s.col)
    else if s.k == 2 then (s.row, s.col + 1)
    else if s.k == 4 then (s.row + 1, s.col + 1)
    else (s.row, s.col)
  }

  /** The torus's grid point `rc`: `TorusPosition(R, r, i * 360 / (N - 1), j * 360 / (n - 1), center)`. */
  function TorusPoint(torusPosition: TorusSampler, R: real, r: real, center: Vec3, N: int, n: int, rc: (int, int)): (p: Vec3)
    requires N >= 2 && n >= 2
  {
    torusPosition(R, r, Angle(rc.0, 360.0, N), Angle(rc.1, 360.0, n), center)
  }

  /** `buf` holds the records of the first `cells` cells of the torus's line
      list over `pts`, in row-major order. */
  ghost predicate TorusEmitted(buf: seq<real>, pts: seq<seq<Vec3>>, N: int, n: int, color: Vec3, cells: int)
  {
    N >= 2 && n >= 2 && IsGrid(pts, N, n) && 0 <= cells && 6 * cells <= TorusVertexCount(N, n) &&
    |buf| == 6 * cells * Stride &&
    forall m | 0 <= m < 6 * cells ::
      VertexPosition(buf, m) == pts[TorusCorner(m, N, n).0][TorusCorner(m, N, n).1] &&
      VertexColor(buf, m) == color
  }

  /** Pushing the chunk `p0, p1, p3, p0, p2, p1` of cell `(i, j)` extends the emitted prefix by that cell. */
  lemma TorusEmitStep(buf: seq<real>, pts: seq<seq<Vec3>>, N: int, n: int, color: Vec3, i: int, j: int)
    requires 0 <= i < N - 1 && 0 <= j < n - 1
    requires TorusEmitted(buf, pts, N, n, color, i * (n - 1) + j)
    ensures TorusEmitted(buf + Records([pts[i][j], pts[i + 1][j], pts[i][j + 1],
                                        pts[i][j], pts[i + 1][j + 1], pts[i + 1][j]], color),
                         pts, N, n, color, i * (n - 1) + j + 1)
  {
    var c := i * (n - 1) + j;
    var ps := [pts[i][j], pts[i + 1][j], pts[i][j + 1], pts[i][j], pts[i + 1][j + 1], pts[i + 1][j]];
    var next := buf + Records(ps, color);
    TorusCellCorners(i, j, 5, N, n);
    forall m | 0 <= m < 6 * (c + 1)
      ensures VertexPosition(next, m) == pts[TorusCorner(m, N, n).0][TorusCorner(m, N, n).1]
      ensures VertexColor(next, m) == color
    {
      if m < 6 * c {
        ReadPrefix(buf, Records(ps, color), m);
      } else {
        TorusCellCorners(i, j, m - 6 * c, N, n);
        RecordsAt(buf, 6 * c, ps, color, m - 6 * c);
      }
    }
  }

  /** The emission loops of TorusWireframeData over a sampled grid. */
  method EmitTorusLines(pts: seq<seq<Vec3>>, N: int, n: int, color: Vec3) returns (buf: seq<real>)
    requires N >= 2 && n >= 2 && IsGrid(pts, N, n)
    ensures |buf| == (N - 1) * (n - 1) * 6 * Stride
    ensures forall m | 0 <= m < TorusVertexCount(N, n) ::
      VertexPosition(buf, m) == pts[TorusCorner(m, N, n).0][TorusCorner(m, N, n).1] &&
      VertexColor(buf, m) == color
  {
    var pp: seq<seq<real>> := [];
    for i := 0 to N - 1
      invariant |pp| == i * (n - 1)
      invariant TorusEmitted(Flatten(pp), pts, N, n, color, |pp|)
    {
      for j := 0 to n - 1
        invariant |pp| == i * (n - 1) + j
        invariant TorusEmitted(Flatten(pp), pts, N, n, color, |pp|)
      {
        var p0 := pts[i][j];
        var p1 := pts[i + 1][j];
        var p2 := pts[i + 1][j + 1];
        var p3 := pts[i][j + 1];
        var chunk := Records([p0, p1, p3, p0, p2, p1], color);
        TorusEmitStep(Flatten(pp), pts, N, n, color, i, j);
        FlattenPush(pp, chunk);
        pp := pp + [chunk];
      }
    }
    buf := Flatten(pp);
  }

  /** TorusWireframeData: nothing for n < 2 or N < 2; otherwise the line list
      whose vertex `m` is the sampled torus point TorusCorner(m) in the given color. */
  method TorusWireframeData(torusPosition: TorusSampler, R: real, r: real, N: int, n: int,
                            center: Vec3 := Vec3(0.0, 0.0, 0.0), color: Vec3 := Vec3(1.0, 1.0, 1.0))
    returns (data: Option<seq<real>>)
    ensures data.None? <==> (n < 2 || N < 2)
    ensures data.Some? ==> |data.value| == (N - 1) * (n - 1) * 6 * Stride
    ensures data.Some? ==> forall m | 0 <= m < TorusVertexCount(N, n) ::
      VertexPosition(data.value, m) == TorusPoint(torusPosition, R, r, center, N, n, TorusCorner(m, N, n)) &&
      VertexColor(data.value, m) == color
  {
    if n < 2 || N < 2 {
      return None;
    }
    var pts := SampleGrid(N, n, 360.0, 360.0, (theta, phi) => torusPosition(R, r, theta, phi, center));
    var buf := EmitTorusLines(pts, N, n, color);
    return Some(buf);
  }

  /** Slot `k` of cell `(i, j)` is torus vertex `6 * (i * (n - 1) + j) + k`, and it
      holds the `k`-th of the cell's corners `p0, p1, p3, p0, p2, p1`, where
      `p0 = pts[i][j]`, `p1 = pts[i + 1][j]`, `p2 = pts[i + 1][j + 1]` and `p3 = pts[i][j + 1]`. */
  lemma TorusCellCorners(i: int, j: int, k: int, N: int, n: int)
    requires N >= 2 && n >= 2 && 0 <= i < N - 1 && 0 <= j < n - 1 && 0 <= k < 6
    ensures var m := 6 * (i * (n - 1) + j) + k;
      0 <= m < TorusVertexCount(N, n) &&
      TorusCorner(m, N, n) == [(i, j), (i + 1, j), (i, j + 1), (i, j), (i + 1, j + 1), (i + 1, j)][k]
  {
    VertexIndexBound(CellSlot(i, j, k), 6, N - 1, n - 1);
    IndexRoundTrip(CellSlot(i, j, k), 6, n - 1);
  }

  /** Every line of the torus buffer is an edge of the sampled grid: the six
      vertices of a cell form the segments p0-p1, p3-p0 and p2-p1, and no diagonal. */
  lemma TorusLinesAreGridEdges(t: int, N: int, n: int)
    requires N >= 2 && n >= 2 && 0 <= t && 2 * t + 1 < TorusVertexCount(N, n)
    ensures GridEdge(TorusCorner(2 * t, N, n), TorusCorner(2 * t + 1, N, n))
  {
    var s, s' := SlotOf(2 * t, 6, n - 1), SlotOf(2 * t + 1, 6, n - 1);
    assert (2 * t) / 6 == (2 * t + 1) / 6 && (2 * t) % 6 + 1 == (2 * t + 1) % 6;
    assert s.row == s'.row && s.col == s'.col;
  }

  /** The torus grid closes up in both directions when the sampler repeats
      every 360 degrees: row N - 1 is sampled at 360 degrees and so repeats
      row 0, and column n - 1 repeats column 0. */
  lemma TorusGridCloses(torusPosition: TorusSampler, R: real, r: real, center: Vec3, N: int, n: int)
    requires N >= 2 && n >= 2
    requires forall a, b :: torusPosition(R, r, a + 360.0, b, center) == torusPosition(R, r, a, b, center)
    requires forall a, b :: torusPosition(R, r, a, b + 360.0, center) == torusPosition(R, r, a, b, center)
    ensures forall j | 0 <= j < n ::
      TorusPoint(torusPosition, R, r, center, N, n, (N - 1, j)) == TorusPoint(torusPosition, R, r, center, N, n, (0, j))
    ensures forall i | 0 <= i < N ::
      TorusPoint(torusPosition, R, r, center, N, n, (i, n - 1)) == TorusPoint(torusPosition, R, r, center, N, n, (i, 0))
  {
    AngleSweep(360.0, N);
    AngleSweep(360.0, n);
    forall j | 0 <= j < n
      ensures TorusPoint(torusPosition, R, r, center, N, n, (N - 1, j)) == TorusPoint(torusPosition, R, r, center, N, n, (0, j))
    {
      var b := Angle(j, 360.0, n);
      assert torusPosition(R, r, 0.0 + 360.0, b, center) == torusPosition(R, r, 0.0, b, center);
    }
    forall i | 0 <= i < N
      ensures TorusPoint(torusPosition, R, r, center, N, n, (i, n - 1)) == TorusPoint(torusPosition, R, r, center, N, n, (i, 0))
    {
      var a := Angle(i, 360.0, N);
      assert torusPosition(R, r, a, 0.0 + 360.0, center) == torusPosition(R, r, a, 0.0, center);
    }
  }

  /** The sphere grid closes up around its axis when the sampler repeats every
      360 degrees of the second angle: column v - 1 repeats column 0. */
  lemma SphereGridCloses(spherePosition: SphereSampler, radius: real, center: Vec3, u: int, v: int)
    requires u >= 2 && v >= 2
    requires forall a, b :: spherePosition(radius, a, b + 360.0, center) == spherePosition(radius, a, b, center)
    ensures forall i | 0 <= i < u ::
      SpherePoint(spherePosition, radius, center, u, v, (i, v - 1)) == SpherePoint(spherePosition, radius, center, u, v, (i, 0))
  {
    AngleSweep(360.0, v);
    forall i | 0 <= i < u
      ensures SpherePoint(spherePosition, radius, center, u, v, (i, v - 1)) == SpherePoint(spherePosition, radius, center, u, v, (i, 0))
    {
      var a := Angle(i, 180.0, u);
      assert spherePosition(radius, a, 0.0 + 360.0, center) == spherePosition(radius, a, 0.0, center);
    }
  }
}
