/** Shared vocabulary of the vertex buffers: 3-vectors, the 6-float vertex
    record (position xyz, then color rgb), the one-level flattening that turns
    the list of per-cell chunks into the final buffer, and the row-major
    numbering of the vertices emitted for the cells of a parameter grid. */
module VertexLayout {

  /** A gl-matrix `vec3`: a point, or an rgb color. */
  datatype Vec3 = Vec3(x: real, y: real, z: real)

  /** `undefined` (None) or a value. */
  datatype Option<T> = None | Some(value: T)

  /** Number of floats in one vertex record. */
  const Stride := 6

  /** The floats of one vertex record: `p[0], p[1], p[2], color[0], color[1], color[2]`. */
  function Record(p: Vec3, color: Vec3): (floats: seq<real>)
  {
    [p.x, p.y, p.z, color.x, color.y, color.z]
  }

  /** Position of the vertex record number `m` in a flat buffer (floats 0..2 of it). */
  function VertexPosition(buf: seq<real>, m: int): (p: Vec3)
    requires 0 <= m && Stride * m + Stride <= |buf|
  {
    Vec3(buf[Stride * m], buf[Stride * m + 1], buf[Stride * m + 2])
  }

  /** Color of the vertex record number `m` in a flat buffer (floats 3..5 of it). */
  function VertexColor(buf: seq<real>, m: int): (color: Vec3)
    requires 0 <= m && Stride * m + Stride <= |buf|
  {
    Vec3(buf[Stride * m + 3], buf[Stride * m + 4], buf[Stride * m + 5])
  }

  /** A record read back from a buffer gives the position and the color it was made of. */
  lemma RecordRoundTrip(prefix: seq<real>, p: Vec3, color: Vec3)
    requires |prefix| % Stride == 0
    ensures var buf := prefix + Record(p, color);
      |buf| == |prefix| + Stride &&
      VertexPosition(buf, |prefix| / Stride) == p &&
      VertexColor(buf, |prefix| / Stride) == color
  {
  }

  /** Appending to a buffer leaves the records already in it unchanged. */
  lemma ReadPrefix(buf: seq<real>, tail: seq<real>, m: int)
    requires 0 <= m && Stride * m + Stride <= |buf|
    ensures VertexPosition(buf + tail, m) == VertexPosition(buf, m)
    ensures VertexColor(buf + tail, m) == VertexColor(buf, m)
  {
  }

  /** The records of the points `ps`, one after the other, all in `color`: the
      floats `p[0], p[1], p[2], color[0], color[1], color[2]` of each point in turn. */
  function Records(ps: seq<Vec3>, color: Vec3): (floats: seq<real>)
    ensures |floats| == Stride * |ps|
  {
    if ps == [] then [] else Records(ps[..|ps| - 1], color) + Record(ps[|ps| - 1], color)
  }

  /** Record `k` of `Records(ps, color)`, appended to a buffer of `base` whole
      records, reads back as point `ps[k]` in `color`. */
  lemma {:induction false} RecordsAt(prefix: seq<real>, base: int, ps: seq<Vec3>, color: Vec3, k: int)
    requires |prefix| == Stride * base && 0 <= k < |ps|
    ensures 0 <= base && Stride * (base + k) + Stride <= |prefix + Records(ps, color)|
    ensures VertexPosition(prefix + Records(ps, color), base + k) == ps[k]
    ensures VertexColor(prefix + Records(ps, color), base + k) == color
    decreases |ps|
  {
    var init, last := ps[..|ps| - 1], ps[|ps| - 1];
    var front := prefix + Records(init, color);
    assert prefix + Records(ps, color) == front + Record(last, color);
    if k == |ps| - 1 {
      RecordRoundTrip(front, last, color);
      assert |front| / Stride == base + k;
    } else {
      RecordsAt(prefix, base, init, color, k);
      ReadPrefix(front, Record(last, color), base + k);
    }
  }

  /** `Array.prototype.flat()` on an array of arrays: concatenation of the chunks in order. */
  function Flatten<T>(chunks: seq<seq<T>>): (flat: seq<T>)
  {
    if chunks == [] then [] else Flatten(chunks[..|chunks| - 1]) + chunks[|chunks| - 1]
  }

  /** Pushing one more chunk appends its elements to the flattened sequence. */
  lemma FlattenPush<T>(chunks: seq<seq<T>>, c: seq<T>)
    ensures Flatten(chunks + [c]) == Flatten(chunks) + c
  {
    assert (chunks + [c])[..|chunks|] == chunks;
  }

  /** Where vertex number `m` of a cell-by-cell emission comes from: the cell
      `(row, col)` of the grid and the position `k` of the vertex inside that
      cell's chunk. */
  datatype CellSlot = CellSlot(row: int, col: int, k: int)

  /** Number of the vertex in slot `s` when every cell emits `perCell` vertices
      and the cells are visited row-major over rows of `width` cells. */
  function VertexIndex(s: CellSlot, perCell: int, width: int): (m: int)
  {
    perCell * (s.row * width + s.col) + s.k
  }

  /** The slot of vertex number `m`: the inverse of VertexIndex. */
  function SlotOf(m: int, perCell: int, width: int): (s: CellSlot)
    requires 0 <= m && 0 < perCell && 0 < width
    ensures 0 <= s.row && 0 <= s.col < width && 0 <= s.k < perCell
    ensures VertexIndex(s, perCell, width) == m
  {
    var cell := m / perCell;
    DivModFacts(m, perCell);
    DivModFacts(cell, width);
    CellSlot(cell / width, cell % width, m % perCell)
  }

  /** Numbering a slot and taking the slot of that number gives the slot back. */
  lemma {:induction false} IndexRoundTrip(s: CellSlot, perCell: int, width: int)
    requires 0 < perCell && 0 < width
    requires 0 <= s.row && 0 <= s.col < width && 0 <= s.k < perCell
    ensures 0 <= VertexIndex(s, perCell, width)
    ensures SlotOf(VertexIndex(s, perCell, width), perCell, width) == s
  {
    var cell := s.row * width + s.col;
    var m := VertexIndex(s, perCell, width);
    MulNonNegative(s.row, width);
    MulNonNegative(perCell, cell);
    assert m == cell * perCell + s.k;
    DivModUnique(m, perCell, cell, s.k);
    DivModUnique(cell, width, s.row, s.col);
    assert SlotOf(m, perCell, width) == CellSlot(cell / width, cell % width, m % perCell);
  }

  /** A vertex numbered below `rows * width * perCell` lies in one of the first `rows` rows
      of cells. */
  lemma {:induction false} SlotRowBound(m: int, perCell: int, rows: int, width: int)
    requires 0 <= m < rows * width * perCell && 0 < perCell && 0 < width
    ensures SlotOf(m, perCell, width).row < rows
  {
    var s := SlotOf(m, perCell, width);
    if s.row >= rows {
      MulMonotone(rows, s.row, width);
      MulMonotone(rows * width, s.row * width + s.col, perCell);
      assert false;
    }
  }

  /** The slots of a grid of `rows` rows of `width` cells are numbered below `rows * width * perCell`. */
  lemma {:induction false} VertexIndexBound(s: CellSlot, perCell: int, rows: int, width: int)
    requires 0 < perCell && 0 < width
    requires 0 <= s.row < rows && 0 <= s.col < width && 0 <= s.k < perCell
    ensures 0 <= VertexIndex(s, perCell, width) < rows * width * perCell
  {
    MulNonNegative(s.row, width);
    MulMonotone(s.row + 1, rows, width);
    MulMonotone(s.row * width + s.col + 1, rows * width, perCell);
    MulNonNegative(perCell, s.row * width + s.col);
  }

  // Arithmetic helpers.

  lemma DivModFacts(a: int, d: int)
    requires 0 <= a && 0 < d
    ensures a == d * (a / d) + a % d && 0 <= a % d < d && 0 <= a / d
  {
  }

  lemma MulNonNegative(a: int, b: int)
    requires 0 <= a && 0 <= b
    ensures 0 <= a * b
  {
  }

  lemma MulMonotone(a: int, b: int, c: int)
    requires a <= b && 0 <= c
    ensures a * c <= b * c && c * a <= c * b
  {
    assert b * c - a * c == (b - a) * c;
  }

  /** Euclidean division is determined by quotient and remainder. */
  lemma DivModUnique(a: int, d: int, q: int, r: int)
    requires 0 < d && 0 <= r < d && a == q * d + r
    ensures a / d == q && a % d == r
  {
    var q', r' := a / d, a % d;
    assert a == q' * d + r';
    if q' < q {
      MulMonotone(q' + 1, q, d);
      assert false;
    } else if q < q' {
      MulMonotone(q + 1, q', d);
      assert false;
    }
  }
}
