/**
 * Heightmap mesh generation (`mesh::Descriptor::from_height_map`).
 *
 * A `columns x rows` grid is laid over the image. Grid point (x, y) samples
 * the pixel under it; its red channel gives the elevation. One vertex, one
 * normal and one texture coordinate are emitted per grid point, column by
 * column, so that grid point (x, y) lands at position `y + x * rows`. Each
 * interior cell then contributes two triangles, six indices.
 */
module MeshGen {
  import opened Geometry
  import opened Wrappers

  type Byte = b: int | 0 <= b < 256

  /** A decoded RGBA image, seen through its red channel: `red[py][px]` is the red value of pixel (px, py). */
  datatype HeightMap = HeightMap(width: nat, height: nat, red: seq<seq<Byte>>) {
    predicate Valid() {
      |red| == height && forall py :: 0 <= py < height ==> |red[py]| == width
    }
  }

  /** `get_pixel` panics on a pixel outside the image. */
  datatype MeshError = PixelOutOfBounds(px: int, py: int)

  /** The CPU side of a mesh: `mesh::Descriptor` without its texture. */
  datatype Descriptor = Descriptor(vertices: seq<Vec3>, normals: seq<Vec3>, uvs: seq<Vec2>, triangles: seq<nat>)

  /** What the renderer relies on: parallel vertex arrays and whole triangles of valid indices. */
  predicate MeshInvariant(d: Descriptor) {
    && |d.vertices| == |d.normals| == |d.uvs|
    && |d.triangles| % 3 == 0
    && forall k :: 0 <= k < |d.triangles| ==> d.triangles[k] < |d.vertices|
  }

  /** The number of iterations of `for i in 0..n`: none when n is zero or negative. */
  function Count(n: int): nat {
    if n > 0 then n else 0
  }

  /** The vertex index of grid point (x, y), `y + x * rows`, numbering the grid column by column. */
  function Index(x: int, y: int, columns: int, rows: int): (i: nat)
    requires 0 <= x < columns && 0 <= y < rows
    ensures i < columns * rows
  {
    MulLeft(x, columns - 1, rows);
    y + x * rows
  }

  lemma MulSucc(a: int, b: int)
    ensures a * b + b == (a + 1) * b
  {
  }

  lemma MulLeft(a: int, b: int, c: nat)
    requires a <= b
    ensures a * c <= b * c
  {
  }

  /** The sample coordinate `extent as f32 / count as f32 * i as f32` of grid line i. */
  function SamplePos(extent: nat, count: int, i: int): real
    requires count > 0
  {
    (extent as real / count as real) * i as real
  }

  /**
   * A grid line inside the grid samples inside the image, and its pixel
   * coordinate (`as u32` truncation) is in range exactly when the image is
   * not empty in that direction.
   */
  lemma SampleInRange(extent: nat, count: int, i: int)
    requires 0 <= i < count
    ensures 0.0 <= SamplePos(extent, count, i)
    ensures extent > 0 ==> SamplePos(extent, count, i) < extent as real
    ensures 0 <= SamplePos(extent, count, i).Floor
    ensures SamplePos(extent, count, i).Floor < extent <==> extent > 0
  {
    var step := extent as real / count as real;
    assert step >= 0.0;
    assert step * i as real >= 0.0;
    if extent > 0 {
      assert step > 0.0;
      assert step * i as real < step * count as real;
      assert step * count as real == extent as real;
    } else {
      assert step == 0.0;
    }
  }

  /** The vertex of grid point (x, y): its sample position scaled, raised by the sampled red value. */
  function SampleVertex(m: HeightMap, columns: int, rows: int, scale: real, x: int, y: int): Vec3
    requires m.Valid() && m.width > 0 && m.height > 0
    requires 0 <= x < columns && 0 <= y < rows
  {
    var xpos := SamplePos(m.width, columns, x);
    var ypos := SamplePos(m.height, rows, y);
    SampleInRange(m.width, columns, x);
    SampleInRange(m.height, rows, y);
    Vec3(xpos * scale, m.red[ypos.Floor][xpos.Floor] as real * scale, ypos * scale)
  }

  /** The texture coordinate of grid point (x, y): its sample position over the image size. */
  function SampleUv(m: HeightMap, columns: int, rows: int, x: int, y: int): Vec2
    requires m.width > 0 && m.height > 0
    requires 0 <= x < columns && 0 <= y < rows
  {
    Vec2(SamplePos(m.width, columns, x) / m.width as real, SamplePos(m.height, rows, y) / m.height as real)
  }

  /** Every texture coordinate of a grid point lies in the unit square, right and bottom edges excluded. */
  lemma UvInUnitSquare(m: HeightMap, columns: int, rows: int, x: int, y: int)
    requires m.width > 0 && m.height > 0
    requires 0 <= x < columns && 0 <= y < rows
    ensures 0.0 <= SampleUv(m, columns, rows, x, y).u < 1.0
    ensures 0.0 <= SampleUv(m, columns, rows, x, y).v < 1.0
  {
    SampleInRange(m.width, columns, x);
    SampleInRange(m.height, rows, y);
    QuotientBelowOne(SamplePos(m.width, columns, x), m.width as real);
    QuotientBelowOne(SamplePos(m.height, rows, y), m.height as real);
  }

  lemma QuotientBelowOne(a: real, b: real)
    requires 0.0 <= a < b
    ensures 0.0 <= a / b < 1.0
  {
  }

  /** A vertex's height is its red value times the scale, so for a non-negative scale it lies in [0, 255 * scale]. */
  lemma ElevationBounded(m: HeightMap, columns: int, rows: int, scale: real, x: int, y: int)
    requires m.Valid() && m.width > 0 && m.height > 0
    requires 0 <= x < columns && 0 <= y < rows
    requires scale >= 0.0
    ensures 0.0 <= SampleVertex(m, columns, rows, scale, x, y).y <= 255.0 * scale
  {
    var xpos := SamplePos(m.width, columns, x);
    var ypos := SamplePos(m.height, rows, y);
    SampleInRange(m.width, columns, x);
    SampleInRange(m.height, rows, y);
    var red := m.red[ypos.Floor][xpos.Floor];
    assert SampleVertex(m, columns, rows, scale, x, y).y == red as real * scale;
    ScaledByte(red, scale);
  }

  lemma ScaledByte(b: Byte, scale: real)
    requires scale >= 0.0
    ensures 0.0 <= b as real * scale <= 255.0 * scale
  {
    assert (255.0 - b as real) * scale >= 0.0;
  }

  /** Distinct grid points have distinct vertex indices. */
  lemma {:induction false} IndexInjective(x1: int, y1: int, x2: int, y2: int, columns: int, rows: int)
    requires 0 <= x1 < columns && 0 <= y1 < rows
    requires 0 <= x2 < columns && 0 <= y2 < rows
    ensures Index(x1, y1, columns, rows) == Index(x2, y2, columns, rows) <==> x1 == x2 && y1 == y2
  {
    if x1 < x2 {
      MulLeft(x1 + 1, x2, rows);
      MulSucc(x1, rows);
    } else if x2 < x1 {
      MulLeft(x2 + 1, x1, rows);
      MulSucc(x2, rows);
    }
  }

  /** The last grid point takes the largest index, `columns * rows - 1`. */
  lemma LastIndex(columns: int, rows: int)
    requires columns > 0 && rows > 0
    ensures Index(columns - 1, rows - 1, columns, rows) == columns * rows - 1
  {
    MulSucc(columns - 1, rows);
  }

  /** The six indices of interior cell (x, y): two triangles sharing the edge from (x, y+1) to (x+1, y). */
  function CellTriangles(x: int, y: int, columns: int, rows: int): (t: seq<nat>)
    requires 0 <= x < columns - 1 && 0 <= y < rows - 1
    ensures |t| == 6
    ensures forall k :: 0 <= k < 6 ==> t[k] < columns * rows
    ensures t[1] == t[3] == Index(x, y + 1, columns, rows)
    ensures t[2] == t[5] == Index(x + 1, y, columns, rows)
    ensures t[0] != t[1] && t[1] != t[2] && t[0] != t[2]
    ensures t[3] != t[4] && t[4] != t[5] && t[3] != t[5]
  {
    [Index(x, y, columns, rows), Index(x, y + 1, columns, rows), Index(x + 1, y, columns, rows),
     Index(x, y + 1, columns, rows), Index(x + 1, y + 1, columns, rows), Index(x + 1, y, columns, rows)]
  }

  /** The position in the triangle list of the j-th index of cell (x, y): cells are emitted column by column. */
  function Slot(x: int, y: int, j: int, rows: int): int {
    6 * (y + x * (rows - 1)) + j
  }

  /**
   * `from_height_map`: the sample loops, then the triangle loops. The
   * texture the program also builds from the image is not modelled.
   */
  method FromHeightMap(m: HeightMap, columns: int, rows: int, scale: real) returns (r: Result<Descriptor, MeshError>)
    requires m.Valid()
    ensures r.Failure? <==> columns > 0 && rows > 0 && (m.width == 0 || m.height == 0)
    ensures r.Success? ==> MeshInvariant(r.value)
    ensures r.Success? ==> |r.value.vertices| == Count(columns) * Count(rows)
    ensures r.Success? ==> |r.value.triangles| == 6 * (Count(columns - 1) * Count(rows - 1))
    ensures r.Success? ==> forall x, y :: 0 <= x < columns && 0 <= y < rows ==>
      && Index(x, y, columns, rows) < |r.value.vertices|
      && r.value.vertices[Index(x, y, columns, rows)] == SampleVertex(m, columns, rows, scale, x, y)
      && r.value.normals[Index(x, y, columns, rows)] == UnitY
      && r.value.uvs[Index(x, y, columns, rows)] == SampleUv(m, columns, rows, x, y)
    ensures r.Success? ==> forall x, y, j :: 0 <= x < columns - 1 && 0 <= y < rows - 1 && 0 <= j < 6 ==>
      && Slot(x, y, j, rows) < |r.value.triangles|
      && r.value.triangles[Slot(x, y, j, rows)] == CellTriangles(x, y, columns, rows)[j]
  {
    var samples := SampleGrid(m, columns, rows, scale);
    if samples.Failure? {
      return Failure(samples.error);
    }
    var (vertices, normals, uvs) := samples.value;
    var triangles := Triangulate(columns, rows);
    if |triangles| > 0 {
      assert Count(columns) * Count(rows) == columns * rows;
    }
    assert |triangles| == 3 * (2 * (Count(columns - 1) * Count(rows - 1)));
    r := Success(Descriptor(vertices, normals, uvs, triangles));
  }

  /** The first pair of loops: one vertex, normal and texture coordinate per grid point, column by column. */
  method SampleGrid(m: HeightMap, columns: int, rows: int, scale: real)
    returns (r: Result<(seq<Vec3>, seq<Vec3>, seq<Vec2>), MeshError>)
    requires m.Valid()
    ensures r.Failure? <==> columns > 0 && rows > 0 && (m.width == 0 || m.height == 0)
    ensures r.Success? ==> |r.value.0| == |r.value.1| == |r.value.2| == Count(columns) * Count(rows)
    ensures r.Success? ==> forall x, y :: 0 <= x < columns && 0 <= y < rows ==>
      && Index(x, y, columns, rows) < |r.value.0|
      && r.value.0[Index(x, y, columns, rows)] == SampleVertex(m, columns, rows, scale, x, y)
      && r.value.1[Index(x, y, columns, rows)] == UnitY
      && r.value.2[Index(x, y, columns, rows)] == SampleUv(m, columns, rows, x, y)
  {
    var vertices: seq<Vec3> := [];
    var normals: seq<Vec3> := [];
    var uvs: seq<Vec2> := [];
    var x := 0;
    while x < columns
      invariant 0 <= x <= Count(columns)
      invariant |vertices| == |normals| == |uvs| == x * Count(rows)
      invariant x > 0 && rows > 0 ==> m.width > 0 && m.height > 0
      invariant forall x', y' :: 0 <= x' < x && 0 <= y' < rows ==>
        && Index(x', y', columns, rows) < |vertices|
        && vertices[Index(x', y', columns, rows)] == SampleVertex(m, columns, rows, scale, x', y')
        && normals[Index(x', y', columns, rows)] == UnitY
        && uvs[Index(x', y', columns, rows)] == SampleUv(m, columns, rows, x', y')
    {
      var y := 0;
      while y < rows
        invariant 0 <= y <= Count(rows)
        invariant |vertices| == |normals| == |uvs| == x * Count(rows) + y
        invariant (x > 0 && rows > 0) || y > 0 ==> m.width > 0 && m.height > 0
        invariant forall x', y' :: 0 <= x' < x && 0 <= y' < rows ==>
          && Index(x', y', columns, rows) < |vertices|
          && vertices[Index(x', y', columns, rows)] == SampleVertex(m, columns, rows, scale, x', y')
          && normals[Index(x', y', columns, rows)] == UnitY
          && uvs[Index(x', y', columns, rows)] == SampleUv(m, columns, rows, x', y')
        invariant forall y' :: 0 <= y' < y ==>
          && Index(x, y', columns, rows) < |vertices|
          && vertices[Index(x, y', columns, rows)] == SampleVertex(m, columns, rows, scale, x, y')
          && normals[Index(x, y', columns, rows)] == UnitY
          && uvs[Index(x, y', columns, rows)] == SampleUv(m, columns, rows, x, y')
      {
        var xpos := SamplePos(m.width, columns, x);
        var ypos := SamplePos(m.height, rows, y);
        SampleInRange(m.width, columns, x);
        SampleInRange(m.height, rows, y);
        var px, py := xpos.Floor, ypos.Floor;
        if !(px < m.width && py < m.height) {
          return Failure(PixelOutOfBounds(px, py));
        }
        vertices := vertices + [SampleVertex(m, columns, rows, scale, x, y)];
        normals := normals + [UnitY];
        uvs := uvs + [SampleUv(m, columns, rows, x, y)];
        y := y + 1;
      }
      x := x + 1;
    }
    r := Success((vertices, normals, uvs));
  }

  /** The second pair of loops: six indices per interior cell, column by column. */
  method Triangulate(columns: int, rows: int) returns (triangles: seq<nat>)
    ensures |triangles| == 6 * (Count(columns - 1) * Count(rows - 1))
    ensures |triangles| > 0 ==> columns >= 2 && rows >= 2
    ensures forall k :: 0 <= k < |triangles| ==> triangles[k] < columns * rows
    ensures forall x, y, j :: 0 <= x < columns - 1 && 0 <= y < rows - 1 && 0 <= j < 6 ==>
      && Slot(x, y, j, rows) < |triangles|
      && triangles[Slot(x, y, j, rows)] == CellTriangles(x, y, columns, rows)[j]
  {
    triangles := [];
    var x := 0;
    while x < columns - 1
      invariant 0 <= x <= Count(columns - 1)
      invariant |triangles| == 6 * (x * Count(rows - 1))
      invariant |triangles| > 0 ==> columns >= 2 && rows >= 2
      invariant forall k :: 0 <= k < |triangles| ==> triangles[k] < columns * rows
      invariant forall x', y', j :: 0 <= x' < x && 0 <= y' < rows - 1 && 0 <= j < 6 ==>
        && Slot(x', y', j, rows) < |triangles|
        && triangles[Slot(x', y', j, rows)] == CellTriangles(x', y', columns, rows)[j]
    {
      var y := 0;
      while y < rows - 1
        invariant 0 <= y <= Count(rows - 1)
        invariant |triangles| == 6 * (x * Count(rows - 1) + y)
        invariant |triangles| > 0 ==> columns >= 2 && rows >= 2
        invariant forall k :: 0 <= k < |triangles| ==> triangles[k] < columns * rows
        invariant forall x', y', j :: 0 <= x' < x && 0 <= y' < rows - 1 && 0 <= j < 6 ==>
          && Slot(x', y', j, rows) < |triangles|
          && triangles[Slot(x', y', j, rows)] == CellTriangles(x', y', columns, rows)[j]
        invariant forall y', j :: 0 <= y' < y && 0 <= j < 6 ==>
          && Slot(x, y', j, rows) < |triangles|
          && triangles[Slot(x, y', j, rows)] == CellTriangles(x, y', columns, rows)[j]
      {
        assert Count(rows - 1) == rows - 1;
        ghost var before := triangles;
        triangles := triangles + CellTriangles(x, y, columns, rows);
        assert forall j :: 0 <= j < 6 ==> Slot(x, y, j, rows) == |before| + j;
        y := y + 1;
      }
      MulSucc(x, Count(rows - 1));
      x := x + 1;
    }
  }
}
