/// The procedural terrain of Terrain.cpp: a resolution x resolution grid of
/// vertices sampled from a noise field, two triangles per grid cell, and
/// per-vertex normals accumulated from the triangles' face normals.
module Terrains {
  import opened Geometry
  import opened GL
  import opened Meshes

  /** The constant texture tiling factor of the generator. */
  const TextureTiling: real := 10000.0

  // ---------------------------------------------------------------------------
  // Integer layout helpers

  lemma {:induction false} MulLeft(a: int, b: int, w: int)
    requires a <= b && w >= 0
    ensures a * w <= b * w
  {
  }

  // ---------------------------------------------------------------------------
  // The vertex grid

  /** The world coordinate of grid line i: the grid spans [-size/2, size/2] in resolution - 1 equal steps. */
  function GridCoord(size: real, resolution: nat, i: nat): real
    requires resolution >= 2
  {
    var step := size / ((resolution - 1) as real);
    var halfSize := size / 2.0;
    -halfSize + (i as real) * step
  }

  /** The texture coordinate of grid line i: its fraction of the grid, times the tiling factor. */
  function GridTexCoord(resolution: nat, i: nat): real
    requires resolution >= 2
  {
    (i as real) / ((resolution - 1) as real) * TextureTiling
  }

  /** The vertex sampled at grid column x, row z. */
  function GridVertex(size: real, resolution: nat, heightScale: real, noise: (real, real) -> real, x: nat, z: nat): Vertex
    requires resolution >= 2
  {
    var px := GridCoord(size, resolution, x);
    var pz := GridCoord(size, resolution, z);
    var py := noise(px, pz) * heightScale;
    Vertex(Vec3(px, py, pz), Zero3, One3, Vec2(GridTexCoord(resolution, x), GridTexCoord(resolution, z)), py)
  }

  /** The first n vertices of row z. */
  function GridRow(size: real, resolution: nat, heightScale: real, noise: (real, real) -> real, z: nat, n: nat): seq<Vertex>
    requires resolution >= 2
  {
    seq(n, x requires 0 <= x < n => GridVertex(size, resolution, heightScale, noise, x, z))
  }

  /** The first n full rows, row after row. */
  function GridRows(size: real, resolution: nat, heightScale: real, noise: (real, real) -> real, n: nat): seq<Vertex>
    requires resolution >= 2
  {
    if n == 0 then []
    else GridRows(size, resolution, heightScale, noise, n - 1) + GridRow(size, resolution, heightScale, noise, n - 1, resolution)
  }

  /** The whole vertex grid. */
  function GridVertices(size: real, resolution: nat, heightScale: real, noise: (real, real) -> real): seq<Vertex>
    requires resolution >= 2
  {
    GridRows(size, resolution, heightScale, noise, resolution)
  }

  lemma {:induction false} GridRowsAt(size: real, resolution: nat, heightScale: real, noise: (real, real) -> real, n: nat, x: nat, z: nat)
    requires resolution >= 2 && x < resolution && z < n
    ensures |GridRows(size, resolution, heightScale, noise, n)| == n * resolution
    ensures z * resolution + x < n * resolution
    ensures GridRows(size, resolution, heightScale, noise, n)[z * resolution + x] == GridVertex(size, resolution, heightScale, noise, x, z)
  {
    GridRowsLength(size, resolution, heightScale, noise, n - 1);
    if z < n - 1 {
      GridRowsAt(size, resolution, heightScale, noise, n - 1, x, z);
    } else {
      assert z * resolution + x == (n - 1) * resolution + x;
    }
  }

  lemma {:induction false} GridRowsLength(size: real, resolution: nat, heightScale: real, noise: (real, real) -> real, n: nat)
    requires resolution >= 2
    ensures |GridRows(size, resolution, heightScale, noise, n)| == n * resolution
  {
    if n > 0 {
      GridRowsLength(size, resolution, heightScale, noise, n - 1);
    }
  }

  /**
   * The grid has resolution^2 vertices in row-major order with z outer: the
   * vertex of column x and row z sits at index z * resolution + x, lies at
   * (-size/2 + x*step, Noise(x, z) * heightScale, -size/2 + z*step), caches its
   * height, starts with a zero normal and a white color, and has texture
   * coordinate (x/(resolution-1), z/(resolution-1)) times the tiling factor.
   */
  lemma {:induction false} GridVertexAt(size: real, resolution: nat, heightScale: real, noise: (real, real) -> real, x: nat, z: nat)
    requires resolution >= 2 && x < resolution && z < resolution
    ensures |GridVertices(size, resolution, heightScale, noise)| == resolution * resolution
    ensures z * resolution + x < resolution * resolution
    ensures var v := GridVertices(size, resolution, heightScale, noise)[z * resolution + x];
      var step := size / ((resolution - 1) as real);
      && v.position.x == -size / 2.0 + (x as real) * step
      && v.position.z == -size / 2.0 + (z as real) * step
      && v.position.y == noise(v.position.x, v.position.z) * heightScale
      && v.height == v.position.y
      && v.normal == Zero3 && v.color == One3
      && v.textureUV == Vec2((x as real) / ((resolution - 1) as real) * TextureTiling,
                             (z as real) / ((resolution - 1) as real) * TextureTiling)
  {
    GridRowsAt(size, resolution, heightScale, noise, resolution, x, z);
  }

  /** The grid spans the square [-size/2, size/2]^2: its first and last rows and columns lie on the edges. */
  lemma {:induction false} GridSpansSquare(size: real, resolution: nat, heightScale: real, noise: (real, real) -> real)
    requires resolution >= 2
    ensures GridVertex(size, resolution, heightScale, noise, 0, 0).position.x == -size / 2.0
    ensures GridVertex(size, resolution, heightScale, noise, 0, 0).position.z == -size / 2.0
    ensures GridVertex(size, resolution, heightScale, noise, resolution - 1, resolution - 1).position.x == size / 2.0
    ensures GridVertex(size, resolution, heightScale, noise, resolution - 1, resolution - 1).position.z == size / 2.0
  {
    var d := (resolution - 1) as real;
    assert d * (size / d) == size;
  }

  // ---------------------------------------------------------------------------
  // The index buffer

  /** The six indices of cell (x, z): triangles (TL, BL, TR) and (TR, BL, BR). */
  function CellIndices(resolution: nat, x: nat, z: nat): seq<nat> {
    var topLeft := z * resolution + x;
    var topRight := topLeft + 1;
    var bottomLeft := (z + 1) * resolution + x;
    var bottomRight := bottomLeft + 1;
    [topLeft, bottomLeft, topRight, topRight, bottomLeft, bottomRight]
  }

  /** The corners of cell (x, z) are naturals, and a cell row grows by that cell's six indices. */
  lemma {:induction false} CellStep(resolution: nat, x: nat, z: nat)
    ensures 0 <= z * resolution && 0 <= (z + 1) * resolution
    ensures CellRow(resolution, z, x + 1) == CellRow(resolution, z, x) + CellIndices(resolution, x, z)
  {
    MulLeft(0, z, resolution);
    MulLeft(0, z + 1, resolution);
  }

  /** The indices of the first n cells of cell row z. */
  function CellRow(resolution: nat, z: nat, n: nat): seq<nat> {
    if n == 0 then [] else CellRow(resolution, z, n - 1) + CellIndices(resolution, n - 1, z)
  }

  /** The indices of the first n full cell rows. */
  function CellRows(resolution: nat, n: nat): seq<nat>
    requires resolution >= 2
  {
    if n == 0 then [] else CellRows(resolution, n - 1) + CellRow(resolution, n - 1, resolution - 1)
  }

  /** The whole triangle index buffer. */
  function GridIndices(resolution: nat): seq<nat>
    requires resolution >= 2
  {
    CellRows(resolution, resolution - 1)
  }

  lemma {:induction false} CellRowAt(resolution: nat, z: nat, n: nat, x: nat, j: nat)
    requires x < n && j < 6
    ensures |CellRow(resolution, z, n)| == 6 * n
    ensures CellRow(resolution, z, n)[6 * x + j] == CellIndices(resolution, x, z)[j]
  {
    CellRowLength(resolution, z, n - 1);
    if x < n - 1 {
      CellRowAt(resolution, z, n - 1, x, j);
    }
  }

  lemma {:induction false} CellRowLength(resolution: nat, z: nat, n: nat)
    ensures |CellRow(resolution, z, n)| == 6 * n
  {
    if n > 0 {
      CellRowLength(resolution, z, n - 1);
    }
  }

  lemma {:induction false} CellRowsLength(resolution: nat, n: nat)
    requires resolution >= 2
    ensures |CellRows(resolution, n)| == 6 * (n * (resolution - 1))
  {
    if n > 0 {
      CellRowsLength(resolution, n - 1);
      CellRowLength(resolution, n - 1, resolution - 1);
    }
  }

  lemma {:induction false} CellRowsAt(resolution: nat, n: nat, x: nat, z: nat, j: nat)
    requires resolution >= 2 && x < resolution - 1 && z < n && j < 6
    ensures 6 * (z * (resolution - 1) + x) + j < |CellRows(resolution, n)|
    ensures CellRows(resolution, n)[6 * (z * (resolution - 1) + x) + j] == CellIndices(resolution, x, z)[j]
  {
    var cells := resolution - 1;
    CellRowsLength(resolution, n - 1);
    CellRowsLength(resolution, n);
    MulLeft(z, n - 1, cells);
    if z < n - 1 {
      CellRowsAt(resolution, n - 1, x, z, j);
    } else {
      CellRowAt(resolution, z, cells, x, j);
      assert 6 * (z * cells + x) + j == 6 * ((n - 1) * cells) + (6 * x + j);
    }
  }

  /**
   * The buffer holds six indices per cell, cells in row-major order with z
   * outer: index j of cell (x, z) sits at 6 * (z * (resolution - 1) + x) + j,
   * and the six are TL, BL, TR, TR, BL, BR.
   */
  lemma {:induction false} CellLayout(resolution: nat, x: nat, z: nat, j: nat)
    requires resolution >= 2 && x < resolution - 1 && z < resolution - 1 && j < 6
    ensures |GridIndices(resolution)| == 6 * ((resolution - 1) * (resolution - 1))
    ensures 6 * (z * (resolution - 1) + x) + j < |GridIndices(resolution)|
    ensures GridIndices(resolution)[6 * (z * (resolution - 1) + x) + j] == CellIndices(resolution, x, z)[j]
  {
    CellRowsLength(resolution, resolution - 1);
    CellRowsAt(resolution, resolution - 1, x, z, j);
  }

  /** Every corner of an interior cell is a vertex of the grid. */
  lemma {:induction false} CellIndicesInRange(resolution: nat, x: nat, z: nat)
    requires resolution >= 2 && x < resolution - 1 && z < resolution - 1
    ensures forall j :: 0 <= j < 6 ==> CellIndices(resolution, x, z)[j] < resolution * resolution
  {
    MulLeft(z + 1, resolution - 1, resolution);
    assert (resolution - 1) * resolution + resolution == resolution * resolution;
  }

  lemma {:induction false} CellRowInRange(resolution: nat, z: nat, n: nat)
    requires resolution >= 2 && z < resolution - 1 && n <= resolution - 1
    ensures forall k :: 0 <= k < |CellRow(resolution, z, n)| ==> CellRow(resolution, z, n)[k] < resolution * resolution
  {
    if n > 0 {
      CellRowInRange(resolution, z, n - 1);
      CellIndicesInRange(resolution, n - 1, z);
    }
  }

  lemma {:induction false} CellRowsInRange(resolution: nat, n: nat)
    requires resolution >= 2 && n <= resolution - 1
    ensures forall k :: 0 <= k < |CellRows(resolution, n)| ==> CellRows(resolution, n)[k] < resolution * resolution
  {
    if n > 0 {
      CellRowsInRange(resolution, n - 1);
      CellRowInRange(resolution, n - 1, resolution - 1);
    }
  }

  /** There are 6 * (resolution - 1)^2 indices and every one names one of the resolution^2 vertices. */
  lemma {:induction false} GridIndicesInRange(resolution: nat)
    requires resolution >= 2
    ensures |GridIndices(resolution)| == 6 * ((resolution - 1) * (resolution - 1))
    ensures forall k :: 0 <= k < |GridIndices(resolution)| ==> GridIndices(resolution)[k] < resolution * resolution
  {
    CellRowsLength(resolution, resolution - 1);
    CellRowsInRange(resolution, resolution - 1);
  }

  /** For a resolution up to 65536 every index fits the 32-bit GLuint of the index buffer. */
  lemma {:induction false} GridIndicesFitGLuint(resolution: nat)
    requires 2 <= resolution <= 65536
    ensures forall k :: 0 <= k < |GridIndices(resolution)| ==> GridIndices(resolution)[k] < 0x1_0000_0000
  {
    GridIndicesInRange(resolution);
    MulLeft(resolution, 65536, resolution);
    MulLeft(resolution, 65536, 65536);
  }

  /**
   * The two triangles of a cell share exactly its diagonal corners TR and BL,
   * and together use exactly the cell's four distinct corners.
   */
  lemma {:induction false} CellTrianglesShareDiagonal(resolution: nat, x: nat, z: nat)
    requires resolution >= 2 && x < resolution - 1
    ensures var c := CellIndices(resolution, x, z);
      var tl, tr, bl, br := z * resolution + x, z * resolution + x + 1, (z + 1) * resolution + x, (z + 1) * resolution + x + 1;
      && {c[0], c[1], c[2]} * {c[3], c[4], c[5]} == {tr, bl}
      && {c[0], c[1], c[2]} + {c[3], c[4], c[5]} == {tl, tr, bl, br}
      && |{tl, tr, bl, br}| == 4
  {
    var tl := z * resolution + x;
    assert (z + 1) * resolution == tl - x + resolution;
  }

  /** Every grid vertex is a corner of some triangle, so no vertex keeps a normal from zero triangles. */
  lemma {:induction false} EveryGridVertexReferenced(resolution: nat, x: nat, z: nat)
    requires resolution >= 2 && x < resolution && z < resolution
    ensures exists k :: 0 <= k < |GridIndices(resolution)| && GridIndices(resolution)[k] == z * resolution + x
  {
    var cx := if x < resolution - 1 then x else x - 1;
    var cz := if z < resolution - 1 then z else z - 1;
    var j := if x == cx && z == cz then 0 else if x == cx then 1 else if z == cz then 2 else 5;
    CellCornerAt(resolution, x, z, cx, cz, j);
    CellCornerOccurs(resolution, cx, cz, j);
  }

  /** Each corner of an interior cell appears among the grid's indices. */
  lemma {:induction false} CellCornerOccurs(resolution: nat, x: nat, z: nat, j: nat)
    requires resolution >= 2 && x < resolution - 1 && z < resolution - 1 && j < 6
    ensures exists k :: 0 <= k < |GridIndices(resolution)| && GridIndices(resolution)[k] == CellIndices(resolution, x, z)[j]
  {
    CellLayout(resolution, x, z, j);
    var k := 6 * (z * (resolution - 1) + x) + j;
    assert GridIndices(resolution)[k] == CellIndices(resolution, x, z)[j];
  }

  /** Vertex (x, z) is corner j of cell (cx, cz) when the cell is the one at or left of / above it. */
  lemma {:induction false} CellCornerAt(resolution: nat, x: nat, z: nat, cx: nat, cz: nat, j: nat)
    requires (cx == x || cx + 1 == x) && (cz == z || cz + 1 == z)
    requires j == if x == cx && z == cz then 0 else if x == cx then 1 else if z == cz then 2 else 5
    ensures j < 6 && CellIndices(resolution, cx, cz)[j] == z * resolution + x
  {
    assert (cz + 1) * resolution == cz * resolution + resolution;
  }

  // ---------------------------------------------------------------------------
  // Normals

  /** Every index names one of vertexCount vertices. */
  predicate IndicesInBounds(indices: seq<nat>, vertexCount: nat) {
    forall k :: 0 <= k < |indices| ==> indices[k] < vertexCount
  }

  /** Every index names a vertex, and the indices come in whole triangles. */
  predicate TrianglesInBounds(indices: seq<nat>, vertexCount: nat) {
    |indices| % 3 == 0 && IndicesInBounds(indices, vertexCount)
  }

  /** The generator's output can be handed to CalculateNormals. */
  lemma {:induction false} GeneratedTrianglesInBounds(size: real, resolution: nat, heightScale: real, noise: (real, real) -> real)
    requires resolution >= 2
    ensures TrianglesInBounds(GridIndices(resolution), |GridVertices(size, resolution, heightScale, noise)|)
  {
    GridIndicesInRange(resolution);
    GridRowsLength(size, resolution, heightScale, noise, resolution);
    var c := (resolution - 1) * (resolution - 1);
    assert 6 * c == 3 * (2 * c);
  }

  /** a added to itself m times. */
  function Times(m: nat, a: Vec3): Vec3 {
    if m == 0 then Zero3 else Add(Times(m - 1, a), a)
  }

  /** The normalised face normal of the triangle whose indices start at i. */
  function FaceNormal(vertices: seq<Vertex>, indices: seq<nat>, normalize: Vec3 -> Vec3, i: nat): Vec3
    requires i + 2 < |indices|
    requires indices[i] < |vertices| && indices[i + 1] < |vertices| && indices[i + 2] < |vertices|
  {
    var v0, v1, v2 := vertices[indices[i]].position, vertices[indices[i + 1]].position, vertices[indices[i + 2]].position;
    normalize(Cross(Sub(v1, v0), Sub(v2, v0)))
  }

  /** How many corners of the triangle starting at i are vertex v. */
  function Multiplicity(indices: seq<nat>, i: nat, v: nat): nat
    requires i + 2 < |indices|
  {
    (if indices[i] == v then 1 else 0) + (if indices[i + 1] == v then 1 else 0) + (if indices[i + 2] == v then 1 else 0)
  }

  /** The sum, over the first t triangles, of each face normal times the number of its corners that are v. */
  function NormalSum(vertices: seq<Vertex>, indices: seq<nat>, normalize: Vec3 -> Vec3, v: nat, t: nat): Vec3
    requires 3 * t <= |indices|
    requires IndicesInBounds(indices, |vertices|)
  {
    if t == 0 then Zero3
    else Add(NormalSum(vertices, indices, normalize, v, t - 1),
             Times(Multiplicity(indices, 3 * (t - 1), v), FaceNormal(vertices, indices, normalize, 3 * (t - 1))))
  }

  /** The vertices with each normal replaced by the normalised sum of the face normals of the triangles using it. */
  function WithNormals(vertices: seq<Vertex>, indices: seq<nat>, normalize: Vec3 -> Vec3): seq<Vertex>
    requires TrianglesInBounds(indices, |vertices|)
  {
    seq(|vertices|, v requires 0 <= v < |vertices| =>
      vertices[v].(normal := normalize(NormalSum(vertices, indices, normalize, v, |indices| / 3))))
  }

  /** Normal computation keeps the vertex count and every position, height, texture coordinate and color. */
  lemma {:induction false} WithNormalsOnlyChangesNormals(vertices: seq<Vertex>, indices: seq<nat>, normalize: Vec3 -> Vec3)
    requires TrianglesInBounds(indices, |vertices|)
    ensures |WithNormals(vertices, indices, normalize)| == |vertices|
    ensures forall v :: 0 <= v < |vertices| ==>
      var w := WithNormals(vertices, indices, normalize)[v];
      w.position == vertices[v].position && w.height == vertices[v].height
      && w.textureUV == vertices[v].textureUV && w.color == vertices[v].color
  {
  }

  /** The face normals, and so the sums, depend on the vertices' positions only. */
  lemma {:induction false} NormalSumReadsPositions(a: seq<Vertex>, b: seq<Vertex>, indices: seq<nat>, normalize: Vec3 -> Vec3, v: nat, t: nat)
    requires |a| == |b| && forall k :: 0 <= k < |a| ==> a[k].position == b[k].position
    requires 3 * t <= |indices|
    requires IndicesInBounds(indices, |a|)
    ensures NormalSum(a, indices, normalize, v, t) == NormalSum(b, indices, normalize, v, t)
  {
    if t > 0 {
      NormalSumReadsPositions(a, b, indices, normalize, v, t - 1);
      var i := 3 * (t - 1);
      assert FaceNormal(a, indices, normalize, i) == FaceNormal(b, indices, normalize, i);
    }
  }

  /** A vertex that no triangle uses accumulates the zero vector (which is then normalised). */
  lemma {:induction false} UnreferencedVertexSumsToZero(vertices: seq<Vertex>, indices: seq<nat>, normalize: Vec3 -> Vec3, v: nat, t: nat)
    requires 3 * t <= |indices|
    requires IndicesInBounds(indices, |vertices|)
    requires forall k :: 0 <= k < 3 * t ==> indices[k] != v
    ensures NormalSum(vertices, indices, normalize, v, t) == Zero3
  {
    if t > 0 {
      UnreferencedVertexSumsToZero(vertices, indices, normalize, v, t - 1);
    }
  }

  /** The normal after one conditional `+= normal`. */
  function Bump(n: Vec3, hit: bool, normal: Vec3): Vec3 {
    if hit then Add(n, normal) else n
  }

  /**
   * Adds normal to the normal of each corner of the triangle starting at i:
   * a vertex gains it once for every corner it occupies.
   */
  function AddFaceNormal(vertices: seq<Vertex>, indices: seq<nat>, i: nat, normal: Vec3): (r: seq<Vertex>)
    requires i + 2 < |indices|
    ensures |r| == |vertices|
  {
    seq(|vertices|, v requires 0 <= v < |vertices| =>
      vertices[v].(normal := Bump(Bump(Bump(vertices[v].normal, indices[i] == v, normal), indices[i + 1] == v, normal), indices[i + 2] == v, normal)))
  }

  /** The vertices after the first t triangles have added their face normals to their corners. */
  function Accumulate(vertices: seq<Vertex>, indices: seq<nat>, normalize: Vec3 -> Vec3, t: nat): (r: seq<Vertex>)
    requires 3 * t <= |indices|
    requires IndicesInBounds(indices, |vertices|)
    ensures |r| == |vertices|
  {
    if t == 0 then vertices
    else AddFaceNormal(Accumulate(vertices, indices, normalize, t - 1), indices, 3 * (t - 1),
                       FaceNormal(vertices, indices, normalize, 3 * (t - 1)))
  }

  /**
   * The three in-place `+= normal` updates, one corner after another, compute
   * AddFaceNormal, also when two corners are the same vertex.
   */
  lemma {:induction false} AddFaceNormalSteps(s0: seq<Vertex>, s1: seq<Vertex>, s2: seq<Vertex>, s3: seq<Vertex>, indices: seq<nat>, i: nat, normal: Vec3)
    requires i + 2 < |indices|
    requires indices[i] < |s0| && indices[i + 1] < |s0| && indices[i + 2] < |s0|
    requires s1 == s0[indices[i] := s0[indices[i]].(normal := Add(s0[indices[i]].normal, normal))]
    requires s2 == s1[indices[i + 1] := s1[indices[i + 1]].(normal := Add(s1[indices[i + 1]].normal, normal))]
    requires s3 == s2[indices[i + 2] := s2[indices[i + 2]].(normal := Add(s2[indices[i + 2]].normal, normal))]
    ensures s3 == AddFaceNormal(s0, indices, i, normal)
  {
    var r := AddFaceNormal(s0, indices, i, normal);
    forall v | 0 <= v < |s0|
      ensures s3[v] == r[v]
    {
      assert s1[v] == s0[v].(normal := Bump(s0[v].normal, indices[i] == v, normal));
      assert s2[v] == s0[v].(normal := Bump(Bump(s0[v].normal, indices[i] == v, normal), indices[i + 1] == v, normal));
    }
  }

  /** Adding face normals never moves a vertex. */
  lemma {:induction false} AccumulateKeepsPosition(vertices: seq<Vertex>, indices: seq<nat>, normalize: Vec3 -> Vec3, t: nat, v: nat)
    requires 3 * t <= |indices|
    requires IndicesInBounds(indices, |vertices|)
    requires v < |vertices|
    ensures Accumulate(vertices, indices, normalize, t)[v].position == vertices[v].position
  {
    if t > 0 {
      AccumulateKeepsPosition(vertices, indices, normalize, t - 1, v);
    }
  }

  /**
   * Accumulating triangle t (whose indices start at i = 3t) on top of the
   * first t adds the face normal computed from the current positions.
   */
  lemma {:induction false} AccumulateNext(vertices: seq<Vertex>, indices: seq<nat>, normalize: Vec3 -> Vec3, t: nat, i: nat)
    requires i == 3 * t && i + 2 < |indices|
    requires IndicesInBounds(indices, |vertices|)
    ensures var before := Accumulate(vertices, indices, normalize, t);
      Accumulate(vertices, indices, normalize, t + 1) == AddFaceNormal(before, indices, i, FaceNormal(before, indices, normalize, i))
  {
    AccumulateKeepsFaceNormal(vertices, indices, normalize, t, i);
  }

  /** So the face normal of a later triangle is the same before and after the first t triangles are accumulated. */
  lemma {:induction false} AccumulateKeepsFaceNormal(vertices: seq<Vertex>, indices: seq<nat>, normalize: Vec3 -> Vec3, t: nat, i: nat)
    requires 3 * t <= i && i + 2 < |indices|
    requires IndicesInBounds(indices, |vertices|)
    ensures FaceNormal(Accumulate(vertices, indices, normalize, t), indices, normalize, i)
         == FaceNormal(vertices, indices, normalize, i)
  {
    AccumulateKeepsPosition(vertices, indices, normalize, t, indices[i]);
    AccumulateKeepsPosition(vertices, indices, normalize, t, indices[i + 1]);
    AccumulateKeepsPosition(vertices, indices, normalize, t, indices[i + 2]);
  }

  /**
   * Starting from zero normals, after t triangles every vertex keeps its
   * position, height, texture coordinate and color, and its normal is the sum
   * of the face normals of the triangles among the first t that use it.
   */
  lemma {:induction false} AccumulateAt(vertices: seq<Vertex>, indices: seq<nat>, normalize: Vec3 -> Vec3, t: nat, v: nat)
    requires 3 * t <= |indices|
    requires IndicesInBounds(indices, |vertices|)
    requires forall k :: 0 <= k < |vertices| ==> vertices[k].normal == Zero3
    requires v < |vertices|
    ensures Accumulate(vertices, indices, normalize, t)[v]
      == vertices[v].(normal := NormalSum(vertices, indices, normalize, v, t))
  {
    if t > 0 {
      var prev := Accumulate(vertices, indices, normalize, t - 1);
      var i := 3 * (t - 1);
      var normal := FaceNormal(vertices, indices, normalize, i);
      AccumulateAt(vertices, indices, normalize, t - 1, v);
      AccumulateStep(prev[v].normal, normal, Multiplicity(indices, i, v), indices[i] == v, indices[i + 1] == v, indices[i + 2] == v);
    }
  }

  // ---------------------------------------------------------------------------
  // The terrain object

  /**
   * The two textures of the terrain: the diffuse map bound to unit 0 and
   * sampled as "diffuse0", and the specular map bound to unit 1 and sampled
   * as "specular".
   */
  function LoadTextures(diffusePath: string, specularPath: string): (textures: seq<Texture>)
    ensures |textures| == 2
    ensures textures[0].path == diffusePath && textures[1].path == specularPath
    ensures UniformName(textures, 0) == "diffuse0" && UniformName(textures, 1) == "specular"
    ensures forall i :: 0 <= i < |textures| ==> textures[i].unit == i
  {
    var textures := [Texture(diffusePath, "diffuse", 0), Texture(specularPath, "specular", 1)];
    assert DiffuseCount(textures[..0]) == 0;
    assert NatToString(0) == ['0'];
    textures
  }

  class Terrain {
    const size: real
    const resolution: nat
    const heightScale: real
    const noiseFrequency: real
    const octaves: int
    const lacunarity: real
    const gain: real
    /** The fractal Perlin noise configured from the frequency, octaves, lacunarity and gain. */
    const noise: (real, real) -> real
    /** glm::normalize */
    const normalize: Vec3 -> Vec3

    var terrainMesh: Mesh?
    /** Member buffers that the constructor never fills: it generates into locals of the same name. */
    var vertices: seq<Vertex>
    var indices: seq<nat>

    /**
     * Generates the grid and its normals into local buffers and hands them,
     * with the two textures, to a new (non-instanced) mesh.
     */
    constructor (size: real, resolution: nat, heightScale: real, noiseFrequency: real, octaves: int,
                 lacunarity: real, gain: real, diffuseTexturePath: string, specularTexturePath: string,
                 noise: (real, real) -> real, normalize: Vec3 -> Vec3, gl: Log)
      requires resolution >= 2
      modifies gl
      ensures this.size == size && this.resolution == resolution && this.heightScale == heightScale
      ensures this.noiseFrequency == noiseFrequency && this.octaves == octaves
      ensures this.lacunarity == lacunarity && this.gain == gain
      ensures this.noise == noise && this.normalize == normalize
      ensures vertices == [] && indices == []
      ensures terrainMesh != null && fresh(terrainMesh)
      ensures TrianglesInBounds(GridIndices(resolution), |GridVertices(size, resolution, heightScale, noise)|)
      ensures terrainMesh.vertices == WithNormals(GridVertices(size, resolution, heightScale, noise), GridIndices(resolution), normalize)
      ensures terrainMesh.indices == GridIndices(resolution)
      ensures terrainMesh.textures == LoadTextures(diffuseTexturePath, specularTexturePath)
      ensures terrainMesh.instancing == DefaultInstancing
      ensures gl.events == old(gl.events) + ConstructorEvents(terrainMesh.vertices, terrainMesh.indices, DefaultInstancing, [])
    {
      this.size := size;
      this.resolution := resolution;
      this.heightScale := heightScale;
      this.noiseFrequency := noiseFrequency;
      this.octaves := octaves;
      this.lacunarity := lacunarity;
      this.gain := gain;
      this.noise := noise;
      this.normalize := normalize;
      this.terrainMesh := null;
      this.vertices := [];
      this.indices := [];
      new;
      var vertices, indices := BuildGrid();
      var textures := LoadTextures(diffuseTexturePath, specularTexturePath);
      terrainMesh := new Mesh(vertices, indices, textures, DefaultInstancing, [], gl);
    }

    /**
     * The constructor's local buffers: the generated grid with its normals
     * calculated in place.
     */
    method BuildGrid() returns (vertices: seq<Vertex>, indices: seq<nat>)
      requires resolution >= 2
      ensures TrianglesInBounds(GridIndices(resolution), |GridVertices(size, resolution, heightScale, noise)|)
      ensures vertices == WithNormals(GridVertices(size, resolution, heightScale, noise), GridIndices(resolution), normalize)
      ensures indices == GridIndices(resolution)
    {
      var generated;
      generated, indices := GenerateTerrain([], []);
      assert generated == GridVertices(size, resolution, heightScale, noise);
      assert indices == GridIndices(resolution);
      GeneratedTrianglesInBounds(size, resolution, heightScale, noise);
      var buffer := new Vertex[|generated|](k requires 0 <= k < |generated| => generated[k]);
      assert buffer[..] == generated;
      CalculateNormals(buffer, indices);
      vertices := buffer[..];
    }

    /** Appends the grid's vertices (row-major, z outer) and then its triangle indices to the given buffers. */
    method GenerateTerrain(vertices0: seq<Vertex>, indices0: seq<nat>) returns (vertices: seq<Vertex>, indices: seq<nat>)
      requires resolution >= 2
      ensures vertices == vertices0 + GridVertices(size, resolution, heightScale, noise)
      ensures indices == indices0 + GridIndices(resolution)
    {
      vertices := GenerateVertices(vertices0);
      indices := GenerateIndices(indices0);
    }

    /** The vertex pass of GenerateTerrain: one vertex per grid point, row after row. */
    method GenerateVertices(vertices0: seq<Vertex>) returns (vertices: seq<Vertex>)
      requires resolution >= 2
      ensures vertices == vertices0 + GridVertices(size, resolution, heightScale, noise)
    {
      vertices := vertices0;
      var z: nat := 0;
      while z < resolution
        invariant z <= resolution
        invariant vertices == vertices0 + GridRows(size, resolution, heightScale, noise, z)
      {
        vertices := GenerateVertexRow(vertices, z);
        assert vertices == vertices0 + (GridRows(size, resolution, heightScale, noise, z)
                                        + GridRow(size, resolution, heightScale, noise, z, resolution));
        z := z + 1;
      }
    }

    /** The inner loop of the vertex pass: the vertices of grid row z, column after column. */
    method GenerateVertexRow(vertices0: seq<Vertex>, z: nat) returns (vertices: seq<Vertex>)
      requires resolution >= 2
      ensures vertices == vertices0 + GridRow(size, resolution, heightScale, noise, z, resolution)
    {
      vertices := vertices0;
      var x: nat := 0;
      while x < resolution
        invariant x <= resolution
        invariant vertices == vertices0 + GridRow(size, resolution, heightScale, noise, z, x)
      {
        var px := GridCoord(size, resolution, x);
        var pz := GridCoord(size, resolution, z);
        var py := noise(px, pz) * heightScale;
        var textureUV := Vec2(GridTexCoord(resolution, x), GridTexCoord(resolution, z));
        var vertex := Vertex(Vec3(px, py, pz), Zero3, One3, textureUV, py);
        assert vertex == GridVertex(size, resolution, heightScale, noise, x, z);
        assert GridRow(size, resolution, heightScale, noise, z, x + 1)
            == GridRow(size, resolution, heightScale, noise, z, x) + [vertex];
        vertices := vertices + [vertex];
        x := x + 1;
      }
    }

    /** The index pass of GenerateTerrain: two triangles per grid cell, cell after cell. */
    method GenerateIndices(indices0: seq<nat>) returns (indices: seq<nat>)
      requires resolution >= 2
      ensures indices == indices0 + GridIndices(resolution)
    {
      indices := indices0;
      var z: nat := 0;
      while z < resolution - 1
        invariant z <= resolution - 1
        invariant indices == indices0 + CellRows(resolution, z)
      {
        indices := GenerateCellRow(indices, z);
        assert indices == indices0 + (CellRows(resolution, z) + CellRow(resolution, z, resolution - 1));
        z := z + 1;
      }
    }

    /** The inner loop of the index pass: the two triangles of every cell of cell row z. */
    method GenerateCellRow(indices0: seq<nat>, z: nat) returns (indices: seq<nat>)
      requires resolution >= 2
      ensures indices == indices0 + CellRow(resolution, z, resolution - 1)
    {
      indices := indices0;
      var x: nat := 0;
      while x < resolution - 1
        invariant x <= resolution - 1
        invariant indices == indices0 + CellRow(resolution, z, x)
      {
        var topLeft := z * resolution + x;
        var topRight := topLeft + 1;
        var bottomLeft := (z + 1) * resolution + x;
        var bottomRight := bottomLeft + 1;

        CellStep(resolution, x, z);
        indices := indices + [topLeft, bottomLeft, topRight];
        indices := indices + [topRight, bottomLeft, bottomRight];
        assert indices == indices0 + (CellRow(resolution, z, x) + CellIndices(resolution, x, z));
        x := x + 1;
      }
    }

    /**
     * Zeroes every normal, adds each triangle's normalised face normal to each
     * of its corners, then normalises every normal, in place.
     */
    method CalculateNormals(vertices: array<Vertex>, indices: seq<nat>)
      requires TrianglesInBounds(indices, vertices.Length)
      modifies vertices
      ensures vertices[..] == WithNormals(old(vertices[..]), indices, normalize)
    {
      ghost var original := vertices[..];
      ZeroNormals(vertices);
      ghost var zeroed := vertices[..];
      AccumulateFaceNormals(vertices, indices);
      ghost var accumulated := vertices[..];
      NormalizeNormals(vertices);
      forall v | 0 <= v < vertices.Length
        ensures vertices[v] == WithNormals(original, indices, normalize)[v]
      {
        AccumulateAt(zeroed, indices, normalize, |indices| / 3, v);
        NormalSumReadsPositions(zeroed, original, indices, normalize, v, |indices| / 3);
      }
    }

    /** The first pass of CalculateNormals: every normal becomes the zero vector. */
    method ZeroNormals(vertices: array<Vertex>)
      modifies vertices
      ensures forall v :: 0 <= v < vertices.Length ==> vertices[v] == old(vertices[v]).(normal := Zero3)
    {
      var j := 0;
      while j < vertices.Length
        invariant j <= vertices.Length
        invariant forall v :: 0 <= v < j ==> vertices[v] == old(vertices[v]).(normal := Zero3)
        invariant forall v :: j <= v < vertices.Length ==> vertices[v] == old(vertices[v])
      {
        vertices[j] := vertices[j].(normal := Zero3);
        j := j + 1;
      }
    }

    /**
     * The second pass of CalculateNormals: each triangle's normalised face
     * normal is added to the normal of each of its three corners.
     */
    method AccumulateFaceNormals(vertices: array<Vertex>, indices: seq<nat>)
      requires TrianglesInBounds(indices, vertices.Length)
      modifies vertices
      ensures vertices[..] == Accumulate(old(vertices[..]), indices, normalize, |indices| / 3)
    {
      ghost var original := vertices[..];
      ghost var triangles := |indices| / 3;
      var i := 0;
      ghost var t := 0;
      while i < |indices|
        invariant i == 3 * t && t <= triangles
        invariant vertices[..] == Accumulate(original, indices, normalize, t)
      {
        AccumulateNext(original, indices, normalize, t, i);
        AddTriangleNormal(vertices, indices, i);
        i := i + 3;
        t := t + 1;
      }
    }

    /** One iteration of the accumulation pass: the face normal of the triangle at i is added to its three corners. */
    method AddTriangleNormal(vertices: array<Vertex>, indices: seq<nat>, i: nat)
      requires i + 2 < |indices|
      requires indices[i] < vertices.Length && indices[i + 1] < vertices.Length && indices[i + 2] < vertices.Length
      modifies vertices
      ensures vertices[..] == AddFaceNormal(old(vertices[..]), indices, i, FaceNormal(old(vertices[..]), indices, normalize, i))
    {
      var idx0 := indices[i];
      var idx1 := indices[i + 1];
      var idx2 := indices[i + 2];

      var v0 := vertices[idx0].position;
      var v1 := vertices[idx1].position;
      var v2 := vertices[idx2].position;

      var edge1 := Sub(v1, v0);
      var edge2 := Sub(v2, v0);
      var normal := normalize(Cross(edge1, edge2));

      ghost var s0 := vertices[..];
      vertices[idx0] := vertices[idx0].(normal := Add(vertices[idx0].normal, normal));
      ghost var s1 := vertices[..];
      vertices[idx1] := vertices[idx1].(normal := Add(vertices[idx1].normal, normal));
      ghost var s2 := vertices[..];
      vertices[idx2] := vertices[idx2].(normal := Add(vertices[idx2].normal, normal));
      AddFaceNormalSteps(s0, s1, s2, vertices[..], indices, i, normal);
    }

    /** The third pass of CalculateNormals: every normal is replaced by its normalisation. */
    method NormalizeNormals(vertices: array<Vertex>)
      modifies vertices
      ensures forall v :: 0 <= v < vertices.Length ==>
        vertices[v] == old(vertices[v]).(normal := normalize(old(vertices[v]).normal))
    {
      var j := 0;
      while j < vertices.Length
        invariant j <= vertices.Length
        invariant forall v :: 0 <= v < j ==> vertices[v] == old(vertices[v]).(normal := normalize(old(vertices[v]).normal))
        invariant forall v :: j <= v < vertices.Length ==> vertices[v] == old(vertices[v])
      {
        vertices[j] := vertices[j].(normal := normalize(vertices[j].normal));
        j := j + 1;
      }
    }

    /** Draws the terrain mesh with the default (identity) translation, rotation and scale. */
    method Draw(gl: Log, ops: MatOps, cameraPosition: Vec3, model: Mat4)
      requires terrainMesh != null
      modifies gl
      ensures gl.events == old(gl.events) + DrawEvents(terrainMesh.textures, terrainMesh.indices, terrainMesh.instancing,
                                                       ops, cameraPosition, model, DefaultTranslation, DefaultRotation, DefaultScale)
    {
      terrainMesh.Draw(gl, ops, cameraPosition, model, DefaultTranslation, DefaultRotation, DefaultScale);
    }
  }

  /** Three conditional additions of one face normal add it as many times as the vertex occurs in the triangle. */
  lemma {:induction false} AccumulateStep(prev: Vec3, normal: Vec3, m: nat, b0: bool, b1: bool, b2: bool)
    requires m == (if b0 then 1 else 0) + (if b1 then 1 else 0) + (if b2 then 1 else 0)
    ensures Bump(Bump(Bump(prev, b0, normal), b1, normal), b2, normal) == Add(prev, Times(m, normal))
  {
    assert Times(1, normal) == Add(Zero3, normal);
    assert Times(2, normal) == Add(Times(1, normal), normal);
    assert Times(3, normal) == Add(Times(2, normal), normal);
  }
}
