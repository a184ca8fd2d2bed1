/**
  The static cube mesh of the demo: an interleaved vertex buffer (position,
  then normal, six numbers per vertex) and a 16-bit index buffer drawn as a
  triangle list. Every number in the vertex buffer is -1, 0 or 1, which a
  32-bit float holds exactly, so the buffer is modelled with integers.

  The buffer constants are written the way the source lays them out: one
  six-number row per vertex, four rows per face block, and one six-index row
  (two triangles) per face block. The flat buffers are those rows one after
  another.
 */
module CubeGeometry {

  /** Numbers per vertex: the attribute stride of 6 floats. */
  const Stride: nat := 6
  /** Offset of the position attribute inside a vertex, in floats. */
  const PositionOffset: nat := 0
  /** Offset of the normal attribute inside a vertex, in floats. */
  const NormalOffset: nat := 3
  /** Vertices per face block: each face of the cube owns four consecutive vertices. */
  const FaceSize: nat := 4
  /** Indices per face block: two triangles. */
  const RowLength: nat := 6
  /** The index buffer holds unsigned 16-bit integers. */
  const IndexLimit: int := 0x1_0000

  /** The face blocks, one vertex row (position, normal) per vertex. */
  const FrontFace: seq<seq<int>> := [
    [-1, -1,  1,   0,  0,  1],
    [ 1, -1,  1,   0,  0,  1],
    [ 1,  1,  1,   0,  0,  1],
    [-1,  1,  1,   0,  0,  1]
  ]
  const BackFace: seq<seq<int>> := [
    [-1, -1, -1,   0,  0, -1],
    [-1,  1, -1,   0,  0, -1],
    [ 1,  1, -1,   0,  0, -1],
    [ 1, -1, -1,   0,  0, -1]
  ]
  const LeftFace: seq<seq<int>> := [
    [-1, -1, -1,  -1,  0,  0],
    [-1, -1,  1,  -1,  0,  0],
    [-1,  1,  1,  -1,  0,  0],
    [-1,  1, -1,  -1,  0,  0]
  ]
  const RightFace: seq<seq<int>> := [
    [ 1, -1, -1,   1,  0,  0],
    [ 1,  1, -1,   1,  0,  0],
    [ 1,  1,  1,   1,  0,  0],
    [ 1, -1,  1,   1,  0,  0]
  ]
  const TopFace: seq<seq<int>> := [
    [-1,  1, -1,   0,  1,  0],
    [ 1,  1, -1,   0,  1,  0],
    [ 1,  1,  1,   0,  1,  0],
    [-1,  1,  1,   0,  1,  0]
  ]
  const BottomFace: seq<seq<int>> := [
    [-1, -1, -1,   0, -1,  0],
    [-1, -1,  1,   0, -1,  0],
    [ 1, -1,  1,   0, -1,  0],
    [ 1, -1, -1,   0, -1,  0]
  ]

  /** The face blocks in buffer order: front, back, left, right, top, bottom. */
  const CubeFaces: seq<seq<seq<int>>> := [FrontFace, BackFace, LeftFace, RightFace, TopFace, BottomFace]

  /** The outward normal of each face block, in the same order. */
  const CubeNormals: seq<Vec3> := [Vec3(0, 0, 1), Vec3(0, 0, -1), Vec3(-1, 0, 0), Vec3(1, 0, 0), Vec3(0, 1, 0), Vec3(0, -1, 0)]

  /** The vertex buffer: 24 vertex rows one after another. */
  const CubeVertices: seq<int> := Flatten(Flatten(CubeFaces))

  /** Index rows, one per face block: triangles (a, b, c) and (a, c, d) of its vertices a, b, c, d. */
  const FrontIndices: seq<int> := [0, 1, 2, 0, 2, 3]
  const BackIndices: seq<int> := [4, 5, 6, 4, 6, 7]
  const LeftIndices: seq<int> := [8, 9, 10, 8, 10, 11]
  const RightIndices: seq<int> := [12, 13, 14, 12, 14, 15]
  const TopIndices: seq<int> := [16, 17, 18, 16, 18, 19]
  const BottomIndices: seq<int> := [20, 21, 22, 20, 22, 23]

  const IndexRows: seq<seq<int>> := [FrontIndices, BackIndices, LeftIndices, RightIndices, TopIndices, BottomIndices]

  /** The index buffer: the six rows one after another (36 indices, 12 triangles). */
  const CubeIndices: seq<int> := Flatten(IndexRows)

  datatype Vec3 = Vec3(x: int, y: int, z: int)

  function Abs(x: int): nat {
    if x < 0 then -x else x
  }

  /**
    A unit vector along one coordinate axis, in either direction: for integer
    components, |x| + |y| + |z| == 1 leaves exactly one non-zero component,
    and it is 1 or -1.
   */
  predicate IsAxisUnit(n: Vec3) {
    Abs(n.x) + Abs(n.y) + Abs(n.z) == 1
  }

  /**
    For an axis-aligned unit normal n, point p lies on the plane n . p == 1:
    its coordinate along n's axis equals n's non-zero component.
   */
  predicate OnPlane(n: Vec3, p: Vec3) {
    (n.x != 0 ==> p.x == n.x) && (n.y != 0 ==> p.y == n.y) && (n.z != 0 ==> p.z == n.z)
  }

  // ---------------------------------------------------------------- blocks

  /** The blocks one after another. */
  function Flatten<T>(blocks: seq<seq<T>>): seq<T> {
    if blocks == [] then [] else blocks[0] + Flatten(blocks[1..])
  }

  /** Every block has length `w`. */
  predicate Uniform<T>(blocks: seq<seq<T>>, w: nat) {
    forall k :: 0 <= k < |blocks| ==> |blocks[k]| == w
  }

  lemma UniformTail<T>(blocks: seq<seq<T>>, w: nat)
    requires Uniform(blocks, w) && blocks != []
    ensures |blocks[0]| == w && Uniform(blocks[1..], w)
  {
  }

  lemma {:induction false} FlattenLength<T>(blocks: seq<seq<T>>, w: nat)
    requires Uniform(blocks, w)
    ensures |Flatten(blocks)| == w * |blocks|
  {
    if blocks != [] {
      UniformTail(blocks, w);
      FlattenLength(blocks[1..], w);
    }
  }

  /** Element `j` of block `k` sits at position k * w + j of the flattened sequence. */
  lemma {:induction false} FlattenAt<T>(blocks: seq<seq<T>>, w: nat, k: nat, j: nat)
    requires Uniform(blocks, w) && k < |blocks| && j < w
    ensures k * w + j < |Flatten(blocks)| && Flatten(blocks)[k * w + j] == blocks[k][j]
  {
    UniformTail(blocks, w);
    var rest := blocks[1..];
    if k > 0 {
      FlattenAt(rest, w, k - 1, j);
      assert k * w + j == w + ((k - 1) * w + j);
      assert rest[k - 1] == blocks[k];
    }
  }

  // ---------------------------------------------------------------- flat buffers

  /** Number of whole vertices in an interleaved buffer. */
  function VertexCount(data: seq<int>): nat {
    |data| / Stride
  }

  /** The three numbers starting at `offset` inside vertex `v`. */
  function Attribute(data: seq<int>, v: int, offset: nat): Vec3
    requires 0 <= v < VertexCount(data) && offset + 3 <= Stride
  {
    var base := v * Stride + offset;
    Vec3(data[base], data[base + 1], data[base + 2])
  }

  function Position(data: seq<int>, v: int): Vec3
    requires 0 <= v < VertexCount(data)
  {
    Attribute(data, v, PositionOffset)
  }

  function Normal(data: seq<int>, v: int): Vec3
    requires 0 <= v < VertexCount(data)
  {
    Attribute(data, v, NormalOffset)
  }

  /** Every index names a vertex of the buffer and fits an unsigned 16-bit integer. */
  ghost predicate IndicesInRange(data: seq<int>, idx: seq<int>) {
    forall i :: 0 <= i < |idx| ==> 0 <= idx[i] < VertexCount(data) && idx[i] < IndexLimit
  }

  /** Triangle `t` (indices 3t, 3t+1, 3t+2) exists and its three indices name vertices of the buffer. */
  predicate TriangleInRange(data: seq<int>, idx: seq<int>, t: nat) {
    && 3 * t + 2 < |idx|
    && 0 <= idx[3 * t] < VertexCount(data)
    && 0 <= idx[3 * t + 1] < VertexCount(data)
    && 0 <= idx[3 * t + 2] < VertexCount(data)
  }

  /**
    Triangle `t` names three distinct vertices, in range and representable
    as unsigned 16-bit integers, of one face block {4f, ..., 4f+3}, and all
    three carry the same axis-aligned unit normal: the triangle is
    flat-shaded.
   */
  predicate FlatTriangle(data: seq<int>, idx: seq<int>, t: nat) {
    TriangleInRange(data, idx, t) &&
    var a, b, c := idx[3 * t], idx[3 * t + 1], idx[3 * t + 2];
    && a < IndexLimit && b < IndexLimit && c < IndexLimit
    && a != b && b != c && a != c
    && a / FaceSize == b / FaceSize == c / FaceSize
    && Normal(data, a) == Normal(data, b) == Normal(data, c)
    && IsAxisUnit(Normal(data, a))
  }

  ghost predicate AllTrianglesFlat(data: seq<int>, idx: seq<int>) {
    forall t: nat :: t < |idx| / 3 ==> FlatTriangle(data, idx, t)
  }

  /** In a whole number of triangles every index belongs to a triangle, so flat triangles keep all indices in range. */
  lemma FlatTrianglesInRange(data: seq<int>, idx: seq<int>)
    requires |idx| % 3 == 0 && AllTrianglesFlat(data, idx)
    ensures IndicesInRange(data, idx)
  {
    forall i | 0 <= i < |idx|
      ensures 0 <= idx[i] < VertexCount(data) && idx[i] < IndexLimit
    {
      var t: nat := i / 3;
      assert 3 * t <= i <= 3 * t + 2;
      assert FlatTriangle(data, idx, t);
    }
  }

  /** Checks triangles t, t+1, ... of the index buffer one by one. */
  function CheckTriangles(data: seq<int>, idx: seq<int>, t: nat): bool
    decreases |idx| - 3 * t
  {
    if 3 * t + 2 >= |idx| then true
    else FlatTriangle(data, idx, t) && CheckTriangles(data, idx, t + 1)
  }

  /** CheckTriangles accepts exactly when every remaining whole triangle is flat-shaded. */
  lemma {:induction false} CheckTrianglesCorrect(data: seq<int>, idx: seq<int>, t: nat)
    ensures CheckTriangles(data, idx, t) <==> forall u: nat :: t <= u < |idx| / 3 ==> FlatTriangle(data, idx, u)
    decreases |idx| - 3 * t
  {
    if 3 * t + 2 < |idx| {
      CheckTrianglesCorrect(data, idx, t + 1);
    }
  }

  /**
    The validator for a mesh: whole vertices, whole triangles, every index in
    range, every triangle flat-shaded.
   */
  function ValidMesh(data: seq<int>, idx: seq<int>): (ok: bool)
    ensures ok <==>
      && |data| % Stride == 0
      && |idx| % 3 == 0
      && IndicesInRange(data, idx)
      && AllTrianglesFlat(data, idx)
  {
    CheckTrianglesCorrect(data, idx, 0);
    if |data| % Stride == 0 && |idx| % 3 == 0 && CheckTriangles(data, idx, 0) then
      FlatTrianglesInRange(data, idx);
      true
    else
      false
  }

  // ---------------------------------------------------------------- quad meshes

  /** The three numbers starting at `offset` of one vertex row. */
  function RowAttribute(row: seq<int>, offset: nat): Vec3
    requires |row| == Stride && offset + 3 <= Stride
  {
    Vec3(row[offset], row[offset + 1], row[offset + 2])
  }

  /** A vertex row that carries normal n and whose position lies on the face plane of n. */
  predicate OnFace(row: seq<int>, n: Vec3) {
    |row| == Stride && RowAttribute(row, NormalOffset) == n && OnPlane(n, RowAttribute(row, PositionOffset))
  }

  /**
    A well-formed face block with normal n: n is an axis-aligned unit vector,
    all four vertices carry it, and each lies on the plane n . p == 1. The
    normal is therefore perpendicular to the face and points away from the
    cube's centre.
   */
  predicate FaceBlockOk(face: seq<seq<int>>, n: Vec3) {
    |face| == FaceSize && IsAxisUnit(n) && forall j :: 0 <= j < |face| ==> OnFace(face[j], n)
  }

  /** The index row of a face block whose first vertex is `base`: triangles (a, b, c) and (a, c, d). */
  predicate QuadRow(row: seq<int>, base: int) {
    row == [base, base + 1, base + 2, base, base + 2, base + 3]
  }

  /** What makes a mesh a list of well-formed quads, each drawn by its own index row. */
  ghost predicate QuadMesh(faces: seq<seq<seq<int>>>, normals: seq<Vec3>, rows: seq<seq<int>>) {
    && |rows| == |faces| == |normals|
    && FaceSize * |faces| <= IndexLimit
    && forall f :: 0 <= f < |faces| ==> QuadFace(faces, normals, rows, f)
  }

  /** Face f is well formed with normal f and is drawn by index row f. */
  predicate QuadFace(faces: seq<seq<seq<int>>>, normals: seq<Vec3>, rows: seq<seq<int>>, f: nat)
    requires f < |faces| == |normals| == |rows|
  {
    FaceBlockOk(faces[f], normals[f]) && QuadRow(rows[f], FaceSize * f)
  }

  /** The vertex rows of a quad mesh all have the stride's length. */
  lemma QuadMeshRows(faces: seq<seq<seq<int>>>, normals: seq<Vec3>, rows: seq<seq<int>>)
    requires QuadMesh(faces, normals, rows)
    ensures Uniform(faces, FaceSize) && Uniform(rows, RowLength)
    ensures Uniform(Flatten(faces), Stride) && |Flatten(faces)| == FaceSize * |faces|
    ensures |Flatten(Flatten(faces))| == Stride * (FaceSize * |faces|)
    ensures VertexCount(Flatten(Flatten(faces))) == FaceSize * |faces|
  {
    forall f | 0 <= f < |faces| ensures |faces[f]| == FaceSize && |rows[f]| == RowLength {
      assert QuadFace(faces, normals, rows, f);
    }
    FlattenLength(faces, FaceSize);
    var vs := Flatten(faces);
    forall v | 0 <= v < |vs| ensures |vs[v]| == Stride {
      var f, j := v / FaceSize, v % FaceSize;
      FlattenAt(faces, FaceSize, f, j);
      assert QuadFace(faces, normals, rows, f);
      assert OnFace(faces[f][j], normals[f]);
    }
    FlattenLength(vs, Stride);
  }

  /** An attribute read from the flat vertex buffer is the one in vertex j's row of face f. */
  lemma AttributeOfRow(faces: seq<seq<seq<int>>>, normals: seq<Vec3>, rows: seq<seq<int>>, f: nat, j: nat, offset: nat)
    requires QuadMesh(faces, normals, rows) && f < |faces| && j < FaceSize && offset + 3 <= Stride
    ensures VertexCount(Flatten(Flatten(faces))) == FaceSize * |faces|
    ensures |faces[f]| == FaceSize && |faces[f][j]| == Stride
    ensures Attribute(Flatten(Flatten(faces)), FaceSize * f + j, offset) == RowAttribute(faces[f][j], offset)
  {
    QuadMeshRows(faces, normals, rows);
    var vs := Flatten(faces);
    var v := FaceSize * f + j;
    FlattenAt(faces, FaceSize, f, j);
    assert vs[v] == faces[f][j];
    FlattenAt(vs, Stride, v, offset);
    FlattenAt(vs, Stride, v, offset + 1);
    FlattenAt(vs, Stride, v, offset + 2);
  }

  /** Triangle t of a quad mesh draws vertices 0, h + 1 and h + 2 of face f == t / 2, where h == t % 2. */
  lemma QuadTriangleIndices(faces: seq<seq<seq<int>>>, normals: seq<Vec3>, rows: seq<seq<int>>, t: nat)
    requires QuadMesh(faces, normals, rows) && t < 2 * |faces|
    ensures 3 * t + 2 < |Flatten(rows)|
    ensures Flatten(rows)[3 * t] == FaceSize * (t / 2)
    ensures Flatten(rows)[3 * t + 1] == FaceSize * (t / 2) + t % 2 + 1
    ensures Flatten(rows)[3 * t + 2] == FaceSize * (t / 2) + t % 2 + 2
  {
    QuadMeshRows(faces, normals, rows);
    var f, h := t / 2, t % 2;
    assert QuadFace(faces, normals, rows, f);
    assert 3 * t == f * RowLength + 3 * h;
    FlattenAt(rows, RowLength, f, 3 * h);
    FlattenAt(rows, RowLength, f, 3 * h + 1);
    FlattenAt(rows, RowLength, f, 3 * h + 2);
  }

  /** The vertices of face f in a quad mesh all carry the face's normal, an axis-aligned unit vector. */
  lemma QuadFaceNormals(faces: seq<seq<seq<int>>>, normals: seq<Vec3>, rows: seq<seq<int>>, f: nat, j: nat)
    requires QuadMesh(faces, normals, rows) && f < |faces| && j < FaceSize
    ensures FaceSize * f + j < VertexCount(Flatten(Flatten(faces)))
    ensures Normal(Flatten(Flatten(faces)), FaceSize * f + j) == normals[f]
    ensures IsAxisUnit(normals[f])
  {
    AttributeOfRow(faces, normals, rows, f, j, NormalOffset);
    assert QuadFace(faces, normals, rows, f);
    assert OnFace(faces[f][j], normals[f]);
  }

  /** Vertex j of face block f lies in block f. */
  lemma BlockOf(f: nat, j: nat)
    requires j < FaceSize
    ensures (FaceSize * f + j) / FaceSize == f
  {
  }

  /** Triangle t of a quad mesh is the (0, 1, 2) or (0, 2, 3) triangle of face t / 2, so it is flat-shaded. */
  lemma QuadTriangleFlat(faces: seq<seq<seq<int>>>, normals: seq<Vec3>, rows: seq<seq<int>>, t: nat)
    requires QuadMesh(faces, normals, rows) && t < 2 * |faces|
    ensures FlatTriangle(Flatten(Flatten(faces)), Flatten(rows), t)
  {
    var f, h := t / 2, t % 2;
    QuadTriangleIndices(faces, normals, rows, t);
    BlockOf(f, 0);
    BlockOf(f, h + 1);
    BlockOf(f, h + 2);
    QuadFaceNormals(faces, normals, rows, f, 0);
    QuadFaceNormals(faces, normals, rows, f, h + 1);
    QuadFaceNormals(faces, normals, rows, f, h + 2);
  }

  /**
    Any mesh assembled from well-formed face blocks, each drawn by the quad
    index row of its own block, passes the validator.
   */
  lemma QuadMeshValid(faces: seq<seq<seq<int>>>, normals: seq<Vec3>, rows: seq<seq<int>>)
    requires QuadMesh(faces, normals, rows)
    ensures ValidMesh(Flatten(Flatten(faces)), Flatten(rows))
  {
    var data, idx := Flatten(Flatten(faces)), Flatten(rows);
    QuadMeshRows(faces, normals, rows);
    FlattenLength(rows, RowLength);
    WholeBlocks(|faces|);
    forall t: nat | t < |idx| / 3
      ensures FlatTriangle(data, idx, t)
    {
      QuadTriangleFlat(faces, normals, rows, t);
    }
    assert AllTrianglesFlat(data, idx);
    FlatTrianglesInRange(data, idx);
  }

  /** k face blocks fill a whole number of vertices and their index rows a whole number of triangles. */
  lemma WholeBlocks(k: nat)
    ensures (Stride * (FaceSize * k)) % Stride == 0
    ensures (RowLength * k) % 3 == 0 && (RowLength * k) / 3 == 2 * k
  {
  }

  // ---------------------------------------------------------------- winding

  function Sub(a: Vec3, b: Vec3): Vec3 {
    Vec3(a.x - b.x, a.y - b.y, a.z - b.z)
  }

  /** The scalar triple product n . (u x v). */
  function Triple(n: Vec3, u: Vec3, v: Vec3): int {
    n.x * (u.y * v.z - u.z * v.y) + n.y * (u.z * v.x - u.x * v.z) + n.z * (u.x * v.y - u.y * v.x)
  }

  /**
    The orientation of vertices a, b, c seen from the side normal n points
    to: positive when they run counter-clockwise (the side WebGL treats as
    front-facing by default), negative when clockwise.
   */
  function Orientation(a: Vec3, b: Vec3, c: Vec3, n: Vec3): int {
    Triple(n, Sub(b, a), Sub(c, a))
  }

  /** The orientation of triangle t of a mesh about the normal its vertices share. */
  function Winding(data: seq<int>, idx: seq<int>, t: nat): int
    requires TriangleInRange(data, idx, t)
  {
    Orientation(
      Position(data, idx[3 * t]), Position(data, idx[3 * t + 1]), Position(data, idx[3 * t + 2]),
      Normal(data, idx[3 * t]))
  }

  /** Four vertex rows of the stride's length, so that a triangle's positions can be read off them. */
  predicate QuadShaped(face: seq<seq<int>>) {
    |face| == FaceSize && |face[0]| == Stride && |face[1]| == Stride && |face[2]| == Stride && |face[3]| == Stride
  }

  /** The orientation of the h-th triangle, (0, 1, 2) or (0, 2, 3), of a face block about normal n. */
  function FaceWinding(face: seq<seq<int>>, n: Vec3, h: nat): int
    requires QuadShaped(face) && h < 2
  {
    Orientation(
      RowAttribute(face[0], PositionOffset), RowAttribute(face[h + 1], PositionOffset),
      RowAttribute(face[h + 2], PositionOffset), n)
  }

  /** The winding of triangle t in the flat buffers is the winding of its triangle in face block t / 2. */
  lemma QuadWinding(faces: seq<seq<seq<int>>>, normals: seq<Vec3>, rows: seq<seq<int>>, t: nat)
    requires QuadMesh(faces, normals, rows) && t < 2 * |faces|
    ensures TriangleInRange(Flatten(Flatten(faces)), Flatten(rows), t)
    ensures QuadShaped(faces[t / 2])
    ensures Winding(Flatten(Flatten(faces)), Flatten(rows), t) == FaceWinding(faces[t / 2], normals[t / 2], t % 2)
  {
    var f, h := t / 2, t % 2;
    QuadTriangleIndices(faces, normals, rows, t);
    QuadFaceNormals(faces, normals, rows, f, 0);
    AttributeOfRow(faces, normals, rows, f, 0, PositionOffset);
    AttributeOfRow(faces, normals, rows, f, h + 1, PositionOffset);
    AttributeOfRow(faces, normals, rows, f, h + 2, PositionOffset);
    assert QuadFace(faces, normals, rows, f);
    assert OnFace(faces[f][1], normals[f]) && OnFace(faces[f][2], normals[f]) && OnFace(faces[f][3], normals[f]);
  }

  // ---------------------------------------------------------------- the cube

  /** The cube mesh has 24 vertices and 36 indices and passes the validator. */
  lemma CubeMeshValid()
    ensures VertexCount(CubeVertices) == 24 && |CubeVertices| == 24 * Stride
    ensures |CubeIndices| == 36
    ensures ValidMesh(CubeVertices, CubeIndices)
  {
    CubeIsQuadMesh();
    QuadMeshRows(CubeFaces, CubeNormals, IndexRows);
    FlattenLength(IndexRows, RowLength);
    QuadMeshValid(CubeFaces, CubeNormals, IndexRows);
  }

  /** Each of the six face blocks is well formed with its normal, and each index row draws its own block. */
  lemma CubeIsQuadMesh()
    ensures QuadMesh(CubeFaces, CubeNormals, IndexRows)
  {
    forall f | 0 <= f < |CubeFaces| ensures QuadFace(CubeFaces, CubeNormals, IndexRows, f) {
      if f == 0 {
        assert QuadFace(CubeFaces, CubeNormals, IndexRows, 0);
      } else if f == 1 {
        assert QuadFace(CubeFaces, CubeNormals, IndexRows, 1);
      } else if f == 2 {
        assert QuadFace(CubeFaces, CubeNormals, IndexRows, 2);
      } else if f == 3 {
        assert QuadFace(CubeFaces, CubeNormals, IndexRows, 3);
      } else if f == 4 {
        assert QuadFace(CubeFaces, CubeNormals, IndexRows, 4);
      } else {
        assert QuadFace(CubeFaces, CubeNormals, IndexRows, 5);
      }
    }
  }

  /**
    The triangles of the front, back, left and right faces (0 to 7) run
    counter-clockwise seen from outside the cube; those of the top and bottom
    faces (8 to 11) run clockwise. With back-face culling switched on, the
    top and bottom faces would be dropped when seen from outside; the
    program never switches it on, so all twelve are drawn.
   */
  lemma CubeWinding(t: nat)
    requires t < 12
    ensures TriangleInRange(CubeVertices, CubeIndices, t)
    ensures Winding(CubeVertices, CubeIndices, t) == if t < 8 then 4 else -4
  {
    CubeIsQuadMesh();
    QuadWinding(CubeFaces, CubeNormals, IndexRows, t);
    CubeFaceWinding(t / 2, t % 2);
  }

  /** Triangle h of face block f of the cube has orientation 4 for the four side faces and -4 for the top and bottom. */
  lemma CubeFaceWinding(f: nat, h: nat)
    requires f < 6 && h < 2
    ensures QuadShaped(CubeFaces[f])
    ensures FaceWinding(CubeFaces[f], CubeNormals[f], h) == if f < 4 then 4 else -4
  {
    if f == 0 {
      FrontWinding(h);
      assert CubeFaces[0] == FrontFace && CubeNormals[0] == Vec3(0, 0, 1);
    } else if f == 1 {
      BackWinding(h);
      assert CubeFaces[1] == BackFace && CubeNormals[1] == Vec3(0, 0, -1);
    } else if f == 2 {
      LeftWinding(h);
      assert CubeFaces[2] == LeftFace && CubeNormals[2] == Vec3(-1, 0, 0);
    } else if f == 3 {
      RightWinding(h);
      assert CubeFaces[3] == RightFace && CubeNormals[3] == Vec3(1, 0, 0);
    } else if f == 4 {
      TopWinding(h);
      assert CubeFaces[4] == TopFace && CubeNormals[4] == Vec3(0, 1, 0);
    } else {
      BottomWinding(h);
      assert CubeFaces[5] == BottomFace && CubeNormals[5] == Vec3(0, -1, 0);
    }
  }

  lemma FrontWinding(h: nat)
    requires h < 2
    ensures QuadShaped(FrontFace) && FaceWinding(FrontFace, Vec3(0, 0, 1), h) == 4
  {
    assert RowAttribute(FrontFace[0], PositionOffset) == Vec3(-1, -1, 1);
    assert RowAttribute(FrontFace[1], PositionOffset) == Vec3(1, -1, 1);
    assert RowAttribute(FrontFace[2], PositionOffset) == Vec3(1, 1, 1);
    assert RowAttribute(FrontFace[3], PositionOffset) == Vec3(-1, 1, 1);
    assert Orientation(Vec3(-1, -1, 1), Vec3(1, -1, 1), Vec3(1, 1, 1), Vec3(0, 0, 1)) == 4;
    assert Orientation(Vec3(-1, -1, 1), Vec3(1, 1, 1), Vec3(-1, 1, 1), Vec3(0, 0, 1)) == 4;
  }

  lemma BackWinding(h: nat)
    requires h < 2
    ensures QuadShaped(BackFace) && FaceWinding(BackFace, Vec3(0, 0, -1), h) == 4
  {
    assert RowAttribute(BackFace[0], PositionOffset) == Vec3(-1, -1, -1);
    assert RowAttribute(BackFace[1], PositionOffset) == Vec3(-1, 1, -1);
    assert RowAttribute(BackFace[2], PositionOffset) == Vec3(1, 1, -1);
    assert RowAttribute(BackFace[3], PositionOffset) == Vec3(1, -1, -1);
    assert Orientation(Vec3(-1, -1, -1), Vec3(-1, 1, -1), Vec3(1, 1, -1), Vec3(0, 0, -1)) == 4;
    assert Orientation(Vec3(-1, -1, -1), Vec3(1, 1, -1), Vec3(1, -1, -1), Vec3(0, 0, -1)) == 4;
  }

  lemma LeftWinding(h: nat)
    requires h < 2
    ensures QuadShaped(LeftFace) && FaceWinding(LeftFace, Vec3(-1, 0, 0), h) == 4
  {
    assert RowAttribute(LeftFace[0], PositionOffset) == Vec3(-1, -1, -1);
    assert RowAttribute(LeftFace[1], PositionOffset) == Vec3(-1, -1, 1);
    assert RowAttribute(LeftFace[2], PositionOffset) == Vec3(-1, 1, 1);
    assert RowAttribute(LeftFace[3], PositionOffset) == Vec3(-1, 1, -1);
    assert Orientation(Vec3(-1, -1, -1), Vec3(-1, -1, 1), Vec3(-1, 1, 1), Vec3(-1, 0, 0)) == 4;
    assert Orientation(Vec3(-1, -1, -1), Vec3(-1, 1, 1), Vec3(-1, 1, -1), Vec3(-1, 0, 0)) == 4;
  }

  lemma RightWinding(h: nat)
    requires h < 2
    ensures QuadShaped(RightFace) && FaceWinding(RightFace, Vec3(1, 0, 0), h) == 4
  {
    assert RowAttribute(RightFace[0], PositionOffset) == Vec3(1, -1, -1);
    assert RowAttribute(RightFace[1], PositionOffset) == Vec3(1, 1, -1);
    assert RowAttribute(RightFace[2], PositionOffset) == Vec3(1, 1, 1);
    assert RowAttribute(RightFace[3], PositionOffset) == Vec3(1, -1, 1);
    assert Orientation(Vec3(1, -1, -1), Vec3(1, 1, -1), Vec3(1, 1, 1), Vec3(1, 0, 0)) == 4;
    assert Orientation(Vec3(1, -1, -1), Vec3(1, 1, 1), Vec3(1, -1, 1), Vec3(1, 0, 0)) == 4;
  }

  lemma TopWinding(h: nat)
    requires h < 2
    ensures QuadShaped(TopFace) && FaceWinding(TopFace, Vec3(0, 1, 0), h) == -4
  {
    assert RowAttribute(TopFace[0], PositionOffset) == Vec3(-1, 1, -1);
    assert RowAttribute(TopFace[1], PositionOffset) == Vec3(1, 1, -1);
    assert RowAttribute(TopFace[2], PositionOffset) == Vec3(1, 1, 1);
    assert RowAttribute(TopFace[3], PositionOffset) == Vec3(-1, 1, 1);
    assert Orientation(Vec3(-1, 1, -1), Vec3(1, 1, -1), Vec3(1, 1, 1), Vec3(0, 1, 0)) == -4;
    assert Orientation(Vec3(-1, 1, -1), Vec3(1, 1, 1), Vec3(-1, 1, 1), Vec3(0, 1, 0)) == -4;
  }

  lemma BottomWinding(h: nat)
    requires h < 2
    ensures QuadShaped(BottomFace) && FaceWinding(BottomFace, Vec3(0, -1, 0), h) == -4
  {
    assert RowAttribute(BottomFace[0], PositionOffset) == Vec3(-1, -1, -1);
    assert RowAttribute(BottomFace[1], PositionOffset) == Vec3(-1, -1, 1);
    assert RowAttribute(BottomFace[2], PositionOffset) == Vec3(1, -1, 1);
    assert RowAttribute(BottomFace[3], PositionOffset) == Vec3(1, -1, -1);
    assert Orientation(Vec3(-1, -1, -1), Vec3(-1, -1, 1), Vec3(1, -1, 1), Vec3(0, -1, 0)) == -4;
    assert Orientation(Vec3(-1, -1, -1), Vec3(1, -1, 1), Vec3(1, -1, -1), Vec3(0, -1, 0)) == -4;
  }
}
