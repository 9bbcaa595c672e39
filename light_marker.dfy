/** The light-marker cube of LightObj.cpp: the constant tables built by
    SetupLightObj and the Mesh they are handed to. Each marker is drawn with the
    colour of the point light it stands for (see LightRig.RenderLightObjects). */
module LightMarker {
  import opened Glm
  import opened MeshBuffer

  /** A LightObj: constructed from a point light's position and colour. program is
      the handle ShaderLoader::CreateProgram returned for its own shader program
      (Program_Object), which its Render binds; the loader is outside this model, so
      the handle is given. */
  datatype LightObj = LightObj(position: Vec3, color: Vec3, program: nat)

  /** One row of Vertices_Cube: position, texcoord, normal. */
  datatype CubeVertex = CubeVertex(position: Vec3, u: real, v: real, normal: Vec3)

  function V(px: real, py: real, pz: real, u: real, v: real, nx: real, ny: real, nz: real): CubeVertex {
    CubeVertex(Vec3(px, py, pz), u, v, Vec3(nx, ny, nz))
  }

  /** The 24 rows of Vertices_Cube, four per face: front, back, right, left, top, bottom. */
  const CubeRows: seq<CubeVertex> := [
    // front
    V(-1.0,  1.0,  1.0,   0.0, 1.0,   0.0, 0.0, 1.0),
    V(-1.0, -1.0,  1.0,   0.0, 0.0,   0.0, 0.0, 1.0),
    V( 1.0, -1.0,  1.0,   1.0, 0.0,   0.0, 0.0, 1.0),
    V( 1.0,  1.0,  1.0,   1.0, 1.0,   0.0, 0.0, 1.0),
    // back
    V( 1.0,  1.0, -1.0,   0.0, 1.0,   0.0, 0.0, -1.0),
    V( 1.0, -1.0, -1.0,   0.0, 0.0,   0.0, 0.0, -1.0),
    V(-1.0, -1.0, -1.0,   1.0, 0.0,   0.0, 0.0, -1.0),
    V(-1.0,  1.0, -1.0,   1.0, 1.0,   0.0, 0.0, -1.0),
    // right
    V( 1.0,  1.0,  1.0,   0.0, 1.0,   1.0, 0.0, 0.0),
    V( 1.0, -1.0,  1.0,   0.0, 0.0,   1.0, 0.0, 0.0),
    V( 1.0, -1.0, -1.0,   1.0, 0.0,   1.0, 0.0, 0.0),
    V( 1.0,  1.0, -1.0,   1.0, 1.0,   1.0, 0.0, 0.0),
    // left
    V(-1.0,  1.0, -1.0,   0.0, 1.0,   -1.0, 0.0, 0.0),
    V(-1.0, -1.0, -1.0,   0.0, 0.0,   -1.0, 0.0, 0.0),
    V(-1.0, -1.0,  1.0,   1.0, 0.0,   -1.0, 0.0, 0.0),
    V(-1.0,  1.0,  1.0,   1.0, 1.0,   -1.0, 0.0, 0.0),
    // top
    V(-1.0,  1.0, -1.0,   0.0, 1.0,   0.0, 1.0, 0.0),
    V(-1.0,  1.0,  1.0,   0.0, 0.0,   0.0, 1.0, 0.0),
    V( 1.0,  1.0,  1.0,   1.0, 0.0,   0.0, 1.0, 0.0),
    V( 1.0,  1.0, -1.0,   1.0, 1.0,   0.0, 1.0, 0.0),
    // bottom
    V(-1.0, -1.0,  1.0,   0.0, 1.0,   0.0, -1.0, 0.0),
    V(-1.0, -1.0, -1.0,   0.0, 0.0,   0.0, -1.0, 0.0),
    V( 1.0, -1.0, -1.0,   1.0, 0.0,   0.0, -1.0, 0.0),
    V( 1.0, -1.0,  1.0,   1.0, 1.0,   0.0, -1.0, 0.0)
  ]

  /** Indices_Cube. */
  const IndicesCube: seq<int> := [
    0, 1, 2,     0, 2, 3,
    4, 5, 6,     4, 6, 7,
    8, 9, 10,    8, 10, 11,
    12, 13, 14,  12, 14, 15,
    16, 17, 18,  16, 18, 19,
    20, 21, 22,  20, 22, 23
  ]

  function RowFloats(r: CubeVertex): seq<real> {
    [r.position.x, r.position.y, r.position.z, r.u, r.v, r.normal.x, r.normal.y, r.normal.z]
  }

  /** Rows laid out one after another, eight floats each, as the C++ initialiser is. */
  function Flatten(rows: seq<CubeVertex>): (fs: seq<real>)
    ensures |fs| == FloatsPerVertex * |rows|
  {
    if rows == [] then [] else Flatten(rows[..|rows| - 1]) + RowFloats(rows[|rows| - 1])
  }

  /** Float c of row v sits at offset 8v + c of the flat array. */
  lemma {:induction false} FlattenAt(rows: seq<CubeVertex>, v: int, c: int)
    requires 0 <= v < |rows| && 0 <= c < FloatsPerVertex
    ensures Flatten(rows)[FloatsPerVertex * v + c] == RowFloats(rows[v])[c]
  {
    var init := rows[..|rows| - 1];
    if v < |rows| - 1 {
      FlattenAt(init, v, c);
      assert init[v] == rows[v];
    }
  }

  /** The flat Vertices_Cube array. */
  function VerticesCube(): seq<real> { Flatten(CubeRows) }

  predicate IsUnit(c: real) { c == 1.0 || c == -1.0 }

  lemma CubeTableSizes()
    ensures |CubeRows| == 24 && |VerticesCube()| == 192 && |IndicesCube| == 36
  { }

  /** Face k is the two triangles (4k, 4k+1, 4k+2) and (4k, 4k+2, 4k+3). */
  lemma CubeFaceLayout(k: int)
    requires 0 <= k < 6
    ensures IndicesCube[6 * k] == 4 * k && IndicesCube[6 * k + 1] == 4 * k + 1 && IndicesCube[6 * k + 2] == 4 * k + 2
    ensures IndicesCube[6 * k + 3] == 4 * k && IndicesCube[6 * k + 4] == 4 * k + 2 && IndicesCube[6 * k + 5] == 4 * k + 3
  {
    CubeFaceLayoutFirst(k);
    CubeFaceLayoutSecond(k);
  }

  /** The first triangle of face k. */
  lemma CubeFaceLayoutFirst(k: int)
    requires 0 <= k < 6
    ensures IndicesCube[6 * k] == 4 * k && IndicesCube[6 * k + 1] == 4 * k + 1 && IndicesCube[6 * k + 2] == 4 * k + 2
  {
    assert k == 0 || k == 1 || k == 2 || k == 3 || k == 4 || k == 5;
  }

  /** The second triangle of face k. */
  lemma CubeFaceLayoutSecond(k: int)
    requires 0 <= k < 6
    ensures IndicesCube[6 * k + 3] == 4 * k && IndicesCube[6 * k + 4] == 4 * k + 2 && IndicesCube[6 * k + 5] == 4 * k + 3
  {
    assert k == 0 || k == 1 || k == 2 || k == 3 || k == 4 || k == 5;
  }

  /** Every index of Indices_Cube names one of the 24 rows. */
  lemma CubeIndicesInRange()
    ensures forall n :: 0 <= n < |IndicesCube| ==> 0 <= IndicesCube[n] < |CubeRows|
  {
    forall n | 0 <= n < |IndicesCube| ensures 0 <= IndicesCube[n] < |CubeRows| {
      CubeFaceLayout(n / 6);
    }
  }

  /** SetupLightObj's Mesh: sizeof(Vertices_Cube) / sizeof(GLfloat) == 192 floats and
      sizeof(Indices_Cube) / sizeof(GLuint) == 36 indices, every index in range. */
  function SetupLightObj(): (m: Mesh)
    ensures m.vertexCount == 192 && m.indexCount == 36
    ensures m.vertexData == VerticesCube() && m.indexData == IndicesCube
    ensures WellFormed(m)
  {
    CubeIndicesInRange();
    Mesh(VerticesCube(), IndicesCube, |VerticesCube()|, |IndicesCube|)
  }

  /** The four rows of a face share one axis-aligned unit normal, every position
      coordinate is +-1, position . normal == 1 (the face lies in the plane one unit
      out along its normal) and both texcoords are 0 or 1. */
  lemma CubeFaceRows(k: int, r: int)
    requires 0 <= k < 6 && 0 <= r < 4
    ensures CubeRows[4 * k + r].normal == CubeRows[4 * k].normal
    ensures Dot(CubeRows[4 * k].normal, CubeRows[4 * k].normal) == 1.0
    ensures Dot(CubeRows[4 * k + r].position, CubeRows[4 * k + r].normal) == 1.0
    ensures IsUnit(CubeRows[4 * k + r].position.x) && IsUnit(CubeRows[4 * k + r].position.y) && IsUnit(CubeRows[4 * k + r].position.z)
    ensures CubeRows[4 * k + r].u in {0.0, 1.0} && CubeRows[4 * k + r].v in {0.0, 1.0}
  {
    CubeFaceNormal(k, r);
    CubeFaceCorner(k, r);
  }

  /** The shared unit normal of face k, and the plane its rows lie in. */
  lemma CubeFaceNormal(k: int, r: int)
    requires 0 <= k < 6 && 0 <= r < 4
    ensures CubeRows[4 * k + r].normal == CubeRows[4 * k].normal
    ensures Dot(CubeRows[4 * k].normal, CubeRows[4 * k].normal) == 1.0
    ensures Dot(CubeRows[4 * k + r].position, CubeRows[4 * k + r].normal) == 1.0
  {
    assert k == 0 || k == 1 || k == 2 || k == 3 || k == 4 || k == 5;
    assert r == 0 || r == 1 || r == 2 || r == 3;
  }

  /** Row r of face k is a cube corner with texcoords at a corner of the unit square. */
  lemma CubeFaceCorner(k: int, r: int)
    requires 0 <= k < 6 && 0 <= r < 4
    ensures IsUnit(CubeRows[4 * k + r].position.x) && IsUnit(CubeRows[4 * k + r].position.y) && IsUnit(CubeRows[4 * k + r].position.z)
    ensures CubeRows[4 * k + r].u in {0.0, 1.0} && CubeRows[4 * k + r].v in {0.0, 1.0}
  {
    assert k == 0 || k == 1 || k == 2 || k == 3 || k == 4 || k == 5;
    assert r == 0 || r == 1 || r == 2 || r == 3;
  }
}
