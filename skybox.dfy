/** The skybox of SkyBox.h and skybox.cpp: the constant cube tables, the sizes
    handed to glBufferData and glDrawElements, and the loop that loads the six
    cubemap faces. Matrices, depth state and texture parameters are GL state and
    are not modelled. */
module SkyBoxModel {
  import opened Glm
  import opened Wrappers

  /** vertices_SkyBox, one Vec3 per row: 24 vertices, four per face
      (front, back, right, left, top, bottom). */
  const SkyBoxRows: seq<Vec3> := [
    Vec3(-0.5,  0.5,  0.5), Vec3(-0.5, -0.5,  0.5), Vec3( 0.5, -0.5,  0.5), Vec3( 0.5,  0.5,  0.5),
    Vec3( 0.5,  0.5, -0.5), Vec3( 0.5, -0.5, -0.5), Vec3(-0.5, -0.5, -0.5), Vec3(-0.5,  0.5, -0.5),
    Vec3( 0.5,  0.5,  0.5), Vec3( 0.5, -0.5,  0.5), Vec3( 0.5, -0.5, -0.5), Vec3( 0.5,  0.5, -0.5),
    Vec3(-0.5,  0.5, -0.5), Vec3(-0.5, -0.5, -0.5), Vec3(-0.5, -0.5,  0.5), Vec3(-0.5,  0.5,  0.5),
    Vec3(-0.5,  0.5, -0.5), Vec3(-0.5,  0.5,  0.5), Vec3( 0.5,  0.5,  0.5), Vec3( 0.5,  0.5, -0.5),
    Vec3(-0.5, -0.5,  0.5), Vec3(-0.5, -0.5, -0.5), Vec3( 0.5, -0.5, -0.5), Vec3( 0.5, -0.5,  0.5)
  ]

  /** indices_SkyBox. */
  const IndicesSkyBox: seq<int> := [
    2, 1, 0,     3, 2, 0,
    6, 5, 4,     7, 6, 4,
    10, 9, 8,    11, 10, 8,
    14, 13, 12,  15, 14, 12,
    18, 17, 16,  19, 18, 16,
    22, 21, 20,  23, 22, 20
  ]

  /** The rows laid out flat, three floats each, as the GLfloat[72] initialiser is. */
  function FlattenRows(rows: seq<Vec3>): (fs: seq<real>)
    ensures |fs| == 3 * |rows|
  {
    if rows == [] then [] else FlattenRows(rows[..|rows| - 1]) + [rows[|rows| - 1].x, rows[|rows| - 1].y, rows[|rows| - 1].z]
  }

  function VerticesSkyBox(): seq<real> { FlattenRows(SkyBoxRows) }

  lemma {:induction false} FlattenRowsAt(rows: seq<Vec3>, v: int)
    requires 0 <= v < |rows|
    ensures FlattenRows(rows)[3 * v] == rows[v].x
    ensures FlattenRows(rows)[3 * v + 1] == rows[v].y
    ensures FlattenRows(rows)[3 * v + 2] == rows[v].z
  {
    var init := rows[..|rows| - 1];
    if v < |rows| - 1 {
      FlattenRowsAt(init, v);
      assert init[v] == rows[v];
    }
  }

  /** Sizes uploaded by the constructor (72 floats, 36 indices) and drawn by Render (36 indices)
      are exactly the sizes of the tables. */
  const UploadedVertexFloats := 72
  const UploadedIndices := 36
  const DrawnIndices := 36

  lemma SkyBoxTableSizes()
    ensures |SkyBoxRows| == 24
    ensures |VerticesSkyBox()| == UploadedVertexFloats
    ensures |IndicesSkyBox| == UploadedIndices == DrawnIndices
  { }

  /** Face k is the two triangles (4k+2, 4k+1, 4k) and (4k+3, 4k+2, 4k). */
  lemma SkyBoxFaceLayout(k: int)
    requires 0 <= k < 6
    ensures IndicesSkyBox[6 * k] == 4 * k + 2 && IndicesSkyBox[6 * k + 1] == 4 * k + 1 && IndicesSkyBox[6 * k + 2] == 4 * k
    ensures IndicesSkyBox[6 * k + 3] == 4 * k + 3 && IndicesSkyBox[6 * k + 4] == 4 * k + 2 && IndicesSkyBox[6 * k + 5] == 4 * k
  {
    SkyBoxFaceLayoutFirst(k);
    SkyBoxFaceLayoutSecond(k);
  }

  /** The first triangle of face k. */
  lemma SkyBoxFaceLayoutFirst(k: int)
    requires 0 <= k < 6
    ensures IndicesSkyBox[6 * k] == 4 * k + 2 && IndicesSkyBox[6 * k + 1] == 4 * k + 1 && IndicesSkyBox[6 * k + 2] == 4 * k
  {
    assert k == 0 || k == 1 || k == 2 || k == 3 || k == 4 || k == 5;
  }

  /** The second triangle of face k. */
  lemma SkyBoxFaceLayoutSecond(k: int)
    requires 0 <= k < 6
    ensures IndicesSkyBox[6 * k + 3] == 4 * k + 3 && IndicesSkyBox[6 * k + 4] == 4 * k + 2 && IndicesSkyBox[6 * k + 5] == 4 * k
  {
    assert k == 0 || k == 1 || k == 2 || k == 3 || k == 4 || k == 5;
  }

  lemma SkyBoxIndicesInRange()
    ensures forall n :: 0 <= n < |IndicesSkyBox| ==> 0 <= IndicesSkyBox[n] < |SkyBoxRows|
  {
    forall n | 0 <= n < |IndicesSkyBox| ensures 0 <= IndicesSkyBox[n] < |SkyBoxRows| {
      SkyBoxFaceLayout(n / 6);
    }
  }

  predicate IsHalf(c: real) { c == 0.5 || c == -0.5 }

  /** The coordinate a face holds fixed: z = +0.5 front, z = -0.5 back, x = +0.5 right,
      x = -0.5 left, y = +0.5 top, y = -0.5 bottom. */
  function FaceCoordinate(k: int, p: Vec3): real
    requires 0 <= k < 6
  {
    if k < 2 then p.z else if k < 4 then p.x else p.y
  }

  function FaceSide(k: int): real
    requires 0 <= k < 6
  {
    if k % 2 == 0 then 0.5 else -0.5
  }

  /** Every coordinate of every vertex is +-0.5, and the four vertices of face k
      share that face's fixed coordinate. */
  lemma SkyBoxFaceRows(k: int, r: int)
    requires 0 <= k < 6 && 0 <= r < 4
    ensures FaceCoordinate(k, SkyBoxRows[4 * k + r]) == FaceSide(k)
    ensures IsHalf(SkyBoxRows[4 * k + r].x) && IsHalf(SkyBoxRows[4 * k + r].y) && IsHalf(SkyBoxRows[4 * k + r].z)
  {
    assert k == 0 || k == 1 || k == 2 || k == 3 || k == 4 || k == 5;
    assert r == 0 || r == 1 || r == 2 || r == 3;
  }

  /** Every float of the flat table is +-0.5. */
  lemma SkyBoxCoordinates()
    ensures forall n :: 0 <= n < |VerticesSkyBox()| ==> IsHalf(VerticesSkyBox()[n])
  {
    forall n | 0 <= n < |VerticesSkyBox()| ensures IsHalf(VerticesSkyBox()[n]) {
      var v, c := n / 3, n % 3;
      assert n == 3 * v + c && 0 <= v < 24;
      FlattenRowsAt(SkyBoxRows, v);
      var k, r := v / 4, v % 4;
      assert v == 4 * k + r;
      SkyBoxFaceRows(k, r);
    }
  }

  // ---- Cubemap faces ----

  const GlTextureCubeMapPositiveX := 0x8515
  const GlRgb := 0x1907
  const GlRgba := 0x1908

  /** TextureFilePaths, in the order the constructor lists them. */
  const TextureFilePaths: seq<string> := [
    "Resources/Textures/CubeMaps/Right.jpg",
    "Resources/Textures/CubeMaps/Left.jpg",
    "Resources/Textures/CubeMaps/Up.jpg",
    "Resources/Textures/CubeMaps/Down.jpg",
    "Resources/Textures/CubeMaps/Back.jpg",
    "Resources/Textures/CubeMaps/Front.jpg"
  ]

  /** What stbi_load reports for an image it could decode. */
  datatype Image = Image(width: int, height: int, components: int)

  /** One glTexImage2D call: target face, format (internal and external), size. */
  datatype FaceUpload = FaceUpload(target: int, format: int, width: int, height: int)

  /** The upload for face i: target GL_TEXTURE_CUBE_MAP_POSITIVE_X + i, RGBA for four components, RGB otherwise. */
  function UploadFor(i: int, img: Image): FaceUpload {
    FaceUpload(GlTextureCubeMapPositiveX + i, if img.components == 4 then GlRgba else GlRgb, img.width, img.height)
  }

  /** The face-load loop of the constructor. The image loader is the parameter
      load (None for a file stbi_load cannot read). The result has one entry per
      face: the upload issued for it, or None when its load failed, which is only
      logged (the indices are returned in failed) and leaves that face without data. */
  method LoadCubeMapFaces(load: string -> Option<Image>) returns (faces: seq<Option<FaceUpload>>, failed: seq<int>)
    ensures |faces| == |TextureFilePaths|
    ensures forall i :: 0 <= i < |faces| ==>
      faces[i] == if load(TextureFilePaths[i]).Some? then Some(UploadFor(i, load(TextureFilePaths[i]).value)) else None
    ensures forall n :: 0 <= n < |failed| ==> 0 <= failed[n] < |TextureFilePaths| && load(TextureFilePaths[failed[n]]).None?
    ensures forall i :: 0 <= i < |TextureFilePaths| && load(TextureFilePaths[i]).None? ==> i in failed
    ensures forall n, m :: 0 <= n < m < |failed| ==> failed[n] < failed[m]
  {
    faces, failed := [], [];
    for i := 0 to 6
      invariant |faces| == i
      invariant forall j :: 0 <= j < i ==>
        faces[j] == if load(TextureFilePaths[j]).Some? then Some(UploadFor(j, load(TextureFilePaths[j]).value)) else None
      invariant forall n :: 0 <= n < |failed| ==> 0 <= failed[n] < i && load(TextureFilePaths[failed[n]]).None?
      invariant forall j :: 0 <= j < i && load(TextureFilePaths[j]).None? ==> j in failed
      invariant forall n, m :: 0 <= n < m < |failed| ==> failed[n] < failed[m]
    {
      var imageData := load(TextureFilePaths[i]);
      if imageData.Some? {
        faces := faces + [Some(UploadFor(i, imageData.value))];
      } else {
        faces := faces + [None];
        failed := failed + [i];
      }
    }
  }

  /** Face i of the path list goes to target +X + i: Right -> +X, Left -> -X, Up -> +Y,
      Down -> -Y, Back -> +Z, Front -> -Z (GL_TEXTURE_CUBE_MAP_POSITIVE_X .. NEGATIVE_Z
      are 0x8515 .. 0x851A). */
  lemma FaceTargets(img: Image)
    ensures UploadFor(0, img).target == 0x8515 && TextureFilePaths[0] == "Resources/Textures/CubeMaps/Right.jpg"
    ensures UploadFor(1, img).target == 0x8516 && TextureFilePaths[1] == "Resources/Textures/CubeMaps/Left.jpg"
    ensures UploadFor(2, img).target == 0x8517 && TextureFilePaths[2] == "Resources/Textures/CubeMaps/Up.jpg"
    ensures UploadFor(3, img).target == 0x8518 && TextureFilePaths[3] == "Resources/Textures/CubeMaps/Down.jpg"
    ensures UploadFor(4, img).target == 0x8519 && TextureFilePaths[4] == "Resources/Textures/CubeMaps/Back.jpg"
    ensures UploadFor(5, img).target == 0x851A && TextureFilePaths[5] == "Resources/Textures/CubeMaps/Front.jpg"
  { }
}
