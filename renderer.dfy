/** The decision logic of the OpenGL renderer (src/engine/renderer/renderer.cpp):
    the choice of data-upload and mipmap-generation techniques from the OpenGL
    version and the extensions, the light slots, the column-major matrix handed
    to OpenGL, the vertex-array branches of model upload and deletion, and the
    text listing of cameras, meshes and lights.

    The OpenGL, GLU and GLEW calls are not modelled: a call whose argument
    matters is returned as a value, and what OpenGL answers (a generated buffer
    id, whether an extension is supported) is a parameter. */
module Rendering {
  import V = Vectors
  import K = Kernel

  /** data_upload_t: vertex arrays (OpenGL 1.1), buffer objects through the
      ARB extension, or core buffer objects (OpenGL 1.5). */
  datatype DataUpload = VertexArray | VertexBufferObjectExt | VertexBufferObject

  /** mipmap_generation_t: GLU (OpenGL 1.0), the SGIS extension, or the core
      texture parameter (OpenGL 1.4). */
  datatype MipmapGeneration = Glu | TexParameterExt | TexParameter

  // ---------------------------------------------------------------------------
  // Technique selection

  /** The versions (ten times the OpenGL version, rounded) whose case in the
      constructor's switch selects core buffer objects. */
  predicate CoreBufferObjects(version: int) {
    version in {15, 20, 21, 30, 31, 32, 33, 40, 41, 42, 43}
  }

  /** The versions whose case reaches the selection of the core mipmap texture
      parameter: 1.4, and every version above it that falls through into it. */
  predicate CoreMipmapParameter(version: int) {
    version == 14 || CoreBufferObjects(version)
  }

  /** The versions the switch knows; any other version is reported as
      unsupported and keeps the defaults. */
  predicate KnownVersion(version: int) {
    CoreMipmapParameter(version) || version in {11, 12, 13}
  }

  /** The data-upload technique in use after the constructor: core buffer
      objects when the version has them, else the ARB extension when it is
      supported, else vertex arrays. */
  function DataUploadFor(version: int, hasVertexBufferObjectArb: bool): DataUpload {
    if CoreBufferObjects(version) then VertexBufferObject
    else if hasVertexBufferObjectArb then VertexBufferObjectExt
    else VertexArray
  }

  /** The mipmap technique in use after the constructor, decided likewise. */
  function MipmapFor(version: int, hasGenerateMipmapSgis: bool): MipmapGeneration {
    if CoreMipmapParameter(version) then TexParameter
    else if hasGenerateMipmapSgis then TexParameterExt
    else Glu
  }

  /** Vertex arrays are used exactly when neither the version nor the ARB
      extension provides buffer objects. */
  lemma VertexArrayIsLastResort(version: int, hasVertexBufferObjectArb: bool)
    ensures DataUploadFor(version, hasVertexBufferObjectArb).VertexArray?
        <==> !CoreBufferObjects(version) && !hasVertexBufferObjectArb
  {
  }

  /** The extension is used only when the version lacks core buffer objects:
      a supported extension never replaces the core technique. */
  lemma ExtensionOnlyAsFallback(version: int, hasVertexBufferObjectArb: bool)
    ensures DataUploadFor(version, hasVertexBufferObjectArb).VertexBufferObjectExt?
        <==> !CoreBufferObjects(version) && hasVertexBufferObjectArb
  {
  }

  /** GLU builds the mipmaps exactly when neither the version nor the SGIS
      extension lets the texture parameter do it. */
  lemma GluIsLastResort(version: int, hasGenerateMipmapSgis: bool)
    ensures MipmapFor(version, hasGenerateMipmapSgis).Glu?
        <==> !CoreMipmapParameter(version) && !hasGenerateMipmapSgis
  {
  }

  /** Through the fall-through into case 14, every version with core buffer
      objects also generates mipmaps with the core texture parameter. */
  lemma BufferObjectsImplyMipmapParameter(version: int, hasVertexBufferObjectArb: bool, hasGenerateMipmapSgis: bool)
    requires DataUploadFor(version, hasVertexBufferObjectArb).VertexBufferObject?
    ensures MipmapFor(version, hasGenerateMipmapSgis).TexParameter?
  {
  }

  /** OpenGL 1.4 has the core mipmap parameter but not core buffer objects. */
  lemma Version14(hasVertexBufferObjectArb: bool, hasGenerateMipmapSgis: bool)
    ensures !DataUploadFor(14, hasVertexBufferObjectArb).VertexBufferObject?
    ensures MipmapFor(14, hasGenerateMipmapSgis).TexParameter?
  {
  }

  /** A version the switch does not know (such as 4.4 or later) is treated
      like OpenGL 1.1. */
  lemma UnknownVersionAsLegacy(version: int, hasVertexBufferObjectArb: bool, hasGenerateMipmapSgis: bool)
    requires !KnownVersion(version)
    ensures DataUploadFor(version, hasVertexBufferObjectArb) == DataUploadFor(11, hasVertexBufferObjectArb)
    ensures MipmapFor(version, hasGenerateMipmapSgis) == MipmapFor(11, hasGenerateMipmapSgis)
  {
  }

  /** The globals gDataUploadMode and gMipMapGenerationMode. */
  class Techniques {
    var dataUploadMode: DataUpload
    var mipMapGenerationMode: MipmapGeneration

    /** Their static initial values. */
    constructor ()
      ensures dataUploadMode == VertexArray && mipMapGenerationMode == Glu
    {
      dataUploadMode := VertexArray;
      mipMapGenerationMode := Glu;
    }

    /** The technique selection in Renderer::Renderer: reset to the defaults,
      the version switch (cases 4.3 down to 1.5 fall through into 1.4), then
      the upgrades to the ARB and SGIS extensions where the version left the
      oldest technique.  openGLVersion is the rounded version times ten. */
    method Select(openGLVersion: int, hasVertexBufferObjectArb: bool, hasGenerateMipmapSgis: bool)
      modifies this
      ensures dataUploadMode == DataUploadFor(openGLVersion, hasVertexBufferObjectArb)
      ensures mipMapGenerationMode == MipmapFor(openGLVersion, hasGenerateMipmapSgis)
    {
      dataUploadMode := VertexArray;
      mipMapGenerationMode := Glu;

      var reachesCase14 := false;
      if openGLVersion in {43, 42, 41, 40, 33, 32, 31, 30, 21, 20, 15} {
        dataUploadMode := VertexBufferObject;
        reachesCase14 := true;
      }
      if reachesCase14 || openGLVersion == 14 {
        mipMapGenerationMode := TexParameter;
      } else if openGLVersion in {13, 12, 11} {
        dataUploadMode := VertexArray;
        mipMapGenerationMode := Glu;
      }

      if dataUploadMode == VertexArray && hasVertexBufferObjectArb {
        dataUploadMode := VertexBufferObjectExt;
      }
      if mipMapGenerationMode == Glu && hasGenerateMipmapSgis {
        mipMapGenerationMode := TexParameterExt;
      }
    }
  }

  // ---------------------------------------------------------------------------
  // Light slots

  /** The n of GL_LIGHTn given to the i-th light: the first seven get slots 0
      to 6 and every later light slot 7. */
  function LightSlot(i: nat): (n: nat)
    ensures n <= 7
    ensures i <= 7 ==> n == i
    ensures 7 <= i ==> n == 7
  {
    match i
    case 0 => 0
    case 1 => 1
    case 2 => 2
    case 3 => 3
    case 4 => 4
    case 5 => 5
    case 6 => 6
    case _ => 7
  }

  /** The first eight lights have slots of their own. */
  lemma FirstEightSlotsDistinct(i: nat, j: nat)
    requires i < j <= 7
    ensures LightSlot(i) != LightSlot(j)
  {
  }

  /** The light whose settings a slot holds after the slots were assigned to
      lights 0 .. count - 1 in order: the last one given that slot. */
  function SlotOccupant(count: nat, n: nat): (r: K.Option<nat>)
    ensures r.Some? ==> r.value < count && LightSlot(r.value) == n
  {
    if count == 0 then K.None
    else if LightSlot(count - 1) == n then K.Some(count - 1)
    else SlotOccupant(count - 1, n)
  }

  /** Slots 0 to 6 hold the light of that index; slot 7 holds the last light
      once there are eight or more, so the lights from the eighth on overwrite
      one another there and only the last shows. */
  lemma {:induction false} SlotOccupants(count: nat, n: nat)
    ensures SlotOccupant(count, n).Some? <==> (n < 7 && n < count) || (n == 7 && 8 <= count)
    ensures n < 7 && n < count ==> SlotOccupant(count, n).value == n
    ensures n == 7 && 8 <= count ==> SlotOccupant(count, n).value == count - 1
  {
    if count > 0 && LightSlot(count - 1) != n {
      SlotOccupants(count - 1, n);
    }
  }

  /** A light: its description, its ambient, diffuse and specular colours as
      handed to glLightfv, and the entity whose absolute position places it. */
  datatype Light = Light(description: string, ambient: seq<real>, diffuse: seq<real>, specular: seq<real>, entity: K.Entity)

  /** The calls initLighting makes for one light: glEnable of the slot and
      glLightfv of the three colours on it. */
  datatype LightSetup = LightSetup(slot: nat, ambient: seq<real>, diffuse: seq<real>, specular: seq<real>)

  /** The GL_POSITION vector displayLegacyLights hands to OpenGL: the absolute
      position with w = 1, a positional light. */
  function LightPosition(position: V.Vector3): (r: seq<real>)
    ensures |r| == 4 && r[3] == 1.0
    ensures forall i | 0 <= i < 3 :: r[i] == V.Get(position, i)
  {
    [position.x, position.y, position.z, 1.0]
  }

  // ---------------------------------------------------------------------------
  // setOpenGLMatrix

  /** A 3x3 matrix by rows.  Matrix3x3(rot), the rotation matrix of a
      quaternion, is Bullet's and is not part of this model. */
  datatype Matrix3x3 = Matrix3x3(row0: V.Vector3, row1: V.Vector3, row2: V.Vector3)

  function Row(m: Matrix3x3, r: int): V.Vector3
    requires 0 <= r < 3
  {
    if r == 0 then m.row0 else if r == 1 then m.row1 else m.row2
  }

  /** Column c of the stored matrix: the c-th components of the three rows,
      then 0. */
  function Column(rotation: Matrix3x3, c: int): seq<real>
    requires 0 <= c < 3
  {
    [V.Get(rotation.row0, c), V.Get(rotation.row1, c), V.Get(rotation.row2, c), 0.0]
  }

  /** The 4x4 matrix with rotation part rotation and translation pos, as the
      sequence of its columns, the layout OpenGL reads. */
  function OpenGLMatrix(rotation: Matrix3x3, pos: V.Vector3): (m: seq<real>)
    ensures |m| == 16
  {
    Column(rotation, 0) + Column(rotation, 1) + Column(rotation, 2) + [pos.x, pos.y, pos.z, 1.0]
  }

  /** Element (r, c) of the matrix is stored at index 4 c + r: the rotation in
      the upper-left 3x3 block, the translation in the last column, and
      (0, 0, 0, 1) as the bottom row. */
  lemma OpenGLMatrixLayout(rotation: Matrix3x3, pos: V.Vector3)
    ensures forall r, c | 0 <= r < 3 && 0 <= c < 3 ::
      OpenGLMatrix(rotation, pos)[4 * c + r] == V.Get(Row(rotation, r), c)
    ensures forall r | 0 <= r < 3 :: OpenGLMatrix(rotation, pos)[12 + r] == V.Get(pos, r)
    ensures OpenGLMatrix(rotation, pos)[3] == 0.0 && OpenGLMatrix(rotation, pos)[7] == 0.0
    ensures OpenGLMatrix(rotation, pos)[11] == 0.0 && OpenGLMatrix(rotation, pos)[15] == 1.0
  {
    var m := OpenGLMatrix(rotation, pos);
    forall r, c | 0 <= r < 3 && 0 <= c < 3
      ensures m[4 * c + r] == V.Get(Row(rotation, r), c)
    {
      assert m[4 * c + r] == Column(rotation, c)[r] by {
        if c == 0 {
          assert m[..4] == Column(rotation, 0);
        } else if c == 1 {
          assert m[4..8] == Column(rotation, 1);
        } else {
          assert m[8..12] == Column(rotation, 2);
        }
      }
    }
    assert m[12..] == [pos.x, pos.y, pos.z, 1.0];
  }

  /** The stored matrix maps the point p, as (p, 1), to rotation p + pos,
      again with w = 1: the rotation is applied first, then the translation. */
  lemma OpenGLMatrixTransformsPoints(rotation: Matrix3x3, pos: V.Vector3, p: V.Vector3, r: int)
    requires 0 <= r < 3
    ensures var m := OpenGLMatrix(rotation, pos);
      m[r] * p.x + m[4 + r] * p.y + m[8 + r] * p.z + m[12 + r] == V.Dot(Row(rotation, r), p) + V.Get(pos, r)
    ensures var m := OpenGLMatrix(rotation, pos);
      m[3] * p.x + m[7] * p.y + m[11] * p.z + m[15] == 1.0
  {
    var m := OpenGLMatrix(rotation, pos);
    OpenGLMatrixLayout(rotation, pos);
    assert m[r] == V.Get(Row(rotation, r), 0);
    assert m[4 + r] == V.Get(Row(rotation, r), 1);
    assert m[8 + r] == V.Get(Row(rotation, r), 2);
  }

  /** The first sixteen elements are the four columns one after the other. */
  lemma SplitIntoColumns(s: seq<real>)
    requires 16 <= |s|
    ensures s[..16] == s[..4] + s[4..8] + s[8..12] + s[12..16]
  {
    assert s[..8] == s[..4] + s[4..8];
    assert s[..12] == s[..8] + s[8..12];
    assert s[..16] == s[..12] + s[12..16];
  }

  // ---------------------------------------------------------------------------
  // listsToString

  /** A camera, compared by identity as the renderer compares addresses. */
  class Camera {
    const description: string

    constructor (description: string)
      ensures this.description == description
    {
      this.description := description;
    }
  }

  /** One line of the camera list: the description indented by two spaces,
      marked with " *" for the active camera. */
  function CameraLine(c: Camera, active: Camera?): string {
    "  " + c.description + (if c == active then " *" else "") + "\n"
  }

  function CameraLines(cameras: seq<Camera>, active: Camera?): string {
    if cameras == [] then ""
    else CameraLines(cameras[..|cameras| - 1], active) + CameraLine(cameras[|cameras| - 1], active)
  }

  function DescriptionLines(descriptions: seq<string>): string {
    if descriptions == [] then ""
    else DescriptionLines(descriptions[..|descriptions| - 1]) + "  " + descriptions[|descriptions| - 1] + "\n"
  }

  function LightDescriptions(lights: seq<Light>): (r: seq<string>)
    ensures |r| == |lights|
    ensures forall k | 0 <= k < |lights| :: r[k] == lights[k].description
  {
    seq(|lights|, k requires 0 <= k < |lights| => lights[k].description)
  }

  const CAMERAS_HEADER := "Renderer Cameras List:\n"
  const MESHES_HEADER := "Renderer Meshes List:\n"
  const LIGHTS_HEADER := "Lights List:\n"

  /** The text listsToString returns. */
  function ListsText(cameras: seq<Camera>, active: Camera?, meshes: seq<string>, lights: seq<string>): string {
    CAMERAS_HEADER + CameraLines(cameras, active)
      + MESHES_HEADER + DescriptionLines(meshes)
      + LIGHTS_HEADER + DescriptionLines(lights)
  }

  /** A camera line carries the mark exactly when its camera is the active one:
      after the indentation and the description comes " *\n" for it and "\n"
      for every other camera. */
  lemma CameraLineMarked(c: Camera, active: Camera?)
    ensures CameraLine(c, active)[..|c.description| + 2] == "  " + c.description
    ensures CameraLine(c, active)[|c.description| + 2..] == " *\n" <==> c == active
  {
    var line := CameraLine(c, active);
    var tail := if c == active then " *\n" else "\n";
    assert line == ("  " + c.description) + tail;
    assert line[|c.description| + 2..] == tail;
  }

  /** The camera list is the lines of its cameras one after the other. */
  lemma {:induction false} CameraLinesAppend(first: seq<Camera>, second: seq<Camera>, active: Camera?)
    ensures CameraLines(first + second, active) == CameraLines(first, active) + CameraLines(second, active)
    decreases |second|
  {
    if second == [] {
      assert first + second == first;
    } else {
      var init := second[..|second| - 1];
      var last := second[|second| - 1];
      assert (first + second)[..|first + second| - 1] == first + init;
      CameraLinesAppend(first, init, active);
    }
  }

  /** The camera line of c carries the " *" mark. */
  predicate Marked(c: Camera, active: Camera?) {
    CameraLine(c, active)[|c.description| + 2..] == " *\n"
  }

  /** Since the cameras form a set, exactly one line of the listing is marked
      when the active camera is among them and none otherwise. */
  lemma ActiveMarkedOnce(cameras: seq<Camera>, active: Camera?)
    requires forall i, j | 0 <= i < j < |cameras| :: cameras[i] != cameras[j]
    ensures |set k | 0 <= k < |cameras| && Marked(cameras[k], active)| == if active in cameras then 1 else 0
  {
    forall k | 0 <= k < |cameras|
      ensures Marked(cameras[k], active) <==> cameras[k] == active
    {
      CameraLineMarked(cameras[k], active);
    }
    var marked := set k | 0 <= k < |cameras| && Marked(cameras[k], active);
    if active in cameras {
      var i :| 0 <= i < |cameras| && cameras[i] == active;
      assert marked == {i};
    } else {
      assert marked == {};
    }
  }

  lemma CameraLinesSnoc(cameras: seq<Camera>, i: int, active: Camera?)
    requires 0 <= i < |cameras|
    ensures CameraLines(cameras[..i + 1], active) == CameraLines(cameras[..i], active) + CameraLine(cameras[i], active)
  {
    assert cameras[..i + 1][..i] == cameras[..i];
  }

  lemma DescriptionLinesSnoc(descriptions: seq<string>, i: int)
    requires 0 <= i < |descriptions|
    ensures DescriptionLines(descriptions[..i + 1]) == DescriptionLines(descriptions[..i]) + ("  " + descriptions[i] + "\n")
  {
    assert descriptions[..i + 1][..i] == descriptions[..i];
  }

  /** The loops over m_model and m_lights in listsToString: each description
      on a line of its own, indented by two spaces. */
  method ListDescriptions(descriptions: seq<string>) returns (s: string)
    ensures s == DescriptionLines(descriptions)
  {
    s := "";
    var j := 0;
    while j < |descriptions|
      invariant 0 <= j <= |descriptions|
      invariant s == DescriptionLines(descriptions[..j])
    {
      DescriptionLinesSnoc(descriptions, j);
      s := s + ("  " + descriptions[j] + "\n");
      j := j + 1;
    }
    assert descriptions[..j] == descriptions;
  }

  // ---------------------------------------------------------------------------
  // Renderer

  class Renderer {
    const techniques: Techniques
    var activeCamera: Camera?
    /** m_cameras, m_model (by description) and m_lights, in iteration order. */
    var cameras: seq<Camera>
    var meshes: seq<string>
    var lights: seq<Light>

    /** Renderer(): no active camera, no cameras, lights or meshes, and the
      techniques selected for the driver's version and extensions. */
    constructor (techniques: Techniques, openGLVersion: int, hasVertexBufferObjectArb: bool, hasGenerateMipmapSgis: bool)
      modifies techniques
      ensures this.techniques == techniques
      ensures activeCamera == null && cameras == [] && meshes == [] && lights == []
      ensures techniques.dataUploadMode == DataUploadFor(openGLVersion, hasVertexBufferObjectArb)
      ensures techniques.mipMapGenerationMode == MipmapFor(openGLVersion, hasGenerateMipmapSgis)
    {
      this.techniques := techniques;
      activeCamera := null;
      cameras := [];
      meshes := [];
      lights := [];
      new;
      techniques.Select(openGLVersion, hasVertexBufferObjectArb, hasGenerateMipmapSgis);
    }

    /** initLighting: for the i-th light, its slot is enabled and given the
      light's three colours. */
    method InitLighting() returns (setups: seq<LightSetup>)
      ensures |setups| == |lights|
      ensures forall k | 0 <= k < |lights| ::
        setups[k] == LightSetup(LightSlot(k), lights[k].ambient, lights[k].diffuse, lights[k].specular)
    {
      setups := [];
      var i := 0;
      while i < |lights|
        invariant 0 <= i <= |lights|
        invariant |setups| == i
        invariant forall k | 0 <= k < i ::
          setups[k] == LightSetup(LightSlot(k), lights[k].ambient, lights[k].diffuse, lights[k].specular)
      {
        var slot := LightSlot(i);
        setups := setups + [LightSetup(slot, lights[i].ambient, lights[i].diffuse, lights[i].specular)];
        i := i + 1;
      }
    }

    /** displayLegacyLights: for the i-th light, the GL_POSITION of its slot is
      the absolute position of the light's entity, with w = 1. */
    method DisplayLegacyLights() returns (positions: seq<(nat, seq<real>)>)
      ensures |positions| == |lights|
      ensures forall k | 0 <= k < |lights| ::
        positions[k].0 == LightSlot(k) && positions[k].1 == LightPosition(lights[k].entity.positionAbs)
    {
      positions := [];
      var i := 0;
      while i < |lights|
        invariant 0 <= i <= |lights|
        invariant |positions| == i
        invariant forall k | 0 <= k < i ::
          positions[k].0 == LightSlot(k) && positions[k].1 == LightPosition(lights[k].entity.positionAbs)
      {
        var pos := lights[i].entity.positionAbs;
        positions := positions + [(LightSlot(i), [pos.x, pos.y, pos.z, 1.0])];
        i := i + 1;
      }
    }

    /** setOpenGLMatrix: writes the column-major 4x4 matrix with the rows of
      rotation (Matrix3x3(rot)) and the translation pos into m[0 .. 16], one
      column after the other. */
    method SetOpenGLMatrix(m: array<real>, pos: V.Vector3, rotation: Matrix3x3)
      requires 16 <= m.Length
      modifies m
      ensures m[..16] == OpenGLMatrix(rotation, pos)
      ensures m[16..] == old(m[16..])
    {
      StoreColumn(m, 0, rotation.row0.x, rotation.row1.x, rotation.row2.x, 0.0);
      StoreColumn(m, 1, rotation.row0.y, rotation.row1.y, rotation.row2.y, 0.0);
      StoreColumn(m, 2, rotation.row0.z, rotation.row1.z, rotation.row2.z, 0.0);
      StoreColumn(m, 3, pos.x, pos.y, pos.z, 1.0);
      assert m[..4] == Column(rotation, 0);
      assert m[4..8] == Column(rotation, 1);
      assert m[8..12] == Column(rotation, 2);
      assert m[12..16] == [pos.x, pos.y, pos.z, 1.0];
      SplitIntoColumns(m[..]);
    }

    /** Four consecutive stores of setOpenGLMatrix: column c of the matrix. */
    method StoreColumn(m: array<real>, c: int, a: real, b: real, d: real, e: real)
      requires 0 <= c && 4 * c + 4 <= m.Length
      modifies m
      ensures m[4 * c..4 * c + 4] == [a, b, d, e]
      ensures forall i | 0 <= i < m.Length && !(4 * c <= i < 4 * c + 4) :: m[i] == old(m[i])
    {
      m[4 * c] := a;
      m[4 * c + 1] := b;
      m[4 * c + 2] := d;
      m[4 * c + 3] := e;
    }

    /** uploadModel: with vertex arrays nothing is uploaded and both ids are
      left as they were; with buffer objects each id becomes the one OpenGL
      generated for it (generatedMeshId, generatedIndicesId). */
    method UploadModel(meshId: nat, indicesId: nat, generatedMeshId: nat, generatedIndicesId: nat)
      returns (newMeshId: nat, newIndicesId: nat)
      ensures techniques.dataUploadMode.VertexArray? ==> newMeshId == meshId && newIndicesId == indicesId
      ensures !techniques.dataUploadMode.VertexArray? ==>
        newMeshId == generatedMeshId && newIndicesId == generatedIndicesId
    {
      match techniques.dataUploadMode
      case VertexBufferObject =>
        newMeshId, newIndicesId := generatedMeshId, generatedIndicesId;
      case VertexBufferObjectExt =>
        newMeshId, newIndicesId := generatedMeshId, generatedIndicesId;
      case VertexArray =>
        newMeshId, newIndicesId := meshId, indicesId;
    }

    /** deleteModel: the buffers handed to OpenGL for deletion; none with
      vertex arrays, the mesh and the indices buffers otherwise. */
    method DeleteModel(meshId: nat, indicesId: nat) returns (deleted: seq<nat>)
      ensures techniques.dataUploadMode.VertexArray? <==> deleted == []
      ensures !techniques.dataUploadMode.VertexArray? ==> deleted == [meshId, indicesId]
    {
      match techniques.dataUploadMode
      case VertexBufferObject =>
        deleted := [meshId, indicesId];
      case VertexBufferObjectExt =>
        deleted := [meshId, indicesId];
      case VertexArray =>
        deleted := [];
    }

    /** listsToString: the camera list with the active camera marked, then the
      mesh list and the light list. */
    method ListsToString() returns (s: string)
      ensures s == ListsText(cameras, activeCamera, meshes, LightDescriptions(lights))
    {
      var cameraLines := ListCameras();
      var meshLines := ListDescriptions(meshes);
      var lightLines := ListDescriptions(LightDescriptions(lights));
      s := CAMERAS_HEADER + cameraLines + MESHES_HEADER + meshLines + LIGHTS_HEADER + lightLines;
    }

    /** The loop over m_cameras in listsToString: each description indented,
      the active camera's followed by " *". */
    method ListCameras() returns (s: string)
      ensures s == CameraLines(cameras, activeCamera)
    {
      s := "";
      var i := 0;
      while i < |cameras|
        invariant 0 <= i <= |cameras|
        invariant s == CameraLines(cameras[..i], activeCamera)
      {
        var line := "  " + cameras[i].description;
        if cameras[i] == activeCamera {
          line := line + " *";
        }
        line := line + "\n";
        CameraLinesSnoc(cameras, i, activeCamera);
        s := s + line;
        i := i + 1;
      }
      assert cameras[..i] == cameras;
    }
  }
}
