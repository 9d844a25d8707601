/**
 * The vocabulary shared by the rendering core: the OpenGL ES constants it uses,
 * plain geometric values, matrices kept as symbolic expressions (the arithmetic
 * itself is not modelled), the slice of driver state the drawables set and restore,
 * and the log of driver calls.
 *
 * The sequence lemmas AppendEmpty, AppendEmptyRight, AppendAssoc, AppendTwo to
 * AppendFive, DrawsNoneOfTwo and DrawsNoneOfFour have no counterpart in the program:
 * they only split the proofs about call logs into steps the verifier takes cheaply.
 */
module Gles {

  // OpenGL ES 2.0 enumerants used by the core.
  const GL_TEXTURE0: int := 0x84C0
  const GL_TEXTURE_2D: int := 0x0DE1
  const GL_FRAMEBUFFER: int := 0x8D40
  const GL_ARRAY_BUFFER: int := 0x8892
  const GL_ELEMENT_ARRAY_BUFFER: int := 0x8893
  const GL_DEPTH_BUFFER_BIT: int := 0x0100
  const GL_POLYGON_OFFSET_FILL: int := 0x8037
  const GL_DEPTH_TEST: int := 0x0B71
  const GL_LESS: int := 0x0201
  const GL_LEQUAL: int := 0x0203
  const GL_GREATER: int := 0x0204
  const GL_TRIANGLE_STRIP: int := 0x0005
  const GL_RGBA: int := 0x1908
  const GL_UNSIGNED_BYTE: int := 0x1401
  const GL_DEPTH_COMPONENT: int := 0x1902
  const GL_UNSIGNED_INT: int := 0x1405

  /** Number of multitexture units whose bindings the draw context caches. */
  const TEXTURE_UNITS: nat := 32

  datatype Vec2 = Vec2(x: real, y: real)
  datatype Vec3 = Vec3(x: real, y: real, z: real)
  datatype Viewport = Viewport(x: int, y: int, width: int, height: int)

  /** An RGBA colour with floating point components. */
  datatype Color = Color(red: real, green: real, blue: real, alpha: real)

  const White: Color := Color(1.0, 1.0, 1.0, 1.0)

  datatype ColorMask = ColorMask(red: bool, green: bool, blue: bool, alpha: bool)

  const AllColorWrites: ColorMask := ColorMask(true, true, true, true)
  const NoColorWrites: ColorMask := ColorMask(false, false, false, false)

  /** The six cube-map view directions of a point sensor. */
  datatype Face = PositiveX | NegativeX | PositiveY | NegativeY | PositiveZ | NegativeZ

  /**
   * A 4x4 matrix as the expression that built it. Every matrix operation of the core
   * is a constructor here, so a matrix value records which operands and parameters
   * were used, without the floating point arithmetic.
   */
  datatype Matrix =
    | Identity
    | Perspective(viewportWidth: real, viewportHeight: real, fieldOfView: real, near: real, far: real)
    | CubeFaceRotation(face: Face)
    | Multiply(left: Matrix, right: Matrix)
    | Translate(m: Matrix, offset: Vec3)
    | Scale(m: Matrix, sx: real, sy: real, sz: real)
    | Rotate(m: Matrix, axisX: real, axisY: real, axisZ: real, degrees: real)
    | InvertOrthonormal(m: Matrix)
    | GeographicToCartesian(latitude: real, longitude: real, altitude: real)
    | CartesianToLocal(latitude: real, longitude: real, altitude: real, altitudeMode: int)
    | TextureBias  // scales by one half and offsets by one half on each axis

  /** The driver state that the drawables change and must restore. */
  datatype GlState = GlState(
    framebuffer: int,
    viewport: Viewport,
    colorMask: ColorMask,
    polygonOffsetFill: bool,
    offsetFactor: real,
    offsetUnits: real,
    depthTest: bool,
    depthFunc: int,
    texCoordArray: bool)  // vertex attribute array 1

  /** Driver state of a freshly created OpenGL ES context. */
  const DefaultGlState: GlState :=
    GlState(0, Viewport(0, 0, 0, 0), AllColorWrites, false, 0.0, 0.0, false, GL_LESS, false)

  /** One call into the driver, or into a collaborator that issues driver calls. */
  datatype Call =
    // issued by the binding cache of the draw context
    | BindFramebuffer(framebuffer: int)
    | UseProgram(program: int)
    | ActiveTexture(unit: int)
    | BindTexture(texture: int)
    | BindBuffer(target: int, buffer: int)
    // issued directly by the drawables
    | SetViewport(viewport: Viewport)
    | Clear(mask: int)
    | SetColorMask(writes: ColorMask)
    | Enable(cap: int)
    | Disable(cap: int)
    | PolygonOffset(factor: real, units: real)
    | DepthFunc(func: int)
    | EnableVertexAttribArray(index: int)
    | DisableVertexAttribArray(index: int)
    | VertexAttribPointer(index: int, size: int)
    | DrawArrays(mode: int, first: int, count: int, state: GlState)
    | DrawElements(mode: int, count: int, state: GlState)
    | ReadPixels(x: int, y: int, width: int, height: int)
    // uniform loads through a shader program
    | LoadRange(range: real)
    | LoadSensorColors(visible: Color, occluded: Color)
    | LoadColor(color: Color)
    | EnablePickMode(enable: bool)
    | EnableTexturing(enable: bool)
    | LoadTexCoordMatrix(texCoordMatrix: Matrix)
    | LoadModelviewProjection(mvp: Matrix)
    | LoadOccludeviewProjection(projection: Matrix, view: Matrix)
    | LoadProjectionMatrices(scene: Matrix, projector: Matrix)
    // a terrain chunk drawing its triangles
    | DrawTerrainTriangles(chunk: nat, state: GlState)
  {
    /** The calls the binding cache issues on behalf of its callers. */
    predicate IsBind() {
      BindFramebuffer? || UseProgram? || ActiveTexture? || BindTexture? || BindBuffer?
    }

    /** Uniform loads: they change program state only, never the driver state tracked here. */
    predicate IsLoad() {
      LoadRange? || LoadSensorColors? || LoadColor? || EnablePickMode? || EnableTexturing? ||
      LoadTexCoordMatrix? || LoadModelviewProjection? || LoadOccludeviewProjection? || LoadProjectionMatrices?
    }

    /** Calls that rasterize something. */
    predicate IsDraw() {
      DrawArrays? || DrawElements? || DrawTerrainTriangles?
    }
  }

  /** The effect of one call on the tracked driver state. */
  function Apply(g: GlState, c: Call): (r: GlState)
    ensures c.IsLoad() || c.IsDraw() ==> r == g
    ensures r.framebuffer == if c.BindFramebuffer? then c.framebuffer else g.framebuffer
  {
    match c
    case BindFramebuffer(id) => g.(framebuffer := id)
    case SetViewport(v) => g.(viewport := v)
    case SetColorMask(m) => g.(colorMask := m)
    case Enable(cap) =>
      if cap == GL_POLYGON_OFFSET_FILL then g.(polygonOffsetFill := true)
      else if cap == GL_DEPTH_TEST then g.(depthTest := true)
      else g
    case Disable(cap) =>
      if cap == GL_POLYGON_OFFSET_FILL then g.(polygonOffsetFill := false)
      else if cap == GL_DEPTH_TEST then g.(depthTest := false)
      else g
    case PolygonOffset(f, u) => g.(offsetFactor := f, offsetUnits := u)
    case DepthFunc(f) => g.(depthFunc := f)
    case EnableVertexAttribArray(i) => if i == 1 then g.(texCoordArray := true) else g
    case DisableVertexAttribArray(i) => if i == 1 then g.(texCoordArray := false) else g
    case _ => g
  }

  lemma AppendEmpty<T>(a: seq<T>)
    ensures [] + a == a
  {
  }

  lemma AppendEmptyRight<T>(a: seq<T>)
    ensures a + [] == a
  {
  }

  lemma AppendAssoc<T>(a: seq<T>, b: seq<T>, c: seq<T>)
    ensures (a + b) + c == a + (b + c)
  {
  }

  /** The driver state after a log of calls has been made from state `g`. */
  function Run(g: GlState, s: seq<Call>): GlState
    decreases s
  {
    if s == [] then g else Run(Apply(g, s[0]), s[1..])
  }

  lemma {:induction false} RunAppend(g: GlState, a: seq<Call>, b: seq<Call>)
    ensures Run(g, a + b) == Run(Run(g, a), b)
    decreases a
  {
    if a == [] {
      assert a + b == b;
    } else {
      assert (a + b)[1..] == a[1..] + b;
      RunAppend(Apply(g, a[0]), a[1..], b);
    }
  }

  lemma RunStep(g: GlState, c: Call, s: seq<Call>)
    ensures Run(g, [c] + s) == Run(Apply(g, c), s)
  {
    assert ([c] + s)[1..] == s;
  }

  lemma RunOne(g: GlState, c: Call)
    ensures Run(g, [c]) == Apply(g, c)
  {
    RunStep(g, c, []);
  }

  /** Appending a short sequence is appending its elements one by one. */
  lemma AppendTwo<T>(before: seq<T>, s: seq<T>)
    requires |s| == 2
    ensures before + s == before + [s[0]] + [s[1]]
  {
  }

  lemma AppendThree<T>(before: seq<T>, s: seq<T>)
    requires |s| == 3
    ensures before + s == before + [s[0]] + [s[1]] + [s[2]]
  {
  }

  lemma AppendFour<T>(before: seq<T>, s: seq<T>)
    requires |s| == 4
    ensures before + s == before + [s[0]] + [s[1]] + [s[2]] + [s[3]]
  {
  }

  lemma AppendFive<T>(before: seq<T>, s: seq<T>)
    requires |s| == 5
    ensures before + s == before + [s[0]] + [s[1]] + [s[2]] + [s[3]] + [s[4]]
  {
  }

  /** The effect of two calls, one after the other. */
  lemma RunTwo(g: GlState, s: seq<Call>)
    requires |s| == 2
    ensures Run(g, s) == Apply(Apply(g, s[0]), s[1])
  {
    assert s == [s[0]] + [s[1]];
    RunStep(g, s[0], [s[1]]);
    RunOne(Apply(g, s[0]), s[1]);
  }

  /** The effect of four calls, one after the other. */
  lemma RunFour(g: GlState, s: seq<Call>)
    requires |s| == 4
    ensures Run(g, s) == Apply(Apply(Apply(Apply(g, s[0]), s[1]), s[2]), s[3])
  {
    assert s == s[..2] + s[2..];
    RunAppend(g, s[..2], s[2..]);
    RunTwo(g, s[..2]);
    RunTwo(Run(g, s[..2]), s[2..]);
  }

  /** Uniform loads and draws leave the driver state as it was. */
  lemma {:induction false} RunOfLoadsAndDraws(g: GlState, s: seq<Call>)
    requires forall i :: 0 <= i < |s| ==> s[i].IsLoad() || s[i].IsDraw()
    ensures Run(g, s) == g
    decreases s
  {
    if s != [] {
      RunOfLoadsAndDraws(g, s[1..]);
    }
  }

  /** The rasterizing calls of a log, in order. */
  function Draws(s: seq<Call>): (r: seq<Call>)
    ensures |r| <= |s|
    ensures forall c :: c in r ==> c in s && c.IsDraw()
  {
    if s == [] then [] else (if s[0].IsDraw() then [s[0]] else []) + Draws(s[1..])
  }

  lemma {:induction false} DrawsAppend(a: seq<Call>, b: seq<Call>)
    ensures Draws(a + b) == Draws(a) + Draws(b)
  {
    if a == [] {
      assert a + b == b;
    } else {
      assert (a + b)[1..] == a[1..] + b;
      DrawsAppend(a[1..], b);
    }
  }

  /** The draws of a concatenation whose parts' draws are known. */
  lemma DrawsOfConcat(a: seq<Call>, b: seq<Call>, da: seq<Call>, db: seq<Call>)
    requires Draws(a) == da && Draws(b) == db
    ensures Draws(a + b) == da + db
  {
    DrawsAppend(a, b);
  }

  /** A log that draws only in its middle part draws what that part draws. */
  lemma DrawsBetween(setup: seq<Call>, loop: seq<Call>, cleanup: seq<Call>, d: seq<Call>)
    requires Draws(setup) == [] && Draws(loop) == d && Draws(cleanup) == []
    ensures Draws(setup + loop + cleanup) == d
  {
    DrawsAppend(setup, loop);
    DrawsAppend(setup + loop, cleanup);
  }

  /** A log without rasterizing calls has no draws. */
  lemma {:induction false} DrawsOfNonDraws(s: seq<Call>)
    requires forall i :: 0 <= i < |s| ==> !s[i].IsDraw()
    ensures Draws(s) == []
  {
    if s != [] {
      DrawsOfNonDraws(s[1..]);
    }
  }

  /** A single call is drawn when it is a draw. */
  lemma DrawsOne(c: Call)
    ensures Draws([c]) == if c.IsDraw() then [c] else []
  {
    assert [c][1..] == [];
  }

  /** Four calls none of which is a draw draw nothing. */
  lemma DrawsNoneOfFour(s: seq<Call>)
    requires |s| == 4 && !s[0].IsDraw() && !s[1].IsDraw() && !s[2].IsDraw() && !s[3].IsDraw()
    ensures Draws(s) == []
  {
    DrawsOfNonDraws(s);
  }

  /** Two calls neither of which is a draw draw nothing. */
  lemma DrawsNoneOfTwo(s: seq<Call>)
    requires |s| == 2 && !s[0].IsDraw() && !s[1].IsDraw()
    ensures Draws(s) == []
  {
    DrawsOfNonDraws(s);
  }

  /** A single draw surrounded by calls that draw nothing is the only draw. */
  lemma DrawsAround(a: seq<Call>, c: Call, b: seq<Call>)
    requires Draws(a) == [] && Draws(b) == [] && c.IsDraw()
    ensures Draws(a + [c] + b) == [c]
  {
    DrawsOne(c);
    DrawsAppend(a, [c]);
    DrawsAppend(a + [c], b);
  }
}
