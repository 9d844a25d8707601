/**
 * The omnidirectional sensor drawable (DrawableOmnidirectionalSensor.java): a
 * cube-map style depth scan. For each of five view directions around the sensor the
 * terrain's depth is captured into the scratch framebuffer (the depth pass), then the
 * terrain is drawn again from the camera, comparing each fragment against the
 * captured depth (the occlusion pass). The driver state the depth pass changes is
 * restored on every exit from it.
 *
 * What the unseen collaborators decide is given as oracles: whether the program
 * builds, whether the scratch framebuffer and its depth texture bind during face i,
 * and whether a terrain chunk's vertex attribute binds during a pass (pass 2*i is the
 * depth pass of face i, pass 2*i + 1 its occlusion pass).
 */
module SensorDrawables {
  import opened Gles
  import opened BindingCache
  import opened Resources
  import opened DrawContexts
  import opened TerrainPasses
  import opened Collaborators

  /**
   * The faces scanned, in order: +X, -X, +Y, -Y, -Z. +Z is left out, since terrain
   * cannot lie above the sensor.
   */
  const CubeMapFaces: seq<Face> := [PositiveX, NegativeX, PositiveY, NegativeY, NegativeZ]

  /** The projection of a face's depth capture: a 90 degree square view from near plane 1 to the sensor's range. */
  function OccludeProjection(range: real): Matrix
  {
    Perspective(1.0, 1.0, 90.0, 1.0, range)
  }

  /** The view of a face: the sensor transform turned toward the face, inverted. */
  function OccludeView(sensorTransform: Matrix, face: Face): Matrix
  {
    InvertOrthonormal(Multiply(sensorTransform, CubeFaceRotation(face)))
  }

  /**
   * The driver state while a face's depth is captured: the scratch framebuffer, a
   * viewport covering its 1024 x 1024 depth attachment, no colour writes and a
   * polygon offset of (4, 2).
   */
  function DepthCaptureState(g: GlState, framebuffer: int): (r: GlState)
    ensures r.framebuffer == framebuffer && r.colorMask == NoColorWrites
    ensures r.polygonOffsetFill && r.offsetFactor == 4.0 && r.offsetUnits == 2.0
    ensures r.depthTest == g.depthTest && r.depthFunc == g.depthFunc && r.texCoordArray == g.texCoordArray
  {
    g.(framebuffer := framebuffer, viewport := Viewport(0, 0, SCRATCH_SIZE, SCRATCH_SIZE),
       colorMask := NoColorWrites, polygonOffsetFill := true, offsetFactor := 4.0, offsetUnits := 2.0)
  }

  /**
   * The ambient state the depth pass restores: the default framebuffer, the draw
   * context's viewport, all colour writes, and polygon offset disabled and zeroed.
   */
  function AmbientState(g: GlState, viewport: Viewport): (r: GlState)
    ensures r.framebuffer == 0 && r.viewport == viewport && r.colorMask == AllColorWrites
    ensures !r.polygonOffsetFill && r.offsetFactor == 0.0 && r.offsetUnits == 0.0
    ensures r.depthTest == g.depthTest && r.depthFunc == g.depthFunc && r.texCoordArray == g.texCoordArray
  {
    g.(framebuffer := 0, viewport := viewport, colorMask := AllColorWrites,
       polygonOffsetFill := false, offsetFactor := 0.0, offsetUnits := 0.0)
  }

  /** The calls that prepare a depth capture, after the framebuffer is bound. */
  const DepthCaptureSetup: seq<Call> := [
    SetViewport(Viewport(0, 0, SCRATCH_SIZE, SCRATCH_SIZE)),
    Clear(GL_DEPTH_BUFFER_BIT),
    SetColorMask(NoColorWrites),
    Enable(GL_POLYGON_OFFSET_FILL),
    PolygonOffset(4.0, 2.0)]

  /** The calls of the depth pass's cleanup, after the default framebuffer is bound again. */
  function RestoreCalls(viewport: Viewport): seq<Call>
  {
    [SetViewport(viewport), SetColorMask(AllColorWrites), Disable(GL_POLYGON_OFFSET_FILL), PolygonOffset(0.0, 0.0)]
  }

  /** The direct calls of a depth pass: the capture when the framebuffer bound, and the cleanup in any case. */
  function DepthPassCalls(chunks: seq<TerrainChunk>, projection: Matrix, view: Matrix, attrib: (nat, nat) -> bool,
                          pass: nat, g: GlState, framebuffer: int, bound: bool, viewport: Viewport): seq<Call>
  {
    (if bound then
       DepthCaptureSetup +
       PassCalls(chunks, SensorDepthUniforms(projection, view), attrib, pass, |chunks|, DepthCaptureState(g, framebuffer))
     else []) +
    RestoreCalls(viewport)
  }

  /** The direct calls of an occlusion pass: the terrain loop when the depth texture bound, nothing otherwise. */
  function OcclusionPassCalls(chunks: seq<TerrainChunk>, mvp: Matrix, projection: Matrix, view: Matrix,
                              attrib: (nat, nat) -> bool, pass: nat, g: GlState, bound: bool): seq<Call>
  {
    if bound then PassCalls(chunks, SensorOcclusionUniforms(mvp, projection, view), attrib, pass, |chunks|, g) else []
  }

  /** What one frame's scan depends on: the drawable, the draw context and the oracles. */
  datatype Scan = Scan(
    chunks: seq<TerrainChunk>,
    sensorTransform: Matrix,
    range: real,
    mvp: Matrix,
    viewport: Viewport,
    framebuffer: int,
    ambient: GlState,
    framebufferBinds: nat -> bool,
    textureBinds: nat -> bool,
    attrib: (nat, nat) -> bool)

  /** The direct calls for face i: its depth pass, then its occlusion pass only when the depth pass succeeded. */
  function FaceCalls(s: Scan, i: nat): seq<Call>
    requires i < |CubeMapFaces|
  {
    var view := OccludeView(s.sensorTransform, CubeMapFaces[i]);
    DepthPassCalls(s.chunks, OccludeProjection(s.range), view, s.attrib, 2 * i, s.ambient, s.framebuffer,
                   s.framebufferBinds(i), s.viewport) +
    (if s.framebufferBinds(i) then
       OcclusionPassCalls(s.chunks, s.mvp, OccludeProjection(s.range), view, s.attrib, 2 * i + 1,
                          AmbientState(s.ambient, s.viewport), s.textureBinds(i))
     else [])
  }

  /** The direct calls for faces 0 .. k-1, in order. */
  function ScanCalls(s: Scan, k: nat): seq<Call>
    requires k <= |CubeMapFaces|
  {
    if k == 0 then [] else ScanCalls(s, k - 1) + FaceCalls(s, k - 1)
  }

  /** The direct calls of a draw whose program is in use: the range and colours once, then the five faces. */
  function DrawCalls(s: Scan, visible: Color, occluded: Color): seq<Call>
  {
    [LoadRange(s.range), LoadSensorColors(visible, occluded)] + ScanCalls(s, |CubeMapFaces|)
  }

  /** The terrain a face draws: the depth pass's chunks, then the occlusion pass's, each pass in chunk order. */
  function FaceDraws(s: Scan, i: nat): seq<Call>
  {
    if s.framebufferBinds(i) then
      TerrainDraws(s.attrib, 2 * i, |s.chunks|, DepthCaptureState(s.ambient, s.framebuffer)) +
      (if s.textureBinds(i) then TerrainDraws(s.attrib, 2 * i + 1, |s.chunks|, AmbientState(s.ambient, s.viewport))
       else [])
    else []
  }

  /**
   * What a face draws: nothing when the scratch framebuffer does not bind; otherwise
   * every chunk whose attribute binds, into the scratch framebuffer with colour writes
   * off and polygon offset on, followed, when the depth texture binds, by the same for
   * the occlusion pass in the ambient state.
   */
  lemma FaceCallsDraw(s: Scan, i: nat)
    requires i < |CubeMapFaces|
    ensures Draws(FaceCalls(s, i)) == FaceDraws(s, i)
  {
    var view := OccludeView(s.sensorTransform, CubeMapFaces[i]);
    var projection := OccludeProjection(s.range);
    var n := |s.chunks|;
    var restore := RestoreCalls(s.viewport);
    DrawsOfNonDraws(restore);
    DrawsOfNonDraws(DepthCaptureSetup);
    var depthState := DepthCaptureState(s.ambient, s.framebuffer);
    var depth := DepthPassCalls(s.chunks, projection, view, s.attrib, 2 * i, s.ambient, s.framebuffer,
                                s.framebufferBinds(i), s.viewport);
    if s.framebufferBinds(i) {
      var loop := PassCalls(s.chunks, SensorDepthUniforms(projection, view), s.attrib, 2 * i, n, depthState);
      PassDraws(s.chunks, SensorDepthUniforms(projection, view), s.attrib, 2 * i, n, depthState);
      DrawsAppend(DepthCaptureSetup, loop);
      DrawsAppend(DepthCaptureSetup + loop, restore);
      assert Draws(depth) == TerrainDraws(s.attrib, 2 * i, n, depthState);
      var ambient := AmbientState(s.ambient, s.viewport);
      var occlusion := OcclusionPassCalls(s.chunks, s.mvp, projection, view, s.attrib, 2 * i + 1, ambient,
                                          s.textureBinds(i));
      DrawsAppend(depth, occlusion);
      if s.textureBinds(i) {
        PassDraws(s.chunks, SensorOcclusionUniforms(s.mvp, projection, view), s.attrib, 2 * i + 1, n, ambient);
      } else {
        assert Draws(occlusion) == [];
      }
    } else {
      assert depth == restore;
      assert FaceCalls(s, i) == restore + [];
      assert restore + [] == restore;
      assert FaceDraws(s, i) == [];
    }
  }

  /** A face whose framebuffer does not bind draws no terrain in either pass. */
  lemma FailedDepthPassDrawsNothing(s: Scan, i: nat)
    requires i < |CubeMapFaces| && !s.framebufferBinds(i)
    ensures Draws(FaceCalls(s, i)) == []
  {
    FaceCallsDraw(s, i);
  }

  /** The reference for a scan's draws: each face's draws, faces in order. */
  function ScanDraws(s: Scan, k: nat): seq<Call>
  {
    if k == 0 then [] else ScanDraws(s, k - 1) + FaceDraws(s, k - 1)
  }

  /** The draws of the scan's first k faces are those faces' draws, concatenated in face order. */
  lemma {:induction false} ScanCallsDraw(s: Scan, k: nat)
    requires k <= |CubeMapFaces|
    ensures Draws(ScanCalls(s, k)) == ScanDraws(s, k)
    decreases k
  {
    if k > 0 {
      ScanCallsDraw(s, k - 1);
      FaceCallsDraw(s, k - 1);
      DrawsOfConcat(ScanCalls(s, k - 1), FaceCalls(s, k - 1), ScanDraws(s, k - 1), FaceDraws(s, k - 1));
    }
  }

  /** A drawable whose program is in use draws exactly the scan's reference draws. */
  lemma DrawCallsDraw(s: Scan, visible: Color, occluded: Color)
    ensures Draws(DrawCalls(s, visible, occluded)) == ScanDraws(s, |CubeMapFaces|)
  {
    var loads := [LoadRange(s.range), LoadSensorColors(visible, occluded)];
    DrawsOfNonDraws(loads);
    ScanCallsDraw(s, |CubeMapFaces|);
    DrawsAppend(loads, ScanCalls(s, |CubeMapFaces|));
  }

  /** Every oracle of face i succeeds: both binds, and every chunk's attribute in both passes. */
  predicate FaceBinds(s: Scan, i: nat)
  {
    s.framebufferBinds(i) && s.textureBinds(i) &&
    AttribsBind(s.attrib, 2 * i, |s.chunks|) && AttribsBind(s.attrib, 2 * i + 1, |s.chunks|)
  }

  /** Every one of the n chunks' attributes binds in the pass. */
  predicate AttribsBind(attrib: (nat, nat) -> bool, pass: nat, n: nat)
  {
    forall j :: 0 <= j < n ==> attrib(pass, j)
  }

  /** With every oracle succeeding, a face draws each of its n chunks once per pass: 2n draws. */
  lemma FaceDrawsAllBind(s: Scan, i: nat)
    requires FaceBinds(s, i)
    ensures |FaceDraws(s, i)| == 2 * |s.chunks|
    ensures forall j :: 0 <= j < |s.chunks| ==>
      FaceDraws(s, i)[j] == DrawTerrainTriangles(j, DepthCaptureState(s.ambient, s.framebuffer)) &&
      FaceDraws(s, i)[|s.chunks| + j] == DrawTerrainTriangles(j, AmbientState(s.ambient, s.viewport))
  {
    AllChunksBind(s.attrib, 2 * i, |s.chunks|, DepthCaptureState(s.ambient, s.framebuffer));
    AllChunksBind(s.attrib, 2 * i + 1, |s.chunks|, AmbientState(s.ambient, s.viewport));
  }

  /** With every oracle succeeding, faces 0 .. k-1 draw each chunk twice per face. */
  lemma {:induction false} ScanDrawsAllBind(s: Scan, k: nat)
    requires forall i :: 0 <= i < k ==> FaceBinds(s, i)
    ensures |ScanDraws(s, k)| == 2 * k * |s.chunks|
    decreases k
  {
    if k > 0 {
      var n := |s.chunks|;
      assert |ScanDraws(s, k - 1)| == 2 * (k - 1) * n by { ScanDrawsAllBind(s, k - 1); }
      assert |FaceDraws(s, k - 1)| == 2 * n by { FaceDrawsAllBind(s, k - 1); }
      assert |ScanDraws(s, k)| == 2 * (k - 1) * n + 2 * n;
      assert 2 * (k - 1) * n + 2 * n == 2 * k * n;
    }
  }

  /** Each face's depth capture starts from the same state, whether or not an earlier face restored it. */
  lemma CaptureAfterRestore(g: GlState, viewport: Viewport, framebuffer: int)
    ensures DepthCaptureState(AmbientState(g, viewport), framebuffer) == DepthCaptureState(g, framebuffer)
    ensures AmbientState(AmbientState(g, viewport), viewport) == AmbientState(g, viewport)
  {
  }

  /** Prepares a depth capture into a bound framebuffer whose depth attachment has the given size. */
  method BeginDepthCapture(dc: DrawContext, depthTexture: Texture)
    requires dc.Valid()
    modifies dc`gl, dc`calls, dc`direct
    ensures dc.Valid()
    ensures dc.gl == old(dc.gl).(viewport := Viewport(0, 0, depthTexture.width, depthTexture.height),
      colorMask := NoColorWrites, polygonOffsetFill := true, offsetFactor := 4.0, offsetUnits := 2.0)
    ensures depthTexture.width == SCRATCH_SIZE && depthTexture.height == SCRATCH_SIZE ==>
      dc.direct == old(dc.direct) + DepthCaptureSetup
  {
    AppendFive(dc.direct, DepthCaptureSetup);
    dc.GlCall(SetViewport(Viewport(0, 0, depthTexture.width, depthTexture.height)));
    dc.GlCall(Clear(GL_DEPTH_BUFFER_BIT));
    dc.GlCall(SetColorMask(NoColorWrites));
    dc.GlCall(Enable(GL_POLYGON_OFFSET_FILL));
    dc.GlCall(PolygonOffset(4.0, 2.0));
  }

  /** The cleanup of the depth pass: the default framebuffer, the context's viewport, colour writes, no polygon offset. */
  method RestoreAmbient(dc: DrawContext)
    requires dc.Valid()
    modifies dc`framebufferId, dc`gl, dc`calls, dc`direct
    ensures dc.Valid() && dc.framebufferId == 0
    ensures dc.gl == AmbientState(old(dc.gl), dc.viewport)
    ensures dc.direct == old(dc.direct) + RestoreCalls(dc.viewport)
  {
    dc.BindFramebuffer(0);
    RestoreAmbientState(dc);
  }

  /** Call by call, the cleanup puts back the viewport, the colour writes and the polygon offset. */
  lemma RestoreSteps(g: GlState, viewport: Viewport)
    ensures Apply(Apply(Apply(Apply(g, SetViewport(Viewport(viewport.x, viewport.y, viewport.width, viewport.height))),
      SetColorMask(AllColorWrites)), Disable(GL_POLYGON_OFFSET_FILL)), PolygonOffset(0.0, 0.0)) ==
      g.(viewport := viewport, colorMask := AllColorWrites, polygonOffsetFill := false, offsetFactor := 0.0, offsetUnits := 0.0)
  {
  }

  /** The driver calls of the cleanup, once the default framebuffer is bound. */
  method RestoreAmbientState(dc: DrawContext)
    requires dc.Valid()
    modifies dc`gl, dc`calls, dc`direct
    ensures dc.Valid()
    ensures dc.gl == old(dc.gl).(viewport := dc.viewport, colorMask := AllColorWrites, polygonOffsetFill := false,
      offsetFactor := 0.0, offsetUnits := 0.0)
    ensures dc.direct == old(dc.direct) + RestoreCalls(dc.viewport)
  {
    var viewport := dc.viewport;
    RestoreSteps(dc.gl, viewport);
    AppendFour(dc.direct, RestoreCalls(viewport));
    dc.GlCall(SetViewport(Viewport(viewport.x, viewport.y, viewport.width, viewport.height)));
    dc.GlCall(SetColorMask(AllColorWrites));
    dc.GlCall(Disable(GL_POLYGON_OFFSET_FILL));
    dc.GlCall(PolygonOffset(0.0, 0.0));
  }

  class DrawableOmnidirectionalSensor {
    var sensorTransform: Matrix
    var range: real
    var visibleColor: Color
    var occludedColor: Color
    var program: Option<Program>
    var occludeProjection: Matrix
    var occludeView: Matrix

    constructor ()
      ensures sensorTransform == Identity && range == 0.0 && program.None?
      ensures visibleColor == White && occludedColor == White
      ensures occludeProjection == Identity && occludeView == Identity
    {
      sensorTransform := Identity;
      range := 0.0;
      visibleColor, occludedColor := White, White;
      program := None;
      occludeProjection, occludeView := Identity, Identity;
    }

    /** The scan this drawable performs in the draw context, given the scratch framebuffer's name and the ambient state. */
    function ScanIn(dc: DrawContext, framebuffer: int, ambient: GlState, framebufferBinds: nat -> bool,
                    textureBinds: nat -> bool, attrib: (nat, nat) -> bool): Scan
      reads this`sensorTransform, this`range, dc`drawableTerrain, dc`modelviewProjection, dc`viewport
    {
      Scan(dc.Terrain(), sensorTransform, range, dc.modelviewProjection, dc.viewport, framebuffer, ambient,
           framebufferBinds, textureBinds, attrib)
    }

    /**
     * Draws the sensor: nothing at all unless the program is present and builds;
     * otherwise the range and colours are loaded once and the five faces are scanned
     * in order. The ambient driver state is restored at the end.
     */
    method Draw(dc: DrawContext, programBuilds: bool, framebufferBinds: nat -> bool, textureBinds: nat -> bool,
                attrib: (nat, nat) -> bool)
      requires dc.Valid()
      modifies this`occludeProjection, this`occludeView
      modifies dc`gl, dc`calls, dc`direct, dc`arrayBufferId, dc`elementArrayBufferId, dc`framebufferId, dc`programId, dc`textureUnit, dc.textureId,
        dc`scratchFramebuffer, dc`nextSerial
      ensures dc.Valid()
      ensures old(dc.scratchFramebuffer).Some? ==> dc.scratchFramebuffer == old(dc.scratchFramebuffer)
      ensures program.None? || !programBuilds ==>
        dc.calls == old(dc.calls) && dc.direct == old(dc.direct) && dc.gl == old(dc.gl) &&
        dc.Snapshot() == old(dc.Snapshot()) && dc.nextSerial == old(dc.nextSerial) &&
        dc.scratchFramebuffer == old(dc.scratchFramebuffer)
      ensures program.Some? && programBuilds ==>
        dc.scratchFramebuffer.Some? && dc.programId == program.value.serial &&
        dc.gl == AmbientState(old(dc.gl), dc.viewport) &&
        dc.direct == old(dc.direct) + DrawCalls(
          ScanIn(dc, dc.scratchFramebuffer.value.serial, old(dc.gl), framebufferBinds, textureBinds, attrib),
          visibleColor, occludedColor)
    {
      if program.None? {
        return;
      }
      var ok := UseShaderProgram(dc, program.value, programBuilds);
      if ok {
        DrawWithProgram(dc, framebufferBinds, textureBinds, attrib);
      }
    }

    /** A draw whose program is in use: the uniforms, the projection of every face, the face loop. */
    method DrawWithProgram(dc: DrawContext, framebufferBinds: nat -> bool, textureBinds: nat -> bool,
                           attrib: (nat, nat) -> bool)
      requires dc.Valid()
      modifies this`occludeProjection, this`occludeView
      modifies dc`gl, dc`calls, dc`direct, dc`arrayBufferId, dc`elementArrayBufferId, dc`framebufferId, dc`textureUnit, dc.textureId,
        dc`scratchFramebuffer, dc`nextSerial
      ensures dc.Valid()
      ensures old(dc.scratchFramebuffer).Some? ==> dc.scratchFramebuffer == old(dc.scratchFramebuffer)
      ensures dc.scratchFramebuffer.Some? && dc.gl == AmbientState(old(dc.gl), dc.viewport)
      ensures dc.direct == old(dc.direct) + DrawCalls(
          ScanIn(dc, dc.scratchFramebuffer.value.serial, old(dc.gl), framebufferBinds, textureBinds, attrib),
          visibleColor, occludedColor)
    {
      ghost var g := dc.gl;
      ghost var before := dc.direct;
      LoadSensorUniforms(dc, range, visibleColor, occludedColor);
      ghost var loads := dc.direct[|before|..];
      occludeProjection := OccludeProjection(range);
      ScanFaces(dc, g, framebufferBinds, textureBinds, attrib);
      ghost var s := ScanIn(dc, dc.scratchFramebuffer.value.serial, g, framebufferBinds, textureBinds, attrib);
      AppendAssoc(before, loads, ScanCalls(s, |CubeMapFaces|));
    }

    /** The uniforms loaded once per draw: the sensor's range and its two colours. */
    static method LoadSensorUniforms(dc: DrawContext, range: real, visible: Color, occluded: Color)
      requires dc.Valid()
      modifies dc`gl, dc`calls, dc`direct
      ensures dc.Valid() && dc.gl == old(dc.gl)
      ensures dc.direct == old(dc.direct) + [LoadRange(range), LoadSensorColors(visible, occluded)]
    {
      dc.GlCall(LoadRange(range));
      dc.GlCall(LoadSensorColors(visible, occluded));
    }

    /** The scratch framebuffer's name, or 0 before it is first built. */
    static ghost function ScratchSerial(dc: DrawContext): int
      reads dc`scratchFramebuffer
    {
      if dc.scratchFramebuffer.Some? then dc.scratchFramebuffer.value.serial else 0
    }

    /** The face loop: the five faces are scanned in cube-map order. */
    method ScanFaces(dc: DrawContext, ghost g: GlState, framebufferBinds: nat -> bool, textureBinds: nat -> bool,
                     attrib: (nat, nat) -> bool)
      requires dc.Valid() && dc.gl == g
      requires occludeProjection == OccludeProjection(range)
      modifies this`occludeView
      modifies dc`gl, dc`calls, dc`direct, dc`arrayBufferId, dc`elementArrayBufferId, dc`framebufferId, dc`textureUnit, dc.textureId, dc`scratchFramebuffer, dc`nextSerial
      ensures dc.Valid() && dc.scratchFramebuffer.Some? && dc.gl == AmbientState(g, dc.viewport)
      ensures old(dc.scratchFramebuffer).Some? ==> dc.scratchFramebuffer == old(dc.scratchFramebuffer)
      ensures dc.direct == old(dc.direct) +
        ScanCalls(ScanIn(dc, dc.scratchFramebuffer.value.serial, g, framebufferBinds, textureBinds, attrib), |CubeMapFaces|)
    {
      ghost var start := dc.direct;
      var idx := 0;
      while idx < |CubeMapFaces|
        invariant 0 <= idx <= |CubeMapFaces|
        invariant dc.Valid()
        invariant old(dc.scratchFramebuffer).Some? ==> dc.scratchFramebuffer == old(dc.scratchFramebuffer)
        invariant idx > 0 ==> dc.scratchFramebuffer.Some?
        invariant dc.gl == if idx == 0 then g else AmbientState(g, dc.viewport)
        invariant dc.direct == start + ScanCalls(ScanIn(dc, ScratchSerial(dc), g, framebufferBinds, textureBinds, attrib), idx)
      {
        ScanFace(dc, idx, g, start, framebufferBinds, textureBinds, attrib);
        idx := idx + 1;
      }
    }

    /** One pass of the face loop, extending the scan of faces 0 .. idx-1 by face idx. */
    method ScanFace(dc: DrawContext, idx: nat, ghost g: GlState, ghost start: seq<Call>, framebufferBinds: nat -> bool,
                    textureBinds: nat -> bool, attrib: (nat, nat) -> bool)
      requires idx < |CubeMapFaces| && dc.Valid()
      requires occludeProjection == OccludeProjection(range)
      requires idx > 0 ==> dc.scratchFramebuffer.Some?
      requires dc.gl == if idx == 0 then g else AmbientState(g, dc.viewport)
      requires dc.direct == start + ScanCalls(ScanIn(dc, ScratchSerial(dc), g, framebufferBinds, textureBinds, attrib), idx)
      modifies this`occludeView
      modifies dc`gl, dc`calls, dc`direct, dc`arrayBufferId, dc`elementArrayBufferId, dc`framebufferId, dc`textureUnit, dc.textureId, dc`scratchFramebuffer, dc`nextSerial
      ensures dc.Valid() && dc.scratchFramebuffer.Some? && dc.gl == AmbientState(g, dc.viewport)
      ensures old(dc.scratchFramebuffer).Some? ==> dc.scratchFramebuffer == old(dc.scratchFramebuffer)
      ensures dc.direct == start + ScanCalls(ScanIn(dc, ScratchSerial(dc), g, framebufferBinds, textureBinds, attrib), idx + 1)
    {
      DrawFace(dc, idx, g, framebufferBinds, textureBinds, attrib);
      ghost var s := ScanIn(dc, ScratchSerial(dc), g, framebufferBinds, textureBinds, attrib);
      AppendAssoc(start, ScanCalls(s, idx), FaceCalls(s, idx));
    }

    /** One iteration of the face loop: the face's view, its depth pass and, if that succeeded, its occlusion pass. */
    method DrawFace(dc: DrawContext, idx: nat, ghost g: GlState, framebufferBinds: nat -> bool,
                    textureBinds: nat -> bool, attrib: (nat, nat) -> bool)
      requires idx < |CubeMapFaces| && dc.Valid()
      requires occludeProjection == OccludeProjection(range)
      requires dc.gl == g || dc.gl == AmbientState(g, dc.viewport)
      modifies this`occludeView
      modifies dc`gl, dc`calls, dc`direct, dc`arrayBufferId, dc`elementArrayBufferId, dc`framebufferId, dc`textureUnit, dc.textureId, dc`scratchFramebuffer, dc`nextSerial
      ensures dc.Valid() && dc.scratchFramebuffer.Some? && dc.gl == AmbientState(g, dc.viewport)
      ensures old(dc.scratchFramebuffer).Some? ==> dc.scratchFramebuffer == old(dc.scratchFramebuffer)
      ensures dc.direct == old(dc.direct) +
        FaceCalls(ScanIn(dc, dc.scratchFramebuffer.value.serial, g, framebufferBinds, textureBinds, attrib), idx)
    {
      ghost var before := dc.direct;
      occludeView := OccludeView(sensorTransform, CubeMapFaces[idx]);
      var depthOk := DrawSceneDepth(dc, framebufferBinds(idx), attrib, 2 * idx);
      CaptureAfterRestore(g, dc.viewport, dc.scratchFramebuffer.value.serial);
      ghost var depth := dc.direct;
      if depthOk {
        DrawSceneOcclusion(dc, textureBinds(idx), attrib, 2 * idx + 1);
      }
      ghost var s := ScanIn(dc, dc.scratchFramebuffer.value.serial, g, framebufferBinds, textureBinds, attrib);
      AppendAssoc(before, depth[|before|..], dc.direct[|depth|..]);
    }

    /**
     * The depth pass of one face: false, without drawing, when the scratch framebuffer
     * does not bind; otherwise the terrain's depth is captured and the result is true.
     * On both paths the ambient state is restored.
     */
    method DrawSceneDepth(dc: DrawContext, framebufferBinds: bool, attrib: (nat, nat) -> bool, pass: nat)
      returns (ok: bool)
      requires dc.Valid()
      modifies dc`gl, dc`calls, dc`direct, dc`arrayBufferId, dc`elementArrayBufferId, dc`framebufferId, dc`scratchFramebuffer, dc`nextSerial
      ensures dc.Valid() && ok == framebufferBinds
      ensures dc.scratchFramebuffer.Some?
      ensures old(dc.scratchFramebuffer).Some? ==> dc.scratchFramebuffer == old(dc.scratchFramebuffer)
      ensures dc.framebufferId == 0 && dc.gl == AmbientState(old(dc.gl), dc.viewport)
      ensures dc.direct == old(dc.direct) + DepthPassCalls(dc.Terrain(), occludeProjection, occludeView,
        attrib, pass, old(dc.gl), dc.scratchFramebuffer.value.serial, ok, dc.viewport)
    {
      ok := BindAndCaptureDepth(dc, framebufferBinds, attrib, pass);
      RestoreAmbient(dc);
      AppendAssoc(old(dc.direct), if ok then DepthCaptureCalls(dc, attrib, pass, old(dc.gl)) else [],
        RestoreCalls(dc.viewport));
    }

    /** The capture of the depth pass for a given ambient state, in the draw context's scratch framebuffer. */
    ghost function DepthCaptureCalls(dc: DrawContext, attrib: (nat, nat) -> bool, pass: nat, g: GlState): seq<Call>
      reads this`occludeProjection, this`occludeView, dc`drawableTerrain, dc`scratchFramebuffer
      requires dc.scratchFramebuffer.Some?
    {
      DepthCaptureSetup + PassCalls(dc.Terrain(), SensorDepthUniforms(occludeProjection, occludeView), attrib, pass,
        |dc.Terrain()|, DepthCaptureState(g, dc.scratchFramebuffer.value.serial))
    }

    /** The body of drawSceneDepth's try block: the scratch framebuffer is bound and, when it binds, the depth captured. */
    method BindAndCaptureDepth(dc: DrawContext, framebufferBinds: bool, attrib: (nat, nat) -> bool, pass: nat)
      returns (ok: bool)
      requires dc.Valid()
      modifies dc`gl, dc`calls, dc`direct, dc`arrayBufferId, dc`elementArrayBufferId, dc`framebufferId, dc`scratchFramebuffer, dc`nextSerial
      ensures dc.Valid() && ok == framebufferBinds
      ensures dc.scratchFramebuffer.Some?
      ensures old(dc.scratchFramebuffer).Some? ==> dc.scratchFramebuffer == old(dc.scratchFramebuffer)
      ensures ok ==> dc.gl == DepthCaptureState(old(dc.gl), dc.scratchFramebuffer.value.serial)
      ensures !ok ==> dc.gl == old(dc.gl)
      ensures dc.direct == old(dc.direct) +
        (if ok then DepthCaptureCalls(dc, attrib, pass, old(dc.gl)) else [])
    {
      var framebuffer := dc.ScratchFramebuffer();
      ok := BindFramebufferObject(dc, framebuffer, framebufferBinds);
      if ok {
        CaptureDepth(dc, framebuffer, attrib, pass);
      }
    }

    /** The body of the depth pass once the scratch framebuffer is bound: clear, configure, draw the terrain. */
    method CaptureDepth(dc: DrawContext, framebuffer: Framebuffer, attrib: (nat, nat) -> bool, pass: nat)
      requires dc.Valid() && IsScratchFramebuffer(framebuffer)
      modifies dc`gl, dc`calls, dc`direct, dc`arrayBufferId, dc`elementArrayBufferId
      ensures dc.Valid()
      ensures dc.gl == old(dc.gl).(viewport := Viewport(0, 0, SCRATCH_SIZE, SCRATCH_SIZE),
        colorMask := NoColorWrites, polygonOffsetFill := true, offsetFactor := 4.0, offsetUnits := 2.0)
      ensures dc.direct == old(dc.direct) + (DepthCaptureSetup + PassCalls(dc.Terrain(),
        SensorDepthUniforms(occludeProjection, occludeView), attrib, pass, |dc.Terrain()|, dc.gl))
    {
      ghost var before := dc.direct;
      BeginDepthCapture(dc, framebuffer.depthAttachment);
      DrawTerrainPass(dc, SensorDepthUniforms(occludeProjection, occludeView), attrib, pass);
      AppendAssoc(before, DepthCaptureSetup, PassCalls(dc.Terrain(),
        SensorDepthUniforms(occludeProjection, occludeView), attrib, pass, |dc.Terrain()|, dc.gl));
    }

    /**
     * The occlusion pass of one face: texture unit 0 is made active; nothing is drawn
     * when the depth texture does not bind; otherwise each chunk is drawn with the
     * camera's and the face's matrices.
     */
    method DrawSceneOcclusion(dc: DrawContext, textureBinds: bool, attrib: (nat, nat) -> bool, pass: nat)
      requires dc.Valid()
      modifies dc`textureUnit, dc.textureId, dc`gl, dc`calls, dc`direct, dc`arrayBufferId, dc`elementArrayBufferId, dc`scratchFramebuffer, dc`nextSerial
      ensures dc.Valid() && dc.gl == old(dc.gl)
      ensures dc.textureUnit == GL_TEXTURE0 && dc.scratchFramebuffer.Some?
      ensures old(dc.scratchFramebuffer).Some? ==> dc.scratchFramebuffer == old(dc.scratchFramebuffer)
      ensures textureBinds ==> dc.CurrentTexture(GL_TEXTURE0) == dc.scratchFramebuffer.value.depthAttachment.serial
      ensures dc.direct == old(dc.direct) + OcclusionPassCalls(dc.Terrain(), dc.modelviewProjection,
        occludeProjection, occludeView, attrib, pass, dc.gl, textureBinds)
    {
      dc.ActiveTextureUnit(GL_TEXTURE0);
      var depthTexture := dc.ScratchFramebuffer();
      BindAndDrawOcclusion(dc, depthTexture.depthAttachment, textureBinds, attrib, pass);
    }

    /** The occlusion pass once texture unit 0 is active: bind the captured depth, then draw when it bound. */
    method BindAndDrawOcclusion(dc: DrawContext, depth: Texture, textureBinds: bool, attrib: (nat, nat) -> bool, pass: nat)
      requires dc.Valid() && UnitInRange(dc.textureUnit)
      modifies dc.textureId, dc`gl, dc`calls, dc`direct, dc`arrayBufferId, dc`elementArrayBufferId
      ensures dc.Valid() && dc.gl == old(dc.gl)
      ensures textureBinds ==> dc.CurrentTexture(dc.textureUnit) == depth.serial
      ensures dc.direct == old(dc.direct) + OcclusionPassCalls(dc.Terrain(), dc.modelviewProjection,
        occludeProjection, occludeView, attrib, pass, dc.gl, textureBinds)
    {
      var bound := BindTextureObject(dc, depth, textureBinds);
      if bound {
        DrawTerrainPass(dc, SensorOcclusionUniforms(dc.modelviewProjection, occludeProjection, occludeView), attrib, pass);
      }
    }
  }
}
