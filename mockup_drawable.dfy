/**
 * The visibility mockup drawable (DrawableVisibilityMockup.java): a shadow-map
 * style visibility test drawn in three steps. The terrain's depth as seen by the
 * viewer is captured into the scratch framebuffer; the terrain is drawn again from
 * the camera by the mockup program, which compares each fragment against the
 * captured depth; and the captured depth texture is shown on a 512 x 512 square of
 * the screen.
 *
 * What the unseen collaborators decide is given as oracles: whether each program
 * builds, whether the scratch framebuffer, its depth texture and the unit square
 * buffer bind, and whether a terrain chunk's vertex attribute binds during a pass
 * (pass 0 is the depth capture, pass 1 the visibility pass).
 */
module MockupDrawables {
  import opened Gles
  import opened BindingCache
  import opened Resources
  import opened DrawContexts
  import opened UnitShapes
  import opened TerrainPasses
  import opened Collaborators

  /** The transform of the unit square shown on screen: 512 x 512 pixels. */
  const UnitSquareTransform: Matrix := Scale(Identity, 512.0, 512.0, 1.0)

  /** The terrain passes of the mockup. */
  const DEPTH_PASS: nat := 0
  const VISIBILITY_PASS: nat := 1

  /** The driver state while the viewer's depth is captured: the scratch framebuffer, its full viewport, no colour writes. */
  function CaptureState(g: GlState, framebuffer: int): (r: GlState)
    ensures r.framebuffer == framebuffer && r.viewport == Viewport(0, 0, SCRATCH_SIZE, SCRATCH_SIZE)
    ensures r.colorMask == NoColorWrites && r.depthTest == g.depthTest && r.texCoordArray == g.texCoordArray
  {
    g.(framebuffer := framebuffer, viewport := Viewport(0, 0, SCRATCH_SIZE, SCRATCH_SIZE), colorMask := NoColorWrites)
  }

  /** The state the capture's cleanup restores: the default framebuffer, the context's viewport, colour writes. */
  function RestoredState(g: GlState, viewport: Viewport): (r: GlState)
    ensures r.framebuffer == 0 && r.viewport == viewport && r.colorMask == AllColorWrites
    ensures r.depthTest == g.depthTest && r.texCoordArray == g.texCoordArray && r.depthFunc == g.depthFunc
  {
    g.(framebuffer := 0, viewport := viewport, colorMask := AllColorWrites)
  }

  /** The calls that prepare the capture, once the scratch framebuffer is bound. */
  const CaptureSetup: seq<Call> := [
    SetViewport(Viewport(0, 0, SCRATCH_SIZE, SCRATCH_SIZE)),
    Clear(GL_DEPTH_BUFFER_BIT),
    SetColorMask(NoColorWrites),
    EnableTexturing(false)]

  /** The calls of the capture's cleanup, once the default framebuffer is bound again. */
  function CaptureCleanup(viewport: Viewport): seq<Call>
  {
    [SetViewport(viewport), SetColorMask(AllColorWrites)]
  }

  /**
   * The direct calls of the depth capture: the terrain drawn from the viewer when
   * the program is in use and the framebuffer bound, and the cleanup in every case.
   */
  function CaptureCalls(chunks: seq<TerrainChunk>, viewerMvp: Matrix, attrib: (nat, nat) -> bool, g: GlState,
                        framebuffer: int, bound: bool, viewport: Viewport): seq<Call>
  {
    (if bound then
       CaptureSetup +
       PassCalls(chunks, MockupDepthUniforms(viewerMvp), attrib, DEPTH_PASS, |chunks|, CaptureState(g, framebuffer))
     else []) +
    CaptureCleanup(viewport)
  }

  /** The direct calls of the visibility pass: the colour and the terrain loop, when the program and the texture are ready. */
  function VisibilityCalls(chunks: seq<TerrainChunk>, mvp: Matrix, viewerMvp: Matrix, attrib: (nat, nat) -> bool,
                           g: GlState, ready: bool): seq<Call>
  {
    if ready then
      [LoadColor(White)] +
      PassCalls(chunks, MockupVisibilityUniforms(mvp, viewerMvp), attrib, VISIBILITY_PASS, |chunks|, g)
    else []
  }

  /** The program state of the screen pass: pick mode as the context says, white, the texture, the square's matrix. */
  function SquareLoads(pickMode: bool, screenProjection: Matrix): seq<Call>
  {
    [EnablePickMode(pickMode), LoadColor(White), EnableTexturing(true), LoadTexCoordMatrix(Identity),
     LoadModelviewProjection(Multiply(screenProjection, UnitSquareTransform))]
  }

  /** The state the square is drawn in: texture coordinates on, depth test off. */
  function SquareState(g: GlState): GlState
  {
    g.(texCoordArray := true, depthTest := false)
  }

  /** Before the square: the texture coordinate attribute on, both attribute pointers, the depth test off. */
  const SquarePrepare: seq<Call> :=
    [EnableVertexAttribArray(1), VertexAttribPointer(0, 2), VertexAttribPointer(1, 2), Disable(GL_DEPTH_TEST)]

  /** After the square: the depth test on and the texture coordinate attribute off again. */
  const SquareRestore: seq<Call> := [Enable(GL_DEPTH_TEST), DisableVertexAttribArray(1)]

  /** Drawing the bound square: both attributes, no depth test, a four-vertex strip, then the defaults again. */
  function SquareDrawCalls(g: GlState): seq<Call>
  {
    SquarePrepare + [DrawArrays(GL_TRIANGLE_STRIP, 0, 4, SquareState(g))] + SquareRestore
  }

  /** The direct calls of the screen pass: the square, when the program, the square buffer and the texture are ready. */
  function ScreenCalls(pickMode: bool, screenProjection: Matrix, g: GlState, ready: bool): seq<Call>
  {
    if ready then SquareLoads(pickMode, screenProjection) + SquareDrawCalls(g) else []
  }

  /** What one frame's mockup depends on: the drawable, the draw context and the oracles. */
  datatype Mockup = Mockup(
    chunks: seq<TerrainChunk>,
    mvp: Matrix,
    viewerMvp: Matrix,
    screenProjection: Matrix,
    viewport: Viewport,
    pickMode: bool,
    framebuffer: int,
    ambient: GlState,
    mockupReady: bool,          // the mockup program is present and builds
    framebufferBinds: bool,
    visibilityTextureBinds: bool,
    squareBinds: bool,
    screenTextureBinds: bool,
    attrib: (nat, nat) -> bool)

  /**
   * The direct calls of a draw whose program is in use: the capture with its
   * cleanup, and, only when the capture succeeded, the visibility and screen passes.
   */
  function MockupCalls(m: Mockup): seq<Call>
  {
    var restored := RestoredState(m.ambient, m.viewport);
    CaptureCalls(m.chunks, m.viewerMvp, m.attrib, m.ambient, m.framebuffer, m.framebufferBinds, m.viewport) +
    if m.framebufferBinds then
      VisibilityCalls(m.chunks, m.mvp, m.viewerMvp, m.attrib, restored, m.mockupReady && m.visibilityTextureBinds) +
      ScreenCalls(m.pickMode, m.screenProjection, restored, m.squareBinds && m.screenTextureBinds)
    else []
  }

  /** The reference for a mockup's draws. */
  function MockupDraws(m: Mockup): seq<Call>
  {
    var restored := RestoredState(m.ambient, m.viewport);
    if m.framebufferBinds then
      TerrainDraws(m.attrib, DEPTH_PASS, |m.chunks|, CaptureState(m.ambient, m.framebuffer)) +
      (if m.mockupReady && m.visibilityTextureBinds
       then TerrainDraws(m.attrib, VISIBILITY_PASS, |m.chunks|, restored) else []) +
      (if m.squareBinds && m.screenTextureBinds then [DrawArrays(GL_TRIANGLE_STRIP, 0, 4, SquareState(restored))] else [])
    else []
  }

  /** The driver state a draw whose program is in use leaves behind. */
  function FinalState(m: Mockup): GlState
  {
    var restored := RestoredState(m.ambient, m.viewport);
    if m.framebufferBinds && m.squareBinds && m.screenTextureBinds
    then restored.(depthTest := true, texCoordArray := false)
    else restored
  }

  lemma SquareLoadsAreLoads(pickMode: bool, screenProjection: Matrix)
    ensures forall i :: 0 <= i < |SquareLoads(pickMode, screenProjection)| ==> SquareLoads(pickMode, screenProjection)[i].IsLoad()
  {
  }

  /** The screen pass draws the square once, as a strip over its four vertices, with the depth test off. */
  lemma ScreenDraws(pickMode: bool, screenProjection: Matrix, g: GlState, ready: bool)
    ensures Draws(ScreenCalls(pickMode, screenProjection, g, ready)) ==
      if ready then [DrawArrays(GL_TRIANGLE_STRIP, 0, 4, SquareState(g))] else []
    ensures 4 * 2 == |UnitSquarePoints|
  {
    if ready {
      var loads := SquareLoads(pickMode, screenProjection);
      SquareLoadsAreLoads(pickMode, screenProjection);
      DrawsOfNonDraws(loads);
      SquareDraws(g);
      DrawsAppend(loads, SquareDrawCalls(g));
    }
  }

  /** The calls before the square leave the state the square is drawn in. */
  lemma SquarePrepareEffect(g: GlState)
    ensures Run(g, SquarePrepare) == SquareState(g)
  {
    RunFour(g, SquarePrepare);
  }

  /** The calls before the square draw nothing. */
  lemma SquarePrepareDrawsNothing()
    ensures Draws(SquarePrepare) == []
  {
    DrawsNoneOfFour(SquarePrepare);
  }

  /** The calls after the square turn the depth test back on and the texture coordinate attribute off. */
  lemma SquareRestoreEffect(g: GlState)
    ensures Run(g, SquareRestore) == g.(depthTest := true, texCoordArray := false)
  {
    RunTwo(g, SquareRestore);
  }

  /** The calls after the square draw nothing. */
  lemma SquareRestoreDrawsNothing()
    ensures Draws(SquareRestore) == []
  {
    DrawsNoneOfTwo(SquareRestore);
  }

  /** The square is drawn in the state the calls before it establish, and it is the only draw. */
  lemma SquareDraws(g: GlState)
    ensures SquareDrawCalls(g)[|SquarePrepare|] == DrawArrays(GL_TRIANGLE_STRIP, 0, 4, Run(g, SquarePrepare))
    ensures Draws(SquareDrawCalls(g)) == [DrawArrays(GL_TRIANGLE_STRIP, 0, 4, SquareState(g))]
  {
    SquarePrepareEffect(g);
    SquarePrepareDrawsNothing();
    SquareRestoreDrawsNothing();
    DrawsAround(SquarePrepare, DrawArrays(GL_TRIANGLE_STRIP, 0, 4, SquareState(g)), SquareRestore);
  }

  /** The square leaves the depth test on and the texture coordinate attribute off. */
  lemma SquareEffect(g: GlState)
    ensures Run(g, SquareDrawCalls(g)) == g.(depthTest := true, texCoordArray := false)
  {
    var draw := [DrawArrays(GL_TRIANGLE_STRIP, 0, 4, SquareState(g))];
    SquarePrepareEffect(g);
    SquareRestoreEffect(SquareState(g));
    RunAppend(g, SquarePrepare, draw);
    RunOne(SquareState(g), draw[0]);
    RunAppend(g, SquarePrepare + draw, SquareRestore);
  }

  /** The screen pass's whole effect on the driver. */
  lemma ScreenEffect(pickMode: bool, screenProjection: Matrix, g: GlState, ready: bool)
    ensures Run(g, ScreenCalls(pickMode, screenProjection, g, ready)) ==
      if ready then g.(depthTest := true, texCoordArray := false) else g
  {
    if ready {
      SquareLoadsAreLoads(pickMode, screenProjection);
      RunOfLoadsAndDraws(g, SquareLoads(pickMode, screenProjection));
      RunAppend(g, SquareLoads(pickMode, screenProjection), SquareDrawCalls(g));
      SquareEffect(g);
    }
  }

  /**
   * What the mockup draws: nothing but the cleanup when the scratch framebuffer does
   * not bind; otherwise the viewer's depth of every bindable chunk into the scratch
   * framebuffer without colour, then, with the mockup program and the texture, every
   * bindable chunk on screen, and then, with the square and the texture, the square.
   */
  lemma MockupCallsDraw(m: Mockup)
    ensures Draws(MockupCalls(m)) == MockupDraws(m)
  {
    var restored := RestoredState(m.ambient, m.viewport);
    var capture := CaptureCalls(m.chunks, m.viewerMvp, m.attrib, m.ambient, m.framebuffer, m.framebufferBinds, m.viewport);
    var captureDraws :=
      if m.framebufferBinds then TerrainDraws(m.attrib, DEPTH_PASS, |m.chunks|, CaptureState(m.ambient, m.framebuffer)) else [];
    CaptureDraws(m.chunks, m.viewerMvp, m.attrib, m.ambient, m.framebuffer, m.framebufferBinds, m.viewport);
    if m.framebufferBinds {
      var visibilityReady := m.mockupReady && m.visibilityTextureBinds;
      var screenReady := m.squareBinds && m.screenTextureBinds;
      var visibility := VisibilityCalls(m.chunks, m.mvp, m.viewerMvp, m.attrib, restored, visibilityReady);
      var screen := ScreenCalls(m.pickMode, m.screenProjection, restored, screenReady);
      var visibilityDraws := if visibilityReady then TerrainDraws(m.attrib, VISIBILITY_PASS, |m.chunks|, restored) else [];
      var screenDraws := if screenReady then [DrawArrays(GL_TRIANGLE_STRIP, 0, 4, SquareState(restored))] else [];
      VisibilityDraws(m.chunks, m.mvp, m.viewerMvp, m.attrib, restored, visibilityReady);
      ScreenDraws(m.pickMode, m.screenProjection, restored, screenReady);
      DrawsOfConcat(visibility, screen, visibilityDraws, screenDraws);
      DrawsOfConcat(capture, visibility + screen, captureDraws, visibilityDraws + screenDraws);
      AppendAssoc(captureDraws, visibilityDraws, screenDraws);
    } else {
      assert MockupCalls(m) == capture + [];
    }
  }

  /** The capture draws every bindable chunk in the capture state when the framebuffer bound, and nothing otherwise. */
  lemma CaptureDraws(chunks: seq<TerrainChunk>, viewerMvp: Matrix, attrib: (nat, nat) -> bool, g: GlState,
                     framebuffer: int, bound: bool, viewport: Viewport)
    ensures Draws(CaptureCalls(chunks, viewerMvp, attrib, g, framebuffer, bound, viewport)) ==
      if bound then TerrainDraws(attrib, DEPTH_PASS, |chunks|, CaptureState(g, framebuffer)) else []
  {
    CaptureCleanupDrawsNothing(viewport);
    if bound {
      var state := CaptureState(g, framebuffer);
      PassDraws(chunks, MockupDepthUniforms(viewerMvp), attrib, DEPTH_PASS, |chunks|, state);
      CaptureSetupDrawsNothing();
      DrawsBetween(CaptureSetup, PassCalls(chunks, MockupDepthUniforms(viewerMvp), attrib, DEPTH_PASS, |chunks|, state),
        CaptureCleanup(viewport), TerrainDraws(attrib, DEPTH_PASS, |chunks|, state));
    } else {
      AppendEmpty(CaptureCleanup(viewport));
    }
  }

  lemma CaptureCleanupDrawsNothing(viewport: Viewport)
    ensures Draws(CaptureCleanup(viewport)) == []
  {
    DrawsOfNonDraws(CaptureCleanup(viewport));
  }

  lemma CaptureSetupDrawsNothing()
    ensures Draws(CaptureSetup) == []
  {
    assert |CaptureSetup| == 4;
    assert !CaptureSetup[0].IsDraw() && !CaptureSetup[1].IsDraw() && !CaptureSetup[2].IsDraw() && !CaptureSetup[3].IsDraw();
    DrawsOfNonDraws(CaptureSetup);
  }

  /** The visibility pass draws every bindable chunk in the given state when ready, and nothing otherwise. */
  lemma VisibilityDraws(chunks: seq<TerrainChunk>, mvp: Matrix, viewerMvp: Matrix, attrib: (nat, nat) -> bool,
                        g: GlState, ready: bool)
    ensures Draws(VisibilityCalls(chunks, mvp, viewerMvp, attrib, g, ready)) ==
      if ready then TerrainDraws(attrib, VISIBILITY_PASS, |chunks|, g) else []
  {
    if ready {
      var pass := PassCalls(chunks, MockupVisibilityUniforms(mvp, viewerMvp), attrib, VISIBILITY_PASS, |chunks|, g);
      PassDraws(chunks, MockupVisibilityUniforms(mvp, viewerMvp), attrib, VISIBILITY_PASS, |chunks|, g);
      DrawsOfNonDraws([LoadColor(White)]);
      DrawsAppend([LoadColor(White)], pass);
    }
  }

  /** A mockup whose scratch framebuffer does not bind draws nothing, whatever else succeeds. */
  lemma FailedCaptureDrawsNothing(m: Mockup)
    requires !m.framebufferBinds
    ensures Draws(MockupCalls(m)) == []
  {
    MockupCallsDraw(m);
  }

  /**
   * The depth capture draws only into the scratch framebuffer without colour, and the
   * visibility pass only onto the screen with colour: each chunk's draw carries the
   * state of its pass.
   */
  lemma PassTargets(m: Mockup, c: Call)
    requires c in MockupDraws(m) && c.DrawTerrainTriangles?
    ensures c.state.framebuffer == m.framebuffer || c.state.framebuffer == 0
    ensures c.state.framebuffer == m.framebuffer && m.framebuffer != 0 ==> c.state.colorMask == NoColorWrites
    ensures c.state.framebuffer == 0 && m.framebuffer != 0 ==> c.state.colorMask == AllColorWrites
    ensures c.chunk < |m.chunks|
  {
    var n := |m.chunks|;
    var restored := RestoredState(m.ambient, m.viewport);
    var depth := TerrainDraws(m.attrib, DEPTH_PASS, n, CaptureState(m.ambient, m.framebuffer));
    var visibility := if m.mockupReady && m.visibilityTextureBinds then TerrainDraws(m.attrib, VISIBILITY_PASS, n, restored) else [];
    TerrainDrawsMembership(m.attrib, DEPTH_PASS, n, CaptureState(m.ambient, m.framebuffer), c);
    TerrainDrawsMembership(m.attrib, VISIBILITY_PASS, n, restored, c);
    assert c in depth || c in visibility;
  }

  /** Binds the default framebuffer and restores the context's viewport and colour writes. */
  method RestoreCapture(dc: DrawContext)
    requires dc.Valid()
    modifies dc`framebufferId, dc`gl, dc`calls, dc`direct
    ensures dc.Valid() && dc.framebufferId == 0
    ensures dc.gl == RestoredState(old(dc.gl), dc.viewport)
    ensures dc.direct == old(dc.direct) + CaptureCleanup(dc.viewport)
  {
    dc.BindFramebuffer(0);
    RestoreViewportAndColor(dc);
  }

  /** The driver calls of the cleanup, once the default framebuffer is bound. */
  method RestoreViewportAndColor(dc: DrawContext)
    requires dc.Valid()
    modifies dc`gl, dc`calls, dc`direct
    ensures dc.Valid() && dc.gl == old(dc.gl).(viewport := dc.viewport, colorMask := AllColorWrites)
    ensures dc.direct == old(dc.direct) + CaptureCleanup(dc.viewport)
  {
    var viewport := dc.viewport;
    AppendTwo(dc.direct, CaptureCleanup(viewport));
    dc.GlCall(SetViewport(Viewport(viewport.x, viewport.y, viewport.width, viewport.height)));
    dc.GlCall(SetColorMask(AllColorWrites));
  }

  /** Prepares the capture into a bound framebuffer whose depth attachment has the given size. */
  method BeginCapture(dc: DrawContext, depthTexture: Texture)
    requires dc.Valid()
    modifies dc`gl, dc`calls, dc`direct
    ensures dc.Valid()
    ensures dc.gl == old(dc.gl).(viewport := Viewport(0, 0, depthTexture.width, depthTexture.height),
      colorMask := NoColorWrites)
    ensures depthTexture.width == SCRATCH_SIZE && depthTexture.height == SCRATCH_SIZE ==>
      dc.direct == old(dc.direct) + CaptureSetup
  {
    AppendFour(dc.direct, CaptureSetup);
    dc.GlCall(SetViewport(Viewport(0, 0, depthTexture.width, depthTexture.height)));
    dc.GlCall(Clear(GL_DEPTH_BUFFER_BIT));
    dc.GlCall(SetColorMask(NoColorWrites));
    dc.GlCall(EnableTexturing(false));
  }

  /** Loads the screen pass's program state. */
  method LoadSquareUniforms(dc: DrawContext, pickMode: bool, screenProjection: Matrix)
    requires dc.Valid()
    modifies dc`gl, dc`calls, dc`direct
    ensures dc.Valid() && dc.gl == old(dc.gl)
    ensures dc.direct == old(dc.direct) + SquareLoads(pickMode, screenProjection)
  {
    AppendFive(dc.direct, SquareLoads(pickMode, screenProjection));
    dc.GlCall(EnablePickMode(pickMode));
    dc.GlCall(LoadColor(White));
    dc.GlCall(EnableTexturing(true));
    dc.GlCall(LoadTexCoordMatrix(Identity));
    dc.GlCall(LoadModelviewProjection(Multiply(screenProjection, UnitSquareTransform)));
  }

  /** Draws the bound square and restores the default depth test and attribute arrays. */
  method DrawSquare(dc: DrawContext)
    requires dc.Valid()
    modifies dc`gl, dc`calls, dc`direct
    ensures dc.Valid() && dc.gl == old(dc.gl).(depthTest := true, texCoordArray := false)
    ensures dc.direct == old(dc.direct) + SquareDrawCalls(old(dc.gl))
  {
    ghost var g := dc.gl;
    ghost var before := dc.direct;
    PrepareSquare(dc);
    ghost var prepared := dc.direct;
    StripAndRestore(dc);
    ghost var draw := [DrawArrays(GL_TRIANGLE_STRIP, 0, 4, SquareState(g))];
    AppendAssoc(before, SquarePrepare, draw);
    AppendAssoc(before, SquarePrepare + draw, SquareRestore);
  }

  /** Both attribute arrays on and the depth test off. */
  method PrepareSquare(dc: DrawContext)
    requires dc.Valid()
    modifies dc`gl, dc`calls, dc`direct
    ensures dc.Valid() && dc.gl == SquareState(old(dc.gl))
    ensures dc.direct == old(dc.direct) + SquarePrepare
  {
    ghost var before := dc.direct;
    RunFour(dc.gl, SquarePrepare);
    SquarePrepareEffect(dc.gl);
    AppendFour(before, SquarePrepare);
    dc.GlCall(EnableVertexAttribArray(1));
    dc.GlCall(VertexAttribPointer(0, 2));
    dc.GlCall(VertexAttribPointer(1, 2));
    dc.GlCall(Disable(GL_DEPTH_TEST));
  }

  /** The four-vertex strip, then the depth test on and the texture coordinate array off again. */
  method StripAndRestore(dc: DrawContext)
    requires dc.Valid()
    modifies dc`gl, dc`calls, dc`direct
    ensures dc.Valid() && dc.gl == old(dc.gl).(depthTest := true, texCoordArray := false)
    ensures dc.direct == old(dc.direct) + [DrawArrays(GL_TRIANGLE_STRIP, 0, 4, old(dc.gl))] + SquareRestore
  {
    AppendTwo(dc.direct + [DrawArrays(GL_TRIANGLE_STRIP, 0, 4, dc.gl)], SquareRestore);
    dc.GlCall(DrawArrays(GL_TRIANGLE_STRIP, 0, 4, dc.gl));
    dc.GlCall(Enable(GL_DEPTH_TEST));
    dc.GlCall(DisableVertexAttribArray(1));
  }

  class DrawableVisibilityMockup {
    var program: Option<Program>
    var mockupProgram: Option<Program>
    var viewerMvpMatrix: Matrix

    constructor ()
      ensures program.None? && mockupProgram.None? && viewerMvpMatrix == Identity
    {
      program, mockupProgram := None, None;
      viewerMvpMatrix := Identity;
    }

    /** The mockup this drawable draws in the draw context, given the scratch framebuffer's name and the ambient state. */
    function MockupIn(dc: DrawContext, framebuffer: int, ambient: GlState, mockupBuilds: bool, framebufferBinds: bool,
                      visibilityTextureBinds: bool, squareBinds: bool, screenTextureBinds: bool,
                      attrib: (nat, nat) -> bool): Mockup
      reads this`viewerMvpMatrix, this`mockupProgram
      reads dc`drawableTerrain, dc`modelviewProjection, dc`screenProjection, dc`viewport, dc`pickMode
    {
      Mockup(dc.Terrain(), dc.modelviewProjection, viewerMvpMatrix, dc.screenProjection, dc.viewport, dc.pickMode,
             framebuffer, ambient, mockupProgram.Some? && mockupBuilds, framebufferBinds, visibilityTextureBinds,
             squareBinds, screenTextureBinds, attrib)
    }

    /**
     * Draws the mockup: nothing at all unless the program is present and builds;
     * otherwise the viewer's depth is captured, and only when that succeeded are the
     * visibility and screen passes drawn. The drawable's own program is current
     * afterwards.
     */
    method Draw(dc: DrawContext, programBuilds: bool, mockupBuilds: bool, framebufferBinds: bool,
                visibilityTextureBinds: bool, squareBinds: bool, screenTextureBinds: bool, attrib: (nat, nat) -> bool)
      requires dc.Valid()
      modifies dc`gl, dc`calls, dc`direct, dc`framebufferId, dc`programId, dc`textureUnit, dc.textureId,
        dc`scratchFramebuffer, dc`nextSerial, dc`arrayBufferId, dc`elementArrayBufferId, dc`unitSquareBuffer
      ensures dc.Valid()
      ensures program.None? || !programBuilds ==>
        dc.calls == old(dc.calls) && dc.direct == old(dc.direct) && dc.gl == old(dc.gl) &&
        dc.Snapshot() == old(dc.Snapshot()) && dc.nextSerial == old(dc.nextSerial) &&
        dc.scratchFramebuffer == old(dc.scratchFramebuffer) &&
        dc.unitSquareBuffer == old(dc.unitSquareBuffer)
      ensures program.Some? && programBuilds ==>
        dc.scratchFramebuffer.Some? && dc.programId == program.value.serial &&
        dc.gl == FinalState(MockupIn(dc, dc.scratchFramebuffer.value.serial, old(dc.gl), mockupBuilds, framebufferBinds,
          visibilityTextureBinds, squareBinds, screenTextureBinds, attrib)) &&
        dc.direct == old(dc.direct) + MockupCalls(MockupIn(dc, dc.scratchFramebuffer.value.serial,
          old(dc.gl), mockupBuilds, framebufferBinds, visibilityTextureBinds, squareBinds, screenTextureBinds, attrib))
    {
      if program.None? {
        return;
      }
      var ok := UseShaderProgram(dc, program.value, programBuilds);
      if !ok {
        return;
      }
      DrawInUse(dc, programBuilds, mockupBuilds, framebufferBinds, visibilityTextureBinds, squareBinds,
                screenTextureBinds, attrib);
    }

    /** The three steps, once the drawable's program is in use. */
    method DrawInUse(dc: DrawContext, programBuilds: bool, mockupBuilds: bool, framebufferBinds: bool,
                     visibilityTextureBinds: bool, squareBinds: bool, screenTextureBinds: bool,
                     attrib: (nat, nat) -> bool)
      requires dc.Valid() && program.Some? && programBuilds
      requires dc.programId == program.value.serial
      modifies dc`gl, dc`calls, dc`direct, dc`framebufferId, dc`programId, dc`textureUnit, dc.textureId,
        dc`scratchFramebuffer, dc`nextSerial, dc`arrayBufferId, dc`elementArrayBufferId, dc`unitSquareBuffer
      ensures dc.Valid()
      ensures dc.scratchFramebuffer.Some? && dc.programId == program.value.serial
      ensures dc.gl == FinalState(MockupIn(dc, dc.scratchFramebuffer.value.serial, old(dc.gl), mockupBuilds,
        framebufferBinds, visibilityTextureBinds, squareBinds, screenTextureBinds, attrib))
      ensures dc.direct == old(dc.direct) + MockupCalls(MockupIn(dc, dc.scratchFramebuffer.value.serial,
        old(dc.gl), mockupBuilds, framebufferBinds, visibilityTextureBinds, squareBinds, screenTextureBinds, attrib))
    {
      ghost var g := dc.gl;
      ghost var before := dc.direct;
      var captured := DrawSceneToFramebuffer(dc, programBuilds, framebufferBinds, attrib);
      ghost var m := MockupIn(dc, dc.scratchFramebuffer.value.serial, g, mockupBuilds, framebufferBinds,
        visibilityTextureBinds, squareBinds, screenTextureBinds, attrib);
      ghost var capture := CaptureCalls(m.chunks, m.viewerMvp, m.attrib, m.ambient, m.framebuffer, m.framebufferBinds,
        m.viewport);
      assert dc.direct == before + capture;
      if !captured {
        assert MockupCalls(m) == capture + [];
        return;
      }
      DrawPasses(dc, programBuilds, mockupBuilds, visibilityTextureBinds, squareBinds, screenTextureBinds, attrib);
      AppendAssoc(before, capture, VisibilityCalls(m.chunks, m.mvp, m.viewerMvp, m.attrib, RestoredState(g, m.viewport),
        m.mockupReady && m.visibilityTextureBinds) +
        ScreenCalls(m.pickMode, m.screenProjection, RestoredState(g, m.viewport), m.squareBinds && m.screenTextureBinds));
    }

    /** The visibility and screen passes, once the depth capture succeeded. */
    method DrawPasses(dc: DrawContext, programBuilds: bool, mockupBuilds: bool, visibilityTextureBinds: bool,
                      squareBinds: bool, screenTextureBinds: bool, attrib: (nat, nat) -> bool)
      requires dc.Valid() && program.Some? && programBuilds && dc.scratchFramebuffer.Some?
      modifies dc`gl, dc`calls, dc`direct, dc`programId, dc`textureUnit, dc.textureId, dc`scratchFramebuffer, dc`nextSerial,
        dc`arrayBufferId, dc`elementArrayBufferId, dc`unitSquareBuffer
      ensures dc.Valid()
      ensures dc.scratchFramebuffer == old(dc.scratchFramebuffer) && dc.programId == program.value.serial
      ensures dc.gl == if squareBinds && screenTextureBinds then old(dc.gl).(depthTest := true, texCoordArray := false)
        else old(dc.gl)
      ensures dc.direct == old(dc.direct) +
        (VisibilityCalls(dc.Terrain(), dc.modelviewProjection, viewerMvpMatrix, attrib, old(dc.gl),
           mockupProgram.Some? && mockupBuilds && visibilityTextureBinds) +
         ScreenCalls(dc.pickMode, dc.screenProjection, old(dc.gl), squareBinds && screenTextureBinds))
    {
      ghost var before := dc.direct;
      DrawSceneVisibility(dc, mockupBuilds, visibilityTextureBinds, attrib);
      ghost var visible := dc.direct[|before|..];
      DrawFramebufferToScreen(dc, programBuilds, squareBinds, screenTextureBinds);
      ghost var screen := dc.direct[|before| + |visible|..];
      AppendAssoc(before, visible, screen);
    }

    /**
     * The depth capture: the terrain drawn from the viewer into the scratch
     * framebuffer, without colour. It fails, drawing nothing, when the program or the
     * framebuffer cannot be used; the default framebuffer, the context's viewport and
     * colour writes are restored on every exit.
     */
    method DrawSceneToFramebuffer(dc: DrawContext, programBuilds: bool, framebufferBinds: bool,
                                  attrib: (nat, nat) -> bool) returns (ok: bool)
      requires dc.Valid()
      modifies dc`gl, dc`calls, dc`direct, dc`arrayBufferId, dc`elementArrayBufferId, dc`framebufferId, dc`programId, dc`scratchFramebuffer, dc`nextSerial
      ensures dc.Valid()
      ensures ok == (program.Some? && programBuilds && framebufferBinds)
      ensures old(dc.scratchFramebuffer).Some? ==> dc.scratchFramebuffer == old(dc.scratchFramebuffer)
      ensures program.Some? && programBuilds ==> dc.programId == program.value.serial && dc.scratchFramebuffer.Some?
      ensures !(program.Some? && programBuilds) ==> dc.programId == old(dc.programId)
      ensures dc.gl == RestoredState(old(dc.gl), dc.viewport)
      ensures dc.direct == old(dc.direct) + CaptureCalls(dc.Terrain(), viewerMvpMatrix, attrib, old(dc.gl),
        if ok then dc.scratchFramebuffer.value.serial else 0, ok, dc.viewport)
    {
      ghost var g := dc.gl;
      ghost var before := dc.direct;
      ok := false;
      if program.Some? {
        var used := UseShaderProgram(dc, program.value, programBuilds);
        if used {
          ok := BindAndCapture(dc, framebufferBinds, attrib);
        }
      }
      ghost var captured := dc.direct[|before|..];
      ghost var framebuffer := if ok then dc.scratchFramebuffer.value.serial else 0;
      assert captured == if ok then CaptureSetup + PassCalls(dc.Terrain(), MockupDepthUniforms(viewerMvpMatrix), attrib,
        DEPTH_PASS, |dc.Terrain()|, CaptureState(g, framebuffer)) else [];
      RestoreCapture(dc);
      AppendAssoc(before, captured, CaptureCleanup(dc.viewport));
    }

    /** Binds the scratch framebuffer and, if that succeeded, captures the terrain's depth into it. */
    method BindAndCapture(dc: DrawContext, framebufferBinds: bool, attrib: (nat, nat) -> bool) returns (ok: bool)
      requires dc.Valid()
      modifies dc`gl, dc`calls, dc`direct, dc`arrayBufferId, dc`elementArrayBufferId, dc`framebufferId, dc`scratchFramebuffer, dc`nextSerial
      ensures dc.Valid() && dc.scratchFramebuffer.Some? && ok == framebufferBinds
      ensures old(dc.scratchFramebuffer).Some? ==> dc.scratchFramebuffer == old(dc.scratchFramebuffer)
      ensures ok ==> dc.direct == old(dc.direct) + (CaptureSetup + PassCalls(dc.Terrain(),
        MockupDepthUniforms(viewerMvpMatrix), attrib, DEPTH_PASS, |dc.Terrain()|,
        CaptureState(old(dc.gl), dc.scratchFramebuffer.value.serial)))
      ensures !ok ==> dc.direct == old(dc.direct)
      ensures !ok ==> dc.gl == old(dc.gl)
      ensures ok ==> dc.gl == CaptureState(old(dc.gl), dc.scratchFramebuffer.value.serial)
    {
      var framebuffer := dc.ScratchFramebuffer();
      ok := BindAndCaptureInto(dc, framebuffer, framebufferBinds, attrib);
    }

    /** Binds the given scratch framebuffer and, if that succeeded, captures the terrain's depth into it. */
    method BindAndCaptureInto(dc: DrawContext, framebuffer: Framebuffer, framebufferBinds: bool,
                              attrib: (nat, nat) -> bool) returns (ok: bool)
      requires dc.Valid() && IsScratchFramebuffer(framebuffer)
      modifies dc`gl, dc`calls, dc`direct, dc`arrayBufferId, dc`elementArrayBufferId, dc`framebufferId
      ensures dc.Valid() && ok == framebufferBinds
      ensures ok ==> dc.direct == old(dc.direct) + (CaptureSetup + PassCalls(dc.Terrain(),
        MockupDepthUniforms(viewerMvpMatrix), attrib, DEPTH_PASS, |dc.Terrain()|,
        CaptureState(old(dc.gl), framebuffer.serial)))
      ensures !ok ==> dc.direct == old(dc.direct) && dc.gl == old(dc.gl)
      ensures ok ==> dc.gl == CaptureState(old(dc.gl), framebuffer.serial)
    {
      ok := BindFramebufferObject(dc, framebuffer, framebufferBinds);
      if ok {
        CaptureSceneDepth(dc, framebuffer, attrib);
      }
    }

    /** The capture proper, once the scratch framebuffer is bound. */
    method CaptureSceneDepth(dc: DrawContext, framebuffer: Framebuffer, attrib: (nat, nat) -> bool)
      requires dc.Valid() && IsScratchFramebuffer(framebuffer)
      modifies dc`gl, dc`calls, dc`direct, dc`arrayBufferId, dc`elementArrayBufferId
      ensures dc.Valid()
      ensures dc.gl == old(dc.gl).(viewport := Viewport(0, 0, SCRATCH_SIZE, SCRATCH_SIZE), colorMask := NoColorWrites)
      ensures dc.direct == old(dc.direct) + (CaptureSetup + PassCalls(dc.Terrain(),
        MockupDepthUniforms(viewerMvpMatrix), attrib, DEPTH_PASS, |dc.Terrain()|, dc.gl))
    {
      ghost var before := dc.direct;
      BeginCapture(dc, framebuffer.depthAttachment);
      DrawTerrainPass(dc, MockupDepthUniforms(viewerMvpMatrix), attrib, DEPTH_PASS);
      AppendAssoc(before, CaptureSetup, PassCalls(dc.Terrain(), MockupDepthUniforms(viewerMvpMatrix), attrib,
        DEPTH_PASS, |dc.Terrain()|, dc.gl));
    }

    /**
     * The visibility pass: with the mockup program in use, texture unit 0 active and
     * the captured depth bound to it, every chunk is drawn from the camera in white,
     * with the viewer's matrix biased into texture space.
     */
    method DrawSceneVisibility(dc: DrawContext, mockupBuilds: bool, textureBinds: bool, attrib: (nat, nat) -> bool)
      requires dc.Valid()
      modifies dc`gl, dc`calls, dc`direct, dc`arrayBufferId, dc`elementArrayBufferId, dc`programId, dc`textureUnit, dc.textureId, dc`scratchFramebuffer, dc`nextSerial
      ensures dc.Valid() && dc.gl == old(dc.gl)
      ensures old(dc.scratchFramebuffer).Some? ==> dc.scratchFramebuffer == old(dc.scratchFramebuffer)
      ensures mockupProgram.None? || !mockupBuilds ==> dc.calls == old(dc.calls) && dc.programId == old(dc.programId)
      ensures mockupProgram.Some? && mockupBuilds ==>
        dc.programId == mockupProgram.value.serial && dc.textureUnit == GL_TEXTURE0 && dc.scratchFramebuffer.Some?
      ensures mockupProgram.Some? && mockupBuilds && textureBinds ==>
        dc.CurrentTexture(GL_TEXTURE0) == dc.scratchFramebuffer.value.depthAttachment.serial
      ensures dc.direct == old(dc.direct) + VisibilityCalls(dc.Terrain(), dc.modelviewProjection,
        viewerMvpMatrix, attrib, dc.gl, mockupProgram.Some? && mockupBuilds && textureBinds)
    {
      if mockupProgram.None? {
        return;
      }
      var used := UseShaderProgram(dc, mockupProgram.value, mockupBuilds);
      if !used {
        return;
      }
      DrawVisibilityWithProgram(dc, textureBinds, attrib);
    }

    /** The visibility pass once its program is in use: texture unit 0, the scratch depth texture, the terrain. */
    method DrawVisibilityWithProgram(dc: DrawContext, textureBinds: bool, attrib: (nat, nat) -> bool)
      requires dc.Valid()
      modifies dc`gl, dc`calls, dc`direct, dc`arrayBufferId, dc`elementArrayBufferId, dc`textureUnit, dc.textureId, dc`scratchFramebuffer, dc`nextSerial
      ensures dc.Valid() && dc.gl == old(dc.gl)
      ensures old(dc.scratchFramebuffer).Some? ==> dc.scratchFramebuffer == old(dc.scratchFramebuffer)
      ensures dc.textureUnit == GL_TEXTURE0 && dc.scratchFramebuffer.Some?
      ensures textureBinds ==> dc.CurrentTexture(GL_TEXTURE0) == dc.scratchFramebuffer.value.depthAttachment.serial
      ensures dc.direct == old(dc.direct) + VisibilityCalls(dc.Terrain(), dc.modelviewProjection,
        viewerMvpMatrix, attrib, dc.gl, textureBinds)
    {
      dc.ActiveTextureUnit(GL_TEXTURE0);
      var framebuffer := dc.ScratchFramebuffer();
      BindAndDrawVisibility(dc, framebuffer.depthAttachment, textureBinds, attrib);
    }

    /** The visibility pass once its program is in use: bind the captured depth, then draw when it bound. */
    method BindAndDrawVisibility(dc: DrawContext, depth: Texture, textureBinds: bool, attrib: (nat, nat) -> bool)
      requires dc.Valid() && UnitInRange(dc.textureUnit)
      modifies dc.textureId, dc`gl, dc`calls, dc`direct, dc`arrayBufferId, dc`elementArrayBufferId
      ensures dc.Valid() && dc.gl == old(dc.gl)
      ensures textureBinds ==> dc.CurrentTexture(dc.textureUnit) == depth.serial
      ensures dc.direct == old(dc.direct) + VisibilityCalls(dc.Terrain(), dc.modelviewProjection,
        viewerMvpMatrix, attrib, dc.gl, textureBinds)
    {
      var bound := BindTextureObject(dc, depth, textureBinds);
      if bound {
        DrawVisibleTerrain(dc, attrib);
      }
    }

    /** The visibility pass's colour and terrain loop, once its program and texture are ready. */
    method DrawVisibleTerrain(dc: DrawContext, attrib: (nat, nat) -> bool)
      requires dc.Valid()
      modifies dc`gl, dc`calls, dc`direct, dc`arrayBufferId, dc`elementArrayBufferId
      ensures dc.Valid() && dc.gl == old(dc.gl)
      ensures dc.direct == old(dc.direct) + VisibilityCalls(dc.Terrain(), dc.modelviewProjection,
        viewerMvpMatrix, attrib, dc.gl, true)
    {
      ghost var before := dc.direct;
      dc.GlCall(LoadColor(White));
      DrawTerrainPass(dc, MockupVisibilityUniforms(dc.modelviewProjection, viewerMvpMatrix), attrib, VISIBILITY_PASS);
      AppendAssoc(before, [LoadColor(White)], PassCalls(dc.Terrain(),
        MockupVisibilityUniforms(dc.modelviewProjection, viewerMvpMatrix), attrib, VISIBILITY_PASS, |dc.Terrain()|, dc.gl));
    }

    /**
     * The screen pass: with the program in use, the unit square buffer bound and the
     * captured depth bound to texture unit 0, the square is drawn textured over
     * 512 x 512 pixels of the screen with the depth test off, after which the depth
     * test is on and the texture coordinate attribute off.
     */
    method DrawFramebufferToScreen(dc: DrawContext, programBuilds: bool, squareBinds: bool, textureBinds: bool)
      requires dc.Valid()
      modifies dc`gl, dc`calls, dc`direct, dc`programId, dc`textureUnit, dc.textureId, dc`scratchFramebuffer, dc`nextSerial,
        dc`arrayBufferId, dc`elementArrayBufferId, dc`unitSquareBuffer
      ensures dc.Valid()
      ensures old(dc.scratchFramebuffer).Some? ==> dc.scratchFramebuffer == old(dc.scratchFramebuffer)
      ensures program.Some? && programBuilds ==> dc.programId == program.value.serial
      ensures program.Some? && programBuilds && squareBinds && textureBinds ==>
        dc.gl == old(dc.gl).(depthTest := true, texCoordArray := false)
      ensures !(program.Some? && programBuilds && squareBinds && textureBinds) ==> dc.gl == old(dc.gl)
      ensures dc.direct == old(dc.direct) + ScreenCalls(dc.pickMode, dc.screenProjection, old(dc.gl),
        program.Some? && programBuilds && squareBinds && textureBinds)
    {
      if program.None? {
        return;
      }
      var used := UseShaderProgram(dc, program.value, programBuilds);
      if !used {
        return;
      }
      var ready := BindSquareAndTexture(dc, squareBinds, textureBinds);
      if !ready {
        return;
      }
      ShowSquare(dc);
    }

    /** Draws the textured square, once the program, the square buffer and the texture are ready. */
    static method ShowSquare(dc: DrawContext)
      requires dc.Valid()
      modifies dc`gl, dc`calls, dc`direct
      ensures dc.Valid() && dc.gl == old(dc.gl).(depthTest := true, texCoordArray := false)
      ensures dc.direct == old(dc.direct) + ScreenCalls(dc.pickMode, dc.screenProjection, old(dc.gl), true)
    {
      ghost var before := dc.direct;
      LoadSquareUniforms(dc, dc.pickMode, dc.screenProjection);
      DrawSquare(dc);
      AppendAssoc(before, SquareLoads(dc.pickMode, dc.screenProjection), SquareDrawCalls(old(dc.gl)));
    }

    /** Binds the unit square buffer and, if that succeeded, the captured depth to texture unit 0. */
    static method BindSquareAndTexture(dc: DrawContext, squareBinds: bool, textureBinds: bool) returns (ready: bool)
      requires dc.Valid()
      modifies dc`gl, dc`calls, dc`direct, dc`textureUnit, dc.textureId, dc`scratchFramebuffer, dc`nextSerial,
        dc`arrayBufferId, dc`elementArrayBufferId, dc`unitSquareBuffer
      ensures dc.Valid() && dc.gl == old(dc.gl) && dc.direct == old(dc.direct)
      ensures old(dc.scratchFramebuffer).Some? ==> dc.scratchFramebuffer == old(dc.scratchFramebuffer)
      ensures ready == (squareBinds && textureBinds)
      ensures ready ==>
        dc.unitSquareBuffer.Some? && dc.CurrentBuffer(GL_ARRAY_BUFFER) == dc.unitSquareBuffer.value.serial &&
        dc.textureUnit == GL_TEXTURE0 && dc.scratchFramebuffer.Some? &&
        dc.CurrentTexture(GL_TEXTURE0) == dc.scratchFramebuffer.value.depthAttachment.serial
    {
      var square := dc.UnitSquareBuffer();
      ready := BindBufferObject(dc, square, squareBinds);
      if !ready {
        return;
      }
      ready := BindDepthTexture(dc, textureBinds);
    }

    /** Makes texture unit 0 active and binds the scratch framebuffer's depth attachment to it. */
    static method BindDepthTexture(dc: DrawContext, textureBinds: bool) returns (bound: bool)
      requires dc.Valid()
      modifies dc`gl, dc`calls, dc`direct, dc`textureUnit, dc.textureId, dc`scratchFramebuffer, dc`nextSerial
      ensures dc.Valid() && dc.gl == old(dc.gl) && dc.direct == old(dc.direct)
      ensures old(dc.scratchFramebuffer).Some? ==> dc.scratchFramebuffer == old(dc.scratchFramebuffer)
      ensures bound == textureBinds && dc.textureUnit == GL_TEXTURE0 && dc.scratchFramebuffer.Some?
      ensures bound ==> dc.CurrentTexture(GL_TEXTURE0) == dc.scratchFramebuffer.value.depthAttachment.serial
    {
      dc.ActiveTextureUnit(GL_TEXTURE0);
      var framebuffer := dc.ScratchFramebuffer();
      bound := BindTextureObject(dc, framebuffer.depthAttachment, textureBinds);
    }
  }
}
