/**
 * The drawable of an omnidirectional sensor's range: the unit sphere, scaled to the
 * sensor's range and placed at the sensor, drawn translucent where it lies behind
 * what is already in the depth buffer (depth test GL_GREATER), after which the
 * depth test is put back to GL_LEQUAL.
 */
module SensorRangeDrawables {
  import opened Gles
  import opened BindingCache
  import opened Resources
  import opened DrawContexts
  import opened UnitShapes
  import opened Collaborators

  /** The colour the range sphere is drawn in: white at half opacity. */
  const RangeColor: Color := Color(1.0, 1.0, 1.0, 0.5)

  /** The sphere's modelview-projection: the scene's, into the sensor's local frame, scaled by the range. */
  function RangeMatrix(mvp: Matrix, sensorTransform: Matrix, range: real): Matrix
  {
    Scale(Multiply(mvp, sensorTransform), range, range, range)
  }

  /** The program state the sphere is drawn with: no pick mode, no texture, the range colour. */
  const StyleCalls: seq<Call> := [EnablePickMode(false), EnableTexturing(false), LoadColor(RangeColor)]

  /** Drawing the bound sphere: its matrix, the inverted depth test, the strip, and the usual depth test again. */
  function SphereCalls(matrix: Matrix, count: int, g: GlState): seq<Call>
  {
    [LoadModelviewProjection(matrix), DepthFunc(GL_GREATER), VertexAttribPointer(0, 3),
     DrawElements(GL_TRIANGLE_STRIP, count, g.(depthFunc := GL_GREATER)), DepthFunc(GL_LEQUAL)]
  }

  /**
   * The calls of a draw whose program is in use, other than the binds: the style is
   * always loaded; the sphere is drawn only when both of its buffers bind.
   */
  function RangeCalls(mvp: Matrix, sensorTransform: Matrix, range: real, g: GlState,
                      vertexBinds: bool, elementBinds: bool): seq<Call>
  {
    StyleCalls +
    if vertexBinds && elementBinds
    then SphereCalls(RangeMatrix(mvp, sensorTransform, range), ElementCount(SPHERE_LATITUDES, SPHERE_LONGITUDES), g)
    else []
  }

  lemma StyleCallsAreLoads()
    ensures forall i :: 0 <= i < |StyleCalls| ==> StyleCalls[i].IsLoad()
  {
  }

  /**
   * One draw at most: when both buffers bind, the whole unit-sphere strip is drawn
   * once, with the depth test inverted so that only the part of the sphere hidden
   * behind the scene shows; otherwise nothing is drawn.
   */
  lemma RangeDraws(mvp: Matrix, sensorTransform: Matrix, range: real, g: GlState, vertexBinds: bool, elementBinds: bool)
    ensures vertexBinds && elementBinds ==>
      Draws(RangeCalls(mvp, sensorTransform, range, g, vertexBinds, elementBinds)) ==
        [DrawElements(GL_TRIANGLE_STRIP, ElementCount(SPHERE_LATITUDES, SPHERE_LONGITUDES), g.(depthFunc := GL_GREATER))]
    ensures !(vertexBinds && elementBinds) ==> Draws(RangeCalls(mvp, sensorTransform, range, g, vertexBinds, elementBinds)) == []
  {
    StyleDrawsNothing();
    if vertexBinds && elementBinds {
      var matrix := RangeMatrix(mvp, sensorTransform, range);
      var count := ElementCount(SPHERE_LATITUDES, SPHERE_LONGITUDES);
      SphereDraws(matrix, count, g);
      DrawsOfConcat(StyleCalls, SphereCalls(matrix, count, g), [], [DrawElements(GL_TRIANGLE_STRIP, count, g.(depthFunc := GL_GREATER))]);
      AppendEmpty([DrawElements(GL_TRIANGLE_STRIP, count, g.(depthFunc := GL_GREATER))]);
    } else {
      AppendEmptyRight(StyleCalls);
    }
  }

  lemma StyleDrawsNothing()
    ensures Draws(StyleCalls) == []
  {
    StyleCallsAreLoads();
    DrawsOfNonDraws(StyleCalls);
  }

  /** The sphere's calls draw the strip once, with the depth test inverted. */
  lemma SphereDraws(matrix: Matrix, count: int, g: GlState)
    ensures Draws(SphereCalls(matrix, count, g)) == [DrawElements(GL_TRIANGLE_STRIP, count, g.(depthFunc := GL_GREATER))]
  {
    var head := [LoadModelviewProjection(matrix), DepthFunc(GL_GREATER), VertexAttribPointer(0, 3)];
    var tail := [DepthFunc(GL_LEQUAL)];
    DrawsOfNonDraws(head);
    DrawsOfNonDraws(tail);
    assert SphereCalls(matrix, count, g) == head + [DrawElements(GL_TRIANGLE_STRIP, count, g.(depthFunc := GL_GREATER))] + tail;
    DrawsAround(head, DrawElements(GL_TRIANGLE_STRIP, count, g.(depthFunc := GL_GREATER)), tail);
  }

  /** Driving the sphere's calls inverts the depth test for the draw and leaves it at GL_LEQUAL. */
  lemma SphereEffect(matrix: Matrix, count: int, g: GlState)
    ensures SphereCalls(matrix, count, g)[3].state == Run(g, SphereCalls(matrix, count, g)[..3])
    ensures Run(g, SphereCalls(matrix, count, g)) == g.(depthFunc := GL_LEQUAL)
  {
    var cs := SphereCalls(matrix, count, g);
    var greater := g.(depthFunc := GL_GREATER);
    var head, draw, tail := cs[..3], [cs[3]], [cs[4]];
    assert head == [cs[0]] + [cs[1]] + [cs[2]];
    assert cs == head + draw + tail;
    RunOne(g, cs[0]);
    RunOne(g, cs[1]);
    RunOne(greater, cs[2]);
    RunAppend(g, [cs[0]], [cs[1]]);
    RunAppend(g, [cs[0]] + [cs[1]], [cs[2]]);
    assert Run(g, head) == greater;
    RunOne(greater, cs[3]);
    RunOne(greater, cs[4]);
    RunAppend(g, head, draw);
    RunAppend(g, head + draw, tail);
  }

  /** The state recorded with the sphere's draw is the state the calls before it established. */
  lemma RangeDrawState(mvp: Matrix, sensorTransform: Matrix, range: real, g: GlState)
    ensures RangeCalls(mvp, sensorTransform, range, g, true, true)[6].DrawElements?
    ensures RangeCalls(mvp, sensorTransform, range, g, true, true)[6].state ==
      Run(g, RangeCalls(mvp, sensorTransform, range, g, true, true)[..6])
  {
    var cs := RangeCalls(mvp, sensorTransform, range, g, true, true);
    var sphere := SphereCalls(RangeMatrix(mvp, sensorTransform, range), ElementCount(SPHERE_LATITUDES, SPHERE_LONGITUDES), g);
    assert cs[..6] == StyleCalls + sphere[..3];
    StyleCallsAreLoads();
    RunOfLoadsAndDraws(g, StyleCalls);
    RunAppend(g, StyleCalls, sphere[..3]);
    SphereEffect(RangeMatrix(mvp, sensorTransform, range), ElementCount(SPHERE_LATITUDES, SPHERE_LONGITUDES), g);
  }

  /**
   * The draw leaves the driver as it found it, except that the depth test is left at
   * GL_LEQUAL when the sphere was drawn.
   */
  lemma RangeEffect(mvp: Matrix, sensorTransform: Matrix, range: real, g: GlState, vertexBinds: bool, elementBinds: bool)
    ensures Run(g, RangeCalls(mvp, sensorTransform, range, g, vertexBinds, elementBinds)) ==
      if vertexBinds && elementBinds then g.(depthFunc := GL_LEQUAL) else g
  {
    StyleCallsAreLoads();
    RunOfLoadsAndDraws(g, StyleCalls);
    if vertexBinds && elementBinds {
      var sphere := SphereCalls(RangeMatrix(mvp, sensorTransform, range), ElementCount(SPHERE_LATITUDES, SPHERE_LONGITUDES), g);
      RunAppend(g, StyleCalls, sphere);
      SphereEffect(RangeMatrix(mvp, sensorTransform, range), ElementCount(SPHERE_LATITUDES, SPHERE_LONGITUDES), g);
    } else {
      assert StyleCalls + [] == StyleCalls;
      assert RangeCalls(mvp, sensorTransform, range, g, vertexBinds, elementBinds) == StyleCalls;
    }
  }

  /** Loads the sphere's style into the program in use. */
  method LoadRangeStyle(dc: DrawContext)
    requires dc.Valid()
    modifies dc`gl, dc`calls, dc`direct
    ensures dc.Valid() && dc.gl == old(dc.gl)
    ensures dc.calls == old(dc.calls) + StyleCalls
    ensures dc.direct == old(dc.direct) + StyleCalls
  {
    AppendThree(dc.calls, StyleCalls);
    AppendThree(dc.direct, StyleCalls);
    dc.GlCall(EnablePickMode(false));
    dc.GlCall(EnableTexturing(false));
    dc.GlCall(LoadColor(RangeColor));
  }

  /** Call by call, the sphere changes only the depth function: GL_GREATER up to the draw, GL_LEQUAL after it. */
  lemma SphereSteps(matrix: Matrix, count: int, g: GlState)
    ensures Apply(Apply(Apply(g, LoadModelviewProjection(matrix)), DepthFunc(GL_GREATER)), VertexAttribPointer(0, 3)) ==
      g.(depthFunc := GL_GREATER)
    ensures Apply(Apply(g.(depthFunc := GL_GREATER), DrawElements(GL_TRIANGLE_STRIP, count, g.(depthFunc := GL_GREATER))),
      DepthFunc(GL_LEQUAL)) == g.(depthFunc := GL_LEQUAL)
  {
  }

  /** Draws the sphere whose buffers are bound. */
  method DrawSphere(dc: DrawContext, matrix: Matrix, count: int)
    requires dc.Valid()
    modifies dc`gl, dc`calls, dc`direct
    ensures dc.Valid() && dc.gl == old(dc.gl).(depthFunc := GL_LEQUAL)
    ensures dc.calls == old(dc.calls) + SphereCalls(matrix, count, old(dc.gl))
    ensures dc.direct == old(dc.direct) + SphereCalls(matrix, count, old(dc.gl))
  {
    SphereSteps(matrix, count, dc.gl);
    AppendFive(dc.calls, SphereCalls(matrix, count, dc.gl));
    AppendFive(dc.direct, SphereCalls(matrix, count, dc.gl));
    dc.GlCall(LoadModelviewProjection(matrix));
    dc.GlCall(DepthFunc(GL_GREATER));
    dc.GlCall(VertexAttribPointer(0, 3));
    dc.GlCall(DrawElements(GL_TRIANGLE_STRIP, count, dc.gl));
    dc.GlCall(DepthFunc(GL_LEQUAL));
  }

  class DrawableOmnidirectionalSensorRange {
    var sensorTransform: Matrix
    var range: real
    var visibleColor: Color
    var occludedColor: Color
    var program: Option<Program>

    constructor ()
      ensures sensorTransform == Identity && range == 0.0 && program.None?
      ensures visibleColor == White && occludedColor == White
    {
      sensorTransform := Identity;
      range := 0.0;
      visibleColor, occludedColor := White, White;
      program := None;
    }

    /**
     * Draws the range sphere. Nothing happens unless the program is present and
     * builds; the style is then loaded, the sphere's vertex buffer is bound and, if
     * that succeeded, its element buffer; the sphere is drawn only when both bound.
     */
    method Draw(dc: DrawContext, programBuilds: bool, vertexBinds: bool, elementBinds: bool)
      requires dc.Valid()
      modifies dc`programId, dc`gl, dc`calls, dc`direct, dc`arrayBufferId, dc`elementArrayBufferId,
        dc`unitSphereBuffer, dc`unitSphereElements, dc`nextSerial
      ensures dc.Valid()
      ensures program.None? || !programBuilds ==>
        dc.calls == old(dc.calls) && dc.direct == old(dc.direct) && dc.gl == old(dc.gl) &&
        dc.Snapshot() == old(dc.Snapshot()) && dc.nextSerial == old(dc.nextSerial) &&
        dc.unitSphereBuffer == old(dc.unitSphereBuffer) &&
        dc.unitSphereElements == old(dc.unitSphereElements)
      ensures program.Some? && programBuilds ==>
        dc.programId == program.value.serial && dc.unitSphereBuffer.Some? &&
        dc.gl == Run(old(dc.gl), RangeCalls(dc.modelviewProjection, sensorTransform, range, old(dc.gl), vertexBinds, elementBinds)) &&
        dc.direct == old(dc.direct) +
          RangeCalls(dc.modelviewProjection, sensorTransform, range, old(dc.gl), vertexBinds, elementBinds)
      ensures program.Some? && programBuilds && vertexBinds && elementBinds ==>
        dc.unitSphereBuffer.Some? && dc.unitSphereElements.Some? && |dc.calls| >= 7 &&
        dc.calls[|dc.calls| - 7..] ==
          [Call.BindBuffer(GL_ARRAY_BUFFER, dc.unitSphereBuffer.value.serial),
           Call.BindBuffer(GL_ELEMENT_ARRAY_BUFFER, dc.unitSphereElements.value.serial)] +
          SphereCalls(RangeMatrix(dc.modelviewProjection, sensorTransform, range),
                      ElementCount(SPHERE_LATITUDES, SPHERE_LONGITUDES), old(dc.gl)) &&
        dc.CurrentBuffer(GL_ARRAY_BUFFER) == dc.unitSphereBuffer.value.serial &&
        dc.CurrentBuffer(GL_ELEMENT_ARRAY_BUFFER) == dc.unitSphereElements.value.serial
    {
      if program.None? {
        return;
      }
      var ok := UseShaderProgram(dc, program.value, programBuilds);
      if !ok {
        return;
      }
      DrawInUse(dc, vertexBinds, elementBinds);
    }

    /** The draw once the program is in use. */
    method DrawInUse(dc: DrawContext, vertexBinds: bool, elementBinds: bool)
      requires dc.Valid()
      modifies dc`gl, dc`calls, dc`direct, dc`arrayBufferId, dc`elementArrayBufferId,
        dc`unitSphereBuffer, dc`unitSphereElements, dc`nextSerial
      ensures dc.Valid() && dc.unitSphereBuffer.Some?
      ensures dc.gl == Run(old(dc.gl), RangeCalls(dc.modelviewProjection, sensorTransform, range, old(dc.gl), vertexBinds, elementBinds))
      ensures dc.direct == old(dc.direct) +
          RangeCalls(dc.modelviewProjection, sensorTransform, range, old(dc.gl), vertexBinds, elementBinds)
      ensures vertexBinds && elementBinds ==>
        dc.unitSphereElements.Some? && |dc.calls| >= 7 &&
        dc.calls[|dc.calls| - 7..] ==
          [Call.BindBuffer(GL_ARRAY_BUFFER, dc.unitSphereBuffer.value.serial),
           Call.BindBuffer(GL_ELEMENT_ARRAY_BUFFER, dc.unitSphereElements.value.serial)] +
          SphereCalls(RangeMatrix(dc.modelviewProjection, sensorTransform, range),
                      ElementCount(SPHERE_LATITUDES, SPHERE_LONGITUDES), old(dc.gl)) &&
        dc.CurrentBuffer(GL_ARRAY_BUFFER) == dc.unitSphereBuffer.value.serial &&
        dc.CurrentBuffer(GL_ELEMENT_ARRAY_BUFFER) == dc.unitSphereElements.value.serial
    {
      ghost var g := dc.gl;
      ghost var before := dc.direct;
      RangeEffect(dc.modelviewProjection, sensorTransform, range, g, vertexBinds, elementBinds);
      LoadRangeStyle(dc);
      var bound, vertexBuffer, elementBuffer := BindSphereBuffers(dc, vertexBinds, elementBinds);
      if bound {
        DrawRange(dc, vertexBuffer, elementBuffer, g, before);
      } else {
        assert StyleCalls + [] == StyleCalls;
      }
    }

    /** Binds the unit sphere's vertex buffer and, if that succeeded, its element buffer. */
    static method BindSphereBuffers(dc: DrawContext, vertexBinds: bool, elementBinds: bool)
      returns (bound: bool, vertexBuffer: BufferObject, elementBuffer: BufferObject)
      requires dc.Valid()
      modifies dc`gl, dc`calls, dc`direct, dc`arrayBufferId, dc`elementArrayBufferId,
        dc`unitSphereBuffer, dc`unitSphereElements, dc`nextSerial
      ensures dc.Valid() && dc.gl == old(dc.gl) && dc.direct == old(dc.direct)
      ensures bound == (vertexBinds && elementBinds) && dc.unitSphereBuffer == Some(vertexBuffer)
      ensures bound ==>
        dc.unitSphereElements == Some(elementBuffer) &&
        elementBuffer.BufferLength() == ElementCount(SPHERE_LATITUDES, SPHERE_LONGITUDES) &&
        dc.calls == old(dc.calls) + [Call.BindBuffer(GL_ARRAY_BUFFER, vertexBuffer.serial),
                                     Call.BindBuffer(GL_ELEMENT_ARRAY_BUFFER, elementBuffer.serial)] &&
        dc.CurrentBuffer(GL_ARRAY_BUFFER) == vertexBuffer.serial &&
        dc.CurrentBuffer(GL_ELEMENT_ARRAY_BUFFER) == elementBuffer.serial
    {
      vertexBuffer := dc.UnitSphereBuffer();
      elementBuffer := vertexBuffer;
      bound := BindBufferObject(dc, vertexBuffer, vertexBinds);
      if !bound {
        return;
      }
      elementBuffer, bound := BindSphereElements(dc, elementBinds);
    }

    /** Binds the unit sphere's element buffer, building it first if need be. */
    static method BindSphereElements(dc: DrawContext, elementBinds: bool) returns (elementBuffer: BufferObject, bound: bool)
      requires dc.Valid()
      modifies dc`gl, dc`calls, dc`direct, dc`arrayBufferId, dc`elementArrayBufferId, dc`unitSphereElements, dc`nextSerial
      ensures dc.Valid() && dc.gl == old(dc.gl) && dc.direct == old(dc.direct)
      ensures bound == elementBinds && dc.unitSphereElements == Some(elementBuffer)
      ensures elementBuffer.BufferLength() == ElementCount(SPHERE_LATITUDES, SPHERE_LONGITUDES)
      ensures dc.arrayBufferId == old(dc.arrayBufferId)
      ensures bound ==>
        dc.calls == old(dc.calls) + [Call.BindBuffer(GL_ELEMENT_ARRAY_BUFFER, elementBuffer.serial)] &&
        dc.CurrentBuffer(GL_ELEMENT_ARRAY_BUFFER) == elementBuffer.serial
    {
      elementBuffer := dc.UnitSphereElements();
      assert ElementCount(SPHERE_LATITUDES, SPHERE_LONGITUDES) == 28796;
      bound := BindBufferObject(dc, elementBuffer, elementBinds);
    }

    /** The draw once both sphere buffers are bound. */
    method DrawRange(dc: DrawContext, vertexBuffer: BufferObject, elementBuffer: BufferObject, ghost g: GlState,
                     ghost before: seq<Call>)
      requires dc.Valid() && dc.gl == g && dc.direct == before + StyleCalls
      requires elementBuffer.BufferLength() == ElementCount(SPHERE_LATITUDES, SPHERE_LONGITUDES)
      requires |dc.calls| >= 2 &&
        dc.calls[|dc.calls| - 2..] == [Call.BindBuffer(GL_ARRAY_BUFFER, vertexBuffer.serial),
                                       Call.BindBuffer(GL_ELEMENT_ARRAY_BUFFER, elementBuffer.serial)]
      modifies dc`gl, dc`calls, dc`direct
      ensures dc.Valid() && dc.gl == g.(depthFunc := GL_LEQUAL)
      ensures dc.direct == before + RangeCalls(dc.modelviewProjection, sensorTransform, range, g, true, true)
      ensures |dc.calls| >= 7 &&
        dc.calls[|dc.calls| - 7..] ==
          [Call.BindBuffer(GL_ARRAY_BUFFER, vertexBuffer.serial),
           Call.BindBuffer(GL_ELEMENT_ARRAY_BUFFER, elementBuffer.serial)] +
          SphereCalls(RangeMatrix(dc.modelviewProjection, sensorTransform, range),
                      ElementCount(SPHERE_LATITUDES, SPHERE_LONGITUDES), g)
    {
      ghost var binds := dc.calls[|dc.calls| - 2..];
      ghost var prior := dc.calls;
      var matrix := RangeMatrix(dc.modelviewProjection, sensorTransform, range);
      DrawSphere(dc, matrix, elementBuffer.BufferLength());
      ghost var sphere := SphereCalls(matrix, ElementCount(SPHERE_LATITUDES, SPHERE_LONGITUDES), g);
      assert dc.calls[|dc.calls| - 7..] == prior[|prior| - 2..] + sphere;
      AppendAssoc(before, StyleCalls, sphere);
    }
  }
}
