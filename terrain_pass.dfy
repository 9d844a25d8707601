/**
 * The terrain loop shared by the offscreen and onscreen passes of the sensor and
 * mockup drawables (DrawableOmnidirectionalSensor.java: drawSceneDepth,
 * drawSceneOcclusion; DrawableVisibilityMockup.java: drawSceneToFramebuffer,
 * drawSceneVisibility). Each terrain chunk of the frame is visited in index order;
 * a chunk whose vertex attribute fails to bind is skipped, every other chunk has its
 * vertex buffer bound through the draw context's cache and pointed to by attribute
 * 0, gets its uniforms loaded relative to its vertex origin and is drawn once.
 *
 * Whether a chunk's attribute binds is decided by code outside this model
 * (DrawableTerrain.useVertexPointAttrib); it is the oracle `attrib`, asked with the
 * number of the pass and the index of the chunk.
 */
module TerrainPasses {
  import opened Gles
  import opened Resources
  import opened DrawContexts

  /** What a pass loads for each chunk, with the matrices it is built from. */
  datatype ChunkUniforms =
    | SensorDepthUniforms(projection: Matrix, view: Matrix)
    | SensorOcclusionUniforms(mvp: Matrix, projection: Matrix, view: Matrix)
    | MockupDepthUniforms(viewerMvp: Matrix)
    | MockupVisibilityUniforms(mvp: Matrix, viewerMvp: Matrix)

  /**
   * The uniform loads for a chunk whose vertices are relative to `origin`: every
   * matrix is translated to the chunk's local coordinates.
   */
  function UniformLoads(u: ChunkUniforms, origin: Vec3): (r: seq<Call>)
    ensures 1 <= |r| <= 2
    ensures forall i :: 0 <= i < |r| ==> r[i].IsLoad()
  {
    match u
    case SensorDepthUniforms(projection, view) =>
      [LoadModelviewProjection(Translate(Multiply(projection, view), origin))]
    case SensorOcclusionUniforms(mvp, projection, view) =>
      [LoadModelviewProjection(Translate(mvp, origin)), LoadOccludeviewProjection(projection, Translate(view, origin))]
    case MockupDepthUniforms(viewerMvp) =>
      [LoadModelviewProjection(Translate(viewerMvp, origin))]
    case MockupVisibilityUniforms(mvp, viewerMvp) =>
      [LoadProjectionMatrices(Translate(mvp, origin), Translate(Multiply(TextureBias, viewerMvp), origin))]
  }

  /**
   * The calls the pass itself makes for one bindable chunk: the pointer to its three
   * coordinates per vertex, its uniforms, then its triangles, drawn in state g.
   */
  function ChunkCalls(u: ChunkUniforms, chunk: TerrainChunk, index: nat, g: GlState): seq<Call>
  {
    [VertexAttribPointer(0, 3)] + UniformLoads(u, chunk.vertexOrigin) + [DrawTerrainTriangles(index, g)]
  }

  /** Every call into the driver for one bindable chunk: the cache's bind of its vertex buffer first. */
  function ChunkLog(u: ChunkUniforms, chunk: TerrainChunk, index: nat, g: GlState): seq<Call>
  {
    [Call.BindBuffer(GL_ARRAY_BUFFER, chunk.vertexPoints)] + ChunkCalls(u, chunk, index, g)
  }

  /** The calls a pass makes for chunks 0 .. k-1. */
  function PassCalls(chunks: seq<TerrainChunk>, u: ChunkUniforms, attrib: (nat, nat) -> bool, pass: nat, k: nat,
                     g: GlState): seq<Call>
    requires k <= |chunks|
  {
    if k == 0 then []
    else
      PassCalls(chunks, u, attrib, pass, k - 1, g) +
      (if attrib(pass, k - 1) then ChunkCalls(u, chunks[k - 1], k - 1, g) else [])
  }

  /** Every call into the driver for chunks 0 .. k-1, the cache's binds included. */
  function PassLog(chunks: seq<TerrainChunk>, u: ChunkUniforms, attrib: (nat, nat) -> bool, pass: nat, k: nat,
                   g: GlState): seq<Call>
    requires k <= |chunks|
  {
    if k == 0 then []
    else
      PassLog(chunks, u, attrib, pass, k - 1, g) +
      (if attrib(pass, k - 1) then ChunkLog(u, chunks[k - 1], k - 1, g) else [])
  }

  /**
   * The array buffer the cache names after chunks 0 .. k-1: the vertex buffer of the
   * last of them whose attribute binds, or `initial` when none does.
   */
  function LastBoundBuffer(chunks: seq<TerrainChunk>, attrib: (nat, nat) -> bool, pass: nat, k: nat,
                           initial: int): (r: int)
    requires k <= |chunks|
    ensures (forall j :: 0 <= j < k ==> !attrib(pass, j)) ==> r == initial
    ensures forall j :: 0 <= j < k && attrib(pass, j) && (forall i :: j < i < k ==> !attrib(pass, i)) ==>
      r == chunks[j].vertexPoints
  {
    if k == 0 then initial
    else if attrib(pass, k - 1) then chunks[k - 1].vertexPoints
    else LastBoundBuffer(chunks, attrib, pass, k - 1, initial)
  }

  /** The reference for what a pass draws: chunk j, for each j below k whose attribute binds, in order. */
  function TerrainDraws(attrib: (nat, nat) -> bool, pass: nat, k: nat, g: GlState): seq<Call>
  {
    if k == 0 then []
    else TerrainDraws(attrib, pass, k - 1, g) + (if attrib(pass, k - 1) then [DrawTerrainTriangles(k - 1, g)] else [])
  }

  /**
   * Besides the cache's binds, a pass makes only attribute pointers, uniform loads and
   * terrain draws; none of them changes the driver state tracked here.
   */
  lemma {:induction false} PassCallsAreLoadsAndDraws(chunks: seq<TerrainChunk>, u: ChunkUniforms,
                                                     attrib: (nat, nat) -> bool, pass: nat, k: nat, g: GlState)
    requires k <= |chunks|
    ensures forall i :: 0 <= i < |PassCalls(chunks, u, attrib, pass, k, g)| ==>
      PassCalls(chunks, u, attrib, pass, k, g)[i].VertexAttribPointer? ||
      PassCalls(chunks, u, attrib, pass, k, g)[i].IsLoad() ||
      PassCalls(chunks, u, attrib, pass, k, g)[i].DrawTerrainTriangles?
    decreases k
  {
    if k > 0 {
      PassCallsAreLoadsAndDraws(chunks, u, attrib, pass, k - 1, g);
    }
  }

  /** The draws of a pass are exactly the reference draws. */
  lemma {:induction false} PassDraws(chunks: seq<TerrainChunk>, u: ChunkUniforms, attrib: (nat, nat) -> bool,
                                     pass: nat, k: nat, g: GlState)
    requires k <= |chunks|
    ensures Draws(PassCalls(chunks, u, attrib, pass, k, g)) == TerrainDraws(attrib, pass, k, g)
    decreases k
  {
    if k > 0 {
      var prefix := PassCalls(chunks, u, attrib, pass, k - 1, g);
      var last := if attrib(pass, k - 1) then ChunkCalls(u, chunks[k - 1], k - 1, g) else [];
      assert PassCalls(chunks, u, attrib, pass, k, g) == prefix + last;
      PassDraws(chunks, u, attrib, pass, k - 1, g);
      DrawsAppend(prefix, last);
      if attrib(pass, k - 1) {
        ChunkDraws(u, chunks[k - 1], k - 1, g);
      } else {
        assert Draws(last) == [];
      }
    }
  }

  /** The full log of a pass, the cache's binds included, draws the same as the pass's own calls. */
  lemma {:induction false} PassLogDraws(chunks: seq<TerrainChunk>, u: ChunkUniforms, attrib: (nat, nat) -> bool,
                                        pass: nat, k: nat, g: GlState)
    requires k <= |chunks|
    ensures Draws(PassLog(chunks, u, attrib, pass, k, g)) == TerrainDraws(attrib, pass, k, g)
    decreases k
  {
    if k > 0 {
      var prefix := PassLog(chunks, u, attrib, pass, k - 1, g);
      var last := if attrib(pass, k - 1) then ChunkLog(u, chunks[k - 1], k - 1, g) else [];
      assert PassLog(chunks, u, attrib, pass, k, g) == prefix + last;
      PassLogDraws(chunks, u, attrib, pass, k - 1, g);
      DrawsAppend(prefix, last);
      if attrib(pass, k - 1) {
        ChunkLogDraws(u, chunks[k - 1], k - 1, g);
      } else {
        assert Draws(last) == [];
      }
    }
  }

  /** The bind of a chunk's vertex buffer draws nothing, so its full log draws only its triangles. */
  lemma ChunkLogDraws(u: ChunkUniforms, chunk: TerrainChunk, index: nat, g: GlState)
    ensures Draws(ChunkLog(u, chunk, index, g)) == [DrawTerrainTriangles(index, g)]
  {
    var bind := Call.BindBuffer(GL_ARRAY_BUFFER, chunk.vertexPoints);
    DrawsAppend([bind], ChunkCalls(u, chunk, index, g));
    DrawsOne(bind);
    ChunkDraws(u, chunk, index, g);
  }

  /** One bindable chunk contributes exactly its own draw. */
  lemma ChunkDraws(u: ChunkUniforms, chunk: TerrainChunk, index: nat, g: GlState)
    ensures Draws(ChunkCalls(u, chunk, index, g)) == [DrawTerrainTriangles(index, g)]
  {
    var setup := [VertexAttribPointer(0, 3)] + UniformLoads(u, chunk.vertexOrigin);
    var draw := DrawTerrainTriangles(index, g);
    DrawsAppend(setup, [draw]);
    DrawsOfNonDraws(setup);
    assert Draws([draw]) == [draw] by {
      assert [draw][1..] == [];
    }
  }

  /** A chunk is drawn in a pass exactly when it exists and its attribute binds, and always in the pass's state. */
  lemma {:induction false} TerrainDrawsMembership(attrib: (nat, nat) -> bool, pass: nat, k: nat, g: GlState, c: Call)
    ensures c in TerrainDraws(attrib, pass, k, g) <==>
      c.DrawTerrainTriangles? && c.chunk < k && attrib(pass, c.chunk) && c.state == g
    decreases k
  {
    if k > 0 {
      TerrainDrawsMembership(attrib, pass, k - 1, g, c);
    }
  }

  /** Chunks are drawn in increasing index order, so no chunk is drawn twice in a pass. */
  lemma {:induction false} TerrainDrawsInOrder(attrib: (nat, nat) -> bool, pass: nat, k: nat, g: GlState)
    ensures forall i :: 0 <= i < |TerrainDraws(attrib, pass, k, g)| ==>
      TerrainDraws(attrib, pass, k, g)[i].DrawTerrainTriangles? && TerrainDraws(attrib, pass, k, g)[i].chunk < k
    ensures forall i, j :: 0 <= i < j < |TerrainDraws(attrib, pass, k, g)| ==>
      TerrainDraws(attrib, pass, k, g)[i].chunk < TerrainDraws(attrib, pass, k, g)[j].chunk
    decreases k
  {
    if k > 0 {
      TerrainDrawsInOrder(attrib, pass, k - 1, g);
    }
  }

  /** When every attribute binds, every chunk is drawn, in index order. */
  lemma {:induction false} AllChunksBind(attrib: (nat, nat) -> bool, pass: nat, k: nat, g: GlState)
    requires forall j :: 0 <= j < k ==> attrib(pass, j)
    ensures |TerrainDraws(attrib, pass, k, g)| == k
    ensures forall j :: 0 <= j < k ==> TerrainDraws(attrib, pass, k, g)[j] == DrawTerrainTriangles(j, g)
    decreases k
  {
    if k > 0 {
      AllChunksBind(attrib, pass, k - 1, g);
    }
  }

  /** When no attribute binds, the pass draws nothing. */
  lemma {:induction false} NoChunkBinds(attrib: (nat, nat) -> bool, pass: nat, k: nat, g: GlState)
    requires forall j :: 0 <= j < k ==> !attrib(pass, j)
    ensures TerrainDraws(attrib, pass, k, g) == []
    decreases k
  {
    if k > 0 {
      NoChunkBinds(attrib, pass, k - 1, g);
    }
  }

  /** Loads a chunk's uniforms through the current program. */
  method LoadUniforms(dc: DrawContext, u: ChunkUniforms, origin: Vec3)
    requires dc.Valid()
    modifies dc`gl, dc`calls, dc`direct
    ensures dc.Valid() && dc.gl == old(dc.gl)
    ensures dc.direct == old(dc.direct) + UniformLoads(u, origin)
    ensures dc.calls == old(dc.calls) + UniformLoads(u, origin)
  {
    match u
    case SensorDepthUniforms(projection, view) =>
      dc.GlCall(LoadModelviewProjection(Translate(Multiply(projection, view), origin)));
    case SensorOcclusionUniforms(mvp, projection, view) =>
      dc.GlCall(LoadModelviewProjection(Translate(mvp, origin)));
      dc.GlCall(LoadOccludeviewProjection(projection, Translate(view, origin)));
    case MockupDepthUniforms(viewerMvp) =>
      dc.GlCall(LoadModelviewProjection(Translate(viewerMvp, origin)));
    case MockupVisibilityUniforms(mvp, viewerMvp) =>
      dc.GlCall(LoadProjectionMatrices(Translate(mvp, origin), Translate(Multiply(TextureBias, viewerMvp), origin)));
  }

  /**
   * The terrain loop of a pass: chunks in index order, skipping those whose
   * attribute does not bind. The driver state is left as it was; the cache names the
   * vertex buffer of the last chunk drawn.
   */
  method DrawTerrainPass(dc: DrawContext, u: ChunkUniforms, attrib: (nat, nat) -> bool, pass: nat)
    requires dc.Valid()
    modifies dc`gl, dc`calls, dc`direct, dc`arrayBufferId, dc`elementArrayBufferId
    ensures dc.Valid() && dc.gl == old(dc.gl)
    ensures dc.direct == old(dc.direct) + PassCalls(dc.Terrain(), u, attrib, pass, |dc.Terrain()|, dc.gl)
    ensures dc.calls == old(dc.calls) + PassLog(dc.Terrain(), u, attrib, pass, |dc.Terrain()|, dc.gl)
    ensures dc.arrayBufferId == LastBoundBuffer(dc.Terrain(), attrib, pass, |dc.Terrain()|, old(dc.arrayBufferId))
    ensures dc.elementArrayBufferId == old(dc.elementArrayBufferId)
  {
    var idx, len := 0, dc.GetDrawableTerrainCount();
    while idx < len
      invariant 0 <= idx <= len == |dc.Terrain()|
      invariant dc.Valid() && dc.gl == old(dc.gl)
      invariant PassDone(dc, u, attrib, pass, idx, old(dc.direct), old(dc.calls), old(dc.arrayBufferId))
      invariant dc.elementArrayBufferId == old(dc.elementArrayBufferId)
    {
      PassStep(dc, u, attrib, pass, idx, old(dc.direct), old(dc.calls), old(dc.arrayBufferId));
      idx := idx + 1;
    }
  }

  /** The logs and the array buffer once chunks 0 .. idx-1 have been visited. */
  ghost predicate PassDone(dc: DrawContext, u: ChunkUniforms, attrib: (nat, nat) -> bool, pass: nat, idx: nat,
                           direct: seq<Call>, calls: seq<Call>, initial: int)
    reads dc`drawableTerrain, dc`direct, dc`calls, dc`arrayBufferId, dc`gl
  {
    idx <= |dc.Terrain()| &&
    dc.direct == direct + PassCalls(dc.Terrain(), u, attrib, pass, idx, dc.gl) &&
    dc.calls == calls + PassLog(dc.Terrain(), u, attrib, pass, idx, dc.gl) &&
    dc.arrayBufferId == LastBoundBuffer(dc.Terrain(), attrib, pass, idx, initial)
  }

  /** One iteration of the terrain loop: chunk `idx` is drawn when its attribute binds, and skipped otherwise. */
  method PassStep(dc: DrawContext, u: ChunkUniforms, attrib: (nat, nat) -> bool, pass: nat, idx: nat,
                  ghost direct: seq<Call>, ghost calls: seq<Call>, ghost initial: int)
    requires dc.Valid() && idx < |dc.Terrain()|
    requires PassDone(dc, u, attrib, pass, idx, direct, calls, initial)
    modifies dc`gl, dc`calls, dc`direct, dc`arrayBufferId, dc`elementArrayBufferId
    ensures dc.Valid() && dc.gl == old(dc.gl) && dc.elementArrayBufferId == old(dc.elementArrayBufferId)
    ensures PassDone(dc, u, attrib, pass, idx + 1, direct, calls, initial)
  {
    var terrain := dc.GetDrawableTerrain(idx).value;
    if !attrib(pass, idx) {
      AppendEmptyRight(PassCalls(dc.Terrain(), u, attrib, pass, idx, dc.gl));
      AppendEmptyRight(PassLog(dc.Terrain(), u, attrib, pass, idx, dc.gl));
      return;
    }
    DrawChunk(dc, u, terrain, idx);
    AppendAssoc(direct, PassCalls(dc.Terrain(), u, attrib, pass, idx, dc.gl), ChunkCalls(u, terrain, idx, dc.gl));
    AppendAssoc(calls, PassLog(dc.Terrain(), u, attrib, pass, idx, dc.gl), ChunkLog(u, terrain, idx, dc.gl));
  }

  /**
   * One bindable chunk: its vertex buffer bound through the cache and pointed to by
   * attribute 0, its uniforms relative to its vertex origin, then its triangles.
   */
  method DrawChunk(dc: DrawContext, u: ChunkUniforms, chunk: TerrainChunk, index: nat)
    requires dc.Valid()
    modifies dc`gl, dc`calls, dc`direct, dc`arrayBufferId, dc`elementArrayBufferId
    ensures dc.Valid() && dc.gl == old(dc.gl)
    ensures dc.direct == old(dc.direct) + ChunkCalls(u, chunk, index, dc.gl)
    ensures dc.calls == old(dc.calls) + ChunkLog(u, chunk, index, dc.gl)
    ensures dc.CurrentBuffer(GL_ARRAY_BUFFER) == chunk.vertexPoints
    ensures dc.elementArrayBufferId == old(dc.elementArrayBufferId)
  {
    ghost var before, beforeCalls := dc.direct, dc.calls;
    dc.BindBuffer(GL_ARRAY_BUFFER, chunk.vertexPoints);
    dc.GlCall(VertexAttribPointer(0, 3));
    LoadUniforms(dc, u, chunk.vertexOrigin);
    dc.GlCall(DrawTerrainTriangles(index, dc.gl));
    ChunkSteps(before, beforeCalls, Call.BindBuffer(GL_ARRAY_BUFFER, chunk.vertexPoints), VertexAttribPointer(0, 3),
               UniformLoads(u, chunk.vertexOrigin), DrawTerrainTriangles(index, dc.gl));
  }

  /** Regroups the logs DrawChunk builds call by call into a prefix and the chunk's calls. */
  lemma ChunkSteps(direct: seq<Call>, calls: seq<Call>, bind: Call, pointer: Call, loads: seq<Call>, draw: Call)
    ensures direct + [pointer] + loads + [draw] == direct + ([pointer] + loads + [draw])
    ensures calls + [bind] + [pointer] + loads + [draw] == calls + ([bind] + ([pointer] + loads + [draw]))
  {
    AppendAssoc(direct, [pointer] + loads, [draw]);
    AppendAssoc(direct, [pointer], loads);
    AppendAssoc(calls + [bind], [pointer] + loads, [draw]);
    AppendAssoc(calls + [bind], [pointer], loads);
    AppendAssoc(calls, [bind], [pointer] + loads + [draw]);
  }
}
