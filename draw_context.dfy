/**
 * The draw context (DrawContext.java): the per-surface object handed to every
 * drawable. It carries the frame's matrices and queues, the cache of GPU bindings,
 * lazily built shared buffers and a scratch byte buffer.
 *
 * The graphics driver is represented by three fields: `gl`, the slice of driver state
 * that the drawables set and restore; `calls`, the log of every call made into the
 * driver or through a shader program; and `direct`, the same log without the binds
 * the cache issues (the calls the drawables make themselves, whose order does not
 * depend on what the cache held). Every bind goes through the cache, which keeps
 * `gl.framebuffer` equal to the cached framebuffer name.
 */
module DrawContexts {
  import opened Gles
  import opened BindingCache
  import opened UnitShapes
  import opened PixelReadback
  import opened Resources

  /** Width and height of the scratch framebuffer's attachments. */
  const SCRATCH_SIZE: int := 1024

  /** The shape of the scratch framebuffer: 1024 x 1024 RGBA colour and 32-bit depth attachments. */
  predicate IsScratchFramebuffer(f: Framebuffer)
  {
    f == Framebuffer(ScratchAttachment(GL_RGBA, GL_UNSIGNED_BYTE, f.colorAttachment.serial),
                     ScratchAttachment(GL_DEPTH_COMPONENT, GL_UNSIGNED_INT, f.depthAttachment.serial), f.serial)
  }

  /** A SCRATCH_SIZE x SCRATCH_SIZE attachment of the given format. */
  function ScratchAttachment(format: int, pixelType: int, serial: nat): Texture
  {
    Texture(SCRATCH_SIZE, SCRATCH_SIZE, format, pixelType, serial)
  }

  /**
   * The unit sphere's triangle strip as an element array buffer of shorts: 28796
   * indices, index p being UnitShapes.SphereIndexAt(p, 120), which
   * UnitShapes.SphereElementsClosedForm equates with the strip SphereElements(120, 120).
   */
  predicate IsUnitSphereElements(b: BufferObject)
  {
    b == BufferObject(GL_ELEMENT_ARRAY_BUFFER, 2 * |UnitSphereIndices()|, Shorts(UnitSphereIndices()), b.serial)
  }

  /** The unit sphere's strip indices, SphereIndexAt at every position. */
  function UnitSphereIndices(): (r: seq<int>)
    ensures |r| == ElementCount(SPHERE_LATITUDES, SPHERE_LONGITUDES)
    ensures forall p :: 0 <= p < |r| ==> r[p] == SphereIndexAt(p, SPHERE_LONGITUDES)
  {
    seq(ElementCount(SPHERE_LATITUDES, SPHERE_LONGITUDES), p requires 0 <= p => SphereIndexAt(p, SPHERE_LONGITUDES))
  }

  /** The unit sphere's 120 x 120 vertices, three floats each. */
  predicate IsUnitSphereBuffer(b: BufferObject)
  {
    b == BufferObject(GL_ARRAY_BUFFER, SPHERE_LATITUDES * SPHERE_LONGITUDES * 3 * 4,
      Unmodelled(SPHERE_LATITUDES * SPHERE_LONGITUDES * 3), b.serial)
  }

  /** The unit square's four vertices, two floats each. */
  predicate IsUnitSquareBuffer(b: BufferObject)
  {
    b == BufferObject(GL_ARRAY_BUFFER, 4 * |UnitSquarePoints|, Floats(UnitSquarePoints), b.serial)
  }

  /** The closed unit circle outline. */
  predicate IsUnitCircleBuffer(b: BufferObject)
  {
    b == BufferObject(GL_ARRAY_BUFFER, 4 * |CirclePoints(CIRCLE_SLICES)|, Outline(CirclePoints(CIRCLE_SLICES)), b.serial)
  }

  /** A framebuffer of the scratch framebuffer's shape. */
  type ScratchFramebufferObject = f: Framebuffer | IsScratchFramebuffer(f)
    witness Framebuffer(ScratchAttachment(GL_RGBA, GL_UNSIGNED_BYTE, 0),
                        ScratchAttachment(GL_DEPTH_COMPONENT, GL_UNSIGNED_INT, 0), 0)

  /** A buffer holding the unit sphere's strip indices. */
  type UnitSphereElementsObject = b: BufferObject | IsUnitSphereElements(b)
    witness BufferObject(GL_ELEMENT_ARRAY_BUFFER, 2 * |UnitSphereIndices()|, Shorts(UnitSphereIndices()), 0)

  /** A buffer holding the unit sphere's vertices. */
  type UnitSphereBufferObject = b: BufferObject | IsUnitSphereBuffer(b)
    witness BufferObject(GL_ARRAY_BUFFER, SPHERE_LATITUDES * SPHERE_LONGITUDES * 3 * 4,
      Unmodelled(SPHERE_LATITUDES * SPHERE_LONGITUDES * 3), 0)

  /** A buffer holding the unit square's vertices. */
  type UnitSquareBufferObject = b: BufferObject | IsUnitSquareBuffer(b)
    witness BufferObject(GL_ARRAY_BUFFER, 4 * |UnitSquarePoints|, Floats(UnitSquarePoints), 0)

  /** A buffer holding the closed unit circle outline. */
  type UnitCircleBufferObject = b: BufferObject | IsUnitCircleBuffer(b)
    witness BufferObject(GL_ARRAY_BUFFER, 4 * |CirclePoints(CIRCLE_SLICES)|, Outline(CirclePoints(CIRCLE_SLICES)), 0)

  /** The index buffer of a numLat x numLon sphere grid, as unitSphereElements builds it. */
  method BuildSphereElements(numLat: int, numLon: int, serial: nat) returns (b: BufferObject)
    requires 2 <= numLat && 1 <= numLon && numLat * numLon <= 32768
    ensures b.target == GL_ELEMENT_ARRAY_BUFFER && b.data.Shorts? && b.serial == serial
    ensures |b.data.shorts| == ElementCount(numLat, numLon) && b.size == 2 * |b.data.shorts|
    ensures forall p :: 0 <= p < |b.data.shorts| ==> b.data.shorts[p] == SphereIndexAt(p, numLon)
  {
    var elements := FillSphereElements(numLat, numLon);
    SphereElementsClosedForm(numLat, numLon);
    b := BufferObject(GL_ELEMENT_ARRAY_BUFFER, elements.Length * 2, Shorts(elements[..]), serial);
  }

  class DrawContext {
    var eyePoint: Vec3
    var viewport: Viewport
    var projection: Matrix
    var modelview: Matrix
    var modelviewProjection: Matrix
    var infiniteProjection: Matrix
    var screenProjection: Matrix
    var drawableQueue: Option<DrawableQueue<object>>
    var drawableTerrain: Option<DrawableQueue<TerrainChunk>>
    var pickedObjects: Option<seq<object>>
    var pickViewport: Option<Viewport>
    var pickPoint: Option<Vec2>
    var pickMode: bool

    // The binding cache.
    var framebufferId: int
    var programId: int
    var textureUnit: int
    const textureId: array<int>
    var arrayBufferId: int
    var elementArrayBufferId: int

    // Lazily built resources; each slot's type says the shape its accessor gives it.
    var scratchFramebuffer: Option<ScratchFramebufferObject>
    var unitCircleBuffer: Option<UnitCircleBufferObject>
    var unitSphereBuffer: Option<UnitSphereBufferObject>
    var unitSphereElements: Option<UnitSphereElementsObject>
    var unitSquareBuffer: Option<UnitSquareBufferObject>
    var scratchBuffer: ByteBuffer
    var scratchList: seq<object>

    /** The serial the next GL object created here receives. */
    var nextSerial: nat

    // The driver.
    var gl: GlState
    var calls: seq<Call>
    var direct: seq<Call>  // the calls made without the binding cache: GlCall appends to both logs, IssueBind to `calls` only

    /**
     * The texture slots exist, the driver's framebuffer is the cached one, the scratch
     * buffer is sound and every cached GL object was named before `nextSerial`.
     */
    predicate Valid()
      reads this`gl, this`framebufferId, this`scratchBuffer, this`nextSerial, this`scratchFramebuffer,
        this`unitCircleBuffer, this`unitSphereBuffer, this`unitSphereElements, this`unitSquareBuffer
    {
      textureId.Length == TEXTURE_UNITS &&
      gl.framebuffer == framebufferId &&
      scratchBuffer.Valid() &&
      forall s :: s in CachedSerials() ==> s < nextSerial
    }

    /** The names of the GL objects the lazy caches hold. */
    function CachedSerials(): set<nat>
      reads this`scratchFramebuffer, this`unitCircleBuffer, this`unitSphereBuffer, this`unitSphereElements,
        this`unitSquareBuffer
    {
      (if scratchFramebuffer.Some? then
         var f := scratchFramebuffer.value;
         {f.serial, f.colorAttachment.serial, f.depthAttachment.serial}
       else {}) +
      (if unitCircleBuffer.Some? then {unitCircleBuffer.value.serial} else {}) +
      (if unitSphereBuffer.Some? then {unitSphereBuffer.value.serial} else {}) +
      (if unitSphereElements.Some? then {unitSphereElements.value.serial} else {}) +
      (if unitSquareBuffer.Some? then {unitSquareBuffer.value.serial} else {})
    }

    /** The binding cache as a value. */
    function Snapshot(): (r: Cache)
      reads this`framebufferId, this`programId, this`textureUnit, this`arrayBufferId, this`elementArrayBufferId,
        textureId
      ensures |r.textures| == textureId.Length
    {
      Cache(framebufferId, programId, textureUnit, textureId[..], arrayBufferId, elementArrayBufferId)
    }

    /** The terrain chunks of the frame; none when there is no terrain queue. */
    function Terrain(): seq<TerrainChunk>
      reads this`drawableTerrain
    {
      if drawableTerrain.Some? then drawableTerrain.value.items else []
    }

    constructor ()
      ensures Valid() && fresh(textureId)
      ensures Snapshot() == Initial
      ensures gl == DefaultGlState && calls == [] && direct == []
      ensures scratchBuffer.capacity == 4
      ensures drawableQueue.None? && drawableTerrain.None? && !pickMode
      ensures scratchFramebuffer.None? && unitCircleBuffer.None? && unitSphereBuffer.None? &&
        unitSphereElements.None? && unitSquareBuffer.None?
    {
      eyePoint := Vec3(0.0, 0.0, 0.0);
      viewport := Viewport(0, 0, 0, 0);
      projection, modelview, modelviewProjection := Identity, Identity, Identity;
      infiniteProjection, screenProjection := Identity, Identity;
      drawableQueue, drawableTerrain := None, None;
      pickedObjects, pickViewport, pickPoint, pickMode := None, None, None, false;
      framebufferId, programId, textureUnit := 0, 0, GL_TEXTURE0;
      textureId := new int[TEXTURE_UNITS](_ => 0);
      arrayBufferId, elementArrayBufferId := 0, 0;
      scratchFramebuffer, unitCircleBuffer, unitSphereBuffer := None, None, None;
      unitSphereElements, unitSquareBuffer := None, None;
      scratchBuffer := AllocateDirect(4);
      scratchList := [];
      nextSerial := 1;
      gl, calls, direct := DefaultGlState, [], [];
      new;
      assert textureId[..] == seq(TEXTURE_UNITS, _ => 0);
    }

    /**
     * Clears the per-frame state between frames: the matrices, the queues, the pick
     * state and the scratch containers. The binding cache and the cached resources
     * are kept.
     */
    method Reset()
      requires Valid()
      modifies this`eyePoint, this`viewport, this`projection, this`modelview, this`modelviewProjection,
        this`screenProjection, this`infiniteProjection, this`drawableQueue, this`drawableTerrain,
        this`pickedObjects, this`pickViewport, this`pickPoint, this`pickMode, this`scratchBuffer, this`scratchList
      ensures Valid() && Snapshot() == old(Snapshot())
      ensures eyePoint == Vec3(0.0, 0.0, 0.0) && viewport == Viewport(0, 0, 0, 0)
      ensures projection == Identity && modelview == Identity && modelviewProjection == Identity
      ensures screenProjection == Identity && infiniteProjection == Identity
      ensures drawableQueue.None? && drawableTerrain.None?
      ensures pickedObjects.None? && pickViewport.None? && pickPoint.None? && !pickMode
      ensures scratchBuffer == old(scratchBuffer).Clear() && scratchList == []
    {
      ResetView();
      ResetQueuesAndPicking();
      scratchBuffer := scratchBuffer.Clear();
      scratchList := [];
    }

    /** The camera part of reset: the eye point, an empty viewport and identity matrices. */
    method ResetView()
      modifies this`eyePoint, this`viewport, this`projection, this`modelview, this`modelviewProjection,
        this`screenProjection, this`infiniteProjection
      ensures eyePoint == Vec3(0.0, 0.0, 0.0) && viewport == Viewport(0, 0, 0, 0)
      ensures projection == Identity && modelview == Identity && modelviewProjection == Identity
      ensures screenProjection == Identity && infiniteProjection == Identity
    {
      eyePoint := Vec3(0.0, 0.0, 0.0);
      viewport := Viewport(0, 0, 0, 0);
      projection, modelview, modelviewProjection := Identity, Identity, Identity;
      screenProjection, infiniteProjection := Identity, Identity;
    }

    /** The queue and pick part of reset: no queues, no pick state, pick mode off. */
    method ResetQueuesAndPicking()
      modifies this`drawableQueue, this`drawableTerrain, this`pickedObjects, this`pickViewport, this`pickPoint,
        this`pickMode
      ensures drawableQueue.None? && drawableTerrain.None?
      ensures pickedObjects.None? && pickViewport.None? && pickPoint.None? && !pickMode
    {
      drawableQueue, drawableTerrain := None, None;
      pickedObjects, pickViewport, pickPoint, pickMode := None, None, None, false;
    }

    /**
     * Forgets everything tied to the lost OpenGL context: every cached binding returns
     * to its initial value and the scratch framebuffer, circle and square buffers are
     * dropped. The two sphere buffers stay cached. No driver call is made here: the
     * platform has already created a new context, which starts from the driver's
     * defaults, and `gl` is set to them to stand for that new context.
     */
    method ContextLost()
      requires Valid()
      modifies this`framebufferId, this`programId, this`textureUnit, this`arrayBufferId,
        this`elementArrayBufferId, this`scratchFramebuffer, this`unitCircleBuffer, this`unitSquareBuffer,
        textureId, this`gl
      ensures Valid() && Snapshot() == Initial && gl == DefaultGlState
      ensures scratchFramebuffer.None? && unitCircleBuffer.None? && unitSquareBuffer.None?
      ensures unitSphereBuffer == old(unitSphereBuffer) && unitSphereElements == old(unitSphereElements)
    {
      ForgetBindings();
      scratchFramebuffer := None;
      unitCircleBuffer := None;
      unitSquareBuffer := None;
      ClearTextureSlots();
      gl := DefaultGlState;
      assert CachedSerials() <= old(CachedSerials());
    }

    /** The scalar part of the binding cache returns to its initial names. */
    method ForgetBindings()
      modifies this`framebufferId, this`programId, this`textureUnit, this`arrayBufferId, this`elementArrayBufferId
      ensures framebufferId == 0 && programId == 0 && textureUnit == GL_TEXTURE0
      ensures arrayBufferId == 0 && elementArrayBufferId == 0
    {
      framebufferId := 0;
      programId := 0;
      textureUnit := GL_TEXTURE0;
      arrayBufferId := 0;
      elementArrayBufferId := 0;
    }

    /** Every texture slot returns to 0. */
    method ClearTextureSlots()
      requires textureId.Length == TEXTURE_UNITS
      modifies textureId
      ensures textureId[..] == seq(TEXTURE_UNITS, _ => 0)
    {
      var i := 0;
      while i < textureId.Length
        invariant 0 <= i <= textureId.Length
        invariant forall j :: 0 <= j < i ==> textureId[j] == 0
      {
        textureId[i] := 0;
        i := i + 1;
      }
      assert textureId[..] == seq(TEXTURE_UNITS, _ => 0);
    }

    // -------------------------------------------------------------------------
    // The driver

    /** A driver call that is not a bind: the drawables make these directly. */
    method GlCall(c: Call)
      requires Valid() && !c.IsBind()
      modifies this`gl, this`calls, this`direct
      ensures Valid()
      ensures gl == Apply(old(gl), c) && calls == old(calls) + [c]
      ensures direct == old(direct) + [c]
    {
      gl := Apply(gl, c);
      calls := calls + [c];
      direct := direct + [c];
    }

    /** A bind call, made only by the cache below. */
    method IssueBind(c: Call)
      requires c.IsBind()
      modifies this`gl, this`calls
      ensures gl == Apply(old(gl), c) && calls == old(calls) + [c]
    {
      gl := Apply(gl, c);
      calls := calls + [c];
    }

    // -------------------------------------------------------------------------
    // The binding cache

    function CurrentFramebuffer(): (r: int)
      reads this
      requires Valid()
      ensures r == gl.framebuffer
    {
      framebufferId
    }

    /** Binds a framebuffer unless it is already bound. */
    method BindFramebuffer(id: int)
      requires Valid()
      modifies this`framebufferId, this`gl, this`calls, this`direct
      ensures Valid() && CurrentFramebuffer() == id
      ensures Snapshot() == Step(old(Snapshot()), FramebufferBind(id)).0
      ensures calls == old(calls) + Step(old(Snapshot()), FramebufferBind(id)).1
      ensures gl == old(gl).(framebuffer := id) && direct == old(direct)
    {
      if framebufferId != id {
        framebufferId := id;
        IssueBind(Call.BindFramebuffer(id));
      }
    }

    function CurrentProgram(): int
      reads this
    {
      programId
    }

    /** Makes a program current unless it already is. */
    method UseProgram(id: int)
      requires Valid()
      modifies this`programId, this`gl, this`calls, this`direct
      ensures Valid() && CurrentProgram() == id
      ensures Snapshot() == Step(old(Snapshot()), ProgramUse(id)).0
      ensures calls == old(calls) + Step(old(Snapshot()), ProgramUse(id)).1
      ensures gl == old(gl) && direct == old(direct)
    {
      if programId != id {
        programId := id;
        IssueBind(Call.UseProgram(id));
      }
    }

    function CurrentTextureUnit(): int
      reads this
    {
      textureUnit
    }

    /** Makes a texture unit active unless it already is. The unit is not checked. */
    method ActiveTextureUnit(unit: int)
      requires Valid()
      modifies this`textureUnit, this`gl, this`calls, this`direct
      ensures Valid() && CurrentTextureUnit() == unit
      ensures Snapshot() == Step(old(Snapshot()), UnitActivation(unit)).0
      ensures calls == old(calls) + Step(old(Snapshot()), UnitActivation(unit)).1
      ensures gl == old(gl) && direct == old(direct)
    {
      if textureUnit != unit {
        textureUnit := unit;
        IssueBind(Call.ActiveTexture(unit));
      }
    }

    /** The texture bound to a unit; the unit must name one of the 32 slots. */
    function CurrentTexture(unit: int): (r: int)
      reads this, textureId
      requires Valid() && UnitInRange(unit)
      ensures r == Snapshot().textures[unit - GL_TEXTURE0]
    {
      textureId[unit - GL_TEXTURE0]
    }

    /** The texture bound to the active unit. */
    function CurrentActiveTexture(): (r: int)
      reads this, textureId
      requires Valid() && UnitInRange(textureUnit)
      ensures r == CurrentTexture(textureUnit)
    {
      textureId[textureUnit - GL_TEXTURE0]
    }

    /**
     * Binds a texture to the active unit unless it is already bound there. Only the
     * active unit's slot changes.
     */
    method BindTexture(id: int)
      requires Valid() && UnitInRange(textureUnit)
      modifies textureId, this`gl, this`calls, this`direct
      ensures Valid() && CurrentTexture(textureUnit) == id
      ensures forall u :: UnitInRange(u) && u != textureUnit ==> CurrentTexture(u) == old(CurrentTexture(u))
      ensures Snapshot() == Step(old(Snapshot()), TextureBind(id)).0
      ensures calls == old(calls) + Step(old(Snapshot()), TextureBind(id)).1
      ensures gl == old(gl) && direct == old(direct)
    {
      var textureUnitIndex := textureUnit - GL_TEXTURE0;
      if textureId[textureUnitIndex] != id {
        textureId[textureUnitIndex] := id;
        IssueBind(Call.BindTexture(id));
      }
    }

    /** The buffer bound to a target: 0 for any target other than the array and element array buffers. */
    function CurrentBuffer(target: int): (r: int)
      reads this`arrayBufferId, this`elementArrayBufferId
      ensures target != GL_ARRAY_BUFFER && target != GL_ELEMENT_ARRAY_BUFFER ==> r == 0
    {
      if target == GL_ARRAY_BUFFER then arrayBufferId
      else if target == GL_ELEMENT_ARRAY_BUFFER then elementArrayBufferId
      else 0
    }

    /**
     * Binds a buffer. The cache is updated for the two tracked targets, but the
     * driver is called on every invocation, also when the buffer is already bound.
     */
    method BindBuffer(target: int, id: int)
      requires Valid()
      modifies this`arrayBufferId, this`elementArrayBufferId, this`gl, this`calls, this`direct
      ensures Valid()
      ensures Snapshot() == Step(old(Snapshot()), BufferBind(target, id)).0
      ensures calls == old(calls) + [Call.BindBuffer(target, id)]
      ensures target == GL_ARRAY_BUFFER || target == GL_ELEMENT_ARRAY_BUFFER ==> CurrentBuffer(target) == id
      ensures gl == old(gl) && direct == old(direct)
    {
      if target == GL_ARRAY_BUFFER && arrayBufferId != id {
        arrayBufferId := id;
        IssueBind(Call.BindBuffer(target, id));
      } else if target == GL_ELEMENT_ARRAY_BUFFER && elementArrayBufferId != id {
        elementArrayBufferId := id;
        IssueBind(Call.BindBuffer(target, id));
      } else {
        IssueBind(Call.BindBuffer(target, id));
      }
    }

    // -------------------------------------------------------------------------
    // The drawable queues

    /** The next drawable of the frame without consuming it; none when there is no queue. */
    function PeekDrawable(): (r: Option<object>)
      reads this`drawableQueue
      ensures drawableQueue.None? ==> r.None?
      ensures drawableQueue.Some? ==> (r.None? <==> drawableQueue.value.cursor >= |drawableQueue.value.items|)
      ensures r.Some? ==> r.value == drawableQueue.value.items[drawableQueue.value.cursor]
    {
      if drawableQueue.Some? then drawableQueue.value.PeekDrawable() else None
    }

    /** Consumes the next drawable of the frame; the queue's contents are untouched. */
    method PollDrawable() returns (d: Option<object>)
      modifies this`drawableQueue
      ensures d == old(PeekDrawable())
      ensures drawableQueue.Some? == old(drawableQueue).Some?
      ensures drawableQueue.Some? ==>
        drawableQueue.value.items == old(drawableQueue).value.items &&
        drawableQueue.value.cursor == old(drawableQueue).value.PollDrawable().1.cursor
    {
      if drawableQueue.Some? {
        var r := drawableQueue.value.PollDrawable();
        d := r.0;
        drawableQueue := Some(r.1);
      } else {
        d := None;
      }
    }

    /** Moves the queue back to its first drawable so the frame can be traversed again. */
    method RewindDrawables()
      modifies this`drawableQueue
      ensures drawableQueue.Some? == old(drawableQueue).Some?
      ensures drawableQueue.Some? ==>
        drawableQueue.value.items == old(drawableQueue).value.items && drawableQueue.value.cursor == 0
    {
      if drawableQueue.Some? {
        drawableQueue := Some(drawableQueue.value.RewindDrawables());
      }
    }

    /** The number of terrain chunks of the frame; 0 when there is no terrain queue. */
    function GetDrawableTerrainCount(): (r: nat)
      reads this`drawableTerrain
      ensures drawableTerrain.None? ==> r == 0
      ensures drawableTerrain.Some? ==> r == drawableTerrain.value.Count()
    {
      if drawableTerrain.Some? then drawableTerrain.value.Count() else 0
    }

    /** The terrain chunk at an index: present exactly for the indices below the count. */
    function GetDrawableTerrain(index: int): (r: Option<TerrainChunk>)
      reads this`drawableTerrain
      ensures r.Some? <==> 0 <= index < GetDrawableTerrainCount()
      ensures r.Some? ==> r.value == drawableTerrain.value.items[index]
    {
      if drawableTerrain.Some? then drawableTerrain.value.GetDrawable(index) else None
    }

    // -------------------------------------------------------------------------
    // Lazily built resources

    /** A new serial number for a GL object created here: no cached object has it, nor will any later one. */
    method NewSerial() returns (serial: nat)
      requires Valid()
      modifies this`nextSerial
      ensures Valid() && serial !in CachedSerials() && serial < nextSerial
      ensures serial == old(nextSerial) && nextSerial == serial + 1
    {
      serial := nextSerial;
      nextSerial := nextSerial + 1;
    }

    /**
     * The framebuffer the drawables render offscreen passes into, built on first use
     * with a 1024 x 1024 RGBA colour texture and a 1024 x 1024 depth texture.
     */
    method ScratchFramebuffer() returns (f: Framebuffer)
      requires Valid()
      modifies this`scratchFramebuffer, this`nextSerial
      ensures Valid()
      ensures scratchFramebuffer == Some(f) && IsScratchFramebuffer(f)
      ensures old(scratchFramebuffer).Some? ==> f == old(scratchFramebuffer).value && nextSerial == old(nextSerial)
      ensures old(scratchFramebuffer).None? ==>
        f.serial == old(nextSerial) && f.colorAttachment.serial == old(nextSerial) + 1 &&
        f.depthAttachment.serial == old(nextSerial) + 2 && nextSerial == old(nextSerial) + 3
    {
      if scratchFramebuffer.Some? {
        return scratchFramebuffer.value;
      }
      var framebufferSerial := NewSerial();
      var colorSerial := NewSerial();
      var depthSerial := NewSerial();
      var colorAttachment := Texture(SCRATCH_SIZE, SCRATCH_SIZE, GL_RGBA, GL_UNSIGNED_BYTE, colorSerial);
      var depthAttachment := Texture(SCRATCH_SIZE, SCRATCH_SIZE, GL_DEPTH_COMPONENT, GL_UNSIGNED_INT, depthSerial);
      f := Framebuffer(colorAttachment, depthAttachment, framebufferSerial);
      scratchFramebuffer := Some(f);
    }

    /** The unit sphere's vertex buffer, built on first use. */
    method UnitSphereBuffer() returns (b: BufferObject)
      requires Valid()
      modifies this`unitSphereBuffer, this`nextSerial
      ensures Valid()
      ensures unitSphereBuffer == Some(b) && IsUnitSphereBuffer(b)
      ensures old(unitSphereBuffer).Some? ==> b == old(unitSphereBuffer).value && nextSerial == old(nextSerial)
      ensures old(unitSphereBuffer).None? ==> b.serial == old(nextSerial) && nextSerial == old(nextSerial) + 1
    {
      if unitSphereBuffer.Some? {
        return unitSphereBuffer.value;
      }
      var count := SPHERE_LATITUDES * SPHERE_LONGITUDES * 3;
      var serial := NewSerial();
      b := BufferObject(GL_ARRAY_BUFFER, count * 4, Unmodelled(count), serial);
      unitSphereBuffer := Some(b);
    }

    /**
     * The unit sphere's triangle-strip indices, built on first use: 28796 shorts, each
     * naming one of the 120 x 120 vertices.
     */
    method UnitSphereElements() returns (b: BufferObject)
      requires Valid()
      modifies this`unitSphereElements, this`nextSerial
      ensures Valid()
      ensures unitSphereElements == Some(b) && IsUnitSphereElements(b)
      ensures b.BufferLength() == 28796
      ensures old(unitSphereElements).Some? ==> b == old(unitSphereElements).value && nextSerial == old(nextSerial)
      ensures old(unitSphereElements).None? ==> b.serial == old(nextSerial) && nextSerial == old(nextSerial) + 1
    {
      if unitSphereElements.Some? {
        return unitSphereElements.value;
      }
      var serial := NewSerial();
      b := BuildSphereElements(SPHERE_LATITUDES, SPHERE_LONGITUDES, serial);
      unitSphereElements := Some(b);
    }

    /** The unit square's vertex buffer, built on first use. */
    method UnitSquareBuffer() returns (b: BufferObject)
      requires Valid()
      modifies this`unitSquareBuffer, this`nextSerial
      ensures Valid()
      ensures unitSquareBuffer == Some(b) && IsUnitSquareBuffer(b)
      ensures old(unitSquareBuffer).Some? ==> b == old(unitSquareBuffer).value && nextSerial == old(nextSerial)
      ensures old(unitSquareBuffer).None? ==> b.serial == old(nextSerial) && nextSerial == old(nextSerial) + 1
    {
      if unitSquareBuffer.Some? {
        return unitSquareBuffer.value;
      }
      var points := UnitSquarePoints;
      var serial := NewSerial();
      b := BufferObject(GL_ARRAY_BUFFER, |points| * 4, Floats(points), serial);
      unitSquareBuffer := Some(b);
    }

    /**
     * The unit circle's outline buffer, built on first use with the corrected fill
     * loop; the loop as written never terminates normally (UnitShapes.UnitCircleAsWrittenThrows).
     */
    method UnitCircleBuffer() returns (b: BufferObject)
      requires Valid()
      modifies this`unitCircleBuffer, this`nextSerial
      ensures Valid()
      ensures unitCircleBuffer == Some(b) && IsUnitCircleBuffer(b)
      ensures old(unitCircleBuffer).Some? ==> b == old(unitCircleBuffer).value && nextSerial == old(nextSerial)
      ensures old(unitCircleBuffer).None? ==> b.serial == old(nextSerial) && nextSerial == old(nextSerial) + 1
    {
      if unitCircleBuffer.Some? {
        return unitCircleBuffer.value;
      }
      var points := FillCirclePoints(CIRCLE_SLICES);
      var serial := NewSerial();
      b := BufferObject(GL_ARRAY_BUFFER, points.Length * 4, Outline(points[..]), serial);
      unitCircleBuffer := Some(b);
    }

    // -------------------------------------------------------------------------
    // Scratch memory and pixel readback

    /** The scratch buffer with room for at least `capacity` bytes; it grows when it must and never shrinks. */
    method ScratchBuffer(capacity: int) returns (b: ByteBuffer)
      requires Valid()
      modifies this`scratchBuffer
      ensures Valid() && b == scratchBuffer
      ensures b.capacity >= capacity && b.capacity >= old(scratchBuffer.capacity)
      ensures old(scratchBuffer.capacity) >= capacity ==> scratchBuffer == old(scratchBuffer)
      ensures old(scratchBuffer.capacity) < capacity ==> scratchBuffer == AllocateDirect(capacity)
    {
      if scratchBuffer.capacity < capacity {
        scratchBuffer := AllocateDirect(capacity);
      }
      b := scratchBuffer;
    }

    /**
     * Reads the colour of one pixel of the bound framebuffer. `pixels` stands for the
     * bytes the driver writes into the scratch buffer.
     */
    method ReadPixelColor(x: int, y: int, pixels: seq<int>) returns (color: Color)
      requires Valid() && HoldsPixels(pixels, 1)
      modifies this`scratchBuffer, this`gl, this`calls, this`direct
      ensures Valid() && color == PixelColor(pixels, 0)
      ensures 0.0 <= color.red <= 1.0 && 0.0 <= color.green <= 1.0 && 0.0 <= color.blue <= 1.0 && 0.0 <= color.alpha <= 1.0
      ensures scratchBuffer.capacity >= 4 && scratchBuffer.capacity >= old(scratchBuffer.capacity)
      ensures scratchBuffer.position == 4 && scratchBuffer.limit == scratchBuffer.capacity
      ensures gl == old(gl) && calls == old(calls) + [ReadPixels(x, y, 1, 1)] && direct == old(direct) + [ReadPixels(x, y, 1, 1)]
    {
      var pixelBuffer := ScratchBuffer(4);
      scratchBuffer := pixelBuffer.Clear();
      GlCall(ReadPixels(x, y, 1, 1));
      scratchBuffer := scratchBuffer.Get(4);
      color := PixelColor(pixels, 0);
    }

    /**
     * Reads the distinct colours of a rectangle of the bound framebuffer. `pixels`
     * stands for the bytes the driver writes into the scratch buffer.
     */
    method ReadPixelColors(x: int, y: int, width: int, height: int, pixels: seq<int>) returns (colors: set<Color>)
      requires Valid() && HoldsPixels(pixels, width * height)
      modifies this`scratchBuffer, this`gl, this`calls, this`direct
      ensures Valid()
      ensures forall c :: c in colors <==> exists i :: 0 <= i < width * height && PixelColor(pixels, i) == c
      ensures width * height >= 0 ==> colors == DistinctColors(pixels, width * height) && |colors| <= width * height
      ensures width * height < 0 ==> colors == {}
      ensures scratchBuffer.capacity >= 4 * (width * height) && scratchBuffer.capacity >= old(scratchBuffer.capacity)
      ensures width * height >= 0 ==> scratchBuffer.position == 4 * (width * height)
      ensures width * height < 0 ==> scratchBuffer.position == 0
      ensures scratchBuffer.limit == scratchBuffer.capacity
      ensures gl == old(gl) && calls == old(calls) + [ReadPixels(x, y, width, height)]
      ensures direct == old(direct) + [ReadPixels(x, y, width, height)]
    {
      var pixelCount := width * height;
      var pixelBuffer := ScratchBuffer(pixelCount * 4);
      scratchBuffer := pixelBuffer.Clear();
      GlCall(ReadPixels(x, y, width, height));
      colors := CollectColors(pixels, pixelCount);
      if pixelCount >= 0 {
        DistinctColorsBounded(pixels, pixelCount);
        // the loop reads four bytes per pixel
        scratchBuffer := scratchBuffer.Get(4 * pixelCount);
      }
    }
  }

  /**
   * A lost context followed by a draw that needs the unit square: the square is built
   * again under a name that no object cached before the loss had.
   */
  method RebuildSquareAfterContextLost(dc: DrawContext) returns (b: BufferObject)
    requires dc.Valid()
    modifies dc`framebufferId, dc`programId, dc`textureUnit, dc`arrayBufferId, dc`elementArrayBufferId,
      dc`scratchFramebuffer, dc`unitCircleBuffer, dc`unitSquareBuffer, dc.textureId, dc`gl, dc`nextSerial
    ensures dc.Valid() && dc.unitSquareBuffer == Some(b) && IsUnitSquareBuffer(b)
    ensures forall s :: s in old(dc.CachedSerials()) ==> s < b.serial
  {
    dc.ContextLost();
    b := dc.UnitSquareBuffer();
  }
}
