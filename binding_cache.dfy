/**
 * A reference definition of the GPU binding cache kept by the draw context
 * (DrawContext.java: framebufferId, programId, textureUnit, textureId[32],
 * arrayBufferId, elementArrayBufferId). Each bind compares the requested name with
 * the cached one and decides whether a driver call is issued. The class
 * DrawContexts.DrawContext is proved to follow this definition step by step; the
 * lemmas here state what a sequence of binds does.
 */
module BindingCache {
  import opened Gles

  /** The cached binding state. */
  datatype Cache = Cache(
    framebuffer: int,
    program: int,
    textureUnit: int,
    textures: seq<int>,
    arrayBuffer: int,
    elementArrayBuffer: int)

  /** The state of a new draw context, and after a context loss. */
  const Initial: Cache := Cache(0, 0, GL_TEXTURE0, seq(TEXTURE_UNITS, _ => 0), 0, 0)

  /** The five bind operations of the cache. */
  datatype Bind =
    | FramebufferBind(framebuffer: int)
    | ProgramUse(program: int)
    | UnitActivation(unit: int)
    | TextureBind(texture: int)
    | BufferBind(target: int, buffer: int)

  /** The driver call that a bind forwards when it is not elided. */
  function CallOf(b: Bind): Call
  {
    match b
    case FramebufferBind(id) => BindFramebuffer(id)
    case ProgramUse(id) => UseProgram(id)
    case UnitActivation(u) => ActiveTexture(u)
    case TextureBind(id) => BindTexture(id)
    case BufferBind(t, id) => BindBuffer(t, id)
  }

  /** A GL_TEXTUREi enumerant whose slot exists in the 32-entry texture array. */
  predicate UnitInRange(unit: int)
  {
    GL_TEXTURE0 <= unit < GL_TEXTURE0 + TEXTURE_UNITS
  }

  /** A bind the source can perform without indexing outside the texture array. */
  predicate Allowed(c: Cache, b: Bind)
  {
    |c.textures| == TEXTURE_UNITS && (b.TextureBind? ==> UnitInRange(c.textureUnit))
  }

  /** The name currently cached for a buffer target; 0 for a target the cache does not track. */
  function CurrentBuffer(c: Cache, target: int): int
  {
    if target == GL_ARRAY_BUFFER then c.arrayBuffer
    else if target == GL_ELEMENT_ARRAY_BUFFER then c.elementArrayBuffer
    else 0
  }

  /** The name currently cached at the binding point a bind addresses. */
  function Current(c: Cache, b: Bind): int
    requires Allowed(c, b)
  {
    match b
    case FramebufferBind(_) => c.framebuffer
    case ProgramUse(_) => c.program
    case UnitActivation(_) => c.textureUnit
    case TextureBind(_) => c.textures[c.textureUnit - GL_TEXTURE0]
    case BufferBind(t, _) => CurrentBuffer(c, t)
  }

  /** The name a bind requests. */
  function Requested(b: Bind): int
  {
    match b
    case FramebufferBind(id) => id
    case ProgramUse(id) => id
    case UnitActivation(u) => u
    case TextureBind(id) => id
    case BufferBind(_, id) => id
  }

  /** One bind: the new cache and the driver calls issued. */
  function Step(c: Cache, b: Bind): (r: (Cache, seq<Call>))
    requires Allowed(c, b)
    ensures Allowed(r.0, b) && r.0.textureUnit == (if b.UnitActivation? then b.unit else c.textureUnit)
    ensures r.1 == [] || r.1 == [CallOf(b)]
    ensures !b.BufferBind? ==> (r.1 == [] <==> Current(c, b) == Requested(b))
    ensures b.BufferBind? ==> r.1 == [CallOf(b)]
    ensures b.TextureBind? ==> forall j :: 0 <= j < TEXTURE_UNITS && j != c.textureUnit - GL_TEXTURE0 ==>
      r.0.textures[j] == c.textures[j]
  {
    match b
    case FramebufferBind(id) =>
      if c.framebuffer != id then (c.(framebuffer := id), [CallOf(b)]) else (c, [])
    case ProgramUse(id) =>
      if c.program != id then (c.(program := id), [CallOf(b)]) else (c, [])
    case UnitActivation(u) =>
      if c.textureUnit != u then (c.(textureUnit := u), [CallOf(b)]) else (c, [])
    case TextureBind(id) =>
      var i := c.textureUnit - GL_TEXTURE0;
      if c.textures[i] != id then (c.(textures := c.textures[i := id]), [CallOf(b)]) else (c, [])
    case BufferBind(t, id) =>
      if t == GL_ARRAY_BUFFER && c.arrayBuffer != id then (c.(arrayBuffer := id), [CallOf(b)])
      else if t == GL_ELEMENT_ARRAY_BUFFER && c.elementArrayBuffer != id then (c.(elementArrayBuffer := id), [CallOf(b)])
      else (c, [CallOf(b)])
  }

  /** After any bind, the binding point it addresses holds the requested name (when the cache tracks that point). */
  lemma BindIsRemembered(c: Cache, b: Bind)
    requires Allowed(c, b)
    requires b.BufferBind? ==> b.target == GL_ARRAY_BUFFER || b.target == GL_ELEMENT_ARRAY_BUFFER
    ensures Current(Step(c, b).0, b) == Requested(b)
  {
    match b
    case TextureBind(id) =>
      var i := c.textureUnit - GL_TEXTURE0;
      assert Step(c, b).0.textures[i] == id;
    case _ =>
  }

  /** A bind of a target the cache does not track leaves the cache as it was, yet still calls the driver. */
  lemma UntrackedBufferTarget(c: Cache, target: int, id: int)
    requires |c.textures| == TEXTURE_UNITS
    requires target != GL_ARRAY_BUFFER && target != GL_ELEMENT_ARRAY_BUFFER
    ensures Step(c, BufferBind(target, id)) == (c, [BindBuffer(target, id)])
    ensures CurrentBuffer(Step(c, BufferBind(target, id)).0, target) == 0
  {
  }

  /** The same bind performed n times in a row. */
  function Repeat(c: Cache, b: Bind, n: nat): (r: (Cache, seq<Call>))
    requires Allowed(c, b)
    decreases n
  {
    if n == 0 then (c, [])
    else
      var first := Step(c, b);
      var rest := Repeat(first.0, b, n - 1);
      (rest.0, first.1 + rest.1)
  }

  /**
   * Framebuffer, program, texture unit and texture binds are elided once the name is
   * cached: n identical binds issue one driver call if the name differed at the start,
   * and none otherwise.
   */
  lemma {:induction false} RepeatedBindsIssueAtMostOneCall(c: Cache, b: Bind, n: nat)
    requires Allowed(c, b) && !b.BufferBind? && n >= 1
    ensures Repeat(c, b, n).1 == (if Current(c, b) == Requested(b) then [] else [CallOf(b)])
    ensures Repeat(c, b, n).0 == Step(c, b).0
    decreases n
  {
    var first := Step(c, b);
    BindIsRemembered(c, b);
    if n > 1 {
      RepeatedBindsIssueAtMostOneCall(first.0, b, n - 1);
      assert Step(first.0, b).0 == first.0;
    }
  }

  /** n copies of one call. */
  function Copies(x: Call, n: nat): (r: seq<Call>)
    ensures |r| == n && forall i :: 0 <= i < n ==> r[i] == x
  {
    seq(n, _ => x)
  }

  /** Buffer binds are never elided: n identical binds issue n identical driver calls. */
  lemma {:induction false} RepeatedBufferBindsAreNotElided(c: Cache, target: int, id: int, n: nat)
    requires |c.textures| == TEXTURE_UNITS
    ensures Repeat(c, BufferBind(target, id), n).1 == Copies(BindBuffer(target, id), n)
    ensures n >= 1 && (target == GL_ARRAY_BUFFER || target == GL_ELEMENT_ARRAY_BUFFER) ==>
      CurrentBuffer(Repeat(c, BufferBind(target, id), n).0, target) == id
    decreases n
  {
    if n > 0 {
      var b := BufferBind(target, id);
      var first := Step(c, b);
      RepeatedBufferBindsAreNotElided(first.0, target, id, n - 1);
      assert [BindBuffer(target, id)] + Copies(BindBuffer(target, id), n - 1) == Copies(BindBuffer(target, id), n);
      if n > 1 && (target == GL_ARRAY_BUFFER || target == GL_ELEMENT_ARRAY_BUFFER) {
        BindIsRemembered(first.0, b);
      }
    }
  }

  /**
   * What the driver itself does with a bind call: the bindings it holds, in the same
   * shape as the cache. A buffer bind of a target the cache does not track changes
   * nothing the cache records.
   */
  function Issue(d: Cache, call: Call): (r: Cache)
    requires |d.textures| == TEXTURE_UNITS
    ensures |r.textures| == TEXTURE_UNITS
  {
    match call
    case BindFramebuffer(id) => d.(framebuffer := id)
    case UseProgram(id) => d.(program := id)
    case ActiveTexture(u) => d.(textureUnit := u)
    case BindTexture(id) =>
      if UnitInRange(d.textureUnit) then d.(textures := d.textures[d.textureUnit - GL_TEXTURE0 := id]) else d
    case BindBuffer(t, id) =>
      if t == GL_ARRAY_BUFFER then d.(arrayBuffer := id)
      else if t == GL_ELEMENT_ARRAY_BUFFER then d.(elementArrayBuffer := id)
      else d
    case _ => d
  }

  /** The driver's bindings after a sequence of calls. */
  function Replay(d: Cache, calls: seq<Call>): (r: Cache)
    requires |d.textures| == TEXTURE_UNITS
    ensures |r.textures| == TEXTURE_UNITS
    decreases |calls|
  {
    if calls == [] then d else Replay(Issue(d, calls[0]), calls[1..])
  }

  /**
   * The cache mirrors the driver: when the cache and the driver agree before a bind,
   * the driver, having applied only the calls the bind issued, agrees with the new
   * cache. An elided bind is therefore never a missed bind.
   */
  lemma StepMirrorsDriver(c: Cache, b: Bind)
    requires Allowed(c, b)
    ensures Replay(c, Step(c, b).1) == Step(c, b).0
  {
    var r := Step(c, b);
    if r.1 != [] {
      assert r.1 == [CallOf(b)];
      assert Replay(c, r.1) == Replay(Issue(c, CallOf(b)), []);
    }
  }

  /** The mirror is kept over any run of binds, starting from any state where it holds. */
  lemma {:induction false} RepeatMirrorsDriver(c: Cache, b: Bind, n: nat)
    requires Allowed(c, b)
    ensures Replay(c, Repeat(c, b, n).1) == Repeat(c, b, n).0
    decreases n
  {
    if n > 0 {
      var first := Step(c, b);
      StepMirrorsDriver(c, b);
      RepeatMirrorsDriver(first.0, b, n - 1);
      ReplayAppend(c, first.1, Repeat(first.0, b, n - 1).1);
    }
  }

  lemma {:induction false} ReplayAppend(d: Cache, a: seq<Call>, b: seq<Call>)
    requires |d.textures| == TEXTURE_UNITS
    ensures Replay(d, a + b) == Replay(Replay(d, a), b)
    decreases |a|
  {
    if a == [] {
      assert a + b == b;
    } else {
      assert (a + b)[1..] == a[1..] + b;
      ReplayAppend(Issue(d, a[0]), a[1..], b);
    }
  }
}
