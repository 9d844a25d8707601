/**
 * The bind operations of the GL object classes the drawables call
 * (ShaderProgram.useProgram, Framebuffer.bindFramebuffer, Texture.bindTexture,
 * BufferObject.bindBuffer). Their classes are not part of this model: whether the
 * object can be built and bound is decided by the driver, so it is an oracle, the
 * parameter `binds`. When it succeeds the object's GL name (its serial) is bound
 * through the draw context's binding cache, and the call returns true; when it
 * fails nothing is bound and the call returns false.
 */
module Collaborators {
  import opened Gles
  import opened BindingCache
  import opened Resources
  import opened DrawContexts

  /** ShaderProgram.useProgram: on success the program becomes the current program. */
  method UseShaderProgram(dc: DrawContext, program: Program, builds: bool) returns (ok: bool)
    requires dc.Valid()
    modifies dc`programId, dc`gl, dc`calls, dc`direct
    ensures dc.Valid() && ok == builds
    ensures ok ==> dc.programId == program.serial
    ensures !ok ==> dc.programId == old(dc.programId) && dc.calls == old(dc.calls)
    ensures dc.gl == old(dc.gl) && dc.direct == old(dc.direct)
  {
    ok := builds;
    if ok {
      dc.UseProgram(program.serial);
    }
  }

  /** Framebuffer.bindFramebuffer: on success the framebuffer becomes the render target. */
  method BindFramebufferObject(dc: DrawContext, framebuffer: Framebuffer, binds: bool) returns (ok: bool)
    requires dc.Valid()
    modifies dc`framebufferId, dc`gl, dc`calls, dc`direct
    ensures dc.Valid() && ok == binds
    ensures ok ==> dc.gl == old(dc.gl).(framebuffer := framebuffer.serial)
    ensures !ok ==> dc.gl == old(dc.gl) && dc.calls == old(dc.calls)
    ensures dc.direct == old(dc.direct)
  {
    ok := binds;
    if ok {
      dc.BindFramebuffer(framebuffer.serial);
    }
  }

  /** Texture.bindTexture: on success the texture is bound to the active unit, and only there. */
  method BindTextureObject(dc: DrawContext, texture: Texture, binds: bool) returns (ok: bool)
    requires dc.Valid() && UnitInRange(dc.textureUnit)
    modifies dc.textureId, dc`gl, dc`calls, dc`direct
    ensures dc.Valid() && ok == binds
    ensures ok ==> dc.CurrentTexture(dc.textureUnit) == texture.serial
    ensures !ok ==> dc.calls == old(dc.calls) && dc.textureId[..] == old(dc.textureId[..])
    ensures forall u :: UnitInRange(u) && u != dc.textureUnit ==> dc.CurrentTexture(u) == old(dc.CurrentTexture(u))
    ensures dc.gl == old(dc.gl) && dc.direct == old(dc.direct)
  {
    ok := binds;
    if ok {
      dc.BindTexture(texture.serial);
    }
  }

  /**
   * BufferObject.bindBuffer: on success the buffer is bound to its own target; the
   * cache forwards every buffer bind to the driver, so exactly one bind call is made.
   */
  method BindBufferObject(dc: DrawContext, buffer: BufferObject, binds: bool) returns (ok: bool)
    requires dc.Valid()
    modifies dc`arrayBufferId, dc`elementArrayBufferId, dc`gl, dc`calls, dc`direct
    ensures dc.Valid() && ok == binds
    ensures ok ==> dc.calls == old(dc.calls) + [Call.BindBuffer(buffer.target, buffer.serial)]
    ensures ok && (buffer.target == GL_ARRAY_BUFFER || buffer.target == GL_ELEMENT_ARRAY_BUFFER) ==>
      dc.CurrentBuffer(buffer.target) == buffer.serial
    ensures buffer.target != GL_ARRAY_BUFFER ==> dc.arrayBufferId == old(dc.arrayBufferId)
    ensures buffer.target != GL_ELEMENT_ARRAY_BUFFER ==> dc.elementArrayBufferId == old(dc.elementArrayBufferId)
    ensures !ok ==> dc.calls == old(dc.calls)
    ensures !ok ==> dc.arrayBufferId == old(dc.arrayBufferId) && dc.elementArrayBufferId == old(dc.elementArrayBufferId)
    ensures dc.gl == old(dc.gl) && dc.direct == old(dc.direct)
  {
    ok := binds;
    if ok {
      dc.BindBuffer(buffer.target, buffer.serial);
    }
  }
}
