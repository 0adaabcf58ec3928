/**
 * Allocation of GL objects (new.rs): each allocator is one generator call
 * through `gl_gen_with`, and fixes the typestate a new handle starts in.
 * Generating names does not change any binding, so only the call log
 * changes.
 */
module New {
  import opened GLTypes
  import opened Glhf
  import Texture
  import Framebuffer
  import VertexArray
  import Buffer
  import Renderbuffer
  import ProgramTypes

  /** `New::textures`: `n` fresh textures, all `Stateless` (no dimensionality yet). */
  method Textures(gl: GLHF, n: nat, answer: seq<Name>, checked: bool) returns (r: Result<seq<Texture.Stateless>, Panic>)
    requires n <= GLINT_MAX && |answer| == n && (!checked ==> 0 !in answer)
    modifies gl`calls
    ensures gl.calls == old(gl.calls) + [Gen(TextureObjects, n)]
    ensures r.Err? <==> checked && 0 in answer
    ensures r.Ok? ==> |r.value| == n && forall i :: 0 <= i < n ==> r.value[i] == Texture.Stateless(answer[i])
  {
    var names := GenWith(gl, TextureObjects, n, answer, checked);
    if names.Err? {
      return Err(names.error);
    }
    r := Ok(seq(n, i requires 0 <= i < n => Texture.Stateless(names.value[i])));
  }

  /** `New::framebuffers`: `n` fresh framebuffers, all `Incomplete`. */
  method Framebuffers(gl: GLHF, n: nat, answer: seq<Name>, checked: bool) returns (r: Result<seq<Framebuffer.Incomplete>, Panic>)
    requires n <= GLINT_MAX && |answer| == n && (!checked ==> 0 !in answer)
    modifies gl`calls
    ensures gl.calls == old(gl.calls) + [Gen(FramebufferObjects, n)]
    ensures r.Err? <==> checked && 0 in answer
    ensures r.Ok? ==> |r.value| == n && forall i :: 0 <= i < n ==> r.value[i] == Framebuffer.Incomplete(answer[i])
  {
    var names := GenWith(gl, FramebufferObjects, n, answer, checked);
    if names.Err? {
      return Err(names.error);
    }
    r := Ok(seq(n, i requires 0 <= i < n => Framebuffer.Incomplete(names.value[i])));
  }

  /** `New::vertex_arrays`. */
  method VertexArrays(gl: GLHF, n: nat, answer: seq<Name>, checked: bool) returns (r: Result<seq<VertexArray.VertexArray>, Panic>)
    requires n <= GLINT_MAX && |answer| == n && (!checked ==> 0 !in answer)
    modifies gl`calls
    ensures gl.calls == old(gl.calls) + [Gen(VertexArrayObjects, n)]
    ensures r.Err? <==> checked && 0 in answer
    ensures r.Ok? ==> |r.value| == n && forall i :: 0 <= i < n ==> r.value[i] == VertexArray.VertexArray(answer[i])
  {
    var names := GenWith(gl, VertexArrayObjects, n, answer, checked);
    if names.Err? {
      return Err(names.error);
    }
    r := Ok(seq(n, i requires 0 <= i < n => VertexArray.VertexArray(names.value[i])));
  }

  /** `New::buffers`. */
  method Buffers(gl: GLHF, n: nat, answer: seq<Name>, checked: bool) returns (r: Result<seq<Buffer.Buffer>, Panic>)
    requires n <= GLINT_MAX && |answer| == n && (!checked ==> 0 !in answer)
    modifies gl`calls
    ensures gl.calls == old(gl.calls) + [Gen(BufferObjects, n)]
    ensures r.Err? <==> checked && 0 in answer
    ensures r.Ok? ==> |r.value| == n && forall i :: 0 <= i < n ==> r.value[i] == Buffer.Buffer(answer[i])
  {
    var names := GenWith(gl, BufferObjects, n, answer, checked);
    if names.Err? {
      return Err(names.error);
    }
    r := Ok(seq(n, i requires 0 <= i < n => Buffer.Buffer(names.value[i])));
  }

  /** `New::render_buffers`. */
  method RenderBuffers(gl: GLHF, n: nat, answer: seq<Name>, checked: bool) returns (r: Result<seq<Renderbuffer.Renderbuffer>, Panic>)
    requires n <= GLINT_MAX && |answer| == n && (!checked ==> 0 !in answer)
    modifies gl`calls
    ensures gl.calls == old(gl.calls) + [Gen(RenderbufferObjects, n)]
    ensures r.Err? <==> checked && 0 in answer
    ensures r.Ok? ==> |r.value| == n && forall i :: 0 <= i < n ==> r.value[i] == Renderbuffer.Renderbuffer(answer[i])
  {
    var names := GenWith(gl, RenderbufferObjects, n, answer, checked);
    if names.Err? {
      return Err(names.error);
    }
    r := Ok(seq(n, i requires 0 <= i < n => Renderbuffer.Renderbuffer(names.value[i])));
  }

  /**
   * `New::delete_textures`: only `Stateless` textures are accepted; all of
   * them go in one delete call, and any binding of one of them falls back
   * to the default texture.
   */
  method DeleteTextures(gl: GLHF, textures: seq<Texture.Stateless>)
    requires gl.Valid() && |textures| <= GLINT_MAX
    modifies gl
    ensures gl.Valid()
    ensures gl.calls == old(gl.calls) + [Delete(TextureObjects, seq(|textures|, i requires 0 <= i < |textures| => textures[i].name as Name))]
    ensures gl.st == old(gl.st).(texture := UnbindTextures(old(gl.st).texture, NameSet(seq(|textures|, i requires 0 <= i < |textures| => textures[i].name))))
  {
    var names := seq(|textures|, i requires 0 <= i < |textures| => textures[i].name as Name);
    DeleteWith(gl, TextureObjects, names);
    gl.st := gl.st.(texture := UnbindTextures(gl.st.texture, NameSet(seq(|textures|, i requires 0 <= i < |textures| => textures[i].name))));
  }

  /**
   * `New::shader`: one `CreateShader` call for the requested stage; a 0
   * answer is a panic, any other name becomes an `EmptyShader` of that stage.
   */
  method Shader(gl: GLHF, stage: ProgramTypes.ShaderType, created: Name) returns (r: Result<ProgramTypes.EmptyShader, Panic>)
    modifies gl`calls
    ensures gl.calls == old(gl.calls) + [CreateShader(stage)]
    ensures r.Err? <==> created == 0
    ensures r.Err? ==> r.error == ZeroName
    ensures r.Ok? ==> r.value.name == created && r.value.ty == stage
  {
    gl.calls := gl.calls + [CreateShader(stage)];
    if created == 0 {
      return Err(ZeroName);
    }
    r := Ok(ProgramTypes.EmptyShader(created, stage));
  }

  /** `New::program`: one `CreateProgram` call; 0 is a panic, any other name an unlinked `Program`. */
  method Program(gl: GLHF, created: Name) returns (r: Result<ProgramTypes.Program, Panic>)
    modifies gl`calls
    ensures gl.calls == old(gl.calls) + [CreateProgram]
    ensures r.Err? <==> created == 0
    ensures r.Err? ==> r.error == ZeroName
    ensures r.Ok? ==> r.value.name == created
  {
    gl.calls := gl.calls + [CreateProgram];
    if created == 0 {
      return Err(ZeroName);
    }
    r := Ok(ProgramTypes.Program(created));
  }
}
