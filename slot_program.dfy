/**
 * Using, compiling and linking programs (slot/program.rs): the info-log
 * fetch, the compile and link sequences with the driver's verdict as an
 * input, the program slot, and the uniform uploads with their entry-point
 * dispatch.
 */
module SlotProgram {
  import opened GLTypes
  import opened ProgramTypes
  import opened Glhf

  /** `CString::from_vec_with_nul` succeeds: the last byte is the only nul. */
  predicate NulTerminated(bytes: seq<u8>)
  {
    |bytes| > 0 && bytes[|bytes| - 1] == 0 && 0 !in bytes[..|bytes| - 1]
  }

  /** The calls of one info-log fetch: the length query, and the fetch unless the length is 0 or negative. */
  function InfoLogCalls(source: InfoLogSource, obj: Name, length: int): (cs: seq<GLCall>)
    ensures 1 <= |cs| <= 2 && cs[0] == GetInfoLogLength(source, obj)
    ensures |cs| == 2 <==> length > 0
  {
    [GetInfoLogLength(source, obj)] + if length > 0 then [GetInfoLog(source, obj, length)] else []
  }

  /**
   * `info_log` (compiled only with the `alloc` feature): one
   * `INFO_LOG_LENGTH` query. A length of 0 yields the empty
   * string with no fetch; otherwise a buffer of that capacity is fetched in
   * one call, the driver reports how many characters it wrote, the buffer
   * takes that many bytes plus one for the terminator, and the bytes must
   * form a nul-terminated C string. `length`, `written` and `bytes` are the
   * driver's answers; the driver writes within the capacity it was given.
   */
  method InfoLog(gl: GLHF, source: InfoLogSource, obj: Name, length: i32, written: i32, bytes: seq<u8>)
    returns (r: Result<seq<u8>, Panic>)
    requires length > 0 ==> written < length
    requires written >= 0 ==> |bytes| == written + 1
    modifies gl`calls
    ensures gl.calls == old(gl.calls) + InfoLogCalls(source, obj, length)
    ensures length == 0 ==> r == Ok([])
    ensures length < 0 ==> r == Err(ConversionOverflow)
    ensures length > 0 && written < 0 ==> r == Err(ConversionOverflow)
    ensures length > 0 && written >= 0 ==> (r.Ok? <==> NulTerminated(bytes))
    ensures length > 0 && written >= 0 && !NulTerminated(bytes) ==> r == Err(NotNulTerminated)
    ensures r.Ok? && length > 0 ==> r.value + [0] == bytes && 0 !in r.value && |r.value| == written
  {
    gl.calls := gl.calls + [GetInfoLogLength(source, obj)];
    if length == 0 {
      return Ok([]);
    }
    var capacity := Narrow(length, USIZE_MAX);
    if capacity.Err? {
      return Err(capacity.error);
    }
    gl.calls := gl.calls + [GetInfoLog(source, obj, capacity.value)];
    var count := Narrow(written, USIZE_MAX);
    if count.Err? {
      return Err(count.error);
    }
    // `checked_add(1)` cannot overflow a count that came from a `GLint`.
    if !NulTerminated(bytes) {
      return Err(NotNulTerminated);
    }
    r := Ok(bytes[..|bytes| - 1]);
  }

  /** The driver's answers to one info-log fetch. */
  datatype LogAnswer = LogAnswer(length: i32, written: i32, bytes: seq<u8>)

  /** The driver writes within the capacity it was given, and the buffer holds the count plus the terminator. */
  predicate ValidLogAnswer(a: LogAnswer)
  {
    && (a.length > 0 ==> a.written < a.length)
    && (a.written >= 0 ==> |a.bytes| == a.written + 1)
  }

  /**
   * The info-log fetch panics: a negative length or written count does not
   * fit a `usize`, and the fetched bytes must form a C string.
   */
  predicate LogFetchPanics(a: LogAnswer)
  {
    a.length < 0 || (a.length > 0 && (a.written < 0 || !NulTerminated(a.bytes)))
  }

  /**
   * `CompileError`: the shader handed back, and its info log, which exists
   * only in builds with the `alloc` feature (`None` otherwise).
   */
  datatype CompileError = CompileError(shader: EmptyShader, log: Option<seq<u8>>)

  /**
   * `Slot::compile`: the source length must fit a `GLint` (a panic before
   * any call); then source, compile and status query, in that order. A
   * TRUE status yields the same shader as compiled; otherwise the shader is
   * handed back unchanged, and with `alloc` its info log is fetched after
   * the query. `alloc` selects whether the `alloc` feature is enabled.
   */
  method Compile(gl: GLHF, shader: EmptyShader, sourceLength: usize, alloc: bool, success: bool, log: LogAnswer)
    returns (r: Result<Result<CompiledShader, CompileError>, Panic>)
    requires ValidLogAnswer(log)
    modifies gl`calls
    ensures sourceLength > GLINT_MAX ==> r == Err(ConversionOverflow) && gl.calls == old(gl.calls)
    ensures sourceLength <= GLINT_MAX ==>
      gl.calls == old(gl.calls) + [ShaderSource(shader.name, sourceLength), CompileShader(shader.name), GetCompileStatus(shader.name)]
                  + (if success || !alloc then [] else InfoLogCalls(ShaderLog, shader.name, log.length))
    ensures sourceLength <= GLINT_MAX && success ==> r == Ok(Ok(IntoCompiledUnchecked(shader)))
    ensures r.Ok? ==> (r.value.Ok? <==> success)
    ensures r.Ok? && r.value.Ok? ==> r.value.value.name == shader.name && r.value.value.ty == shader.ty
    ensures r.Ok? && r.value.Err? ==> r.value.error.shader == shader && (r.value.error.log.Some? <==> alloc)
    ensures sourceLength <= GLINT_MAX && !success && !alloc ==> r == Ok(Err(CompileError(shader, None)))
    ensures sourceLength <= GLINT_MAX && !success && alloc ==> (r.Err? <==> LogFetchPanics(log))
    ensures sourceLength <= GLINT_MAX && !success && alloc && log.length == 0 ==> r == Ok(Err(CompileError(shader, Some([]))))
    ensures r.Ok? && r.value.Err? && alloc && log.length > 0 ==>
      r.value.error.log.value + [0] == log.bytes && 0 !in r.value.error.log.value
  {
    var len := Narrow(sourceLength, GLINT_MAX);
    if len.Err? {
      return Err(len.error);
    }
    gl.calls := gl.calls + [ShaderSource(shader.name, sourceLength), CompileShader(shader.name), GetCompileStatus(shader.name)];
    if success {
      return Ok(Ok(IntoCompiledUnchecked(shader)));
    }
    if !alloc {
      return Ok(Err(CompileError(shader, None)));
    }
    var text := InfoLog(gl, ShaderLog, shader.name, log.length, log.written, log.bytes);
    if text.Err? {
      return Err(text.error);
    }
    r := Ok(Err(CompileError(shader, Some(text.value))));
  }

  /** `LinkError`: the program handed back, and its info log with `alloc` (`None` otherwise). */
  datatype LinkError = LinkError(program: Program, log: Option<seq<u8>>)

  /** The calls of a link, whatever its outcome: attach both, link, query, detach both. */
  function LinkCalls(p: Program, s: ProgramShaders): (cs: seq<GLCall>)
    ensures |cs| == 6 && cs[2] == LinkProgram(p.name) && cs[3] == GetLinkStatus(p.name)
    ensures cs[0] == AttachShader(p.name, s.vertex.name) && cs[1] == AttachShader(p.name, s.fragment.name)
    ensures cs[4] == DetachShader(p.name, s.vertex.name) && cs[5] == DetachShader(p.name, s.fragment.name)
  {
    [AttachShader(p.name, s.vertex.name), AttachShader(p.name, s.fragment.name),
     LinkProgram(p.name), GetLinkStatus(p.name),
     DetachShader(p.name, s.vertex.name), DetachShader(p.name, s.fragment.name)]
  }

  /**
   * `Slot::link`: attaches vertex then fragment, links, queries the status
   * and detaches both shaders whatever the outcome. A TRUE status yields
   * the same program as linked; otherwise the program is handed back
   * unchanged, and with `alloc` its info log is fetched.
   */
  method Link(gl: GLHF, program: Program, shaders: ProgramShaders, alloc: bool, success: bool, log: LogAnswer)
    returns (r: Result<Result<LinkedProgram, LinkError>, Panic>)
    requires WellStaged(shaders) && ValidLogAnswer(log)
    modifies gl`calls
    ensures gl.calls == old(gl.calls) + LinkCalls(program, shaders)
                        + (if success || !alloc then [] else InfoLogCalls(ProgramLog, program.name, log.length))
    ensures success ==> r == Ok(Ok(IntoLinkedUnchecked(program)))
    ensures r.Ok? ==> (r.value.Ok? <==> success)
    ensures r.Ok? && r.value.Ok? ==> r.value.value.name == program.name
    ensures r.Ok? && r.value.Err? ==> r.value.error.program == program && (r.value.error.log.Some? <==> alloc)
    ensures !success && !alloc ==> r == Ok(Err(LinkError(program, None)))
    ensures !success && alloc ==> (r.Err? <==> LogFetchPanics(log))
    ensures !success && alloc && log.length == 0 ==> r == Ok(Err(LinkError(program, Some([]))))
    ensures r.Ok? && r.value.Err? && alloc && log.length > 0 ==>
      r.value.error.log.value + [0] == log.bytes && 0 !in r.value.error.log.value
  {
    gl.calls := gl.calls + LinkCalls(program, shaders);
    if success {
      return Ok(Ok(IntoLinkedUnchecked(program)));
    }
    if !alloc {
      return Ok(Err(LinkError(program, None)));
    }
    var text := InfoLog(gl, ProgramLog, program.name, log.length, log.written, log.bytes);
    if text.Err? {
      return Err(text.error);
    }
    r := Ok(Err(LinkError(program, Some(text.value))));
  }

  /** `Slot::bind`: only a linked program can be used; the token is NotDefault. */
  method Bind(gl: GLHF, program: LinkedProgram)
    requires gl.Valid()
    modifies gl
    ensures gl.Valid()
    ensures gl.st == old(gl.st).(program := program.name, programToken := Some(NotDefault))
    ensures gl.calls == old(gl.calls) + [UseProgram(program.name)]
  {
    gl.st := gl.st.(program := program.name, programToken := Some(NotDefault));
    gl.calls := gl.calls + [UseProgram(program.name)];
  }

  /** `Slot::unbind`: uses program 0; the token is IsDefault. */
  method Unbind(gl: GLHF)
    requires gl.Valid()
    modifies gl
    ensures gl.Valid()
    ensures gl.st == old(gl.st).(program := 0, programToken := Some(IsDefault))
    ensures gl.calls == old(gl.calls) + [UseProgram(0)]
  {
    gl.st := gl.st.(program := 0, programToken := Some(IsDefault));
    gl.calls := gl.calls + [UseProgram(0)];
  }

  /** `Slot::inherit` / `inherit_mut`: no call; the token is Unknown. */
  method Inherit(gl: GLHF)
    requires gl.Valid()
    modifies gl
    ensures gl.Valid()
    ensures gl.st == old(gl.st).(programToken := Some(Unknown))
    ensures gl.calls == old(gl.calls)
  {
    gl.st := gl.st.(programToken := Some(Unknown));
  }

  /**
   * `Slot::delete`: one delete call. Deletion of a program in use is
   * deferred by the driver, so the binding and any live token are kept.
   */
  method Delete(gl: GLHF, program: Program)
    modifies gl`calls
    ensures gl.calls == old(gl.calls) + [DeleteProgram(program.name)]
  {
    gl.calls := gl.calls + [DeleteProgram(program.name)];
  }

  /** `Slot::delete_shader`: one delete call; an attached shader is deleted when detached. */
  method DeleteShader(gl: GLHF, shader: EmptyShader)
    modifies gl`calls
    ensures gl.calls == old(gl.calls) + [GLCall.DeleteShader(shader.name)]
  {
    gl.calls := gl.calls + [GLCall.DeleteShader(shader.name)];
  }

  /** The vector width that, with the component type, selects the `glUniform{1,2,3,4}{f,i,ui}v` entry point. */
  function Width(v: Vector): (w: nat)
    ensures 1 <= w <= 4
    ensures w == 1 <==> v.Scalar?
    ensures w == 2 <==> v.Vec2?
    ensures w == 3 <==> v.Vec3?
  {
    match v
    case Scalar(_) => 1
    case Vec2(_) => 2
    case Vec3(_) => 3
    case Vec4(_) => 4
  }

  /** The twelve scalar/vector entry points, as (width, component type). */
  function VectorEntryPoints(): set<(nat, Ty)>
  {
    set w, t | w in {1, 2, 3, 4} && t in {U32, I32, F32} :: (w, t)
  }

  /**
   * Every (shape, type) pair selects one of the twelve entry points, and
   * different pairs select different ones.
   */
  lemma VectorDispatchIsOneToOne(v: Vector, t: Ty, u: Vector, s: Ty)
    ensures (Width(v), t) in VectorEntryPoints()
    ensures (Width(v), t) == (Width(u), s) <==> (v.Scalar? == u.Scalar? && v.Vec2? == u.Vec2? && v.Vec3? == u.Vec3? && t == s)
  {
    assert Width(v) in {1, 2, 3, 4} && t in {U32, I32, F32};
  }

  /**
   * Every one of the twelve entry points is reached: for each width and
   * scalar type there is a value of that shape, of any length, that
   * dispatches to it.
   */
  lemma EveryVectorEntryPointIsReached(w: nat, t: Ty, len: nat)
    requires (w, t) in VectorEntryPoints()
    ensures exists v: Vector :: v.len == len && (Width(v), t) == (w, t)
  {
    var v := if w == 1 then Scalar(len) else if w == 2 then Vec2(len) else if w == 3 then Vec3(len) else Vec4(len);
    assert Width(v) == w;
  }

  /**
   * `Active::uniform`: only under a NotDefault program token. An empty value
   * makes no call; otherwise the base location must fit a `GLint` and the
   * element count a `GLsizei`, and exactly one entry point is called, the
   * one of the value's width and component type.
   */
  method Uniform(gl: GLHF, baseLocation: u32, value: Vector, ty: Ty) returns (r: Result<(), Panic>)
    requires gl.Valid() && gl.st.programToken == Some(NotDefault)
    modifies gl`calls
    ensures VectorIsEmpty(value) ==> r.Ok? && gl.calls == old(gl.calls)
    ensures !VectorIsEmpty(value) && (baseLocation > GLINT_MAX || value.len > GLINT_MAX) ==>
      r == Err(ConversionOverflow) && gl.calls == old(gl.calls)
    ensures !VectorIsEmpty(value) && baseLocation <= GLINT_MAX && value.len <= GLINT_MAX ==>
      r.Ok? && gl.calls == old(gl.calls) + [UniformVector(Width(value), ty, baseLocation, value.len)]
  {
    if VectorIsEmpty(value) {
      return Ok(());
    }
    var location := Narrow(baseLocation, GLINT_MAX);
    if location.Err? {
      return Err(location.error);
    }
    var count := Narrow(value.len, GLINT_MAX);
    if count.Err? {
      return Err(count.error);
    }
    gl.calls := gl.calls + [UniformVector(Width(value), ty, baseLocation, value.len)];
    r := Ok(());
  }

  /** Column and row counts identify the matrix shape, so each shape has its own entry point. */
  lemma MatrixDispatchIsOneToOne(m: Matrix, n: Matrix)
    requires Columns(m) == Columns(n) && Rows(m) == Rows(n)
    ensures m.(len := 0) == n.(len := 0)
  {
  }

  /**
   * `Active::uniform_matrix`: only under a NotDefault program token. An
   * empty value makes no call; otherwise the base location and count must
   * fit, and the entry point of the matrix's shape is called once, never
   * transposing.
   */
  method UniformMatrix(gl: GLHF, baseLocation: u32, value: Matrix) returns (r: Result<(), Panic>)
    requires gl.Valid() && gl.st.programToken == Some(NotDefault)
    modifies gl`calls
    ensures MatrixIsEmpty(value) ==> r.Ok? && gl.calls == old(gl.calls)
    ensures !MatrixIsEmpty(value) && (baseLocation > GLINT_MAX || value.len > GLINT_MAX) ==>
      r == Err(ConversionOverflow) && gl.calls == old(gl.calls)
    ensures !MatrixIsEmpty(value) && baseLocation <= GLINT_MAX && value.len <= GLINT_MAX ==>
      r.Ok? && gl.calls == old(gl.calls) + [GLCall.UniformMatrix(Columns(value), Rows(value), baseLocation, value.len, false)]
  {
    if MatrixIsEmpty(value) {
      return Ok(());
    }
    var location := Narrow(baseLocation, GLINT_MAX);
    if location.Err? {
      return Err(location.error);
    }
    var count := Narrow(value.len, GLINT_MAX);
    if count.Err? {
      return Err(count.error);
    }
    gl.calls := gl.calls + [GLCall.UniformMatrix(Columns(value), Rows(value), baseLocation, value.len, false)];
    r := Ok(());
  }
}
