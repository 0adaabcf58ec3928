/**
 * The context wrapper (lib.rs): the driver-visible state of one GL context,
 * the log of driver calls, the generator and deleter helpers every object
 * kind goes through, and the set of binding slots a context hands out.
 *
 * The state is one value of type `Driver`:
 *   - the name bound to every binding point (0 is the default object);
 *   - per-object state the wrapper changes: buffer datastores, live
 *     mappings, framebuffer attachments, vertex attribute setup;
 *   - the live activation token of every slot, if any. A Rust token type
 *     (`Active<.., NotDefault>` and so on) is a compile-time promise about
 *     the slot; here it is state, and the methods that need a token say so
 *     in their `requires`. A token is dropped from the state when the Rust
 *     borrow that carries it would end.
 * `WellFormed` is the promise the typestate design makes: every live token
 * tells the truth about the name its slot holds.
 */
module Glhf {
  import opened GLTypes
  import opened Buffer
  import Texture
  import Framebuffer
  import ProgramTypes
  import VertexArray
  import Renderbuffer
  import DrawTypes

  /** The object kinds that go through `gl_gen_with` / `gl_delete_with`. */
  datatype ObjectKind = TextureObjects | FramebufferObjects | VertexArrayObjects | BufferObjects | RenderbufferObjects

  /** Which object an info log is read from. */
  datatype InfoLogSource = ShaderLog | ProgramLog

  /** One driver call, with the arguments the wrapper passes. */
  datatype GLCall =
    | Gen(kind: ObjectKind, count: nat)
    | Delete(kind: ObjectKind, names: seq<Name>)
    | CreateShader(stage: ProgramTypes.ShaderType)
    | CreateProgram
    | BindBuffer(target: BufferTarget, name: Name)
    | BufferData(target: BufferTarget, size: nat, usage: GLenum)
    | BufferSubData(target: BufferTarget, offset: nat, size: nat)
    | CopyBufferSubData(readTarget: BufferTarget, writeTarget: BufferTarget, readOffset: nat, writeOffset: nat, size: nat)
    | MapBufferRange(target: BufferTarget, offset: nat, length: nat, access: bv32)
    | UnmapBuffer(target: BufferTarget)
    | GetBufferSize(target: BufferTarget)
    | GetBufferUsage(target: BufferTarget)
    | BindFramebuffer(fbTarget: Framebuffer.BindTarget, name: Name)
    | CheckFramebufferStatus(fb: Framebuffer.Target)
    | FramebufferTexture2D(fb: Framebuffer.Target, attachment: Framebuffer.Attachment, texture: Name, level: nat)
    | Clear(mask: bv32)
    | BlitFramebuffer(readRect: Framebuffer.BlitRectangle, writeRect: Framebuffer.BlitRectangle, mask: bv32, filter: GLenum)
    | CopyTexSubImage2D(level: nat, xoffset: nat, yoffset: nat, x: i32, y: i32, width: nat, height: nat)
    | CopyTexImage2D(level: nat, texFormat: Texture.InternalFormat, x: i32, y: i32, width: nat, height: nat)
    | DrawBuffers(buffers: seq<GLenum>)
    | ReadBuffer(buffer: GLenum)
    | DrawArrays(mode: DrawTypes.Topology, first: nat, count: nat)
    | DrawArraysInstanced(mode: DrawTypes.Topology, first: nat, count: nat, instances: nat)
    | DrawElements(mode: DrawTypes.Topology, count: nat, elementType: DrawTypes.ElementType, offset: nat)
    | DrawElementsInstanced(mode: DrawTypes.Topology, count: nat, elementType: DrawTypes.ElementType, offset: nat, instances: nat)
    | DrawRangeElements(mode: DrawTypes.Topology, lowest: nat, highest: nat, count: nat, elementType: DrawTypes.ElementType, offset: nat)
    | UseProgram(name: Name)
    | ShaderSource(shader: Name, length: nat)
    | CompileShader(shader: Name)
    | GetCompileStatus(shader: Name)
    | AttachShader(program: Name, shader: Name)
    | LinkProgram(program: Name)
    | GetLinkStatus(program: Name)
    | DetachShader(program: Name, shader: Name)
    | GetInfoLogLength(source: InfoLogSource, obj: Name)
    | GetInfoLog(source: InfoLogSource, obj: Name, capacity: nat)
    | DeleteProgram(name: Name)
    | DeleteShader(name: Name)
    | UniformVector(width: nat, ty: ProgramTypes.Ty, location: nat, count: nat)
    | UniformMatrix(columns: nat, rows: nat, location: nat, count: nat, transpose: bool)
    | ActiveTexture(textureUnit: GLenum)
    | BindTexture(dim: Texture.Dim, name: Name)
    | TexParameteri(dim: Texture.Dim, pname: GLenum, param: int)
    | TexStorage2D(levels: nat, texFormat: Texture.InternalFormat, width: nat, height: nat)
    | BindVertexArray(name: Name)
    | VertexAttribIPointer(index: u32, components: int, componentType: GLenum, stride: nat, offset: nat)
    | VertexAttribPointer(index: u32, components: int, componentType: GLenum, normalized: bool, stride: nat, offset: nat)
    | EnableVertexAttribArray(index: u32)
    | DisableVertexAttribArray(index: u32)
    | BindRenderbuffer(name: Name)
    | RenderbufferStorage(rbFormat: Renderbuffer.InternalFormat, width: nat, height: nat)
    | RenderbufferStorageMultisample(samples: nat, msFormat: Renderbuffer.InternalFormatMultisample, width: nat, height: nat)

  /** The datastore of a buffer object: its length in bytes and its usage hint. */
  datatype BufferStore = BufferStore(size: nat, usage: GLenum)

  /** A live mapping of a byte range of the buffer bound to a target. */
  datatype Mapping = Mapping(offset: nat, length: nat, access: MapAccess)

  /** What a framebuffer token knows: the defaultness of the bound name and its completeness. */
  datatype FbToken = FbToken(defaultness: Defaultness, completeness: Framebuffer.Completeness)

  /** The vertex attribute state of one index of one vertex array: its source buffer and layout. */
  datatype AttribSetup = AttribSetup(source: Name, attribute: VertexArray.Attribute)

  datatype Driver = Driver(
    // bindings
    buffer: map<BufferTarget, Name>,
    drawFramebuffer: Name,
    readFramebuffer: Name,
    vertexArray: Name,
    program: Name,
    renderbuffer: Name,
    activeUnit: nat,
    texture: map<(nat, Texture.Dim), Name>,  // absent: whatever the context held when wrapped
    // object state
    stores: map<Name, BufferStore>,
    mappings: map<BufferTarget, Mapping>,
    attachments: map<(Name, Framebuffer.Attachment), Name>,
    attributes: map<(Name, u32), AttribSetup>,
    enabled: set<(Name, u32)>,
    // live tokens
    bufferToken: map<BufferTarget, Defaultness>,
    drawToken: Option<FbToken>,
    readToken: Option<FbToken>,
    vertexArrayToken: Option<Defaultness>,
    programToken: Option<Defaultness>,
    renderbufferToken: Option<Defaultness>,
    textureToken: set<Texture.Dim>
  )

  /** The nine usage constants a datastore can report. */
  const USAGES: set<GLenum> := {STREAM_DRAW, STREAM_READ, STREAM_COPY, STATIC_DRAW, STATIC_READ, STATIC_COPY, DYNAMIC_DRAW, DYNAMIC_READ, DYNAMIC_COPY}

  predicate TokenAdmits(t: Option<Defaultness>, name: Name)
  {
    t.Some? ==> Admits(t.value, name)
  }

  /** A framebuffer token is truthful, and a token for the default framebuffer always claims it complete. */
  predicate FbTokenAdmits(t: Option<FbToken>, name: Name)
  {
    t.Some? ==> Admits(t.value.defaultness, name) && (t.value.defaultness == IsDefault ==> t.value.completeness == Framebuffer.MarkComplete)
  }

  /**
   * The invariant of the typestate design: every buffer target holds a
   * name; a bound buffer has a datastore with a known usage; every live
   * token is truthful about its slot; a mapping exists only under a live
   * NotDefault token of its target (the guard borrows that token).
   */
  predicate WellFormed(st: Driver)
  {
    (forall t: BufferTarget :: t in st.buffer)
    && 0 !in st.stores
    && (forall t :: t in st.buffer && st.buffer[t] != 0 ==> st.buffer[t] in st.stores)
    && (forall n :: n in st.stores ==> st.stores[n].usage in USAGES && st.stores[n].size <= ISIZE_MAX)
    && (forall t :: t in st.bufferToken && t in st.buffer ==> Admits(st.bufferToken[t], st.buffer[t]))
    && (forall t :: t in st.mappings ==> t in st.bufferToken && st.bufferToken[t] == NotDefault)
    && FbTokenAdmits(st.drawToken, st.drawFramebuffer)
    && FbTokenAdmits(st.readToken, st.readFramebuffer)
    && TokenAdmits(st.vertexArrayToken, st.vertexArray)
    && TokenAdmits(st.programToken, st.program)
    && TokenAdmits(st.renderbufferToken, st.renderbuffer)
  }

  /** The state of a context before the wrapper has handed out anything: no token, no mapping. */
  predicate Untouched(st: Driver)
  {
    st.bufferToken == map[] && st.mappings == map[]
    && st.drawToken.None? && st.readToken.None?
    && st.vertexArrayToken.None? && st.programToken.None? && st.renderbufferToken.None?
    && st.textureToken == {}
  }

  /** The name bound to a buffer target. */
  function BoundBuffer(st: Driver, t: BufferTarget): Name
    requires WellFormed(st)
  {
    st.buffer[t]
  }

  /** Whether the live token of buffer target `t` has defaultness `d`. */
  predicate HasBufferToken(st: Driver, t: BufferTarget, d: Defaultness)
  {
    t in st.bufferToken && st.bufferToken[t] == d
  }

  /**
   * A NotDefault buffer token is a proof that a real buffer with a datastore
   * is bound: the promise every datastore operation relies on.
   */
  lemma NotDefaultBufferHasStore(st: Driver, t: BufferTarget)
    requires WellFormed(st) && HasBufferToken(st, t, NotDefault)
    ensures BoundBuffer(st, t) != 0 && BoundBuffer(st, t) in st.stores
  {
  }

  /** A binding slot handed out by `GLHF::current`. */
  datatype SlotId =
    | TextureSlot(dim: Texture.Dim)
    | FramebufferSlot(fb: Framebuffer.Target)
    | BufferSlot(target: BufferTarget)
    | VertexArraySlot
    | ProgramSlot

  /**
   * The slots of one `GLHF`, numbered in the order `current` lays them out:
   * the four texture targets, the two framebuffer targets, the eight buffer
   * targets, then the vertex array and the program.
   */
  function SlotIndex(s: SlotId): (i: nat)
    ensures i < 16
  {
    match s
    case TextureSlot(d) => (match d case D2 => 0 case D3 => 1 case D2Array => 2 case Cube => 3)
    case FramebufferSlot(f) => (match f case DrawTarget => 4 case ReadTarget => 5)
    case BufferSlot(t) =>
      (match t
       case Array => 6 case CopyRead => 7 case CopyWrite => 8 case ElementArray => 9
       case PixelPack => 10 case PixelUnpack => 11 case TransformFeedback => 12 case Uniform => 13)
    case VertexArraySlot => 14
    case ProgramSlot => 15
  }

  /** The slot at each position of that layout. */
  function SlotAt(i: nat): SlotId
    requires i < 16
  {
    if i < 4 then TextureSlot([Texture.D2, Texture.D3, Texture.D2Array, Texture.Cube][i])
    else if i < 6 then FramebufferSlot([Framebuffer.DrawTarget, Framebuffer.ReadTarget][i - 4])
    else if i < 14 then
      BufferSlot([Array, CopyRead, CopyWrite, ElementArray, PixelPack, PixelUnpack, TransformFeedback, Uniform][i - 6])
    else if i == 14 then VertexArraySlot
    else ProgramSlot
  }

  /**
   * The context has exactly sixteen slots, one per binding point: numbering
   * them is a bijection onto 0..15, so every slot has its own number and
   * every number names a slot.
   */
  lemma ContextHasOneSlotPerTarget(s: SlotId, i: nat)
    requires i < 16
    ensures SlotAt(SlotIndex(s)) == s
    ensures SlotIndex(SlotAt(i)) == i
  {
  }

  /** The context: its driver state and the ghost log of every driver call made through the wrapper. */
  class GLHF {
    var st: Driver
    ghost var calls: seq<GLCall>

    ghost predicate Valid()
      reads this
    {
      WellFormed(st)
    }

    /**
     * `GLHF::current`: wrapping the current context makes no driver call
     * and hands out no token; the bindings are whatever the context holds.
     */
    constructor Current(context: Driver)
      requires WellFormed(context) && Untouched(context)
      ensures Valid() && st == context && calls == []
    {
      st := context;
      calls := [];
    }
  }

  /** The scan of checked builds: `names.any(|name| name == 0)`, stopping at the first zero. */
  method ContainsZeroName(names: seq<Name>) returns (found: bool)
    ensures found <==> 0 in names
  {
    var i := 0;
    found := false;
    while i < |names| && !found
      invariant 0 <= i <= |names|
      invariant found <==> 0 in names[..i]
    {
      found := names[i] == 0;
      i := i + 1;
    }
    assert !found ==> names[..i] == names;
  }

  /**
   * `gl_gen_with`: one generator call for all `n` names. The generator must
   * fill every entry (`|answer| == n`); it is only trusted to return non-zero
   * names in unchecked builds (a safety precondition), while checked builds
   * panic if any name is 0. On success the handles are exactly the names
   * the driver returned, in order.
   */
  method GenWith(gl: GLHF, kind: ObjectKind, n: nat, answer: seq<Name>, checked: bool) returns (r: Result<seq<NonZeroName>, Panic>)
    requires n <= GLINT_MAX
    requires |answer| == n
    requires !checked ==> 0 !in answer
    modifies gl`calls
    ensures gl.calls == old(gl.calls) + [Gen(kind, n)]
    ensures r.Err? <==> checked && 0 in answer
    ensures r.Err? ==> r.error == ZeroName
    ensures r.Ok? ==> |r.value| == n && r.value == answer
  {
    gl.calls := gl.calls + [Gen(kind, n)];
    if checked {
      var zero := ContainsZeroName(answer);
      if zero {
        return Err(ZeroName);
      }
    }
    var names: seq<NonZeroName> := answer;
    r := Ok(names);
  }

  /**
   * `gl_delete_with`: all `N` names in a single delete call. The count must
   * fit a `GLsizei` (a compile-time assertion in the source). The effect of
   * the deletion on bindings is applied by each slot.
   */
  method DeleteWith(gl: GLHF, kind: ObjectKind, names: seq<Name>)
    requires |names| <= GLINT_MAX
    modifies gl`calls
    ensures gl.calls == old(gl.calls) + [Delete(kind, names)]
  {
    gl.calls := gl.calls + [Delete(kind, names)];
  }

  /** The set of names a deletion hands to the driver. */
  function NameSet(names: seq<NonZeroName>): (s: set<Name>)
    ensures 0 !in s
    ensures forall i :: 0 <= i < |names| ==> names[i] in s
  {
    set i | 0 <= i < |names| :: names[i] as Name
  }

  /** A binding of a deleted name falls back to the default object, 0. */
  function Unbound(bound: Name, deleted: set<Name>): (n: Name)
    ensures n == 0 <==> bound == 0 || bound in deleted
    ensures n != 0 ==> n == bound
  {
    if bound in deleted then 0 else bound
  }

  /** Every texture binding (of any unit and dimensionality) of a deleted name falls back to 0. */
  function UnbindTextures(m: map<(nat, Texture.Dim), Name>, deleted: set<Name>): (r: map<(nat, Texture.Dim), Name>)
    ensures r.Keys == m.Keys
    ensures forall k :: k in r ==> r[k] == Unbound(m[k], deleted)
  {
    map k | k in m :: Unbound(m[k], deleted)
  }
}
