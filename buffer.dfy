/**
 * Buffer objects and their parameter enums (buffer.rs), together with the
 * binding targets and mapping-access markers that slot/buffer.rs declares.
 */
module Buffer {
  import opened GLTypes

  /** An application-owned list of bytes; the handle is a non-zero name. */
  datatype Buffer = Buffer(name: NonZeroName)

  /** The eight buffer binding targets of OpenGL ES 3.0. */
  datatype BufferTarget =
    | Array | CopyRead | CopyWrite | ElementArray
    | PixelPack | PixelUnpack | TransformFeedback | Uniform

  function AllTargets(): set<BufferTarget>
  {
    {Array, CopyRead, CopyWrite, ElementArray, PixelPack, PixelUnpack, TransformFeedback, Uniform}
  }

  lemma AllTargetsComplete(t: BufferTarget)
    ensures t in AllTargets()
    ensures |AllTargets()| == 8
  {
  }

  /** The two halves of a usage hint. */
  datatype Frequency = Stream | Static | Dynamic
  datatype Access = Draw | Read | Copy

  const STREAM_DRAW: GLenum := 0x88E0
  const STREAM_READ: GLenum := 0x88E1
  const STREAM_COPY: GLenum := 0x88E2
  const STATIC_DRAW: GLenum := 0x88E4
  const STATIC_READ: GLenum := 0x88E5
  const STATIC_COPY: GLenum := 0x88E6
  const DYNAMIC_DRAW: GLenum := 0x88E8
  const DYNAMIC_READ: GLenum := 0x88E9
  const DYNAMIC_COPY: GLenum := 0x88EA

  /** `usage::as_gl`: the GL usage constant of a (frequency, access) pair. */
  function UsageAsGl(f: Frequency, a: Access): GLenum
  {
    match (f, a)
    case (Stream, Draw) => STREAM_DRAW
    case (Stream, Read) => STREAM_READ
    case (Stream, Copy) => STREAM_COPY
    case (Static, Draw) => STATIC_DRAW
    case (Static, Read) => STATIC_READ
    case (Static, Copy) => STATIC_COPY
    case (Dynamic, Draw) => DYNAMIC_DRAW
    case (Dynamic, Read) => DYNAMIC_READ
    case (Dynamic, Copy) => DYNAMIC_COPY
  }

  /** Distinct hints name distinct GL constants, so the hint can be recovered from the constant. */
  lemma UsageAsGlInjective(f1: Frequency, a1: Access, f2: Frequency, a2: Access)
    ensures UsageAsGl(f1, a1) == UsageAsGl(f2, a2) <==> f1 == f2 && a1 == a2
  {
  }

  /** The GL usage a buffer reports before any data was specified. */
  const INITIAL_USAGE: GLenum := STATIC_DRAW

  const MAP_READ_BIT: bv32 := 0x1
  const MAP_WRITE_BIT: bv32 := 0x2

  /** `RawMapAccess`: the raw access bits of a mapping request. */
  datatype RawMapAccess = RawRead | RawWrite | RawReadWrite

  function RawMapBits(a: RawMapAccess): (bits: bv32)
    ensures bits != 0 && bits & !(MAP_READ_BIT | MAP_WRITE_BIT) == 0
    ensures (bits & MAP_READ_BIT != 0) <==> a != RawWrite
    ensures (bits & MAP_WRITE_BIT != 0) <==> a != RawRead
  {
    match a
    case RawRead => MAP_READ_BIT
    case RawWrite => MAP_WRITE_BIT
    case RawReadWrite => MAP_READ_BIT | MAP_WRITE_BIT
  }

  /** The typed access of a mapping guard (slot/buffer.rs `MapAccess`). */
  datatype MapAccess = ReadOnly | ReadWrite

  /**
   * `MapAccess::FLAGS`: always the read bit, plus the write bit for a
   * read-write guard, and no other bit.
   */
  function MapFlags(a: MapAccess): (bits: bv32)
    ensures bits & MAP_READ_BIT != 0
    ensures (bits & MAP_WRITE_BIT != 0) <==> a == ReadWrite
    ensures bits & !(MAP_READ_BIT | MAP_WRITE_BIT) == 0
  {
    match a
    case ReadOnly => RawMapBits(RawRead)
    case ReadWrite => RawMapBits(RawReadWrite)
  }
}
