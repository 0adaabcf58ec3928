/**
 * The parameter enums of draw.rs and the arithmetic a draw performs before
 * its single driver call: the vertex or index count of a half-open range,
 * the byte offset of the first index, and the bounds check that checked
 * builds make against the element buffer.
 */
module DrawTypes {
  import opened GLTypes

  /** Primitive topologies (`repr(u32)`, with their GL values). */
  datatype Topology = Points | LineStrip | LineLoop | Lines | TriangleStrip | TriangleFan | Triangles

  function TopologyAsGl(t: Topology): GLenum
  {
    match t
    case Points => 0x0000
    case Lines => 0x0001
    case LineLoop => 0x0002
    case LineStrip => 0x0003
    case Triangles => 0x0004
    case TriangleStrip => 0x0005
    case TriangleFan => 0x0006
  }

  lemma TopologyValuesDistinct(a: Topology, b: Topology)
    ensures TopologyAsGl(a) == TopologyAsGl(b) <==> a == b
  {
  }

  /** The type of the indices fetched from the element buffer. */
  datatype ElementType = ElemU8 | ElemU16 | ElemU32

  const UNSIGNED_BYTE: GLenum := 0x1401
  const UNSIGNED_SHORT: GLenum := 0x1403
  const UNSIGNED_INT: GLenum := 0x1405

  function ElementTypeAsGl(t: ElementType): GLenum
  {
    match t
    case ElemU8 => UNSIGNED_BYTE
    case ElemU16 => UNSIGNED_SHORT
    case ElemU32 => UNSIGNED_INT
  }

  /** `ElementType::size_of`: the byte width of one index, 1, 2 or 4, distinct for each type. */
  function SizeOf(t: ElementType): (n: nat)
    ensures n == 1 || n == 2 || n == 4
    ensures n == 1 <==> t == ElemU8
    ensures n == 4 <==> t == ElemU32
  {
    match t
    case ElemU8 => 1
    case ElemU16 => 2
    case ElemU32 => 4
  }

  /** Whether a half-open range draws nothing, which every draw checks before any arithmetic. */
  predicate EmptyRange(start: usize, end: usize)
  {
    start == end
  }

  /**
   * The number of items of `start..end`: `end.checked_sub(start).expect(..)`,
   * which panics on a reversed range.
   */
  function RangeCount(start: usize, end: usize): (r: Result<nat, Panic>)
    ensures r.Ok? <==> start <= end
    ensures r.Ok? ==> start + r.value == end
    ensures r.Err? ==> r.error == RangeReversed
  {
    if start <= end then Ok(end - start) else Err(RangeReversed)
  }

  /** The position of the first index in the element buffer: `start.checked_mul(size_of).unwrap()`. */
  function ByteOffset(start: usize, t: ElementType): (r: Result<nat, Panic>)
    ensures r.Ok? <==> start * SizeOf(t) <= USIZE_MAX
    ensures r.Ok? ==> r.value / SizeOf(t) == start && r.value % SizeOf(t) == 0
    ensures r.Err? ==> r.error == ArithmeticOverflow
  {
    CheckedMul(start, SizeOf(t), USIZE_MAX)
  }

  /**
   * The checked-build bounds check: `byte_offset + count.checked_mul(size_of)`
   * (both steps panic on overflow in a checked build), which must not exceed
   * the length of the element buffer.
   */
  function BoundsCheck(byteOffset: nat, count: nat, t: ElementType, len: nat): Result<(), Panic>
  {
    match CheckedMul(count, SizeOf(t), USIZE_MAX)
    case Err(e) => Err(e)
    case Ok(bytes) =>
      match CheckedAdd(byteOffset, bytes, USIZE_MAX)
      case Err(e) => Err(e)
      case Ok(last) => if last <= len then Ok(()) else Err(OutOfBounds)
  }

  /**
   * The indices a draw fetches occupy bytes `start * size` up to `end * size`
   * of the element buffer: the offset is the first byte of index `start`,
   * and offset plus the byte count of `count` indices is the end of index
   * `end - 1`.
   */
  lemma SpanCoversRange(start: usize, end: usize, t: ElementType)
    requires start <= end && end * SizeOf(t) <= USIZE_MAX
    ensures RangeCount(start, end).Ok? && ByteOffset(start, t).Ok?
    ensures ByteOffset(start, t).value + RangeCount(start, end).value * SizeOf(t) == end * SizeOf(t)
  {
    assert start * SizeOf(t) <= end * SizeOf(t);
  }

  /**
   * For a buffer of a length the platform can address, the bounds check
   * passes exactly when every fetched index lies inside the buffer; a range
   * whose end overflows the address space fails it.
   */
  lemma BoundsCheckIffInside(start: usize, end: usize, t: ElementType, len: usize)
    requires start <= end && start * SizeOf(t) <= USIZE_MAX
    ensures BoundsCheck(start * SizeOf(t), end - start, t, len).Ok? <==> end * SizeOf(t) <= len
  {
    var s := SizeOf(t);
    assert start * s + (end - start) * s == end * s;
  }

  /** The worked example: indices 2..6 of type u16 are 4 indices starting at byte 4. */
  lemma ExampleU16Span()
    ensures RangeCount(2, 6) == Ok(4)
    ensures ByteOffset(2, ElemU16) == Ok(4)
    ensures BoundsCheck(4, 4, ElemU16, 12) == Ok(()) && BoundsCheck(4, 4, ElemU16, 11) == Err(OutOfBounds)
  {
  }
}
