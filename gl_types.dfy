/**
 * Shared vocabulary of the glhf model: the widths of the GL integer types,
 * object names, the Defaultness marker carried by every binding token, the
 * reasons a call can panic, and the checked conversions the Rust code uses
 * (`try_into().unwrap()`, `checked_add`, `checked_mul`).
 */
module GLTypes {

  const U32_LIMIT: int := 0x1_0000_0000
  /** `i32::MAX`, which is also `GLint::MAX` and `GLsizei::MAX`. */
  const GLINT_MAX: int := 0x7FFF_FFFF
  /** `i32::MIN`, which is also `GLint::MIN`. */
  const GLINT_MIN: int := -0x8000_0000
  /** `isize::MAX` (`GLintptr::MAX`, `GLsizeiptr::MAX`) on a 64-bit target. */
  const ISIZE_MAX: int := 0x7FFF_FFFF_FFFF_FFFF
  /** `usize::MAX` on a 64-bit target. */
  const USIZE_MAX: int := 0xFFFF_FFFF_FFFF_FFFF

  type u8 = x: int | 0 <= x < 0x100
  type u32 = x: int | 0 <= x < U32_LIMIT
  /** `i32`, which is also `GLint` and `GLsizei`. */
  type i32 = x: int | GLINT_MIN <= x <= GLINT_MAX
  type usize = x: int | 0 <= x <= USIZE_MAX
  type GLenum = u32

  /** An object name as the driver hands it out; 0 is the default object. */
  type Name = u32
  type NonZeroName = n: Name | n != 0 witness 1

  /** What a binding token knows about the name bound to its slot (slot/marker.rs). */
  datatype Defaultness = Unknown | IsDefault | NotDefault

  /** Whether a slot currently holding `name` may carry a token of defaultness `d`. */
  predicate Admits(d: Defaultness, name: Name)
  {
    match d
    case Unknown => true
    case IsDefault => name == 0
    case NotDefault => name != 0
  }

  /**
   * `Unknown` promises nothing beyond what both known states allow, and the
   * two known states are exclusive: exactly one of them describes any name.
   */
  lemma UnknownIsEitherKnownState(name: Name)
    ensures Admits(Unknown, name) <==> Admits(IsDefault, name) || Admits(NotDefault, name)
    ensures !(Admits(IsDefault, name) && Admits(NotDefault, name))
  {
  }

  datatype Option<T> = None | Some(value: T)
  datatype Result<T, E> = Ok(value: T) | Err(error: E)

  /** Why a call aborted (a Rust panic, `unwrap` on a failed conversion, a failed assertion). */
  datatype Panic =
    | ConversionOverflow   // `try_into().unwrap()` on a value the target type cannot hold
    | ArithmeticOverflow   // `checked_*().unwrap()` that overflowed
    | RangeReversed        // a range whose end lies before its start
    | OutOfBounds          // a draw reading past the end of the element buffer
    | ZeroName             // the driver answered with the name 0
    | NullMapping          // the driver returned a null mapping pointer
    | DuplicateBuffers     // `draw_buffers` given a slice with a repeated entry
    | MisalignedOffset     // an attribute offset not aligned to its type
    | UnmapFailed          // a mapping guard dropped while the driver lost its contents
    | NotNulTerminated     // an info log that is not a nul-terminated C string
    | UnknownUsage         // the driver reported a usage constant outside the known nine

  /**
   * `x.try_into::<T>().unwrap()` where the values of `x` that matter fit
   * `0..=max`: a non-negative source narrowed to a type whose maximum is
   * `max`, or a signed source converted to an unsigned type (negatives fail).
   */
  function Narrow(x: int, max: int): (r: Result<nat, Panic>)
    ensures r.Ok? <==> 0 <= x <= max
    ensures r.Ok? ==> r.value == x
    ensures r.Err? ==> r.error == ConversionOverflow
  {
    if 0 <= x <= max then Ok(x) else Err(ConversionOverflow)
  }

  /** `a.checked_add(b).unwrap()` / `a.checked_mul(b).unwrap()` on values whose type maximum is `max`. */
  function CheckedAdd(a: nat, b: nat, max: int): (r: Result<nat, Panic>)
    ensures r.Ok? <==> a + b <= max
    ensures r.Ok? ==> r.value == a + b
    ensures r.Err? ==> r.error == ArithmeticOverflow
  {
    if a + b <= max then Ok(a + b) else Err(ArithmeticOverflow)
  }

  function CheckedMul(a: nat, b: nat, max: int): (r: Result<nat, Panic>)
    ensures r.Ok? <==> a * b <= max
    ensures r.Ok? ==> r.value == a * b
    ensures r.Err? ==> r.error == ArithmeticOverflow
  {
    if a * b <= max then Ok(a * b) else Err(ArithmeticOverflow)
  }

  /** `x as i32` for a `u32`: the bit pattern is kept, so values above `i32::MAX` wrap to negatives. */
  function U32AsI32(x: u32): (r: int)
    ensures GLINT_MIN <= r <= GLINT_MAX
    ensures (r + U32_LIMIT) % U32_LIMIT == x
    ensures x <= GLINT_MAX ==> r == x
  {
    if x <= GLINT_MAX then x else x - U32_LIMIT
  }
}
