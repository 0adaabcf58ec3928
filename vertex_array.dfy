/**
 * Vertex array objects and the description of one vertex attribute
 * (vertex_array/mod.rs): component counts, the component types with the
 * alignment each needs, and the interpretation of fetched data.
 */
module VertexArray {
  import opened GLTypes

  /** A user vertex array object. */
  datatype VertexArray = VertexArray(name: NonZeroName)

  /** Number of components fetched per vertex (`repr(i32)`, 1 to 4). */
  datatype Components = Scalar | Vec2 | Vec3 | Vec4

  /** `From<Components> for i32`. */
  function ComponentCount(c: Components): (n: int)
    ensures 1 <= n <= 4
  {
    match c
    case Scalar => 1
    case Vec2 => 2
    case Vec3 => 3
    case Vec4 => 4
  }

  lemma ComponentCountInjective(c: Components, d: Components)
    ensures ComponentCount(c) == ComponentCount(d) <==> c == d
  {
  }

  datatype IntegerAttribute = U8 | I8 | U16 | I16 | U32 | I32
  datatype FloatingAttribute = F16 | F32 | Fixed16_16
  datatype PackedIntegerAttribute = IReverse2_10_10_10 | UReverse2_10_10_10

  const BYTE: GLenum := 0x1400
  const UNSIGNED_BYTE: GLenum := 0x1401
  const SHORT: GLenum := 0x1402
  const UNSIGNED_SHORT: GLenum := 0x1403
  const INT: GLenum := 0x1404
  const UNSIGNED_INT: GLenum := 0x1405
  const FLOAT: GLenum := 0x1406
  const HALF_FLOAT: GLenum := 0x140B
  const FIXED: GLenum := 0x140C
  const INT_2_10_10_10_REV: GLenum := 0x8D9F
  const UNSIGNED_INT_2_10_10_10_REV: GLenum := 0x8368

  function IntegerAsGl(t: IntegerAttribute): GLenum
  {
    match t
    case U8 => UNSIGNED_BYTE
    case I8 => BYTE
    case U16 => UNSIGNED_SHORT
    case I16 => SHORT
    case U32 => UNSIGNED_INT
    case I32 => INT
  }

  function FloatingAsGl(t: FloatingAttribute): GLenum
  {
    match t
    case F16 => HALF_FLOAT
    case F32 => FLOAT
    case Fixed16_16 => FIXED
  }

  function PackedAsGl(t: PackedIntegerAttribute): GLenum
  {
    match t
    case IReverse2_10_10_10 => INT_2_10_10_10_REV
    case UReverse2_10_10_10 => UNSIGNED_INT_2_10_10_10_REV
  }

  /** `align_of` of the Rust type each integer attribute is fetched as. */
  function IntegerAlign(t: IntegerAttribute): nat
  {
    match t
    case U8 => 1
    case I8 => 1
    case U16 => 2
    case I16 => 2
    case U32 => 4
    case I32 => 4
  }

  function FloatingAlign(t: FloatingAttribute): nat
  {
    match t
    case F16 => 2
    case F32 => 4
    case Fixed16_16 => 4
  }

  function PackedAlign(t: PackedIntegerAttribute): nat
  {
    4
  }

  /** How fetched components are typed and presented to the shader. */
  datatype AttributeType =
    | Integer(i: IntegerAttribute)
    | Scaled(i: IntegerAttribute)
    | PackedScaled(p: PackedIntegerAttribute)
    | Normalized(i: IntegerAttribute)
    | PackedNormalized(p: PackedIntegerAttribute)
    | Float(f: FloatingAttribute)

  /** The GL component type of an attribute, as handed to `glVertexAttrib[I]Pointer`. */
  function ComponentType(t: AttributeType): GLenum
  {
    match t
    case Integer(i) => IntegerAsGl(i)
    case Scaled(i) => IntegerAsGl(i)
    case Normalized(i) => IntegerAsGl(i)
    case PackedScaled(p) => PackedAsGl(p)
    case PackedNormalized(p) => PackedAsGl(p)
    case Float(f) => FloatingAsGl(f)
  }

  /**
   * `AttributeType::align_of`: the alignment of the component type, which is
   * a power of two no larger than 4, and is the alignment of the integer,
   * float or packed type underneath whatever interpretation is chosen.
   */
  function AlignOf(t: AttributeType): (a: nat)
    ensures a == 1 || a == 2 || a == 4
    ensures t.Integer? || t.Scaled? || t.Normalized? ==> a == IntegerAlign(t.i)
    ensures t.PackedScaled? || t.PackedNormalized? ==> a == 4
    ensures t.Float? ==> a == FloatingAlign(t.f)
  {
    match t
    case Float(f) => FloatingAlign(f)
    case Scaled(i) => IntegerAlign(i)
    case Integer(i) => IntegerAlign(i)
    case Normalized(i) => IntegerAlign(i)
    case PackedScaled(p) => PackedAlign(p)
    case PackedNormalized(p) => PackedAlign(p)
  }

  /**
   * The GL component type determines the alignment: attributes that read the
   * same GL type need the same alignment, whatever their interpretation, and
   * the GL values of the three component enums never collide.
   */
  lemma ComponentTypeDeterminesAlign(s: AttributeType, t: AttributeType)
    requires ComponentType(s) == ComponentType(t)
    ensures AlignOf(s) == AlignOf(t)
  {
  }

  lemma ComponentEnumsDisjoint(i: IntegerAttribute, f: FloatingAttribute, p: PackedIntegerAttribute, j: IntegerAttribute)
    ensures IntegerAsGl(i) != FloatingAsGl(f) && IntegerAsGl(i) != PackedAsGl(p) && FloatingAsGl(f) != PackedAsGl(p)
    ensures IntegerAsGl(i) == IntegerAsGl(j) ==> i == j
  {
  }

  /** Whether fixed-point data is normalized when converted to float (`gl::TRUE` in the call). */
  predicate Normalizes(t: AttributeType)
  {
    t.Normalized? || t.PackedNormalized?
  }

  /** Whether the attribute is read through `glVertexAttribIPointer` (stays an integer in the shader). */
  predicate IsIntegerPath(t: AttributeType)
  {
    t.Integer?
  }

  /** `Attribute`: the arguments of one `glVertexAttrib[I]Pointer` call. */
  datatype Attribute = Attribute(ty: AttributeType, components: Components, stride: Option<nat>, offset: usize)

  /** `Attribute::stride` is an `Option<NonZero<usize>>`. */
  predicate WellFormedAttribute(a: Attribute)
  {
    a.stride.Some? ==> 0 < a.stride.value <= USIZE_MAX
  }
}
