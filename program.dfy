/**
 * Shaders, programs and uniform values (program.rs): the typestate handles
 * of a shader (empty or compiled) and a program (unlinked or linked), the
 * scalar/vector and matrix uniform values, and the number of uniform
 * locations each value consumes. Uniform slices are represented by their
 * element count; their numeric contents are not modelled.
 */
module ProgramTypes {
  import opened GLTypes

  /** The component type of a uniform value (`uniform::Ty`). */
  datatype Ty = U32 | I32 | F32

  /** A scalar or vector uniform: the vector width and the number of array elements. */
  datatype Vector = Scalar(len: nat) | Vec2(len: nat) | Vec3(len: nat) | Vec4(len: nat)

  predicate VectorIsEmpty(v: Vector)
  {
    v.len == 0
  }

  /**
   * `Vector::locations`: a scalar or vector array consumes one location per
   * element, whatever the width of the vector; an empty value consumes none.
   */
  function VectorLocations(v: Vector): (n: nat)
    ensures n == v.len
    ensures n == 0 <==> VectorIsEmpty(v)
  {
    match v
    case Scalar(len) => len
    case Vec2(len) => len
    case Vec3(len) => len
    case Vec4(len) => len
  }

  /** `From<&T>` / `From<&Vec*<T>>`: one value converts to a one-element array of the same width. */
  function VectorFromRef(width: nat): (v: Vector)
    requires 1 <= width <= 4
    ensures v.len == 1 && VectorLocations(v) == 1
    ensures width == 1 <==> v.Scalar?
    ensures width == 4 <==> v.Vec4?
  {
    if width == 1 then Scalar(1) else if width == 2 then Vec2(1) else if width == 3 then Vec3(1) else Vec4(1)
  }

  /**
   * A matrix uniform: `MatCxR` has C columns of R rows, and the number of
   * array elements. `Mat4x2` is matched by the matrix upload in
   * slot/program.rs but not declared by the Rust enum; it is included here
   * so that the upload is total, with the 4 columns its name gives it.
   */
  datatype Matrix =
    | Mat2(len: nat) | Mat3(len: nat) | Mat4(len: nat)
    | Mat2x3(len: nat) | Mat2x4(len: nat) | Mat3x2(len: nat) | Mat3x4(len: nat) | Mat4x3(len: nat)
    | Mat4x2(len: nat)

  predicate MatrixIsEmpty(m: Matrix)
  {
    m.len == 0
  }

  /** The column count C of a `MatCxR` (or `MatC`) value. */
  function Columns(m: Matrix): nat
  {
    match m
    case Mat2(_) => 2
    case Mat3(_) => 3
    case Mat4(_) => 4
    case Mat2x3(_) => 2
    case Mat3x2(_) => 3
    case Mat4x3(_) => 4
    case Mat2x4(_) => 2
    case Mat3x4(_) => 3
    case Mat4x2(_) => 4
  }

  /** The row count R of a `MatCxR` (or `MatC`) value. */
  function Rows(m: Matrix): nat
  {
    match m
    case Mat2(_) => 2
    case Mat3(_) => 3
    case Mat4(_) => 4
    case Mat2x3(_) => 3
    case Mat3x2(_) => 2
    case Mat4x3(_) => 3
    case Mat2x4(_) => 4
    case Mat3x4(_) => 4
    case Mat4x2(_) => 2
  }

  /**
   * `Matrix::locations`: every matrix element consumes one location per
   * column, so an array of n matrices consumes between 2n and 4n locations,
   * exactly 0 when empty; the row count never matters.
   */
  function MatrixLocations(m: Matrix): (n: nat)
    ensures n == m.len * Columns(m)
    ensures 2 * m.len <= n <= 4 * m.len
    ensures n == 0 <==> MatrixIsEmpty(m)
  {
    m.len * Columns(m)
  }

  /** `matrix_froms!`: a single matrix converts to a one-element value of the same shape. */
  function MatrixFromRef(m: Matrix): (r: Matrix)
    ensures r.len == 1 && Columns(r) == Columns(m) && Rows(r) == Rows(m)
    ensures MatrixLocations(r) == Columns(m)
  {
    m.(len := 1)
  }

  /**
   * The matrix newtypes (`matrix!`): a column-major array of C columns of R
   * components each, convertible to and from the bare array.
   */
  datatype MatrixCells<F> = MatrixCells(columns: seq<seq<F>>)

  predicate HasShape<F>(a: seq<seq<F>>, columns: nat, rows: nat)
  {
    |a| == columns && forall c :: 0 <= c < |a| ==> |a[c]| == rows
  }

  /** `From<[[f32; R]; C]> for MatCxR`. */
  function WrapCells<F>(a: seq<seq<F>>): MatrixCells<F>
  {
    MatrixCells(a)
  }

  /** `From<MatCxR> for [[f32; R]; C]`. */
  function UnwrapCells<F>(m: MatrixCells<F>): seq<seq<F>>
  {
    m.columns
  }

  /** The newtype conversions are inverse to each other, so no component is lost or moved. */
  lemma CellsRoundTrip<F>(a: seq<seq<F>>, m: MatrixCells<F>, columns: nat, rows: nat)
    ensures UnwrapCells(WrapCells(a)) == a
    ensures WrapCells(UnwrapCells(m)) == m
    ensures HasShape(a, columns, rows) ==> HasShape(WrapCells(a).columns, columns, rows)
  {
  }

  /** Transposed shapes swap rows and columns, so their location counts differ unless the matrix is square. */
  lemma TransposedShapes(len: nat)
    requires len > 0
    ensures Columns(Mat2x3(len)) == Rows(Mat3x2(len)) && Rows(Mat2x3(len)) == Columns(Mat3x2(len))
    ensures MatrixLocations(Mat2x3(len)) < MatrixLocations(Mat3x2(len))
    ensures MatrixLocations(Mat3x4(len)) < MatrixLocations(Mat4x3(len))
    ensures MatrixLocations(Mat2x4(len)) == MatrixLocations(Mat2(len))
    ensures MatrixLocations(Mat2x4(len)) < MatrixLocations(Mat4x2(len))
  {
  }

  /** The two shader stages. */
  datatype ShaderType = Vertex | Fragment

  /** A shader object without (successfully compiled) source. */
  datatype EmptyShader = EmptyShader(name: NonZeroName, ty: ShaderType)
  /** A shader known to have compiled. */
  datatype CompiledShader = CompiledShader(name: NonZeroName, ty: ShaderType)
  /** A program object not known to be linked. */
  datatype Program = Program(name: NonZeroName)
  /** A program known to have linked. */
  datatype LinkedProgram = LinkedProgram(name: NonZeroName)

  /** `EmptyShader::into_compiled_unchecked`: the caller vouches that the shader compiled. */
  function IntoCompiledUnchecked(s: EmptyShader): (c: CompiledShader)
    ensures c.name == s.name && c.ty == s.ty
  {
    CompiledShader(s.name, s.ty)
  }

  /** `From<CompiledShader> for EmptyShader`: forget the compile status. */
  function ForgetCompiled(c: CompiledShader): (s: EmptyShader)
    ensures s.name == c.name && s.ty == c.ty
  {
    EmptyShader(c.name, c.ty)
  }

  /** `Program::into_linked_unchecked`: the caller vouches that the program linked. */
  function IntoLinkedUnchecked(p: Program): (l: LinkedProgram)
    ensures l.name == p.name
  {
    LinkedProgram(p.name)
  }

  /** `From<LinkedProgram> for Program`: forget the link status. */
  function ForgetLinked(l: LinkedProgram): (p: Program)
    ensures p.name == l.name
  {
    Program(l.name)
  }

  /** Re-tagging keeps the object and its stage: each pair of conversions is a round trip. */
  lemma RetagRoundTrips(s: EmptyShader, c: CompiledShader, p: Program, l: LinkedProgram)
    ensures ForgetCompiled(IntoCompiledUnchecked(s)) == s
    ensures IntoCompiledUnchecked(ForgetCompiled(c)) == c
    ensures ForgetLinked(IntoLinkedUnchecked(p)) == p
    ensures IntoLinkedUnchecked(ForgetLinked(l)) == l
  {
  }

  /** `ProgramShaders::Graphics`: a vertex and a fragment shader, both compiled. */
  datatype ProgramShaders = Graphics(vertex: CompiledShader, fragment: CompiledShader)

  /** The stage types the Rust type parameters enforce. */
  predicate WellStaged(s: ProgramShaders)
  {
    s.vertex.ty == Vertex && s.fragment.ty == Fragment
  }
}
