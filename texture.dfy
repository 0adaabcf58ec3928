/**
 * Texture objects and their parameter enums (texture/mod.rs): the four
 * dimensionalities, the internal formats with their pixel-transfer format,
 * the table of pixel data types each internal format accepts for uploads,
 * and the swizzle, filter and wrap parameters.
 */
module Texture {
  import opened GLTypes

  /** The four texture binding targets (`Dimensionality`). */
  datatype Dim = D2 | D3 | D2Array | Cube

  const TEXTURE_2D: GLenum := 0x0DE1
  const TEXTURE_3D: GLenum := 0x806F
  const TEXTURE_2D_ARRAY: GLenum := 0x8C1A
  const TEXTURE_CUBE_MAP: GLenum := 0x8513

  /** `Dimensionality::TARGET`: one of the four texture targets, a different one per dimensionality. */
  function DimTarget(d: Dim): (target: GLenum)
    ensures target in {TEXTURE_2D, TEXTURE_3D, TEXTURE_2D_ARRAY, TEXTURE_CUBE_MAP}
  {
    match d
    case D2 => TEXTURE_2D
    case D3 => TEXTURE_3D
    case D2Array => TEXTURE_2D_ARRAY
    case Cube => TEXTURE_CUBE_MAP
  }

  lemma DimTargetInjective(d: Dim, e: Dim)
    ensures DimTarget(d) == DimTarget(e) <==> d == e
  {
  }

  /** A texture that has never been bound, so it has no dimensionality yet. */
  datatype Stateless = Stateless(name: NonZeroName)

  /** A texture that was bound once to the slot of dimensionality `dim`. */
  datatype Texture = Texture(name: NonZeroName, dim: Dim)

  /** `DeletionToken`: a texture of any dimensionality, ready to be deleted in bulk. */
  datatype DeletionToken = DeletionToken(name: NonZeroName)

  function TextureToken(t: Texture): (token: DeletionToken)
    ensures token.name == t.name
  {
    DeletionToken(t.name)
  }

  datatype InternalFormat =
    // unsized color formats
    | RGB | RGBA | LuminanceAlpha | Luminance | Alpha
    // sized color formats
    | R8 | R8Snorm | R16f | R32f | R8ui | R8i | R16ui | R16i | R32ui | R32i
    | Rg8 | Rg8Snorm | Rg16f | Rg32f | Rg8ui | Rg8i | Rg16ui | Rg16i | Rg32ui | Rg32i
    | Rgb8 | Srgb8 | Rgb565 | Rgb8Snorm | R11fG11fB10f | Rgb9E5 | Rgb16f | Rgb32f
    | Rgb8ui | Rgb8i | Rgb16ui | Rgb16i | Rgb32ui | Rgb32i
    | Rgba8 | Srgb8Alpha8 | Rgba8Snorm | Rgb5A1 | Rgba4 | Rgb10A2 | Rgba16f | Rgba32f
    | Rgba8ui | Rgba8i | Rgb10A2ui | Rgba16ui | Rgba16i | Rgba32i | Rgba32ui
    // sized depth / stencil formats
    | DepthComponent16 | DepthComponent24 | DepthComponent32f | Depth24Stencil8 | Depth32fStencil8

  /**
   * The pixel-transfer format. `Stencil` is named by the renderbuffer
   * formats but is not a variant of the enum as declared; it is added here
   * so that those formats have a value to map to.
   */
  datatype Format =
    | FAlpha | FLuminance | FLuminanceAlpha
    | Red | RedInteger | RG | RGInteger | FRGB | RGBInteger | FRGBA | RGBAInteger
    | DepthComponent | DepthStencil | Stencil

  predicate IsIntegerFormat(f: Format)
  {
    f == RedInteger || f == RGInteger || f == RGBInteger || f == RGBAInteger
  }

  /** `InternalFormat::format`. */
  function FormatOf(f: InternalFormat): Format
  {
    match f
    case RGB => FRGB
    case RGBA => FRGBA
    case LuminanceAlpha => FLuminanceAlpha
    case Luminance => FLuminance
    case Alpha => FAlpha

    case R8 => Red
    case R8Snorm => Red
    case R16f => Red
    case R32f => Red
    case R8ui => RedInteger
    case R8i => RedInteger
    case R16ui => RedInteger
    case R16i => RedInteger
    case R32ui => RedInteger
    case R32i => RedInteger

    case Rg8 => RG
    case Rg8Snorm => RG
    case Rg16f => RG
    case Rg32f => RG
    case Rg8ui => RGInteger
    case Rg8i => RGInteger
    case Rg16ui => RGInteger
    case Rg16i => RGInteger
    case Rg32ui => RGInteger
    case Rg32i => RGInteger

    case Rgb8 => FRGB
    case Srgb8 => FRGB
    case Rgb565 => FRGB
    case Rgb8Snorm => FRGB
    case R11fG11fB10f => FRGB
    case Rgb9E5 => FRGB
    case Rgb16f => FRGB
    case Rgb32f => FRGB
    case Rgb8ui => RGBInteger
    case Rgb8i => RGBInteger
    case Rgb16ui => RGBInteger
    case Rgb16i => RGBInteger
    case Rgb32ui => RGBInteger
    case Rgb32i => RGBInteger

    case Rgba8 => FRGBA
    case Srgb8Alpha8 => FRGBA
    case Rgba8Snorm => FRGBA
    case Rgb5A1 => FRGBA
    case Rgba4 => FRGBA
    case Rgb10A2 => FRGBA
    case Rgba16f => FRGBA
    case Rgba32f => FRGBA
    case Rgba8ui => RGBAInteger
    case Rgba8i => RGBAInteger
    case Rgb10A2ui => RGBAInteger
    case Rgba16ui => RGBAInteger
    case Rgba16i => RGBAInteger
    case Rgba32i => RGBAInteger
    case Rgba32ui => RGBAInteger

    case DepthComponent16 => DepthComponent
    case DepthComponent24 => DepthComponent
    case DepthComponent32f => DepthComponent
    case Depth24Stencil8 => DepthStencil
    case Depth32fStencil8 => DepthStencil
  }

  /** The internal formats whose components are unnormalized integers (the `ui`/`i` suffixes). */
  predicate IsIntegerInternalFormat(f: InternalFormat)
  {
    f.R8ui? || f.R8i? || f.R16ui? || f.R16i? || f.R32ui? || f.R32i? || f.Rg8ui? || f.Rg8i? ||
    f.Rg16ui? || f.Rg16i? || f.Rg32ui? || f.Rg32i? || f.Rgb8ui? || f.Rgb8i? || f.Rgb16ui? ||
    f.Rgb16i? || f.Rgb32ui? || f.Rgb32i? || f.Rgba8ui? || f.Rgba8i? || f.Rgb10A2ui? ||
    f.Rgba16ui? || f.Rgba16i? || f.Rgba32i? || f.Rgba32ui?
  }

  /** The number of color channels an internal format stores, read off its name (0 for depth/stencil). */
  function Channels(f: InternalFormat): nat
  {
    if f.R8? || f.R8Snorm? || f.R16f? || f.R32f? || f.R8ui? || f.R8i? || f.R16ui? || f.R16i? ||
       f.R32ui? || f.R32i? || f.Luminance? || f.Alpha? then 1
    else if f.Rg8? || f.Rg8Snorm? || f.Rg16f? || f.Rg32f? || f.Rg8ui? || f.Rg8i? || f.Rg16ui? ||
            f.Rg16i? || f.Rg32ui? || f.Rg32i? || f.LuminanceAlpha? then 2
    else if f.RGB? || f.Rgb8? || f.Srgb8? || f.Rgb565? || f.Rgb8Snorm? || f.R11fG11fB10f? ||
            f.Rgb9E5? || f.Rgb16f? || f.Rgb32f? || f.Rgb8ui? || f.Rgb8i? || f.Rgb16ui? || f.Rgb16i? ||
            f.Rgb32ui? || f.Rgb32i? then 3
    else if f.RGBA? || f.Rgba8? || f.Srgb8Alpha8? || f.Rgba8Snorm? || f.Rgb5A1? || f.Rgba4? ||
            f.Rgb10A2? || f.Rgba16f? || f.Rgba32f? || f.Rgba8ui? || f.Rgba8i? || f.Rgb10A2ui? ||
            f.Rgba16ui? || f.Rgba16i? || f.Rgba32i? || f.Rgba32ui? then 4
    else 0
  }

  /** The channel count of a transfer format. */
  function FormatChannels(f: Format): nat
  {
    match f
    case FAlpha => 1
    case FLuminance => 1
    case FLuminanceAlpha => 2
    case Red => 1
    case RedInteger => 1
    case RG => 2
    case RGInteger => 2
    case FRGB => 3
    case RGBInteger => 3
    case FRGBA => 4
    case RGBAInteger => 4
    case DepthComponent => 0
    case DepthStencil => 0
    case Stencil => 0
  }

  /**
   * The transfer format keeps what the internal format's name says: integer
   * formats, and only they, transfer as `*Integer`, and the channel count is
   * the one in the name.
   */
  lemma FormatOfAgreesWithName(f: InternalFormat)
    ensures IsIntegerInternalFormat(f) <==> IsIntegerFormat(FormatOf(f))
    ensures FormatChannels(FormatOf(f)) == Channels(f)
  {
    // The table is checked one group of formats at a time.
    match f
    case RGB | RGBA | LuminanceAlpha | Luminance | Alpha =>
      UnsizedAgreesWithName(f);
    case R8 | R8Snorm | R16f | R32f =>
      RedFloatAgreesWithName(f);
    case R8ui | R8i | R16ui | R16i | R32ui | R32i =>
      RedIntegerAgreesWithName(f);
    case Rg8 | Rg8Snorm | Rg16f | Rg32f =>
      RgFloatAgreesWithName(f);
    case Rg8ui | Rg8i | Rg16ui | Rg16i | Rg32ui | Rg32i =>
      RgIntegerAgreesWithName(f);
    case Rgb8 | Srgb8 | Rgb565 | Rgb8Snorm | R11fG11fB10f | Rgb9E5 | Rgb16f | Rgb32f =>
      RgbFloatAgreesWithName(f);
    case Rgb8ui | Rgb8i | Rgb16ui | Rgb16i | Rgb32ui | Rgb32i =>
      RgbIntegerAgreesWithName(f);
    case Rgba8 | Srgb8Alpha8 | Rgba8Snorm | Rgb5A1 | Rgba4 | Rgb10A2 | Rgba16f | Rgba32f =>
      RgbaFloatAgreesWithName(f);
    case Rgba8ui | Rgba8i | Rgb10A2ui | Rgba16ui | Rgba16i | Rgba32i | Rgba32ui =>
      RgbaIntegerAgreesWithName(f);
    case DepthComponent16 | DepthComponent24 | DepthComponent32f | Depth24Stencil8 | Depth32fStencil8 =>
      DepthAgreesWithName(f);
  }

  lemma UnsizedAgreesWithName(f: InternalFormat)
    requires f.RGB? || f.RGBA? || f.LuminanceAlpha? || f.Luminance? || f.Alpha?
    ensures IsIntegerInternalFormat(f) <==> IsIntegerFormat(FormatOf(f))
    ensures FormatChannels(FormatOf(f)) == Channels(f)
  {
  }

  lemma RedFloatAgreesWithName(f: InternalFormat)
    requires f.R8? || f.R8Snorm? || f.R16f? || f.R32f?
    ensures IsIntegerInternalFormat(f) <==> IsIntegerFormat(FormatOf(f))
    ensures FormatChannels(FormatOf(f)) == Channels(f)
  {
  }

  lemma RedIntegerAgreesWithName(f: InternalFormat)
    requires f.R8ui? || f.R8i? || f.R16ui? || f.R16i? || f.R32ui? || f.R32i?
    ensures IsIntegerInternalFormat(f) <==> IsIntegerFormat(FormatOf(f))
    ensures FormatChannels(FormatOf(f)) == Channels(f)
  {
  }

  lemma RgFloatAgreesWithName(f: InternalFormat)
    requires f.Rg8? || f.Rg8Snorm? || f.Rg16f? || f.Rg32f?
    ensures IsIntegerInternalFormat(f) <==> IsIntegerFormat(FormatOf(f))
    ensures FormatChannels(FormatOf(f)) == Channels(f)
  {
  }

  lemma RgIntegerAgreesWithName(f: InternalFormat)
    requires f.Rg8ui? || f.Rg8i? || f.Rg16ui? || f.Rg16i? || f.Rg32ui? || f.Rg32i?
    ensures IsIntegerInternalFormat(f) <==> IsIntegerFormat(FormatOf(f))
    ensures FormatChannels(FormatOf(f)) == Channels(f)
  {
  }

  lemma RgbFloatAgreesWithName(f: InternalFormat)
    requires f.Rgb8? || f.Srgb8? || f.Rgb565? || f.Rgb8Snorm? || f.R11fG11fB10f? || f.Rgb9E5? || f.Rgb16f? || f.Rgb32f?
    ensures IsIntegerInternalFormat(f) <==> IsIntegerFormat(FormatOf(f))
    ensures FormatChannels(FormatOf(f)) == Channels(f)
  {
  }

  lemma RgbIntegerAgreesWithName(f: InternalFormat)
    requires f.Rgb8ui? || f.Rgb8i? || f.Rgb16ui? || f.Rgb16i? || f.Rgb32ui? || f.Rgb32i?
    ensures IsIntegerInternalFormat(f) <==> IsIntegerFormat(FormatOf(f))
    ensures FormatChannels(FormatOf(f)) == Channels(f)
  {
  }

  lemma RgbaFloatAgreesWithName(f: InternalFormat)
    requires f.Rgba8? || f.Srgb8Alpha8? || f.Rgba8Snorm? || f.Rgb5A1? || f.Rgba4? || f.Rgb10A2? || f.Rgba16f? || f.Rgba32f?
    ensures IsIntegerInternalFormat(f) <==> IsIntegerFormat(FormatOf(f))
    ensures FormatChannels(FormatOf(f)) == Channels(f)
  {
  }

  lemma RgbaIntegerAgreesWithName(f: InternalFormat)
    requires f.Rgba8ui? || f.Rgba8i? || f.Rgb10A2ui? || f.Rgba16ui? || f.Rgba16i? || f.Rgba32i? || f.Rgba32ui?
    ensures IsIntegerInternalFormat(f) <==> IsIntegerFormat(FormatOf(f))
    ensures FormatChannels(FormatOf(f)) == Channels(f)
  {
  }

  lemma DepthAgreesWithName(f: InternalFormat)
    requires f.DepthComponent16? || f.DepthComponent24? || f.DepthComponent32f? || f.Depth24Stencil8? || f.Depth32fStencil8?
    ensures IsIntegerInternalFormat(f) <==> IsIntegerFormat(FormatOf(f))
    ensures FormatChannels(FormatOf(f)) == Channels(f)
  {
  }

  /** Depth formats transfer as `DepthComponent`, combined depth-stencil ones as `DepthStencil`, none as `Stencil`. */
  lemma DepthFormats(f: InternalFormat)
    ensures FormatOf(f) == DepthComponent <==> f in {DepthComponent16, DepthComponent24, DepthComponent32f}
    ensures FormatOf(f) == DepthStencil <==> f in {Depth24Stencil8, Depth32fStencil8}
    ensures FormatOf(f) != Stencil
  {
  }

  /** The component type of uploaded pixel data (`ImageData`; the slice itself is not modelled). */
  datatype ImageData =
    | U8 | I8 | U16 | I16 | U32 | I32 | F16 | F32
    | Packed5_6_5 | Packed4_4_4_4 | Packed5_5_5_1
    | Reverse2_10_10_10 | Reverse10F11F11F | Reverse5_9_9_9
    | Packed24_8 | F32Reverse24_8

  /** `ImageData::compatible_with_internal_format`. */
  predicate Compatible(d: ImageData, f: InternalFormat)
  {
    match f
    case RGB => d == U8 || d == Packed5_6_5
    case RGBA => d == U8 || d == Packed4_4_4_4 || d == Packed5_5_5_1
    case LuminanceAlpha => d == U8
    case Luminance => d == U8
    case Alpha => d == U8

    case R8 => d == U8
    case R8Snorm => d == I8
    case R16f => d == F16 || d == F32
    case R32f => d == F32
    case R8ui => d == U8
    case R8i => d == I8
    case R16ui => d == U16
    case R16i => d == I16
    case R32ui => d == U32
    case R32i => d == I32

    case Rg8 => d == U8
    case Rg8Snorm => d == I8
    case Rg16f => d == F16 || d == F32
    case Rg32f => d == F32
    case Rg8ui => d == U8
    case Rg8i => d == I8
    case Rg16ui => d == U16
    case Rg16i => d == I16
    case Rg32ui => d == U32
    case Rg32i => d == I32

    case Rgb8 => d == U8
    case Srgb8 => d == U8
    case Rgb565 => d == U8 || d == Packed5_6_5
    case Rgb8Snorm => d == I8
    case R11fG11fB10f => d == F16 || d == F32 || d == Reverse10F11F11F
    case Rgb9E5 => d == F16 || d == F32 || d == Reverse5_9_9_9
    case Rgb16f => d == F16 || d == F32
    case Rgb32f => d == F32
    case Rgb8ui => d == U8
    case Rgb8i => d == I8
    case Rgb16ui => d == U16
    case Rgb16i => d == I16
    case Rgb32ui => d == U32
    case Rgb32i => d == I32

    case Rgba8 => d == U8
    case Srgb8Alpha8 => d == U8
    case Rgba8Snorm => d == I8
    case Rgb5A1 => d == U8 || d == Packed5_5_5_1 || d == Reverse2_10_10_10
    case Rgba4 => d == U8 || d == Packed4_4_4_4
    case Rgb10A2 => d == Reverse2_10_10_10
    case Rgba16f => d == F16 || d == F32
    case Rgba32f => d == F32
    case Rgba8ui => d == U8
    case Rgba8i => d == I8
    case Rgb10A2ui => d == Reverse2_10_10_10
    case Rgba16ui => d == U16
    case Rgba16i => d == I16
    case Rgba32i => d == I32
    case Rgba32ui => d == U32

    case DepthComponent16 => d == U16 || d == U32
    case DepthComponent24 => d == U32
    case DepthComponent32f => d == F32
    case Depth24Stencil8 => d == Packed24_8
    case Depth32fStencil8 => d == F32Reverse24_8
  }

  /** No internal format is impossible to upload to: each accepts at least one pixel data type. */
  lemma EveryFormatAcceptsSomeData(f: InternalFormat)
    ensures exists d :: Compatible(d, f)
  {
    if Compatible(U8, f) {
    } else if Compatible(I8, f) {
    } else if Compatible(U16, f) {
    } else if Compatible(I16, f) {
    } else if Compatible(U32, f) {
    } else if Compatible(I32, f) {
    } else if Compatible(F32, f) {
    } else if Compatible(Reverse2_10_10_10, f) {
    } else if Compatible(Packed24_8, f) {
    } else {
      assert Compatible(F32Reverse24_8, f);
    }
  }

  /** The two packed depth-stencil data types each belong to exactly one internal format. */
  lemma PackedDepthStencilData(d: ImageData, f: InternalFormat)
    requires Compatible(d, f)
    ensures d.Packed24_8? <==> f.Depth24Stencil8?
    ensures d.F32Reverse24_8? <==> f.Depth32fStencil8?
  {
    if d.Packed24_8? {
      OnlyDepth24Stencil8TakesPacked(d, f);
    } else if d.F32Reverse24_8? {
      OnlyDepth32fStencil8TakesPacked(d, f);
    }
  }

  lemma OnlyDepth24Stencil8TakesPacked(d: ImageData, f: InternalFormat)
    requires Compatible(d, f) && d.Packed24_8?
    ensures f.Depth24Stencil8?
  {
  }

  lemma OnlyDepth32fStencil8TakesPacked(d: ImageData, f: InternalFormat)
    requires Compatible(d, f) && d.F32Reverse24_8?
    ensures f.Depth32fStencil8?
  {
  }

  /** The 32-bit float formats accept 32-bit float data and nothing else. */
  lemma Float32FormatsTakeOnlyF32(d: ImageData, f: InternalFormat)
    requires f in {R32f, Rg32f, Rgb32f, Rgba32f, DepthComponent32f}
    ensures Compatible(d, f) <==> d == F32
  {
  }

  /** The 16-bit float formats accept 16- or 32-bit float data and nothing else. */
  lemma Float16FormatsTakeF16OrF32(d: ImageData, f: InternalFormat)
    requires f.R16f? || f.Rg16f? || f.Rgb16f? || f.Rgba16f?
    ensures Compatible(d, f) <==> d == F16 || d == F32
  {
  }

  /**
   * Integer formats accept only integer data, and float data (16- or 32-bit)
   * is accepted only by formats that do not transfer as integers.
   */
  lemma IntegerFormatsTakeIntegerData(d: ImageData, f: InternalFormat)
    requires Compatible(d, f)
    ensures IsIntegerFormat(FormatOf(f)) ==> d in {U8, I8, U16, I16, U32, I32, Reverse2_10_10_10}
    ensures d == F16 || d == F32 ==> !IsIntegerFormat(FormatOf(f))
  {
  }

  /** Texture swizzle sources, with their GL values. */
  datatype Swizzle = SwizzleRed | SwizzleGreen | SwizzleBlue | SwizzleAlpha | SwizzleZero | SwizzleOne

  function SwizzleAsGl(s: Swizzle): GLenum
  {
    match s
    case SwizzleRed => 0x1903
    case SwizzleGreen => 0x1904
    case SwizzleBlue => 0x1905
    case SwizzleAlpha => 0x1906
    case SwizzleZero => 0
    case SwizzleOne => 1
  }

  datatype Filter = Nearest | Linear

  const NEAREST: GLenum := 0x2600
  const LINEAR: GLenum := 0x2601

  datatype Wrap = ClampToEdge | MirroredRepeat | Repeat

  function WrapAsGl(w: Wrap): GLenum
  {
    match w
    case ClampToEdge => 0x812F
    case MirroredRepeat => 0x8370
    case Repeat => 0x2901
  }

  /** Which component a combined depth-stencil texture returns when sampled. */
  datatype DepthStencilMode = DepthMode | StencilMode

  function DepthStencilModeAsGl(m: DepthStencilMode): GLenum
  {
    match m
    case DepthMode => 0x1902    // DEPTH_COMPONENT
    case StencilMode => 0x1901  // STENCIL_INDEX
  }

  /** Each of these parameter enums is a `repr(u32)` enum: distinct variants have distinct GL values. */
  lemma ParameterValuesDistinct(s1: Swizzle, s2: Swizzle, w1: Wrap, w2: Wrap, m1: DepthStencilMode, m2: DepthStencilMode)
    ensures SwizzleAsGl(s1) == SwizzleAsGl(s2) ==> s1 == s2
    ensures WrapAsGl(w1) == WrapAsGl(w2) ==> w1 == w2
    ensures DepthStencilModeAsGl(m1) == DepthStencilModeAsGl(m2) ==> m1 == m2
  {
  }
}
