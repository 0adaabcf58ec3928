/**
 * Renderbuffer objects and their two internal-format enums
 * (renderbuffer.rs): the single-sample formats, the smaller set usable with
 * multisampling, and the pixel-transfer format of each.
 */
module Renderbuffer {
  import opened GLTypes
  import Texture

  /** A user renderbuffer; its binding target is `RENDERBUFFER`. */
  datatype Renderbuffer = Renderbuffer(name: NonZeroName)

  datatype InternalFormat =
    | R8 | R8ui | R8i | R16ui | R16i | R32ui | R32i
    | Rg8 | Rg8ui | Rg8i | Rg16ui | Rg16i | Rg32ui | Rg32i
    | Rgb8 | Rgb565
    | Rgba8 | Srgb8Alpha8 | Rgb5A1 | Rgba4 | Rgb10A2
    | Rgba8ui | Rgba8i | Rgb10A2ui | Rgba16ui | Rgba16i | Rgba32i | Rgba32ui
    | DepthComponent16 | DepthComponent24 | DepthComponent32f | Depth24Stencil8 | Depth32fStencil8
    | StencilIndex8

  /** `InternalFormat::format`. */
  function FormatOf(f: InternalFormat): Texture.Format
  {
    match f
    case R8 => Texture.Red
    case R8ui => Texture.RedInteger
    case R8i => Texture.RedInteger
    case R16ui => Texture.RedInteger
    case R16i => Texture.RedInteger
    case R32ui => Texture.RedInteger
    case R32i => Texture.RedInteger

    case Rg8 => Texture.RG
    case Rg8ui => Texture.RGInteger
    case Rg8i => Texture.RGInteger
    case Rg16ui => Texture.RGInteger
    case Rg16i => Texture.RGInteger
    case Rg32ui => Texture.RGInteger
    case Rg32i => Texture.RGInteger

    case Rgb8 => Texture.FRGB
    case Rgb565 => Texture.FRGB

    case Rgba8 => Texture.FRGBA
    case Srgb8Alpha8 => Texture.FRGBA
    case Rgb5A1 => Texture.FRGBA
    case Rgba4 => Texture.FRGBA
    case Rgb10A2 => Texture.FRGBA
    case Rgba8ui => Texture.RGBAInteger
    case Rgba8i => Texture.RGBAInteger
    case Rgb10A2ui => Texture.RGBAInteger
    case Rgba16ui => Texture.RGBAInteger
    case Rgba16i => Texture.RGBAInteger
    case Rgba32i => Texture.RGBAInteger
    case Rgba32ui => Texture.RGBAInteger

    case DepthComponent16 => Texture.DepthComponent
    case DepthComponent24 => Texture.DepthComponent
    case DepthComponent32f => Texture.DepthComponent
    case Depth24Stencil8 => Texture.DepthStencil
    case Depth32fStencil8 => Texture.DepthStencil
    case StencilIndex8 => Texture.Stencil
  }

  /**
   * The texture internal format with the same GL name, if there is one:
   * every renderbuffer format except `StencilIndex8` is also a texture format.
   */
  function AsTextureFormat(f: InternalFormat): (t: Option<Texture.InternalFormat>)
    ensures t.None? <==> f == StencilIndex8
  {
    match f
    case R8 => Some(Texture.R8)
    case R8ui => Some(Texture.R8ui)
    case R8i => Some(Texture.R8i)
    case R16ui => Some(Texture.R16ui)
    case R16i => Some(Texture.R16i)
    case R32ui => Some(Texture.R32ui)
    case R32i => Some(Texture.R32i)
    case Rg8 => Some(Texture.Rg8)
    case Rg8ui => Some(Texture.Rg8ui)
    case Rg8i => Some(Texture.Rg8i)
    case Rg16ui => Some(Texture.Rg16ui)
    case Rg16i => Some(Texture.Rg16i)
    case Rg32ui => Some(Texture.Rg32ui)
    case Rg32i => Some(Texture.Rg32i)
    case Rgb8 => Some(Texture.Rgb8)
    case Rgb565 => Some(Texture.Rgb565)
    case Rgba8 => Some(Texture.Rgba8)
    case Srgb8Alpha8 => Some(Texture.Srgb8Alpha8)
    case Rgb5A1 => Some(Texture.Rgb5A1)
    case Rgba4 => Some(Texture.Rgba4)
    case Rgb10A2 => Some(Texture.Rgb10A2)
    case Rgba8ui => Some(Texture.Rgba8ui)
    case Rgba8i => Some(Texture.Rgba8i)
    case Rgb10A2ui => Some(Texture.Rgb10A2ui)
    case Rgba16ui => Some(Texture.Rgba16ui)
    case Rgba16i => Some(Texture.Rgba16i)
    case Rgba32i => Some(Texture.Rgba32i)
    case Rgba32ui => Some(Texture.Rgba32ui)
    case DepthComponent16 => Some(Texture.DepthComponent16)
    case DepthComponent24 => Some(Texture.DepthComponent24)
    case DepthComponent32f => Some(Texture.DepthComponent32f)
    case Depth24Stencil8 => Some(Texture.Depth24Stencil8)
    case Depth32fStencil8 => Some(Texture.Depth32fStencil8)
    case StencilIndex8 => None
  }

  /**
   * The renderbuffer and texture tables agree: every format but the
   * stencil-only one is shared, and has the same transfer format in both.
   */
  lemma FormatAgreesWithTexture(f: InternalFormat)
    requires !f.StencilIndex8?
    ensures Texture.FormatOf(AsTextureFormat(f).value) == FormatOf(f)
  {
    // The table is checked a few formats at a time.
    if f.R8? || f.R8ui? || f.R8i? || f.R16ui? {
      FormatAgreesWithTextureRed(f);
    } else if f.R16i? || f.R32ui? || f.R32i? {
      FormatAgreesWithTextureRedWide(f);
    } else if f.Rg8? || f.Rg8ui? || f.Rg8i? || f.Rg16ui? {
      FormatAgreesWithTextureRg(f);
    } else if f.Rg16i? || f.Rg32ui? || f.Rg32i? {
      FormatAgreesWithTextureRgWide(f);
    } else if f.Rgb8? || f.Rgb565? || f.Rgba8? || f.Srgb8Alpha8? {
      FormatAgreesWithTextureRgb(f);
    } else if f.Rgb5A1? || f.Rgba4? || f.Rgb10A2? || f.Rgba8ui? {
      FormatAgreesWithTextureRgba(f);
    } else if f.Rgba8i? || f.Rgb10A2ui? || f.Rgba16ui? || f.Rgba16i? {
      FormatAgreesWithTextureRgbaInteger(f);
    } else if f.Rgba32i? || f.Rgba32ui? || f.DepthComponent16? {
      FormatAgreesWithTextureRgbaWide(f);
    } else if f.DepthComponent24? || f.DepthComponent32f? || f.Depth24Stencil8? || f.Depth32fStencil8? {
      FormatAgreesWithTextureDepth(f);
    }
  }

  lemma FormatAgreesWithTextureRed(f: InternalFormat)
    requires f.R8? || f.R8ui? || f.R8i? || f.R16ui?
    requires !f.StencilIndex8?
    ensures Texture.FormatOf(AsTextureFormat(f).value) == FormatOf(f)
  {
  }

  lemma FormatAgreesWithTextureRedWide(f: InternalFormat)
    requires f.R16i? || f.R32ui? || f.R32i?
    requires !f.StencilIndex8?
    ensures Texture.FormatOf(AsTextureFormat(f).value) == FormatOf(f)
  {
  }

  lemma FormatAgreesWithTextureRg(f: InternalFormat)
    requires f.Rg8? || f.Rg8ui? || f.Rg8i? || f.Rg16ui?
    requires !f.StencilIndex8?
    ensures Texture.FormatOf(AsTextureFormat(f).value) == FormatOf(f)
  {
  }

  lemma FormatAgreesWithTextureRgWide(f: InternalFormat)
    requires f.Rg16i? || f.Rg32ui? || f.Rg32i?
    requires !f.StencilIndex8?
    ensures Texture.FormatOf(AsTextureFormat(f).value) == FormatOf(f)
  {
  }

  lemma FormatAgreesWithTextureRgb(f: InternalFormat)
    requires f.Rgb8? || f.Rgb565? || f.Rgba8? || f.Srgb8Alpha8?
    requires !f.StencilIndex8?
    ensures Texture.FormatOf(AsTextureFormat(f).value) == FormatOf(f)
  {
  }

  lemma FormatAgreesWithTextureRgba(f: InternalFormat)
    requires f.Rgb5A1? || f.Rgba4? || f.Rgb10A2? || f.Rgba8ui?
    requires !f.StencilIndex8?
    ensures Texture.FormatOf(AsTextureFormat(f).value) == FormatOf(f)
  {
  }

  lemma FormatAgreesWithTextureRgbaInteger(f: InternalFormat)
    requires f.Rgba8i? || f.Rgb10A2ui? || f.Rgba16ui? || f.Rgba16i?
    requires !f.StencilIndex8?
    ensures Texture.FormatOf(AsTextureFormat(f).value) == FormatOf(f)
  {
  }

  lemma FormatAgreesWithTextureRgbaWide(f: InternalFormat)
    requires f.Rgba32i? || f.Rgba32ui? || f.DepthComponent16?
    requires !f.StencilIndex8?
    ensures Texture.FormatOf(AsTextureFormat(f).value) == FormatOf(f)
  {
  }

  lemma FormatAgreesWithTextureDepth(f: InternalFormat)
    requires f.DepthComponent24? || f.DepthComponent32f? || f.Depth24Stencil8? || f.Depth32fStencil8?
    requires !f.StencilIndex8?
    ensures Texture.FormatOf(AsTextureFormat(f).value) == FormatOf(f)
  {
  }

  /** The stencil-only format is the only one that transfers as `Stencil`. */
  lemma OnlyStencilIndexIsStencil(f: InternalFormat)
    ensures FormatOf(f) == Texture.Stencil <==> f == StencilIndex8
  {
  }

  /** Distinct renderbuffer formats name distinct texture formats. */
  lemma AsTextureFormatInjective(f: InternalFormat, g: InternalFormat)
    requires AsTextureFormat(f) == AsTextureFormat(g)
    ensures f == g
  {
    // The table is checked a few formats at a time.
    if f.R8? || f.R8ui? || f.R8i? || f.R16ui? {
      AsTextureFormatInjectiveRed(f, g);
    } else if f.R16i? || f.R32ui? || f.R32i? {
      AsTextureFormatInjectiveRedWide(f, g);
    } else if f.Rg8? || f.Rg8ui? || f.Rg8i? || f.Rg16ui? {
      AsTextureFormatInjectiveRg(f, g);
    } else if f.Rg16i? || f.Rg32ui? || f.Rg32i? {
      AsTextureFormatInjectiveRgWide(f, g);
    } else if f.Rgb8? || f.Rgb565? || f.Rgba8? || f.Srgb8Alpha8? {
      AsTextureFormatInjectiveRgb(f, g);
    } else if f.Rgb5A1? || f.Rgba4? || f.Rgb10A2? || f.Rgba8ui? {
      AsTextureFormatInjectiveRgba(f, g);
    } else if f.Rgba8i? || f.Rgb10A2ui? || f.Rgba16ui? || f.Rgba16i? {
      AsTextureFormatInjectiveRgbaInteger(f, g);
    } else if f.Rgba32i? || f.Rgba32ui? || f.DepthComponent16? {
      AsTextureFormatInjectiveRgbaWide(f, g);
    } else if f.DepthComponent24? || f.DepthComponent32f? || f.Depth24Stencil8? || f.Depth32fStencil8? {
      AsTextureFormatInjectiveDepth(f, g);
    }
  }

  lemma AsTextureFormatInjectiveRed(f: InternalFormat, g: InternalFormat)
    requires f.R8? || f.R8ui? || f.R8i? || f.R16ui?
    requires AsTextureFormat(f) == AsTextureFormat(g)
    ensures f == g
  {
  }

  lemma AsTextureFormatInjectiveRedWide(f: InternalFormat, g: InternalFormat)
    requires f.R16i? || f.R32ui? || f.R32i?
    requires AsTextureFormat(f) == AsTextureFormat(g)
    ensures f == g
  {
  }

  lemma AsTextureFormatInjectiveRg(f: InternalFormat, g: InternalFormat)
    requires f.Rg8? || f.Rg8ui? || f.Rg8i? || f.Rg16ui?
    requires AsTextureFormat(f) == AsTextureFormat(g)
    ensures f == g
  {
  }

  lemma AsTextureFormatInjectiveRgWide(f: InternalFormat, g: InternalFormat)
    requires f.Rg16i? || f.Rg32ui? || f.Rg32i?
    requires AsTextureFormat(f) == AsTextureFormat(g)
    ensures f == g
  {
  }

  lemma AsTextureFormatInjectiveRgb(f: InternalFormat, g: InternalFormat)
    requires f.Rgb8? || f.Rgb565? || f.Rgba8? || f.Srgb8Alpha8?
    requires AsTextureFormat(f) == AsTextureFormat(g)
    ensures f == g
  {
  }

  lemma AsTextureFormatInjectiveRgba(f: InternalFormat, g: InternalFormat)
    requires f.Rgb5A1? || f.Rgba4? || f.Rgb10A2? || f.Rgba8ui?
    requires AsTextureFormat(f) == AsTextureFormat(g)
    ensures f == g
  {
  }

  lemma AsTextureFormatInjectiveRgbaInteger(f: InternalFormat, g: InternalFormat)
    requires f.Rgba8i? || f.Rgb10A2ui? || f.Rgba16ui? || f.Rgba16i?
    requires AsTextureFormat(f) == AsTextureFormat(g)
    ensures f == g
  {
  }

  lemma AsTextureFormatInjectiveRgbaWide(f: InternalFormat, g: InternalFormat)
    requires f.Rgba32i? || f.Rgba32ui? || f.DepthComponent16?
    requires AsTextureFormat(f) == AsTextureFormat(g)
    ensures f == g
  {
  }

  lemma AsTextureFormatInjectiveDepth(f: InternalFormat, g: InternalFormat)
    requires f.DepthComponent24? || f.DepthComponent32f? || f.Depth24Stencil8? || f.Depth32fStencil8?
    requires AsTextureFormat(f) == AsTextureFormat(g)
    ensures f == g
  {
  }

  /** The formats `glRenderbufferStorageMultisample` accepts here. */
  datatype InternalFormatMultisample =
    | MsR8 | MsRg8 | MsRgb8 | MsRgb565 | MsRgba8 | MsSrgb8Alpha8 | MsRgb5A1 | MsRgba4 | MsRgb10A2
    | MsDepthComponent16 | MsDepthComponent24 | MsDepthComponent32f
    | MsDepth24Stencil8 | MsDepth32fStencil8 | MsStencilIndex8

  /** `InternalFormatMultisample::format`. */
  function MultisampleFormatOf(m: InternalFormatMultisample): Texture.Format
  {
    match m
    case MsR8 => Texture.Red
    case MsRg8 => Texture.RG
    case MsRgb8 => Texture.FRGB
    case MsRgb565 => Texture.FRGB
    case MsRgba8 => Texture.FRGBA
    case MsSrgb8Alpha8 => Texture.FRGBA
    case MsRgb5A1 => Texture.FRGBA
    case MsRgba4 => Texture.FRGBA
    case MsRgb10A2 => Texture.FRGBA
    case MsDepthComponent16 => Texture.DepthComponent
    case MsDepthComponent24 => Texture.DepthComponent
    case MsDepthComponent32f => Texture.DepthComponent
    case MsDepth24Stencil8 => Texture.DepthStencil
    case MsDepth32fStencil8 => Texture.DepthStencil
    case MsStencilIndex8 => Texture.Stencil
  }

  /** The single-sample format with the same GL name. */
  function MultisampleAsInternal(m: InternalFormatMultisample): InternalFormat
  {
    match m
    case MsR8 => R8
    case MsRg8 => Rg8
    case MsRgb8 => Rgb8
    case MsRgb565 => Rgb565
    case MsRgba8 => Rgba8
    case MsSrgb8Alpha8 => Srgb8Alpha8
    case MsRgb5A1 => Rgb5A1
    case MsRgba4 => Rgba4
    case MsRgb10A2 => Rgb10A2
    case MsDepthComponent16 => DepthComponent16
    case MsDepthComponent24 => DepthComponent24
    case MsDepthComponent32f => DepthComponent32f
    case MsDepth24Stencil8 => Depth24Stencil8
    case MsDepth32fStencil8 => Depth32fStencil8
    case MsStencilIndex8 => StencilIndex8
  }

  /**
   * The multisample enum is a sub-enum of the single-sample one: each of its
   * variants names a distinct single-sample format with the same transfer
   * format, and none of them is an integer format.
   */
  lemma MultisampleIsSubsetOfInternal(m: InternalFormatMultisample, n: InternalFormatMultisample)
    ensures FormatOf(MultisampleAsInternal(m)) == MultisampleFormatOf(m)
    ensures MultisampleAsInternal(m) == MultisampleAsInternal(n) ==> m == n
    ensures !Texture.IsIntegerFormat(MultisampleFormatOf(m))
  {
  }
}
