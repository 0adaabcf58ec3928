/**
 * Framebuffer objects and their parameter enums (framebuffer/mod.rs), and
 * the targets, aspect mask and blit description that slot/framebuffer.rs
 * declares.
 */
module Framebuffer {
  import opened GLTypes
  import Texture

  /** A framebuffer whose completeness has not been checked (or was given up). */
  datatype Incomplete = Incomplete(name: NonZeroName)
  /** A framebuffer known to be complete. */
  datatype Complete = Complete(name: NonZeroName)

  /**
   * `Incomplete::into_complete_unchecked`: the same object, now claimed
   * complete. The caller vouches that the driver would report it complete.
   */
  function IntoCompleteUnchecked(f: Incomplete): (c: Complete)
    ensures c.name == f.name
  {
    Complete(f.name)
  }

  /** `From<Complete> for Incomplete`: forget that the framebuffer is complete. */
  function ForgetComplete(c: Complete): (f: Incomplete)
    ensures f.name == c.name
  {
    Incomplete(c.name)
  }

  /**
   * Re-tagging never changes the object: forgetting completeness and
   * claiming it back is the identity, in both orders.
   */
  lemma RetagRoundTrip(c: Complete, f: Incomplete)
    ensures IntoCompleteUnchecked(ForgetComplete(c)) == c
    ensures ForgetComplete(IntoCompleteUnchecked(f)) == f
  {
  }

  /** What a framebuffer token knows about the completeness of the bound framebuffer. */
  datatype Completeness = MarkIncomplete | MarkComplete | MarkUnknown

  /** The two framebuffer binding targets. */
  datatype Target = DrawTarget | ReadTarget

  /** The target a bind call names: one of the two, or `FRAMEBUFFER`, which sets both. */
  datatype BindTarget = Only(target: Target) | BothTargets

  /** Buffers of a user framebuffer that drawing and reading can select. */
  datatype Buffer = BufferNone | ColorAttachment0 | ColorAttachment1 | ColorAttachment2 | ColorAttachment3

  const NONE: GLenum := 0
  const COLOR_ATTACHMENT0: GLenum := 0x8CE0
  const BACK: GLenum := 0x0405

  function BufferAsGl(b: Buffer): GLenum
  {
    match b
    case BufferNone => NONE
    case ColorAttachment0 => COLOR_ATTACHMENT0
    case ColorAttachment1 => COLOR_ATTACHMENT0 + 1
    case ColorAttachment2 => COLOR_ATTACHMENT0 + 2
    case ColorAttachment3 => COLOR_ATTACHMENT0 + 3
  }

  /** Buffers of the default framebuffer. */
  datatype DefaultBuffer = DefaultNone | Back

  function DefaultBufferAsGl(b: DefaultBuffer): GLenum
  {
    match b
    case DefaultNone => NONE
    case Back => BACK
  }

  /** `repr(u32)` enums: equal GL values mean equal variants. */
  lemma BufferValuesDistinct(a: Buffer, b: Buffer, c: DefaultBuffer, d: DefaultBuffer)
    ensures BufferAsGl(a) == BufferAsGl(b) <==> a == b
    ensures DefaultBufferAsGl(c) == DefaultBufferAsGl(d) <==> c == d
  {
  }

  /** The attachment points of a framebuffer. */
  datatype Attachment = Color0 | Color1 | Color2 | Color3 | Depth | Stencil | DepthStencil

  const COLOR_BUFFER_BIT: bv32 := 0x4000
  const DEPTH_BUFFER_BIT: bv32 := 0x0100
  const STENCIL_BUFFER_BIT: bv32 := 0x0400

  /** `AspectMask`: which of color, depth and stencil an operation affects. */
  datatype AspectMask = AspectMask(color: bool, depth: bool, stencil: bool)

  predicate IsEmptyMask(m: AspectMask)
  {
    !m.color && !m.depth && !m.stencil
  }

  /** `AspectMask::bits`: one GL bit per selected aspect. */
  function MaskBits(m: AspectMask): (bits: bv32)
    ensures (bits & COLOR_BUFFER_BIT != 0) == m.color
    ensures (bits & DEPTH_BUFFER_BIT != 0) == m.depth
    ensures (bits & STENCIL_BUFFER_BIT != 0) == m.stencil
    ensures bits == 0 <==> IsEmptyMask(m)
  {
    (if m.color then COLOR_BUFFER_BIT else 0)
    | (if m.depth then DEPTH_BUFFER_BIT else 0)
    | (if m.stencil then STENCIL_BUFFER_BIT else 0)
  }

  /** A rectangle of `[i32; 2]` corners: lower corner inclusive, upper corner exclusive. */
  datatype BlitRectangle = BlitRectangle(fromX: i32, fromY: i32, toX: i32, toY: i32)

  /** `BlitInfo`: source and destination rectangles, the magnification filter and the aspects. */
  datatype BlitInfo = BlitInfo(read: BlitRectangle, write: BlitRectangle, filter: Texture.Filter, mask: AspectMask)
}
