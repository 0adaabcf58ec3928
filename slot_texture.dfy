/**
 * Texture slots (slot/texture.rs): binding a texture to one of the four
 * targets of the active texture unit, the `glTexParameteri` calls an active
 * texture token makes, immutable 2D storage, switching the active unit and
 * deleting textures.
 *
 * An `Active<Dim>` token is the dimensionality `Dim` in `textureToken`. The
 * token does not say which texture is bound, so parameter calls only need
 * it to be live; they change nothing the model tracks besides the call log.
 */
module SlotTexture {
  import opened GLTypes
  import opened Texture
  import opened Glhf

  const TEXTURE_MAG_FILTER: GLenum := 0x2800
  const TEXTURE_MIN_FILTER: GLenum := 0x2801
  const TEXTURE_WRAP_S: GLenum := 0x2802
  const TEXTURE_WRAP_T: GLenum := 0x2803
  const TEXTURE_WRAP_R: GLenum := 0x8072
  const TEXTURE_SWIZZLE_R: GLenum := 0x8E42
  const TEXTURE_SWIZZLE_G: GLenum := 0x8E43
  const TEXTURE_SWIZZLE_B: GLenum := 0x8E44
  const TEXTURE_SWIZZLE_A: GLenum := 0x8E45
  const TEXTURE_COMPARE_MODE: GLenum := 0x884C
  const TEXTURE_COMPARE_FUNC: GLenum := 0x884D
  const COMPARE_REF_TO_TEXTURE: GLenum := 0x884E
  const NONE: GLenum := 0
  const TEXTURE_BASE_LEVEL: GLenum := 0x813C
  const TEXTURE_MAX_LEVEL: GLenum := 0x813D
  const DEPTH_STENCIL_TEXTURE_MODE: GLenum := 0x90EA
  const TEXTURE0: GLenum := 0x84C0

  const NEAREST_MIPMAP_NEAREST: GLenum := 0x2700
  const LINEAR_MIPMAP_NEAREST: GLenum := 0x2701
  const NEAREST_MIPMAP_LINEAR: GLenum := 0x2702
  const LINEAR_MIPMAP_LINEAR: GLenum := 0x2703

  /** The depth comparison functions (`CompareFunc` of state.rs), `repr(u32)`. */
  datatype CompareFunc = LessEqual | GreaterEqual | Less | Greater | Equal | NotEqual | Always | Never

  const NEVER: GLenum := 0x0200

  /**
   * The GL value of a comparison function: the eight values are
   * `NEVER + k` for the bit pattern k = (greater, equal, less).
   */
  function CompareFuncAsGl(f: CompareFunc): (v: GLenum)
    ensures NEVER <= v <= NEVER + 7
  {
    match f
    case LessEqual => 0x0203
    case GreaterEqual => 0x0206
    case Less => 0x0201
    case Greater => 0x0204
    case Equal => 0x0202
    case NotEqual => 0x0205
    case Always => 0x0207
    case Never => 0x0200
  }

  /** Which outcomes of comparing the reference `r` with the texel `t` a function accepts. */
  predicate Accepts(f: CompareFunc, rLess: bool, rEqual: bool, rGreater: bool)
  {
    match f
    case LessEqual => rLess || rEqual
    case GreaterEqual => rGreater || rEqual
    case Less => rLess
    case Greater => rGreater
    case Equal => rEqual
    case NotEqual => rLess || rGreater
    case Always => true
    case Never => false
  }

  /**
   * The GL value encodes what the function accepts: bit 0 is "less", bit 1
   * "equal", bit 2 "greater". In particular the eight variants have eight
   * distinct values.
   */
  lemma CompareFuncEncodesAcceptance(f: CompareFunc, g: CompareFunc)
    ensures ((CompareFuncAsGl(f) - NEVER) % 2 == 1) == Accepts(f, true, false, false)
    ensures ((CompareFuncAsGl(f) - NEVER) / 2 % 2 == 1) == Accepts(f, false, true, false)
    ensures ((CompareFuncAsGl(f) - NEVER) / 4 == 1) == Accepts(f, false, false, true)
    ensures CompareFuncAsGl(f) == CompareFuncAsGl(g) <==> f == g
  {
  }

  /** `Active::mag_filter`: the magnification filter value. */
  function MagFilterValue(texel: Filter): (v: GLenum)
    ensures v == NEAREST || v == LINEAR
    ensures v == LINEAR <==> texel == Linear
  {
    match texel
    case Nearest => NEAREST
    case Linear => LINEAR
  }

  /** `Active::min_filter`: the minification filter value of a texel filter and an optional mipmap filter. */
  function MinFilterValue(texel: Filter, mip: Option<Filter>): GLenum
  {
    match (texel, mip)
    case (Nearest, None) => NEAREST
    case (Linear, None) => LINEAR
    case (Nearest, Some(Nearest)) => NEAREST_MIPMAP_NEAREST
    case (Nearest, Some(Linear)) => NEAREST_MIPMAP_LINEAR
    case (Linear, Some(Nearest)) => LINEAR_MIPMAP_NEAREST
    case (Linear, Some(Linear)) => LINEAR_MIPMAP_LINEAR
  }

  /**
   * The six minification values are six distinct GL constants; without a
   * mipmap filter the value is the magnification value of the same texel
   * filter, and with one it is a mipmap constant whose low bit is the texel
   * filter and whose second bit is the mipmap filter.
   */
  lemma MinFilterFaithful(texel: Filter, mip: Option<Filter>, texel2: Filter, mip2: Option<Filter>)
    ensures MinFilterValue(texel, mip) == MinFilterValue(texel2, mip2) <==> texel == texel2 && mip == mip2
    ensures mip.None? ==> MinFilterValue(texel, mip) == MagFilterValue(texel)
    ensures mip.Some? ==>
      && NEAREST_MIPMAP_NEAREST <= MinFilterValue(texel, mip) <= LINEAR_MIPMAP_LINEAR
      && ((MinFilterValue(texel, mip) - NEAREST_MIPMAP_NEAREST) % 2 == 1 <==> texel == Linear)
      && ((MinFilterValue(texel, mip) - NEAREST_MIPMAP_NEAREST) / 2 == 1 <==> mip.value == Linear)
  {
  }

  /** One `glTexParameteri` on the target of `dim`, the value cast from `u32` to `GLint`. */
  function Param(dim: Dim, pname: GLenum, value: u32): GLCall
  {
    TexParameteri(dim, pname, U32AsI32(value))
  }

  /** `Active::swizzle`: the source of the red, green, blue and alpha channels, in that order. */
  function SwizzleCalls(dim: Dim, swizzle: seq<Swizzle>): (cs: seq<GLCall>)
    requires |swizzle| == 4
    ensures |cs| == 4
    ensures forall i :: 0 <= i < 4 ==> cs[i] == TexParameteri(dim, TEXTURE_SWIZZLE_R + i, SwizzleAsGl(swizzle[i]))
  {
    [Param(dim, TEXTURE_SWIZZLE_R, SwizzleAsGl(swizzle[0])),
     Param(dim, TEXTURE_SWIZZLE_G, SwizzleAsGl(swizzle[1])),
     Param(dim, TEXTURE_SWIZZLE_B, SwizzleAsGl(swizzle[2])),
     Param(dim, TEXTURE_SWIZZLE_A, SwizzleAsGl(swizzle[3]))]
  }

  /** The wrap parameters of the X, Y and Z dimensions. */
  const WRAP_PARAMS: seq<GLenum> := [TEXTURE_WRAP_S, TEXTURE_WRAP_T, TEXTURE_WRAP_R]

  /** `Active::wrap`: entry i of the mode sets the wrap of dimension i. */
  function WrapCalls(dim: Dim, mode: seq<Wrap>): (cs: seq<GLCall>)
    requires |mode| == 3
    ensures |cs| == 3
    ensures forall i :: 0 <= i < 3 ==> cs[i] == TexParameteri(dim, WRAP_PARAMS[i], WrapAsGl(mode[i]))
  {
    [Param(dim, TEXTURE_WRAP_S, WrapAsGl(mode[0])),
     Param(dim, TEXTURE_WRAP_T, WrapAsGl(mode[1])),
     Param(dim, TEXTURE_WRAP_R, WrapAsGl(mode[2]))]
  }

  /**
   * `Active::compare_mode`: with a function, depth comparison is switched on
   * and then the function is set; without one, comparison is switched off
   * and the function parameter is left alone.
   */
  function CompareModeCalls(dim: Dim, mode: Option<CompareFunc>): (cs: seq<GLCall>)
    ensures 1 <= |cs| <= 2
    ensures cs[0].TexParameteri? && cs[0].pname == TEXTURE_COMPARE_MODE
    ensures cs[0].param == COMPARE_REF_TO_TEXTURE <==> mode.Some?
    ensures |cs| == 2 <==> mode.Some?
    ensures mode.Some? ==> cs[1] == TexParameteri(dim, TEXTURE_COMPARE_FUNC, CompareFuncAsGl(mode.value))
    ensures forall c :: c in cs ==> c.TexParameteri? && c.dim == dim
  {
    match mode
    case Some(f) => [Param(dim, TEXTURE_COMPARE_MODE, COMPARE_REF_TO_TEXTURE), Param(dim, TEXTURE_COMPARE_FUNC, CompareFuncAsGl(f))]
    case None => [Param(dim, TEXTURE_COMPARE_MODE, NONE)]
  }

  /** `core::ops::Bound<&u32>`: one end of a range of mipmap levels. */
  datatype LevelBound = Unbounded | Included(n: u32) | Excluded(n: u32)

  const U32_MAX: u32 := U32_LIMIT - 1

  /** The maximum level GL assumes when none is set. */
  const DEFAULT_MAX_LEVEL: u32 := 1000

  /** Whether level `l` lies in the range with the given start and end bounds. */
  predicate LevelInRange(start: LevelBound, end: LevelBound, l: int)
  {
    && (match start
        case Unbounded => 0 <= l
        case Included(n) => n <= l
        case Excluded(n) => n < l)
    && (match end
        case Unbounded => true
        case Included(n) => l <= n
        case Excluded(n) => l < n)
  }

  function SaturatingInc(n: u32): (r: u32)
    ensures r == if n == U32_MAX then n else n + 1
  {
    if n == U32_MAX then n else n + 1
  }

  function SaturatingDec(n: u32): (r: u32)
    ensures r == if n == 0 then 0 else n - 1
  {
    if n == 0 then 0 else n - 1
  }

  /** The inclusive base level of a range, as the code computes it. */
  function BaseLevel(start: LevelBound): u32
  {
    match start
    case Unbounded => 0
    case Excluded(n) => SaturatingInc(n)
    case Included(n) => n
  }

  /**
   * The inclusive maximum level of a range, AS WRITTEN: an excluded end `n`
   * is turned into `n + 1` (saturating), one past the end instead of the
   * last level before it.
   */
  function MaxLevelAsWritten(end: LevelBound): u32
  {
    match end
    case Unbounded => DEFAULT_MAX_LEVEL
    case Excluded(n) => SaturatingInc(n)
    case Included(n) => n
  }

  /** The inclusive maximum level, corrected: an excluded end `n` gives `n - 1` (saturating). */
  function MaxLevel(end: LevelBound): u32
  {
    match end
    case Unbounded => DEFAULT_MAX_LEVEL
    case Excluded(n) => SaturatingDec(n)
    case Included(n) => n
  }

  /**
   * The corrected base and maximum are the first and last levels of the
   * range: a level lies between them exactly when it lies in the range
   * (up to GL's default maximum when the end is unbounded). The two ranges
   * no pair of inclusive bounds can express, those starting after
   * `u32::MAX` and those ending before 0, are excluded.
   */
  lemma LevelRangeIsTheRange(start: LevelBound, end: LevelBound, l: u32)
    requires start != Excluded(U32_MAX) && end != Excluded(0)
    requires end.Unbounded? ==> l <= DEFAULT_MAX_LEVEL
    ensures BaseLevel(start) <= l <= MaxLevel(end) <==> LevelInRange(start, end, l)
  {
  }

  /**
   * The code as written lets the level just past an excluded end through:
   * for `0..4` it sets levels 0 to 5, and level 4, which the range
   * excludes, is inside the bounds it sets.
   */
  lemma LevelRangeAsWrittenOvershoots(n: u32)
    requires n < U32_MAX
    ensures MaxLevelAsWritten(Excluded(n)) == n + 1
    ensures BaseLevel(Unbounded) <= n <= MaxLevelAsWritten(Excluded(n)) && !LevelInRange(Unbounded, Excluded(n), n)
    ensures MaxLevelAsWritten(Excluded(4)) == 5 && MaxLevel(Excluded(4)) == 3
  {
  }

  /**
   * The bounds the code as written sets admit exactly the range's levels,
   * plus, for an excluded end `n`, the levels `n` and `n + 1` (saturating)
   * from the base up. Included and unbounded ends agree with the corrected
   * maximum.
   */
  lemma LevelRangeAsWrittenBounds(start: LevelBound, end: LevelBound, l: u32)
    requires start != Excluded(U32_MAX)
    requires end.Unbounded? ==> l <= DEFAULT_MAX_LEVEL
    ensures !end.Excluded? ==> MaxLevelAsWritten(end) == MaxLevel(end)
    ensures BaseLevel(start) <= l <= MaxLevelAsWritten(end)
            <==> LevelInRange(start, end, l)
                 || (end.Excluded? && BaseLevel(start) <= l && end.n <= l <= SaturatingInc(end.n))
  {
  }

  /**
   * `Active::level_range`: the base level, then the maximum level as the
   * code computes it, each cast to `GLint`.
   */
  function LevelRangeCalls(dim: Dim, start: LevelBound, end: LevelBound): (cs: seq<GLCall>)
    ensures |cs| == 2
    ensures cs[0] == TexParameteri(dim, TEXTURE_BASE_LEVEL, U32AsI32(BaseLevel(start)))
    ensures cs[1] == TexParameteri(dim, TEXTURE_MAX_LEVEL, U32AsI32(MaxLevelAsWritten(end)))
  {
    [Param(dim, TEXTURE_BASE_LEVEL, BaseLevel(start)), Param(dim, TEXTURE_MAX_LEVEL, MaxLevelAsWritten(end))]
  }

  /** For `0..4` the driver is told levels 0 to 5. */
  lemma LevelRangeCallsOvershoot(dim: Dim, n: u32)
    requires n < GLINT_MAX
    ensures LevelRangeCalls(dim, Unbounded, Excluded(n))[1].param == n + 1
    ensures LevelRangeCalls(dim, Included(0), Excluded(4)) ==
            [TexParameteri(dim, TEXTURE_BASE_LEVEL, 0), TexParameteri(dim, TEXTURE_MAX_LEVEL, 5)]
  {
  }

  /**
   * Levels above `i32::MAX` wrap to negative `GLint`s on their way to the
   * driver, which GL rejects; levels up to `i32::MAX` arrive unchanged.
   */
  lemma LevelCastWraps(start: LevelBound, dim: Dim)
    ensures BaseLevel(start) <= GLINT_MAX ==> LevelRangeCalls(dim, start, Unbounded)[0].param == BaseLevel(start)
    ensures BaseLevel(start) > GLINT_MAX ==> LevelRangeCalls(dim, start, Unbounded)[0].param < 0
    ensures LevelRangeCalls(dim, Included(U32_MAX), Unbounded)[0].param == -1
  {
  }

  // The parameter calls of an `Active<Dim>` token, in order.

  method SetSwizzle(gl: GLHF, dim: Dim, swizzle: seq<Swizzle>)
    requires gl.Valid() && dim in gl.st.textureToken && |swizzle| == 4
    modifies gl`calls
    ensures gl.calls == old(gl.calls) + SwizzleCalls(dim, swizzle)
  {
    gl.calls := gl.calls + SwizzleCalls(dim, swizzle);
  }

  method MinFilter(gl: GLHF, dim: Dim, texel: Filter, mip: Option<Filter>)
    requires gl.Valid() && dim in gl.st.textureToken
    modifies gl`calls
    ensures gl.calls == old(gl.calls) + [TexParameteri(dim, TEXTURE_MIN_FILTER, MinFilterValue(texel, mip))]
  {
    gl.calls := gl.calls + [Param(dim, TEXTURE_MIN_FILTER, MinFilterValue(texel, mip))];
  }

  method MagFilter(gl: GLHF, dim: Dim, texel: Filter)
    requires gl.Valid() && dim in gl.st.textureToken
    modifies gl`calls
    ensures gl.calls == old(gl.calls) + [TexParameteri(dim, TEXTURE_MAG_FILTER, MagFilterValue(texel))]
  {
    gl.calls := gl.calls + [Param(dim, TEXTURE_MAG_FILTER, MagFilterValue(texel))];
  }

  method CompareMode(gl: GLHF, dim: Dim, mode: Option<CompareFunc>)
    requires gl.Valid() && dim in gl.st.textureToken
    modifies gl`calls
    ensures gl.calls == old(gl.calls) + CompareModeCalls(dim, mode)
  {
    gl.calls := gl.calls + CompareModeCalls(dim, mode);
  }

  method SetWrap(gl: GLHF, dim: Dim, mode: seq<Wrap>)
    requires gl.Valid() && dim in gl.st.textureToken && |mode| == 3
    modifies gl`calls
    ensures gl.calls == old(gl.calls) + WrapCalls(dim, mode)
  {
    gl.calls := gl.calls + WrapCalls(dim, mode);
  }

  method LevelRange(gl: GLHF, dim: Dim, start: LevelBound, end: LevelBound)
    requires gl.Valid() && dim in gl.st.textureToken
    modifies gl`calls
    ensures gl.calls == old(gl.calls) + LevelRangeCalls(dim, start, end)
  {
    gl.calls := gl.calls + LevelRangeCalls(dim, start, end);
  }

  method SetDepthStencilMode(gl: GLHF, dim: Dim, mode: DepthStencilMode)
    requires gl.Valid() && dim in gl.st.textureToken
    modifies gl`calls
    ensures gl.calls == old(gl.calls) + [TexParameteri(dim, DEPTH_STENCIL_TEXTURE_MODE, DepthStencilModeAsGl(mode))]
  {
    gl.calls := gl.calls + [Param(dim, DEPTH_STENCIL_TEXTURE_MODE, DepthStencilModeAsGl(mode))];
  }

  /**
   * `Active<D2>::storage`: levels, width and height (each non-zero) are
   * converted to `GLsizei` in that order, panicking on the first that does
   * not fit and then making no call.
   */
  method Storage(gl: GLHF, levels: u32, format: InternalFormat, width: u32, height: u32) returns (r: Result<(), Panic>)
    requires gl.Valid() && D2 in gl.st.textureToken
    requires levels != 0 && width != 0 && height != 0
    modifies gl`calls
    ensures r.Err? <==> levels > GLINT_MAX || width > GLINT_MAX || height > GLINT_MAX
    ensures r.Err? ==> r.error == ConversionOverflow && gl.calls == old(gl.calls)
    ensures r.Ok? ==> gl.calls == old(gl.calls) + [TexStorage2D(levels, format, width, height)]
  {
    var l := Narrow(levels, GLINT_MAX);
    if l.Err? { return Err(l.error); }
    var w := Narrow(width, GLINT_MAX);
    if w.Err? { return Err(w.error); }
    var h := Narrow(height, GLINT_MAX);
    if h.Err? { return Err(h.error); }
    gl.calls := gl.calls + [TexStorage2D(l.value, format, w.value, h.value)];
    r := Ok(());
  }

  /**
   * `Slot::bind`: binds the texture to the slot's target of the active
   * unit and hands out the slot's token (the previous one ends with the
   * borrow of the slot).
   */
  method Bind(gl: GLHF, dim: Dim, texture: Texture)
    requires gl.Valid() && texture.dim == dim
    modifies gl
    ensures gl.Valid()
    ensures gl.st == old(gl.st).(texture := old(gl.st).texture[(old(gl.st).activeUnit, dim) := texture.name],
                                 textureToken := old(gl.st).textureToken + {dim})
    ensures gl.calls == old(gl.calls) + [BindTexture(dim, texture.name)]
  {
    gl.st := gl.st.(texture := gl.st.texture[(gl.st.activeUnit, dim) := texture.name],
                    textureToken := gl.st.textureToken + {dim});
    gl.calls := gl.calls + [BindTexture(dim, texture.name)];
  }

  /**
   * `Slot::initialize`: a stateless texture takes the slot's
   * dimensionality, keeping its name, and is left bound.
   */
  method Initialize(gl: GLHF, dim: Dim, stateless: Stateless) returns (texture: Texture)
    requires gl.Valid()
    modifies gl
    ensures gl.Valid()
    ensures texture.name == stateless.name && texture.dim == dim
    ensures gl.st == old(gl.st).(texture := old(gl.st).texture[(old(gl.st).activeUnit, dim) := stateless.name],
                                 textureToken := old(gl.st).textureToken + {dim})
    ensures gl.calls == old(gl.calls) + [BindTexture(dim, stateless.name)]
  {
    texture := Texture(stateless.name, dim);
    Bind(gl, dim, texture);
  }

  /** `Slot::inherit` and `Slot::inherit_mut`: a token for whatever is bound, without a call. */
  method Inherit(gl: GLHF, dim: Dim)
    requires gl.Valid()
    modifies gl
    ensures gl.Valid()
    ensures gl.st == old(gl.st).(textureToken := old(gl.st).textureToken + {dim})
    ensures gl.calls == old(gl.calls)
  {
    gl.st := gl.st.(textureToken := gl.st.textureToken + {dim});
  }

  /**
   * `Slots::unit`: `TEXTURE0 + slot`, which panics when the sum overflows
   * `u32`. Each unit has its own bindings, so every texture token ends.
   */
  method Unit(gl: GLHF, slot: u32) returns (r: Result<(), Panic>)
    requires gl.Valid()
    modifies gl
    ensures gl.Valid()
    ensures r.Err? <==> TEXTURE0 + slot > U32_MAX
    ensures r.Err? ==> r.error == ArithmeticOverflow && gl.st == old(gl.st) && gl.calls == old(gl.calls)
    ensures r.Ok? ==> gl.st == old(gl.st).(activeUnit := slot, textureToken := {})
    ensures r.Ok? ==> gl.calls == old(gl.calls) + [ActiveTexture(TEXTURE0 + slot)]
  {
    var unit := CheckedAdd(TEXTURE0, slot, U32_MAX);
    if unit.Err? {
      return Err(unit.error);
    }
    gl.st := gl.st.(activeUnit := slot, textureToken := {});
    gl.calls := gl.calls + [ActiveTexture(unit.value)];
    r := Ok(());
  }

  /**
   * `Slot::delete`: one `glDeleteTextures` for all the textures; a binding
   * of a deleted texture, on any unit, falls back to texture 0, and the
   * slot's token ends with the borrow of the slot.
   */
  method Delete(gl: GLHF, dim: Dim, textures: seq<Texture>)
    requires gl.Valid() && |textures| <= GLINT_MAX
    requires forall i :: 0 <= i < |textures| ==> textures[i].dim == dim
    modifies gl
    ensures gl.Valid()
    ensures var deleted := NameSet(seq(|textures|, i requires 0 <= i < |textures| => textures[i].name));
      && gl.calls == old(gl.calls) + [GLCall.Delete(TextureObjects, seq(|textures|, i requires 0 <= i < |textures| => textures[i].name as Name))]
      && gl.st == old(gl.st).(texture := UnbindTextures(old(gl.st).texture, deleted),
                              textureToken := old(gl.st).textureToken - {dim})
  {
    var names := seq(|textures|, i requires 0 <= i < |textures| => textures[i].name as Name);
    DeleteWith(gl, TextureObjects, names);
    var deleted := NameSet(seq(|textures|, i requires 0 <= i < |textures| => textures[i].name));
    gl.st := gl.st.(texture := UnbindTextures(gl.st.texture, deleted),
                    textureToken := gl.st.textureToken - {dim});
  }

  /**
   * `Slots::delete`: the same for deletion tokens of any dimensionality; it
   * borrows all four slots, so every texture token ends.
   */
  method DeleteAny(gl: GLHF, tokens: seq<DeletionToken>)
    requires gl.Valid() && |tokens| <= GLINT_MAX
    modifies gl
    ensures gl.Valid()
    ensures var deleted := NameSet(seq(|tokens|, i requires 0 <= i < |tokens| => tokens[i].name));
      && gl.calls == old(gl.calls) + [GLCall.Delete(TextureObjects, seq(|tokens|, i requires 0 <= i < |tokens| => tokens[i].name as Name))]
      && gl.st == old(gl.st).(texture := UnbindTextures(old(gl.st).texture, deleted), textureToken := {})
  {
    var names := seq(|tokens|, i requires 0 <= i < |tokens| => tokens[i].name as Name);
    DeleteWith(gl, TextureObjects, names);
    var deleted := NameSet(seq(|tokens|, i requires 0 <= i < |tokens| => tokens[i].name));
    gl.st := gl.st.(texture := UnbindTextures(gl.st.texture, deleted), textureToken := {});
  }

  /**
   * After a deletion no binding, on any unit or target, names a deleted
   * texture, and bindings of other textures are untouched.
   */
  lemma DeletedTexturesAreUnbound(m: map<(nat, Dim), Name>, deleted: set<Name>, k: (nat, Dim))
    requires k in m
    ensures k in UnbindTextures(m, deleted)
    ensures UnbindTextures(m, deleted)[k] !in deleted - {0}
    ensures m[k] !in deleted ==> UnbindTextures(m, deleted)[k] == m[k]
  {
  }
}
