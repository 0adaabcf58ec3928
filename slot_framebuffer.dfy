/**
 * Binding framebuffers and the operations their tokens allow
 * (slot/framebuffer.rs): the duplicate check guarding `draw_buffers`, the
 * classification of an incomplete status, the two framebuffer slots and
 * the `Slots` operations that bind both at once.
 */
module SlotFramebuffer {
  import opened GLTypes
  import opened Framebuffer
  import opened Glhf
  import Texture

  /**
   * `is_all_unique`: for every `i` in `1..len`, the element before `i` does
   * not occur in the suffix starting at `i`.
   */
  predicate IsAllUnique<T(==)>(s: seq<T>)
  {
    forall i :: 1 <= i < |s| ==> s[i - 1] !in s[i..]
  }

  /** No two positions hold equal elements. */
  predicate NoTwoEqual<T(==)>(s: seq<T>)
  {
    forall i, j :: 0 <= i < j < |s| ==> s[i] != s[j]
  }

  /**
   * The suffix scan is the textbook uniqueness test: it holds exactly when
   * no two elements are equal. In particular empty and one-element slices
   * are unique.
   */
  lemma IsAllUniqueIffNoTwoEqual<T>(s: seq<T>)
    ensures IsAllUnique(s) <==> NoTwoEqual(s)
    ensures |s| <= 1 ==> IsAllUnique(s)
  {
    if IsAllUnique(s) {
      forall i, j | 0 <= i < j < |s|
        ensures s[i] != s[j]
      {
        assert s[j] == s[i + 1..][j - (i + 1)];
        assert s[i] !in s[i + 1..];
      }
    }
  }

  /** A repeated entry is caught wherever it sits. */
  lemma RepeatBreaksUniqueness<T>(s: seq<T>, i: nat, j: nat)
    requires i < j < |s| && s[i] == s[j]
    ensures !IsAllUnique(s)
  {
    assert s[j] == s[i + 1..][j - (i + 1)];
    assert s[i] in s[i + 1..];
  }

  /**
   * The check applies to `NONE` as well: two `NONE` entries are rejected,
   * although `glDrawBuffers` itself accepts repeated `NONE`.
   */
  lemma RepeatedNoneRejected()
    ensures !IsAllUnique([BufferNone, BufferNone])
    ensures !IsAllUnique([DefaultNone, DefaultNone])
    ensures IsAllUnique([ColorAttachment1, BufferNone, ColorAttachment0])
  {
    RepeatBreaksUniqueness([BufferNone, BufferNone], 0, 1);
    RepeatBreaksUniqueness([DefaultNone, DefaultNone], 0, 1);
    var s := [ColorAttachment1, BufferNone, ColorAttachment0];
    assert s[1..] == [BufferNone, ColorAttachment0];
    assert s[2..] == [ColorAttachment0];
  }

  /** The GL values handed to `glDrawBuffers`, one per entry. */
  function BufferValues(bs: seq<Framebuffer.Buffer>): (vs: seq<GLenum>)
    ensures |vs| == |bs| && forall i :: 0 <= i < |bs| ==> vs[i] == BufferAsGl(bs[i])
  {
    seq(|bs|, i requires 0 <= i < |bs| => BufferAsGl(bs[i]))
  }

  function DefaultBufferValues(bs: seq<DefaultBuffer>): (vs: seq<GLenum>)
    ensures |vs| == |bs| && forall i :: 0 <= i < |bs| ==> vs[i] == DefaultBufferAsGl(bs[i])
  {
    seq(|bs|, i requires 0 <= i < |bs| => DefaultBufferAsGl(bs[i]))
  }

  /**
   * Uniqueness of the enum entries is uniqueness of the GL values the
   * driver receives, because both enums are `repr(u32)` with distinct
   * values (the equality the check relies on).
   */
  lemma UniqueEntriesGiveUniqueValues(bs: seq<Framebuffer.Buffer>, ds: seq<DefaultBuffer>)
    ensures IsAllUnique(bs) <==> IsAllUnique(BufferValues(bs))
    ensures IsAllUnique(ds) <==> IsAllUnique(DefaultBufferValues(ds))
  {
    var vs, ws := BufferValues(bs), DefaultBufferValues(ds);
    IsAllUniqueIffNoTwoEqual(bs);
    IsAllUniqueIffNoTwoEqual(vs);
    IsAllUniqueIffNoTwoEqual(ds);
    IsAllUniqueIffNoTwoEqual(ws);
    forall i, j | 0 <= i < j < |bs|
      ensures bs[i] == bs[j] <==> vs[i] == vs[j]
    {
      BufferValuesDistinct(bs[i], bs[j], DefaultNone, DefaultNone);
    }
    forall i, j | 0 <= i < j < |ds|
      ensures ds[i] == ds[j] <==> ws[i] == ws[j]
    {
      BufferValuesDistinct(BufferNone, BufferNone, ds[i], ds[j]);
    }
  }

  const FRAMEBUFFER_COMPLETE: GLenum := 0x8CD5
  const FRAMEBUFFER_INCOMPLETE_ATTACHMENT: GLenum := 0x8CD6
  const FRAMEBUFFER_INCOMPLETE_MISSING_ATTACHMENT: GLenum := 0x8CD7
  const FRAMEBUFFER_UNSUPPORTED: GLenum := 0x8CDD
  const FRAMEBUFFER_INCOMPLETE_MULTISAMPLE: GLenum := 0x8D56
  const FRAMEBUFFER_INCOMPLETE_LAYER_TARGETS: GLenum := 0x8DA8

  const INCOMPLETE_STATUSES: set<GLenum> :=
    {FRAMEBUFFER_INCOMPLETE_ATTACHMENT, FRAMEBUFFER_INCOMPLETE_MISSING_ATTACHMENT, FRAMEBUFFER_UNSUPPORTED,
     FRAMEBUFFER_INCOMPLETE_MULTISAMPLE, FRAMEBUFFER_INCOMPLETE_LAYER_TARGETS}

  /** Why a framebuffer failed its completeness check. */
  datatype IncompleteErrorKind = Unspecified | Attachment | MissingAttachment | Unsupported | Multisample | LayerTargets

  /** The `repr(u32)` discriminant of each kind. */
  function KindAsGl(k: IncompleteErrorKind): GLenum
  {
    match k
    case Unspecified => 0
    case Attachment => FRAMEBUFFER_INCOMPLETE_ATTACHMENT
    case MissingAttachment => FRAMEBUFFER_INCOMPLETE_MISSING_ATTACHMENT
    case Unsupported => FRAMEBUFFER_UNSUPPORTED
    case Multisample => FRAMEBUFFER_INCOMPLETE_MULTISAMPLE
    case LayerTargets => FRAMEBUFFER_INCOMPLETE_LAYER_TARGETS
  }

  /** `IncompleteErrorKind::from_gl`: the five incomplete statuses by name, anything else unspecified. */
  function FromGl(status: GLenum): IncompleteErrorKind
  {
    if status == FRAMEBUFFER_INCOMPLETE_ATTACHMENT then Attachment
    else if status == FRAMEBUFFER_INCOMPLETE_MISSING_ATTACHMENT then MissingAttachment
    else if status == FRAMEBUFFER_UNSUPPORTED then Unsupported
    else if status == FRAMEBUFFER_INCOMPLETE_MULTISAMPLE then Multisample
    else if status == FRAMEBUFFER_INCOMPLETE_LAYER_TARGETS then LayerTargets
    else Unspecified
  }

  /**
   * `from_gl` inverts the discriminant for every kind (Unspecified's
   * discriminant 0 is no status), and a status is classified Unspecified
   * exactly when it is none of the five incomplete statuses; the complete
   * status is among those.
   */
  lemma FromGlInvertsDiscriminant(k: IncompleteErrorKind, status: GLenum)
    ensures FromGl(KindAsGl(k)) == k
    ensures FromGl(status) == Unspecified <==> status !in INCOMPLETE_STATUSES
    ensures FromGl(status) != Unspecified ==> KindAsGl(FromGl(status)) == status
    ensures FromGl(FRAMEBUFFER_COMPLETE) == Unspecified
  {
  }

  /** The name bound to a framebuffer target. */
  function BoundFramebuffer(st: Driver, tgt: Target): Name
  {
    if tgt == DrawTarget then st.drawFramebuffer else st.readFramebuffer
  }

  /** The live token of a framebuffer slot, if any. */
  function TokenOf(st: Driver, tgt: Target): Option<FbToken>
  {
    if tgt == DrawTarget then st.drawToken else st.readToken
  }

  /** The state after one framebuffer slot binds `name` and hands out `token`; the other slot is untouched. */
  function Rebind(st: Driver, tgt: Target, name: Name, token: Option<FbToken>): (r: Driver)
    ensures BoundFramebuffer(r, tgt) == name && TokenOf(r, tgt) == token
    ensures var other := if tgt == DrawTarget then ReadTarget else DrawTarget;
      BoundFramebuffer(r, other) == BoundFramebuffer(st, other) && TokenOf(r, other) == TokenOf(st, other)
  {
    if tgt == DrawTarget then st.(drawFramebuffer := name, drawToken := token)
    else st.(readFramebuffer := name, readToken := token)
  }

  /** `Slot::bind`: one bind call; the token is NotDefault and Incomplete. */
  method Bind(gl: GLHF, tgt: Target, f: Incomplete)
    requires gl.Valid()
    modifies gl
    ensures gl.Valid()
    ensures gl.st == Rebind(old(gl.st), tgt, f.name, Some(FbToken(NotDefault, MarkIncomplete)))
    ensures gl.calls == old(gl.calls) + [BindFramebuffer(Only(tgt), f.name)]
  {
    gl.st := Rebind(gl.st, tgt, f.name, Some(FbToken(NotDefault, MarkIncomplete)));
    gl.calls := gl.calls + [BindFramebuffer(Only(tgt), f.name)];
  }

  /** `Slot::bind_complete`: one bind call; the token is NotDefault and Complete. */
  method BindComplete(gl: GLHF, tgt: Target, c: Complete)
    requires gl.Valid()
    modifies gl
    ensures gl.Valid()
    ensures gl.st == Rebind(old(gl.st), tgt, c.name, Some(FbToken(NotDefault, MarkComplete)))
    ensures gl.calls == old(gl.calls) + [BindFramebuffer(Only(tgt), c.name)]
  {
    gl.st := Rebind(gl.st, tgt, c.name, Some(FbToken(NotDefault, MarkComplete)));
    gl.calls := gl.calls + [BindFramebuffer(Only(tgt), c.name)];
  }

  /** `IncompleteError`: the framebuffer handed back unchanged and the classified status. */
  datatype IncompleteError = IncompleteError(framebuffer: Incomplete, kind: IncompleteErrorKind)

  /**
   * What `try_complete` returns for a driver status: the same framebuffer
   * claimed complete for `FRAMEBUFFER_COMPLETE`, and otherwise the
   * unchanged framebuffer with `from_gl(status)`.
   */
  function Classify(f: Incomplete, status: GLenum): (r: Result<Complete, IncompleteError>)
    ensures r.Ok? <==> status == FRAMEBUFFER_COMPLETE
    ensures r.Ok? ==> r.value.name == f.name
    ensures r.Err? ==> r.error.framebuffer == f && r.error.kind == FromGl(status)
  {
    if status == FRAMEBUFFER_COMPLETE then Ok(IntoCompleteUnchecked(f))
    else Err(IncompleteError(f, FromGl(status)))
  }

  /**
   * `Slot::try_complete`: always binds first, then queries the status of
   * that target once. The outcome is `Classify(f, status)`, a function of
   * the driver's answer alone; either way the framebuffer stays bound and
   * its token says whether it is complete.
   */
  method TryComplete(gl: GLHF, tgt: Target, f: Incomplete, status: GLenum) returns (r: Result<Complete, IncompleteError>)
    requires gl.Valid()
    modifies gl
    ensures gl.Valid()
    ensures r == Classify(f, status)
    ensures gl.calls == old(gl.calls) + [BindFramebuffer(Only(tgt), f.name), CheckFramebufferStatus(tgt)]
    ensures gl.st == Rebind(old(gl.st), tgt, f.name,
      Some(FbToken(NotDefault, if r.Ok? then MarkComplete else MarkIncomplete)))
  {
    Bind(gl, tgt, f);
    gl.calls := gl.calls + [CheckFramebufferStatus(tgt)];
    r := Classify(f, status);
    if r.Ok? {
      gl.st := Rebind(gl.st, tgt, f.name, Some(FbToken(NotDefault, MarkComplete)));
    }
  }

  /** `Slot::bind_default`: binds 0; the default framebuffer is always complete. */
  method BindDefault(gl: GLHF, tgt: Target)
    requires gl.Valid()
    modifies gl
    ensures gl.Valid()
    ensures gl.st == Rebind(old(gl.st), tgt, 0, Some(FbToken(IsDefault, MarkComplete)))
    ensures gl.calls == old(gl.calls) + [BindFramebuffer(Only(tgt), 0)]
  {
    gl.st := Rebind(gl.st, tgt, 0, Some(FbToken(IsDefault, MarkComplete)));
    gl.calls := gl.calls + [BindFramebuffer(Only(tgt), 0)];
  }

  /** `Slot::inherit`: no call; neither defaultness nor completeness is known. */
  method Inherit(gl: GLHF, tgt: Target)
    requires gl.Valid()
    modifies gl
    ensures gl.Valid()
    ensures gl.st == Rebind(old(gl.st), tgt, BoundFramebuffer(old(gl.st), tgt), Some(FbToken(Unknown, MarkUnknown)))
    ensures gl.calls == old(gl.calls)
  {
    gl.st := Rebind(gl.st, tgt, BoundFramebuffer(gl.st, tgt), Some(FbToken(Unknown, MarkUnknown)));
  }

  /** Both slots hold `name`, with the same token each. */
  function RebindBoth(st: Driver, name: Name, token: FbToken): (r: Driver)
    ensures BoundFramebuffer(r, DrawTarget) == name && BoundFramebuffer(r, ReadTarget) == name
    ensures TokenOf(r, DrawTarget) == Some(token) && TokenOf(r, ReadTarget) == Some(token)
  {
    st.(drawFramebuffer := name, readFramebuffer := name, drawToken := Some(token), readToken := Some(token))
  }

  /** `Slots::bind`: one `FRAMEBUFFER` bind sets both targets; both tokens are NotDefault and Incomplete. */
  method SlotsBind(gl: GLHF, f: Incomplete)
    requires gl.Valid()
    modifies gl
    ensures gl.Valid()
    ensures gl.st == RebindBoth(old(gl.st), f.name, FbToken(NotDefault, MarkIncomplete))
    ensures gl.calls == old(gl.calls) + [BindFramebuffer(BothTargets, f.name)]
  {
    gl.st := RebindBoth(gl.st, f.name, FbToken(NotDefault, MarkIncomplete));
    gl.calls := gl.calls + [BindFramebuffer(BothTargets, f.name)];
  }

  /** `Slots::bind_complete`: one bind of both targets; both tokens are NotDefault and Complete. */
  method SlotsBindComplete(gl: GLHF, c: Complete)
    requires gl.Valid()
    modifies gl
    ensures gl.Valid()
    ensures gl.st == RebindBoth(old(gl.st), c.name, FbToken(NotDefault, MarkComplete))
    ensures gl.calls == old(gl.calls) + [BindFramebuffer(BothTargets, c.name)]
  {
    gl.st := RebindBoth(gl.st, c.name, FbToken(NotDefault, MarkComplete));
    gl.calls := gl.calls + [BindFramebuffer(BothTargets, c.name)];
  }

  /** `Slots::bind_default`: one bind of 0 to both targets; both tokens are IsDefault and Complete. */
  method SlotsBindDefault(gl: GLHF)
    requires gl.Valid()
    modifies gl
    ensures gl.Valid()
    ensures gl.st == RebindBoth(old(gl.st), 0, FbToken(IsDefault, MarkComplete))
    ensures gl.calls == old(gl.calls) + [BindFramebuffer(BothTargets, 0)]
  {
    gl.st := RebindBoth(gl.st, 0, FbToken(IsDefault, MarkComplete));
    gl.calls := gl.calls + [BindFramebuffer(BothTargets, 0)];
  }

  /**
   * `Slots::delete`: one delete call for all the framebuffers. A slot that
   * held one of them falls back to the default framebuffer, their
   * attachments go away, and both framebuffer tokens end (the call borrows
   * both slots).
   */
  method Delete(gl: GLHF, framebuffers: seq<Incomplete>)
    requires gl.Valid() && |framebuffers| <= GLINT_MAX
    modifies gl
    ensures gl.Valid()
    ensures var names := seq(|framebuffers|, i requires 0 <= i < |framebuffers| => framebuffers[i].name as Name);
      var deleted := NameSet(seq(|framebuffers|, i requires 0 <= i < |framebuffers| => framebuffers[i].name));
      && gl.calls == old(gl.calls) + [GLCall.Delete(FramebufferObjects, names)]
      && gl.st == old(gl.st).(drawFramebuffer := Unbound(old(gl.st).drawFramebuffer, deleted),
                              readFramebuffer := Unbound(old(gl.st).readFramebuffer, deleted),
                              attachments := map k | k in old(gl.st).attachments && k.0 !in deleted :: old(gl.st).attachments[k],
                              drawToken := None, readToken := None)
  {
    var names := seq(|framebuffers|, i requires 0 <= i < |framebuffers| => framebuffers[i].name as Name);
    DeleteWith(gl, FramebufferObjects, names);
    var deleted := NameSet(seq(|framebuffers|, i requires 0 <= i < |framebuffers| => framebuffers[i].name));
    gl.st := gl.st.(drawFramebuffer := Unbound(gl.st.drawFramebuffer, deleted),
                    readFramebuffer := Unbound(gl.st.readFramebuffer, deleted),
                    attachments := map k | k in gl.st.attachments && k.0 !in deleted :: gl.st.attachments[k],
                    drawToken := None, readToken := None);
  }

  /**
   * `Active::texture_2d`: only under a NotDefault, Incomplete token. The
   * mip level must fit a `GLint` or the call panics before reaching the
   * driver; otherwise one attach call, and the attachment point of the
   * bound framebuffer now refers to the texture.
   */
  method Texture2D(gl: GLHF, tgt: Target, texture: Texture.Texture, attachment: Framebuffer.Attachment, level: u32)
    returns (r: Result<(), Panic>)
    requires gl.Valid() && TokenOf(gl.st, tgt) == Some(FbToken(NotDefault, MarkIncomplete))
    requires texture.dim == Texture.D2
    modifies gl
    ensures gl.Valid()
    ensures r.Err? <==> level > GLINT_MAX
    ensures r.Err? ==> r.error == ConversionOverflow && gl.st == old(gl.st) && gl.calls == old(gl.calls)
    ensures r.Ok? ==> gl.calls == old(gl.calls) + [FramebufferTexture2D(tgt, attachment, texture.name, level)]
    ensures r.Ok? ==> gl.st == old(gl.st).(attachments := old(gl.st).attachments[(BoundFramebuffer(old(gl.st), tgt), attachment) := texture.name])
    ensures r.Ok? ==> BoundFramebuffer(gl.st, tgt) != 0
  {
    var mip := Narrow(level, GLINT_MAX);
    if mip.Err? {
      return Err(mip.error);
    }
    gl.calls := gl.calls + [FramebufferTexture2D(tgt, attachment, texture.name, level)];
    gl.st := gl.st.(attachments := gl.st.attachments[(BoundFramebuffer(gl.st, tgt), attachment) := texture.name]);
    r := Ok(());
  }

  /** Whether the token of a slot promises a complete framebuffer (of any defaultness). */
  predicate HoldsComplete(st: Driver, tgt: Target)
  {
    TokenOf(st, tgt).Some? && TokenOf(st, tgt).value.completeness == MarkComplete
  }

  /** `Active::clear`: only on a complete draw framebuffer; an empty mask makes no call. */
  method Clear(gl: GLHF, mask: AspectMask)
    requires gl.Valid() && HoldsComplete(gl.st, DrawTarget)
    modifies gl`calls
    ensures IsEmptyMask(mask) ==> gl.calls == old(gl.calls)
    ensures !IsEmptyMask(mask) ==> gl.calls == old(gl.calls) + [GLCall.Clear(MaskBits(mask))]
  {
    if IsEmptyMask(mask) {
      return;
    }
    gl.calls := gl.calls + [GLCall.Clear(MaskBits(mask))];
  }

  /** The filter argument of the blit. */
  function BlitFilter(f: Texture.Filter): (v: GLenum)
    ensures v == Texture.LINEAR <==> f == Texture.Linear
    ensures v == Texture.NEAREST <==> f == Texture.Nearest
  {
    match f
    case Linear => Texture.LINEAR
    case Nearest => Texture.NEAREST
  }

  /**
   * `Active::blit_from` (and `blit_to`, the same call seen from the read
   * side): both framebuffers complete; an empty mask makes no call;
   * otherwise one blit with both rectangles, the mask bits and the filter.
   */
  method BlitFrom(gl: GLHF, info: BlitInfo)
    requires gl.Valid() && HoldsComplete(gl.st, DrawTarget) && HoldsComplete(gl.st, ReadTarget)
    modifies gl`calls
    ensures IsEmptyMask(info.mask) ==> gl.calls == old(gl.calls)
    ensures !IsEmptyMask(info.mask) ==>
      gl.calls == old(gl.calls) + [BlitFramebuffer(info.read, info.write, MaskBits(info.mask), BlitFilter(info.filter))]
  {
    if IsEmptyMask(info.mask) {
      return;
    }
    gl.calls := gl.calls + [BlitFramebuffer(info.read, info.write, MaskBits(info.mask), BlitFilter(info.filter))];
  }

  /** `Active::blit_to`: forwards to `blit_from` of the draw token. */
  method BlitTo(gl: GLHF, info: BlitInfo)
    requires gl.Valid() && HoldsComplete(gl.st, DrawTarget) && HoldsComplete(gl.st, ReadTarget)
    modifies gl`calls
    ensures IsEmptyMask(info.mask) ==> gl.calls == old(gl.calls)
    ensures !IsEmptyMask(info.mask) ==>
      gl.calls == old(gl.calls) + [BlitFramebuffer(info.read, info.write, MaskBits(info.mask), BlitFilter(info.filter))]
  {
    BlitFrom(gl, info);
  }

  /**
   * `Active::copy_subimage_to`: from a complete read framebuffer into the
   * 2D texture slot. Level, destination offset and size must each fit a
   * `GLint`/`GLsizei`, converted in that order; the source offset is passed
   * as given.
   */
  method CopySubimageTo(gl: GLHF, level: u32, source: (i32, i32), destination: (u32, u32), size: (u32, u32))
    returns (r: Result<(), Panic>)
    requires gl.Valid() && HoldsComplete(gl.st, ReadTarget) && Texture.D2 in gl.st.textureToken
    modifies gl`calls
    ensures r.Err? <==> level > GLINT_MAX || destination.0 > GLINT_MAX || destination.1 > GLINT_MAX
                         || size.0 > GLINT_MAX || size.1 > GLINT_MAX
    ensures r.Err? ==> r.error == ConversionOverflow && gl.calls == old(gl.calls)
    ensures r.Ok? ==>
      gl.calls == old(gl.calls) + [CopyTexSubImage2D(level, destination.0, destination.1, source.0, source.1, size.0, size.1)]
  {
    if level > GLINT_MAX || destination.0 > GLINT_MAX || destination.1 > GLINT_MAX || size.0 > GLINT_MAX || size.1 > GLINT_MAX {
      return Err(ConversionOverflow);
    }
    gl.calls := gl.calls + [CopyTexSubImage2D(level, destination.0, destination.1, source.0, source.1, size.0, size.1)];
    r := Ok(());
  }

  /** `Active::copy_image_to`: as `copy_subimage_to`, replacing the whole level with a new internal format. */
  method CopyImageTo(gl: GLHF, level: u32, format: Texture.InternalFormat, source: (i32, i32), size: (u32, u32))
    returns (r: Result<(), Panic>)
    requires gl.Valid() && HoldsComplete(gl.st, ReadTarget) && Texture.D2 in gl.st.textureToken
    modifies gl`calls
    ensures r.Err? <==> level > GLINT_MAX || size.0 > GLINT_MAX || size.1 > GLINT_MAX
    ensures r.Err? ==> r.error == ConversionOverflow && gl.calls == old(gl.calls)
    ensures r.Ok? ==> gl.calls == old(gl.calls) + [CopyTexImage2D(level, format, source.0, source.1, size.0, size.1)]
  {
    if level > GLINT_MAX || size.0 > GLINT_MAX || size.1 > GLINT_MAX {
      return Err(ConversionOverflow);
    }
    gl.calls := gl.calls + [CopyTexImage2D(level, format, source.0, source.1, size.0, size.1)];
    r := Ok(());
  }

  /**
   * `Active::draw_buffers` of a user framebuffer (NotDefault, any
   * completeness): a repeated entry is a panic before the call, and so is a
   * slice longer than `GLsizei::MAX`; otherwise one call with the entries'
   * GL values in order.
   */
  method DrawBuffers(gl: GLHF, buffers: seq<Framebuffer.Buffer>) returns (r: Result<(), Panic>)
    requires gl.Valid() && TokenOf(gl.st, DrawTarget).Some? && TokenOf(gl.st, DrawTarget).value.defaultness == NotDefault
    modifies gl`calls
    ensures !IsAllUnique(buffers) ==> r == Err(DuplicateBuffers)
    ensures r.Ok? <==> IsAllUnique(buffers) && |buffers| <= GLINT_MAX
    ensures r.Err? ==> gl.calls == old(gl.calls)
    ensures r.Ok? ==> gl.calls == old(gl.calls) + [GLCall.DrawBuffers(BufferValues(buffers))]
  {
    if !IsAllUnique(buffers) {
      return Err(DuplicateBuffers);
    }
    var n := Narrow(|buffers|, GLINT_MAX);
    if n.Err? {
      return Err(n.error);
    }
    gl.calls := gl.calls + [GLCall.DrawBuffers(BufferValues(buffers))];
    r := Ok(());
  }

  /** `Active::draw_buffers` of the default framebuffer (IsDefault, Complete): the same checks over `DefaultBuffer`. */
  method DrawBuffersDefault(gl: GLHF, buffers: seq<DefaultBuffer>) returns (r: Result<(), Panic>)
    requires gl.Valid() && TokenOf(gl.st, DrawTarget) == Some(FbToken(IsDefault, MarkComplete))
    modifies gl`calls
    ensures !IsAllUnique(buffers) ==> r == Err(DuplicateBuffers)
    ensures r.Ok? <==> IsAllUnique(buffers) && |buffers| <= GLINT_MAX
    ensures r.Err? ==> gl.calls == old(gl.calls)
    ensures r.Ok? ==> gl.calls == old(gl.calls) + [GLCall.DrawBuffers(DefaultBufferValues(buffers))]
  {
    if !IsAllUnique(buffers) {
      return Err(DuplicateBuffers);
    }
    var n := Narrow(|buffers|, GLINT_MAX);
    if n.Err? {
      return Err(n.error);
    }
    gl.calls := gl.calls + [GLCall.DrawBuffers(DefaultBufferValues(buffers))];
    r := Ok(());
  }

  /** `Active::read_buffer` of a user read framebuffer: one call. */
  method ReadBuffer(gl: GLHF, b: Framebuffer.Buffer)
    requires gl.Valid() && TokenOf(gl.st, ReadTarget).Some? && TokenOf(gl.st, ReadTarget).value.defaultness == NotDefault
    modifies gl`calls
    ensures gl.calls == old(gl.calls) + [GLCall.ReadBuffer(BufferAsGl(b))]
  {
    gl.calls := gl.calls + [GLCall.ReadBuffer(BufferAsGl(b))];
  }

  /**
   * `Active::read_buffer` taking a `DefaultBuffer`: declared on the token of
   * the default *draw* framebuffer, so that is the token it needs.
   */
  method ReadBufferDefault(gl: GLHF, b: DefaultBuffer)
    requires gl.Valid() && TokenOf(gl.st, DrawTarget) == Some(FbToken(IsDefault, MarkComplete))
    modifies gl`calls
    ensures gl.calls == old(gl.calls) + [GLCall.ReadBuffer(DefaultBufferAsGl(b))]
  {
    gl.calls := gl.calls + [GLCall.ReadBuffer(DefaultBufferAsGl(b))];
  }
}
