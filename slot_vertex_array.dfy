/**
 * The vertex array slot (slot/vertex_array.rs): binding vertex array
 * objects, describing where a vertex attribute is fetched from, enabling
 * and disabling attributes, and deleting arrays.
 *
 * The state an attribute call leaves behind is kept per array and index in
 * `attributes` (source buffer and layout) and `enabled`: the description
 * belongs to the bound array, and the source is the array buffer bound at
 * the time of the call, not at the time of a draw.
 */
module SlotVertexArray {
  import opened GLTypes
  import opened VertexArray
  import opened Glhf
  import Buffer

  /** The `GLsizei` stride handed to the driver: 0 (tightly packed) when absent. */
  function StrideValue(stride: Option<nat>): (r: Result<nat, Panic>)
    ensures stride.None? ==> r == Ok(0)
    ensures stride.Some? ==> (r.Ok? <==> stride.value <= GLINT_MAX)
    ensures stride.Some? && r.Ok? ==> r.value == stride.value
    ensures r.Err? ==> r.error == ConversionOverflow
  {
    match stride
    case None => Ok(0)
    case Some(s) => Narrow(s, GLINT_MAX)
  }

  /**
   * The one pointer call of `attribute`: integer attributes go through
   * `glVertexAttribIPointer`, every other kind through
   * `glVertexAttribPointer` with normalization switched on exactly for the
   * normalized kinds. Both carry the index, component count, GL component
   * type, stride and offset unchanged.
   */
  function PointerCall(index: u32, a: Attribute, stride: nat): (c: GLCall)
    ensures c.VertexAttribIPointer? || c.VertexAttribPointer?
    ensures c.VertexAttribIPointer? <==> IsIntegerPath(a.ty)
    ensures c.VertexAttribPointer? ==> (c.normalized <==> Normalizes(a.ty))
    ensures c.index == index && c.components == ComponentCount(a.components)
    ensures c.componentType == ComponentType(a.ty) && c.stride == stride && c.offset == a.offset
  {
    var size := ComponentCount(a.components);
    match a.ty
    case Integer(t) => VertexAttribIPointer(index, size, IntegerAsGl(t), stride, a.offset)
    case Float(t) => VertexAttribPointer(index, size, FloatingAsGl(t), false, stride, a.offset)
    case PackedScaled(t) => VertexAttribPointer(index, size, PackedAsGl(t), false, stride, a.offset)
    case Scaled(t) => VertexAttribPointer(index, size, IntegerAsGl(t), false, stride, a.offset)
    case Normalized(t) => VertexAttribPointer(index, size, IntegerAsGl(t), true, stride, a.offset)
    case PackedNormalized(t) => VertexAttribPointer(index, size, PackedAsGl(t), true, stride, a.offset)
  }

  /** The enable state after switching attribute `key` on or off: that attribute changes, no other. */
  function SetEnabled(enabled: set<(Name, u32)>, key: (Name, u32), on: bool): (r: set<(Name, u32)>)
    ensures key in r <==> on
    ensures forall k :: k != key ==> (k in r <==> k in enabled)
  {
    if on then enabled + {key} else enabled - {key}
  }

  /** The call that switches one attribute on or off. */
  function EnableCall(index: u32, on: bool): (c: GLCall)
    ensures c.EnableVertexAttribArray? <==> on
    ensures c.EnableVertexAttribArray? || c.DisableVertexAttribArray?
    ensures c.index == index
  {
    if on then EnableVertexAttribArray(index) else DisableVertexAttribArray(index)
  }

  /** The calls of the optional enable step of `attribute`: none when `enable` is `None`. */
  function EnableCalls(index: u32, enable: Option<bool>): (cs: seq<GLCall>)
    ensures enable.None? ==> cs == []
    ensures enable.Some? ==> cs == [EnableCall(index, enable.value)]
  {
    match enable
    case None => []
    case Some(on) => [EnableCall(index, on)]
  }

  /** The enable state after the optional enable step: unchanged when `enable` is `None`. */
  function EnabledAfter(enabled: set<(Name, u32)>, key: (Name, u32), enable: Option<bool>): (r: set<(Name, u32)>)
    ensures enable.None? ==> r == enabled
    ensures enable.Some? ==> r == SetEnabled(enabled, key, enable.value)
  {
    match enable
    case None => enabled
    case Some(on) => SetEnabled(enabled, key, on)
  }

  /** `Active<NotDefault>::set_attribute_enabled`. */
  method SetAttributeEnabled(gl: GLHF, index: u32, on: bool)
    requires gl.Valid() && gl.st.vertexArrayToken == Some(NotDefault)
    modifies gl
    ensures gl.Valid()
    ensures gl.st == old(gl.st).(enabled := SetEnabled(old(gl.st).enabled, (old(gl.st).vertexArray, index), on))
    ensures gl.calls == old(gl.calls) + [EnableCall(index, on)]
  {
    gl.st := gl.st.(enabled := SetEnabled(gl.st.enabled, (gl.st.vertexArray, index), on));
    gl.calls := gl.calls + [EnableCall(index, on)];
  }

  /**
   * `Active<NotDefault>::attribute`: needs a user array bound and a user
   * buffer bound to the array target. The stride is converted first, then
   * the offset must be a multiple of the alignment of the component type;
   * either failure panics before any call. Otherwise the pointer call
   * records the array buffer and the layout for this index of the bound
   * array, and the optional enable step follows.
   */
  method SetAttribute(gl: GLHF, index: u32, attribute: Attribute, enable: Option<bool>) returns (r: Result<(), Panic>)
    requires gl.Valid() && gl.st.vertexArrayToken == Some(NotDefault)
    requires HasBufferToken(gl.st, Buffer.Array, NotDefault)
    requires WellFormedAttribute(attribute)
    modifies gl
    ensures gl.Valid()
    ensures r.Err? <==> StrideValue(attribute.stride).Err? || attribute.offset % AlignOf(attribute.ty) != 0
    ensures r.Err? ==> gl.st == old(gl.st) && gl.calls == old(gl.calls)
    ensures r.Err? ==> r.error == (if StrideValue(attribute.stride).Err? then ConversionOverflow else MisalignedOffset)
    ensures r.Ok? ==> var key := (old(gl.st).vertexArray, index);
      && gl.st == old(gl.st).(attributes := old(gl.st).attributes[key := AttribSetup(BoundBuffer(old(gl.st), Buffer.Array), attribute)],
                              enabled := EnabledAfter(old(gl.st).enabled, key, enable))
      && gl.calls == old(gl.calls) + [PointerCall(index, attribute, StrideValue(attribute.stride).value)] + EnableCalls(index, enable)
  {
    var stride := StrideValue(attribute.stride);
    if stride.Err? {
      return Err(stride.error);
    }
    if attribute.offset % AlignOf(attribute.ty) != 0 {
      return Err(MisalignedOffset);
    }
    var key := (gl.st.vertexArray, index);
    gl.st := gl.st.(attributes := gl.st.attributes[key := AttribSetup(gl.st.buffer[Buffer.Array], attribute)]);
    gl.calls := gl.calls + [PointerCall(index, attribute, stride.value)];
    if enable.Some? {
      SetAttributeEnabled(gl, index, enable.value);
    }
    r := Ok(());
  }

  /**
   * An attribute whose setup succeeded points into a real buffer: the
   * recorded source is the user buffer bound to the array target, which
   * has a datastore, and its offset is aligned for its component type.
   */
  lemma {:induction false} AttributeSourceIsRealBuffer(st: Driver, index: u32, a: Attribute)
    requires WellFormed(st) && HasBufferToken(st, Buffer.Array, NotDefault)
    requires a.offset % AlignOf(a.ty) == 0
    ensures var setup := AttribSetup(BoundBuffer(st, Buffer.Array), a);
      setup.source != 0 && setup.source in st.stores && setup.attribute.offset % AlignOf(setup.attribute.ty) == 0
  {
    NotDefaultBufferHasStore(st, Buffer.Array);
  }

  /** `Slot::bind`: a user array; the token is NotDefault. */
  method Bind(gl: GLHF, vao: VertexArray)
    requires gl.Valid()
    modifies gl
    ensures gl.Valid()
    ensures gl.st == old(gl.st).(vertexArray := vao.name, vertexArrayToken := Some(NotDefault))
    ensures gl.calls == old(gl.calls) + [BindVertexArray(vao.name)]
  {
    gl.st := gl.st.(vertexArray := vao.name, vertexArrayToken := Some(NotDefault));
    gl.calls := gl.calls + [BindVertexArray(vao.name)];
  }

  /** `Slot::unbind`: binds array 0; the token is IsDefault. */
  method Unbind(gl: GLHF)
    requires gl.Valid()
    modifies gl
    ensures gl.Valid()
    ensures gl.st == old(gl.st).(vertexArray := 0, vertexArrayToken := Some(IsDefault))
    ensures gl.calls == old(gl.calls) + [BindVertexArray(0)]
  {
    gl.st := gl.st.(vertexArray := 0, vertexArrayToken := Some(IsDefault));
    gl.calls := gl.calls + [BindVertexArray(0)];
  }

  /** `Slot::inherit` and `Slot::inherit_mut`: an Unknown token, without a call. */
  method Inherit(gl: GLHF)
    requires gl.Valid()
    modifies gl
    ensures gl.Valid()
    ensures gl.st == old(gl.st).(vertexArrayToken := Some(Unknown))
    ensures gl.calls == old(gl.calls)
  {
    gl.st := gl.st.(vertexArrayToken := Some(Unknown));
  }

  /**
   * `Slot::delete`: one `glDeleteVertexArrays`; a deleted bound array
   * leaves the slot bound to 0, the attribute state of the deleted arrays
   * goes with them, and the slot's token ends.
   */
  method Delete(gl: GLHF, arrays: seq<VertexArray>)
    requires gl.Valid() && |arrays| <= GLINT_MAX
    modifies gl
    ensures gl.Valid()
    ensures var deleted := NameSet(seq(|arrays|, i requires 0 <= i < |arrays| => arrays[i].name));
      && gl.calls == old(gl.calls) + [GLCall.Delete(VertexArrayObjects, seq(|arrays|, i requires 0 <= i < |arrays| => arrays[i].name as Name))]
      && gl.st == old(gl.st).(vertexArray := Unbound(old(gl.st).vertexArray, deleted),
                              attributes := (map k | k in old(gl.st).attributes && k.0 !in deleted :: old(gl.st).attributes[k]),
                              enabled := (set k | k in old(gl.st).enabled && k.0 !in deleted),
                              vertexArrayToken := None)
  {
    var names := seq(|arrays|, i requires 0 <= i < |arrays| => arrays[i].name as Name);
    DeleteWith(gl, VertexArrayObjects, names);
    var deleted := NameSet(seq(|arrays|, i requires 0 <= i < |arrays| => arrays[i].name));
    gl.st := gl.st.(vertexArray := Unbound(gl.st.vertexArray, deleted),
                    attributes := (map k | k in gl.st.attributes && k.0 !in deleted :: gl.st.attributes[k]),
                    enabled := (set k | k in gl.st.enabled && k.0 !in deleted),
                    vertexArrayToken := None);
  }
}
