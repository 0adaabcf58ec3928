/**
 * The renderbuffer slot (slot/renderbuffer.rs): binding renderbuffers,
 * defining their storage and deleting them.
 */
module SlotRenderbuffer {
  import opened GLTypes
  import opened Renderbuffer
  import opened Glhf

  /** The largest sample count a `NonZero<u8>` can hold. */
  const U8_MAX: nat := 0xFF

  /**
   * `Active<NotDefault>::storage`: width then height (both non-zero) are
   * converted to `GLsizei`; the first that does not fit panics and no call
   * is made.
   */
  method Storage(gl: GLHF, format: InternalFormat, width: u32, height: u32) returns (r: Result<(), Panic>)
    requires gl.Valid() && gl.st.renderbufferToken == Some(NotDefault)
    requires width != 0 && height != 0
    modifies gl`calls
    ensures r.Err? <==> width > GLINT_MAX || height > GLINT_MAX
    ensures r.Err? ==> r.error == ConversionOverflow && gl.calls == old(gl.calls)
    ensures r.Ok? ==> gl.calls == old(gl.calls) + [RenderbufferStorage(format, width, height)]
  {
    var w := Narrow(width, GLINT_MAX);
    if w.Err? { return Err(w.error); }
    var h := Narrow(height, GLINT_MAX);
    if h.Err? { return Err(h.error); }
    gl.calls := gl.calls + [RenderbufferStorage(format, w.value, h.value)];
    r := Ok(());
  }

  /**
   * `Active<NotDefault>::storage_multisample`: the sample count (1 to 255)
   * always fits a `GLsizei`; width and height are converted as for
   * `storage`.
   */
  method StorageMultisample(gl: GLHF, format: InternalFormatMultisample, width: u32, height: u32, samples: nat) returns (r: Result<(), Panic>)
    requires gl.Valid() && gl.st.renderbufferToken == Some(NotDefault)
    requires width != 0 && height != 0 && 1 <= samples <= U8_MAX
    modifies gl`calls
    ensures r.Err? <==> width > GLINT_MAX || height > GLINT_MAX
    ensures r.Err? ==> r.error == ConversionOverflow && gl.calls == old(gl.calls)
    ensures r.Ok? ==> gl.calls == old(gl.calls) + [RenderbufferStorageMultisample(samples, format, width, height)]
  {
    var w := Narrow(width, GLINT_MAX);
    if w.Err? { return Err(w.error); }
    var h := Narrow(height, GLINT_MAX);
    if h.Err? { return Err(h.error); }
    gl.calls := gl.calls + [RenderbufferStorageMultisample(samples, format, w.value, h.value)];
    r := Ok(());
  }

  /** `Slot::bind`: a user renderbuffer; the token is NotDefault. */
  method Bind(gl: GLHF, buffer: Renderbuffer)
    requires gl.Valid()
    modifies gl
    ensures gl.Valid()
    ensures gl.st == old(gl.st).(renderbuffer := buffer.name, renderbufferToken := Some(NotDefault))
    ensures gl.calls == old(gl.calls) + [BindRenderbuffer(buffer.name)]
  {
    gl.st := gl.st.(renderbuffer := buffer.name, renderbufferToken := Some(NotDefault));
    gl.calls := gl.calls + [BindRenderbuffer(buffer.name)];
  }

  /** `Slot::unbind`: binds renderbuffer 0; the token is IsDefault. */
  method Unbind(gl: GLHF)
    requires gl.Valid()
    modifies gl
    ensures gl.Valid()
    ensures gl.st == old(gl.st).(renderbuffer := 0, renderbufferToken := Some(IsDefault))
    ensures gl.calls == old(gl.calls) + [BindRenderbuffer(0)]
  {
    gl.st := gl.st.(renderbuffer := 0, renderbufferToken := Some(IsDefault));
    gl.calls := gl.calls + [BindRenderbuffer(0)];
  }

  /** `Slot::inherit` and `Slot::inherit_mut`: an Unknown token, without a call. */
  method Inherit(gl: GLHF)
    requires gl.Valid()
    modifies gl
    ensures gl.Valid()
    ensures gl.st == old(gl.st).(renderbufferToken := Some(Unknown))
    ensures gl.calls == old(gl.calls)
  {
    gl.st := gl.st.(renderbufferToken := Some(Unknown));
  }

  /**
   * `Slot::delete`: one `glDeleteRenderbuffers`; a deleted bound
   * renderbuffer leaves the slot bound to 0, and the slot's token ends.
   */
  method Delete(gl: GLHF, buffers: seq<Renderbuffer>)
    requires gl.Valid() && |buffers| <= GLINT_MAX
    modifies gl
    ensures gl.Valid()
    ensures var deleted := NameSet(seq(|buffers|, i requires 0 <= i < |buffers| => buffers[i].name));
      && gl.calls == old(gl.calls) + [GLCall.Delete(RenderbufferObjects, seq(|buffers|, i requires 0 <= i < |buffers| => buffers[i].name as Name))]
      && gl.st == old(gl.st).(renderbuffer := Unbound(old(gl.st).renderbuffer, deleted), renderbufferToken := None)
  {
    var names := seq(|buffers|, i requires 0 <= i < |buffers| => buffers[i].name as Name);
    DeleteWith(gl, RenderbufferObjects, names);
    var deleted := NameSet(seq(|buffers|, i requires 0 <= i < |buffers| => buffers[i].name));
    gl.st := gl.st.(renderbuffer := Unbound(gl.st.renderbuffer, deleted), renderbufferToken := None);
  }
}
