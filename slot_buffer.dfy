/**
 * Binding and manipulating buffers (slot/buffer.rs): the eight buffer
 * slots, the datastore operations available under a NotDefault token, the
 * conversion of a Rust range into a mapped byte range, and the mapping
 * guard that must be unmapped exactly once.
 */
module SlotBuffer {
  import opened GLTypes
  import opened Buffer
  import opened Glhf

  /** A buffer object is created, with an empty datastore of the initial usage, when first bound. */
  function WithStore(stores: map<Name, BufferStore>, name: NonZeroName): (r: map<Name, BufferStore>)
    ensures name in r && r.Keys == stores.Keys + {name}
    ensures name in stores ==> r == stores
    ensures name !in stores ==> r[name] == BufferStore(0, INITIAL_USAGE)
  {
    if name in stores then stores else stores[name := BufferStore(0, INITIAL_USAGE)]
  }

  /** Binding a user buffer keeps the invariant: the new token is truthful and the name has a datastore. */
  lemma BindKeepsWellFormed(st: Driver, t: BufferTarget, name: NonZeroName)
    requires WellFormed(st) && t !in st.mappings
    ensures WellFormed(st.(buffer := st.buffer[t := name],
                           bufferToken := st.bufferToken[t := NotDefault],
                           stores := WithStore(st.stores, name)))
  {
  }

  /** Binding buffer 0 keeps the invariant: an IsDefault token is truthful about name 0. */
  lemma UnbindKeepsWellFormed(st: Driver, t: BufferTarget)
    requires WellFormed(st) && t !in st.mappings
    ensures WellFormed(st.(buffer := st.buffer[t := 0], bufferToken := st.bufferToken[t := IsDefault]))
  {
  }

  /**
   * `Slot::bind`: binds the buffer's name to the target; the token of that
   * slot becomes NotDefault; one `BindBuffer` call; nothing else changes.
   */
  method Bind(gl: GLHF, t: BufferTarget, b: Buffer)
    requires gl.Valid() && t !in gl.st.mappings
    modifies gl
    ensures gl.Valid()
    ensures BoundBuffer(gl.st, t) == b.name && HasBufferToken(gl.st, t, NotDefault)
    ensures gl.st == old(gl.st).(buffer := old(gl.st).buffer[t := b.name],
                                 bufferToken := old(gl.st).bufferToken[t := NotDefault],
                                 stores := WithStore(old(gl.st).stores, b.name))
    ensures gl.calls == old(gl.calls) + [BindBuffer(t, b.name)]
  {
    BindKeepsWellFormed(gl.st, t, b.name);
    gl.st := gl.st.(buffer := gl.st.buffer[t := b.name],
                    bufferToken := gl.st.bufferToken[t := NotDefault],
                    stores := WithStore(gl.st.stores, b.name));
    gl.calls := gl.calls + [BindBuffer(t, b.name)];
  }

  /** `Slot::unbind`: binds 0; the token becomes IsDefault; one `BindBuffer` call. */
  method Unbind(gl: GLHF, t: BufferTarget)
    requires gl.Valid() && t !in gl.st.mappings
    modifies gl
    ensures gl.Valid()
    ensures BoundBuffer(gl.st, t) == 0 && HasBufferToken(gl.st, t, IsDefault)
    ensures gl.st == old(gl.st).(buffer := old(gl.st).buffer[t := 0], bufferToken := old(gl.st).bufferToken[t := IsDefault])
    ensures gl.calls == old(gl.calls) + [BindBuffer(t, 0)]
  {
    UnbindKeepsWellFormed(gl.st, t);
    gl.st := gl.st.(buffer := gl.st.buffer[t := 0], bufferToken := gl.st.bufferToken[t := IsDefault]);
    gl.calls := gl.calls + [BindBuffer(t, 0)];
  }

  /** `Slot::inherit` / `inherit_mut`: no driver call; the token is Unknown, which any binding admits. */
  method Inherit(gl: GLHF, t: BufferTarget)
    requires gl.Valid() && t !in gl.st.mappings
    modifies gl
    ensures gl.Valid()
    ensures HasBufferToken(gl.st, t, Unknown)
    ensures gl.st == old(gl.st).(bufferToken := old(gl.st).bufferToken[t := Unknown])
    ensures gl.calls == old(gl.calls)
  {
    gl.st := gl.st.(bufferToken := gl.st.bufferToken[t := Unknown]);
  }

  lemma UsageIsKnown(f: Frequency, a: Access)
    ensures UsageAsGl(f, a) in USAGES
  {
  }

  /**
   * `Active::data` (and `data_uninit`, which differs only in leaving the
   * contents undefined): the datastore of the bound buffer is replaced by
   * one of `len` bytes with the usage of `(f, a)`. A length that does not
   * fit a `GLsizeiptr` is a panic before any call.
   */
  method Data(gl: GLHF, t: BufferTarget, len: usize, f: Frequency, a: Access) returns (r: Result<(), Panic>)
    requires gl.Valid() && HasBufferToken(gl.st, t, NotDefault) && t !in gl.st.mappings
    modifies gl
    ensures gl.Valid()
    ensures r.Err? <==> len > ISIZE_MAX
    ensures r.Err? ==> r.error == ConversionOverflow && gl.st == old(gl.st) && gl.calls == old(gl.calls)
    ensures r.Ok? ==> gl.st == old(gl.st).(stores := old(gl.st).stores[BoundBuffer(old(gl.st), t) := BufferStore(len, UsageAsGl(f, a))])
    ensures r.Ok? ==> gl.calls == old(gl.calls) + [BufferData(t, len, UsageAsGl(f, a))]
  {
    var size := Narrow(len, ISIZE_MAX);
    if size.Err? {
      return Err(size.error);
    }
    UsageIsKnown(f, a);
    gl.st := gl.st.(stores := gl.st.stores[gl.st.buffer[t] := BufferStore(len, UsageAsGl(f, a))]);
    gl.calls := gl.calls + [BufferData(t, len, UsageAsGl(f, a))];
    r := Ok(());
  }

  /** `Active::data_uninit`: the same datastore replacement as `data`, without initial contents. */
  method DataUninit(gl: GLHF, t: BufferTarget, len: usize, f: Frequency, a: Access) returns (r: Result<(), Panic>)
    requires gl.Valid() && HasBufferToken(gl.st, t, NotDefault) && t !in gl.st.mappings
    modifies gl
    ensures gl.Valid()
    ensures r.Err? <==> len > ISIZE_MAX
    ensures r.Err? ==> r.error == ConversionOverflow && gl.st == old(gl.st) && gl.calls == old(gl.calls)
    ensures r.Ok? ==> gl.st == old(gl.st).(stores := old(gl.st).stores[BoundBuffer(old(gl.st), t) := BufferStore(len, UsageAsGl(f, a))])
    ensures r.Ok? ==> gl.calls == old(gl.calls) + [BufferData(t, len, UsageAsGl(f, a))]
  {
    r := Data(gl, t, len, f, a);
  }

  /**
   * `Active::sub_data`: overwrites `len` bytes at `offset`. The datastore
   * keeps its size and usage (contents are not modelled); offsets or lengths
   * beyond `isize::MAX` panic before the call.
   */
  method SubData(gl: GLHF, t: BufferTarget, offset: usize, len: usize) returns (r: Result<(), Panic>)
    requires gl.Valid() && HasBufferToken(gl.st, t, NotDefault) && t !in gl.st.mappings
    modifies gl`calls
    ensures r.Err? <==> offset > ISIZE_MAX || len > ISIZE_MAX
    ensures r.Err? ==> r.error == ConversionOverflow && gl.calls == old(gl.calls)
    ensures r.Ok? ==> gl.calls == old(gl.calls) + [BufferSubData(t, offset, len)]
  {
    NotDefaultBufferHasStore(gl.st, t);
    var o := Narrow(offset, ISIZE_MAX);
    if o.Err? {
      return Err(o.error);
    }
    var n := Narrow(len, ISIZE_MAX);
    if n.Err? {
      return Err(n.error);
    }
    gl.calls := gl.calls + [BufferSubData(t, offset, len)];
    r := Ok(());
  }

  /**
   * `Active::copy_from`: copies `len` bytes from the buffer bound to `src`
   * into the one bound to `dst`. Copying nothing makes no call; arguments
   * beyond `isize::MAX` panic before the call; otherwise exactly one
   * `CopyBufferSubData` reading `src` and writing `dst`.
   */
  method CopyFrom(gl: GLHF, dst: BufferTarget, src: BufferTarget, readOffset: usize, writeOffset: usize, len: usize)
    returns (r: Result<(), Panic>)
    requires gl.Valid() && HasBufferToken(gl.st, dst, NotDefault) && HasBufferToken(gl.st, src, NotDefault)
    requires dst !in gl.st.mappings && src !in gl.st.mappings
    modifies gl`calls
    ensures len == 0 ==> r.Ok? && gl.calls == old(gl.calls)
    ensures r.Err? <==> len != 0 && (readOffset > ISIZE_MAX || writeOffset > ISIZE_MAX || len > ISIZE_MAX)
    ensures r.Err? ==> r.error == ConversionOverflow && gl.calls == old(gl.calls)
    ensures r.Ok? && len != 0 ==> gl.calls == old(gl.calls) + [CopyBufferSubData(src, dst, readOffset, writeOffset, len)]
  {
    if len == 0 {
      return Ok(());
    }
    var ro := Narrow(readOffset, ISIZE_MAX);
    if ro.Err? {
      return Err(ro.error);
    }
    var wo := Narrow(writeOffset, ISIZE_MAX);
    if wo.Err? {
      return Err(wo.error);
    }
    var n := Narrow(len, ISIZE_MAX);
    if n.Err? {
      return Err(n.error);
    }
    gl.calls := gl.calls + [CopyBufferSubData(src, dst, readOffset, writeOffset, len)];
    r := Ok(());
  }

  /** `Active::copy_self`: a copy within one buffer, naming the same target as source and destination. */
  method CopySelf(gl: GLHF, t: BufferTarget, readOffset: usize, writeOffset: usize, len: usize) returns (r: Result<(), Panic>)
    requires gl.Valid() && HasBufferToken(gl.st, t, NotDefault) && t !in gl.st.mappings
    modifies gl`calls
    ensures len == 0 ==> r.Ok? && gl.calls == old(gl.calls)
    ensures r.Err? <==> len != 0 && (readOffset > ISIZE_MAX || writeOffset > ISIZE_MAX || len > ISIZE_MAX)
    ensures r.Err? ==> r.error == ConversionOverflow && gl.calls == old(gl.calls)
    ensures r.Ok? && len != 0 ==> gl.calls == old(gl.calls) + [CopyBufferSubData(t, t, readOffset, writeOffset, len)]
  {
    r := CopyFrom(gl, t, t, readOffset, writeOffset, len);
  }

  /** `Active::copy_to`: the same copy as `copy_from`, with `self` as the source. */
  method CopyTo(gl: GLHF, src: BufferTarget, dst: BufferTarget, readOffset: usize, writeOffset: usize, len: usize)
    returns (r: Result<(), Panic>)
    requires gl.Valid() && HasBufferToken(gl.st, dst, NotDefault) && HasBufferToken(gl.st, src, NotDefault)
    requires dst !in gl.st.mappings && src !in gl.st.mappings
    modifies gl`calls
    ensures len == 0 ==> r.Ok? && gl.calls == old(gl.calls)
    ensures r.Err? <==> len != 0 && (readOffset > ISIZE_MAX || writeOffset > ISIZE_MAX || len > ISIZE_MAX)
    ensures r.Err? ==> r.error == ConversionOverflow && gl.calls == old(gl.calls)
    ensures r.Ok? && len != 0 ==> gl.calls == old(gl.calls) + [CopyBufferSubData(src, dst, readOffset, writeOffset, len)]
  {
    r := CopyFrom(gl, dst, src, readOffset, writeOffset, len);
  }

  /** One end of a Rust range (`core::ops::Bound<usize>`). */
  datatype RangeBound = Unbounded | Included(x: usize) | Excluded(x: usize)

  /** The first mapped byte, inclusive: `Excluded(x)` is `x.checked_add(1).unwrap()`. */
  function MapStart(b: RangeBound): Result<nat, Panic>
  {
    match b
    case Unbounded => Ok(0)
    case Included(x) => Ok(x)
    case Excluded(x) => CheckedAdd(x, 1, USIZE_MAX)
  }

  /** The end of the mapped bytes, exclusive; an unbounded end is the current datastore length. */
  function MapEnd(b: RangeBound, len: usize): Result<nat, Panic>
  {
    match b
    case Unbounded => Ok(len)
    case Included(x) => CheckedAdd(x, 1, USIZE_MAX)
    case Excluded(x) => Ok(x)
  }

  /**
   * The byte range `map` asks for, as `(offset, length)`: start, then end,
   * each panicking on overflow, then `end.checked_sub(start).expect(..)`.
   */
  function MapRange(start: RangeBound, end: RangeBound, len: usize): Result<(nat, nat), Panic>
  {
    match MapStart(start)
    case Err(e) => Err(e)
    case Ok(left) =>
      match MapEnd(end, len)
      case Err(e) => Err(e)
      case Ok(right) => if right < left then Err(RangeReversed) else Ok((left, right - left))
  }

  /** Whether byte `i` of a datastore of length `len` lies in the Rust range `start..end`. */
  predicate InRange(start: RangeBound, end: RangeBound, len: usize, i: nat)
  {
    (match start
     case Unbounded => true
     case Included(x) => x <= i
     case Excluded(x) => x < i)
    &&
    (match end
     case Unbounded => i < len
     case Included(x) => i <= x
     case Excluded(x) => i < x)
  }

  /**
   * The mapped byte range is exactly the set of positions the Rust range
   * contains: byte `i` is mapped iff the range contains it.
   */
  lemma MapRangeIsTheRange(start: RangeBound, end: RangeBound, len: usize, i: nat)
    requires MapRange(start, end, len).Ok?
    ensures var (offset, length) := MapRange(start, end, len).value;
      offset <= i < offset + length <==> InRange(start, end, len, i)
  {
  }

  /**
   * `map` panics only for an end bound before the start bound, or an
   * inclusive/exclusive bound at `usize::MAX` that cannot be stepped past;
   * an unbounded range maps the whole datastore.
   */
  lemma MapRangePanics(start: RangeBound, end: RangeBound, len: usize)
    ensures MapRange(start, end, len).Err? <==>
      (start.Excluded? && start.x == USIZE_MAX) || (end.Included? && end.x == USIZE_MAX)
      || (MapStart(start).Ok? && MapEnd(end, len).Ok? && MapEnd(end, len).value < MapStart(start).value)
    ensures MapRange(Unbounded, Unbounded, len) == Ok((0, len as nat))
    ensures MapRange(Included(2), Excluded(2), len) == Ok((2, 0))
    ensures MapRange(Included(3), Excluded(2), len) == Err(RangeReversed)
  {
  }

  /** The guard of a live mapping: the target it borrows, its access mode and the byte length it views. */
  datatype MapGuard = MapGuard(target: BufferTarget, access: MapAccess, len: nat)

  /** `DerefMut` exists only for read-write guards. */
  predicate Writable(g: MapGuard)
  {
    g.access == ReadWrite
  }

  /** A guard may be written through exactly when its mapping asked for write access. */
  lemma WritableIffWriteAccess(g: MapGuard)
    ensures Writable(g) <==> MapFlags(g.access) & MAP_WRITE_BIT != 0
    ensures MapFlags(g.access) & MAP_READ_BIT != 0
  {
  }

  /**
   * `Active::map_impl`: the byte range is converted to `GLintptr` and
   * `GLsizeiptr`, then one `MapBufferRange` call is made with the flags of
   * the access mode. The driver answers null when it cannot map
   * (`driverNull`), and always for a range past the end of the datastore;
   * null is a panic. On success the mapping is recorded and the guard views
   * exactly `length` bytes.
   */
  method MapImpl(gl: GLHF, t: BufferTarget, access: MapAccess, offset: nat, length: nat, driverNull: bool)
    returns (r: Result<MapGuard, Panic>)
    requires gl.Valid() && HasBufferToken(gl.st, t, NotDefault) && t !in gl.st.mappings
    modifies gl
    ensures gl.Valid()
    ensures offset > ISIZE_MAX || length > ISIZE_MAX ==>
      r == Err(ConversionOverflow) && gl.st == old(gl.st) && gl.calls == old(gl.calls)
    ensures offset <= ISIZE_MAX && length <= ISIZE_MAX ==>
      gl.calls == old(gl.calls) + [MapBufferRange(t, offset, length, MapFlags(access))]
    ensures offset <= ISIZE_MAX && length <= ISIZE_MAX ==>
      (r.Err? <==> driverNull || offset + length > old(gl.st).stores[BoundBuffer(old(gl.st), t)].size)
    ensures r == Err(NullMapping) ==> gl.st == old(gl.st)
    ensures r.Ok? ==> r.value == MapGuard(t, access, length)
    ensures r.Ok? ==> gl.st == old(gl.st).(mappings := old(gl.st).mappings[t := Mapping(offset, length, access)])
    ensures r.Err? ==> gl.st == old(gl.st) && (r.error == ConversionOverflow || r.error == NullMapping)
  {
    NotDefaultBufferHasStore(gl.st, t);
    var o := Narrow(offset, ISIZE_MAX);
    if o.Err? {
      return Err(o.error);
    }
    var n := Narrow(length, ISIZE_MAX);
    if n.Err? {
      return Err(n.error);
    }
    gl.calls := gl.calls + [MapBufferRange(t, offset, length, MapFlags(access))];
    if driverNull || offset + length > gl.st.stores[gl.st.buffer[t]].size {
      return Err(NullMapping);
    }
    gl.st := gl.st.(mappings := gl.st.mappings[t := Mapping(offset, length, access)]);
    r := Ok(MapGuard(t, access, length));
  }

  /**
   * `Active::map`: the start bound is resolved first (an unbounded end then
   * queries the datastore length once), the range panics if it overflows or
   * is reversed, and the byte range it denotes is mapped by `map_impl`.
   */
  method Map(gl: GLHF, t: BufferTarget, access: MapAccess, start: RangeBound, end: RangeBound, driverNull: bool)
    returns (r: Result<MapGuard, Panic>)
    requires gl.Valid() && HasBufferToken(gl.st, t, NotDefault) && t !in gl.st.mappings
    modifies gl
    ensures gl.Valid()
    ensures BoundBuffer(gl.st, t) in gl.st.stores
    ensures var size := old(gl.st).stores[BoundBuffer(old(gl.st), t)].size;
      var range := MapRange(start, end, size);
      var query := if MapStart(start).Ok? && end.Unbounded? then [GetBufferSize(t)] else [];
      && (range.Err? ==> r == Err(range.error) && gl.st == old(gl.st) && gl.calls == old(gl.calls) + query)
      && (range.Ok? && (range.value.0 > ISIZE_MAX || range.value.1 > ISIZE_MAX) ==>
            r == Err(ConversionOverflow) && gl.st == old(gl.st) && gl.calls == old(gl.calls) + query)
      && (range.Ok? && range.value.0 <= ISIZE_MAX && range.value.1 <= ISIZE_MAX ==>
            var (offset, length) := range.value;
            && gl.calls == old(gl.calls) + query + [MapBufferRange(t, offset, length, MapFlags(access))]
            && (r.Err? <==> driverNull || offset + length > size)
            && (r.Ok? ==> (r.value == MapGuard(t, access, length)
                  && gl.st == old(gl.st).(mappings := old(gl.st).mappings[t := Mapping(offset, length, access)]))))
    ensures r.Err? ==> gl.st == old(gl.st)
  {
    NotDefaultBufferHasStore(gl.st, t);
    var size := gl.st.stores[gl.st.buffer[t]].size;
    if MapStart(start).Ok? && end.Unbounded? {
      gl.calls := gl.calls + [GetBufferSize(t)];
    }
    var range := MapRange(start, end, size);
    if range.Err? {
      return Err(range.error);
    }
    r := MapImpl(gl, t, access, range.value.0, range.value.1, driverNull);
  }

  /** Why an explicit unmap failed: the driver lost the datastore's contents. */
  datatype UnmapError = Lost

  /**
   * `MapGuard::unmap`: exactly one `UnmapBuffer` call (the drop glue is
   * skipped); the mapping ends either way, and the driver's answer decides
   * between `Ok` and `Err(Lost)`.
   */
  method Unmap(gl: GLHF, g: MapGuard, success: bool) returns (r: Result<(), UnmapError>)
    requires gl.Valid() && g.target in gl.st.mappings
    modifies gl
    ensures gl.Valid()
    ensures g.target !in gl.st.mappings
    ensures gl.st == old(gl.st).(mappings := old(gl.st).mappings - {g.target})
    ensures gl.calls == old(gl.calls) + [UnmapBuffer(g.target)]
    ensures r.Ok? <==> success
  {
    gl.st := gl.st.(mappings := gl.st.mappings - {g.target});
    gl.calls := gl.calls + [UnmapBuffer(g.target)];
    r := if success then Ok(()) else Err(Lost);
  }

  /** Dropping a `MapGuard`: the same single `UnmapBuffer` call, but a lost datastore is a panic. */
  method DropGuard(gl: GLHF, g: MapGuard, success: bool) returns (r: Result<(), Panic>)
    requires gl.Valid() && g.target in gl.st.mappings
    modifies gl
    ensures gl.Valid()
    ensures gl.st == old(gl.st).(mappings := old(gl.st).mappings - {g.target})
    ensures gl.calls == old(gl.calls) + [UnmapBuffer(g.target)]
    ensures r.Ok? <==> success
    ensures r.Err? ==> r.error == UnmapFailed
  {
    gl.st := gl.st.(mappings := gl.st.mappings - {g.target});
    gl.calls := gl.calls + [UnmapBuffer(g.target)];
    r := if success then Ok(()) else Err(UnmapFailed);
  }

  /** `Active::len`: one uncached `BUFFER_SIZE` query, answering the length of the bound datastore. */
  method Len(gl: GLHF, t: BufferTarget) returns (n: nat)
    requires gl.Valid() && HasBufferToken(gl.st, t, NotDefault)
    modifies gl`calls
    ensures BoundBuffer(gl.st, t) in gl.st.stores && n == gl.st.stores[BoundBuffer(gl.st, t)].size
    ensures gl.calls == old(gl.calls) + [GetBufferSize(t)]
  {
    gl.calls := gl.calls + [GetBufferSize(t)];
    n := gl.st.stores[gl.st.buffer[t]].size;
  }

  /** `Active::is_empty`: `len() == 0`, with the same single query. */
  method IsEmpty(gl: GLHF, t: BufferTarget) returns (empty: bool)
    requires gl.Valid() && HasBufferToken(gl.st, t, NotDefault)
    modifies gl`calls
    ensures BoundBuffer(gl.st, t) in gl.st.stores && (empty <==> gl.st.stores[BoundBuffer(gl.st, t)].size == 0)
    ensures gl.calls == old(gl.calls) + [GetBufferSize(t)]
  {
    var n := Len(gl, t);
    empty := n == 0;
  }

  /** The decoding match of `Active::usage`; any other value is `unreachable!()`. */
  function UsageFromGl(u: GLenum): Option<(Frequency, Access)>
  {
    if u == STATIC_COPY then Some((Static, Copy))
    else if u == STATIC_DRAW then Some((Static, Draw))
    else if u == STATIC_READ then Some((Static, Read))
    else if u == STREAM_COPY then Some((Stream, Copy))
    else if u == STREAM_DRAW then Some((Stream, Draw))
    else if u == STREAM_READ then Some((Stream, Read))
    else if u == DYNAMIC_COPY then Some((Dynamic, Copy))
    else if u == DYNAMIC_DRAW then Some((Dynamic, Draw))
    else if u == DYNAMIC_READ then Some((Dynamic, Read))
    else None
  }

  /** Decoding undoes `usage::as_gl` for every pair. */
  lemma UsageRoundTrip(f: Frequency, a: Access)
    ensures UsageFromGl(UsageAsGl(f, a)) == Some((f, a))
  {
  }

  /** Whatever decodes was produced by `usage::as_gl`, and exactly the nine usage constants decode. */
  lemma UsageFromGlSound(u: GLenum)
    ensures UsageFromGl(u).Some? <==> u in USAGES
    ensures UsageFromGl(u).Some? ==> UsageAsGl(UsageFromGl(u).value.0, UsageFromGl(u).value.1) == u
  {
  }

  /**
   * `Active::usage`: one uncached `BUFFER_USAGE` query; the answer decodes to
   * the pair the datastore was allocated with, so the `unreachable!()` arm
   * is never taken on a well-formed context.
   */
  method Usage(gl: GLHF, t: BufferTarget) returns (r: Result<(Frequency, Access), Panic>)
    requires gl.Valid() && HasBufferToken(gl.st, t, NotDefault)
    modifies gl`calls
    ensures gl.calls == old(gl.calls) + [GetBufferUsage(t)]
    ensures r.Ok? && BoundBuffer(gl.st, t) in gl.st.stores
    ensures UsageAsGl(r.value.0, r.value.1) == gl.st.stores[BoundBuffer(gl.st, t)].usage
  {
    gl.calls := gl.calls + [GetBufferUsage(t)];
    var u := gl.st.stores[gl.st.buffer[t]].usage;
    UsageFromGlSound(u);
    match UsageFromGl(u)
    case Some(p) => r := Ok(p);
    case None => r := Err(UnknownUsage);
  }

  /**
   * Deleting buffers keeps the invariant: every target left holding a
   * deleted name falls back to 0, so no binding outlives its datastore, and
   * no buffer token survives.
   */
  lemma DeleteKeepsWellFormed(st: Driver, deleted: set<Name>)
    requires WellFormed(st) && st.mappings == map[]
    ensures WellFormed(st.(buffer := map t | t in st.buffer :: Unbound(st.buffer[t], deleted),
                           stores := st.stores - deleted,
                           bufferToken := map[]))
  {
  }

  /**
   * `Slots::delete`: one delete call for all the buffers. Every target that
   * held one of them falls back to 0, their datastores go away, and every
   * buffer token ends (the call borrows all eight slots, so no mapping can
   * be live).
   */
  method Delete(gl: GLHF, buffers: seq<Buffer>)
    requires gl.Valid() && gl.st.mappings == map[] && |buffers| <= GLINT_MAX
    modifies gl
    ensures gl.Valid()
    ensures var deleted := NameSet(seq(|buffers|, i requires 0 <= i < |buffers| => buffers[i].name));
      && gl.calls == old(gl.calls) + [GLCall.Delete(BufferObjects, seq(|buffers|, i requires 0 <= i < |buffers| => buffers[i].name as Name))]
      && gl.st == old(gl.st).(buffer := map t | t in old(gl.st).buffer :: Unbound(old(gl.st).buffer[t], deleted),
                              stores := old(gl.st).stores - deleted,
                              bufferToken := map[])
  {
    var names := seq(|buffers|, i requires 0 <= i < |buffers| => buffers[i].name as Name);
    DeleteWith(gl, BufferObjects, names);
    var deleted := NameSet(seq(|buffers|, i requires 0 <= i < |buffers| => buffers[i].name));
    DeleteKeepsWellFormed(gl.st, deleted);
    gl.st := gl.st.(buffer := map t | t in gl.st.buffer :: Unbound(gl.st.buffer[t], deleted),
                    stores := gl.st.stores - deleted,
                    bufferToken := map[]);
  }
}
