/**
 * The draw entry points (draw.rs). Each draw demands the tokens of its
 * state struct, returns early when there is nothing to draw, computes its
 * count and byte offset with panicking arithmetic, checks the element
 * range against the element buffer in checked builds, and ends in exactly
 * one driver call.
 */
module Draw {
  import opened GLTypes
  import opened DrawTypes
  import opened Glhf
  import Buffer
  import Framebuffer

  /**
   * `ArrayState`: a NotDefault vertex array, a complete draw framebuffer (of
   * either defaultness) and a NotDefault (linked) program are bound.
   */
  predicate ArrayState(st: Driver)
  {
    && st.vertexArrayToken == Some(NotDefault)
    && st.drawToken.Some? && st.drawToken.value.completeness == Framebuffer.MarkComplete
    && st.programToken == Some(NotDefault)
  }

  /**
   * `ElementState`: the same, plus a NotDefault element buffer that is not
   * mapped (the state borrows its token, which a mapping would hold
   * mutably).
   */
  predicate ElementState(st: Driver)
  {
    ArrayState(st) && HasBufferToken(st, Buffer.ElementArray, NotDefault) && Buffer.ElementArray !in st.mappings
  }

  /** The one call a non-empty array draw makes: the plain call for one instance, the instanced one otherwise. */
  function ArraysCall(mode: Topology, first: nat, count: nat, instances: nat): GLCall
  {
    if instances == 1 then DrawArrays(mode, first, count) else DrawArraysInstanced(mode, first, count, instances)
  }

  /** The one call a non-empty indexed draw makes. */
  function ElementsCall(mode: Topology, count: nat, t: ElementType, offset: nat, instances: nat): GLCall
  {
    if instances == 1 then DrawElements(mode, count, t, offset) else DrawElementsInstanced(mode, count, t, offset, instances)
  }

  /**
   * `Draw::arrays`: nothing happens for an empty range or zero instances,
   * before any arithmetic, so a reversed range with zero instances does not
   * panic. Otherwise a reversed range panics, the first vertex, the count
   * and (for more than one instance) the instance count must fit a
   * `GLint`/`GLsizei`, and one draw call follows.
   */
  method Arrays(gl: GLHF, mode: Topology, start: usize, end: usize, instances: usize) returns (r: Result<(), Panic>)
    requires gl.Valid() && ArrayState(gl.st)
    modifies gl`calls
    ensures EmptyRange(start, end) || instances == 0 ==> r.Ok? && gl.calls == old(gl.calls)
    ensures !EmptyRange(start, end) && instances != 0 && end < start ==> r == Err(RangeReversed) && gl.calls == old(gl.calls)
    ensures start < end && instances != 0 ==>
      if start > GLINT_MAX || end - start > GLINT_MAX || (instances != 1 && instances > GLINT_MAX)
      then r == Err(ConversionOverflow) && gl.calls == old(gl.calls)
      else r.Ok? && gl.calls == old(gl.calls) + [ArraysCall(mode, start, end - start, instances)]
  {
    if EmptyRange(start, end) || instances == 0 {
      return Ok(());
    }
    var count := RangeCount(start, end);
    if count.Err? {
      return Err(count.error);
    }
    var first := Narrow(start, GLINT_MAX);
    if first.Err? {
      return Err(first.error);
    }
    var n := Narrow(count.value, GLINT_MAX);
    if n.Err? {
      return Err(n.error);
    }
    if instances != 1 {
      var k := Narrow(instances, GLINT_MAX);
      if k.Err? {
        return Err(k.error);
      }
    }
    gl.calls := gl.calls + [ArraysCall(mode, start, count.value, instances)];
    r := Ok(());
  }

  /** The length of the bound element buffer, which the checked bounds check reads. */
  function ElementBufferLength(st: Driver): (n: nat)
    requires WellFormed(st) && HasBufferToken(st, Buffer.ElementArray, NotDefault)
    ensures n <= ISIZE_MAX
  {
    NotDefaultBufferHasStore(st, Buffer.ElementArray);
    st.stores[BoundBuffer(st, Buffer.ElementArray)].size
  }

  /**
   * `Draw::elements`: the same early return and reversed-range panic as
   * `arrays`; the byte offset `start * size_of` panics on overflow; a
   * checked build then queries the element buffer's length once and panics
   * unless every fetched index lies inside it; the count and instance count
   * must fit a `GLsizei`; then one draw call at that byte offset.
   */
  method Elements(gl: GLHF, mode: Topology, t: ElementType, start: usize, end: usize, instances: usize, checked: bool)
    returns (r: Result<(), Panic>)
    requires gl.Valid() && ElementState(gl.st)
    modifies gl`calls
    ensures EmptyRange(start, end) || instances == 0 ==> r.Ok? && gl.calls == old(gl.calls)
    ensures !EmptyRange(start, end) && instances != 0 && end < start ==> r == Err(RangeReversed) && gl.calls == old(gl.calls)
    ensures start < end && instances != 0 && start * SizeOf(t) > USIZE_MAX ==>
      r == Err(ArithmeticOverflow) && gl.calls == old(gl.calls)
    ensures start < end && instances != 0 && start * SizeOf(t) <= USIZE_MAX ==>
      var query := if checked then [GetBufferSize(Buffer.ElementArray)] else [];
      if checked && end * SizeOf(t) > ElementBufferLength(gl.st)
      then r.Err? && gl.calls == old(gl.calls) + query
      else if end - start > GLINT_MAX || (instances != 1 && instances > GLINT_MAX)
      then r == Err(ConversionOverflow) && gl.calls == old(gl.calls) + query
      else r.Ok? && gl.calls == old(gl.calls) + query + [ElementsCall(mode, end - start, t, start * SizeOf(t), instances)]
  {
    if EmptyRange(start, end) || instances == 0 {
      return Ok(());
    }
    var count := RangeCount(start, end);
    if count.Err? {
      return Err(count.error);
    }
    var offset := ByteOffset(start, t);
    if offset.Err? {
      return Err(offset.error);
    }
    if checked {
      gl.calls := gl.calls + [GetBufferSize(Buffer.ElementArray)];
      var len := ElementBufferLength(gl.st);
      BoundsCheckIffInside(start, end, t, len);
      var inside := BoundsCheck(offset.value, count.value, t, len);
      if inside.Err? {
        return Err(inside.error);
      }
    }
    var n := Narrow(count.value, GLINT_MAX);
    if n.Err? {
      return Err(n.error);
    }
    if instances != 1 {
      var k := Narrow(instances, GLINT_MAX);
      if k.Err? {
        return Err(k.error);
      }
    }
    gl.calls := gl.calls + [ElementsCall(mode, count.value, t, offset.value, instances)];
    r := Ok(());
  }

  /** `GLuint::MAX`. */
  const GLUINT_MAX: int := U32_LIMIT - 1

  /**
   * `Draw::ranged_elements`: no instance count, so only an empty range is a
   * no-op; the same count, offset and checked bounds as `elements`; the
   * inclusive index range is forwarded unchanged as the hint (each bound
   * must fit a `GLuint`), then the count must fit a `GLsizei`.
   */
  method RangedElements(gl: GLHF, mode: Topology, t: ElementType, start: usize, end: usize,
                        lowest: usize, highest: usize, checked: bool)
    returns (r: Result<(), Panic>)
    requires gl.Valid() && ElementState(gl.st)
    modifies gl`calls
    ensures EmptyRange(start, end) ==> r.Ok? && gl.calls == old(gl.calls)
    ensures end < start ==> r == Err(RangeReversed) && gl.calls == old(gl.calls)
    ensures start < end && start * SizeOf(t) > USIZE_MAX ==> r == Err(ArithmeticOverflow) && gl.calls == old(gl.calls)
    ensures start < end && start * SizeOf(t) <= USIZE_MAX ==>
      var query := if checked then [GetBufferSize(Buffer.ElementArray)] else [];
      if checked && end * SizeOf(t) > ElementBufferLength(gl.st)
      then r.Err? && gl.calls == old(gl.calls) + query
      else if lowest > GLUINT_MAX || highest > GLUINT_MAX || end - start > GLINT_MAX
      then r == Err(ConversionOverflow) && gl.calls == old(gl.calls) + query
      else r.Ok? && gl.calls == old(gl.calls) + query + [DrawRangeElements(mode, lowest, highest, end - start, t, start * SizeOf(t))]
  {
    if EmptyRange(start, end) {
      return Ok(());
    }
    var count := RangeCount(start, end);
    if count.Err? {
      return Err(count.error);
    }
    var offset := ByteOffset(start, t);
    if offset.Err? {
      return Err(offset.error);
    }
    if checked {
      gl.calls := gl.calls + [GetBufferSize(Buffer.ElementArray)];
      var len := ElementBufferLength(gl.st);
      BoundsCheckIffInside(start, end, t, len);
      var inside := BoundsCheck(offset.value, count.value, t, len);
      if inside.Err? {
        return Err(inside.error);
      }
    }
    var lo := Narrow(lowest, GLUINT_MAX);
    if lo.Err? {
      return Err(lo.error);
    }
    var hi := Narrow(highest, GLUINT_MAX);
    if hi.Err? {
      return Err(hi.error);
    }
    var n := Narrow(count.value, GLINT_MAX);
    if n.Err? {
      return Err(n.error);
    }
    gl.calls := gl.calls + [DrawRangeElements(mode, lowest, highest, count.value, t, offset.value)];
    r := Ok(());
  }
}
