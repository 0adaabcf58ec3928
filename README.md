# glhf binding-state model

A Dafny model of the core of **glhf**, a Rust wrapper over OpenGL ES 3.X that
encodes GL binding state in types. In glhf, every binding point (the eight
buffer targets, the draw and read framebuffers, the four texture targets, the
vertex array, the program and the renderbuffer) is a `Slot`. Binding something
to a slot hands out an `Active` token whose type says what the slot holds:
`NotDefault` (a user object), `IsDefault` (object 0) or `Unknown` (inherited
state). Framebuffer tokens also say `Complete` or `Incomplete`. Operations
exist only on tokens of the right kind, and most of them end in a single
driver call.

## How it is modelled

- **Context.** `Glhf.GLHF` is a class holding the driver-visible state `st` and
  a ghost log `calls` of every driver call made through the wrapper.
  - `st` records the name bound to every binding point, per-object state and
    the live tokens.
  - Per-object state is buffer datastores, live mappings, framebuffer
    attachments and vertex attribute setup.
- **Tokens.** A Rust token type is a compile-time promise about a slot. Here it
  is state, and each operation that needs a token states it in `requires`.
- **Invariant.** The design promises that every live token tells the truth
  about its slot. That is the invariant `Glhf.WellFormed`, and every
  operation preserves it.
- **Panics.** A Rust panic (a failed `unwrap`, `assert!` or checked
  arithmetic) is an outcome, `Err(Panic)`, never a precondition.
  - Compile-time `const` assertions become `requires`, and so do the
    `unsafe` safety contracts the model relies on.
- **Driver answers.** Whatever the driver answers is a parameter of the
  method that receives it. This covers generated names, framebuffer status,
  compile and link status, a null mapping pointer, the unmap result and
  info logs. A buffer's size and usage are not answers: `len`, `is_empty`
  and `usage` read them back from the tracked datastore, which `data` and
  `data_uninit` set.
- **Debug builds.** Behaviour that exists only in debug builds is selected by
  a `checked` parameter: the zero-name scan and the element-buffer bounds
  check.
- **The `alloc` feature.** Whether the crate is built with `alloc` is an
  `alloc` parameter of compile and link. Only with it is the info log
  fetched on failure and carried in the error (`Some(log)`). Without it
  the error holds only the handle (`None`), no log call is made and no
  log panic can happen.
- **Modules.** There is one module per source file:
  - `GLTypes`: shared integer types, Option/Result and panics;
  - `Buffer`, `Texture`, `Framebuffer`, `VertexArray`, `Renderbuffer`,
    `ProgramTypes` and `DrawTypes`: the pure object and enum modules;
  - `Glhf`: lib.rs;
  - `New`: new.rs;
  - `SlotBuffer`, `SlotFramebuffer`, `SlotTexture`, `SlotVertexArray`,
    `SlotRenderbuffer` and `SlotProgram`: one module per slot file;
  - `Draw`: draw.rs.

### Where the model follows the code over its documentation

- **Repeated `None` in draw buffers.** `draw_buffers` asserts that the
  slice has no repeated entry, and that includes `None`. The model rejects
  `[None, None]` as the code does (`SlotFramebuffer.RepeatedNoneRejected`).
- **`read_buffer` on the default framebuffer.** It is declared on the *draw*
  token of the default framebuffer, so `SlotFramebuffer.ReadBufferDefault`
  requires that token. The call it makes is `glReadBuffer`, which acts on
  the read framebuffer.
- **Deleting a program.** `Slot::delete` on the program slot makes the
  delete call and keeps the binding and any token. GL defers deleting a
  program that is in use.
- **Names the source uses but never declares.**
  - `texture::DepthStencilMode`, `texture::DeletionToken` and
    `Format::Stencil` are used by the source but not declared there. The
    model declares them: `Texture.DepthStencilMode`,
    `Texture.DeletionToken`, `Texture.Stencil`.
  - `Mat4x2` is named by the uniform dispatch. It is added to
    `ProgramTypes.Matrix`.
- **GL constant values.** These come from generated bindings. The model uses
  the Khronos registry values wherever the code computes with them or the
  model compares them.

## Model

| member | source | states |
|---|---|---|
| GLTypes.UnknownIsEitherKnownState | src/slot/marker.rs:13-38 | Unknown admits exactly the names IsDefault or NotDefault admit; IsDefault (name 0) and NotDefault (non-zero) exclude each other |
| GLTypes.Narrow | src/slot/buffer.rs:324-329 | `try_into().unwrap()`: Ok with the same value iff it fits 0..=max, otherwise ConversionOverflow |
| GLTypes.CheckedAdd | src/slot/texture.rs:237 | `checked_add().unwrap()`: Ok with the sum iff it fits, otherwise ArithmeticOverflow |
| GLTypes.CheckedMul | src/draw.rs:154 | `checked_mul().unwrap()`: Ok with the product iff it fits, otherwise ArithmeticOverflow |
| GLTypes.U32AsI32 | src/slot/texture.rs:123-124 | `as` from u32 to GLint keeps the value modulo 2^32, lies in the i32 range, and is the identity up to i32::MAX |
| Buffer.AllTargetsComplete | src/slot/buffer.rs:31-58 | there are exactly eight buffer targets and every target is one of them |
| Buffer.UsageAsGlInjective | src/buffer.rs:34-53 | two (frequency, access) pairs give the same usage constant iff they are the same pair |
| Buffer.RawMapBits | src/buffer.rs:56-72 | each raw access is non-empty and uses only the read and write bits; ReadWrite has both, Read only the read bit, Write only the write bit |
| Buffer.MapFlags | src/slot/buffer.rs:60-77 | guard flags always contain MAP_READ, contain MAP_WRITE iff the guard is ReadWrite, and contain no other bit |
| Texture.DimTarget | src/texture/mod.rs:36-58 | each dimensionality targets one of the four texture targets |
| Texture.DimTargetInjective | src/texture/mod.rs:36-58 | the four dimensionalities have four distinct targets |
| Texture.TextureToken | src/slot/texture.rs:241-250 | a deletion token carries the texture's name |
| Texture.FormatOfAgreesWithName | src/texture/mod.rs:134-201 | an internal format transfers as an `*Integer` format iff it is an integer (`ui`/`i`) format; the channel count matches its name |
| Texture.DepthFormats | src/texture/mod.rs:195-199 | exactly the depth-only formats transfer as DepthComponent, exactly the depth-stencil formats as DepthStencil, none as Stencil |
| Texture.EveryFormatAcceptsSomeData | src/texture/mod.rs:260-339 | every internal format accepts at least one pixel data type |
| Texture.PackedDepthStencilData | src/texture/mod.rs:336-337 | packed 24/8 data is accepted only by Depth24Stencil8, and float 32 plus 24/8 data only by Depth32fStencil8 |
| Texture.OnlyDepth24Stencil8TakesPacked | src/texture/mod.rs:336 | a format that accepts packed 24/8 data is Depth24Stencil8 |
| Texture.OnlyDepth32fStencil8TakesPacked | src/texture/mod.rs:337 | a format that accepts float 32 plus 24/8 data is Depth32fStencil8 |
| Texture.Float32FormatsTakeOnlyF32 | src/texture/mod.rs:260-339 | the 32-bit float formats accept F32 data and nothing else |
| Texture.Float16FormatsTakeF16OrF32 | src/texture/mod.rs:260-339 | the 16-bit float formats accept F16 or F32 data and nothing else |
| Texture.IntegerFormatsTakeIntegerData | src/texture/mod.rs:260-339 | integer formats accept only integer data, and float data only goes to non-integer formats |
| Texture.ParameterValuesDistinct | src/texture/mod.rs:342-366 | swizzle, wrap and depth-stencil mode variants have pairwise distinct GL values |
| Framebuffer.IntoCompleteUnchecked | src/framebuffer/mod.rs:77-79 | claiming completeness keeps the name |
| Framebuffer.ForgetComplete | src/framebuffer/mod.rs:83-87 | downgrading to Incomplete keeps the name |
| Framebuffer.RetagRoundTrip | src/framebuffer/mod.rs:72-87 | downgrade then upgrade, and upgrade then downgrade, are both the identity |
| Framebuffer.BufferValuesDistinct | src/framebuffer/mod.rs:4-40 | Buffer and DefaultBuffer values are equal iff their variants are, the equality the duplicate check relies on |
| Framebuffer.MaskBits | src/slot/framebuffer.rs:36-48 | each aspect sets its own bit, and the mask is 0 iff no aspect is selected |
| VertexArray.ComponentCount | src/vertex_array/mod.rs:9-19 | component counts lie in 1..4 |
| VertexArray.ComponentCountInjective | src/vertex_array/mod.rs:9-19 | Scalar, Vec2, Vec3, Vec4 have distinct counts |
| VertexArray.AlignOf | src/vertex_array/mod.rs:114-124 | alignment is 1, 2 or 4 and delegates to the integer, floating or packed type underneath |
| VertexArray.ComponentTypeDeterminesAlign | src/vertex_array/mod.rs:33-124 | attribute types with the same GL component type need the same alignment |
| VertexArray.ComponentEnumsDisjoint | src/vertex_array/mod.rs:22-88 | integer, floating and packed component enums never share a GL value, and integer values are distinct |
| Renderbuffer.AsTextureFormat | src/renderbuffer.rs:9-99 | every renderbuffer format except StencilIndex8 has a texture-format namesake |
| Renderbuffer.FormatAgreesWithTexture | src/renderbuffer.rs:57-99 | every format except StencilIndex8 has a texture namesake with the same transfer format |
| Renderbuffer.OnlyStencilIndexIsStencil | src/renderbuffer.rs:57-99 | a format transfers as Stencil exactly when it is StencilIndex8 |
| Renderbuffer.AsTextureFormatInjective | src/renderbuffer.rs:9-99 | distinct renderbuffer formats name distinct texture formats |
| Renderbuffer.MultisampleIsSubsetOfInternal | src/renderbuffer.rs:104-156 | each multisample format is a distinct single-sample format with the same transfer format, never an integer one |
| ProgramTypes.VectorLocations | src/program.rs:152-169 | a vector uniform takes as many locations as its length; empty iff length 0 |
| ProgramTypes.VectorFromRef | src/program.rs:175-195 | a single value converts to a one-element vector of its width |
| ProgramTypes.MatrixLocations | src/program.rs:78-109 | locations = length × columns, between 2 and 4 times the length; empty iff length 0 |
| ProgramTypes.MatrixFromRef | src/program.rs:114-122 | a single matrix converts to a one-element matrix of the same shape |
| ProgramTypes.CellsRoundTrip | src/program.rs:43-52 | the matrix newtype conversions are inverse and keep the shape |
| ProgramTypes.TransposedShapes | src/program.rs:97-109 | non-square shapes use their column count, so transposed shapes take different numbers of locations |
| ProgramTypes.IntoCompiledUnchecked | src/program.rs:243-246 | claiming a shader compiled keeps its name and stage |
| ProgramTypes.ForgetCompiled | src/program.rs:266-271 | downgrading a compiled shader keeps its name and stage |
| ProgramTypes.IntoLinkedUnchecked | src/program.rs:283-286 | claiming a program linked keeps its name |
| ProgramTypes.ForgetLinked | src/program.rs:301-306 | downgrading a linked program keeps its name |
| ProgramTypes.RetagRoundTrips | src/program.rs:243-306 | the shader and program up/downgrades round-trip in both orders |
| DrawTypes.TopologyValuesDistinct | src/draw.rs:22-34 | topologies have distinct GL values |
| DrawTypes.SizeOf | src/draw.rs:45-52 | index sizes are 1, 2, 4 bytes, 1 exactly for U8 and 4 exactly for U32 |
| DrawTypes.RangeCount | src/draw.rs:101-104 | the count is Ok iff start ≤ end, and then start + count = end; otherwise RangeReversed |
| DrawTypes.ByteOffset | src/draw.rs:154 | the byte offset is start × size when that fits usize, otherwise ArithmeticOverflow |
| DrawTypes.SpanCoversRange | src/draw.rs:149-164 | offset plus count × size is end × size |
| DrawTypes.BoundsCheckIffInside | src/draw.rs:156-164 | the debug bounds check passes iff end × size ≤ buffer length |
| DrawTypes.ExampleU16Span | src/draw.rs:149-164 | 2..6 with U16 gives count 4 and offset 4, inside a 12-byte buffer and outside an 11-byte one |
| Glhf.NotDefaultBufferHasStore | src/slot/marker.rs:32-38 | a NotDefault buffer token guarantees a real buffer with a datastore |
| Glhf.ContextHasOneSlotPerTarget | src/lib.rs:98-132 | numbering the slots is a bijection onto 0..15 (4 texture, 2 framebuffer, 8 buffer, vertex array, program), so there are exactly sixteen, one per binding point |
| Glhf.GLHF.Current | src/lib.rs:98-132 | wrapping the current context makes no call and keeps its bindings |
| Glhf.ContainsZeroName | src/lib.rs:190-197 | the scan finds a zero iff the answer holds one |
| Glhf.GenWith | src/lib.rs:178-200 | one generator call for N names; a debug build panics iff a name is 0; otherwise exactly the N returned names |
| Glhf.DeleteWith | src/lib.rs:205-214 | all N names go in a single delete call |
| Glhf.NameSet | src/lib.rs:205-214 | the deleted set holds every handle's name and never 0 |
| Glhf.Unbound | src/slot/buffer.rs:440-445 | a binding falls back to 0 exactly when its name was deleted, and is otherwise unchanged |
| Glhf.UnbindTextures | src/slot/texture.rs:206-210 | every texture binding of a deleted name falls back to 0 and no key changes |
| New.Textures | src/new.rs:27-29 | one generator call; new textures are Stateless with the driver's names |
| New.Framebuffers | src/new.rs:38-40 | new framebuffers are Incomplete with the driver's names |
| New.VertexArrays | src/new.rs:43-45 | new vertex arrays carry the driver's names |
| New.Buffers | src/new.rs:48-50 | new buffers carry the driver's names |
| New.RenderBuffers | src/new.rs:53-55 | new renderbuffers carry the driver's names |
| New.DeleteTextures | src/new.rs:33-35 | only Stateless textures; one delete call; their bindings fall back to 0 |
| New.Shader | src/new.rs:60-68 | panics iff CreateShader answers 0; otherwise an empty shader of that name and stage |
| New.Program | src/new.rs:73-81 | panics iff CreateProgram answers 0; otherwise an unlinked program of that name |
| SlotBuffer.WithStore | src/slot/buffer.rs:400-405 | binding a fresh name gives it an empty datastore, and an existing store is kept |
| SlotBuffer.BindKeepsWellFormed | src/slot/buffer.rs:400-405 | binding a user buffer on an unmapped target keeps the binding invariant: the NotDefault token is truthful and the name has a datastore |
| SlotBuffer.Bind | src/slot/buffer.rs:400-405 | records the name for the target, token NotDefault, one BindBuffer call |
| SlotBuffer.UnbindKeepsWellFormed | src/slot/buffer.rs:408-413 | binding 0 on an unmapped target keeps the binding invariant |
| SlotBuffer.Unbind | src/slot/buffer.rs:408-413 | records 0, token IsDefault, one BindBuffer(0) call |
| SlotBuffer.Inherit | src/slot/buffer.rs:418-427 | token Unknown, no call, nothing else changes |
| SlotBuffer.UsageIsKnown | src/buffer.rs:34-53 | every usage constant the wrapper sets is one of the nine |
| SlotBuffer.Data | src/slot/buffer.rs:158-173 | panics without a call iff the length exceeds isize::MAX; otherwise the bound store becomes (length, usage) with one BufferData call |
| SlotBuffer.DataUninit | src/slot/buffer.rs:180-196 | the same contract as Data (contents unspecified): ConversionOverflow with no change iff len > isize::MAX, otherwise only the bound buffer's store changes, with one BufferData |
| SlotBuffer.SubData | src/slot/buffer.rs:200-210 | panics iff offset or length does not fit isize; otherwise one BufferSubData call |
| SlotBuffer.CopyFrom | src/slot/buffer.rs:229-249 | length 0 makes no call; otherwise the conversions, then one copy from source to destination target |
| SlotBuffer.CopySelf | src/slot/buffer.rs:216-224 | copies within one target: source and destination are the same target; length 0 is a no-op; panics (ConversionOverflow, no call) iff a non-empty copy has an offset or length above isize::MAX |
| SlotBuffer.CopyTo | src/slot/buffer.rs:252-261 | the copy with the roles of the two targets swapped; length 0 is a no-op; panics (ConversionOverflow, no call) iff a non-empty copy has an offset or length above isize::MAX |
| SlotBuffer.MapRangeIsTheRange | src/slot/buffer.rs:299-317 | the computed (offset, length) covers exactly the indices the range bounds describe |
| SlotBuffer.MapRangePanics | src/slot/buffer.rs:299-317 | bound conversion panics iff an inclusive bound overflows or end < start; `..` maps the whole buffer |
| SlotBuffer.WritableIffWriteAccess | src/slot/buffer.rs:119-133 | a guard is mutable iff its access is ReadWrite, and exactly then are its flags writable |
| SlotBuffer.MapImpl | src/slot/buffer.rs:319-339 | conversions, one MapBufferRange with the guard's flags, then a null-pointer panic; on success the mapping is recorded and the guard has exactly the requested length |
| SlotBuffer.Map | src/slot/buffer.rs:294-318 | queries the size only for an unbounded end; computes the range, then maps it as MapImpl does |
| SlotBuffer.Unmap | src/slot/buffer.rs:105-116 | exactly one UnmapBuffer; the mapping ends; Ok iff the driver reports success, else Lost |
| SlotBuffer.DropGuard | src/slot/buffer.rs:134-139 | exactly one UnmapBuffer; the mapping ends; a panic iff the driver reports failure |
| SlotBuffer.Len | src/slot/buffer.rs:353-360 | one size query returning the bound store's size |
| SlotBuffer.IsEmpty | src/slot/buffer.rs:342-344 | true iff the length is 0 |
| SlotBuffer.UsageRoundTrip | src/slot/buffer.rs:368-390 | decoding the constant of a pair gives the pair back |
| SlotBuffer.UsageFromGlSound | src/slot/buffer.rs:368-390 | decoding succeeds exactly on the nine constants and inverts `as_gl` there |
| SlotBuffer.Usage | src/slot/buffer.rs:368-390 | one usage query; never reaches `unreachable!` under the invariant; returns the pair of the store's usage |
| SlotBuffer.DeleteKeepsWellFormed | src/slot/buffer.rs:443-445 | falling back to 0 for deleted names, dropping their stores and every buffer token keeps the binding invariant |
| SlotBuffer.Delete | src/slot/buffer.rs:443-445 | one delete call; bound deleted names fall back to 0 and their stores go; buffer tokens end |
| SlotFramebuffer.IsAllUniqueIffNoTwoEqual | src/slot/framebuffer.rs:11-14 | the adjacent-suffix check holds iff no two entries are equal; empty and singleton slices pass |
| SlotFramebuffer.RepeatBreaksUniqueness | src/slot/framebuffer.rs:11-14 | any repeated entry fails the check |
| SlotFramebuffer.RepeatedNoneRejected | src/slot/framebuffer.rs:248-269 | [None, None] fails for both buffer kinds; a list of distinct buffers passes |
| SlotFramebuffer.BufferValues | src/slot/framebuffer.rs:248-253 | the GL value list is entry-by-entry the buffers' values |
| SlotFramebuffer.DefaultBufferValues | src/slot/framebuffer.rs:264-269 | the same for default-framebuffer buffers |
| SlotFramebuffer.UniqueEntriesGiveUniqueValues | src/slot/framebuffer.rs:248-269 | unique entries give unique GL values, for both buffer kinds |
| SlotFramebuffer.FromGlInvertsDiscriminant | src/slot/framebuffer.rs:303-336 | from_gl inverts each kind's discriminant, and its non-Unspecified answers are exactly the five incomplete statuses |
| SlotFramebuffer.Rebind | src/slot/framebuffer.rs:343-389 | rebinding changes exactly one target's name and token |
| SlotFramebuffer.Bind | src/slot/framebuffer.rs:343-348 | one bind call; token NotDefault+Incomplete |
| SlotFramebuffer.BindComplete | src/slot/framebuffer.rs:351-356 | one bind call; token NotDefault+Complete |
| SlotFramebuffer.Classify | src/slot/framebuffer.rs:366-380 | COMPLETE gives a Complete of the same name; any other status gives the unchanged Incomplete and from_gl(status); it is a function of the status |
| SlotFramebuffer.TryComplete | src/slot/framebuffer.rs:362-381 | binds, then one status query; the result is Classify(status) and the token is Complete or Incomplete to match |
| SlotFramebuffer.BindDefault | src/slot/framebuffer.rs:384-389 | binds 0; token IsDefault+Complete |
| SlotFramebuffer.Inherit | src/slot/framebuffer.rs:394-396 | token Unknown/Unknown, no call |
| SlotFramebuffer.RebindBoth | src/slot/framebuffer.rs:408-459 | both targets get the same name and token |
| SlotFramebuffer.SlotsBind | src/slot/framebuffer.rs:408-422 | one FRAMEBUFFER bind sets read and draw to an Incomplete framebuffer |
| SlotFramebuffer.SlotsBindComplete | src/slot/framebuffer.rs:427-441 | the same for a Complete framebuffer |
| SlotFramebuffer.SlotsBindDefault | src/slot/framebuffer.rs:446-459 | the same for the default framebuffer, IsDefault+Complete |
| SlotFramebuffer.Delete | src/slot/framebuffer.rs:464-466 | one delete call; deleted bound framebuffers fall back to 0 on both targets; their attachments go; both tokens end |
| SlotFramebuffer.Texture2D | src/slot/framebuffer.rs:80-93 | only on NotDefault+Incomplete; panics on a level above GLint; otherwise records the attachment with one call |
| SlotFramebuffer.Clear | src/slot/framebuffer.rs:140-148 | needs a Complete draw token; an empty mask makes no call, otherwise one Clear with the mask bits |
| SlotFramebuffer.BlitFilter | src/slot/framebuffer.rs:106-133 | the blit filter is NEAREST or LINEAR as chosen |
| SlotFramebuffer.BlitFrom | src/slot/framebuffer.rs:106-133 | needs Complete draw and read tokens; an empty mask makes no call, otherwise one blit |
| SlotFramebuffer.BlitTo | src/slot/framebuffer.rs:157-164 | the same blit seen from the read token |
| SlotFramebuffer.CopySubimageTo | src/slot/framebuffer.rs:177-200 | needs a Complete read token and an active 2D texture; conversions panic; otherwise one CopyTexSubImage2D |
| SlotFramebuffer.CopyImageTo | src/slot/framebuffer.rs:213-237 | the same for CopyTexImage2D |
| SlotFramebuffer.DrawBuffers | src/slot/framebuffer.rs:248-253 | panics with no call iff the slice repeats an entry; then the length conversion; otherwise one DrawBuffers with the values |
| SlotFramebuffer.DrawBuffersDefault | src/slot/framebuffer.rs:264-269 | the same on the default framebuffer's IsDefault+Complete token |
| SlotFramebuffer.ReadBuffer | src/slot/framebuffer.rs:275-278 | one ReadBuffer call with the buffer's value |
| SlotFramebuffer.ReadBufferDefault | src/slot/framebuffer.rs:281-287 | the same for a default buffer, under the draw IsDefault+Complete token |
| Draw.Arrays | src/draw.rs:89-126 | an empty range or 0 instances returns before any check with no call; a reversed range panics; conversions; one call, instanced iff instances ≠ 1 |
| Draw.ElementBufferLength | src/draw.rs:156-164 | the bound element buffer's length fits isize |
| Draw.Elements | src/draw.rs:136-191 | no-op and reversed cases as Arrays; offset overflow panics; a debug build queries the length and panics iff end × size exceeds it; one call |
| Draw.RangedElements | src/draw.rs:206-247 | no-op only for an empty range; the same checks; the index bounds go unchanged as the inclusive hint |
| SlotProgram.InfoLogCalls | src/slot/program.rs:12-43 | the length query, then the log fetch only for a positive length |
| SlotProgram.InfoLog | src/slot/program.rs:11-43 | (an `alloc` build only) length 0 gives an empty log without a fetch; a negative length or written count panics; otherwise Ok iff the written bytes end in a nul, and the log is exactly the bytes before it, with no nul inside |
| SlotProgram.Compile | src/slot/program.rs:304-342 | source, compile and status calls, plus the log fetch on failure in an `alloc` build; a compiled shader of the same name iff the status is TRUE; on failure without `alloc`, the same empty shader and no log; with `alloc`, a panic iff the log fetch panics, otherwise the same empty shader with the fetched log (empty for length 0, else the bytes before the nul) |
| SlotProgram.LinkCalls | src/slot/program.rs:352-370 | attach vertex, attach fragment, link, status, detach both, in that order |
| SlotProgram.Link | src/slot/program.rs:347-388 | makes LinkCalls whatever the outcome, plus the log fetch on failure in an `alloc` build; a linked program of the same name iff the status is TRUE; on failure without `alloc`, the same program and no log; with `alloc`, a panic iff the log fetch panics, otherwise the same program with the fetched log (empty for length 0, else the bytes before the nul) |
| SlotProgram.Bind | src/slot/program.rs:286-291 | only a linked program; token NotDefault; one UseProgram |
| SlotProgram.Unbind | src/slot/program.rs:294-299 | UseProgram(0); token IsDefault |
| SlotProgram.Inherit | src/slot/program.rs:393-402 | token Unknown, no call |
| SlotProgram.Delete | src/slot/program.rs:411-413 | one DeleteProgram call |
| SlotProgram.DeleteShader | src/slot/program.rs:419-421 | one DeleteShader call |
| SlotProgram.Width | src/slot/program.rs:121-169 | the vector width selects the 1/2/3/4 entry point |
| SlotProgram.VectorDispatchIsOneToOne | src/slot/program.rs:121-169 | distinct (shape, scalar type) pairs select distinct entry points |
| SlotProgram.EveryVectorEntryPointIsReached | src/slot/program.rs:121-169 | each of the twelve `glUniform{1,2,3,4}{f,i,ui}v` entry points is selected by some vector of each length; with VectorDispatchIsOneToOne the dispatch is a bijection |
| SlotProgram.Uniform | src/slot/program.rs:101-171 | needs a NotDefault program; an empty value makes no call; otherwise conversions, then exactly one entry point with the value's length |
| SlotProgram.MatrixDispatchIsOneToOne | src/slot/program.rs:187-277 | the (columns, rows) shape determines the matrix variant, so each variant has its own entry point |
| SlotProgram.UniformMatrix | src/slot/program.rs:187-277 | an empty value makes no call; otherwise one call for the shape, not transposed |
| SlotTexture.CompareFuncAsGl | src/state.rs:37-47 | every comparison function value lies in NEVER..NEVER+7 |
| SlotTexture.CompareFuncEncodesAcceptance | src/state.rs:37-47 | the value's low three bits say whether less, equal and greater pass; distinct functions have distinct values |
| SlotTexture.MagFilterValue | src/slot/texture.rs:57-66 | NEAREST or LINEAR, LINEAR iff the filter is Linear |
| SlotTexture.MinFilterFaithful | src/slot/texture.rs:40-61 | six distinct values for six combinations; without a mip filter it equals the mag value; with one, the bits encode texel and mip filters |
| SlotTexture.SwizzleCalls | src/slot/texture.rs:27-36 | four calls; channel i (R, G, B, A) is set from entry i |
| SlotTexture.WrapCalls | src/slot/texture.rs:90-98 | three calls; dimension i (S, T, R) is set from entry i |
| SlotTexture.CompareModeCalls | src/slot/texture.rs:71-83 | with a function, mode REF_TO_TEXTURE then that function; without one, a single mode NONE |
| SlotTexture.LevelRangeIsTheRange | src/slot/texture.rs:107-127 | the corrected base and max bracket exactly the levels the range contains |
| SlotTexture.LevelRangeAsWrittenOvershoots | src/slot/texture.rs:115-120 | as written, an excluded end n gives max n + 1, which admits the excluded level n |
| SlotTexture.LevelRangeAsWrittenBounds | src/slot/texture.rs:107-120 | the base and max as the code computes them admit exactly the range's levels plus, for an excluded end n, levels n and n + 1; other ends agree with the corrected max |
| SlotTexture.LevelRangeCalls | src/slot/texture.rs:107-125 | the base level, then the max level as the code computes it (n + 1 for an excluded end n), each cast to GLint |
| SlotTexture.LevelRangeCallsOvershoot | src/slot/texture.rs:115-125 | for an excluded end n the driver is told max level n + 1; `level_range(0..4)` sends base 0 and max 5 |
| SlotTexture.LevelCastWraps | src/slot/texture.rs:122-125 | levels above i32::MAX reach the driver as negative values |
| SlotTexture.SetSwizzle | src/slot/texture.rs:27-36 | needs a live token; the four swizzle calls and nothing else |
| SlotTexture.MinFilter | src/slot/texture.rs:40-53 | one MIN_FILTER call with the selected value |
| SlotTexture.MagFilter | src/slot/texture.rs:57-66 | one MAG_FILTER call with the selected value |
| SlotTexture.CompareMode | src/slot/texture.rs:71-83 | the compare-mode calls and nothing else |
| SlotTexture.SetWrap | src/slot/texture.rs:90-98 | the three wrap calls and nothing else |
| SlotTexture.LevelRange | src/slot/texture.rs:107-127 | a live token; exactly the two level calls of LevelRangeCalls, with the max as the code computes it |
| SlotTexture.SetDepthStencilMode | src/slot/texture.rs:150-155 | one DEPTH_STENCIL_TEXTURE_MODE call |
| SlotTexture.Storage | src/slot/texture.rs:160-177 | only on a 2D token; panics with no call iff levels, width or height exceeds GLsizei; otherwise one TexStorage2D |
| SlotTexture.Bind | src/slot/texture.rs:183-186 | binds to the slot's target on the active unit and hands out that slot's token |
| SlotTexture.Initialize | src/slot/texture.rs:189-195 | a Stateless texture becomes a texture of the slot's dimensionality with the same name, left bound |
| SlotTexture.Inherit | src/slot/texture.rs:198-205 | a token for the slot, no call |
| SlotTexture.Unit | src/slot/texture.rs:235-240 | panics with no change iff TEXTURE0 + slot overflows u32; otherwise one ActiveTexture, the unit changes and all texture tokens end |
| SlotTexture.Delete | src/slot/texture.rs:208-210 | one delete call; every binding of a deleted texture falls back to 0; the slot's token ends |
| SlotTexture.DeleteAny | src/slot/texture.rs:248-250 | the same for deletion tokens of any dimensionality; every texture token ends |
| SlotTexture.DeletedTexturesAreUnbound | src/slot/texture.rs:206-210 | after deletion no binding names a deleted texture, and other bindings are unchanged |
| SlotVertexArray.StrideValue | src/slot/vertex_array.rs:37-40 | None gives 0; Some(s) gives s iff it fits GLsizei, else ConversionOverflow |
| SlotVertexArray.PointerCall | src/slot/vertex_array.rs:61-84 | Integer uses the I-pointer call; all others use the plain call, normalized iff Normalized or PackedNormalized; the arguments pass unchanged |
| SlotVertexArray.SetEnabled | src/slot/vertex_array.rs:95-106 | the index is enabled iff requested, and no other index changes |
| SlotVertexArray.EnableCall | src/slot/vertex_array.rs:95-106 | Enable for true, Disable for false, on that index |
| SlotVertexArray.EnableCalls | src/slot/vertex_array.rs:86-90 | no call for None, one enable call for Some |
| SlotVertexArray.EnabledAfter | src/slot/vertex_array.rs:86-90 | None leaves the enable state untouched; Some sets it |
| SlotVertexArray.SetAttributeEnabled | src/slot/vertex_array.rs:95-106 | needs a NotDefault array token; switches that index only, with one call |
| SlotVertexArray.SetAttribute | src/slot/vertex_array.rs:29-91 | needs NotDefault array and array-buffer tokens; stride conversion then alignment panic, with no call; otherwise the setup is recorded for the bound array, then the optional enable |
| SlotVertexArray.AttributeSourceIsRealBuffer | src/slot/vertex_array.rs:14-31 | a recorded attribute source is a user buffer with a datastore |
| SlotVertexArray.Bind | src/slot/vertex_array.rs:115-120 | one bind call; token NotDefault |
| SlotVertexArray.Unbind | src/slot/vertex_array.rs:123-128 | binds 0; token IsDefault |
| SlotVertexArray.Inherit | src/slot/vertex_array.rs:133-142 | token Unknown, no call |
| SlotVertexArray.Delete | src/slot/vertex_array.rs:145-147 | one delete call; a deleted bound array falls back to 0; its attribute state goes; the token ends |
| SlotRenderbuffer.Storage | src/slot/renderbuffer.rs:18-33 | needs a NotDefault token; panics with no call iff width or height exceeds GLsizei; otherwise one call |
| SlotRenderbuffer.StorageMultisample | src/slot/renderbuffer.rs:42-59 | the same, with a sample count of 1 to 255 passed unchanged |
| SlotRenderbuffer.Bind | src/slot/renderbuffer.rs:67-72 | one bind call; token NotDefault |
| SlotRenderbuffer.Unbind | src/slot/renderbuffer.rs:75-80 | binds 0; token IsDefault |
| SlotRenderbuffer.Inherit | src/slot/renderbuffer.rs:85-94 | token Unknown, no call |
| SlotRenderbuffer.Delete | src/slot/renderbuffer.rs:97-99 | one delete call; a deleted bound renderbuffer falls back to 0; the token ends |

## Left out

- Demo applications, binding generation (build.rs) and the state setters of state.rs: window and file I/O, floats and plain enum forwarding. state.rs is not part of this model, apart from the `CompareFunc` values.
- slot/mod.rs: module declarations and the zero-sized token helpers, which carry no behaviour.
- Driver semantics: what the driver answers is a parameter, so the model does not decide framebuffer completeness, compile or link results, mapping failures or info-log contents. Sampler state set by `glTexParameteri` and renderbuffer storage are logged as calls, not tracked as state.
- Detaching a deleted texture or renderbuffer from the bound framebuffer, a GL side effect of deletion: attachments are removed only when their framebuffer is deleted.
- Borrow checking and move semantics: a handle is a value and can be copied, so the model does not capture that `into_name` or deletion consumes a handle; `name()` and `into_name()` are both the handle's `name` field. Token lifetimes are modelled by dropping a token from the state where its borrow would end.
- `GLHF::current` creates no renderbuffer slot; the renderbuffer slot operations are modelled on their own.
- `lod_range` and the uniform contents: floating point. Uniform uploads are modelled by shape, scalar type and length only.
- Slice contents: data uploads, mapped bytes and info-log text are modelled by length and, for info logs, the position of the nul byte.
- Raw pointers, `MaybeUninit` and GLSL source text.
- The unchecked safety contracts of `blit_from`, `blit_to`, `copy_subimage_to`, `copy_image_to` and the draw calls (for example that vertex attributes stay inside their buffers): only their conversions, panics and no-op cases are modelled.
- SlotProgram.InfoLog: the `Vec` capacity is modelled as exactly the requested length.

## Findings

| source | as written | input that shows it | evidently intended | confidence | as-written member | corrected member |
|---|---|---|---|---|---|---|
| src/slot/texture.rs:115-120 | an excluded end `n` sets TEXTURE_MAX_LEVEL to `n.saturating_add(1)` | `level_range(0..4)` sets max level 5, so the excluded levels 4 and 5 are enabled | `n.saturating_sub(1)`: the inclusive max is the last level before the excluded end, as the code's own comment says | high; not executed | SlotTexture.LevelRangeAsWrittenOvershoots | SlotTexture.LevelRangeIsTheRange |
