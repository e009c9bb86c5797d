# ChucK emitter session state and on-the-fly message, in Dafny

This project models two pieces of state from the ChucK audio language's
compiler:

- the emitter's session state (`chuck_emit.dfy`, module `ChuckEmit`). A
  compiled unit under construction (`Chuck_Code`, class `Code`) holds an
  instruction vector, three stacks of pending jumps (continue, break and
  return) and a frame. The emitter (`Chuck_Emitter`, class `Emitter`) holds
  the active unit. It appends instructions to that unit and reports the next
  instruction index, which is used for forward patching of jumps. It forwards
  scope and local-variable requests to the unit's frame. It also keeps a stack
  of labels that annotate the instruction dump;
- the on-the-fly programming network message (`chuck_otf.dfy`, module
  `ChuckOtf`). `OTF_Net_Msg` (class `OtfNetMsg`) is a fixed-layout record: a
  magic header, a type, three parameters, a payload length and a 512-byte
  buffer. It has a reset (`clear`), a default constructor that clears, and a
  field-wise copy constructor.

Both are imperative in the source, so both are classes whose methods change
fields in place. Vectors are `seq` fields that the methods reassign. The
message buffer is an `array<bv8>` of length 512 that the message owns.

Modelling decisions:

- Pointers to objects the emitter only stores (`Chuck_Env`, `Chuck_Context`,
  `Chuck_Namespace`, `Chuck_Func`, `Chuck_Instr`, `Chuck_Instr_Goto`,
  `Chuck_Instr_Stmt_Start`, `Chuck_Local`) are empty classes. A field is
  nullable (`Env?`) where the source sets it to `NULL`.
- `Chuck_Frame` is defined in `chuck_frame.h`, which is not part of this
  model. The class `Frame` has one ghost field, `requests`. It logs the
  `push_scope` and `alloc_local` requests the emitter forwards. No scope
  layout, offset or stack-depth arithmetic is modelled.
- `t_CKUINT` fields are `nat`. `chuck_def.h`, which fixes their width, is not
  part of this model. No operation here does arithmetic on them, and every
  constant (`0x8c8cc8c8`, `512`, `0xffffffff`) fits in 32 bits.
- The source field `type` is named `msgType`, because `type` is a Dafny
  keyword.
- `assert( code != NULL )` in the inline emitter bodies becomes
  `requires code != null`.
- `codestr_context.pop_back()` on an empty vector is undefined behaviour in
  C++. So `CodestrContextPop` requires a non-empty stack, and the pure
  `RunLabels` returns `None` for a pop on an empty stack.
- `append` returns nothing. A caller that needs the position of the
  instruction reads `next_index()` just before appending
  (`AppendAtNextIndex`).
- The vectors of pointers (instructions, pending jumps, locals, code stack,
  statement stack) hold non-null elements, and `Append` takes a non-null
  instruction. The C++ vectors hold raw pointers and `append` does not check
  its argument, so null entries are possible there but are not represented
  here.
- The message buffer is an `array<bv8>` reference held in a `const` field.
  In C++ the buffer is embedded in the record, so two distinct messages never
  share it. In the model, distinct messages are known to have distinct
  buffers only through `fresh(buffer)` at construction (both constructors
  promise it). Two arbitrary messages the model did not construct might
  share one buffer.

## Model

| member | source | states |
|---|---|---|
| ChuckEmit.Code.constructor | src/core/chuck_emit.h:84-90 | a fresh unit has stack depth 0, `need_this` and `is_static` false, a newly allocated frame with no requests, empty instruction vector and empty continue/break/return stacks, and empty name and filename |
| ChuckEmit.Emitter.constructor | src/core/chuck_emit.h:136-139 | a fresh emitter has null env, code, context, namespace and function, `dump` and `should_replace_dac` false, and empty locals, code stack, statement stack, replacement name and label stack |
| ChuckEmit.Emitter.Append | src/core/chuck_emit.h:145-146 | requires an active unit; its instruction vector becomes the old one followed by the instruction, earlier instructions are unchanged, and nothing else in the unit or the emitter changes |
| ChuckEmit.Emitter.NextIndex | src/core/chuck_emit.h:148-149 | requires an active unit, returns the current instruction count and changes nothing |
| ChuckEmit.AppendAtNextIndex | src/core/chuck_emit.h:145-149 | the index read from `next_index` just before `append(i)` is the position of `i`, and the instructions before it are the old vector |
| ChuckEmit.AppendAllIsConcatenation | src/core/chuck_emit.h:145-149 | any run of appends equals concatenation: earlier instructions keep their indices (recorded jump indices stay valid) and the k-th appended instruction lands at the old count plus k |
| ChuckEmit.AppendEach | src/core/chuck_emit.h:145-146 | calling `append` once per instruction, in order, leaves the vector equal to the fold `AppendAll` of the old vector, that is, the old vector followed by the instructions |
| ChuckEmit.Frame.PushScope | src/core/chuck_emit.h:153 | the frame records one scope push and nothing else |
| ChuckEmit.Frame.AllocLocal | src/core/chuck_emit.h:157-158 | the frame records one allocation with the given size, name and reference/object/global flags |
| ChuckEmit.Emitter.PushScope | src/core/chuck_emit.h:152-153 | requires an active unit; only the unit's frame changes, by one scope push; instructions and jump stacks are unchanged |
| ChuckEmit.Emitter.AllocLocal | src/core/chuck_emit.h:154-158 | requires an active unit; only the unit's frame changes, by one allocation request with the given arguments; instructions and jump stacks are unchanged |
| ChuckEmit.Emitter.CodestrContextPush | src/core/chuck_emit.h:178-179 | the label stack gains the prefix on top, the top label is then the prefix, and the active unit, its instructions and the replace-dac fields are unchanged |
| ChuckEmit.Emitter.CodestrContextPop | src/core/chuck_emit.h:181-182 | requires a non-empty label stack; removes exactly its last label; the active unit, its instructions and the replace-dac fields are unchanged |
| ChuckEmit.Emitter.CodestrContextTop | src/core/chuck_emit.h:184-185 | returns "" when the label stack is empty and its last label otherwise; reads the emitter without changing it |
| ChuckEmit.PushTopPop | src/core/chuck_emit.h:178-185 | push then top returns the pushed label, and push then pop restores the label stack exactly |
| ChuckEmit.RunLabelsKeepsBase | src/core/chuck_emit.h:176-182 | a run of pushes and pops that never goes more than k labels below its start succeeds, changes the depth by pushes minus pops, and leaves all but the top k labels unchanged |
| ChuckEmit.BalancedRegionRestores | src/core/chuck_emit.h:176-182 | a balanced, properly nested run of pushes and pops restores the label stack exactly |
| ChuckEmit.PushedLabelOnTopAfterRegion | src/core/chuck_emit.h:176-185 | a label pushed before a balanced region is back on top of the same stack after the region |
| ChuckEmit.RunLabelCalls | src/core/chuck_emit.h:178-182 | performing a run of `codestr_context_push`/`codestr_context_pop` calls on the emitter, where no pop meets an empty stack, leaves its label stack equal to what `RunLabels` predicts, so the region lemmas hold of the emitter itself |
| ChuckOtf.Zeros | src/core/chuck_otf.h:68 | the zero fill has the requested length and every byte is 0 |
| ChuckOtf.ClearedMsgIsCanonical | src/core/chuck_otf.h:42-46 | the cleared state has header `0x8c8cc8c8`, which differs from the error value `0xffffffff`; type, param, param2, param3 and length are 0; length 0 is within the 512-byte capacity; the buffer has 512 bytes, all 0 |
| ChuckOtf.OtfNetMsg.View | src/core/chuck_otf.h:56-64 | the value view carries every field and as many bytes as the buffer holds |
| ChuckOtf.OtfNetMsg.Clear | src/core/chuck_otf.h:67-68 | from any prior contents, the message becomes the cleared state, buffer bytes included |
| ChuckOtf.OtfNetMsg.constructor | src/core/chuck_otf.h:66 | a default-constructed message owns a new 512-byte buffer and equals the cleared state |
| ChuckOtf.OtfNetMsg.Copy | src/core/chuck_otf.h:71-80 | the copy equals the source field by field and in all 512 buffer bytes, in a newly allocated buffer of its own |
| ChuckOtf.CopyIsIndependent | src/core/chuck_otf.h:71-80 | clearing a copy leaves the source message unchanged, because the two buffers are distinct storage |
| ChuckOtf.ClearTwiceEqualsDefault | src/core/chuck_otf.h:66-68 | clearing twice gives the same state as clearing once, which equals a default-constructed message |

## Left out

- `util_xforms.h` (window functions, FFT, DCT and the `sqrt`/`atan2` macros): floating-point numerics outside the emitter and protocol state.
- `otf_hton` and `otf_ntoh`: declared without bodies, and the field widths they convert are fixed in `chuck_def.h`, which is not part of this model.
- `otf_process_msg`, `otf_send_cmd`, `otf_send_file`, `otf_send_connect` and `otf_recv_cb`: declared without bodies; they use the network, the virtual machine, the compiler and files.
- `uh`, `poop`, `poop_size` and `g_otf_log`: an easter egg and a logging global.
- `addref_on_scope`, `pop_scope`, `traverse_scope_on_jump` and `find_dur`: declared without bodies; they depend on frame internals, instruction types and the type-checker environment, none of which are part of this model.
- `emit_engine_init`, `emit_engine_shutdown`, `emit_engine_emit_prog` and `emit_to_code`: declared without bodies; they depend on the syntax tree and VM code types.
- `emit_engine_addr_map` and `emit_engine_resolve`: marked as not used in the source.
- `Chuck_Frame` internals (scope layout, offsets, high-water mark): `chuck_frame.h` is not part of this model. The frame is seen only through its request log.
- ChuckEmit.Emitter.AllocLocal: does not return the `Chuck_Local *` the frame hands back, because what the frame returns (including a possible null on redefinition) is decided in `chuck_frame.h`.
- Destructors and heap ownership (`CK_SAFE_DELETE` of the frame, the open questions in the source about freeing instructions and jump entries, and the reference-count state `Chuck_Emitter` inherits from its `Chuck_VM_Object` base): Dafny has no deallocation, and `Chuck_VM_Object` is declared in a header that is not part of this model.
- The integer width of `t_CKUINT`: fields are unbounded `nat`, because nothing here does arithmetic on them.
- Thread safety of the on-the-fly receive path: the model is sequential.
