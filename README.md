# A verified model of the wasmer runtime core

This project models six small components of the wasmer WebAssembly runtime (Rust) in Dafny. It proves the properties those components promise.

- **Type and index algebra** (`types.dfy`, module `WasmTypes`), from `lib/runtime-core/src/types.rs`:
  - value tags and `to_u128`;
  - the integer `NativeWasmType` / `WasmExternType` conversions and their round trips;
  - import compatibility of table and memory descriptors;
  - memory-type classification;
  - checking argument values against a signature;
  - the split of each index space into an imported and a local part (`local_or_import` / `convert_up`).
  - Rust's `as` casts are written out as truncation modulo 2^N (`Truncate`) and two's-complement reinterpretation (`AsSigned`).
- **Local loader** (`loader.dfy`, module `Loader`), from `lib/runtime-core/src/loader.rs`:
  - page rounding of code buffers;
  - copying compiled code into a zero-filled, page-rounded buffer (an `array`);
  - flattening typed arguments into the 64-bit words of a native call, and the five-word limit.
- **Middleware pipeline** (`codegen.dfy`, module `Codegen`), from `lib/runtime-core/src/codegen.rs`:
  - `MiddlewareChain` and `EventSink` as classes;
  - `run` with its nested drain-and-refill loops, proved against a functional specification (`RunSpec`);
  - the pre-validation gate of `compile`.
  - Each middleware is a function from one event to the events it pushes, or an error. The function code generator has a state: feeding it an event gives its new state and success or an error.
- **Adapter interpreter driver** (`interpreter.dfy`, module `Interpreter`), from `lib/interface-types/src/interpreter/mod.rs`:
  - `try_from`, which builds one executable instruction per instruction;
  - `run`, which starts from a fresh stack and executes the instructions in order until the first error.
  - What each instruction does is the parameter `step`.
- **Trap recovery** (`signal_unix.dfy`, module `SignalUnix`), from `lib/clif-backend/src/signal/unix.rs`:
  - the table from signal and Cranelift trap code to the error of a trapped call;
  - how `call_protected` saves and restores the per-thread jump buffer and consumes early trap data.
  - The thread-local cells are fields of a class. Which way `setjmp` returns is a parameter.
- **Cranelift code-generator bookkeeping** (`clif_code.dfy`, module `ClifCode`), from `lib/clif-backend/src/code.rs`:
  - signature conversion and the vmctx parameter prepended by `generate_signature`;
  - local-function numbering in `next_function` and parameter-local numbering in `declare_wasm_parameters`;
  - `feed_signatures`, `feed_param`, and `feed_event` as a step on the translation state, usable as the code generator of a middleware run;
  - the vm-context offsets of globals, memories and tables.

`wrappers.dfy` (module `Wrappers`) holds `Option`, `Result` (errors carried as their message) and the machine integer types.

## Model

| member | source | states |
|---|---|---|
| WasmTypes.I32Through64 | lib/runtime-core/src/types.rs:104-121 | An i32 cast to u64 by `to_binary` and back to i32 by `from_binary` is unchanged. |
| WasmTypes.ValueTy | lib/runtime-core/src/types.rs:44-52 | The type tag is the one named like the value's variant, for each of the five variants (iff). |
| WasmTypes.ToU128 | lib/runtime-core/src/types.rs:54-62 | A V128 payload is returned unchanged. I32 and I64 are sign-extended: a negative x gives 2^128 + x. Floats give their bit pattern. |
| WasmTypes.ToBinary | lib/runtime-core/src/types.rs:104-139 | `to_binary`: the value's low 64 bits. Its inverse on every value of the native type is `FromBinary`; see I32Through64 and ExternBinaryRoundTrip. |
| WasmTypes.FromBinary | lib/runtime-core/src/types.rs:104-139 | `from_binary`: the low bits of the word read as the native type in two's complement. It undoes `ToBinary`; see I32Through64 and ExternBinaryRoundTrip. |
| WasmTypes.ToNative | lib/runtime-core/src/types.rs:150-229 | `to_native`: `self as i32`, or `as i64` for the 64-bit types. `FromNative` undoes it on the whole range of each type; see ExternNativeRoundTrip. |
| WasmTypes.FromNative | lib/runtime-core/src/types.rs:150-229 | `from_native`: `native as T`, signed or unsigned by the type. It undoes `ToNative`; see ExternNativeRoundTrip and ExternBinaryRoundTrip. |
| WasmTypes.ExternNativeRoundTrip | lib/runtime-core/src/types.rs:150-221 | For every i8/u8/i16/u16/i32/u32/i64/u64 value, widening to the native type (i32, or i64 for 64-bit types) and casting back gives the value again. This includes u32 and u64, which wrap into negative natives. |
| WasmTypes.ExternBinaryRoundTrip | lib/runtime-core/src/types.rs:104-221 | `from_native(from_binary(to_binary(to_native(x)))) == x` for every value of every extern integer type. |
| WasmTypes.NativeRoundTripExtremes | lib/runtime-core/src/types.rs:547-568 | The round trip of the unit test holds at i64::MIN, at i64::MAX and at -42i32. |
| WasmTypes.TableFitsInImported | lib/runtime-core/src/types.rs:294-301 | `fits_in_imported` for tables: same element type, a minimum no larger than the import's, a maximum at least the import's (absent means u32::MAX). See TableFitsPreorder and TableAbsentMaximum. |
| WasmTypes.TableFitsPreorder | lib/runtime-core/src/types.rs:294-301 | Every table descriptor fits itself, and fitting is transitive. |
| WasmTypes.TableAbsentMaximum | lib/runtime-core/src/types.rs:294-301 | An absent maximum counts as u32::MAX. With no expected maximum, only element type and minimum decide. With no supplied maximum, the expected maximum must be absent or u32::MAX. |
| WasmTypes.MemoryTypeOf | lib/runtime-core/src/types.rs:341-348 | The type is Dynamic exactly when there is no maximum, and SharedStatic exactly when the memory is shared. A shared memory without a maximum is excluded: the source panics on it. |
| WasmTypes.MemoryFitsInImported | lib/runtime-core/src/types.rs:350-357 | `fits_in_imported` for memories: same `shared` flag, a minimum no larger than the import's, a maximum at least the import's (absent means 65536 pages). See MemoryFitsPreorder and MemoryAbsentMaximum. |
| WasmTypes.MemoryFitsPreorder | lib/runtime-core/src/types.rs:350-357 | Every memory fits itself, fitting is transitive, and a fit implies equal `shared` flags. |
| WasmTypes.MemoryAbsentMaximum | lib/runtime-core/src/types.rs:350-357 | An absent maximum counts as 65536 pages. A supplied memory without a maximum fits only if the expected maximum is absent or at least 65536 pages. An expectation without a maximum rejects a supplied maximum above 65536. |
| WasmTypes.ZipTypesMatch | lib/runtime-core/src/types.rs:388-395 | The `zip().all()` holds iff the types match the values' tags pairwise, up to the shorter list. |
| WasmTypes.CheckParamValueTypes | lib/runtime-core/src/types.rs:388-395 | True iff there are as many values as parameters and each value's tag is its parameter's type. |
| WasmTypes.LocalOrImport.AsLocal | lib/runtime-core/src/types.rs:526-531 | `Some` iff the index is local, and then it holds that index. |
| WasmTypes.LocalOrImport.AsImport | lib/runtime-core/src/types.rs:533-538 | `Some` iff the index is imported, and then it holds that index. |
| WasmTypes.LocalOrImportOf | lib/runtime-core/src/types.rs:464-470 | `local_or_import`: an import below the import count, otherwise a local numbered from the count. See SplitThenConvertUp and ConvertUpThenSplit. |
| WasmTypes.ConvertUp | lib/runtime-core/src/types.rs:473-483 | `convert_up`: a local is offset by the import count and cast `as u32`, and an import keeps its index. It inverts `LocalOrImportOf`; see SplitThenConvertUp, ConvertUpThenSplit and ConvertUpWraps. |
| WasmTypes.SplitThenConvertUp | lib/runtime-core/src/types.rs:464-482 | The split gives an import exactly when the index is below the import count. `convert_up` of the split recovers the index. |
| WasmTypes.ConvertUpThenSplit | lib/runtime-core/src/types.rs:464-482 | Splitting `convert_up(x)` gives x back, for every import below the count and every local whose global index fits in 32 bits. |
| WasmTypes.ConvertUpWraps | lib/runtime-core/src/types.rs:474-476 | Beyond that bound the `as u32` of `convert_up` wraps: local u32::MAX after one import comes back as import 0. |
| Loader.RoundUpToPageSize | lib/runtime-core/src/loader.rs:133-135 | The result is a multiple of 4096. Without overflow it is at least the size and less than size + 4096. |
| Loader.ArgWords | lib/runtime-core/src/loader.rs:65-78 | A non-V128 argument gives one word, the low 64 bits of `to_u128`. A V128 gives two words, low then high, with lo + hi·2^64 equal to the payload. |
| Loader.FlattenedAppend | lib/runtime-core/src/loader.rs:65-78 | Flattening distributes over concatenation, so words come in argument order. |
| Loader.FlattenedLength | lib/runtime-core/src/loader.rs:65-78 | The word count is the argument count plus the number of V128 arguments. |
| Loader.FlattenedAt | lib/runtime-core/src/loader.rs:65-78 | Argument k's words sit at position k plus the number of V128 arguments before it. |
| Loader.FlattenArgs | lib/runtime-core/src/loader.rs:65-78 | The loop that fills `args_u64` produces exactly the flattened word vector. |
| Loader.LocalInstance.Load | lib/runtime-core/src/loader.rs:39-54 | The buffer's length is the page-rounded code length. Its first bytes are the code and the rest are zero. It is executable and keeps the offsets. |
| Loader.LocalInstance.Call | lib/runtime-core/src/loader.rs:64-111 | More than five words iff `Err("too many arguments")`, and then no call is made. Otherwise the native entry at `offsets[id]` is called with the flattened words, and its result is returned. `id` must be in range, as the source indexes `offsets[id]`. |
| Loader.ThreeV128ArgumentsAreTooMany | lib/runtime-core/src/loader.rs:83-108 | The limit counts words: three V128 arguments are six words, while two V128s and an i32 are exactly five. |
| Codegen.Deliver | lib/runtime-core/src/codegen.rs:263-268 | The code generator receives a prefix of the final buffer, and is left in the state that feeding it exactly those events in order leads to. |
| Codegen.DeliverAnswers | lib/runtime-core/src/codegen.rs:263-268 | Each event is answered by the generator in the state the earlier events left. The outcome is Ok iff the generator received the whole buffer and accepted every event. On Err, the last event received is the first rejected one, with that error, and all earlier ones were accepted. |
| Codegen.EventSink.Push | lib/runtime-core/src/codegen.rs:229-231 | The event is appended to the buffer. |
| Codegen.EventSink.Drain | lib/runtime-core/src/codegen.rs:258 | Draining returns the whole buffer and leaves it empty. |
| Codegen.MiddlewareChain.constructor | lib/runtime-core/src/codegen.rs:239-241 | A new chain is empty. |
| Codegen.MiddlewareChain.Push | lib/runtime-core/src/codegen.rs:243-245 | The middleware is appended at the end of the chain. |
| Codegen.MiddlewareChain.Run | lib/runtime-core/src/codegen.rs:247-271 | The nested loops compute `RunSpec`. Each stage consumes, in order, the buffer the previous stage produced. The first middleware error ends the run. Then the code generator, if any, is fed the final buffer until its first error. The events it received, the outcome and the generator's final state are all `RunSpec`'s. |
| Codegen.RunStage | lib/runtime-core/src/codegen.rs:258-261 | One middleware stage drains the sink and feeds it every drained event in order. It succeeds iff the stage's output on the old buffer is Ok, and then the sink holds exactly that output. Otherwise it returns that stage's error. |
| Codegen.FeedAll | lib/runtime-core/src/codegen.rs:263-268 | The loop over the final buffer, which carries the generator's state from event to event, delivers the events `Deliver` says are delivered. It returns the same outcome and leaves the generator in the same state: the first error of the code generator, or Ok after every event. |
| Codegen.StageOutputFirstError | lib/runtime-core/src/codegen.rs:257-262 | The first failing event of a stage decides the stage's error, whatever follows it. |
| Codegen.DeliverFirstError | lib/runtime-core/src/codegen.rs:263-268 | When event j is the first the code generator rejects, delivery stops there. The generator received events 0..j, the run returns that error, and the generator keeps the state event j left it in. |
| Codegen.EmptyChainForwardsEvent | lib/runtime-core/src/codegen.rs:253-268 | With no middlewares, the code generator receives exactly the input event. Its verdict is the run's outcome, and its new state is the run's final state. |
| Codegen.DeliverAllOk | lib/runtime-core/src/codegen.rs:263-268 | A code generator that accepts every event receives the whole buffer, the run is Ok, and it ends in the state the whole buffer leads to. |
| Codegen.StageOutputOk | lib/runtime-core/src/codegen.rs:257-262 | A stage succeeds on a buffer iff it succeeds on every event in it. |
| Codegen.StageOutputAppend | lib/runtime-core/src/codegen.rs:257-262 | A stage's output for a + b is its output for a followed by its output for b, so the drain and refill keep event order. |
| Codegen.RunStagesPush | lib/runtime-core/src/codegen.rs:243-262 | After `push(m)`, the new last stage consumes exactly what the previous chain produced. |
| Codegen.RunStagesOk | lib/runtime-core/src/codegen.rs:257-262 | The stages succeed iff every stage accepts every event of the buffer the stages before it produce. |
| Codegen.RunOutcome | lib/runtime-core/src/codegen.rs:247-271 | A middleware error is returned, and the code generator receives nothing and keeps its state. Without a code generator, the run is Ok iff all stages succeed. With one, a successful run fed it the whole final buffer and left it in the state that buffer leads to. |
| Codegen.CompileGate | lib/runtime-core/src/codegen.rs:182-184 | For Cranelift, a validation error is returned before code generation. Otherwise the result is code generation's. |
| Codegen.RequiresPreValidation | lib/runtime-core/src/codegen.rs:216-222 | `requires_pre_validation`: true for Cranelift, false for LLVM and Singlepass. See ValidationOnlyForCranelift. |
| Codegen.ValidationOnlyForCranelift | lib/runtime-core/src/codegen.rs:216-222 | `requires_pre_validation` holds iff the backend is Cranelift. The other backends' results do not depend on validation. |
| Interpreter.TryFrom | lib/interface-types/src/interpreter/mod.rs:191-219 | For supported instructions the result is Ok. It holds one executable instruction per instruction, in the same order. Unsupported variants are excluded, as they hit `unimplemented!`. |
| Interpreter.TryFromFiveInstructions | lib/interface-types/src/interpreter/mod.rs:228-240 | The unit test's five instructions give five executable instructions. |
| Interpreter.Runtime.Apply | lib/interface-types/src/interpreter/mod.rs:167-172 | Running one executable instruction on the runtime: Ok iff the step continues. The stack and instance are then the step's. On failure, the message and instance are the step's, and the stack is kept. |
| Interpreter.Run | lib/interface-types/src/interpreter/mod.rs:155-175 | The loop computes `Execute` from an empty stack. Instructions run in order, the first error is returned with its own message, and otherwise the final stack is returned. |
| Interpreter.EmptyInterpreterReturnsEmptyStack | lib/interface-types/src/interpreter/mod.rs:160-175 | With no instructions, the run returns the empty stack and leaves the instance alone. |
| Interpreter.ExecuteAppend | lib/interface-types/src/interpreter/mod.rs:167-172 | Running a + b means running a, then b from where a left off, unless a failed. |
| Interpreter.FirstErrorStops | lib/interface-types/src/interpreter/mod.rs:167-172 | If instruction k is the first to fail, the run returns its message, whatever instructions follow it. |
| SignalUnix.ClassifyTrap | lib/clif-backend/src/signal/unix.rs:86-128 | The error of a trap without early data, from the signal, the trap code at the faulting instruction and the faulting address. It is the classification table; see MemoryOutOfBoundsExactly through UnknownTrapNamesTheSignal. A trap code under an unhandled signal is excluded, as the source hits `unimplemented!`. |
| SignalUnix.MemoryOutOfBoundsExactly | lib/clif-backend/src/signal/unix.rs:92-110 | With a trap code found, the error is MemoryOutOfBounds iff the signal is SIGSEGV or SIGBUS, or SIGILL with StackOverflow, HeapOutOfBounds or OutOfBounds. |
| SignalUnix.IllegalArithmeticExactly | lib/clif-backend/src/signal/unix.rs:92-110 | IllegalArithmetic iff SIGFPE, or SIGILL with IntegerOverflow, IntegerDivisionByZero or BadConversionToInteger. |
| SignalUnix.IllegalInstructionOnlyCodes | lib/clif-backend/src/signal/unix.rs:92-102 | CallIndirectOOB iff SIGILL with TableOutOfBounds or IndirectCallToNull. IncorrectCallIndirectSignature iff SIGILL with BadSignature. Unreachable iff SIGILL with UnreachableCodeReached. |
| SignalUnix.UnknownClifTrapCodeExactly | lib/clif-backend/src/signal/unix.rs:103-107 | The error is a plain message iff SIGILL comes with a code outside the table (Interrupt, User). The message is "unknown clif trap code". |
| SignalUnix.SignalAloneDecides | lib/clif-backend/src/signal/unix.rs:109-110 | Under SIGSEGV, SIGBUS and SIGFPE, the trap code and address do not change the error. |
| SignalUnix.UnknownTrapNamesTheSignal | lib/clif-backend/src/signal/unix.rs:116-127 | Without a trap code, the error is the unknown-trap report at the faulting address. It names the signal: "floating-point exception", "illegal instruction", "segmentation violation", "bus error", or "error while getting the Signal" for an undecodable number. The four handled signals get distinct names. |
| SignalUnix.ProtectedCalls.CallProtected | lib/clif-backend/src/signal/unix.rs:65-136 | The jump buffer is restored on both paths and the handlers are installed. On a direct return, `f`'s result is returned and early data is untouched. On a trap, early data is cleared: pending early data is the error, otherwise the table's classification of the signal, the trap code at the caught instruction pointer, and the faulting address. |
| ClifCode.ConvertFuncSig | lib/clif-backend/src/code.rs:358-372 | `convert_func_sig`: parameters and returns converted type by type, with the given calling convention. See ConvertTypes, ConvertFuncSigRoundTrip and ConvertFuncSigInjective. |
| ClifCode.ConvertTypes | lib/clif-backend/src/code.rs:358-372 | Conversion keeps length and order: parameter i is a normal parameter of the converted type of wasm type i. |
| ClifCode.ConvertFuncSigRoundTrip | lib/clif-backend/src/code.rs:358-372 | The wasm parameter and return types can be read back from `convert_func_sig`'s result, and the calling convention is the one given. |
| ClifCode.ConvertFuncSigInjective | lib/clif-backend/src/code.rs:358-372 | Distinct wasm signatures convert to distinct Cranelift signatures. |
| ClifCode.ConvertAll | lib/clif-backend/src/code.rs:331-339 | One converted signature per signature, in order. |
| ClifCode.GenerateSignature | lib/clif-backend/src/code.rs:1227-1242 | The vmctx pointer is inserted as parameter 0 (not last, as the doc comments say). The original parameters shift by one, and returns and calling convention are unchanged. The method at lines 1090-1105 is the same code. |
| ClifCode.NormalLocalsNumbering | lib/clif-backend/src/code.rs:1251-1274 | Locals are numbered 0, 1, … in parameter order. Each comes from a normal parameter of its type, and every normal parameter gets one. |
| ClifCode.LeadingSpecialParam | lib/clif-backend/src/code.rs:1251-1274 | After a leading special parameter, local k is defined from parameter k + 1. |
| ClifCode.DeclareWasmParameters | lib/clif-backend/src/code.rs:1251-1274 | The loop declares exactly `NormalLocals` of the parameters and returns their count. |
| ClifCode.GeneratedSignatureLocals | lib/clif-backend/src/code.rs:65-127 | For a function of `next_function`, the wasm parameters become locals 0..n-1 with their converted types, skipping vmctx. |
| ClifCode.EntitySlot | lib/clif-backend/src/code.rs:428-681 | An index below the import count is found in the imported area, any other in the local area. The offset is the index within that part times the space's entry size. |
| ClifCode.EntrySize | lib/clif-backend/src/code.rs:450-668 | Every slot holds a pointer to the entity's struct. The stride is the pointer size for globals and memories, and `LocalTable::size()` for tables. |
| ClifCode.SlotsDistinct | lib/clif-backend/src/code.rs:634-681 | Distinct indices of one index space get distinct slots. |
| ClifCode.FunctionCodeGenerator.constructor | lib/clif-backend/src/code.rs:88-96 | The generator `next_function` builds: the given function and converted signatures, local 0 next, nothing translated yet, and a control stack holding the function's frame with its number of return values. |
| ClifCode.FunctionCodeGenerator.FeedParam | lib/clif-backend/src/code.rs:1113-1116 | `next_local` grows by exactly one and nothing else changes. |
| ClifCode.FunctionCodeGenerator.FeedEvent | lib/clif-backend/src/code.rs:1129-1159 | The method's new control stack, translated operators and result are `FeedStep`'s on the old ones. The function and next local are unchanged. |
| ClifCode.FeedStep | lib/clif-backend/src/code.rs:1129-1159 | Internal events, and any event once the control stack is empty, return Ok and change nothing. Otherwise the operator is recorded as translated, handed to `translate_operator` with the control stack, and its new stack and outcome are taken. |
| ClifCode.AfterFinalEndIgnored | lib/clif-backend/src/code.rs:1147-1149 | Fed through a middleware run after its control stack has emptied, the generator accepts every further event and its state does not change. |
| ClifCode.ModuleCodeGenerator.constructor | lib/clif-backend/src/code.rs:46-55 | No signatures yet, no converted signatures, no functions. |
| ClifCode.ModuleCodeGenerator.FeedSignatures | lib/clif-backend/src/code.rs:331-339 | The signatures are kept, and one converted signature per signature is appended in order with the default calling convention. Functions are unchanged. |
| ClifCode.ModuleCodeGenerator.NextFunction | lib/clif-backend/src/code.rs:65-291 | The new function's index is the number of functions before it. Its signature is the generated one for its type, with locals declared for its normal parameters. Its generator starts at local 0 with a non-empty control stack and is appended to `functions`. |

## Left out

- Floating point: F32/F64 values are carried as their bit patterns. The f32/f64 `NativeWasmType` and `WasmExternType` impls are not modelled, since they are bit reinterpretations.
- `mmap`, `mprotect`, `munmap`, and the `transmute` of code pointers are left out. The code buffer is an array, "executable" is a flag, and the native entry point is the function parameter `invoke`.
- Loader.LocalInstance.Call: the per-arity dispatch (lines 83-108) is a single call with the word vector.
- Loader.RoundUpToPageSize: in a release build `size + 4095` wraps. The model wraps too, but its bounds are stated only for sizes without overflow.
- WasmTypes.ConvertUpThenSplit: requires the global index of a local to fit in 32 bits. `convert_up` casts with `as u32` and wraps otherwise, as `ConvertUpWraps` shows.
- `validate`, and the wasmparser and compiler calls of `compile`, are calls into an unseen parser. Validation and code generation enter `CompileGate` as results.
- Stateful middlewares: a middleware is a pure function of the event. State a middleware keeps between events is not modelled. The code generator's state is modelled.
- The individual WIT instructions and `Stack` are not modelled; their semantics is the `step` parameter. Instruction names (`Display`) are not modelled either.
- `sigaction`, `setjmp`/`longjmp`, the thread-local cells, `do_unwind` and its abort on an empty buffer, and `get_faulting_addr_and_ip` are not modelled. Which way `setjmp` returns is a parameter, and the caught addresses and early data are fields.
- SignalUnix.ProtectedCalls.CallProtected: `f` is a pure function. That it runs exactly once, and its side effects, are not captured.
- The unknown-trap message is kept as its address and signal name, not formatted with `{:p}`.
- Cranelift IR construction in code.rs is not modelled: `make_*` bodies, heap styles and guard sizes, the translation of calls and memory operations, `finalize`, and the `debug` feature block. Only the arithmetic and ordering above are modelled.
- `feed_local` and `declare_locals` are not modelled.
- The vmctx value label set by `declare_wasm_parameters` is not modelled.
- `translate_operator` is the parameter `translate`.
- ClifCode.ClifTypeOf: the `Converter` between wasm and Cranelift types lives in module.rs, which is not part of this model. The usual mapping is assumed (V128 as I32X4), and index conversions are taken as the identity.
- ClifCode.EntitySlot: the `as i64` cast of the offset is not modelled. Offsets of u32 indices times small entry sizes fit.
- The values of `LocalTable::size()` and of the pointer size are parameters of `EntrySize`; which of them each index space uses is modelled.
- lib/runtime-core/src/lib.rs is module wiring and delegation. lib/emscripten/src/exception.rs consists of foreign calls only.
