/** The bookkeeping of the Cranelift backend's code generators
    (lib/clif-backend/src/code.rs): converting wasm signatures to Cranelift
    signatures, prepending the vmctx parameter, numbering local functions
    and the locals of parameters, and the offsets at which globals,
    memories and tables are found behind the vmctx pointer. The Cranelift
    IR the generators emit is not modelled; `translate_operator` is a
    parameter. */
module ClifCode {
  import opened Wrappers
  import opened WasmTypes
  import Codegen

  // ---------------------------------------------------------------------
  // Cranelift signatures
  // ---------------------------------------------------------------------

  /** Cranelift value types: integers and floats of a bit width, and the
      128-bit vector of four i32 lanes. */
  datatype ClifType = IntType(bits: nat) | FloatType(bits: nat) | I32X4

  /** `Converter(Type).into()`: the Cranelift type of a wasm value type. */
  function ClifTypeOf(t: Type): ClifType
  {
    match t
    case I32 => IntType(32)
    case I64 => IntType(64)
    case F32 => FloatType(32)
    case F64 => FloatType(64)
    case V128 => I32X4
  }

  /** The wasm type a Cranelift type stands for, if any. */
  function WasmTypeOf(c: ClifType): (r: Option<Type>)
    ensures r.Some? ==> ClifTypeOf(r.value) == c
  {
    match c
    case IntType(32) => Some(Type.I32)
    case IntType(64) => Some(Type.I64)
    case FloatType(32) => Some(Type.F32)
    case FloatType(64) => Some(Type.F64)
    case I32X4 => Some(Type.V128)
    case _ => None
  }

  datatype ArgumentPurpose =
    | Normal | StructReturn | Link | FramePointer | CalleeSaved | VMContext | SignatureId | StackLimit

  /** `ir::AbiParam`: a value type and what the parameter is for. */
  datatype AbiParam = AbiParam(valueType: ClifType, purpose: ArgumentPurpose)

  datatype CallConv = Fast | Cold | SystemV | WindowsFastcall | BaldrdashSystemV | BaldrdashWindows | Probestack

  /** `ir::Signature`. */
  datatype ClifSignature = ClifSignature(params: seq<AbiParam>, results: seq<AbiParam>, callConv: CallConv)

  /** The parameter list of a converted type list: `AbiParam::new` of each
      converted type, in order. */
  function ConvertTypes(ts: seq<Type>): (ps: seq<AbiParam>)
    ensures |ps| == |ts|
    ensures forall i :: 0 <= i < |ts| ==> ps[i] == AbiParam(ClifTypeOf(ts[i]), Normal)
  {
    if ts == [] then [] else [AbiParam(ClifTypeOf(ts[0]), Normal)] + ConvertTypes(ts[1..])
  }

  /** `convert_func_sig`. */
  function ConvertFuncSig(sig: FuncSig, callConv: CallConv): ClifSignature
  {
    ClifSignature(ConvertTypes(sig.params), ConvertTypes(sig.results), callConv)
  }

  /** The wasm types of a parameter list made only of normal parameters of
      wasm-representable types. */
  function WasmTypesOf(ps: seq<AbiParam>): Option<seq<Type>>
  {
    if ps == [] then Some([])
    else match (WasmTypeOf(ps[0].valueType), WasmTypesOf(ps[1..]))
      case (Some(t), Some(rest)) => if ps[0].purpose == Normal then Some([t] + rest) else None
      case _ => None
  }

  /** `convert_func_sig` loses nothing: the wasm signature can be read back
      from the Cranelift one, so distinct signatures stay distinct. */
  lemma ConvertFuncSigRoundTrip(sig: FuncSig, callConv: CallConv)
    ensures WasmTypesOf(ConvertFuncSig(sig, callConv).params) == Some(sig.params)
    ensures WasmTypesOf(ConvertFuncSig(sig, callConv).results) == Some(sig.results)
    ensures ConvertFuncSig(sig, callConv).callConv == callConv
  {
    ConvertTypesRoundTrip(sig.params);
    ConvertTypesRoundTrip(sig.results);
  }

  lemma {:induction false} ConvertTypesRoundTrip(ts: seq<Type>)
    ensures WasmTypesOf(ConvertTypes(ts)) == Some(ts)
  {
    if ts != [] {
      var ps := ConvertTypes(ts);
      assert ps[1..] == ConvertTypes(ts[1..]);
      ConvertTypesRoundTrip(ts[1..]);
      assert [ts[0]] + ts[1..] == ts;
    }
  }

  /** Two signatures with the same conversion are the same signature. */
  lemma ConvertFuncSigInjective(a: FuncSig, b: FuncSig, callConv: CallConv)
    requires ConvertFuncSig(a, callConv) == ConvertFuncSig(b, callConv)
    ensures a == b
  {
    ConvertFuncSigRoundTrip(a, callConv);
    ConvertFuncSigRoundTrip(b, callConv);
  }

  /** The converted signatures of a list of signatures, in order. */
  function ConvertAll(sigs: seq<FuncSig>, callConv: CallConv): (r: seq<ClifSignature>)
    ensures |r| == |sigs|
    ensures forall i :: 0 <= i < |sigs| ==> r[i] == ConvertFuncSig(sigs[i], callConv)
  {
    if sigs == [] then [] else [ConvertFuncSig(sigs[0], callConv)] + ConvertAll(sigs[1..], callConv)
  }

  /** Converting one more signature appends its conversion. */
  lemma ConvertAllSnoc(sigs: seq<FuncSig>, i: nat, callConv: CallConv)
    requires i < |sigs|
    ensures ConvertAll(sigs[..i + 1], callConv) == ConvertAll(sigs[..i], callConv) + [ConvertFuncSig(sigs[i], callConv)]
  {
    var a := ConvertAll(sigs[..i + 1], callConv);
    var b := ConvertAll(sigs[..i], callConv) + [ConvertFuncSig(sigs[i], callConv)];
    assert |a| == |b|;
    forall j | 0 <= j < |a| ensures a[j] == b[j] {
      assert sigs[..i + 1][j] == sigs[j];
    }
  }

  /** `pointer_type`: the integer type as wide as a pointer. */
  function PointerType(pointerBits: nat): ClifType
  {
    IntType(pointerBits)
  }

  /** Both `generate_signature` functions: the stored signature with the
      vmctx pointer inserted as parameter 0 (the doc comments say "last",
      the code inserts first). */
  function GenerateSignature(clifSignatures: seq<ClifSignature>, sigIndex: nat, pointerBits: nat): (r: ClifSignature)
    requires sigIndex < |clifSignatures|
    ensures |r.params| == |clifSignatures[sigIndex].params| + 1
    ensures r.params[0] == AbiParam(PointerType(pointerBits), VMContext)
    ensures forall i :: 0 <= i < |clifSignatures[sigIndex].params| ==>
      r.params[i + 1] == clifSignatures[sigIndex].params[i]
    ensures r.results == clifSignatures[sigIndex].results
    ensures r.callConv == clifSignatures[sigIndex].callConv
  {
    var signature := clifSignatures[sigIndex];
    signature.(params := [AbiParam(PointerType(pointerBits), VMContext)] + signature.params)
  }

  // ---------------------------------------------------------------------
  // Locals of the parameters
  // ---------------------------------------------------------------------

  /** A local variable declared for a parameter: its number, its type and
      the position of the parameter it is defined from. */
  datatype DeclaredVar = DeclaredVar(variable: nat, valueType: ClifType, paramIndex: nat)

  /** The locals `declare_wasm_parameters` declares for a parameter list:
      one per normal parameter, numbered from 0 in parameter order. */
  function NormalLocals(params: seq<AbiParam>): seq<DeclaredVar>
  {
    if params == [] then []
    else
      var prefix := NormalLocals(params[..|params| - 1]);
      var last := params[|params| - 1];
      if last.purpose == Normal then prefix + [DeclaredVar(|prefix|, last.valueType, |params| - 1)] else prefix
  }

  /** `locals` are numbered 0, 1, ... in parameter order; each is defined
      from a normal parameter of its type; and every normal parameter gets
      one. */
  predicate LocalsNumbered(params: seq<AbiParam>, locals: seq<DeclaredVar>)
  {
    && (forall k :: 0 <= k < |locals| ==> locals[k].variable == k)
    && (forall k :: 0 <= k < |locals| ==>
          locals[k].paramIndex < |params| && params[locals[k].paramIndex].purpose == Normal
          && locals[k].valueType == params[locals[k].paramIndex].valueType)
    && (forall k, m :: 0 <= k < m < |locals| ==> locals[k].paramIndex < locals[m].paramIndex)
    && (forall i :: 0 <= i < |params| && params[i].purpose == Normal ==>
          exists k :: 0 <= k < |locals| && locals[k].paramIndex == i)
  }

  /** The locals of `declare_wasm_parameters` are numbered as promised. */
  lemma {:induction false} NormalLocalsNumbering(params: seq<AbiParam>)
    ensures LocalsNumbered(params, NormalLocals(params))
  {
    if params != [] {
      var n := |params| - 1;
      NormalLocalsNumbering(params[..n]);
      assert params == params[..n] + [params[n]];
      if params[n].purpose == Normal {
        NumberedAfterNormal(params[..n], params[n], NormalLocals(params[..n]));
      } else {
        NumberedAfterOther(params[..n], params[n], NormalLocals(params[..n]));
      }
    }
  }

  /** A normal parameter at the end adds the next local, defined from it. */
  lemma NumberedAfterNormal(prefix: seq<AbiParam>, last: AbiParam, before: seq<DeclaredVar>)
    requires last.purpose == Normal
    requires LocalsNumbered(prefix, before)
    ensures LocalsNumbered(prefix + [last], before + [DeclaredVar(|before|, last.valueType, |prefix|)])
  {
    var params := prefix + [last];
    var locals := before + [DeclaredVar(|before|, last.valueType, |prefix|)];
    forall k | 0 <= k < |before|
      ensures locals[k] == before[k] && params[before[k].paramIndex] == prefix[before[k].paramIndex]
    {
    }
    forall i | 0 <= i < |params| && params[i].purpose == Normal
      ensures exists k :: 0 <= k < |locals| && locals[k].paramIndex == i
    {
      if i == |prefix| {
        assert locals[|before|].paramIndex == i;
      } else {
        assert prefix[i] == params[i];
        var k :| 0 <= k < |before| && before[k].paramIndex == i;
        assert locals[k] == before[k];
      }
    }
  }

  /** A parameter of another purpose at the end adds no local. */
  lemma NumberedAfterOther(prefix: seq<AbiParam>, last: AbiParam, before: seq<DeclaredVar>)
    requires last.purpose != Normal
    requires LocalsNumbered(prefix, before)
    ensures LocalsNumbered(prefix + [last], before)
  {
    var params := prefix + [last];
    forall k | 0 <= k < |before|
      ensures params[before[k].paramIndex] == prefix[before[k].paramIndex]
    {
    }
    forall i | 0 <= i < |params| && params[i].purpose == Normal
      ensures exists k :: 0 <= k < |before| && before[k].paramIndex == i
    {
      assert prefix[i] == params[i];
    }
  }

  /** A signature whose parameter 0 is not normal and whose other
      parameters are: local `k` is defined from parameter `k + 1`. */
  lemma {:induction false} LeadingSpecialParam(p: AbiParam, ps: seq<AbiParam>)
    requires p.purpose != Normal
    requires forall i :: 0 <= i < |ps| ==> ps[i].purpose == Normal
    ensures |NormalLocals([p] + ps)| == |ps|
    ensures forall k :: 0 <= k < |ps| ==> NormalLocals([p] + ps)[k] == DeclaredVar(k, ps[k].valueType, k + 1)
  {
    if ps == [] {
      assert ([p] + ps)[..0] == [];
    } else {
      var n := |ps| - 1;
      var q := [p] + ps;
      assert q[..|q| - 1] == [p] + ps[..n];
      LeadingSpecialParam(p, ps[..n]);
      assert q[|q| - 1] == ps[n];
    }
  }

  /** `declare_wasm_parameters`: walk the parameters, declaring a local for
      each normal one; returns how many were declared. */
  method DeclareWasmParameters(params: seq<AbiParam>) returns (count: nat, declared: seq<DeclaredVar>)
    ensures declared == NormalLocals(params)
    ensures count == |declared|
  {
    var nextLocal := 0;
    declared := [];
    for i := 0 to |params|
      invariant declared == NormalLocals(params[..i])
      invariant nextLocal == |declared|
    {
      var paramType := params[i];
      assert params[..i + 1][..i] == params[..i];
      if paramType.purpose == Normal {
        declared := declared + [DeclaredVar(nextLocal, paramType.valueType, i)];
        nextLocal := nextLocal + 1;
      }
    }
    assert params[..|params|] == params;
    count := nextLocal;
  }

  /** For a function whose signature was generated from a converted wasm
      signature, the wasm parameters become locals 0, 1, ..., in order and
      with their converted types, skipping the vmctx parameter. */
  lemma GeneratedSignatureLocals(clifSignatures: seq<ClifSignature>, sigIndex: nat, pointerBits: nat,
                                 sig: FuncSig, callConv: CallConv)
    requires sigIndex < |clifSignatures|
    requires clifSignatures[sigIndex] == ConvertFuncSig(sig, callConv)
    ensures var locals := NormalLocals(GenerateSignature(clifSignatures, sigIndex, pointerBits).params);
      |locals| == |sig.params| &&
      forall k :: 0 <= k < |locals| ==> locals[k] == DeclaredVar(k, ClifTypeOf(sig.params[k]), k + 1)
  {
    var g := GenerateSignature(clifSignatures, sigIndex, pointerBits);
    var ps := clifSignatures[sigIndex].params;
    assert g.params == [g.params[0]] + ps;
    LeadingSpecialParam(g.params[0], ps);
  }

  // ---------------------------------------------------------------------
  // Offsets behind the vmctx pointer
  // ---------------------------------------------------------------------

  /** The arrays of the vm context an entity is reached through: the local
      or the imported part of an index space. */
  datatype VmArea = LocalArea(space: IndexSpace) | ImportedArea(space: IndexSpace)

  /** Where an entity is found: an array of the vm context and the byte
      offset into it. */
  datatype Slot = Slot(area: VmArea, offset: nat)

  /** The stride between the slots of a space's arrays. Every slot holds a
      pointer to the entity's struct. For globals and memories the stride is
      that pointer's size (`size_of::<*mut LocalGlobal>()`,
      `size_of::<*mut LocalMemory>()`). For tables it is
      `LocalTable::size()` instead. Functions are not reached this way. */
  function EntrySize(space: IndexSpace, pointerBytes: nat, localTableSize: nat): (size: nat)
    requires space != Functions
    ensures space == Tables ==> size == localTableSize
    ensures space != Tables ==> size == pointerBytes
  {
    match space
    case Globals => pointerBytes
    case Memories => pointerBytes
    case Tables => localTableSize
  }

  /** The slot of a global, memory or table index: the index is split into
      its local or imported part, and that part times the space's entry
      size is the offset (`make_global`, `make_heap`, `make_table`). */
  function EntitySlot(index: u32, info: ModuleInfo, space: IndexSpace, pointerBytes: nat, localTableSize: nat): (r: Slot)
    requires space != Functions
    ensures r.area == (if index < ImportCount(info, space) then ImportedArea(space) else LocalArea(space))
    ensures r.offset == (if index < ImportCount(info, space) then index else index - ImportCount(info, space))
                        * EntrySize(space, pointerBytes, localTableSize)
  {
    var size := EntrySize(space, pointerBytes, localTableSize);
    match LocalOrImportOf(index, info, space)
    case Local(l) => Slot(LocalArea(space), l * size)
    case Import(i) => Slot(ImportedArea(space), i * size)
  }

  /** Different indices of one space get different slots, as long as
      entries have a size. */
  lemma SlotsDistinct(i: u32, j: u32, info: ModuleInfo, space: IndexSpace, pointerBytes: nat, localTableSize: nat)
    requires space != Functions
    requires EntrySize(space, pointerBytes, localTableSize) > 0
    requires i != j
    ensures EntitySlot(i, info, space, pointerBytes, localTableSize) != EntitySlot(j, info, space, pointerBytes, localTableSize)
  {
    var size := EntrySize(space, pointerBytes, localTableSize);
    var a, b := LocalOrImportOf(i, info, space), LocalOrImportOf(j, info, space);
    SplitThenConvertUp(i, info, space);
    SplitThenConvertUp(j, info, space);
    if a.Local? == b.Local? && a.index * size == b.index * size {
      MultiplyCancels(a.index, b.index, size);
      assert false;
    }
  }

  lemma MultiplyCancels(x: nat, y: nat, k: nat)
    requires k > 0 && x * k == y * k
    ensures x == y
  {
  }

  // ---------------------------------------------------------------------
  // Function and module code generators
  // ---------------------------------------------------------------------

  /** `ir::ExternalName::user(namespace, index)`. */
  datatype ExternalName = User(namespace: nat, index: u32)

  /** The parts of an `ir::Function` this model keeps: its name, its
      signature and the locals declared for its parameters. */
  datatype ClifFunction = ClifFunction(name: ExternalName, signature: ClifSignature, locals: seq<DeclaredVar>)

  /** An entry of the translation state's control stack. */
  datatype ControlFrame = ControlFrame(numReturnValues: nat)

  /** `translate_operator`: the new control stack, and whether the
      translation succeeded. */
  type Translate = (Codegen.Operator, seq<ControlFrame>) -> (seq<ControlFrame>, Result<()>)

  /** `CraneliftFunctionCodeGenerator`: the function being built, the next
      free local number, the control stack of the translation state, and
      the operators handed to `translate_operator` so far. */
  class FunctionCodeGenerator {
    var func: ClifFunction
    var nextLocal: nat
    var controlStack: seq<ControlFrame>
    var translated: seq<Codegen.Operator>
    const clifSignatures: seq<ClifSignature>

    constructor(f: ClifFunction, sigs: seq<ClifSignature>)
      ensures func == f && nextLocal == 0 && clifSignatures == sigs
      ensures controlStack == [ControlFrame(|f.signature.results|)] && translated == []
    {
      func := f;
      nextLocal := 0;
      clifSignatures := sigs;
      controlStack := [ControlFrame(|f.signature.results|)];
      translated := [];
    }

    /** `feed_param`: one more local is taken. */
    method FeedParam() returns (r: Result<()>)
      modifies this
      ensures r.Ok?
      ensures nextLocal == old(nextLocal) + 1
      ensures func == old(func) && controlStack == old(controlStack) && translated == old(translated)
    {
      nextLocal := nextLocal + 1;
      r := Ok(());
    }

    /** `feed_event`: the step `FeedStep` on the translation state. */
    method FeedEvent(event: Codegen.Event, translate: Translate) returns (r: Result<()>)
      modifies this
      ensures nextLocal == old(nextLocal) && func == old(func)
      ensures Codegen.Fed(TranslationState(controlStack, translated), r)
           == FeedStep(translate, TranslationState(old(controlStack), old(translated)), event)
    {
      var op;
      match event {
        case Wasm(x) => op := x;
        case WasmOwned(x) => op := x;
        case Internal(_) => return Ok(());
      }
      if controlStack == [] {
        return Ok(());
      }
      translated := translated + [op];
      var (stack', outcome) := translate(op, controlStack);
      controlStack := stack';
      r := outcome;
    }
  }

  /** The part of a function code generator that feeding events changes:
      the control stack and the operators translated so far. */
  datatype TranslationState = TranslationState(controlStack: seq<ControlFrame>, translated: seq<Codegen.Operator>)

  /** What `feed_event` does to the translation state: internal events are
      ignored; so is every operator once the control stack is empty (after
      the function's final `end`). Any other operator is translated. */
  function FeedStep(translate: Translate, st: TranslationState, event: Codegen.Event): (f: Codegen.Fed<TranslationState>)
    ensures event.Internal? || st.controlStack == [] ==> f == Codegen.Fed(st, Ok(()))
    ensures !event.Internal? && st.controlStack != [] ==>
      var op := if event.Wasm? then event.op else event.owned;
      && f.state.translated == st.translated + [op]
      && (f.state.controlStack, f.result) == translate(op, st.controlStack)
  {
    match event
    case Internal(_) => Codegen.Fed(st, Ok(()))
    case Wasm(op) => TranslateOne(translate, st, op)
    case WasmOwned(op) => TranslateOne(translate, st, op)
  }

  function TranslateOne(translate: Translate, st: TranslationState, op: Codegen.Operator): Codegen.Fed<TranslationState>
  {
    if st.controlStack == [] then Codegen.Fed(st, Ok(()))
    else
      var (stack', outcome) := translate(op, st.controlStack);
      Codegen.Fed(TranslationState(stack', st.translated + [op]), outcome)
  }

  /** A function code generator as the code generator a middleware chain
      feeds. */
  function GeneratorConsumer(translate: Translate): Codegen.EventConsumer<TranslationState>
  {
    (st, event) => FeedStep(translate, st, event)
  }

  /** After the function's final `end` has emptied the control stack, the
      generator accepts every further event and its state stays as it is. */
  lemma {:induction false} AfterFinalEndIgnored(translate: Translate, st: TranslationState, buffer: seq<Codegen.Event>)
    requires st.controlStack == []
    ensures Codegen.Deliver(GeneratorConsumer(translate), st, buffer) == Codegen.Delivery(buffer, Ok(()), st)
  {
    if buffer != [] {
      var fcg := GeneratorConsumer(translate);
      assert fcg(st, buffer[0]) == Codegen.Fed(st, Ok(()));
      AfterFinalEndIgnored(translate, st, buffer[1..]);
      assert [buffer[0]] + buffer[1..] == buffer;
    }
  }

  /** `CraneliftModuleCodeGenerator`: the wasm signatures once fed, their
      Cranelift conversions, and a function code generator per local
      function so far. The default calling convention and the pointer
      width come from the target. */
  class ModuleCodeGenerator {
    var signatures: Option<seq<FuncSig>>
    var clifSignatures: seq<ClifSignature>
    var functions: seq<FunctionCodeGenerator>
    const defaultCallConv: CallConv
    const pointerBits: nat

    constructor(callConv: CallConv, bits: nat)
      ensures signatures.None? && clifSignatures == [] && functions == []
      ensures defaultCallConv == callConv && pointerBits == bits
    {
      signatures := None;
      clifSignatures := [];
      functions := [];
      defaultCallConv := callConv;
      pointerBits := bits;
    }

    /** `feed_signatures`: keep the signatures and append one converted
        signature per signature, in order. */
    method FeedSignatures(sigs: seq<FuncSig>) returns (r: Result<()>)
      modifies this
      ensures r.Ok? && signatures == Some(sigs)
      ensures clifSignatures == old(clifSignatures) + ConvertAll(sigs, defaultCallConv)
      ensures functions == old(functions)
    {
      signatures := Some(sigs);
      var callConv := defaultCallConv;
      ghost var before := clifSignatures;
      for i := 0 to |sigs|
        invariant clifSignatures == before + ConvertAll(sigs[..i], callConv)
        invariant functions == old(functions) && signatures == Some(sigs)
      {
        ConvertAllSnoc(sigs, i, callConv);
        clifSignatures := clifSignatures + [ConvertFuncSig(sigs[i], callConv)];
      }
      assert sigs[..|sigs|] == sigs;
      r := Ok(());
    }

    /** The signature index of the next local function: its index is the
        number of functions so far (as a `u32`), converted up past the
        imported functions and looked up in `func_assoc`. */
    function NextSigIndex(info: ModuleInfo): Option<nat>
      reads this
    {
      var fidx := ConvertUp(Local(Truncate(|functions|, W32)), info, Functions);
      if fidx < |info.funcAssoc| then Some(info.funcAssoc[fidx]) else None
    }

    /** `next_function`: the new function is numbered by how many functions
        came before it, gets the generated signature of its type with locals
        declared for its wasm parameters, and a code generator that is
        appended to `functions`. */
    method NextFunction(info: ModuleInfo) returns (fcg: FunctionCodeGenerator)
      requires NextSigIndex(info).Some? && NextSigIndex(info).value < |clifSignatures|
      modifies this
      ensures signatures == old(signatures) && clifSignatures == old(clifSignatures)
      ensures fresh(fcg)
      ensures functions == old(functions) + [fcg]
      ensures |old(functions)| < TWO_32 ==> fcg.func.name == User(0, |old(functions)|)
      ensures fcg.func.signature == GenerateSignature(clifSignatures, old(NextSigIndex(info)).value, pointerBits)
      ensures fcg.func.locals == NormalLocals(fcg.func.signature.params)
      ensures fcg.nextLocal == 0 && fcg.controlStack != [] && fcg.translated == []
      ensures fcg.clifSignatures == clifSignatures
    {
      var funcIndex := Truncate(|functions|, W32);
      CastIdentity(|functions|, W32);
      var name := User(0, funcIndex);
      var sigIndex := info.funcAssoc[ConvertUp(Local(funcIndex), info, Functions)];
      var sig := GenerateSignature(clifSignatures, sigIndex, pointerBits);
      var _, locals := DeclareWasmParameters(sig.params);
      fcg := new FunctionCodeGenerator(ClifFunction(name, sig, locals), clifSignatures);
      functions := functions + [fcg];
    }
  }
}
