/** The WebAssembly type and index algebra of the runtime core
    (lib/runtime-core/src/types.rs): value tags, the integer conversions
    behind `NativeWasmType` and `WasmExternType`, import compatibility of
    table and memory descriptors, signature checks, and the split of each
    index space into imported and local parts. */
module WasmTypes {
  import opened Wrappers

  // ---------------------------------------------------------------------
  // Rust integer casts
  // ---------------------------------------------------------------------

  /** The bit widths that occur in the integer casts of this file. */
  datatype Width = W8 | W16 | W32 | W64 | W128

  function Modulus(w: Width): (m: int)
    ensures m >= TWO_8 && m % 2 == 0
  {
    match w
    case W8 => TWO_8
    case W16 => TWO_16
    case W32 => TWO_32
    case W64 => TWO_64
    case W128 => TWO_128
  }

  /** `x as uN`: keep the low N bits, read them as an unsigned number. */
  function Truncate(x: int, w: Width): (r: int)
    ensures 0 <= r < Modulus(w)
    ensures (x - r) % Modulus(w) == 0
  {
    match w
    case W8 => x % TWO_8
    case W16 => x % TWO_16
    case W32 => x % TWO_32
    case W64 => x % TWO_64
    case W128 => x % TWO_128
  }

  /** `x as iN`: keep the low N bits, read them in two's complement. */
  function AsSigned(x: int, w: Width): (r: int)
    ensures -Modulus(w) / 2 <= r < Modulus(w) / 2
    ensures (x - r) % Modulus(w) == 0
  {
    var u := Truncate(x, w);
    if u < Modulus(w) / 2 then u else u - Modulus(w)
  }

  /** A cast is the identity on values the target type can hold. */
  lemma {:induction false} CastIdentity(x: int, w: Width)
    ensures 0 <= x < Modulus(w) ==> Truncate(x, w) == x
    ensures -Modulus(w) / 2 <= x < Modulus(w) / 2 ==> AsSigned(x, w) == x
  {
    var m := Modulus(w);
    TruncateIsMod(x, w);
    if 0 <= x < m {
      assert x % m == x;
    }
    if -m / 2 <= x < m / 2 {
      if x >= 0 {
        assert x % m == x;
      } else {
        assert x % m == x + m;
      }
    }
  }

  /** Truncation is the remainder modulo the width's modulus. */
  lemma TruncateIsMod(x: int, w: Width)
    ensures Truncate(x, w) == x % Modulus(w)
  {
  }

  /** An i32 sign-extended to 64 bits (`self as u64`) and truncated back
      (`bits as i32`) is unchanged. */
  lemma {:induction false} I32Through64(n: int)
    requires -TWO_32 / 2 <= n < TWO_32 / 2
    ensures AsSigned(Truncate(n, W64), W32) == n
  {
    if n >= 0 {
      CastIdentity(n, W64);
      CastIdentity(n, W32);
    } else {
      var t := Truncate(n, W64);
      assert t == n + TWO_64;
      assert t == (TWO_32 - 1) * TWO_32 + (n + TWO_32);
      assert Truncate(t, W32) == n + TWO_32;
    }
  }

  // ---------------------------------------------------------------------
  // Types and values
  // ---------------------------------------------------------------------

  /** A WebAssembly value type. */
  datatype Type = I32 | I64 | F32 | F64 | V128

  /** A WebAssembly value. Floats are carried as their IEEE-754 bit pattern
      (what `to_bits` returns); no floating-point arithmetic is modelled. */
  datatype Value =
    | I32(i: i32)
    | I64(l: i64)
    | F32(fbits: u32)
    | F64(dbits: u64)
    | V128(v: u128)

  /** `Value::ty`: the type tag of the same name as the value's variant. */
  function ValueTy(v: Value): (t: Type)
    ensures t == Type.I32 <==> v.I32?
    ensures t == Type.I64 <==> v.I64?
    ensures t == Type.F32 <==> v.F32?
    ensures t == Type.F64 <==> v.F64?
    ensures t == Type.V128 <==> v.V128?
  {
    match v
    case I32(_) => Type.I32
    case I64(_) => Type.I64
    case F32(_) => Type.F32
    case F64(_) => Type.F64
    case V128(_) => Type.V128
  }

  /** `Value::to_u128`: integers are sign-extended to 128 bits, V128 payloads
      are returned unchanged, floats give their bit pattern. */
  function ToU128(v: Value): (r: u128)
    ensures v.V128? ==> r == v.v
    ensures v.I32? ==> r == if v.i >= 0 then v.i else TWO_128 + v.i
    ensures v.I64? ==> r == if v.l >= 0 then v.l else TWO_128 + v.l
    ensures v.F32? ==> r == v.fbits
    ensures v.F64? ==> r == v.dbits
  {
    match v
    case I32(x) => Truncate(x, W128)
    case I64(x) => Truncate(x, W128)
    case F32(b) => b
    case F64(b) => b
    case V128(x) => x
  }

  // ---------------------------------------------------------------------
  // NativeWasmType / WasmExternType (integer impls)
  // ---------------------------------------------------------------------

  /** The two integer native types a host integer is carried as. */
  datatype NativeType = NativeI32 | NativeI64

  function NativeWidth(n: NativeType): Width
  {
    match n
    case NativeI32 => W32
    case NativeI64 => W64
  }

  /** `NativeWasmType::to_binary` for i32 and i64: `self as u64`. */
  function ToBinary(n: NativeType, x: int): (bits: u64)
  {
    Truncate(x, W64)
  }

  /** `NativeWasmType::from_binary` for i32 and i64: `bits as iN`. */
  function FromBinary(n: NativeType, bits: u64): int
  {
    AsSigned(bits, NativeWidth(n))
  }

  /** The integer types that implement `WasmExternType`. */
  datatype ExternInt = EI8 | EU8 | EI16 | EU16 | EI32 | EU32 | EI64 | EU64

  function ExternWidth(t: ExternInt): Width
  {
    match t
    case EI8 | EU8 => W8
    case EI16 | EU16 => W16
    case EI32 | EU32 => W32
    case EI64 | EU64 => W64
  }

  predicate IsSigned(t: ExternInt)
  {
    t in {EI8, EI16, EI32, EI64}
  }

  /** The native type of an extern integer: i32 for up to 32 bits, else i64. */
  function NativeOf(t: ExternInt): NativeType
  {
    if t in {EI64, EU64} then NativeI64 else NativeI32
  }

  /** The values of the Rust type `t`. */
  predicate InRange(t: ExternInt, x: int)
  {
    if IsSigned(t) then -Modulus(ExternWidth(t)) / 2 <= x < Modulus(ExternWidth(t)) / 2
    else 0 <= x < Modulus(ExternWidth(t))
  }

  /** `to_native`: `self as i32` / `self as i64` (the identity for i32, i64). */
  function ToNative(t: ExternInt, x: int): int
  {
    AsSigned(x, NativeWidth(NativeOf(t)))
  }

  /** `from_native`: `native as T` (the identity for i32, i64). */
  function FromNative(t: ExternInt, native: int): int
  {
    if IsSigned(t) then AsSigned(native, ExternWidth(t)) else Truncate(native, ExternWidth(t))
  }

  /** Widening an extern integer to its native type and truncating it back is
      the identity. */
  lemma {:induction false} ExternNativeRoundTrip(t: ExternInt, x: int)
    requires InRange(t, x)
    ensures InRange(t, FromNative(t, ToNative(t, x)))
    ensures FromNative(t, ToNative(t, x)) == x
  {
    var n := ToNative(t, x);
    match t
    case EI8 => CastIdentity(x, W32); assert n == x; CastIdentity(x, W8);
    case EU8 => CastIdentity(x, W32); assert n == x; CastIdentity(x, W8);
    case EI16 => CastIdentity(x, W32); assert n == x; CastIdentity(x, W16);
    case EU16 => CastIdentity(x, W32); assert n == x; CastIdentity(x, W16);
    case EI32 => CastIdentity(x, W32);
    case EU32 => UnsignedThroughSigned(x, W32);
    case EI64 => CastIdentity(x, W64);
    case EU64 => UnsignedThroughSigned(x, W64);
  }

  /** An unsigned value reinterpreted as signed of the same width (which
      wraps the upper half to negative numbers) and cast back is unchanged. */
  lemma UnsignedThroughSigned(x: int, w: Width)
    requires 0 <= x < Modulus(w)
    ensures Truncate(AsSigned(x, w), w) == x
  {
    var m := Modulus(w);
    CastIdentity(x, w);
    var n := AsSigned(x, w);
    TruncateIsMod(n, w);
    if x >= m / 2 {
      assert n == x - m;
      assert (x - m) % m == x;
    }
  }

  /** The full round trip of the tests: through the native type and its
      64-bit binary form and back, for every extern integer value. */
  lemma {:induction false} ExternBinaryRoundTrip(t: ExternInt, x: int)
    requires InRange(t, x)
    ensures FromNative(t, FromBinary(NativeOf(t), ToBinary(NativeOf(t), ToNative(t, x)))) == x
  {
    var nt := NativeOf(t);
    var n := ToNative(t, x);
    var w := NativeWidth(nt);
    assert -Modulus(w) / 2 <= n < Modulus(w) / 2;
    if nt == NativeI32 {
      I32Through64(n);
      assert FromBinary(nt, ToBinary(nt, n)) == n;
    } else {
      CastIdentity(n, W64);
      assert FromBinary(nt, ToBinary(nt, n)) == n;
    }
    ExternNativeRoundTrip(t, x);
  }

  /** The i32 and i64 instances, as the tests state them at the extremes. */
  lemma NativeRoundTripExtremes()
    ensures FromNative(EI64, FromBinary(NativeI64, ToBinary(NativeI64, ToNative(EI64, -0x8000_0000_0000_0000)))) == -0x8000_0000_0000_0000
    ensures FromNative(EI64, FromBinary(NativeI64, ToBinary(NativeI64, ToNative(EI64, 0x7FFF_FFFF_FFFF_FFFF)))) == 0x7FFF_FFFF_FFFF_FFFF
    ensures FromNative(EI32, FromBinary(NativeI32, ToBinary(NativeI32, ToNative(EI32, -42)))) == -42
  {
    ExternBinaryRoundTrip(EI64, -0x8000_0000_0000_0000);
    ExternBinaryRoundTrip(EI64, 0x7FFF_FFFF_FFFF_FFFF);
    ExternBinaryRoundTrip(EI32, -42);
  }

  // ---------------------------------------------------------------------
  // Table and memory descriptors
  // ---------------------------------------------------------------------

  datatype ElementType = Anyfunc

  datatype TableDescriptor = TableDescriptor(element: ElementType, minimum: u32, maximum: Option<u32>)

  const U32_MAX: u32 := TWO_32 - 1

  function OrElse(o: Option<u32>, default: u32): (r: u32)
    ensures o.Some? ==> r == o.value
    ensures o.None? ==> r == default
  {
    match o
    case Some(x) => x
    case None => default
  }

  /** `TableDescriptor::fits_in_imported`: can a table described by
      `imported` be supplied where `self` is expected? */
  predicate TableFitsInImported(self: TableDescriptor, imported: TableDescriptor)
  {
    var importedMax := OrElse(imported.maximum, U32_MAX);
    var selfMax := OrElse(self.maximum, U32_MAX);
    self.element == imported.element && importedMax <= selfMax && self.minimum <= imported.minimum
  }

  /** Every table descriptor fits itself, and fitting composes. */
  lemma TableFitsPreorder(a: TableDescriptor, b: TableDescriptor, c: TableDescriptor)
    ensures TableFitsInImported(a, a)
    ensures TableFitsInImported(a, b) && TableFitsInImported(b, c) ==> TableFitsInImported(a, c)
  {
  }

  /** An absent maximum stands for `u32::MAX`: with no maximum expected, only
      the element type and the minimum matter; with none supplied, the
      expected maximum must be absent or `u32::MAX`. */
  lemma TableAbsentMaximum(self: TableDescriptor, imported: TableDescriptor)
    ensures self.maximum.None? ==>
      (TableFitsInImported(self, imported) <==> self.element == imported.element && self.minimum <= imported.minimum)
    ensures imported.maximum.None? && TableFitsInImported(self, imported) ==>
      self.maximum.None? || self.maximum.value == U32_MAX
  {
  }

  /** `MemoryType` of the runtime's memory module. */
  datatype MemoryType = Dynamic | Static | SharedStatic

  /** Sizes are in 64 KiB wasm pages (`Pages(u32)`). */
  datatype MemoryDescriptor = MemoryDescriptor(minimum: u32, maximum: Option<u32>, shared: bool)

  /** `MemoryDescriptor::memory_type`; a shared memory without a maximum
      panics, so callers must not ask. */
  function MemoryTypeOf(d: MemoryDescriptor): (r: MemoryType)
    requires !(d.shared && d.maximum.None?)
    ensures r == Dynamic <==> d.maximum.None?
    ensures r == SharedStatic <==> d.shared
  {
    match (d.maximum.Some?, d.shared)
    case (true, true) => SharedStatic
    case (true, false) => Static
    case (false, false) => Dynamic
  }

  const MAX_PAGES: u32 := 65536

  /** `MemoryDescriptor::fits_in_imported`. */
  predicate MemoryFitsInImported(self: MemoryDescriptor, imported: MemoryDescriptor)
  {
    var importedMax := OrElse(imported.maximum, MAX_PAGES);
    var selfMax := OrElse(self.maximum, MAX_PAGES);
    self.shared == imported.shared && importedMax <= selfMax && self.minimum <= imported.minimum
  }

  /** Every memory descriptor fits itself, fitting composes, and sharing
      must agree. */
  lemma MemoryFitsPreorder(a: MemoryDescriptor, b: MemoryDescriptor, c: MemoryDescriptor)
    ensures MemoryFitsInImported(a, a)
    ensures MemoryFitsInImported(a, b) && MemoryFitsInImported(b, c) ==> MemoryFitsInImported(a, c)
    ensures MemoryFitsInImported(a, b) ==> a.shared == b.shared
  {
  }

  /** An absent maximum stands for 65536 pages: an imported memory with no
      maximum only fits an expectation whose maximum is absent or at least
      65536 pages. */
  lemma MemoryAbsentMaximum(self: MemoryDescriptor, imported: MemoryDescriptor)
    ensures imported.maximum.None? && MemoryFitsInImported(self, imported) ==>
      self.maximum.None? || self.maximum.value >= MAX_PAGES
    ensures self.maximum.None? && imported.maximum.Some? && imported.maximum.value > MAX_PAGES ==>
      !MemoryFitsInImported(self, imported)
  {
  }

  // ---------------------------------------------------------------------
  // Function signatures
  // ---------------------------------------------------------------------

  datatype FuncSig = FuncSig(params: seq<Type>, results: seq<Type>)

  /** `zip(..).all(..)`: the pairs of the two lists, up to the shorter one,
      have equal types. */
  function ZipTypesMatch(ts: seq<Type>, vs: seq<Value>): (r: bool)
    ensures r <==> forall i :: 0 <= i < |ts| && i < |vs| ==> ts[i] == ValueTy(vs[i])
  {
    if ts == [] || vs == [] then true
    else if ts[0] != ValueTy(vs[0]) then false
    else
      var rest := ZipTypesMatch(ts[1..], vs[1..]);
      assert forall i :: 1 <= i < |ts| && i < |vs| ==> ts[i] == ts[1..][i - 1] && vs[i] == vs[1..][i - 1];
      rest
  }

  /** `FuncSig::check_param_value_types`. */
  function CheckParamValueTypes(sig: FuncSig, params: seq<Value>): (r: bool)
    ensures r <==> |sig.params| == |params| && forall i :: 0 <= i < |params| ==> sig.params[i] == ValueTy(params[i])
  {
    |sig.params| == |params| && ZipTypesMatch(sig.params, params)
  }

  // ---------------------------------------------------------------------
  // Index spaces
  // ---------------------------------------------------------------------

  /** The four index spaces that are split into imported and local parts. */
  datatype IndexSpace = Functions | Memories | Tables | Globals

  /** The parts of `ModuleInfo` this core reads: how many entities of each
      kind are imported, and the signature index of every function. */
  datatype ModuleInfo = ModuleInfo(
    importedFunctions: nat,
    importedMemories: nat,
    importedTables: nat,
    importedGlobals: nat,
    funcAssoc: seq<nat>)

  function ImportCount(info: ModuleInfo, space: IndexSpace): nat
  {
    match space
    case Functions => info.importedFunctions
    case Memories => info.importedMemories
    case Tables => info.importedTables
    case Globals => info.importedGlobals
  }

  /** `LocalOrImport<T>`: an index into the local or the imported part. */
  datatype LocalOrImport = Local(index: u32) | Import(index: u32)
  {
    /** `LocalOrImport::local`. */
    function AsLocal(): (r: Option<u32>)
      ensures r.Some? <==> Local?
      ensures r.Some? ==> r.value == index
    {
      match this
      case Local(l) => Some(l)
      case Import(_) => None
    }

    /** `LocalOrImport::import`. */
    function AsImport(): (r: Option<u32>)
      ensures r.Some? <==> Import?
      ensures r.Some? ==> r.value == index
    {
      match this
      case Import(i) => Some(i)
      case Local(_) => None
    }
  }

  /** `FuncIndex::local_or_import` and its three siblings: the first
      `ImportCount` indices are imports, the rest are local. */
  function LocalOrImportOf(index: u32, info: ModuleInfo, space: IndexSpace): LocalOrImport
  {
    var n := ImportCount(info, space);
    if index < n then Import(index) else Local(index - n)
  }

  /** `LocalFuncIndex::convert_up` / `ImportedFuncIndex::convert_up` and
      siblings; the local case is computed in `usize` and cast to `u32`. */
  function ConvertUp(x: LocalOrImport, info: ModuleInfo, space: IndexSpace): u32
  {
    match x
    case Local(l) => Truncate(l + ImportCount(info, space), W32)
    case Import(i) => i
  }

  /** Splitting an index and converting the part back up recovers it; the
      import part is taken exactly when the index is below the import count. */
  lemma SplitThenConvertUp(index: u32, info: ModuleInfo, space: IndexSpace)
    ensures LocalOrImportOf(index, info, space).Import? <==> index < ImportCount(info, space)
    ensures ConvertUp(LocalOrImportOf(index, info, space), info, space) == index
  {
    CastIdentity(index, W32);
  }

  /** `convert_up` is a right inverse of the split on every index the
      32-bit index space can name. */
  lemma ConvertUpThenSplit(x: LocalOrImport, info: ModuleInfo, space: IndexSpace)
    requires x.Import? ==> x.index < ImportCount(info, space)
    requires x.Local? ==> x.index + ImportCount(info, space) < TWO_32
    ensures LocalOrImportOf(ConvertUp(x, info, space), info, space) == x
  {
    if x.Local? {
      CastIdentity(x.index + ImportCount(info, space), W32);
    }
  }

  /** Without the bound, the 32-bit cast of `convert_up` wraps a local index
      into the import part. */
  lemma ConvertUpWraps()
    ensures var info := ModuleInfo(1, 0, 0, 0, []);
            LocalOrImportOf(ConvertUp(Local(U32_MAX), info, Functions), info, Functions) == Import(0)
  {
  }
}
