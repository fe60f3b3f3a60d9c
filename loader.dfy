/** The local loader of the runtime core (lib/runtime-core/src/loader.rs):
    page rounding of code buffers, copying compiled code into such a buffer,
    and flattening typed arguments into the 64-bit words of a native call. */
module Loader {
  import opened Wrappers
  import opened WasmTypes

  const PAGE_SIZE: nat := 4096

  /** `round_up_to_page_size`: `(size + (4096 - 1)) & !(4096 - 1)` on `usize`
      (64 bits, wrapping as in a release build). Masking with `!(4096 - 1)`
      clears the low twelve bits, that is, subtracts the remainder modulo
      4096. */
  function RoundUpToPageSize(size: u64): (r: u64)
    ensures r % PAGE_SIZE == 0
    ensures size + (PAGE_SIZE - 1) < TWO_64 ==> size <= r < size + PAGE_SIZE
  {
    var sum := Truncate(size + (PAGE_SIZE - 1), W64);
    CastIdentity(size + (PAGE_SIZE - 1), W64);
    sum - sum % PAGE_SIZE
  }

  // ---------------------------------------------------------------------
  // Argument flattening
  // ---------------------------------------------------------------------

  /** The words one argument contributes to a native call: a V128 value is
      split into its little-endian low and high halves, every other value
      gives the low 64 bits of `to_u128`. */
  function ArgWords(v: Value): (ws: seq<u64>)
    ensures !v.V128? ==> |ws| == 1 && ws[0] == Truncate(ToU128(v), W64)
    ensures v.V128? ==> |ws| == 2 && ws[0] + ws[1] * TWO_64 == v.v
  {
    var x := ToU128(v);
    if ValueTy(v) == Type.V128 then [x % TWO_64, x / TWO_64] else [Truncate(x, W64)]
  }

  /** The number of V128 arguments. */
  function CountV128(args: seq<Value>): nat
  {
    if args == [] then 0 else (if args[0].V128? then 1 else 0) + CountV128(args[1..])
  }

  /** The whole word vector of a call: every argument's words, in order. */
  function FlattenedArgs(args: seq<Value>): seq<u64>
  {
    if args == [] then [] else ArgWords(args[0]) + FlattenedArgs(args[1..])
  }

  /** Flattening distributes over concatenation, so words appear in argument
      order. */
  lemma {:induction false} FlattenedAppend(a: seq<Value>, b: seq<Value>)
    ensures FlattenedArgs(a + b) == FlattenedArgs(a) + FlattenedArgs(b)
  {
    if a == [] {
      assert a + b == b;
    } else {
      assert (a + b)[1..] == a[1..] + b;
      FlattenedAppend(a[1..], b);
    }
  }

  /** One word per argument plus one more per V128 argument. */
  lemma {:induction false} FlattenedLength(args: seq<Value>)
    ensures |FlattenedArgs(args)| == |args| + CountV128(args)
  {
    if args != [] {
      FlattenedLength(args[1..]);
    }
  }

  /** Argument `k` occupies the words starting at `k` plus the number of V128
      arguments before it. */
  lemma FlattenedAt(args: seq<Value>, k: nat)
    requires k < |args|
    ensures var p := k + CountV128(args[..k]);
      p + |ArgWords(args[k])| <= |FlattenedArgs(args)| &&
      FlattenedArgs(args)[p..p + |ArgWords(args[k])|] == ArgWords(args[k])
  {
    FlattenedSplit(args, k);
    FlattenedLength(args[..k]);
    SliceOfMiddle(FlattenedArgs(args[..k]), ArgWords(args[k]), FlattenedArgs(args[k + 1..]));
  }

  /** The words of the arguments before `k`, of argument `k`, and of the
      arguments after it. */
  lemma FlattenedSplit(args: seq<Value>, k: nat)
    requires k < |args|
    ensures FlattenedArgs(args) == FlattenedArgs(args[..k]) + (ArgWords(args[k]) + FlattenedArgs(args[k + 1..]))
  {
    var rest := args[k..];
    assert args == args[..k] + rest;
    FlattenedAppend(args[..k], rest);
    assert rest[0] == args[k] && rest[1..] == args[k + 1..];
  }

  /** The middle part of a three-part concatenation is found right after the
      first part. */
  lemma SliceOfMiddle<T>(a: seq<T>, b: seq<T>, c: seq<T>)
    ensures |a| + |b| <= |a + (b + c)|
    ensures (a + (b + c))[|a|..|a| + |b|] == b
  {
  }

  /** The loop of `LocalInstance::call` that fills `args_u64`. */
  method FlattenArgs(args: seq<Value>) returns (words: seq<u64>)
    ensures words == FlattenedArgs(args)
  {
    words := [];
    for i := 0 to |args|
      invariant words == FlattenedArgs(args[..i])
    {
      var arg := args[i];
      if ValueTy(arg) == Type.V128 {
        var x := ToU128(arg);
        words := words + [x % TWO_64];
        words := words + [x / TWO_64];
      } else {
        words := words + [Truncate(ToU128(arg), W64)];
      }
      assert args[..i + 1] == args[..i] + [arg];
      FlattenedAppend(args[..i], [arg]);
      assert [arg][1..] == [];
    }
    assert args[..|args|] == args;
  }

  // ---------------------------------------------------------------------
  // Loading and calling
  // ---------------------------------------------------------------------

  /** The most words a native entry point is called with. */
  const MAX_ARG_WORDS: nat := 5

  /** A call into native code: the entry offset into the code buffer and the
      argument words it is passed. */
  datatype NativeCall = NativeCall(entry: u64, words: seq<u64>)

  /** `LocalInstance`: a page-rounded code buffer and the entry offset of
      every function. */
  class LocalInstance {
    var code: array<u8>
    var executable: bool
    var offsets: seq<u64>

    /** `LocalLoader::load`: allocate a page-rounded, zero-filled buffer
        (anonymous pages), copy the code to its start, make it executable. */
    constructor Load(codeBytes: seq<u8>, entryOffsets: seq<u64>)
      requires |codeBytes| + (PAGE_SIZE - 1) < TWO_64
      ensures fresh(code)
      ensures code.Length == RoundUpToPageSize(|codeBytes|)
      ensures code[..|codeBytes|] == codeBytes
      ensures forall i :: |codeBytes| <= i < code.Length ==> code[i] == 0
      ensures executable
      ensures offsets == entryOffsets
    {
      var size := RoundUpToPageSize(|codeBytes|);
      var mem := new u8[size](_ => 0);
      for i := 0 to |codeBytes|
        invariant mem[..i] == codeBytes[..i]
        invariant forall j :: |codeBytes| <= j < mem.Length ==> mem[j] == 0
      {
        mem[i] := codeBytes[i];
      }
      code := mem;
      executable := true;
      offsets := entryOffsets;
    }

    /** `LocalInstance::call`: flatten the arguments, and call the entry of
        function `id` with them unless there are more than five words.
        `invoke` stands for the native code; `performed` is the call made. */
    method Call(id: nat, args: seq<Value>, invoke: NativeCall -> u128)
      returns (r: Result<u128>, performed: Option<NativeCall>)
      requires id < |offsets|
      ensures |FlattenedArgs(args)| > MAX_ARG_WORDS <==> r.Err?
      ensures r.Err? ==> r.error == "too many arguments" && performed.None?
      ensures r.Ok? ==> performed == Some(NativeCall(offsets[id], FlattenedArgs(args)))
                        && r.value == invoke(performed.value)
    {
      var argsU64 := FlattenArgs(args);
      var offset := offsets[id];
      if |argsU64| > MAX_ARG_WORDS {
        return Err("too many arguments"), None;
      }
      var nativeCall := NativeCall(offset, argsU64);
      performed := Some(nativeCall);
      r := Ok(invoke(nativeCall));
    }
  }

  /** The limit is on words, not arguments: three V128 arguments are six
      words and too many, two V128 arguments and an i32 are exactly five. */
  lemma ThreeV128ArgumentsAreTooMany(a: u128, b: u128, c: u128)
    ensures |FlattenedArgs([Value.V128(a), Value.V128(b), Value.V128(c)])| == 6
    ensures |FlattenedArgs([Value.V128(a), Value.V128(b), Value.I32(0)])| == MAX_ARG_WORDS
  {
    var x, y, z := Value.V128(a), Value.V128(b), Value.V128(c);
    FlattenedAppend([x, y], [z]);
    FlattenedAppend([x], [y]);
    FlattenedAppend([x, y], [Value.I32(0)]);
    assert [x, y] == [x] + [y];
    assert [x, y, z] == [x, y] + [z];
    assert [x, y, Value.I32(0)] == [x, y] + [Value.I32(0)];
    assert forall v: Value :: FlattenedArgs([v]) == ArgWords(v) by {
      forall v: Value ensures FlattenedArgs([v]) == ArgWords(v) {
        assert [v][1..] == [];
      }
    }
  }
}
