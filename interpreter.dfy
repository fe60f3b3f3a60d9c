/** The driver of the WIT adapter interpreter
    (lib/interface-types/src/interpreter/mod.rs): instructions are turned
    one-to-one into executable instructions, and a run executes them in
    order on a fresh stack, stopping at the first error. What each
    instruction does (the `instructions` module and `Stack`) is not part of
    this model: it is the parameter `step`. */
module Interpreter {
  import opened Wrappers

  /** The adapter instructions. `Other` stands for every variant that has no
      executable form yet. */
  datatype Instruction =
    | ArgumentGet(index: nat)
    | Call(functionIndex: nat)
    | CallExport(exportName: string)
    | ReadUtf8
    | WriteUtf8(allocatorName: string)
    | Other(name: string)

  /** The variants `try_from` knows how to translate. */
  predicate Supported(instruction: Instruction)
  {
    !instruction.Other?
  }

  /** An executable instruction: the closure built for one instruction.
      Running it means running `step` on that instruction. */
  datatype ExecutableInstruction = ExecutableInstruction(source: Instruction)

  /** `Interpreter`: the executable instructions of one adapter. */
  datatype Interpreter = Interpreter(executableInstructions: seq<ExecutableInstruction>)

  /** What one instruction does to the runtime: the new stack and instance,
      or an error message and the instance as the instruction left it. */
  datatype StepOutcome<V, I> = Continue(stack: seq<V>, instance: I) | Fail(message: string, instance: I)

  /** The semantics of the instructions, given the invocation inputs, the
      current stack and the wasm instance. */
  type Step<!V, !I> = (Instruction, seq<V>, seq<V>, I) -> StepOutcome<V, I>

  /** `try_from`: one executable instruction per instruction, in order. An
      unsupported variant hits `unimplemented!`, so callers must not pass one. */
  function TryFrom(instructions: seq<Instruction>): (r: Result<Interpreter>)
    requires forall i :: 0 <= i < |instructions| ==> Supported(instructions[i])
    ensures r.Ok?
    ensures |r.value.executableInstructions| == |instructions|
    ensures forall i :: 0 <= i < |instructions| ==> r.value.executableInstructions[i].source == instructions[i]
  {
    Ok(Interpreter(seq(|instructions|, i requires 0 <= i < |instructions| => ExecutableInstruction(instructions[i]))))
  }

  /** The translation of the unit test: five instructions, five closures. */
  lemma TryFromFiveInstructions()
    ensures var instructions := [ArgumentGet(0), ArgumentGet(0), CallExport("foo"), ReadUtf8, Call(7)];
      TryFrom(instructions).Ok? && |TryFrom(instructions).value.executableInstructions| == 5
  {
  }

  /** The result of a run: the final stack or the first error, and the wasm
      instance as the run left it. */
  datatype RunOutcome<V, I> = RunOutcome(result: Result<seq<V>>, instance: I)

  /** Executing instructions in order from a given stack and instance. */
  function Execute<V, I>(code: seq<ExecutableInstruction>, step: Step<V, I>, inputs: seq<V>,
                         stack: seq<V>, instance: I): RunOutcome<V, I>
  {
    if code == [] then RunOutcome(Ok(stack), instance)
    else match step(code[0].source, inputs, stack, instance)
      case Fail(message, instance') => RunOutcome(Err(message), instance')
      case Continue(stack', instance') => Execute(code[1..], step, inputs, stack', instance')
  }

  /** `Runtime`: the invocation inputs, the stack and the wasm instance an
      adapter's instructions work on. */
  class Runtime<V, I> {
    const invocationInputs: seq<V>
    var stack: seq<V>
    var wasmInstance: I

    /** A runtime with a fresh, empty stack. */
    constructor(inputs: seq<V>, instance: I)
      ensures invocationInputs == inputs && stack == [] && wasmInstance == instance
    {
      invocationInputs := inputs;
      stack := [];
      wasmInstance := instance;
    }

    /** Calling one executable instruction on this runtime. A failing
        instruction's effect on the stack is not modelled (`run` drops the
        runtime on an error, so nothing observes it): the stack is kept. */
    method Apply(instruction: ExecutableInstruction, step: Step<V, I>) returns (r: Result<()>)
      modifies this
      ensures var out := step(instruction.source, invocationInputs, old(stack), old(wasmInstance));
        && (r.Ok? <==> out.Continue?)
        && wasmInstance == out.instance
        && (out.Continue? ==> stack == out.stack)
        && (out.Fail? ==> r.error == out.message && stack == old(stack))
    {
      match step(instruction.source, invocationInputs, stack, wasmInstance)
      case Continue(stack', instance') =>
        stack, wasmInstance := stack', instance';
        r := Ok(());
      case Fail(message, instance') =>
        wasmInstance := instance';
        r := Err(message);
    }
  }

  /** `Interpreter::run`: a fresh stack, then every instruction in order;
      the first error is returned as is, otherwise the final stack. */
  method Run<V, I>(interpreter: Interpreter, invocationInputs: seq<V>, wasmInstance: I, step: Step<V, I>)
    returns (r: Result<seq<V>>, instanceAfter: I)
    ensures RunOutcome(r, instanceAfter) == Execute(interpreter.executableInstructions, step, invocationInputs, [], wasmInstance)
  {
    var runtime := new Runtime(invocationInputs, wasmInstance);
    var code := interpreter.executableInstructions;
    assert code[0..] == code;
    for k := 0 to |code|
      invariant runtime.invocationInputs == invocationInputs
      invariant Execute(code, step, invocationInputs, [], wasmInstance)
             == Execute(code[k..], step, invocationInputs, runtime.stack, runtime.wasmInstance)
    {
      assert code[k..][0] == code[k] && code[k..][1..] == code[k + 1..];
      var res := runtime.Apply(code[k], step);
      if res.Err? {
        return Err(res.error), runtime.wasmInstance;
      }
    }
    assert code[|code|..] == [];
    r, instanceAfter := Ok(runtime.stack), runtime.wasmInstance;
  }

  // ---------------------------------------------------------------------
  // Properties of a run
  // ---------------------------------------------------------------------

  /** An interpreter without instructions returns the empty stack it
      started with, and leaves the instance alone. */
  lemma EmptyInterpreterReturnsEmptyStack<V, I>(step: Step<V, I>, inputs: seq<V>, instance: I)
    ensures Execute([], step, inputs, [], instance) == RunOutcome(Ok([]), instance)
  {
  }

  /** Running `a + b` is running `a`, then, unless it failed, `b` from where
      `a` left the stack and the instance. */
  lemma {:induction false} ExecuteAppend<V, I>(a: seq<ExecutableInstruction>, b: seq<ExecutableInstruction>,
                                               step: Step<V, I>, inputs: seq<V>, stack: seq<V>, instance: I)
    ensures var first := Execute(a, step, inputs, stack, instance);
      Execute(a + b, step, inputs, stack, instance) ==
        if first.result.Err? then first else Execute(b, step, inputs, first.result.value, first.instance)
  {
    if a == [] {
      assert a + b == b;
    } else {
      assert (a + b)[0] == a[0] && (a + b)[1..] == a[1..] + b;
      match step(a[0].source, inputs, stack, instance)
      case Fail(_, _) =>
      case Continue(stack', instance') => ExecuteAppend(a[1..], b, step, inputs, stack', instance');
    }
  }

  /** The first failing instruction ends the run with its own message: the
      instructions after it never execute, whatever they are. */
  lemma FirstErrorStops<V, I>(code: seq<ExecutableInstruction>, k: nat, later: seq<ExecutableInstruction>,
                              step: Step<V, I>, inputs: seq<V>, instance: I)
    requires k < |code|
    requires Execute(code[..k], step, inputs, [], instance).result.Ok?
    requires var before := Execute(code[..k], step, inputs, [], instance);
      step(code[k].source, inputs, before.result.value, before.instance).Fail?
    ensures var before := Execute(code[..k], step, inputs, [], instance);
      Execute(code[..k + 1] + later, step, inputs, [], instance).result ==
        Err(step(code[k].source, inputs, before.result.value, before.instance).message)
  {
    assert code[..k + 1] + later == code[..k] + ([code[k]] + later);
    ExecuteAppend(code[..k], [code[k]] + later, step, inputs, [], instance);
  }
}
