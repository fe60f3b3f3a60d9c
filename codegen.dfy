/** The middleware event pipeline of the runtime core
    (lib/runtime-core/src/codegen.rs): every event of a function body passes
    through an ordered chain of middleware stages and then, if there is one,
    into the function code generator; and the pre-validation gate of
    `compile`. Middlewares and code generators are abstract: a middleware is
    the list of events it pushes for one input event (or its error), a code
    generator is a state and how one event changes it and whether the event
    is accepted. */
module Codegen {
  import opened Wrappers

  /** A wasm operator; its meaning belongs to the parser and the backends. */
  datatype Operator = Operator(opcode: nat)

  datatype InternalEvent =
    | FunctionBegin(functionIndex: u32)
    | FunctionEnd
    | Breakpoint(handler: nat)
    | SetInternal(setIndex: u32)
    | GetInternal(getIndex: u32)

  /** `Event`: an internal event, a borrowed or an owned wasm operator. */
  datatype Event = Internal(internal: InternalEvent) | Wasm(op: Operator) | WasmOwned(owned: Operator)

  /** `FunctionMiddleware::feed_event`, with its error already formatted: the
      events the stage pushes into the sink for one input event. */
  type Middleware = Event -> Result<seq<Event>>

  /** What `FunctionCodeGenerator::feed_event` leaves behind: the code
      generator's new state, and whether it accepted the event (with its
      error formatted). */
  datatype Fed<S> = Fed(state: S, result: Result<()>)

  /** `FunctionCodeGenerator::feed_event` on a code generator in state `S`
      (it takes `&mut self`). */
  type EventConsumer<!S> = (S, Event) -> Fed<S>

  // ---------------------------------------------------------------------
  // Specification of a run
  // ---------------------------------------------------------------------

  /** One stage applied to a whole buffer: the events it pushes for each
      input event, in input order, or the error of the first failing input. */
  function StageOutput(m: Middleware, input: seq<Event>): Result<seq<Event>>
  {
    if input == [] then Ok([])
    else match m(input[0])
      case Err(e) => Err(e)
      case Ok(out) =>
        match StageOutput(m, input[1..])
        case Err(e) => Err(e)
        case Ok(rest) => Ok(out + rest)
  }

  /** The stages of a chain applied in order, each to the buffer the previous
      one produced. */
  function RunStages(chain: seq<Middleware>, buffer: seq<Event>): Result<seq<Event>>
  {
    if chain == [] then Ok(buffer)
    else match StageOutput(chain[0], buffer)
      case Err(e) => Err(e)
      case Ok(next) => RunStages(chain[1..], next)
  }

  /** What a code generator sees of a final buffer: the events delivered to
      it (up to and including the first it rejects), the outcome, and the
      state it is left in. */
  datatype Delivery<S> = Delivery(received: seq<Event>, outcome: Result<()>, state: S)

  /** The state of a code generator started in `s` after it has been fed
      `events` in order, whatever it answered. */
  function StateAfter<S>(fcg: EventConsumer<S>, s: S, events: seq<Event>): S
  {
    if events == [] then s else StateAfter(fcg, fcg(s, events[0]).state, events[1..])
  }

  /** The code generator's answer to event `i` of `buffer`, fed after the
      events before it. */
  function AnswerAt<S>(fcg: EventConsumer<S>, s: S, buffer: seq<Event>, i: nat): Fed<S>
    requires i < |buffer|
  {
    fcg(StateAfter(fcg, s, buffer[..i]), buffer[i])
  }

  /** Feeding a buffer to a code generator in state `s`, stopping at its
      first error. */
  function Deliver<S>(fcg: EventConsumer<S>, s: S, buffer: seq<Event>): (d: Delivery<S>)
    ensures d.received <= buffer
    ensures d.state == StateAfter(fcg, s, d.received)
  {
    if buffer == [] then Delivery([], Ok(()), s)
    else
      var first := fcg(s, buffer[0]);
      match first.result
      case Err(e) =>
        assert [buffer[0]][1..] == [];
        Delivery([buffer[0]], Err(e), first.state)
      case Ok(_) =>
        var rest := Deliver(fcg, first.state, buffer[1..]);
        assert ([buffer[0]] + rest.received)[1..] == rest.received;
        Delivery([buffer[0]] + rest.received, rest.outcome, rest.state)
  }

  /** The code generator receives a prefix of the buffer; the delivery
      succeeds exactly when it received the whole buffer and accepted every
      event; otherwise the last event it received is the first it rejected,
      with that error. */
  lemma {:induction false} DeliverAnswers<S>(fcg: EventConsumer<S>, s: S, buffer: seq<Event>)
    ensures var d := Deliver(fcg, s, buffer);
      && (d.outcome.Ok? <==>
            d.received == buffer && forall i :: 0 <= i < |buffer| ==> AnswerAt(fcg, s, buffer, i).result.Ok?)
      && (d.outcome.Err? ==>
            |d.received| > 0 && AnswerAt(fcg, s, buffer, |d.received| - 1).result == Err(d.outcome.error))
      && (forall i :: 0 <= i < |d.received| - 1 ==> AnswerAt(fcg, s, buffer, i).result.Ok?)
  {
    if buffer != [] {
      var first := fcg(s, buffer[0]);
      assert buffer[..0] == [];
      assert AnswerAt(fcg, s, buffer, 0) == first;
      AnswerAfterFirst(fcg, s, buffer);
      if first.result.Ok? {
        var rest := Deliver(fcg, first.state, buffer[1..]);
        DeliverAnswers(fcg, first.state, buffer[1..]);
        assert Deliver(fcg, s, buffer) == Delivery([buffer[0]] + rest.received, rest.outcome, rest.state);
        assert rest.received == buffer[1..] <==> [buffer[0]] + rest.received == buffer;
      }
    }
  }

  /** After the first event, the answers are those of the rest of the buffer
      fed from the state the first event left. */
  lemma AnswerAfterFirst<S>(fcg: EventConsumer<S>, s: S, buffer: seq<Event>)
    requires buffer != []
    ensures forall i :: 1 <= i < |buffer| ==>
      AnswerAt(fcg, s, buffer, i) == AnswerAt(fcg, fcg(s, buffer[0]).state, buffer[1..], i - 1)
  {
    forall i | 1 <= i < |buffer|
      ensures AnswerAt(fcg, s, buffer, i) == AnswerAt(fcg, fcg(s, buffer[0]).state, buffer[1..], i - 1)
    {
      assert buffer[..i][1..] == buffer[1..][..i - 1];
      assert buffer[1..][i - 1] == buffer[i];
    }
  }

  /** `MiddlewareChain::run` as a function of the chain, the optional code
      generator and its state, and the input event. */
  function RunSpec<S>(chain: seq<Middleware>, fcg: Option<EventConsumer<S>>, s: S, ev: Event): Delivery<S>
  {
    match RunStages(chain, [ev])
    case Err(e) => Delivery([], Err(e), s)
    case Ok(buffer) =>
      if fcg.None? then Delivery([], Ok(()), s) else Deliver(fcg.value, s, buffer)
  }

  // ---------------------------------------------------------------------
  // The imperative pipeline
  // ---------------------------------------------------------------------

  /** `EventSink`: the buffer middlewares push into. */
  class EventSink {
    var buffer: seq<Event>

    constructor()
      ensures buffer == []
    {
      buffer := [];
    }

    /** `EventSink::push`. */
    method Push(ev: Event)
      modifies this
      ensures buffer == old(buffer) + [ev]
    {
      buffer := buffer + [ev];
    }

    /** The events a middleware pushes while handling one event, one by one. */
    method PushAll(evs: seq<Event>)
      modifies this
      ensures buffer == old(buffer) + evs
    {
      for i := 0 to |evs|
        invariant buffer == old(buffer) + evs[..i]
      {
        Push(evs[i]);
        assert evs[..i + 1] == evs[..i] + [evs[i]];
      }
    }

    /** `sink.buffer.drain().collect()`: take every event out of the buffer. */
    method Drain() returns (prev: seq<Event>)
      modifies this
      ensures prev == old(buffer) && buffer == []
    {
      prev := buffer;
      buffer := [];
    }
  }

  /** `MiddlewareChain`: the ordered list of middleware stages. */
  class MiddlewareChain {
    var chain: seq<Middleware>

    /** `MiddlewareChain::new`: an empty chain. */
    constructor()
      ensures chain == []
    {
      chain := [];
    }

    /** `MiddlewareChain::push`: append a stage at the end. */
    method Push(m: Middleware)
      modifies this
      ensures chain == old(chain) + [m]
    {
      chain := chain + [m];
    }

    /** `MiddlewareChain::run`: the event goes through every stage, each
        draining the previous stage's buffer and refilling the sink; the first
        middleware error ends the run; then the code generator, if any, is fed
        the final buffer until its first error. `received` is what the code
        generator was fed, and `stateAfter` the state it was left in. */
    method Run<S>(fcg: Option<EventConsumer<S>>, state: S, ev: Event)
      returns (r: Result<()>, received: seq<Event>, stateAfter: S)
      ensures Delivery(received, r, stateAfter) == RunSpec(chain, fcg, state, ev)
    {
      var sink := new EventSink();
      sink.Push(ev);
      assert chain[0..] == chain && sink.buffer == [ev];
      for k := 0 to |chain|
        invariant RunStages(chain, [ev]) == RunStages(chain[k..], sink.buffer)
      {
        assert chain[k..][0] == chain[k] && chain[k..][1..] == chain[k + 1..];
        var stage := RunStage(chain[k], sink);
        if stage.Err? {
          return stage, [], state;
        }
      }
      assert chain[|chain|..] == [];
      if fcg.Some? {
        r, received, stateAfter := FeedAll(fcg.value, state, sink.buffer);
      } else {
        r, received, stateAfter := Ok(()), [], state;
      }
    }
  }

  /** One stage of `run`: drain the sink and feed every drained event to the
      middleware, which pushes its output back into the sink. */
  method RunStage(m: Middleware, sink: EventSink) returns (r: Result<()>)
    modifies sink
    ensures r.Ok? <==> StageOutput(m, old(sink.buffer)).Ok?
    ensures r.Ok? ==> sink.buffer == StageOutput(m, old(sink.buffer)).value
    ensures r.Err? ==> r.error == StageOutput(m, old(sink.buffer)).error
  {
    var prev := sink.Drain();
    ghost var done: seq<Event> := [];
    for j := 0 to |prev|
      invariant StageOutput(m, prev[..j]) == Ok(done)
      invariant sink.buffer == done
    {
      var out := m(prev[j]);
      if out.Err? {
        StageOutputFirstError(m, prev[..j], prev[j..]);
        assert prev[..j] + prev[j..] == prev;
        return Err(out.error);
      }
      sink.PushAll(out.value);
      StageOutputAppend(m, prev[..j], [prev[j]]);
      assert StageOutput(m, [prev[j]]) == Ok(out.value) by {
        assert [prev[j]][1..] == [];
        assert out.value + [] == out.value;
      }
      assert prev[..j + 1] == prev[..j] + [prev[j]];
      done := done + out.value;
    }
    assert prev[..|prev|] == prev;
    r := Ok(());
  }

  /** The last part of `run`: feed the final buffer to the code generator,
      stopping at its first error. */
  method FeedAll<S>(fcg: EventConsumer<S>, s: S, buffer: seq<Event>)
    returns (r: Result<()>, received: seq<Event>, state: S)
    ensures Delivery(received, r, state) == Deliver(fcg, s, buffer)
  {
    received, state := [], s;
    for j := 0 to |buffer|
      invariant received == buffer[..j]
      invariant state == StateAfter(fcg, s, buffer[..j])
      invariant forall i :: 0 <= i < j ==> AnswerAt(fcg, s, buffer, i).result.Ok?
    {
      received := received + [buffer[j]];
      var fed := fcg(state, buffer[j]);
      assert fed == AnswerAt(fcg, s, buffer, j);
      StateAfterSnoc(fcg, s, buffer[..j], buffer[j]);
      assert buffer[..j + 1] == buffer[..j] + [buffer[j]];
      state := fed.state;
      if fed.result.Err? {
        DeliverFirstError(fcg, s, buffer, j);
        return Err(fed.result.error), received, state;
      }
    }
    assert buffer[..|buffer|] == buffer;
    DeliverAllOk(fcg, s, buffer);
    r := Ok(());
  }

  /** Once a prefix of the buffer succeeded, the first failing event's error
      is the stage's error. */
  lemma {:induction false} StageOutputFirstError(m: Middleware, a: seq<Event>, b: seq<Event>)
    requires StageOutput(m, a).Ok? && b != [] && m(b[0]).Err?
    ensures StageOutput(m, a + b) == Err(m(b[0]).error)
  {
    if a == [] {
      assert a + b == b;
    } else {
      assert (a + b)[1..] == a[1..] + b;
      StageOutputFirstError(m, a[1..], b);
    }
  }

  /** Feeding one more event moves the state on by that event. */
  lemma {:induction false} StateAfterSnoc<S>(fcg: EventConsumer<S>, s: S, events: seq<Event>, e: Event)
    ensures StateAfter(fcg, s, events + [e]) == fcg(StateAfter(fcg, s, events), e).state
  {
    if events == [] {
      assert events + [e] == [e] && [e][1..] == [];
    } else {
      assert (events + [e])[1..] == events[1..] + [e];
      StateAfterSnoc(fcg, fcg(s, events[0]).state, events[1..], e);
    }
  }

  /** The code generator's first rejected event ends the delivery, and the
      generator keeps the state that event left it in. */
  lemma DeliverFirstError<S>(fcg: EventConsumer<S>, s: S, buffer: seq<Event>, j: nat)
    requires j < |buffer| && AnswerAt(fcg, s, buffer, j).result.Err?
    requires forall i :: 0 <= i < j ==> AnswerAt(fcg, s, buffer, i).result.Ok?
    ensures Deliver(fcg, s, buffer) ==
      Delivery(buffer[..j + 1], Err(AnswerAt(fcg, s, buffer, j).result.error), AnswerAt(fcg, s, buffer, j).state)
  {
    DeliverAnswers(fcg, s, buffer);
    var d := Deliver(fcg, s, buffer);
    var k := |d.received| - 1;
    assert d.received == buffer[..k + 1];
    if k < j {
      assert false;
    } else if k > j {
      assert false;
    }
    StateAfterSnoc(fcg, s, buffer[..j], buffer[j]);
    assert buffer[..j + 1] == buffer[..j] + [buffer[j]];
  }

  // ---------------------------------------------------------------------
  // Properties of a run
  // ---------------------------------------------------------------------

  /** With no stages and a code generator, the code generator receives
      exactly the input event, and its answer is the run's. */
  lemma EmptyChainForwardsEvent<S>(fcg: EventConsumer<S>, s: S, ev: Event)
    ensures RunSpec([], Some(fcg), s, ev) == Delivery([ev], fcg(s, ev).result, fcg(s, ev).state)
  {
    assert RunStages([], [ev]) == Ok([ev]);
    assert [ev][1..] == [];
    var d := Deliver(fcg, s, [ev]);
    assert RunSpec([], Some(fcg), s, ev) == d;
    match fcg(s, ev).result
    case Err(e) =>
    case Ok(u) =>
      assert Deliver(fcg, fcg(s, ev).state, []) == Delivery([], Ok(()), fcg(s, ev).state);
      assert d == Delivery([ev] + [], Ok(()), fcg(s, ev).state);
      assert [ev] + [] == [ev];
      assert u == ();
  }

  /** A code generator that accepts every event receives the whole buffer
      and ends in the state the whole buffer leads to. */
  lemma DeliverAllOk<S>(fcg: EventConsumer<S>, s: S, buffer: seq<Event>)
    requires forall i :: 0 <= i < |buffer| ==> AnswerAt(fcg, s, buffer, i).result.Ok?
    ensures Deliver(fcg, s, buffer) == Delivery(buffer, Ok(()), StateAfter(fcg, s, buffer))
  {
    DeliverAnswers(fcg, s, buffer);
    var d := Deliver(fcg, s, buffer);
    assert d.outcome.Ok? && d.received == buffer;
    assert d.outcome.value == ();
  }

  /** A stage succeeds on a buffer exactly when it succeeds on every event. */
  lemma {:induction false} StageOutputOk(m: Middleware, input: seq<Event>)
    ensures StageOutput(m, input).Ok? <==> forall i :: 0 <= i < |input| ==> m(input[i]).Ok?
  {
    if input != [] {
      StageOutputOk(m, input[1..]);
      assert forall i :: 1 <= i < |input| ==> input[i] == input[1..][i - 1];
    }
  }

  /** A stage's output for a concatenated buffer is the concatenation of its
      outputs: events keep their order across the drain-and-refill. */
  lemma {:induction false} StageOutputAppend(m: Middleware, a: seq<Event>, b: seq<Event>)
    requires StageOutput(m, a).Ok? && StageOutput(m, b).Ok?
    ensures StageOutput(m, a + b) == Ok(StageOutput(m, a).value + StageOutput(m, b).value)
  {
    if a == [] {
      assert a + b == b;
      assert [] + StageOutput(m, b).value == StageOutput(m, b).value;
    } else {
      assert (a + b)[1..] == a[1..] + b;
      StageOutputAppend(m, a[1..], b);
      var out := m(a[0]).value;
      var restA, outB := StageOutput(m, a[1..]).value, StageOutput(m, b).value;
      assert out + (restA + outB) == (out + restA) + outB;
    }
  }

  /** Pushing a stage makes it consume what the chain so far produces. */
  lemma {:induction false} RunStagesPush(chain: seq<Middleware>, m: Middleware, buffer: seq<Event>)
    ensures RunStages(chain + [m], buffer) ==
      match RunStages(chain, buffer)
      case Err(e) => Err(e)
      case Ok(out) => StageOutput(m, out)
  {
    if chain == [] {
      assert [m][1..] == [];
      match StageOutput(m, buffer)
      case Err(e) =>
      case Ok(next) =>
    } else {
      assert (chain + [m])[1..] == chain[1..] + [m];
      match StageOutput(chain[0], buffer)
      case Err(e) =>
      case Ok(next) => RunStagesPush(chain[1..], m, next);
    }
  }

  /** Stage `k` of a chain accepts every event it is given: the buffer the
      stages before it produce, if they succeed. */
  predicate StageAcceptsInput(chain: seq<Middleware>, buffer: seq<Event>, k: nat)
    requires k < |chain|
  {
    var input := RunStages(chain[..k], buffer);
    input.Ok? ==> forall i :: 0 <= i < |input.value| ==> chain[k](input.value[i]).Ok?
  }

  /** The stages of a chain succeed exactly when every stage accepts every
      event it is given. */
  lemma {:induction false} RunStagesOk(chain: seq<Middleware>, buffer: seq<Event>)
    ensures RunStages(chain, buffer).Ok? <==> forall k :: 0 <= k < |chain| ==> StageAcceptsInput(chain, buffer, k)
  {
    if chain != [] {
      var n := |chain| - 1;
      var prefix, m := chain[..n], chain[n];
      assert chain == prefix + [m];
      RunStagesOk(prefix, buffer);
      RunStagesPush(prefix, m, buffer);
      forall k | 0 <= k < n
        ensures StageAcceptsInput(chain, buffer, k) == StageAcceptsInput(prefix, buffer, k)
      {
        assert chain[..k] == prefix[..k] && chain[k] == prefix[k];
      }
      assert chain[..n] == prefix;
      match RunStages(prefix, buffer)
      case Err(_) =>
        assert !(forall k :: 0 <= k < n ==> StageAcceptsInput(prefix, buffer, k));
      case Ok(out) =>
        StageOutputOk(m, out);
        assert RunStages(chain, buffer) == StageOutput(m, out);
        assert StageAcceptsInput(chain, buffer, n) <==> forall i :: 0 <= i < |out| ==> m(out[i]).Ok?;
    }
  }

  /** A middleware error ends the run with that error, and the code
      generator receives no event and keeps its state; without a code
      generator the run succeeds exactly when all stages do. */
  lemma RunOutcome<S>(chain: seq<Middleware>, fcg: Option<EventConsumer<S>>, s: S, ev: Event)
    ensures RunStages(chain, [ev]).Err? ==>
      RunSpec(chain, fcg, s, ev) == Delivery([], Err(RunStages(chain, [ev]).error), s)
    ensures fcg.None? ==> (RunSpec(chain, fcg, s, ev).outcome.Ok? <==> RunStages(chain, [ev]).Ok?)
    ensures fcg.Some? && RunSpec(chain, fcg, s, ev).outcome.Ok? ==>
      RunStages(chain, [ev]).Ok? && RunSpec(chain, fcg, s, ev).received == RunStages(chain, [ev]).value
      && RunSpec(chain, fcg, s, ev).state == StateAfter(fcg.value, s, RunStages(chain, [ev]).value)
  {
    if fcg.Some? && RunStages(chain, [ev]).Ok? {
      DeliverAnswers(fcg.value, s, RunStages(chain, [ev]).value);
    }
  }

  // ---------------------------------------------------------------------
  // Pre-validation gate of `compile`
  // ---------------------------------------------------------------------

  datatype Backend = Cranelift | LLVM | Singlepass

  /** `requires_pre_validation`: only Cranelift needs a validated module. */
  predicate RequiresPreValidation(backend: Backend)
  {
    match backend
    case Cranelift => true
    case LLVM => false
    case Singlepass => false
  }

  /** The gate at the start of `StreamingCompiler::compile`: `validation` is
      what `validate(wasm)` returns and `generate` what code generation would
      produce; validation failure stops a backend that requires it. */
  function CompileGate<M>(backend: Backend, validation: Result<()>, generate: Result<M>): (r: Result<M>)
    ensures backend == Cranelift && validation.Err? ==> r == Err(validation.error)
    ensures backend != Cranelift || validation.Ok? ==> r == generate
  {
    if RequiresPreValidation(backend) then
      match validation
      case Err(msg) => Err(msg)
      case Ok(_) => generate
    else generate
  }

  /** Only Cranelift's result depends on the validator. */
  lemma ValidationOnlyForCranelift<M>(backend: Backend, v1: Result<()>, v2: Result<()>, generate: Result<M>)
    ensures RequiresPreValidation(backend) <==> backend == Cranelift
    ensures backend != Cranelift ==> CompileGate(backend, v1, generate) == CompileGate(backend, v2, generate)
  {
  }
}
