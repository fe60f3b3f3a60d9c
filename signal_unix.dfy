/** Trap recovery of the Cranelift backend on Unix
    (lib/clif-backend/src/signal/unix.rs): the per-thread jump buffer is
    saved before a protected call and restored after it on both paths, and a
    trap that jumps back is turned into an error by a fixed table from the
    signal and the Cranelift trap code. `setjmp`, `longjmp`, `sigaction`,
    the signal handler and the thread-local cells are not modelled as such:
    the cells are the fields of `ProtectedCalls`, and which way `setjmp`
    returns is a parameter. */
module SignalUnix {
  import opened Wrappers

  /** The signals the backend installs a handler for, and any other one. */
  datatype Signal = SIGFPE | SIGILL | SIGSEGV | SIGBUS | OtherSignal(number: int)

  /** `Signal::from_c_int`: a known signal, or a number that is not a
      signal at all. */
  datatype DecodedSignal = Known(signal: Signal) | Undecodable

  /** Cranelift's trap codes, attached to trapping instructions. */
  datatype TrapCode =
    | StackOverflow
    | HeapOutOfBounds
    | TableOutOfBounds
    | OutOfBounds
    | IndirectCallToNull
    | BadSignature
    | IntegerOverflow
    | IntegerDivisionByZero
    | BadConversionToInteger
    | UnreachableCodeReached
    | Interrupt
    | User(code: nat)

  /** The runtime's exception codes that a trap is reported as. */
  datatype ExceptionCode =
    | Unreachable
    | IncorrectCallIndirectSignature
    | MemoryOutOfBounds
    | CallIndirectOOB
    | IllegalArithmetic

  /** The payload of a `CallProtError` raised by a trap: an exception code,
      a plain message, or the "unknown trap" report with the faulting
      address and the name of the signal. */
  datatype TrapError =
    | Exception(code: ExceptionCode)
    | Message(text: string)
    | UnknownTrap(faultingAddress: u64, signalName: string)

  /** A `CallProtError`: data a host function left for the trap, or the
      classified trap. */
  datatype CallProtError<E> = EarlyTrap(data: E) | Trapped(error: TrapError)

  /** The signals that are given an exception code when the faulting
      instruction carries a trap code; any other one is `unimplemented!`. */
  predicate HandledSignal(signal: DecodedSignal)
  {
    signal.Known? && !signal.signal.OtherSignal?
  }

  /** The exception code of a trap code under SIGILL, if it has one. */
  function IllegalInstructionCode(trap: TrapCode): Option<ExceptionCode>
  {
    match trap
    case StackOverflow => Some(MemoryOutOfBounds)
    case HeapOutOfBounds => Some(MemoryOutOfBounds)
    case TableOutOfBounds => Some(CallIndirectOOB)
    case OutOfBounds => Some(MemoryOutOfBounds)
    case IndirectCallToNull => Some(CallIndirectOOB)
    case BadSignature => Some(IncorrectCallIndirectSignature)
    case IntegerOverflow => Some(IllegalArithmetic)
    case IntegerDivisionByZero => Some(IllegalArithmetic)
    case BadConversionToInteger => Some(IllegalArithmetic)
    case UnreachableCodeReached => Some(Unreachable)
    case _ => None
  }

  /** The signal name in the "unknown trap" report. */
  function SignalName(signal: DecodedSignal): string
  {
    match signal
    case Known(SIGFPE) => "floating-point exception"
    case Known(SIGILL) => "illegal instruction"
    case Known(SIGSEGV) => "segmentation violation"
    case Known(SIGBUS) => "bus error"
    case Undecodable => "error while getting the Signal"
    case Known(OtherSignal(_)) => "unknown trapped signal"
  }

  /** The error of a trap without early data: `trap` is what the trap table
      holds for the faulting instruction pointer, if anything. */
  function ClassifyTrap(signal: DecodedSignal, trap: Option<TrapCode>, faultingAddress: u64): TrapError
    requires trap.Some? ==> HandledSignal(signal)
  {
    match trap
    case None => UnknownTrap(faultingAddress, SignalName(signal))
    case Some(code) =>
      match signal.signal
      case SIGILL =>
        (match IllegalInstructionCode(code)
         case Some(e) => Exception(e)
         case None => Message("unknown clif trap code"))
      case SIGSEGV => Exception(MemoryOutOfBounds)
      case SIGBUS => Exception(MemoryOutOfBounds)
      case SIGFPE => Exception(IllegalArithmetic)
  }

  // ---------------------------------------------------------------------
  // The classification table, outcome by outcome
  // ---------------------------------------------------------------------

  /** A trap with a known trap code is reported as out-of-bounds memory
      exactly under SIGSEGV or SIGBUS, or under SIGILL for a stack
      overflow, a heap or a plain out-of-bounds trap. */
  lemma MemoryOutOfBoundsExactly(signal: DecodedSignal, code: TrapCode, address: u64)
    requires HandledSignal(signal)
    ensures ClassifyTrap(signal, Some(code), address) == Exception(MemoryOutOfBounds) <==>
      signal == Known(SIGSEGV) || signal == Known(SIGBUS) ||
      (signal == Known(SIGILL) && (code == StackOverflow || code == HeapOutOfBounds || code == OutOfBounds))
  {
  }

  /** Illegal arithmetic exactly under SIGFPE, or under SIGILL for integer
      overflow, division by zero and a bad conversion to integer. */
  lemma IllegalArithmeticExactly(signal: DecodedSignal, code: TrapCode, address: u64)
    requires HandledSignal(signal)
    ensures ClassifyTrap(signal, Some(code), address) == Exception(IllegalArithmetic) <==>
      signal == Known(SIGFPE) ||
      (signal == Known(SIGILL) &&
       (code == IntegerOverflow || code == IntegerDivisionByZero || code == BadConversionToInteger))
  {
  }

  /** The codes only SIGILL can give: an out-of-bounds indirect call for a
      table trap or a call to null, a bad signature, and unreachable code. */
  lemma IllegalInstructionOnlyCodes(signal: DecodedSignal, code: TrapCode, address: u64)
    requires HandledSignal(signal)
    ensures ClassifyTrap(signal, Some(code), address) == Exception(CallIndirectOOB) <==>
      signal == Known(SIGILL) && (code == TableOutOfBounds || code == IndirectCallToNull)
    ensures ClassifyTrap(signal, Some(code), address) == Exception(IncorrectCallIndirectSignature) <==>
      signal == Known(SIGILL) && code == BadSignature
    ensures ClassifyTrap(signal, Some(code), address) == Exception(Unreachable) <==>
      signal == Known(SIGILL) && code == UnreachableCodeReached
  {
  }

  /** Under SIGILL, an interrupt or a user trap code has no exception code:
      the error is the message "unknown clif trap code", and this is the
      only way to get a plain message. */
  lemma UnknownClifTrapCodeExactly(signal: DecodedSignal, code: TrapCode, address: u64)
    requires HandledSignal(signal)
    ensures ClassifyTrap(signal, Some(code), address).Message? <==>
      signal == Known(SIGILL) && (code == Interrupt || code.User?)
    ensures ClassifyTrap(signal, Some(code), address).Message? ==>
      ClassifyTrap(signal, Some(code), address).text == "unknown clif trap code"
  {
  }

  /** Under SIGSEGV, SIGBUS and SIGFPE the trap code does not matter. */
  lemma SignalAloneDecides(signal: DecodedSignal, code1: TrapCode, code2: TrapCode, address1: u64, address2: u64)
    requires signal == Known(SIGSEGV) || signal == Known(SIGBUS) || signal == Known(SIGFPE)
    ensures ClassifyTrap(signal, Some(code1), address1) == ClassifyTrap(signal, Some(code2), address2)
  {
  }

  /** A trap outside the trap table is reported as an unknown trap at the
      faulting address, named by its signal; different signals get
      different names. */
  lemma UnknownTrapNamesTheSignal(signal: DecodedSignal, other: DecodedSignal, address: u64)
    ensures ClassifyTrap(signal, None, address).UnknownTrap?
    ensures ClassifyTrap(signal, None, address).faultingAddress == address
    ensures signal == Known(SIGFPE) ==> ClassifyTrap(signal, None, address).signalName == "floating-point exception"
    ensures signal == Known(SIGILL) ==> ClassifyTrap(signal, None, address).signalName == "illegal instruction"
    ensures signal == Known(SIGSEGV) ==> ClassifyTrap(signal, None, address).signalName == "segmentation violation"
    ensures signal == Known(SIGBUS) ==> ClassifyTrap(signal, None, address).signalName == "bus error"
    ensures signal == Undecodable ==> ClassifyTrap(signal, None, address).signalName == "error while getting the Signal"
    ensures HandledSignal(signal) && SignalName(signal) == SignalName(other) ==> signal == other
  {
  }

  // ---------------------------------------------------------------------
  // The protected call
  // ---------------------------------------------------------------------

  /** `Result<T, CallProtError>`. */
  datatype ProtectedResult<T, E> = Returned(value: T) | Failed(error: CallProtError<E>)

  /** How `setjmp` returned: directly (zero), or through `longjmp` from the
      signal handler with a signal number. */
  datatype SetjmpReturn = Direct | Jumped(signal: DecodedSignal)

  /** The contents of the 27-word jump buffer. */
  type JmpBuf = seq<int>

  /** The per-thread state a protected call works with: the jump buffer, the
      early trap data a host function may leave, the addresses the signal
      handler caught (faulting address and instruction pointer), and whether
      the handlers are installed. */
  class ProtectedCalls<E> {
    var jmpBuf: JmpBuf
    var trapEarlyData: Option<E>
    var caughtAddresses: (u64, u64)
    var handlersInstalled: bool

    constructor()
      ensures jmpBuf == seq(27, _ => 0) && trapEarlyData.None? && caughtAddresses == (0, 0)
      ensures !handlersInstalled
    {
      jmpBuf := seq(27, _ => 0);
      trapEarlyData := None;
      caughtAddresses := (0, 0);
      handlersInstalled := false;
    }

    /** `call_protected`: save the jump buffer, install the handlers once,
        let `setjmp` overwrite the buffer with `context`, and then either
        run `f` (direct return) or report the trap (return through
        `longjmp`). On a trap, `lookup` is the handler data's trap table
        and the fields are as the trap left them. */
    method CallProtected<T>(lookup: u64 -> Option<TrapCode>, f: () -> T,
                            context: JmpBuf, setjmp: SetjmpReturn)
      returns (r: ProtectedResult<T, E>)
      requires setjmp.Jumped? && trapEarlyData.None? && lookup(caughtAddresses.1).Some?
               ==> HandledSignal(setjmp.signal)
      modifies this
      ensures jmpBuf == old(jmpBuf)
      ensures handlersInstalled
      ensures caughtAddresses == old(caughtAddresses)
      ensures setjmp.Direct? ==> r == Returned(f()) && trapEarlyData == old(trapEarlyData)
      ensures setjmp.Jumped? ==> trapEarlyData.None?
      ensures setjmp.Jumped? && old(trapEarlyData).Some? ==> r == Failed(EarlyTrap(old(trapEarlyData).value))
      ensures setjmp.Jumped? && old(trapEarlyData).None? ==>
        r == Failed(Trapped(ClassifyTrap(setjmp.signal, lookup(old(caughtAddresses).1), old(caughtAddresses).0)))
    {
      var prevJmpBuf := jmpBuf;
      handlersInstalled := true;
      jmpBuf := context;
      match setjmp
      case Jumped(signal) =>
        jmpBuf := prevJmpBuf;
        var data := trapEarlyData;
        trapEarlyData := None;
        if data.Some? {
          return Failed(EarlyTrap(data.value));
        }
        var (faultingAddress, instPtr) := caughtAddresses;
        var error := ClassifyTrap(signal, lookup(instPtr), faultingAddress);
        return Failed(Trapped(error));
      case Direct =>
        var ret := f();
        jmpBuf := prevJmpBuf;
        return Returned(ret);
    }
  }
}
