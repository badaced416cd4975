/**
  The nine integer properties of the weaving context: six local-variable
  slot indices, two exception-handler indices and the pending-switch index.
  They are plain auto-properties: any integer may be stored, and `-1` is the
  sentinel meaning "not allocated yet".
 */
module SlotRegistry {

  datatype SlotName =
    | ExecutionContextVariable
    | ExecutionVariable
    | ExceptionVariable
    | ExceptionHandler
    | FinallyHandler
    | ReturnValueVariable
    | ReturnVariable
    | HasExceptionVariable
    | PendingSwitch

  datatype Slots = Slots(
    executionContextVariableIndex: int,
    executionVariableIndex: int,
    exceptionVariableIndex: int,
    exceptionHandlerIndex: int,
    finallyHandlerIndex: int,
    returnValueVariableIndex: int,
    returnVariableIndex: int,
    hasExceptionVariableIndex: int,
    pendingSwitchIndex: int)

  /** The value `Reset` stores to mean "not allocated". */
  const Unallocated: int := -1

  /** The property getter. */
  function Get(s: Slots, n: SlotName): int
  {
    match n
    case ExecutionContextVariable => s.executionContextVariableIndex
    case ExecutionVariable => s.executionVariableIndex
    case ExceptionVariable => s.exceptionVariableIndex
    case ExceptionHandler => s.exceptionHandlerIndex
    case FinallyHandler => s.finallyHandlerIndex
    case ReturnValueVariable => s.returnValueVariableIndex
    case ReturnVariable => s.returnVariableIndex
    case HasExceptionVariable => s.hasExceptionVariableIndex
    case PendingSwitch => s.pendingSwitchIndex
  }

  /** The property setter: unchecked, it stores any integer in one property only. */
  function Set(s: Slots, n: SlotName, v: int): (r: Slots)
    ensures Get(r, n) == v
    ensures forall n' :: n' != n ==> Get(r, n') == Get(s, n')
  {
    match n
    case ExecutionContextVariable => s.(executionContextVariableIndex := v)
    case ExecutionVariable => s.(executionVariableIndex := v)
    case ExceptionVariable => s.(exceptionVariableIndex := v)
    case ExceptionHandler => s.(exceptionHandlerIndex := v)
    case FinallyHandler => s.(finallyHandlerIndex := v)
    case ReturnValueVariable => s.(returnValueVariableIndex := v)
    case ReturnVariable => s.(returnVariableIndex := v)
    case HasExceptionVariable => s.(hasExceptionVariableIndex := v)
    case PendingSwitch => s.(pendingSwitchIndex := v)
  }

  /** What a freshly constructed context holds: the .NET default `0` in every property. */
  function Defaults(): (r: Slots)
    ensures forall n :: Get(r, n) == 0
  {
    Slots(0, 0, 0, 0, 0, 0, 0, 0, 0)
  }

  /** What `Reset` stores: the sentinel in every property. */
  function Cleared(): (r: Slots)
    ensures forall n :: Get(r, n) == Unallocated
  {
    var u := Unallocated;
    Slots(u, u, u, u, u, u, u, u, u)
  }

  /** Two registries that read the same through every getter are the same registry. */
  lemma Extensional(a: Slots, b: Slots)
    requires forall n :: Get(a, n) == Get(b, n)
    ensures a == b
  {
    assert Get(a, ExecutionContextVariable) == Get(b, ExecutionContextVariable);
    assert Get(a, ExecutionVariable) == Get(b, ExecutionVariable);
    assert Get(a, ExceptionVariable) == Get(b, ExceptionVariable);
    assert Get(a, ExceptionHandler) == Get(b, ExceptionHandler);
    assert Get(a, FinallyHandler) == Get(b, FinallyHandler);
    assert Get(a, ReturnValueVariable) == Get(b, ReturnValueVariable);
    assert Get(a, ReturnVariable) == Get(b, ReturnVariable);
    assert Get(a, HasExceptionVariable) == Get(b, HasExceptionVariable);
    assert Get(a, PendingSwitch) == Get(b, PendingSwitch);
  }

  /** `Cleared` is the only registry in which every property reads the sentinel. */
  lemma ClearedIsUnique(s: Slots)
    ensures (forall n :: Get(s, n) == Unallocated) <==> s == Cleared()
  {
    if forall n :: Get(s, n) == Unallocated {
      Extensional(s, Cleared());
    }
  }

  /** Storing the value a property already holds changes nothing. */
  lemma SetGet(s: Slots, n: SlotName)
    ensures Set(s, n, Get(s, n)) == s
  {
  }

  /** A second store to the same property overrides the first. */
  lemma SetSet(s: Slots, n: SlotName, v: int, w: int)
    ensures Set(Set(s, n, v), n, w) == Set(s, n, w)
  {
  }

  /** Stores to different properties do not interfere. */
  lemma SetCommutes(s: Slots, n: SlotName, v: int, n': SlotName, v': int)
    requires n != n'
    ensures Set(Set(s, n, v), n', v') == Set(Set(s, n', v'), n, v)
  {
  }
}
