/**
  Sequences of calls on one weaving context, as the weaver issues them while
  processing a module. A call that throws stops the sequence and leaves the
  context as it was before that call. Over any such sequence the invariant
  holds, the reference caches only grow, and the module performs exactly one
  import per new cache key.
 */
module WeavingTraces {
  import opened Exceptions
  import opened Symbols
  import RC = ReferenceCache
  import SlotRegistry
  import opened WeavingContext
  import WeavingProperties

  /** One call on the context's public surface; lookups' return values are dropped. */
  datatype Call =
    | AddMethod(mi: Option<MethodInfo>)
    | GetMethod(mi: Option<MethodInfo>)
    | AddType(t: Option<SystemType>)
    | GetType(t: Option<SystemType>)
    | GetField(field: Option<FieldReference>)
    | RecordField(field: Option<FieldReference>, variableIndex: int)
    | SetSlot(slot: SlotRegistry.SlotName, value: int)
    | SetTryStart(marker: Option<Instruction>)
    | SetEnding(marker: Option<Instruction>)
    | ResetCall

  /** The context after one call, or the exception the call throws. */
  function Step(c: Context, call: Call): (r: Result<Context>)
    ensures r.Throw? <==> match call
                          case AddMethod(mi) => mi.None?
                          case GetMethod(mi) => mi.None?
                          case AddType(t) => t.None?
                          case GetType(t) => t.None?
                          case GetField(f) => f.None?
                          case RecordField(f, i) => f.None? || i < 0 || f.value in c.fieldVariables
                          case _ => false
    ensures call.GetField? && r.Ok? ==> r.value == c
  {
    match call
    case AddMethod(mi) => AddMethodReference(c, mi)
    case GetMethod(mi) =>
      (match GetMethodReference(c, mi)
       case Ok(g) => Ok(g.context)
       case Throw(e) => Throw(e))
    case AddType(t) => AddTypeReference(c, t)
    case GetType(t) =>
      (match GetTypeReference(c, t)
       case Ok(g) => Ok(g.context)
       case Throw(e) => Throw(e))
    case GetField(f) =>
      (match GetLocalVariableForField(c, f)
       case Ok(_) => Ok(c)
       case Throw(e) => Throw(e))
    case RecordField(f, i) => RecordLocalVariableForField(c, f, i)
    case SetSlot(n, v) => Ok(SetSlotIndex(c, n, v))
    case SetTryStart(i) => Ok(c.(tryStartInstruction := i))
    case SetEnding(i) => Ok(c.(endingInstruction := i))
    case ResetCall => Ok(Reset(c))
  }

  /** Where a sequence of calls ends: the last context reached and the exception that stopped it, if any. */
  datatype Outcome = Outcome(context: Context, thrown: Option<Exception>)

  function Run(c: Context, calls: seq<Call>): Outcome
    decreases |calls|
  {
    if calls == [] then Outcome(c, None)
    else
      match Step(c, calls[0])
      case Throw(e) => Outcome(c, Some(e))
      case Ok(c') => Run(c', calls[1..])
  }

  /** What a successful call may do to the unit-scoped state: keep every cache entry and the advice reference. */
  ghost predicate KeepsUnitState(c: Context, c': Context)
  {
    && RC.Extends(c.methodReferences, c'.methodReferences)
    && RC.Extends(c.typeReferences, c'.typeReferences)
    && c'.adviceReference == c.adviceReference
    && c'.targetModule.name == c.targetModule.name
  }

  /**
    The module's import counter has grown exactly as much as the two caches
    together; with `KeepsUnitState`, once per key newly cached and no more.
   */
  ghost predicate ImportsMatchNewKeys(c: Context, c': Context)
  {
    c'.targetModule.importCount + |c.methodReferences| + |c.typeReferences|
      == c.targetModule.importCount + |c'.methodReferences| + |c'.typeReferences|
  }

  lemma StepKeepsValid(c: Context, call: Call)
    requires Valid(c)
    ensures Step(c, call).Ok? ==> Valid(Step(c, call).value)
  {
    match call
    case AddMethod(mi) => WeavingProperties.GetMethodReferenceKeepsValid(c, mi);
    case GetMethod(mi) => WeavingProperties.GetMethodReferenceKeepsValid(c, mi);
    case AddType(t) => WeavingProperties.GetTypeReferenceKeepsValid(c, t);
    case GetType(t) => WeavingProperties.GetTypeReferenceKeepsValid(c, t);
    case RecordField(f, i) => WeavingProperties.RecordKeepsValid(c, f, i);
    case _ =>
  }

  lemma StepKeepsUnitState(c: Context, call: Call)
    ensures Step(c, call).Ok? ==> KeepsUnitState(c, Step(c, call).value)
  {
  }

  lemma StepImports(c: Context, call: Call)
    ensures Step(c, call).Ok? ==> ImportsMatchNewKeys(c, Step(c, call).value)
  {
  }

  /** Every context reached from a valid one by any sequence of calls is valid. */
  lemma {:induction false} RunKeepsValid(c: Context, calls: seq<Call>)
    requires Valid(c)
    ensures Valid(Run(c, calls).context)
    decreases |calls|
  {
    if calls != [] {
      StepKeepsValid(c, calls[0]);
      if Step(c, calls[0]).Ok? {
        RunKeepsValid(Step(c, calls[0]).value, calls[1..]);
      }
    }
  }

  /**
    Over any sequence of calls, including any number of resets, the caches
    only grow, no cached entry is ever overwritten or removed, and the advice
    reference is kept.
   */
  lemma {:induction false} RunOnlyGrowsCaches(c: Context, calls: seq<Call>)
    ensures KeepsUnitState(c, Run(c, calls).context)
    decreases |calls|
  {
    if calls != [] && Step(c, calls[0]).Ok? {
      var c' := Step(c, calls[0]).value;
      StepKeepsUnitState(c, calls[0]);
      RunOnlyGrowsCaches(c', calls[1..]);
      var e := Run(c', calls[1..]).context;
      RC.ExtendsTransitive(c.methodReferences, c'.methodReferences, e.methodReferences);
      RC.ExtendsTransitive(c.typeReferences, c'.typeReferences, e.typeReferences);
    }
  }

  /** Over any sequence of calls the module imports exactly once per key newly added to either cache. */
  lemma {:induction false} RunImportsOncePerNewKey(c: Context, calls: seq<Call>)
    ensures ImportsMatchNewKeys(c, Run(c, calls).context)
    decreases |calls|
  {
    if calls != [] && Step(c, calls[0]).Ok? {
      StepImports(c, calls[0]);
      RunImportsOncePerNewKey(Step(c, calls[0]).value, calls[1..]);
    }
  }

  /** From a freshly constructed context, the imports performed equal the distinct keys cached. */
  lemma ImportsOncePerSymbol(m: ModuleDefinition, calls: seq<Call>)
    ensures var c := New(Some(m)).value;
            var e := Run(c, calls).context;
            && Valid(e)
            && e.targetModule.importCount
                 == c.targetModule.importCount + |e.methodReferences| + |e.typeReferences|
  {
    var c := New(Some(m)).value;
    var e := Run(c, calls).context;
    RunKeepsValid(c, calls);
    RunImportsOncePerNewKey(c, calls);
  }
}
