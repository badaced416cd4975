/**
  The per-method weaving workspace. One context is built per target module
  and reused for every method woven in it: the reference caches, the module
  and the advice reference are unit-scoped, everything else is method-scoped
  and returned to its sentinel by `Reset` before each method.

  The C# class's mutable object becomes an immutable record; every mutator
  returns the new record, or the exception it throws, in which case the
  caller still holds the unchanged record (the C# code throws before it
  mutates anything).
 */
module WeavingContext {
  import opened Exceptions
  import opened Symbols
  import RC = ReferenceCache
  import SlotRegistry
  import opened Switches

  datatype Context = Context(
    targetModule: ModuleDefinition,
    adviceReference: AdviceReference,
    methodReferences: RC.Cache,
    typeReferences: RC.Cache,
    fieldVariables: map<FieldReference, int>,
    slots: SlotRegistry.Slots,
    tryStartInstruction: Option<Instruction>,
    endingInstruction: Option<Instruction>,
    executionSwitches: SwitchSet,
    returnSwitches: SwitchSet,
    executionContextSwitches: SwitchSet,
    executionVariableSection: SwitchableSection,
    returnVariableSection: SwitchableSection,
    returnFinallySection: SwitchableSection,
    executionContextVariableSection: SwitchableSection,
    executionContextExceptionSection: SwitchableSection,
    executionContextFinallySection: SwitchableSection)

  /** A reference returned by a lookup together with the context after it. */
  datatype Got = Got(reference: Handle, context: Context)

  /** The three switch sets, in declaration order. */
  function SwitchSets(c: Context): seq<SwitchSet>
  {
    [c.executionSwitches, c.returnSwitches, c.executionContextSwitches]
  }

  /** The six switchable sections, in declaration order. */
  function Sections(c: Context): seq<SwitchableSection>
  {
    [ c.executionVariableSection, c.returnVariableSection, c.returnFinallySection,
      c.executionContextVariableSection, c.executionContextExceptionSection,
      c.executionContextFinallySection ]
  }

  /** Each component property holds the component for its own role. */
  ghost predicate Tagged(c: Context)
  {
    && c.executionSwitches.kind == ExecutionSwitches
    && c.returnSwitches.kind == ReturnSwitches
    && c.executionContextSwitches.kind == ExecutionContextSwitches
    && c.executionVariableSection.role == ExecutionVariableSection
    && c.returnVariableSection.role == ReturnVariableSection
    && c.returnFinallySection.role == ReturnFinallySection
    && c.executionContextVariableSection.role == ExecutionContextVariableSection
    && c.executionContextExceptionSection.role == ExecutionContextExceptionSection
    && c.executionContextFinallySection.role == ExecutionContextFinallySection
  }

  /** Only non-negative local-variable indices are ever recorded for a field. */
  ghost predicate RecordedIndicesValid(fields: map<FieldReference, int>)
  {
    forall f :: f in fields ==> fields[f] >= 0
  }

  /** The invariant every context reachable from the constructor keeps. */
  ghost predicate Valid(c: Context)
  {
    && RC.IssuedBy(c.methodReferences, c.targetModule)
    && RC.IssuedBy(c.typeReferences, c.targetModule)
    && RC.Injective(c.methodReferences)
    && RC.Injective(c.typeReferences)
    && RC.Separate(c.methodReferences, c.typeReferences)
    && RecordedIndicesValid(c.fieldVariables)
    && Tagged(c)
  }

  /** The handle is held by neither cache. */
  ghost predicate NotCached(c: Context, h: Handle)
  {
    && (forall k :: k in c.methodReferences ==> c.methodReferences[k] != h)
    && (forall k :: k in c.typeReferences ==> c.typeReferences[k] != h)
  }

  /** Every method-scoped piece of state reads its sentinel. */
  ghost predicate IsIdle(c: Context)
  {
    && (forall n :: SlotIndex(c, n) == SlotRegistry.Unallocated)
    && c.tryStartInstruction == None
    && c.endingInstruction == None
    && c.fieldVariables == map[]
  }

  /** The two contexts hold the same unit-scoped state. */
  ghost predicate SameUnitState(a: Context, b: Context)
  {
    && a.targetModule == b.targetModule
    && a.adviceReference == b.adviceReference
    && a.methodReferences == b.methodReferences
    && a.typeReferences == b.typeReferences
  }

  /**
    The constructor: throws on a null module; otherwise caches are empty, the
    nine integer properties hold the .NET default `0`, both markers are null,
    and all three switch sets and six sections are newly initialised.
   */
  function New(target: Option<ModuleDefinition>): (r: Result<Context>)
    ensures target.None? <==> r.Throw?
    ensures r.Throw? ==> r.exception == ArgumentNullException("module")
    ensures r.Ok? ==>
              && r.value.targetModule == target.value
              && r.value.adviceReference == InitializeAdviceParameterReference(target.value)
              && r.value.methodReferences == map[] && r.value.typeReferences == map[]
              && r.value.fieldVariables == map[]
              && (forall n :: SlotIndex(r.value, n) == 0)
              && r.value.tryStartInstruction == None && r.value.endingInstruction == None
              && |SwitchSets(r.value)| == 3 && |Sections(r.value)| == 6
              && (forall i :: 0 <= i < 3 ==> SwitchSets(r.value)[i].resets == 0)
              && (forall i :: 0 <= i < 6 ==> Sections(r.value)[i].resets == 0)
              && Valid(r.value)
  {
    match target
    case None => Throw(ArgumentNullException("module"))
    case Some(m) =>
      Ok(Context(
        m,
        InitializeAdviceParameterReference(m),
        map[], map[], map[],
        SlotRegistry.Defaults(),
        None, None,
        InitializeSwitchSet(ExecutionSwitches),
        InitializeSwitchSet(ReturnSwitches),
        InitializeSwitchSet(ExecutionContextSwitches),
        InitializeSwitchableSection(ExecutionVariableSection),
        InitializeSwitchableSection(ReturnVariableSection),
        InitializeSwitchableSection(ReturnFinallySection),
        InitializeSwitchableSection(ExecutionContextVariableSection),
        InitializeSwitchableSection(ExecutionContextExceptionSection),
        InitializeSwitchableSection(ExecutionContextFinallySection)))
  }

  /** The shared body of `AddMethodReference` and `GetMethodReference`. */
  function InternMethod(c: Context, key: string): Got
  {
    var i := RC.Intern(c.methodReferences, key, c.targetModule);
    Got(i.reference, c.(methodReferences := i.cache, targetModule := i.target))
  }

  /** The shared body of `AddTypeReference` and `GetTypeReference`. */
  function InternType(c: Context, key: string): Got
  {
    var i := RC.Intern(c.typeReferences, key, c.targetModule);
    Got(i.reference, c.(typeReferences := i.cache, targetModule := i.target))
  }

  /**
    Returns the reference cached under the method's signature key, importing
    and caching it first when absent. Only the method cache and the module's
    import counter can change.
   */
  function GetMethodReference(c: Context, mi: Option<MethodInfo>): (r: Result<Got>)
    ensures mi.None? <==> r.Throw?
    ensures r.Throw? ==> r.exception == ArgumentNullException("method")
    ensures r.Ok? ==>
              var key := mi.value.signatureKey;
              var c' := r.value.context;
              && key in c'.methodReferences && c'.methodReferences[key] == r.value.reference
              && RC.Extends(c.methodReferences, c'.methodReferences)
              && c'.methodReferences.Keys == c.methodReferences.Keys + {key}
              && (key in c.methodReferences <==> c' == c)
              && c'.(methodReferences := c.methodReferences, targetModule := c.targetModule) == c
              && c'.targetModule.name == c.targetModule.name
              && (key !in c.methodReferences ==> c'.targetModule.importCount == c.targetModule.importCount + 1)
  {
    match mi
    case None => Throw(ArgumentNullException("method"))
    case Some(m) => Ok(InternMethod(c, m.signatureKey))
  }

  /** Interns the method like `GetMethodReference` and discards the reference. */
  function AddMethodReference(c: Context, mi: Option<MethodInfo>): (r: Result<Context>)
    ensures mi.None? <==> r.Throw?
    ensures r.Throw? ==> r.exception == ArgumentNullException("method")
    ensures r.Ok? ==> GetMethodReference(c, mi).Ok? && r.value == GetMethodReference(c, mi).value.context
  {
    match mi
    case None => Throw(ArgumentNullException("method"))
    case Some(m) => Ok(InternMethod(c, m.signatureKey).context)
  }

  /**
    Returns the reference cached under the type's full name, importing and
    caching it first when absent. Only the type cache and the module's
    import counter can change.
   */
  function GetTypeReference(c: Context, t: Option<SystemType>): (r: Result<Got>)
    ensures t.None? <==> r.Throw?
    ensures r.Throw? ==> r.exception == ArgumentNullException("type")
    ensures r.Ok? ==>
              var key := t.value.fullName;
              var c' := r.value.context;
              && key in c'.typeReferences && c'.typeReferences[key] == r.value.reference
              && RC.Extends(c.typeReferences, c'.typeReferences)
              && c'.typeReferences.Keys == c.typeReferences.Keys + {key}
              && (key in c.typeReferences <==> c' == c)
              && c'.(typeReferences := c.typeReferences, targetModule := c.targetModule) == c
              && c'.targetModule.name == c.targetModule.name
              && (key !in c.typeReferences ==> c'.targetModule.importCount == c.targetModule.importCount + 1)
  {
    match t
    case None => Throw(ArgumentNullException("type"))
    case Some(ty) => Ok(InternType(c, ty.fullName))
  }

  /** Interns the type like `GetTypeReference` and discards the reference. */
  function AddTypeReference(c: Context, t: Option<SystemType>): (r: Result<Context>)
    ensures t.None? <==> r.Throw?
    ensures r.Throw? ==> r.exception == ArgumentNullException("type")
    ensures r.Ok? ==> GetTypeReference(c, t).Ok? && r.value == GetTypeReference(c, t).value.context
  {
    match t
    case None => Throw(ArgumentNullException("type"))
    case Some(ty) => Ok(InternType(c, ty.fullName).context)
  }

  /**
    The local variable caching a switch field: `-1` when none is recorded.
    Since only non-negative indices are recorded, `-1` is unambiguous.
   */
  function GetLocalVariableForField(c: Context, field: Option<FieldReference>): (r: Result<int>)
    ensures field.None? <==> r.Throw?
    ensures r.Throw? ==> r.exception == ArgumentNullException("field")
    ensures r.Ok? && field.value in c.fieldVariables ==> r.value == c.fieldVariables[field.value]
    ensures r.Ok? && field.value !in c.fieldVariables ==> r.value == -1
    ensures r.Ok? && RecordedIndicesValid(c.fieldVariables) ==>
              r.value >= -1 && (r.value == -1 <==> field.value !in c.fieldVariables)
  {
    match field
    case None => Throw(ArgumentNullException("field"))
    case Some(f) => Ok(if f in c.fieldVariables then c.fieldVariables[f] else -1)
  }

  /** The message of the exception thrown when a field is recorded twice. */
  function DuplicateFieldMessage(f: FieldReference): string
  {
    "Local variable for field " + f.name + " has been added already"
  }

  /**
    Records the local variable caching a switch field. Throws, in this order
    of checks, on a null field, a negative index, or a field already
    recorded; otherwise adds exactly the one entry and changes nothing else.
   */
  function RecordLocalVariableForField(c: Context, field: Option<FieldReference>, variableIndex: int): (r: Result<Context>)
    ensures r.Ok? <==> field.Some? && variableIndex >= 0 && field.value !in c.fieldVariables
    ensures field.None? ==> r == Throw(ArgumentNullException("field"))
    ensures field.Some? && variableIndex < 0 ==> r == Throw(ArgumentOutOfRangeException("variableIndex"))
    ensures field.Some? && variableIndex >= 0 && field.value in c.fieldVariables ==>
              r == Throw(ArgumentException(DuplicateFieldMessage(field.value)))
    ensures r.Ok? ==>
              && r.value.fieldVariables.Keys == c.fieldVariables.Keys + {field.value}
              && r.value.fieldVariables[field.value] == variableIndex
              && (forall g :: g in c.fieldVariables ==> r.value.fieldVariables[g] == c.fieldVariables[g])
              && r.value.(fieldVariables := c.fieldVariables) == c
  {
    match field
    case None => Throw(ArgumentNullException("field"))
    case Some(f) =>
      if variableIndex < 0 then Throw(ArgumentOutOfRangeException("variableIndex"))
      else if f in c.fieldVariables then Throw(ArgumentException(DuplicateFieldMessage(f)))
      else Ok(c.(fieldVariables := c.fieldVariables[f := variableIndex]))
  }

  /** The getter of one of the nine integer properties. */
  function SlotIndex(c: Context, n: SlotRegistry.SlotName): int
  {
    SlotRegistry.Get(c.slots, n)
  }

  /** The setter of one of the nine integer properties: unchecked, and it touches nothing else. */
  function SetSlotIndex(c: Context, n: SlotRegistry.SlotName, v: int): (r: Context)
    ensures SlotIndex(r, n) == v
    ensures forall n' :: n' != n ==> SlotIndex(r, n') == SlotIndex(c, n')
    ensures r.(slots := c.slots) == c
  {
    c.(slots := SlotRegistry.Set(c.slots, n, v))
  }

  /**
    Returns all method-scoped state to its sentinel and invokes `Reset` once
    on each of the three switch sets and six sections. The unit-scoped state
    (module, advice reference, both reference caches) is left alone.
   */
  function Reset(c: Context): (r: Context)
    ensures IsIdle(r)
    ensures SameUnitState(r, c)
    ensures |SwitchSets(r)| == |SwitchSets(c)| == 3 && |Sections(r)| == |Sections(c)| == 6
    ensures forall i :: 0 <= i < 3 ==>
              SwitchSets(r)[i].kind == SwitchSets(c)[i].kind && SwitchSets(r)[i].resets == SwitchSets(c)[i].resets + 1
    ensures forall i :: 0 <= i < 6 ==>
              Sections(r)[i].role == Sections(c)[i].role && Sections(r)[i].resets == Sections(c)[i].resets + 1
    ensures Valid(c) ==> Valid(r)
  {
    c.(slots := SlotRegistry.Cleared(),
       tryStartInstruction := None,
       endingInstruction := None,
       fieldVariables := map[],
       executionSwitches := ResetSwitchSet(c.executionSwitches),
       returnSwitches := ResetSwitchSet(c.returnSwitches),
       executionContextSwitches := ResetSwitchSet(c.executionContextSwitches),
       executionVariableSection := ResetSection(c.executionVariableSection),
       returnVariableSection := ResetSection(c.returnVariableSection),
       returnFinallySection := ResetSection(c.returnFinallySection),
       executionContextVariableSection := ResetSection(c.executionContextVariableSection),
       executionContextExceptionSection := ResetSection(c.executionContextExceptionSection),
       executionContextFinallySection := ResetSection(c.executionContextFinallySection))
  }
}
