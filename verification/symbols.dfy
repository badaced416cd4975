/**
  Stand-ins for the foreign symbols the weaving context handles: reflection
  symbols (`MethodInfo`, `Type`), Mono.Cecil references, instructions and the
  target module. Only what the context observes of them is kept.
 */
module Symbols {

  /** A reflected method, known by its signature key (`GetSignatureWithTypeFullName`). */
  datatype MethodInfo = MethodInfo(signatureKey: string)

  /** A reflected type, known by its key (`GetFullName`). */
  datatype SystemType = SystemType(fullName: string)

  /**
    A switch backing field. Two field references denote the same dictionary
    entry exactly when they are equal values; this equality stands for the
    C# `FieldReferenceComparer`.
   */
  datatype FieldReference = FieldReference(declaringType: string, name: string)

  /** An opaque position in the synthesized instruction stream. */
  datatype Instruction = Instruction(offset: nat)

  /**
    A method or type reference imported into the target module. Its ordinal
    is the number of imports the module had performed before it.
   */
  datatype Handle = Handle(ordinal: nat)

  /** The target module, seen only as a source of freshly imported references. */
  datatype ModuleDefinition = ModuleDefinition(name: string, importCount: nat)

  datatype Imported = Imported(handle: Handle, target: ModuleDefinition)

  /**
    `ModuleDefinition.Import`: hands out a reference never handed out before
    and advances the module's import counter. It does not look at the symbol,
    so any sharing of references must come from the caller's caches.
   */
  function Import(m: ModuleDefinition): Imported
  {
    Imported(Handle(m.importCount), m.(importCount := m.importCount + 1))
  }

  /** The advice parameter reference the context keeps for its module. */
  datatype AdviceReference = AdviceReference(moduleName: string)

  /** `AdviceReferenceFactory.InitializeAdviceParameterReference`, kept opaque. */
  function InitializeAdviceParameterReference(m: ModuleDefinition): AdviceReference
  {
    AdviceReference(m.name)
  }
}
