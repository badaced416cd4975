# CrossCutterN weaving context, modelled in Dafny

CrossCutterN's weaver rewrites compiled .NET methods to inject advice calls.
While it synthesizes the new instruction stream of one method it keeps its
working state in a `WeavingContext`:

- two **reference caches**, one mapping method-signature keys and one
  mapping type full-name keys to references imported into the target module,
  so that each symbol is imported once per module;
- a **field map** from switch backing fields to the local variable that
  caches each field's value in the current method;
- nine integer **slot and handler indices** (six local-variable slots, the
  exception and finally handler indices, and the pending-switch index) and two
  nullable **instruction markers**;
- three **switch sets** and six **switchable sections**;
- **`Reset`**, run before each method, which returns all method-scoped state
  to its sentinel (`-1`, `null`, empty) and leaves the unit-scoped reference
  caches, module and advice reference alone.

The model is functional. A `Context` is an immutable record. Every mutator
returns either the new record or the .NET exception it throws
(`Result.Throw`). A throwing call leaves the caller with the record it had,
because the C# code throws before it mutates anything. A null argument is
`Option.None`.

Files:

- `exceptions.dfy`: `Option`, `Result` and the exceptions thrown.
- `symbols.dfy`: stand-ins for the reflection and Mono.Cecil symbols.
  `ModuleDefinition.Import` is a counter that hands out a fresh reference on
  every call, so all sharing of references has to come from the caches.
- `reference_cache.dfy`: one reference cache and its interning step.
- `slot_registry.dfy`: the nine integer properties.
- `switches.dfy`: switch sets and sections. Each is known only by its role
  and by how many times its `Reset` has run.
- `weaving_context.dfy`: the context, its constructor and its operations.
- `weaving_properties.dfy`: properties that relate several calls.
- `weaving_traces.dfy`: arbitrary sequences of calls. It proves that the
  invariant holds, that the caches only grow, and that the module performs
  one import per cached key.

Facts about the C# code that the model keeps:

- The constructor does not assign the nine integer properties
  (WeavingContext.cs:60-77), so they hold the .NET default `0`. A fresh
  context reads the `-1` sentinel only after its first `Reset`
  (`WeavingProperties.FreshContextNeedsReset`).
- The slot and handler properties are unchecked auto-properties
  (WeavingContext.cs:31-43). Any integer, `-2` included, is stored.
- `GetLocalVariableForField` throws `ArgumentNullException` on a null field
  (WeavingContext.cs:136-139).
- The reference lookups reject only a null symbol (WeavingContext.cs:81-84,
  94-97, 108-111, 121-124). An empty key string is an ordinary key.

## Model

| member | source | states |
|---|---|---|
| WeavingContext.New | CrossCutterN.Weaver/AssemblyHandler/WeavingContext.cs:60-77 | A null module throws `ArgumentNullException("module")`. Otherwise the context has empty caches and an empty field map, `0` in all nine integer properties, null markers, and all three switch sets and six sections freshly initialised in their roles. The result satisfies the context invariant. |
| WeavingContext.GetMethodReference | CrossCutterN.Weaver/AssemblyHandler/WeavingContext.cs:92-104 | A null method throws. Otherwise the result is the entry cached under the signature key. Existing entries are kept and exactly that key is added. The context is unchanged exactly when the key was already cached. Only the method cache and the module's import counter can change, and a miss imports exactly once. |
| WeavingContext.AddMethodReference | CrossCutterN.Weaver/AssemblyHandler/WeavingContext.cs:79-90 | Throws on a null method. Otherwise it leaves the context exactly as `GetMethodReference` would. |
| WeavingContext.GetTypeReference | CrossCutterN.Weaver/AssemblyHandler/WeavingContext.cs:119-131 | Same contract as the method lookup, applied to the type cache and the type's full name. The method cache is never touched. |
| WeavingContext.AddTypeReference | CrossCutterN.Weaver/AssemblyHandler/WeavingContext.cs:106-117 | Throws on a null type. Otherwise it leaves the context exactly as `GetTypeReference` would. |
| WeavingContext.GetLocalVariableForField | CrossCutterN.Weaver/AssemblyHandler/WeavingContext.cs:134-145 | A null field throws. A recorded field reads its index and an unrecorded field reads `-1`. Under the invariant the result is at least `-1`, and it is `-1` exactly when the field is unrecorded. |
| WeavingContext.RecordLocalVariableForField | CrossCutterN.Weaver/AssemblyHandler/WeavingContext.cs:147-162 | Checks in order: a null field throws `ArgumentNullException`, a negative index throws `ArgumentOutOfRangeException`, and an already recorded field throws `ArgumentException` with the source's message. The call succeeds exactly when none of these applies. On success exactly the entry `field -> index` is added and nothing else changes. |
| WeavingContext.SetSlotIndex | CrossCutterN.Weaver/AssemblyHandler/WeavingContext.cs:31-43 | The setter stores any integer in the named property. Every other property and all other state are unchanged. |
| WeavingContext.Reset | CrossCutterN.Weaver/AssemblyHandler/WeavingContext.cs:164-190 | Afterwards all nine integer properties read `-1`, both markers are null and the field map is empty. Each of the three switch sets and six sections has had its `Reset` invoked exactly once more and keeps its role. The module, the advice reference and both caches are unchanged, and the invariant is preserved. |
| ReferenceCache.Intern | CrossCutterN.Weaver/AssemblyHandler/WeavingContext.cs:98-103 | The key ends up cached with the returned reference. Old entries are kept and only that key is added. The module is untouched exactly when the key was cached, and a miss advances the import counter by one. When every cached reference was issued by the module, a newly imported reference differs from every cached one. |
| ReferenceCache.InternIdempotent | CrossCutterN.Weaver/AssemblyHandler/WeavingContext.cs:99-103 | Interning the same key a second time returns the same reference with the same cache and module. |
| ReferenceCache.InternKeepsInjective | CrossCutterN.Weaver/AssemblyHandler/WeavingContext.cs:99-102 | When every cached reference was issued by the module, interning keeps distinct keys mapped to distinct references. |
| ReferenceCache.InternKeepsSeparate | CrossCutterN.Weaver/AssemblyHandler/WeavingContext.cs:21-22 | When both caches' references were issued by the module, interning into one cache never produces a reference already held by the other cache. |
| ReferenceCache.InternImportsNewKeysOnly | CrossCutterN.Weaver/AssemblyHandler/WeavingContext.cs:99-102 | The import counter grows by exactly the number of keys the intern added, which is one or zero. |
| SlotRegistry.Set | CrossCutterN.Weaver/AssemblyHandler/WeavingContext.cs:31-43 | After a set, the getter of that property reads the stored value and every other getter reads as before. |
| SlotRegistry.Defaults | CrossCutterN.Weaver/AssemblyHandler/WeavingContext.cs:31-43 | Before any assignment every integer property reads `0`. |
| SlotRegistry.Cleared | CrossCutterN.Weaver/AssemblyHandler/WeavingContext.cs:166-180 | Every integer property reads the sentinel `-1`. |
| SlotRegistry.ClearedIsUnique | CrossCutterN.Weaver/AssemblyHandler/WeavingContext.cs:166-180 | All nine properties read `-1` if and only if the registry is the cleared one. |
| SlotRegistry.SetGet | CrossCutterN.Weaver/AssemblyHandler/WeavingContext.cs:31-43 | Storing a property's current value changes nothing. |
| SlotRegistry.SetSet | CrossCutterN.Weaver/AssemblyHandler/WeavingContext.cs:31-43 | A second store to a property overrides the first. |
| SlotRegistry.SetCommutes | CrossCutterN.Weaver/AssemblyHandler/WeavingContext.cs:31-43 | Stores to two different properties commute. |
| WeavingProperties.GetMethodReferenceKeepsValid | CrossCutterN.Weaver/AssemblyHandler/WeavingContext.cs:92-104 | A method lookup keeps the invariant. Cached references stay issued by the module, injective, and separate between the caches. A newly imported reference is held by neither cache. |
| WeavingProperties.GetTypeReferenceKeepsValid | CrossCutterN.Weaver/AssemblyHandler/WeavingContext.cs:119-131 | The same for a type lookup. |
| WeavingProperties.RecordKeepsValid | CrossCutterN.Weaver/AssemblyHandler/WeavingContext.cs:153-161 | Recording a field keeps every recorded index non-negative. |
| WeavingProperties.GetMethodReferenceIdempotent | CrossCutterN.Weaver/AssemblyHandler/WeavingContext.cs:92-104 | A second `GetMethodReference` with the same method returns the stored reference and leaves the context unchanged. |
| WeavingProperties.GetTypeReferenceIdempotent | CrossCutterN.Weaver/AssemblyHandler/WeavingContext.cs:119-131 | A second `GetTypeReference` with the same type returns the stored reference and leaves the context unchanged. |
| WeavingProperties.AddThenGetMethod | CrossCutterN.Weaver/AssemblyHandler/WeavingContext.cs:79-104 | A `GetMethodReference` after `AddMethodReference` returns the cached entry without changing the context. An entry cached before the add survives it. |
| WeavingProperties.AddThenGetType | CrossCutterN.Weaver/AssemblyHandler/WeavingContext.cs:106-131 | The same for `AddTypeReference` followed by `GetTypeReference`. |
| WeavingProperties.MethodAndTypeNeverCollide | CrossCutterN.Weaver/AssemblyHandler/WeavingContext.cs:21-22 | From a valid context, a method and a type with equal key strings get different references. Interning the method leaves the type cache as it was, and interning the type leaves the method cache as it was. |
| WeavingProperties.ResetForgetsMethodState | CrossCutterN.Weaver/AssemblyHandler/WeavingContext.cs:164-190 | Two contexts that agree on unit-scoped state and components reset to the same context. No method-scoped value leaks through `Reset`. |
| WeavingProperties.ResetIdempotent | CrossCutterN.Weaver/AssemblyHandler/WeavingContext.cs:164-190 | A second `Reset` leaves the caches, module, advice reference, integer properties, markers and field map as the first left them. |
| WeavingProperties.MethodReferenceSurvivesReset | CrossCutterN.Weaver/AssemblyHandler/WeavingContext.cs:164-190 | A method reference interned before `Reset` is returned unchanged after it, with no new import. |
| WeavingProperties.TypeReferenceSurvivesReset | CrossCutterN.Weaver/AssemblyHandler/WeavingContext.cs:164-190 | A type reference interned before `Reset` is returned unchanged after it, with no new import. |
| WeavingProperties.ResetForgetsFields | CrossCutterN.Weaver/AssemblyHandler/WeavingContext.cs:178 | After `Reset`, looking up any non-null field reads `-1`. |
| WeavingProperties.RecordThenLookup | CrossCutterN.Weaver/AssemblyHandler/WeavingContext.cs:140-161 | After recording `f -> i`, a lookup of `f` reads `i` and other fields read as before. Recording `f` again throws, so the first entry survives. |
| WeavingProperties.FreshContextNeedsReset | CrossCutterN.Weaver/AssemblyHandler/WeavingContext.cs:60-77 | A freshly constructed context is not idle: its integer properties read `0`. After one `Reset` it is idle and valid. |
| WeavingProperties.EndToEndScenario | CrossCutterN.Weaver/AssemblyHandler/WeavingContext.cs:92-190 | Interning `Foo.Bar`, resetting and interning it again gives the same reference with no import. Setting the execution slot to `2` and resetting reads `-1`. |
| WeavingTraces.Step | CrossCutterN.Weaver/AssemblyHandler/WeavingContext.cs:79-190 | A call throws exactly on a null argument, or, for a field record, on a negative index or a duplicate field. A field lookup never changes the context. |
| WeavingTraces.RunKeepsValid | CrossCutterN.Weaver/AssemblyHandler/WeavingContext.cs:79-190 | Every context reached from a valid one by any sequence of calls is valid. |
| WeavingTraces.RunOnlyGrowsCaches | CrossCutterN.Weaver/AssemblyHandler/WeavingContext.cs:86-89 | Over any sequence of calls, resets included, no cache entry is removed or overwritten. The advice reference and module name are kept. |
| WeavingTraces.RunImportsOncePerNewKey | CrossCutterN.Weaver/AssemblyHandler/WeavingContext.cs:99-102 | Over any sequence of calls, the module's import counter grows by exactly as much as the two caches together. Since entries are never removed, that is one import per newly cached key. |
| WeavingTraces.ImportsOncePerSymbol | CrossCutterN.Weaver/AssemblyHandler/WeavingContext.cs:86-89 | From a freshly constructed context, after any sequence of calls, the imports performed since construction equal the number of distinct method keys plus distinct type keys cached. Each symbol is imported once. |

## Left out

- Switch sets and switchable sections: their implementations are not part of this model. This includes switch index allocation and the open/close discipline of sections. The model records only that `Reset` was invoked on each of them.
- WeavingContext.Reset: states only that each component's `Reset` was invoked once more, not what that `Reset` does to it, because the component code is not part of this model.
- WeavingProperties.ResetIdempotent: covers everything the context owns directly. The nine components are excluded because each `Reset` invokes theirs again, and whether their `Reset` is idempotent is not known here.
- `GetSignatureWithTypeFullName`, `GetFullName` and `FieldReferenceComparer` are not part of this model. Keys are given strings, and field identity is value equality of `FieldReference`.
- `ModuleDefinition.Import` (Mono.Cecil) is a foreign call. It is modelled as a counter that hands out fresh references.
- `AdviceReferenceFactory.InitializeAdviceParameterReference` is a foreign factory. It is modelled as an opaque value derived from the module, and it is assumed to perform no import.
- Live views: the `FieldLocalVariableDictionary` getter (WeavingContext.cs:55-58) and the switch-set and section getters (lines 45-53) hand out the context's own mutable objects, so a view taken earlier also shows later `Add` calls and the `Clear()` in `Reset`. The model has no such aliasing: `fieldVariables` and the component fields are values of one immutable record, read afresh from each context.
- Integer width: the nine properties and `variableIndex` are 32-bit `int` in C#; the model uses unbounded `int`. The core does no arithmetic on them, so no behaviour differs.
- The instruction-marker setters (`TryStartInstruction`, `EndingInstruction`) are plain record updates inside `WeavingTraces.Step`.
- Thread safety: the class is single-threaded by design, and concurrency is not modelled.
