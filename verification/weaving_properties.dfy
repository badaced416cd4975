/**
  Properties of the weaving context that relate several calls: the context
  invariant is kept, interning is idempotent and survives `Reset`, the two
  reference caches never interfere, and the field map rejects a second entry.
 */
module WeavingProperties {
  import opened Exceptions
  import opened Symbols
  import RC = ReferenceCache
  import SlotRegistry
  import opened Switches
  import opened WeavingContext

  /** Interning a method keeps the invariant, and a newly imported reference is held nowhere else. */
  lemma GetMethodReferenceKeepsValid(c: Context, mi: Option<MethodInfo>)
    requires Valid(c)
    ensures var r := GetMethodReference(c, mi);
            r.Ok? ==> Valid(r.value.context)
                      && (mi.value.signatureKey !in c.methodReferences ==> NotCached(c, r.value.reference))
  {
    if mi.Some? {
      var key := mi.value.signatureKey;
      RC.InternKeepsInjective(c.methodReferences, key, c.targetModule);
      RC.InternKeepsSeparate(c.methodReferences, c.typeReferences, key, c.targetModule);
    }
  }

  /** Interning a type keeps the invariant, and a newly imported reference is held nowhere else. */
  lemma GetTypeReferenceKeepsValid(c: Context, t: Option<SystemType>)
    requires Valid(c)
    ensures var r := GetTypeReference(c, t);
            r.Ok? ==> Valid(r.value.context)
                      && (t.value.fullName !in c.typeReferences ==> NotCached(c, r.value.reference))
  {
    if t.Some? {
      var key := t.value.fullName;
      RC.InternKeepsInjective(c.typeReferences, key, c.targetModule);
      RC.InternKeepsSeparate(c.typeReferences, c.methodReferences, key, c.targetModule);
    }
  }

  /** Recording a field keeps the invariant: only a non-negative index gets in. */
  lemma RecordKeepsValid(c: Context, field: Option<FieldReference>, variableIndex: int)
    requires Valid(c)
    ensures var r := RecordLocalVariableForField(c, field, variableIndex);
            r.Ok? ==> Valid(r.value)
  {
  }

  /**
    A second `GetMethodReference` with the same method returns the reference
    stored by the first and leaves the context as the first left it.
   */
  lemma GetMethodReferenceIdempotent(c: Context, mi: Option<MethodInfo>)
    ensures var r := GetMethodReference(c, mi);
            r.Ok? ==> GetMethodReference(r.value.context, mi) == r
  {
  }

  /** A second `GetTypeReference` with the same type returns the stored reference and changes nothing. */
  lemma GetTypeReferenceIdempotent(c: Context, t: Option<SystemType>)
    ensures var r := GetTypeReference(c, t);
            r.Ok? ==> GetTypeReference(r.value.context, t) == r
  {
  }

  /**
    `AddMethodReference` followed by `GetMethodReference` returns the entry
    stored first: the one already cached, if any, and never a new import.
   */
  lemma AddThenGetMethod(c: Context, mi: Option<MethodInfo>)
    ensures var a := AddMethodReference(c, mi);
            a.Ok? ==>
              var key := mi.value.signatureKey;
              && GetMethodReference(a.value, mi) == Ok(Got(a.value.methodReferences[key], a.value))
              && (key in c.methodReferences ==> a.value.methodReferences[key] == c.methodReferences[key])
  {
  }

  /** `AddTypeReference` followed by `GetTypeReference` returns the entry stored first. */
  lemma AddThenGetType(c: Context, t: Option<SystemType>)
    ensures var a := AddTypeReference(c, t);
            a.Ok? ==>
              var key := t.value.fullName;
              && GetTypeReference(a.value, t) == Ok(Got(a.value.typeReferences[key], a.value))
              && (key in c.typeReferences ==> a.value.typeReferences[key] == c.typeReferences[key])
  {
  }

  /**
    A method and a type with the same key string get different references,
    and interning either one leaves the other's cache as it was.
   */
  lemma MethodAndTypeNeverCollide(c: Context, key: string)
    requires Valid(c)
    ensures var m := GetMethodReference(c, Some(MethodInfo(key))).value;
            var t := GetTypeReference(m.context, Some(SystemType(key))).value;
            && m.context.typeReferences == c.typeReferences
            && t.context.methodReferences == m.context.methodReferences
            && t.context.methodReferences[key] == m.reference
            && t.context.typeReferences[key] == t.reference
            && m.reference != t.reference
  {
    var m := GetMethodReference(c, Some(MethodInfo(key))).value;
    GetMethodReferenceKeepsValid(c, Some(MethodInfo(key)));
    var t := GetTypeReference(m.context, Some(SystemType(key))).value;
    GetTypeReferenceKeepsValid(m.context, Some(SystemType(key)));
    assert key in t.context.methodReferences && key in t.context.typeReferences;
  }

  /**
    `Reset` forgets every method-scoped value: two contexts that agree on
    their unit-scoped state and components reset to the same context.
   */
  lemma ResetForgetsMethodState(a: Context, b: Context)
    requires SameUnitState(a, b) && SwitchSets(a) == SwitchSets(b) && Sections(a) == Sections(b)
    ensures Reset(a) == Reset(b)
  {
  }

  /**
    `Reset` is idempotent on everything the context itself owns; a second
    call only invokes each component's `Reset` once more.
   */
  lemma ResetIdempotent(c: Context)
    ensures var r := Reset(c);
            var r2 := Reset(r);
            && SameUnitState(r2, r)
            && r2.slots == r.slots
            && r2.fieldVariables == r.fieldVariables
            && r2.tryStartInstruction == r.tryStartInstruction
            && r2.endingInstruction == r.endingInstruction
  {
  }

  /** A reference interned before `Reset` is returned unchanged after it, with no new import. */
  lemma MethodReferenceSurvivesReset(c: Context, mi: Option<MethodInfo>)
    ensures var r := GetMethodReference(c, mi);
            r.Ok? ==>
              var c' := Reset(r.value.context);
              GetMethodReference(c', mi) == Ok(Got(r.value.reference, c'))
  {
  }

  /** A type reference interned before `Reset` is returned unchanged after it. */
  lemma TypeReferenceSurvivesReset(c: Context, t: Option<SystemType>)
    ensures var r := GetTypeReference(c, t);
            r.Ok? ==>
              var c' := Reset(r.value.context);
              GetTypeReference(c', t) == Ok(Got(r.value.reference, c'))
  {
  }

  /** After `Reset` no field is recorded: every lookup of a non-null field reads `-1`. */
  lemma ResetForgetsFields(c: Context, f: FieldReference)
    ensures GetLocalVariableForField(Reset(c), Some(f)) == Ok(-1)
  {
  }

  /**
    After recording `field -> i`, a lookup of that field reads `i`, lookups
    of every other field read as before, and recording the field again with
    any index throws while the first entry survives.
   */
  lemma RecordThenLookup(c: Context, f: FieldReference, i: int, j: int, g: FieldReference)
    ensures var r := RecordLocalVariableForField(c, Some(f), i);
            r.Ok? ==>
              && GetLocalVariableForField(r.value, Some(f)) == Ok(i)
              && (g != f ==> GetLocalVariableForField(r.value, Some(g)) == GetLocalVariableForField(c, Some(g)))
              && RecordLocalVariableForField(r.value, Some(f), j).Throw?
  {
  }

  /** A freshly constructed context is not idle until its first `Reset`: its integer properties hold `0`. */
  lemma FreshContextNeedsReset(m: ModuleDefinition)
    ensures var c := New(Some(m)).value;
            !IsIdle(c) && IsIdle(Reset(c)) && Valid(Reset(c))
  {
    var c := New(Some(m)).value;
    assert SlotIndex(c, SlotRegistry.ExecutionVariable) == 0;
  }

  /**
    The end-to-end scenario: intern `Foo.Bar`, reset, intern it again and
    get the same reference; store `2` in the execution slot, reset, and read
    the sentinel back.
   */
  lemma EndToEndScenario(m: ModuleDefinition)
    ensures var c0 := New(Some(m)).value;
            var g1 := GetMethodReference(c0, Some(MethodInfo("Foo.Bar"))).value;
            var c1 := Reset(g1.context);
            var g2 := GetMethodReference(c1, Some(MethodInfo("Foo.Bar"))).value;
            var c2 := SetSlotIndex(g2.context, SlotRegistry.ExecutionVariable, 2);
            && g2.reference == g1.reference
            && g2.context == c1
            && SlotIndex(c2, SlotRegistry.ExecutionVariable) == 2
            && SlotIndex(Reset(c2), SlotRegistry.ExecutionVariable) == -1
  {
  }
}
