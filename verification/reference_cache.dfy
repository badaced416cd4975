/**
  A unit-scoped reference cache: a map from a symbol's key string to the
  reference imported for it, so that each symbol is imported into the target
  module once. The weaving context keeps two of these, one for methods and one
  for types.
 */
module ReferenceCache {
  import opened Symbols

  type Cache = map<string, Handle>

  /** Every cached reference was handed out by `m` before its current counter. */
  ghost predicate IssuedBy(cache: Cache, m: ModuleDefinition)
  {
    forall k :: k in cache ==> cache[k].ordinal < m.importCount
  }

  /** Distinct keys hold distinct references. */
  ghost predicate Injective(cache: Cache)
  {
    forall k, k' :: k in cache && k' in cache && k != k' ==> cache[k] != cache[k']
  }

  /** No reference is held by both caches. */
  ghost predicate Separate(a: Cache, b: Cache)
  {
    forall k, k' :: k in a && k' in b ==> a[k] != b[k']
  }

  /** `after` keeps every entry of `before` as it was: entries are never overwritten or removed. */
  ghost predicate Extends(before: Cache, after: Cache)
  {
    forall k :: k in before ==> k in after && after[k] == before[k]
  }

  datatype Interned = Interned(reference: Handle, cache: Cache, target: ModuleDefinition)

  /**
    Returns the reference cached for `key`, importing it into `m` and caching
    it first when the key is absent.
   */
  function Intern(cache: Cache, key: string, m: ModuleDefinition): (r: Interned)
    ensures key in r.cache && r.cache[key] == r.reference
    ensures Extends(cache, r.cache) && r.cache.Keys == cache.Keys + {key}
    ensures r.target.name == m.name
    ensures key in cache <==> r.target == m
    ensures key !in cache ==> r.target.importCount == m.importCount + 1
    ensures IssuedBy(cache, m) ==> IssuedBy(r.cache, r.target)
    ensures IssuedBy(cache, m) && key !in cache ==>
              forall k :: k in cache ==> cache[k] != r.reference
  {
    if key in cache then
      Interned(cache[key], cache, m)
    else
      var imported := Import(m);
      Interned(imported.handle, cache[key := imported.handle], imported.target)
  }

  /** Interning the same key again returns the same reference and changes nothing. */
  lemma InternIdempotent(cache: Cache, key: string, m: ModuleDefinition)
    ensures var r := Intern(cache, key, m);
            Intern(r.cache, key, r.target) == r
  {
  }

  /** A fresh import never collides with a cached reference, so injectivity is kept. */
  lemma InternKeepsInjective(cache: Cache, key: string, m: ModuleDefinition)
    requires IssuedBy(cache, m) && Injective(cache)
    ensures Injective(Intern(cache, key, m).cache)
  {
  }

  /**
    Interning into one cache keeps it apart from a second cache whose
    references the same module handed out.
   */
  lemma InternKeepsSeparate(cache: Cache, other: Cache, key: string, m: ModuleDefinition)
    requires IssuedBy(cache, m) && IssuedBy(other, m) && Separate(cache, other)
    ensures var r := Intern(cache, key, m);
            Separate(r.cache, other) && Separate(other, r.cache) && IssuedBy(other, r.target)
  {
    var r := Intern(cache, key, m);
    forall k, k' | k in r.cache && k' in other
      ensures r.cache[k] != other[k']
    {
      if k == key && key !in cache {
        assert other[k'].ordinal < m.importCount == r.reference.ordinal;
      }
    }
  }

  /** Number of imports performed by one intern: one for a new key, none for a cached one. */
  lemma InternImportsNewKeysOnly(cache: Cache, key: string, m: ModuleDefinition)
    ensures var r := Intern(cache, key, m);
            r.target.importCount == m.importCount + |r.cache.Keys - cache.Keys|
  {
  }

  /** An extension keeps every key, and extensions compose. */
  lemma ExtendsTransitive(a: Cache, b: Cache, c: Cache)
    requires Extends(a, b) && Extends(b, c)
    ensures a.Keys <= b.Keys <= c.Keys && Extends(a, c)
  {
  }
}
