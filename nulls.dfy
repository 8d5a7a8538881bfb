/** The `Null` helpers: small combinators over nullable references. */
module Nulls {
  import opened Results

  /** `orElse(t, other)`: `t` unless it is `null`, in which case `other`. */
  function OrElse<T>(t: Option<T>, other: Option<T>): (r: Option<T>)
    ensures t.Some? ==> r == t
    ensures t.None? ==> r == other
    ensures r.None? <==> t.None? && other.None?
  {
    if t.None? then other else t
  }

  /** `orElse(t, supplier)`: `t` unless it is `null`, in which case what the supplier gives. */
  function OrElseGet<T>(t: Option<T>, supplier: () -> T): (r: T)
    ensures t.Some? ==> r == t.value
    ensures t.None? ==> r == supplier()
  {
    if t.None? then supplier() else t.value
  }

  /** `map(a, f)`: `null` for a `null` input, otherwise `f(a)`. */
  function Map<A, B>(a: Option<A>, f: A -> B): (r: Option<B>)
    ensures a.None? <==> r.None?
    ensures a.Some? ==> r == Some(f(a.value))
  {
    if a.None? then None else Some(f(a.value))
  }

  /** The supplier is consulted only when `t` is `null`; otherwise its result cannot matter. */
  lemma SupplierOnlyWhenNull<T>(t: Option<T>, s1: () -> T, s2: () -> T)
    ensures t.Some? ==> OrElseGet(t, s1) == OrElseGet(t, s2)
  {
  }

  /** `map(null, f)` is `null` whatever `f` is, so `f` is never called. */
  lemma MapNullIgnoresFunction<A, B>(f: A -> B, g: A -> B)
    ensures Map(None, f) == Map(None, g) == None
  {
  }

  /** `orElse(null, null)` is `null`, and `orElse` with a non-null fallback is never `null`. */
  lemma OrElseNullness<T>(t: Option<T>, other: T)
    ensures OrElse<T>(None, None) == None
    ensures OrElse(t, Some(other)).Some?
  {
  }
}
