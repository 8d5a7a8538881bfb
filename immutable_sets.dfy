/**
 * `Sets` and `SetImpls`: small immutable sets with one class per arity, a
 * wrapper around a hash set, and a lazy union of two sets.
 *
 * A set is a value of `JSet`; its iteration order is `Iteration`, and what it
 * holds as a mathematical set is `Members`. Java's `equals` on elements is
 * Dafny's `==`. Java leaves a hash set's iteration order unspecified; the
 * model fixes it as the order in which elements were first added.
 */
module ImmutableSets {
  import opened Results

  datatype JSet<E> =
    | Set0
    | Set1(e: E)
    | Set2(e1: E, e2: E)
    | Set3(e1: E, e2: E, e3: E)
      /** `SetN`: a wrapped `HashSet`, listed in its iteration order. */
    | SetN(items: seq<E>)
      /** `UnionOf(first, second)` with the size it computed when it was made. */
    | UnionOf(first: JSet<E>, second: JSet<E>, size: int)
      /** A Guava `ImmutableSet` from a builder, in its iteration order. */
    | Built(items: seq<E>)
      /** The JDK's `Collections.emptySet()`. */
    | JdkEmpty

  /** No element occurs twice. */
  predicate Distinct<E(==)>(xs: seq<E>)
  {
    forall i, j :: 0 <= i < j < |xs| ==> xs[i] != xs[j]
  }

  function ElemSet<E(==)>(xs: seq<E>): set<E>
  {
    set x | x in xs
  }

  /** The reference meaning of a set: the elements it holds. */
  function Members<E(==)>(s: JSet<E>): set<E>
  {
    match s
    case Set0 => {}
    case Set1(e) => {e}
    case Set2(e1, e2) => {e1, e2}
    case Set3(e1, e2, e3) => {e1, e2, e3}
    case SetN(items) => ElemSet(items)
    case UnionOf(first, second, _) => Members(first) + Members(second)
    case Built(items) => ElemSet(items)
    case JdkEmpty => {}
  }

  /** `iterator()`: the order the elements come out in; a union's iterator concatenates its parts'. */
  function Iteration<E(==)>(s: JSet<E>): seq<E>
  {
    match s
    case Set0 => []
    case Set1(e) => [e]
    case Set2(e1, e2) => [e1, e2]
    case Set3(e1, e2, e3) => [e1, e2, e3]
    case SetN(items) => items
    case UnionOf(first, second, _) => Iteration(first) + Iteration(second)
    case Built(items) => items
    case JdkEmpty => []
  }

  /** `contains(o)` of each class: an equal stored element, or either part of a union. */
  function Contains<E(==)>(s: JSet<E>, o: E): bool
  {
    match s
    case Set0 => false
    case Set1(e) => e == o
    case Set2(e1, e2) => e1 == o || e2 == o
    case Set3(e1, e2, e3) => e1 == o || e2 == o || e3 == o
    case SetN(items) => o in items
    case UnionOf(first, second, _) => Contains(first, o) || Contains(second, o)
    case Built(items) => o in items
    case JdkEmpty => false
  }

  /** `size()`: fixed for the small arities, the wrapped set's, or the union's stored size. */
  function Size<E(==)>(s: JSet<E>): int
  {
    match s
    case Set0 => 0
    case Set1(_) => 1
    case Set2(_, _) => 2
    case Set3(_, _, _) => 3
    case SetN(items) => |items|
    case UnionOf(_, _, size) => size
    case Built(items) => |items|
    case JdkEmpty => 0
  }

  /** `isEmpty()`: a union is empty when both of its parts are. */
  function IsEmpty<E(==)>(s: JSet<E>): bool
  {
    match s
    case Set0 => true
    case Set1(_) => false
    case Set2(_, _) => false
    case Set3(_, _, _) => false
    case SetN(items) => |items| == 0
    case UnionOf(first, second, _) => IsEmpty(first) && IsEmpty(second)
    case Built(items) => |items| == 0
    case JdkEmpty => true
  }

  /**
   * What the constructors of this library guarantee: the small arities hold
   * distinct elements, wrapped and built sets have no repeats, and a union's
   * parts are disjoint and its stored size is the sum of theirs.
   */
  predicate Valid<E(==)>(s: JSet<E>)
  {
    match s
    case Set0 => true
    case Set1(_) => true
    case Set2(e1, e2) => e1 != e2
    case Set3(e1, e2, e3) => e1 != e2 && e1 != e3 && e2 != e3
    case SetN(items) => Distinct(items)
    case UnionOf(first, second, size) =>
      Valid(first) && Valid(second) && size == Size(first) + Size(second) && Members(first) !! Members(second)
    case Built(items) => Distinct(items)
    case JdkEmpty => true
  }

  // ---------------------------------------------------------------------
  // The queries agree with the reference meaning
  // ---------------------------------------------------------------------

  /** `contains` holds exactly for the members, and iteration visits exactly the members. */
  lemma {:induction false} ContainsIffMember<E>(s: JSet<E>, o: E)
    ensures Contains(s, o) <==> o in Members(s)
    ensures o in Iteration(s) <==> o in Members(s)
  {
    match s
    case UnionOf(first, second, _) =>
      ContainsIffMember(first, o);
      ContainsIffMember(second, o);
    case _ =>
  }

  /** `isEmpty` holds exactly when there are no members. */
  lemma {:induction false} IsEmptyIffNoMembers<E>(s: JSet<E>)
    ensures IsEmpty(s) <==> Members(s) == {}
  {
    match s
    case UnionOf(first, second, _) =>
      IsEmptyIffNoMembers(first);
      IsEmptyIffNoMembers(second);
    case SetN(items) =>
      if |items| > 0 {
        assert items[0] in Members(s);
      }
    case Built(items) =>
      if |items| > 0 {
        assert items[0] in Members(s);
      }
    case _ =>
  }

  /** A sequence without repeats has as many distinct elements as entries. */
  lemma {:induction false} DistinctCard<E>(xs: seq<E>)
    requires Distinct(xs)
    ensures |ElemSet(xs)| == |xs|
  {
    if |xs| > 0 {
      var init := xs[..|xs| - 1];
      var last := xs[|xs| - 1];
      assert Distinct(init);
      DistinctCard(init);
      assert ElemSet(xs) == ElemSet(init) + {last} by {
        assert xs == init + [last];
      }
      assert last !in ElemSet(init);
    }
  }

  /** Two sequences without repeats and with no element in common concatenate to one without repeats. */
  lemma DistinctConcat<E>(xs: seq<E>, ys: seq<E>)
    requires Distinct(xs) && Distinct(ys) && ElemSet(xs) !! ElemSet(ys)
    ensures Distinct(xs + ys)
  {
    forall i, j | 0 <= i < j < |xs + ys|
      ensures (xs + ys)[i] != (xs + ys)[j]
    {
      if i < |xs| && j >= |xs| {
        assert xs[i] in ElemSet(xs) && ys[j - |xs|] in ElemSet(ys);
      }
    }
  }

  /** A valid set iterates without repeats, and `size()` is its number of members. */
  lemma {:induction false} SizeIsCardinality<E>(s: JSet<E>)
    requires Valid(s)
    ensures Distinct(Iteration(s))
    ensures Size(s) == |Iteration(s)| == |Members(s)|
  {
    match s
    case UnionOf(first, second, _) =>
      SizeIsCardinality(first);
      SizeIsCardinality(second);
      MembersAreIterated(first);
      MembersAreIterated(second);
      DistinctConcat(Iteration(first), Iteration(second));
      MembersAreIterated(s);
      DistinctCard(Iteration(s));
    case _ =>
      MembersAreIterated(s);
      DistinctCard(Iteration(s));
  }

  /** The members are the elements the iterator yields. */
  lemma MembersAreIterated<E>(s: JSet<E>)
    ensures Members(s) == ElemSet(Iteration(s))
  {
    forall o
      ensures o in Members(s) <==> o in ElemSet(Iteration(s))
    {
      ContainsIffMember(s, o);
    }
  }

  // ---------------------------------------------------------------------
  // of, for every arity
  // ---------------------------------------------------------------------

  /** `of()`. */
  function Of0<E(==)>(): (r: JSet<E>)
    ensures Members(r) == {} && Valid(r)
  {
    Set0
  }

  /** `of(e)`. */
  function Of1<E(==)>(e: E): (r: JSet<E>)
    ensures Members(r) == {e} && Valid(r)
  {
    Set1(e)
  }

  /** `of(e1, e2)`: equal arguments give a one-element set. */
  function Of2<E(==)>(e1: E, e2: E): (r: JSet<E>)
    ensures Members(r) == {e1, e2} && Valid(r)
    ensures e1 == e2 <==> r.Set1?
  {
    if e1 == e2 then Set1(e1) else Set2(e1, e2)
  }

  /** `of(e1, e2, e3)`: each repetition is dropped, keeping the first occurrence first where the code does. */
  function Of3<E(==)>(e1: E, e2: E, e3: E): (r: JSet<E>)
    ensures Members(r) == {e1, e2, e3} && Valid(r)
    ensures Size(r) == |{e1, e2, e3}|
  {
    if e1 == e2 && e1 == e3 then Set1(e1)
    else if e1 == e2 then Set2(e1, e3)
    else if e1 == e3 then Set2(e1, e2)
    else if e2 == e3 then Set2(e2, e1)
    else Set3(e1, e2, e3)
  }

  /** The elements of `xs[..n]`, each once, in the order of their first occurrence: what adding them to a set keeps. */
  function Dedup<E(==)>(xs: seq<E>, n: nat): (r: seq<E>)
    requires n <= |xs|
    ensures Distinct(r)
    ensures ElemSet(r) == ElemSet(xs[..n])
  {
    if n == 0 then []
    else
      var d := Dedup(xs, n - 1);
      assert ElemSet(xs[..n]) == ElemSet(xs[..n - 1]) + {xs[n - 1]} by {
        assert xs[..n] == xs[..n - 1] + [xs[n - 1]];
      }
      if xs[n - 1] in d then d
      else
        assert xs[n - 1] !in ElemSet(d);
        d + [xs[n - 1]]
  }

  /** Elements that are already distinct are all kept, in their order. */
  lemma {:induction false} DedupOfDistinct<E>(xs: seq<E>, n: nat)
    requires n <= |xs| && Distinct(xs)
    ensures Dedup(xs, n) == xs[..n]
  {
    if n > 0 {
      DedupOfDistinct(xs, n - 1);
      assert xs[n - 1] !in xs[..n - 1];
      assert xs[..n] == xs[..n - 1] + [xs[n - 1]];
    }
  }

  /**
   * `of(es...)`: no elements give `of()`, one gives `of(e)` (even a `null`
   * one); from two elements on, a `null` element throws, and otherwise the
   * distinct elements are wrapped.
   */
  function OfElements<E(==)>(es: seq<E>, isNull: E -> bool): Result<JSet<E>>
  {
    if |es| == 0 then Ok(Of0())
    else if |es| == 1 then Ok(Of1(es[0]))
    else if exists i :: 0 <= i < |es| && isNull(es[i]) then Fail(NullPointer)
    else Ok(SetN(Dedup(es, |es|)))
  }

  /** `of(es...)`, with its loop adding each element to a hash set. */
  method Of<E(==)>(es: seq<E>, isNull: E -> bool) returns (r: Result<JSet<E>>)
    ensures r == OfElements(es, isNull)
  {
    if |es| == 0 {
      return Ok(Of0());
    }
    if |es| == 1 {
      return Ok(Of1(es[0]));
    }
    var items: seq<E> := [];
    for i := 0 to |es|
      invariant forall k :: 0 <= k < i ==> !isNull(es[k])
      invariant items == Dedup(es, i)
    {
      if isNull(es[i]) {
        return Fail(NullPointer);
      }
      if es[i] !in items {
        items := items + [es[i]];
      }
    }
    r := Ok(SetN(items));
  }

  /** From two elements on, `of(es...)` fails exactly when an element is `null`, and otherwise holds exactly the elements. */
  lemma OfElementsMeaning<E>(es: seq<E>, isNull: E -> bool)
    ensures OfElements(es, isNull).Fail? <==> |es| >= 2 && exists i :: 0 <= i < |es| && isNull(es[i])
    ensures OfElements(es, isNull).Ok? ==>
              Valid(OfElements(es, isNull).value) && Members(OfElements(es, isNull).value) == ElemSet(es)
  {
    if |es| >= 2 {
      assert es[..|es|] == es;
    }
  }

  // ---------------------------------------------------------------------
  // ofAll
  // ---------------------------------------------------------------------

  /** The collection handed to `ofAll`: one of this library's sets, or any other collection in its iteration order. */
  datatype Collection<E> = Library(s: JSet<E>) | Other(items: seq<E>)

  function CollectionItems<E(==)>(c: Collection<E>): seq<E>
  {
    match c
    case Library(s) => Iteration(s)
    case Other(items) => items
  }

  function CollectionIsEmpty<E(==)>(c: Collection<E>): bool
  {
    match c
    case Library(s) => IsEmpty(s)
    case Other(items) => |items| == 0
  }

  /** The classes that extend the immutable base class: `Set1` and `SetN` (and the empty set). */
  predicate IsImmutableBase<E(==)>(s: JSet<E>)
  {
    s.Set0? || s.Set1? || s.SetN?
  }

  /** `ofAll`: empty gives `of()`, an immutable set is returned as it is, anything else is copied into a hash set. */
  function OfAll<E(==)>(c: Collection<E>): (r: JSet<E>)
  {
    if CollectionIsEmpty(c) then Of0()
    else if c.Library? && IsImmutableBase(c.s) then c.s
    else SetN(Dedup(CollectionItems(c), |CollectionItems(c)|))
  }

  /** `ofAll` keeps exactly the collection's elements, and a valid input gives a valid set. */
  lemma OfAllMeaning<E>(c: Collection<E>)
    requires c.Library? ==> Valid(c.s)
    ensures Valid(OfAll(c))
    ensures Members(OfAll(c)) == ElemSet(CollectionItems(c))
    ensures c.Library? && IsImmutableBase(c.s) && !IsEmpty(c.s) ==> OfAll(c) == c.s
  {
    var items := CollectionItems(c);
    assert items[..|items|] == items;
    if c.Library? {
      MembersAreIterated(c.s);
      IsEmptyIffNoMembers(c.s);
    }
    if CollectionIsEmpty(c) && c.Other? {
      assert ElemSet(items) == {};
    }
  }

  // ---------------------------------------------------------------------
  // difference and union
  // ---------------------------------------------------------------------

  /** The builder after the loop has looked at the first `n` elements of `xs`: those `b` lacks, each once. */
  function Kept<E(==)>(xs: seq<E>, b: JSet<E>, n: nat): seq<E>
    requires n <= |xs|
  {
    if n == 0 then []
    else
      var k := Kept(xs, b, n - 1);
      if !Contains(b, xs[n - 1]) && xs[n - 1] !in k then k + [xs[n - 1]] else k
  }

  /** `difference(a, b)`: the empty cases first, then the elements of `a` not in `b`, in `a`'s order. */
  function DifferenceOf<E(==)>(a: JSet<E>, b: JSet<E>): JSet<E>
  {
    if IsEmpty(a) && IsEmpty(b) then Of0()
    else if IsEmpty(a) then Of0()
    else if IsEmpty(b) then a
    else Built(Kept(Iteration(a), b, |Iteration(a)|))
  }

  /** `difference`, with its loop over `a` feeding an `ImmutableSet` builder. */
  method Difference<E(==)>(a: JSet<E>, b: JSet<E>) returns (r: JSet<E>)
    ensures r == DifferenceOf(a, b)
  {
    if IsEmpty(a) && IsEmpty(b) {
      return Of0();
    }
    if IsEmpty(a) {
      return Of0();
    }
    if IsEmpty(b) {
      return a;
    }
    var xs := Iteration(a);
    var builder: seq<E> := [];
    for i := 0 to |xs|
      invariant builder == Kept(xs, b, i)
    {
      if !Contains(b, xs[i]) && xs[i] !in builder {
        builder := builder + [xs[i]];
      }
    }
    r := Built(builder);
  }

  /** What the builder holds: each element of `xs[..n]` that `b` lacks, once. */
  lemma {:induction false} KeptMeaning<E>(xs: seq<E>, b: JSet<E>, n: nat)
    requires n <= |xs|
    ensures Distinct(Kept(xs, b, n))
    ensures forall o :: o in Kept(xs, b, n) <==> o in xs[..n] && !Contains(b, o)
  {
    if n > 0 {
      KeptMeaning(xs, b, n - 1);
      assert xs[..n] == xs[..n - 1] + [xs[n - 1]];
    }
  }

  /** What the builder holds after the whole loop: the members of `a` that are not members of `b`. */
  lemma KeptIsDifference<E>(a: JSet<E>, b: JSet<E>)
    ensures Distinct(Kept(Iteration(a), b, |Iteration(a)|))
    ensures ElemSet(Kept(Iteration(a), b, |Iteration(a)|)) == Members(a) - Members(b)
  {
    var xs := Iteration(a);
    var kept := Kept(xs, b, |xs|);
    KeptMeaning(xs, b, |xs|);
    assert xs[..|xs|] == xs;
    forall o
      ensures o in kept <==> o in Members(a) && o !in Members(b)
    {
      ContainsIffMember(a, o);
      ContainsIffMember(b, o);
    }
    ElemSetOfDifference(kept, Members(a), Members(b));
  }

  lemma ElemSetOfDifference<E>(xs: seq<E>, m: set<E>, n: set<E>)
    requires forall o :: o in xs <==> o in m && o !in n
    ensures ElemSet(xs) == m - n
  {
    var d := m - n;
    forall o
      ensures o in ElemSet(xs) <==> o in d
    {
    }
  }

  /** `difference(a, b)` holds exactly the members of `a` that are not members of `b`. */
  lemma DifferenceMeaning<E>(a: JSet<E>, b: JSet<E>)
    requires Valid(a)
    ensures Valid(DifferenceOf(a, b))
    ensures Members(DifferenceOf(a, b)) == Members(a) - Members(b)
  {
    IsEmptyIffNoMembers(a);
    IsEmptyIffNoMembers(b);
    if !IsEmpty(a) && !IsEmpty(b) {
      KeptIsDifference(a, b);
    }
  }

  /** `union(a, b)`: an empty side gives the other set, otherwise `a` followed by what `b` adds. */
  function Union<E(==)>(a: JSet<E>, b: JSet<E>): JSet<E>
  {
    if IsEmpty(a) && IsEmpty(b) then Of0()
    else if IsEmpty(a) then b
    else if IsEmpty(b) then a
    else
      var rest := DifferenceOf(b, a);
      UnionOf(a, rest, Size(a) + Size(rest))
  }

  /** `union` holds the members of both sets. */
  lemma UnionMembers<E>(a: JSet<E>, b: JSet<E>)
    ensures Members(Union(a, b)) == Members(a) + Members(b)
  {
    IsEmptyIffNoMembers(a);
    IsEmptyIffNoMembers(b);
    if !IsEmpty(a) && !IsEmpty(b) {
      KeptIsDifference(b, a);
    }
  }

  /** For valid sets, `union` is valid, and its size counts each member once. */
  lemma UnionMeaning<E>(a: JSet<E>, b: JSet<E>)
    requires Valid(a) && Valid(b)
    ensures Members(Union(a, b)) == Members(a) + Members(b)
    ensures Valid(Union(a, b))
    ensures Size(Union(a, b)) == |Members(a) + Members(b)|
  {
    UnionMembers(a, b);
    if IsEmpty(a) {
      SizeIsCardinality(b);
    } else if IsEmpty(b) {
      SizeIsCardinality(a);
    } else {
      DifferenceMeaning(b, a);
      UnionOfDisjoint(a, DifferenceOf(b, a));
    }
  }

  /** A union of two disjoint valid sets is valid, holds both, and its stored size counts its members. */
  lemma UnionOfDisjoint<E>(a: JSet<E>, d: JSet<E>)
    requires Valid(a) && Valid(d) && Members(a) !! Members(d)
    ensures Valid(UnionOf(a, d, Size(a) + Size(d)))
    ensures Members(UnionOf(a, d, Size(a) + Size(d))) == Members(a) + Members(d)
    ensures Size(UnionOf(a, d, Size(a) + Size(d))) == |Members(a) + Members(d)|
  {
    SizeIsCardinality(UnionOf(a, d, Size(a) + Size(d)));
  }

  /** `AbstractSet.equals`: the same size, and every element of the other set is contained. */
  predicate JavaEquals<E(==)>(a: JSet<E>, b: JSet<E>)
  {
    Size(a) == Size(b) && forall o :: o in Iteration(b) ==> Contains(a, o)
  }

  /** For valid sets, `equals` compares the members. */
  lemma JavaEqualsIffSameMembers<E>(a: JSet<E>, b: JSet<E>)
    requires Valid(a) && Valid(b)
    ensures JavaEquals(a, b) <==> Members(a) == Members(b)
  {
    if JavaEquals(a, b) {
      JavaEqualsGivesSameMembers(a, b);
    }
    if Members(a) == Members(b) {
      SameMembersGiveJavaEquals(a, b);
    }
  }

  lemma JavaEqualsGivesSameMembers<E>(a: JSet<E>, b: JSet<E>)
    requires Valid(a) && Valid(b) && JavaEquals(a, b)
    ensures Members(a) == Members(b)
  {
    forall o | o in Members(b)
      ensures o in Members(a)
    {
      ContainsIffMember(a, o);
      ContainsIffMember(b, o);
    }
    SizeIsCardinality(a);
    SizeIsCardinality(b);
    SubsetOfSameSize(Members(b), Members(a));
  }

  lemma SameMembersGiveJavaEquals<E>(a: JSet<E>, b: JSet<E>)
    requires Valid(a) && Valid(b) && Members(a) == Members(b)
    ensures JavaEquals(a, b)
  {
    SizeIsCardinality(a);
    SizeIsCardinality(b);
    forall o | o in Iteration(b)
      ensures Contains(a, o)
    {
      ContainsIffMember(a, o);
      ContainsIffMember(b, o);
    }
  }

  /** A subset as large as its superset is the whole of it. */
  lemma SubsetOfSameSize<E>(x: set<E>, y: set<E>)
    requires x <= y && |x| == |y|
    ensures x == y
  {
    assert |y - x| == |y| - |x|;
  }

  /** `union(a, b).equals(union(b, a))`. */
  lemma UnionCommutative<E>(a: JSet<E>, b: JSet<E>)
    requires Valid(a) && Valid(b)
    ensures JavaEquals(Union(a, b), Union(b, a))
  {
    UnionMeaning(a, b);
    UnionMeaning(b, a);
    SameMembersGiveJavaEquals(Union(a, b), Union(b, a));
  }

  /**
   * `union` is associative as sets: both groupings hold the same members (so,
   * by `UnionMeaning` and `JavaEqualsIffSameMembers`, valid sets give `equals`
   * unions).
   */
  lemma UnionAssociative<E>(a: JSet<E>, b: JSet<E>, c: JSet<E>)
    ensures Members(Union(Union(a, b), c)) == Members(Union(a, Union(b, c)))
  {
    UnionMembers(a, b);
    UnionMembers(b, c);
    UnionMembers(Union(a, b), c);
    UnionMembers(a, Union(b, c));
  }

  // ---------------------------------------------------------------------
  // Mutators
  // ---------------------------------------------------------------------

  /** `xs` without its first element equal to `o`. */
  function RemoveFirst<E(==)>(xs: seq<E>, o: E): seq<E>
  {
    if |xs| == 0 then []
    else if xs[0] == o then xs[1..]
    else [xs[0]] + RemoveFirst(xs[1..], o)
  }

  /**
   * `remove()` on the iterator of `s`, once it has given the first element
   * equal to `o`: a `HashSet`'s iterator removes it from the wrapped set, the
   * iterator `Iterators.concat` builds for a union passes the call to the
   * part that gave the element, and every other iterator here, Guava's
   * included, throws. The result is the set's new value; a union keeps the
   * size it stored when it was made.
   */
  function IteratorRemove<E(==)>(s: JSet<E>, o: E): Result<JSet<E>>
  {
    match s
    case SetN(items) => Ok(SetN(RemoveFirst(items, o)))
    case UnionOf(first, second, size) =>
      if o in Iteration(first) then
        (match IteratorRemove(first, o)
         case Ok(f) => Ok(UnionOf(f, second, size))
         case Fail(e) => Fail(e))
      else
        (match IteratorRemove(second, o)
         case Ok(t) => Ok(UnionOf(first, t, size))
         case Fail(e) => Fail(e))
    case _ => Fail(UnsupportedOperation)
  }

  /**
   * `remove(o)` as written: the immutable base class always throws; `Set2`,
   * `Set3`, `UnionOf` and the JDK's empty set inherit the collection
   * default, which walks the iterator, answers `false` when no element is
   * equal to `o`, and otherwise asks the iterator to remove it and answers
   * `true`. Guava's sets, the empty one included, always throw.
   */
  function Remove<E(==)>(s: JSet<E>, o: E): Result<bool>
  {
    if s.Set2? || s.Set3? || s.UnionOf? || s.JdkEmpty? then
      if o !in Iteration(s) then Ok(false)
      else
        match IteratorRemove(s, o)
        case Ok(_) => Ok(true)
        case Fail(e) => Fail(e)
    else Fail(UnsupportedOperation)
  }

  /** The members that sit in a wrapped `HashSet`, reached through unions. */
  function HashSetMembers<E(==)>(s: JSet<E>): set<E>
  {
    match s
    case SetN(items) => ElemSet(items)
    case UnionOf(first, second, _) => HashSetMembers(first) + HashSetMembers(second)
    case _ => {}
  }

  lemma {:induction false} HashSetMembersAreMembers<E>(s: JSet<E>)
    ensures HashSetMembers(s) <= Members(s)
  {
    match s
    case UnionOf(first, second, _) =>
      HashSetMembersAreMembers(first);
      HashSetMembersAreMembers(second);
    case _ =>
  }

  /** Removing a member of a valid set through its iterator succeeds exactly when a wrapped `HashSet` holds it. */
  lemma {:induction false} IteratorRemoveMeaning<E>(s: JSet<E>, o: E)
    requires Valid(s) && o in Members(s)
    ensures IteratorRemove(s, o).Ok? <==> o in HashSetMembers(s)
    ensures IteratorRemove(s, o).Fail? ==> IteratorRemove(s, o) == Fail(UnsupportedOperation)
  {
    match s
    case UnionOf(first, second, _) =>
      ContainsIffMember(first, o);
      HashSetMembersAreMembers(first);
      HashSetMembersAreMembers(second);
      if o in Iteration(first) {
        IteratorRemoveMeaning(first, o);
      } else {
        IteratorRemoveMeaning(second, o);
      }
    case _ =>
  }

  /**
   * What `remove` answers, as written: `false` for a non-member of the
   * classes without an override, `true` exactly for a union member held by a
   * wrapped `HashSet`, and `UnsupportedOperationException` otherwise.
   */
  lemma RemoveMeaning<E>(s: JSet<E>, o: E)
    requires Valid(s)
    ensures Remove(s, o) == Ok(false) <==> (s.Set2? || s.Set3? || s.UnionOf? || s.JdkEmpty?) && o !in Members(s)
    ensures Remove(s, o) == Ok(true) <==> s.UnionOf? && o in HashSetMembers(s)
    ensures Remove(s, o).Fail? ==> Remove(s, o) == Fail(UnsupportedOperation)
  {
    ContainsIffMember(s, o);
    HashSetMembersAreMembers(s);
    if o in Members(s) {
      IteratorRemoveMeaning(s, o);
    }
  }

  /** Removing the first copy from a sequence without repeats takes exactly that element away. */
  lemma {:induction false} RemoveFirstOfDistinct<E>(xs: seq<E>, o: E)
    requires Distinct(xs)
    ensures Distinct(RemoveFirst(xs, o))
    ensures ElemSet(RemoveFirst(xs, o)) == ElemSet(xs) - {o}
  {
    if |xs| > 0 {
      assert Distinct(xs[1..]);
      assert xs == [xs[0]] + xs[1..];
      assert xs[0] !in xs[1..];
      if xs[0] != o {
        RemoveFirstOfDistinct(xs[1..], o);
        assert ElemSet([xs[0]] + RemoveFirst(xs[1..], o)) == {xs[0]} + ElemSet(RemoveFirst(xs[1..], o));
      }
    }
  }

  /** A successful iterator removal takes exactly `o` out of the members, and a union keeps its stored size. */
  lemma {:induction false} IteratorRemoveMembers<E>(s: JSet<E>, o: E)
    requires Valid(s) && IteratorRemove(s, o).Ok?
    ensures Members(IteratorRemove(s, o).value) == Members(s) - {o}
    ensures s.UnionOf? ==> IteratorRemove(s, o).value.UnionOf? && Size(IteratorRemove(s, o).value) == Size(s)
  {
    match s
    case SetN(items) =>
      RemoveFirstOfDistinct(items, o);
    case UnionOf(first, second, _) =>
      ContainsIffMember(first, o);
      if o in Iteration(first) {
        IteratorRemoveMembers(first, o);
      } else {
        IteratorRemoveMembers(second, o);
      }
    case _ =>
  }

  /**
   * A union that answers `true` to `remove` has been changed: it no longer
   * holds the element, yet `size()` still reports the old count, so the
   * result is no longer a valid set.
   */
  lemma RemovedUnionIsInvalid<E>(s: JSet<E>, o: E)
    requires Valid(s) && s.UnionOf? && o in HashSetMembers(s)
    ensures Remove(s, o) == Ok(true)
    ensures IteratorRemove(s, o).Ok?
    ensures Members(IteratorRemove(s, o).value) == Members(s) - {o}
    ensures Size(IteratorRemove(s, o).value) == |Members(IteratorRemove(s, o).value)| + 1
    ensures !Valid(IteratorRemove(s, o).value)
  {
    RemoveMeaning(s, o);
    HashSetMembersAreMembers(s);
    IteratorRemoveMeaning(s, o);
    var t := IteratorRemove(s, o).value;
    IteratorRemoveMembers(s, o);
    SizeIsCardinality(s);
    assert |Members(t)| == |Members(s)| - 1;
    if Valid(t) {
      SizeIsCardinality(t);
    }
  }

  /** `union(ofAll(List.of(1, 2)), of(3)).remove(1)` answers `true` and leaves a union of size 3 holding 2 and 3. */
  lemma UnionRemoveExample()
    ensures Union(SetN([1, 2]), Set1(3)) == UnionOf(SetN([1, 2]), Built([3]), 3)
    ensures Remove(Union(SetN([1, 2]), Set1(3)), 1) == Ok(true)
    ensures IteratorRemove(Union(SetN([1, 2]), Set1(3)), 1) == Ok(UnionOf(SetN([2]), Built([3]), 3))
    ensures Members(UnionOf(SetN([2]), Built([3]), 3)) == {2, 3}
  {
    assert Kept([3], SetN([1, 2]), 1) == [3];
    assert Members(SetN([2])) == {2};
    assert Members(Built([3])) == {3};
  }

  /**
   * `remove(o)` with `UnionOf` extending the immutable base class like
   * `Set1` and `SetN`, as the library's own description of its unions as
   * immutable and unmodifiable asks.
   */
  function RemoveImmutable<E(==)>(s: JSet<E>, o: E): Result<bool>
  {
    if (s.Set2? || s.Set3? || s.JdkEmpty?) && o !in Iteration(s) then Ok(false)
    else Fail(UnsupportedOperation)
  }

  /** With unions immutable, no set can be changed: `remove` never reports that it removed something. */
  lemma RemoveNeverRemoves<E>(s: JSet<E>, o: E)
    ensures RemoveImmutable(s, o) != Ok(true)
    ensures o in Members(s) ==> RemoveImmutable(s, o) == Fail(UnsupportedOperation)
    ensures IsImmutableBase(s) || s.UnionOf? ==> RemoveImmutable(s, o) == Fail(UnsupportedOperation)
    ensures !s.UnionOf? ==> RemoveImmutable(s, o) == Remove(s, o)
  {
    ContainsIffMember(s, o);
    if !s.UnionOf? && (s.Set2? || s.Set3? || s.JdkEmpty?) && o in Iteration(s) {
      assert IteratorRemove(s, o) == Fail(UnsupportedOperation);
    }
  }

  /**
   * Only the JDK's empty set answers `false`: the empty set that `difference`
   * builds is Guava's, whose `remove` throws.
   */
  lemma RemoveOnEmptySets<E>(x: E, o: E)
    ensures Remove(JdkEmpty, o) == Ok(false)
    ensures IsEmpty(DifferenceOf(Set1(x), Set1(x)))
    ensures Remove(DifferenceOf(Set1(x), Set1(x)), o) == Fail(UnsupportedOperation)
  {
    assert Iteration(Set1(x)) == [x];
    assert Kept([x], Set1(x), 1) == [];
  }

  // ---------------------------------------------------------------------
  // Iterators
  // ---------------------------------------------------------------------

  /** The iterator of `Set1`: a flag that is cleared by the first `next`. */
  class SingleIterator<E> {
    const e: E
    var hasNext: bool

    constructor(e: E)
      ensures this.e == e && hasNext
    {
      this.e := e;
      hasNext := true;
    }

    method HasNext() returns (b: bool)
      ensures b == hasNext
    {
      b := hasNext;
    }

    /** `next`: the element the first time, `NoSuchElementException` afterwards. */
    method Next() returns (r: Result<E>)
      modifies this
      ensures old(hasNext) ==> r == Ok(e)
      ensures !old(hasNext) ==> r == Fail(NoSuchElement)
      ensures !hasNext
    {
      if hasNext {
        hasNext := false;
        return Ok(e);
      }
      r := Fail(NoSuchElement);
    }
  }

  /** The iterator of `Set2` and `Set3`: a counter that every `next` advances, even past the end. */
  class CountingIterator<E> {
    const elements: seq<E>
    var count: nat

    constructor(elements: seq<E>)
      ensures this.elements == elements && count == 0
    {
      this.elements := elements;
      count := 0;
    }

    method HasNext() returns (b: bool)
      ensures b <==> count < |elements|
    {
      b := count < |elements|;
    }

    /** `next`: the element at the counter while there is one, `NoSuchElementException` afterwards. */
    method Next() returns (r: Result<E>)
      modifies this
      ensures count == old(count) + 1
      ensures old(count) < |elements| ==> r == Ok(elements[old(count)])
      ensures old(count) >= |elements| ==> r == Fail(NoSuchElement)
    {
      var i := count;
      count := count + 1;
      if i < |elements| {
        return Ok(elements[i]);
      }
      r := Fail(NoSuchElement);
    }
  }

  /** A `Set2`'s iterator yields both elements in order and then fails. */
  method IterateSet2<E(==)>(e1: E, e2: E) returns (first: Result<E>, second: Result<E>, third: Result<E>)
    ensures first == Ok(e1) && second == Ok(e2) && third == Fail(NoSuchElement)
  {
    var it := new CountingIterator(Iteration(Set2(e1, e2)));
    first := it.Next();
    second := it.Next();
    third := it.Next();
  }
}
