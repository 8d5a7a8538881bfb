/**
 * `Maps` and `MapImpls`: small immutable maps with one class per size, and
 * `MapN` over an immutable set of entries.
 *
 * None of the map classes overrides `get` or `size`, so both come from the
 * entry set, as the collection defaults compute them: `get` returns the value
 * of the first entry with that key in iteration order, `size` is the entry
 * set's size. `null` arguments are `None` where `Maps.of` checks for them.
 */
module ImmutableMaps {
  import opened Results
  import opened ImmutableSets

  /** `MLEntry`: equal when keys and values are equal, which is `==` on this datatype. */
  datatype Entry<K, V> = MLEntry(key: K, value: V)

  datatype JMap<K, V> =
    | Map0
    | Map1(k: K, v: V)
    | Map2(k1: K, v1: V, k2: K, v2: V)
    | Map3(k1: K, v1: V, k2: K, v2: V, k3: K, v3: V)
    | MapN(entrySet: JSet<Entry<K, V>>)

  // ---------------------------------------------------------------------
  // MLEntry
  // ---------------------------------------------------------------------

  /** `hashCode`: the key's hash XOR the value's, on 32 bits. */
  function EntryHash<K, V>(e: Entry<K, V>, keyHash: K -> bv32, valueHash: V -> bv32): bv32
  {
    keyHash(e.key) ^ valueHash(e.value)
  }

  /** `setValue`: entries cannot be changed. */
  function SetValue<K, V>(e: Entry<K, V>, value: V): Result<V>
  {
    Fail(UnsupportedOperation)
  }

  /**
   * The `Map.Entry` contract: equal entries hash alike, swapping the roles of
   * key and value keeps the hash, and `setValue` never succeeds.
   */
  lemma EntryContract<K, V>(e: Entry<K, V>, f: Entry<K, V>, keyHash: K -> bv32, valueHash: V -> bv32, value: V)
    ensures e == f <==> e.key == f.key && e.value == f.value
    ensures e == f ==> EntryHash(e, keyHash, valueHash) == EntryHash(f, keyHash, valueHash)
    ensures EntryHash(e, keyHash, valueHash) == EntryHash(MLEntry(e.value, e.key), valueHash, keyHash)
    ensures SetValue(e, value).Fail?
  {
  }

  // ---------------------------------------------------------------------
  // Queries
  // ---------------------------------------------------------------------

  /** `entrySet()`: the set each class builds with `Sets.of`, the JDK's empty set, or `MapN`'s set. */
  function Entries<K(==), V(==)>(m: JMap<K, V>): JSet<Entry<K, V>>
  {
    match m
    case Map0 => JdkEmpty
    case Map1(k, v) => Of1(MLEntry(k, v))
    case Map2(k1, v1, k2, v2) => Of2(MLEntry(k1, v1), MLEntry(k2, v2))
    case Map3(k1, v1, k2, v2, k3, v3) => Of3(MLEntry(k1, v1), MLEntry(k2, v2), MLEntry(k3, v3))
    case MapN(entrySet) => entrySet
  }

  /** The value of the first entry with key `key`, scanning in order. */
  function Lookup<K(==), V>(entries: seq<Entry<K, V>>, key: K): Option<V>
  {
    if |entries| == 0 then None
    else if entries[0].key == key then Some(entries[0].value)
    else Lookup(entries[1..], key)
  }

  /** `get`: the collection default over the entry set; `null` (`None`) for a missing key. */
  function Get<K(==), V(==)>(m: JMap<K, V>, key: K): Option<V>
  {
    Lookup(Iteration(Entries(m)), key)
  }

  /** `size()`: the entry set's size. */
  function MapSize<K(==), V(==)>(m: JMap<K, V>): int
  {
    Size(Entries(m))
  }

  /** `containsKey`: a stored key equal to `key`; `MapN` scans its entries. */
  function ContainsKey<K(==), V(==)>(m: JMap<K, V>, key: K): bool
  {
    match m
    case Map0 => false
    case Map1(k, _) => k == key
    case Map2(k1, _, k2, _) => k1 == key || k2 == key
    case Map3(k1, _, k2, _, k3, _) => k1 == key || k2 == key || k3 == key
    case MapN(entrySet) => exists i :: 0 <= i < |Iteration(entrySet)| && Iteration(entrySet)[i].key == key
  }

  /** `containsValue`: a stored value equal to `value`; `MapN` scans its entries. */
  function ContainsValue<K(==), V(==)>(m: JMap<K, V>, value: V): bool
  {
    match m
    case Map0 => false
    case Map1(_, v) => v == value
    case Map2(_, v1, _, v2) => v1 == value || v2 == value
    case Map3(_, v1, _, v2, _, v3) => v1 == value || v2 == value || v3 == value
    case MapN(entrySet) => exists i :: 0 <= i < |Iteration(entrySet)| && Iteration(entrySet)[i].value == value
  }

  /** No two entries share a key: the map contract the checked `of` forms establish. */
  predicate DistinctKeys<K(==), V(==)>(m: JMap<K, V>)
  {
    var es := Iteration(Entries(m));
    forall i, j :: 0 <= i < j < |es| ==> es[i].key != es[j].key
  }

  /** A valid map: its entry set is a valid set, and no two entries share a key. */
  predicate ValidMap<K(==), V(==)>(m: JMap<K, V>)
  {
    Valid(Entries(m)) && DistinctKeys(m)
  }

  // ---------------------------------------------------------------------
  // The queries agree with the entry set
  // ---------------------------------------------------------------------

  lemma {:induction false} LookupMeaning<K, V>(entries: seq<Entry<K, V>>, key: K)
    ensures Lookup(entries, key).Some? ==> MLEntry(key, Lookup(entries, key).value) in entries
    ensures Lookup(entries, key).None? <==> forall i :: 0 <= i < |entries| ==> entries[i].key != key
  {
    if |entries| > 0 && entries[0].key != key {
      LookupMeaning(entries[1..], key);
      assert forall i :: 1 <= i < |entries| ==> entries[i] == entries[1..][i - 1];
    }
  }

  /** With distinct keys, the entry with key `key` is what `Lookup` finds. */
  lemma {:induction false} LookupFindsEntry<K, V>(entries: seq<Entry<K, V>>, i: nat)
    requires i < |entries|
    requires forall a, b :: 0 <= a < b < |entries| ==> entries[a].key != entries[b].key
    ensures Lookup(entries, entries[i].key) == Some(entries[i].value)
  {
    if i > 0 {
      LookupFindsEntry(entries[1..], i - 1);
      assert entries[1..][i - 1] == entries[i];
    }
  }

  /** `containsKey` holds exactly when some entry has that key; likewise `containsValue`. */
  lemma ContainsMeaning<K, V>(m: JMap<K, V>, key: K, value: V)
    ensures ContainsKey(m, key) <==> exists e :: e in Members(Entries(m)) && e.key == key
    ensures ContainsValue(m, value) <==> exists e :: e in Members(Entries(m)) && e.value == value
  {
    var es := Iteration(Entries(m));
    MembersAreIterated(Entries(m));
    if ContainsKey(m, key) {
      var i :| 0 <= i < |es| && es[i].key == key;
      assert es[i] in Members(Entries(m));
    }
    if ContainsValue(m, value) {
      var i :| 0 <= i < |es| && es[i].value == value;
      assert es[i] in Members(Entries(m));
    }
  }

  /**
   * `get` finds a value only through an entry, answers `null` exactly for a
   * key that is not contained, and on a map with distinct keys returns each
   * entry's value.
   */
  lemma GetMeaning<K, V>(m: JMap<K, V>, key: K, value: V)
    ensures Get(m, key).Some? ==> MLEntry(key, Get(m, key).value) in Members(Entries(m))
    ensures Get(m, key).None? <==> !ContainsKey(m, key)
    ensures DistinctKeys(m) && MLEntry(key, value) in Members(Entries(m)) ==> Get(m, key) == Some(value)
  {
    var es := Iteration(Entries(m));
    MembersAreIterated(Entries(m));
    LookupMeaning(es, key);
    ContainsMeaning(m, key, value);
    if DistinctKeys(m) && MLEntry(key, value) in Members(Entries(m)) {
      var i :| 0 <= i < |es| && es[i] == MLEntry(key, value);
      LookupFindsEntry(es, i);
    }
  }

  /** `Map0` holds nothing. */
  lemma EmptyMapHoldsNothing<K, V>(key: K, value: V)
    ensures var m: JMap<K, V> := Map0;
            !ContainsKey(m, key) && !ContainsValue(m, value) && Get(m, key) == None && MapSize(m) == 0
  {
  }

  // ---------------------------------------------------------------------
  // Maps.of, for every arity
  // ---------------------------------------------------------------------

  /** `of(k, v)`: a `null` key or value throws. */
  function Of1Map<K, V>(k: Option<K>, v: Option<V>): Result<JMap<K, V>>
  {
    if k.None? || v.None? then Fail(NullPointer)
    else Ok(Map1(k.value, v.value))
  }

  /** `of(k1, v1, k2, v2)`: `null`s throw, then equal keys are rejected. */
  function Of2Map<K(==), V>(k1: Option<K>, v1: Option<V>, k2: Option<K>, v2: Option<V>): Result<JMap<K, V>>
  {
    if k1.None? || v1.None? || k2.None? || v2.None? then Fail(NullPointer)
    else if k1.value == k2.value then Fail(IllegalArgument("Maps.of duplicate keys"))
    else Ok(Map2(k1.value, v1.value, k2.value, v2.value))
  }

  /** `of(k1, v1, k2, v2, k3, v3)` as written: the first key is compared with the other two, but the second never with the third. */
  function Of3Map<K(==), V>(k1: Option<K>, v1: Option<V>, k2: Option<K>, v2: Option<V>, k3: Option<K>, v3: Option<V>): Result<JMap<K, V>>
  {
    if k1.None? || v1.None? || k2.None? || v2.None? || k3.None? || v3.None? then Fail(NullPointer)
    else if k1.value == k2.value || k1.value == k3.value then Fail(IllegalArgument("Maps.of duplicate keys"))
    else Ok(Map3(k1.value, v1.value, k2.value, v2.value, k3.value, v3.value))
  }

  /** The three-key `of` with every pair of keys compared, as its two-key sibling does. */
  function Of3MapChecked<K(==), V>(k1: Option<K>, v1: Option<V>, k2: Option<K>, v2: Option<V>, k3: Option<K>, v3: Option<V>): Result<JMap<K, V>>
  {
    if k1.None? || v1.None? || k2.None? || v2.None? || k3.None? || v3.None? then Fail(NullPointer)
    else if k1.value == k2.value || k1.value == k3.value || k2.value == k3.value then Fail(IllegalArgument("Maps.of duplicate keys"))
    else Ok(Map3(k1.value, v1.value, k2.value, v2.value, k3.value, v3.value))
  }

  /** `of(k, v)`: `null`s are rejected, and the key gets its value. */
  lemma Of1MapMeaning<K, V>(k: Option<K>, v: Option<V>)
    ensures Of1Map(k, v).Fail? <==> k.None? || v.None?
    ensures Of1Map(k, v).Ok? ==>
              var m := Of1Map(k, v).value;
              Get(m, k.value) == Some(v.value) && MapSize(m) == 1 && ValidMap(m)
  {
  }

  /** `of(k1, v1, k2, v2)`: `null`s are rejected first, then equal keys, and each key gets its value. */
  lemma Of2MapMeaning<K, V>(k1: Option<K>, v1: Option<V>, k2: Option<K>, v2: Option<V>)
    ensures Of2Map(k1, v1, k2, v2) == Fail(NullPointer) <==> k1.None? || v1.None? || k2.None? || v2.None?
    ensures Of2Map(k1, v1, k2, v2).Ok? <==> k1.Some? && v1.Some? && k2.Some? && v2.Some? && k1.value != k2.value
    ensures Of2Map(k1, v1, k2, v2).Ok? ==>
              var m := Of2Map(k1, v1, k2, v2).value;
              Get(m, k1.value) == Some(v1.value) && Get(m, k2.value) == Some(v2.value) && MapSize(m) == 2 && ValidMap(m)
  {
    if Of2Map(k1, v1, k2, v2).Ok? {
      var e1, e2 := MLEntry(k1.value, v1.value), MLEntry(k2.value, v2.value);
      var m := Of2Map(k1, v1, k2, v2).value;
      assert Entries(m) == Set2(e1, e2);
      assert Iteration(Entries(m)) == [e1, e2];
      assert Lookup([e1, e2][1..], k2.value) == Some(v2.value);
    }
  }

  /** The corrected three-key form: `null`s and every repeated key are rejected, and each key gets its value. */
  lemma Of3CheckedMeaning<K, V>(k1: Option<K>, v1: Option<V>, k2: Option<K>, v2: Option<V>, k3: Option<K>, v3: Option<V>)
    ensures Of3MapChecked(k1, v1, k2, v2, k3, v3).Ok? <==>
              k1.Some? && v1.Some? && k2.Some? && v2.Some? && k3.Some? && v3.Some? &&
              k1.value != k2.value && k1.value != k3.value && k2.value != k3.value
    ensures Of3MapChecked(k1, v1, k2, v2, k3, v3).Ok? ==>
              var m := Of3MapChecked(k1, v1, k2, v2, k3, v3).value;
              ValidMap(m) && MapSize(m) == 3 &&
              Get(m, k1.value) == Some(v1.value) && Get(m, k2.value) == Some(v2.value) && Get(m, k3.value) == Some(v3.value)
  {
    if Of3MapChecked(k1, v1, k2, v2, k3, v3).Ok? {
      var e1, e2, e3 := MLEntry(k1.value, v1.value), MLEntry(k2.value, v2.value), MLEntry(k3.value, v3.value);
      var m := Of3MapChecked(k1, v1, k2, v2, k3, v3).value;
      assert Entries(m) == Set3(e1, e2, e3);
      var es := [e1, e2, e3];
      assert Iteration(Entries(m)) == es;
      assert Lookup(es[1..], k2.value) == Some(v2.value);
      assert es[1..][1..] == [e3];
      assert Lookup(es[1..], k3.value) == Some(v3.value);
    }
  }

  /**
   * The three-key form as written accepts a repeated second and third key:
   * the map then has three entries but two keys, and the third value can
   * never be read back.
   */
  lemma Of3AcceptsRepeatedKey<K, V>(k1: K, k2: K, v1: V, v2: V, v3: V)
    requires k1 != k2 && v2 != v3
    ensures Of3Map(Some(k1), Some(v1), Some(k2), Some(v2), Some(k2), Some(v3)).Ok?
    ensures var m := Of3Map(Some(k1), Some(v1), Some(k2), Some(v2), Some(k2), Some(v3)).value;
            MapSize(m) == 3 && !DistinctKeys(m) && Get(m, k2) == Some(v2) && MLEntry(k2, v3) in Members(Entries(m))
    ensures Of3MapChecked(Some(k1), Some(v1), Some(k2), Some(v2), Some(k2), Some(v3)).Fail?
  {
    var e1, e2, e3 := MLEntry(k1, v1), MLEntry(k2, v2), MLEntry(k2, v3);
    var m := Of3Map(Some(k1), Some(v1), Some(k2), Some(v2), Some(k2), Some(v3)).value;
    assert Entries(m) == Set3(e1, e2, e3);
    var es := [e1, e2, e3];
    assert Iteration(Entries(m)) == es;
    assert Lookup(es[1..], k2) == Some(v2);
    assert es[1].key == es[2].key;
  }

  /** The entry set `Sets.of` builds from two or more entries, none of which is `null`. */
  function EntrySetOf<K(==), V(==)>(entries: seq<Entry<K, V>>): (r: JSet<Entry<K, V>>)
    requires |entries| >= 2
    ensures OfElements(entries, e => false) == Ok(r)
  {
    SetN(Dedup(entries, |entries|))
  }

  /** `of(k1, v1, ..., kn, vn)` for four to ten pairs: the entries go straight into a set, with no check for repeated keys. */
  function OfPairs<K(==), V(==)>(pairs: seq<(K, V)>): JMap<K, V>
    requires 4 <= |pairs| <= 10
  {
    MapN(EntrySetOf(PairEntries(pairs)))
  }

  /** The pairs as entries, in order. */
  function PairEntries<K, V>(pairs: seq<(K, V)>): (r: seq<Entry<K, V>>)
    ensures |r| == |pairs|
    ensures forall i :: 0 <= i < |pairs| ==> r[i] == MLEntry(pairs[i].0, pairs[i].1)
  {
    seq(|pairs|, i requires 0 <= i < |pairs| => MLEntry(pairs[i].0, pairs[i].1))
  }

  /** The pair forms hold exactly the pairs given. */
  lemma OfPairsMeaning<K, V>(pairs: seq<(K, V)>)
    requires 4 <= |pairs| <= 10
    ensures forall k, v :: MLEntry(k, v) in Members(Entries(OfPairs(pairs))) <==> (k, v) in pairs
    ensures Valid(Entries(OfPairs(pairs)))
  {
    var es := PairEntries(pairs);
    assert es[..|es|] == es;
    forall k, v
      ensures MLEntry(k, v) in Members(Entries(OfPairs(pairs))) <==> (k, v) in pairs
    {
      if (k, v) in pairs {
        var i :| 0 <= i < |pairs| && pairs[i] == (k, v);
        assert es[i] == MLEntry(k, v);
      }
    }
  }

  /** With distinct keys, the pair forms answer each pair's value and count every pair. */
  lemma OfPairsLookup<K, V>(pairs: seq<(K, V)>, i: nat)
    requires 4 <= |pairs| <= 10 && i < |pairs|
    requires forall a, b :: 0 <= a < b < |pairs| ==> pairs[a].0 != pairs[b].0
    ensures Get(OfPairs(pairs), pairs[i].0) == Some(pairs[i].1)
    ensures MapSize(OfPairs(pairs)) == |pairs|
  {
    var es := PairEntries(pairs);
    PairsIterated(pairs);
    LookupFindsEntry(es, i);
  }

  /** Pairs with distinct keys are all kept, in order. */
  lemma PairsIterated<K, V>(pairs: seq<(K, V)>)
    requires 4 <= |pairs| <= 10
    requires forall a, b :: 0 <= a < b < |pairs| ==> pairs[a].0 != pairs[b].0
    ensures Iteration(Entries(OfPairs(pairs))) == PairEntries(pairs)
    ensures forall a, b :: 0 <= a < b < |pairs| ==> PairEntries(pairs)[a].key != PairEntries(pairs)[b].key
  {
    var es := PairEntries(pairs);
    assert Distinct(es) by {
      forall a, b | 0 <= a < b < |es| ensures es[a] != es[b] {
        assert es[a].key == pairs[a].0 && es[b].key == pairs[b].0;
      }
    }
    DedupOfDistinct(es, |es|);
    assert es[..|es|] == es;
  }


  /** `of(entries...)`: none gives the empty map, one goes through `of(k, v)`, more are wrapped as a set. */
  function OfEntries<K(==), V(==)>(entries: seq<Entry<K, V>>): JMap<K, V>
  {
    if |entries| == 0 then Map0
    else if |entries| == 1 then Map1(entries[0].key, entries[0].value)
    else MapN(EntrySetOf(entries))
  }

  /** `of(collection)`: the same size tests; more entries are copied into a hash set and passed through `ofAll`. */
  function OfCollection<K(==), V(==)>(entries: seq<Entry<K, V>>): JMap<K, V>
  {
    if |entries| == 0 then Map0
    else if |entries| == 1 then Map1(entries[0].key, entries[0].value)
    else MapN(OfAll(Other(Dedup(entries, |entries|))))
  }

  /** Both entry builders hold exactly the given entries, and agree with each other. */
  lemma EntryBuildersMeaning<K, V>(entries: seq<Entry<K, V>>)
    ensures Members(Entries(OfEntries(entries))) == ElemSet(entries)
    ensures Members(Entries(OfCollection(entries))) == Members(Entries(OfEntries(entries)))
    ensures Valid(Entries(OfEntries(entries))) && Valid(Entries(OfCollection(entries)))
  {
    if |entries| <= 1 {
      FewEntriesBuilt(entries);
    } else {
      ManyEntriesBuilt(entries);
    }
  }

  /** No entry or one: both builders give `Map0` or the same `Map1`. */
  lemma FewEntriesBuilt<K, V>(entries: seq<Entry<K, V>>)
    requires |entries| <= 1
    ensures Members(Entries(OfEntries(entries))) == ElemSet(entries)
    ensures OfCollection(entries) == OfEntries(entries)
    ensures Valid(Entries(OfEntries(entries)))
  {
    assert entries[..|entries|] == entries;
    if |entries| == 1 {
      assert ElemSet(entries) == {entries[0]};
    }
  }

  /** Two entries or more: a wrapped set of them, directly or through a hash-set copy. */
  lemma ManyEntriesBuilt<K, V>(entries: seq<Entry<K, V>>)
    requires |entries| >= 2
    ensures Members(Entries(OfEntries(entries))) == ElemSet(entries)
    ensures Members(Entries(OfCollection(entries))) == ElemSet(entries)
    ensures Valid(Entries(OfEntries(entries))) && Valid(Entries(OfCollection(entries)))
  {
    assert entries[..|entries|] == entries;
    var d := Dedup(entries, |entries|);
    OfAllMeaning(Other(d));
  }

  // ---------------------------------------------------------------------
  // plus and the copy-with form of Maps.of
  // ---------------------------------------------------------------------

  /** What `HashSet.add` leaves: the element is appended unless an equal one is there. */
  function HashSetAdd<E(==)>(items: seq<E>, e: E): seq<E>
  {
    if e in items then items else items + [e]
  }

  /**
   * `plus(key, value)`: each class grows into the next one up, without
   * looking for an existing entry with that key; `MapN` copies its entries
   * into a hash set, adds the new one, and wraps the result with `ofAll`.
   */
  function Plus<K(==), V(==)>(m: JMap<K, V>, key: K, value: V): JMap<K, V>
  {
    match m
    case Map0 => Map1(key, value)
    case Map1(k, v) => Map2(k, v, key, value)
    case Map2(k1, v1, k2, v2) => Map3(k1, v1, k2, v2, key, value)
    case Map3(k1, v1, k2, v2, k3, v3) =>
      MapN(EntrySetOf([MLEntry(k1, v1), MLEntry(k2, v2), MLEntry(k3, v3), MLEntry(key, value)]))
    case MapN(entrySet) =>
      var copy := Dedup(Iteration(entrySet), |Iteration(entrySet)|);
      MapN(OfAll(Other(HashSetAdd(copy, MLEntry(key, value)))))
  }

  /** `of(map, k, v)` on one of this library's maps: `plus`. */
  function CopyWith<K(==), V(==)>(m: JMap<K, V>, key: K, value: V): JMap<K, V>
  {
    Plus(m, key, value)
  }

  /** The classes grow one step at a time and stay at `MapN` from four entries on. */
  lemma PlusGrows<K, V>(m: JMap<K, V>, key: K, value: V)
    ensures m.Map0? ==> Plus(m, key, value).Map1?
    ensures m.Map1? ==> Plus(m, key, value).Map2?
    ensures m.Map2? ==> Plus(m, key, value).Map3?
    ensures m.Map3? || m.MapN? ==> Plus(m, key, value).MapN?
  {
  }

  /** `plus` keeps every entry and adds the new one, so the new key is contained. */
  lemma PlusMembers<K, V>(m: JMap<K, V>, key: K, value: V)
    ensures Members(Entries(Plus(m, key, value))) == Members(Entries(m)) + {MLEntry(key, value)}
    ensures ContainsKey(Plus(m, key, value), key)
  {
    match m {
      case Map3(_, _, _, _, _, _) => PlusMembersMap3(m, key, value);
      case MapN(_) => PlusMembersMapN(m, key, value);
      case _ =>
    }
    assert MLEntry(key, value) in Members(Entries(Plus(m, key, value)));
    ContainsMeaning(Plus(m, key, value), key, value);
  }

  /** `plus` on three entries: the four go into a set. */
  lemma PlusMembersMap3<K, V>(m: JMap<K, V>, key: K, value: V)
    requires m.Map3?
    ensures Members(Entries(Plus(m, key, value))) == Members(Entries(m)) + {MLEntry(key, value)}
  {
    var a, b, c, e := MLEntry(m.k1, m.v1), MLEntry(m.k2, m.v2), MLEntry(m.k3, m.v3), MLEntry(key, value);
    var xs := [a, b, c, e];
    assert Members(Entries(m)) == {a, b, c} by {
      assert Entries(m) == Of3(a, b, c);
    }
    assert Members(Entries(Plus(m, key, value))) == ElemSet(xs) by {
      assert Entries(Plus(m, key, value)) == SetN(Dedup(xs, 4));
      assert xs[..4] == xs;
    }
    assert ElemSet(xs) == {a, b, c, e};
  }

  /** `plus` on a larger map: the copied entries and the new one. */
  lemma PlusMembersMapN<K, V>(m: JMap<K, V>, key: K, value: V)
    requires m.MapN?
    ensures Members(Entries(Plus(m, key, value))) == Members(Entries(m)) + {MLEntry(key, value)}
  {
    var e := MLEntry(key, value);
    var its := Iteration(m.entrySet);
    var copy := Dedup(its, |its|);
    assert its[..|its|] == its;
    MembersAreIterated(m.entrySet);
    var added := HashSetAdd(copy, e);
    assert ElemSet(added) == ElemSet(copy) + {e};
    OfAllMeaning(Other(added));
  }

  /** With no check for repeated keys, `plus` on a key already present leaves `get` answering the old value. */
  lemma PlusDoesNotReplace<K, V>(k: K, v: V, newValue: V)
    requires v != newValue
    ensures Get(Plus(Map1(k, v), k, newValue), k) == Some(v)
    ensures MapSize(Plus(Map1(k, v), k, newValue)) == 2
  {
  }

  /** `MapN.plus` answers with a new map; the map it was called on is a value and keeps its entries. */
  lemma PlusLeavesOriginal<K, V>(entrySet: JSet<Entry<K, V>>, key: K, value: V)
    ensures var m := MapN(entrySet);
            Plus(m, key, value) != m || MLEntry(key, value) in Members(entrySet)
  {
    PlusMembers(MapN(entrySet), key, value);
  }

  // ---------------------------------------------------------------------
  // The mutators of MLImmutableMap
  // ---------------------------------------------------------------------

  /** The `Map` operations that would change a map in place. */
  datatype Mutator<K, V> =
    | Put(key: K, value: V)
    | PutIfAbsent(key: K, value: V)
    | Replace(key: K, value: V)
    | ReplaceIfEqual(key: K, oldValue: V, newValue: V)
    | ComputeIfAbsent(key: K)
    | ComputeIfPresent(key: K)
    | Compute(key: K)
    | RemoveKey(key: K)
    | RemoveIfEqual(key: K, value: V)
    | Clear

  /** Every mutator throws: the map it was called on is never changed. */
  function Mutate<K, V>(m: JMap<K, V>, op: Mutator<K, V>): (r: Result<JMap<K, V>>)
    ensures r == Fail(UnsupportedOperation)
  {
    Fail(UnsupportedOperation)
  }

  // ---------------------------------------------------------------------
  // equals
  // ---------------------------------------------------------------------

  /** `equals`: the entry sets are equal as sets. */
  predicate MapEquals<K(==), V(==)>(m: JMap<K, V>, o: JMap<K, V>)
  {
    JavaEquals(Entries(m), Entries(o))
  }

  /** Maps with valid entry sets are equal exactly when they hold the same entries, whatever their classes. */
  lemma MapEqualsIffSameEntries<K, V>(m: JMap<K, V>, o: JMap<K, V>)
    requires Valid(Entries(m)) && Valid(Entries(o))
    ensures MapEquals(m, o) <==> Members(Entries(m)) == Members(Entries(o))
  {
    JavaEqualsIffSameMembers(Entries(m), Entries(o));
  }
}
