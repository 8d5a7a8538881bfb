/**
 * `DataTreeTransforms`: `loadFrom` turns plain Java objects into a `DataTree`,
 * `toPOJO` turns a `DataTree` back into plain Java objects.
 */
module DataTreeTransforms {
  import opened Results
  import opened DataTrees
  import opened Sequences

  // ---------------------------------------------------------------------
  // LinkedHashMap.put
  // ---------------------------------------------------------------------

  /**
   * `LinkedHashMap.put(k, v)` on a map given by its entries in insertion
   * order: an entry whose key `k` equals (by `eq`) keeps its place and its
   * key and takes the new value; otherwise the entry is appended.
   */
  function Put<K, V>(m: seq<(K, V)>, k: K, v: V, eq: (K, K) -> bool): (r: seq<(K, V)>)
    ensures (forall j :: 0 <= j < |m| ==> !eq(k, m[j].0)) ==> r == m + [(k, v)]
    ensures (exists j :: 0 <= j < |m| && eq(k, m[j].0)) ==> |r| == |m|
  {
    if |m| == 0 then [(k, v)]
    else if eq(k, m[0].0) then [(m[0].0, v)] + m[1..]
    else
      var rest := Put(m[1..], k, v, eq);
      assert (exists j :: 0 <= j < |m| && eq(k, m[j].0)) ==> exists j :: 0 <= j < |m[1..]| && eq(k, m[1..][j].0);
      [m[0]] + rest
  }

  /** Every key of the map answers to `put`: the updated map holds `(k', v)` for a key `k'` equal to `k`. */
  lemma {:induction false} PutStores<K, V>(m: seq<(K, V)>, k: K, v: V, eq: (K, K) -> bool)
    ensures exists j :: (0 <= j < |Put(m, k, v, eq)| && Put(m, k, v, eq)[j].1 == v &&
                         (Put(m, k, v, eq)[j].0 == k || eq(k, Put(m, k, v, eq)[j].0)))
  {
    var r := Put(m, k, v, eq);
    if |m| == 0 {
      assert r[0] == (k, v);
    } else if eq(k, m[0].0) {
      assert r[0] == (m[0].0, v);
    } else {
      PutStores(m[1..], k, v, eq);
      var j :| 0 <= j < |Put(m[1..], k, v, eq)| && Put(m[1..], k, v, eq)[j].1 == v &&
        (Put(m[1..], k, v, eq)[j].0 == k || eq(k, Put(m[1..], k, v, eq)[j].0));
      assert r[j + 1] == Put(m[1..], k, v, eq)[j];
    }
  }

  // ---------------------------------------------------------------------
  // Java equality on the plain objects
  // ---------------------------------------------------------------------

  /**
   * `equals` on the plain objects: `null` equals only `null`; boxed values
   * compare their payloads and never equal a box of another class; lists compare
   * element by element; maps compare ignoring order, as `AbstractMap.equals`
   * does; a wrapped `DataTree` compares as a `DataTree`.
   */
  function ObjEqual(a: Obj, b: Obj): bool
    decreases a, 1
  {
    match a
    case JNull => b.JNull?
    case JDouble(x) => b.JDouble? && b.doubleValue == x
    case JNumber(x) => b.JNumber? && b.longValue == x
    case JString(x) => b.JString? && b.stringValue == x
    case JBoolean(x) => b.JBoolean? && b.boolValue == x
    case JList(xs) =>
      b.JList? && |xs| == |b.items| &&
      forall i :: 0 <= i < |xs| ==> ObjEqual(xs[i], b.items[i])
    case JMap(es) =>
      b.JMap? && |es| == |b.entries| &&
      forall i :: 0 <= i < |es| ==> ObjHasEntry(es[i], b.entries)
    case JTree(t) => b.JTree? && Equal(t, b.tree)
    case JOther(c) => b.JOther? && b.className == c
  }

  predicate ObjHasEntry(e: (Obj, Obj), es: seq<(Obj, Obj)>)
    decreases e, 0
  {
    exists j :: 0 <= j < |es| && ObjEqual(e.0, es[j].0) && ObjEqual(e.1, es[j].1)
  }

  // ---------------------------------------------------------------------
  // loadFrom
  // ---------------------------------------------------------------------

  /**
   * `loadFrom(node)`: `null` becomes `DataTreeNull`, a `DataTree` is returned
   * as it is, a `Double` becomes a float literal, any other `Number` an int
   * literal of its `longValue`, strings and booleans the matching literal; a
   * map is loaded entry by entry (key before value) into a `LinkedHashMap`, a
   * list element by element; anything else raises `IllegalArgumentException`.
   * The first exception raised inside a map or list ends the whole call.
   */
  function Loaded(o: Obj): Result<DataTree>
    decreases o, 1
  {
    match o
    case JNull => Ok(Null)
    case JTree(t) => Ok(t)
    case JDouble(x) => Ok(FloatLit(x))
    case JNumber(x) => Ok(IntLit(x))
    case JString(x) => Ok(StringLit(x))
    case JBoolean(x) => Ok(BoolLit(x))
    case JMap(es) =>
      var r := LoadedEntries(o, |es|);
      if r.Fail? then Fail(r.error) else Ok(Map(r.value))
    case JList(xs) =>
      var r := LoadedItems(o, |xs|);
      if r.Fail? then Fail(r.error) else Ok(Array(r.value))
    case JOther(c) => Fail(IllegalArgument("Unknown type: " + c))
  }

  /** The `LinkedHashMap` after the loop has put the first `n` entries of the map `o`. */
  function LoadedEntries(o: Obj, n: nat): Result<seq<(DataTree, DataTree)>>
    requires o.JMap? && n <= |o.entries|
    decreases o, 0, n
  {
    if n == 0 then Ok([])
    else
      var prev := LoadedEntries(o, n - 1);
      if prev.Fail? then prev
      else
        var k := Loaded(o.entries[n - 1].0);
        if k.Fail? then Fail(k.error)
        else
          var v := Loaded(o.entries[n - 1].1);
          if v.Fail? then Fail(v.error)
          else Ok(Put(prev.value, k.value, v.value, Equal))
  }

  /** The array after the loop has filled its first `n` slots from the list `o`. */
  function LoadedItems(o: Obj, n: nat): (r: Result<seq<DataTree>>)
    requires o.JList? && n <= |o.items|
    ensures r.Ok? ==> |r.value| == n
    decreases o, 0, n
  {
    if n == 0 then Ok([])
    else
      var prev := LoadedItems(o, n - 1);
      if prev.Fail? then prev
      else
        var x := Loaded(o.items[n - 1]);
        if x.Fail? then Fail(x.error) else Ok(prev.value + [x.value])
  }

  /** Once an entry has failed, the later entries are never loaded: the failure is the loop's outcome. */
  lemma {:induction false} EntriesFailureSticks(o: Obj, n: nat, m: nat)
    requires o.JMap? && n <= m <= |o.entries|
    requires LoadedEntries(o, n).Fail?
    ensures LoadedEntries(o, m) == LoadedEntries(o, n)
    decreases m - n
  {
    if n < m {
      EntriesFailureSticks(o, n, m - 1);
    }
  }

  lemma {:induction false} ItemsFailureSticks(o: Obj, n: nat, m: nat)
    requires o.JList? && n <= m <= |o.items|
    requires LoadedItems(o, n).Fail?
    ensures LoadedItems(o, m) == LoadedItems(o, n)
    decreases m - n
  {
    if n < m {
      ItemsFailureSticks(o, n, m - 1);
    }
  }

  /** `loadFrom`, recursive as in the source, with its loops over map entries and list elements. */
  method LoadFrom(o: Obj) returns (r: Result<DataTree>)
    ensures r == Loaded(o)
    decreases o, 1
  {
    match o
    case JNull => r := Ok(Null);
    case JTree(t) => r := Ok(t);
    case JDouble(x) => r := Ok(FloatLit(x));
    case JNumber(x) => r := Ok(IntLit(x));
    case JString(x) => r := Ok(StringLit(x));
    case JBoolean(x) => r := Ok(BoolLit(x));
    case JMap(es) =>
      var entries := LoadEntries(o);
      r := if entries.Fail? then Fail(entries.error) else Ok(Map(entries.value));
    case JList(xs) =>
      var items := LoadItems(o);
      r := if items.Fail? then Fail(items.error) else Ok(Array(items.value));
    case JOther(c) => r := Fail(IllegalArgument("Unknown type: " + c));
  }

  /** The loop of `loadFrom` over a map's entries, each key and value loaded and `put` in order. */
  method LoadEntries(o: Obj) returns (r: Result<seq<(DataTree, DataTree)>>)
    requires o.JMap?
    ensures r == LoadedEntries(o, |o.entries|)
    decreases o, 0
  {
    var es := o.entries;
    var entries: seq<(DataTree, DataTree)> := [];
    var i := 0;
    while i < |es|
      invariant 0 <= i <= |es|
      invariant LoadedEntries(o, i) == Ok(entries)
    {
      var k := LoadFrom(es[i].0);
      if k.Fail? {
        EntriesFailureSticks(o, i + 1, |es|);
        return Fail(k.error);
      }
      var v := LoadFrom(es[i].1);
      if v.Fail? {
        EntriesFailureSticks(o, i + 1, |es|);
        return Fail(v.error);
      }
      entries := Put(entries, k.value, v.value, Equal);
      i := i + 1;
    }
    r := Ok(entries);
  }

  /** The loop of `loadFrom` over a list's elements, each loaded into an array of the list's size. */
  method LoadItems(o: Obj) returns (r: Result<seq<DataTree>>)
    requires o.JList?
    ensures r == LoadedItems(o, |o.items|)
    decreases o, 0
  {
    var xs := o.items;
    var treeList := new DataTree[|xs|](_ => Null);
    var i := 0;
    while i < |xs|
      invariant 0 <= i <= |xs|
      invariant LoadedItems(o, i) == Ok(treeList[..i])
    {
      var x := LoadFrom(xs[i]);
      if x.Fail? {
        ItemsFailureSticks(o, i + 1, |xs|);
        return Fail(x.error);
      }
      treeList[i] := x.value;
      assert treeList[..i + 1] == treeList[..i] + [x.value];
      i := i + 1;
    }
    assert treeList[..] == treeList[..i];
    r := Ok(treeList[..]);
  }

  // ---------------------------------------------------------------------
  // toPOJO
  // ---------------------------------------------------------------------

  /**
   * A tree that a `DataTree` object can be: the keys of every map inside it
   * are pairwise unequal, as the keys of the `LinkedHashMap` it wraps are.
   */
  predicate WellFormed(t: DataTree)
  {
    match t
    case Array(xs) => forall i :: 0 <= i < |xs| ==> WellFormed(xs[i])
    case Map(es) =>
      (forall i :: 0 <= i < |es| ==> WellFormed(es[i].0) && WellFormed(es[i].1)) &&
      forall i, j :: 0 <= i < j < |es| ==> !Equal(es[j].0, es[i].0)
    case _ => true
  }

  /**
   * `toPOJO(tree)`: `DataTreeNull` becomes `null`, a literal its `value()`, a
   * map a `LinkedHashMap` of the converted entries in the same order, an array
   * a list of the converted elements.
   */
  function PojoOf(t: DataTree): (o: Obj)
    ensures t.Null? <==> o.JNull?
    ensures t.IsLiteral() ==> o == ValueOf(t)
    ensures !o.JTree? && !o.JOther?
    ensures t.Array? <==> o.JList?
    ensures t.Array? ==> |o.items| == |t.elements|
    ensures t.Map? <==> o.JMap?
    ensures t.Map? ==> |o.entries| == |t.entries|
  {
    match t
    case Null => JNull
    case IntLit(_) => ValueOf(t)
    case FloatLit(_) => ValueOf(t)
    case StringLit(_) => ValueOf(t)
    case BoolLit(_) => ValueOf(t)
    case Map(es) => JMap(seq(|es|, i requires 0 <= i < |es| => (PojoOf(es[i].0), PojoOf(es[i].1))))
    case Array(xs) => JList(seq(|xs|, i requires 0 <= i < |xs| => PojoOf(xs[i])))
  }

  /** Two trees become equal plain objects exactly when they are equal trees. */
  lemma {:induction false} PojoEqualIff(a: DataTree, b: DataTree)
    ensures ObjEqual(PojoOf(a), PojoOf(b)) <==> Equal(a, b)
  {
    match a
    case Array(xs) =>
      if b.Array? && |xs| == |b.elements| {
        var ys, pxs, pys := b.elements, PojoOf(a).items, PojoOf(b).items;
        forall i | 0 <= i < |xs|
          ensures ObjEqual(pxs[i], pys[i]) <==> Equal(xs[i], ys[i])
        {
          PojoEqualIff(xs[i], ys[i]);
        }
        assert ObjEqual(PojoOf(a), PojoOf(b)) <==> forall i :: 0 <= i < |xs| ==> ObjEqual(pxs[i], pys[i]);
      }
    case Map(es) =>
      if b.Map? && |es| == |b.entries| {
        var fs := b.entries;
        var pes, pfs := PojoOf(a).entries, PojoOf(b).entries;
        forall i | 0 <= i < |es|
          ensures ObjHasEntry(pes[i], pfs) <==> HasEntry(es[i], fs)
        {
          forall j | 0 <= j < |fs|
            ensures (ObjEqual(pes[i].0, pfs[j].0) && ObjEqual(pes[i].1, pfs[j].1)) <==>
              (Equal(es[i].0, fs[j].0) && Equal(es[i].1, fs[j].1))
          {
            PojoEqualIff(es[i].0, fs[j].0);
            PojoEqualIff(es[i].1, fs[j].1);
          }
        }
      }
    case _ =>
  }

  /** `toPOJO`, recursive as in the source, with its `forEach` over the entries and its loop over the elements. */
  method ToPojo(tree: DataTree) returns (o: Obj)
    requires WellFormed(tree)
    ensures o == PojoOf(tree)
    decreases tree
  {
    match tree
    case Null => o := JNull;
    case IntLit(_) => o := ValueOf(tree);
    case FloatLit(_) => o := ValueOf(tree);
    case StringLit(_) => o := ValueOf(tree);
    case BoolLit(_) => o := ValueOf(tree);
    case Map(es) =>
      var pojoMap: seq<(Obj, Obj)> := [];
      var i := 0;
      while i < |es|
        invariant 0 <= i <= |es|
        invariant |pojoMap| == i
        invariant forall j :: 0 <= j < i ==> pojoMap[j] == (PojoOf(es[j].0), PojoOf(es[j].1))
      {
        var key := ToPojo(es[i].0);
        var value := ToPojo(es[i].1);
        forall j | 0 <= j < i
          ensures !ObjEqual(key, pojoMap[j].0)
        {
          PojoEqualIff(es[i].0, es[j].0);
        }
        pojoMap := Put(pojoMap, key, value, ObjEqual);
        i := i + 1;
      }
      o := JMap(pojoMap);
    case Array(list) =>
      var pojoList: seq<Obj> := [];
      var i := 0;
      while i < |list|
        invariant 0 <= i <= |list|
        invariant |pojoList| == i
        invariant forall j :: 0 <= j < i ==> pojoList[j] == PojoOf(list[j])
      {
        var x := ToPojo(list[i]);
        pojoList := pojoList + [x];
        i := i + 1;
      }
      o := JList(pojoList);
  }

  // ---------------------------------------------------------------------
  // The round trip
  // ---------------------------------------------------------------------

  /** `loadFrom(toPOJO(tree))` gives back exactly `tree`, for every tree a `DataTree` object can be. */
  lemma {:induction false} RoundTrip(t: DataTree)
    requires WellFormed(t)
    ensures Loaded(PojoOf(t)) == Ok(t)
    decreases t, 1
  {
    match t
    case Map(es) =>
      RoundTripEntries(t, |es|);
      assert es[..|es|] == es;
      assert |PojoOf(t).entries| == |es|;
    case Array(xs) =>
      RoundTripItems(t, |xs|);
      assert xs[..|xs|] == xs;
      assert |PojoOf(t).items| == |xs|;
    case _ =>
  }

  lemma {:induction false} RoundTripEntries(t: DataTree, n: nat)
    requires WellFormed(t) && t.Map? && n <= |t.entries|
    ensures LoadedEntries(PojoOf(t), n) == Ok(t.entries[..n])
    decreases t, 0, n
  {
    if n > 0 {
      var es, o := t.entries, PojoOf(t);
      RoundTripEntries(t, n - 1);
      assert o.entries[n - 1] == (PojoOf(es[n - 1].0), PojoOf(es[n - 1].1));
      RoundTrip(es[n - 1].0);
      RoundTrip(es[n - 1].1);
      PutNewKey(t, n);
    }
  }

  /** In a well-formed map every key is new to the entries before it, so `put` appends it. */
  lemma PutNewKey(t: DataTree, n: nat)
    requires WellFormed(t) && t.Map? && 0 < n <= |t.entries|
    ensures Put(t.entries[..n - 1], t.entries[n - 1].0, t.entries[n - 1].1, Equal) == t.entries[..n]
  {
    var es := t.entries;
    var prefix, key, value := es[..n - 1], es[n - 1].0, es[n - 1].1;
    assert forall j :: 0 <= j < |prefix| ==> !Equal(key, prefix[j].0);
    assert Put(prefix, key, value, Equal) == prefix + [(key, value)];
    assert es[n - 1] == (key, value);
    TakeSnoc(es, n - 1);
  }

  lemma {:induction false} RoundTripItems(t: DataTree, n: nat)
    requires WellFormed(t) && t.Array? && n <= |t.elements|
    ensures LoadedItems(PojoOf(t), n) == Ok(t.elements[..n])
    decreases t, 0, n
  {
    if n > 0 {
      var xs := t.elements;
      RoundTripItems(t, n - 1);
      assert PojoOf(t).items[n - 1] == PojoOf(xs[n - 1]);
      RoundTrip(xs[n - 1]);
      TakeSnoc(xs, n - 1);
    }
  }

  /** The round trip up to `equals`, as the source's property test states it. */
  lemma RoundTripEquals(t: DataTree)
    requires WellFormed(t)
    ensures Loaded(PojoOf(t)).Ok? && Equal(Loaded(PojoOf(t)).value, t)
  {
    RoundTrip(t);
    EqualReflexive(t);
  }

  // ---------------------------------------------------------------------
  // Cases of loadFrom
  // ---------------------------------------------------------------------

  /** `loadFrom(null)` is `DataTreeNull`, and a `DataTree` input comes back unchanged. */
  lemma LoadNullAndTree(t: DataTree)
    ensures Loaded(JNull) == Ok(Null)
    ensures Loaded(JTree(t)) == Ok(t)
  {
  }

  /** Scalars become the literal that holds them; `Double` is tested before the other numbers. */
  lemma LoadScalars(d: Double, n: Long, s: string, b: bool)
    ensures Loaded(JDouble(d)) == Ok(FloatLit(d))
    ensures Loaded(JNumber(n)) == Ok(IntLit(n))
    ensures Loaded(JString(s)) == Ok(StringLit(s))
    ensures Loaded(JBoolean(b)) == Ok(BoolLit(b))
  {
  }

  /** An object of an unsupported class raises `IllegalArgumentException` naming the class. */
  lemma LoadUnknownType(c: string)
    ensures Loaded(JOther(c)) == Fail(IllegalArgument("Unknown type: " + c))
  {
  }

  /** An unsupported object anywhere inside a list makes the whole list fail with that class's message. */
  lemma {:induction false} LoadListWithUnknown(xs: seq<Obj>, c: string)
    requires forall i :: 0 <= i < |xs| ==> xs[i].JNumber?
    ensures Loaded(JList(xs + [JOther(c)])) == Fail(IllegalArgument("Unknown type: " + c))
  {
    var o := JList(xs + [JOther(c)]);
    LoadNumbers(o, |xs|);
    assert |o.items| == |xs| + 1 && o.items[|xs|] == JOther(c);
    assert LoadedItems(o, |xs| + 1) == Fail(IllegalArgument("Unknown type: " + c));
  }

  lemma {:induction false} LoadNumbers(o: Obj, n: nat)
    requires o.JList? && n <= |o.items|
    requires forall i :: 0 <= i < n ==> o.items[i].JNumber?
    ensures LoadedItems(o, n).Ok?
  {
    if n > 0 {
      LoadNumbers(o, n - 1);
    }
  }

  /** Two Java keys that load to equal trees collapse into one entry, holding the later value. */
  lemma LoadCollapsesEqualKeys(n: Long, v1: Obj, v2: Obj)
    requires Loaded(v1).Ok? && Loaded(v2).Ok?
    ensures Loaded(JMap([(JNumber(n), v1), (JTree(IntLit(n)), v2)])) == Ok(Map([(IntLit(n), Loaded(v2).value)]))
  {
    var o := JMap([(JNumber(n), v1), (JTree(IntLit(n)), v2)]);
    var first := [(IntLit(n), Loaded(v1).value)];
    assert LoadedEntries(o, 1) == Ok(first);
    assert Equal(IntLit(n), first[0].0);
    assert Put(first, IntLit(n), Loaded(v2).value, Equal) == [(IntLit(n), Loaded(v2).value)];
    assert LoadedEntries(o, 2) == Ok([(IntLit(n), Loaded(v2).value)]);
  }
}
