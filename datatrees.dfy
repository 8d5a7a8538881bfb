/**
 * `DataTree`: the tagged tree that configuration data is read into, and the
 * Java objects it is converted from and to.
 */
module DataTrees {
  import opened Results

  /** A Java `long`. */
  newtype Long = x: int | -0x8000_0000_0000_0000 <= x < 0x8000_0000_0000_0000

  /**
   * A Java `double`, kept opaque: its bit pattern, with all NaNs folded into
   * one, so that two are equal exactly when `Double.compare` returns 0.
   */
  datatype Double = Double(bits: bv64)

  datatype DataTree =
    | Null
    | IntLit(longValue: Long)
    | FloatLit(doubleValue: Double)
    | StringLit(stringValue: string)
    | BoolLit(boolValue: bool)
    | Array(elements: seq<DataTree>)
      /** A `LinkedHashMap`: its entries in insertion order. */
    | Map(entries: seq<(DataTree, DataTree)>)
  {
    predicate IsLiteral() { IntLit? || FloatLit? || StringLit? || BoolLit? }
  }

  /**
   * The Java objects that reach `loadFrom` and leave `toPOJO`: `null`, a
   * `Double`, any other `Number` (by its `longValue`), a `String`, a
   * `Boolean`, a `Map` (entries in iteration order), a `List`, a `DataTree`,
   * or an object of some other class (named by its `Class.toString`).
   */
  datatype Obj =
    | JNull
    | JDouble(doubleValue: Double)
    | JNumber(longValue: Long)
    | JString(stringValue: string)
    | JBoolean(boolValue: bool)
    | JMap(entries: seq<(Obj, Obj)>)
    | JList(items: seq<Obj>)
    | JTree(tree: DataTree)
    | JOther(className: string)

  /**
   * `equals`: `DataTreeNull` equals every `DataTreeNull`; literals compare
   * their payloads; arrays compare element by element (`deepEquals`); maps
   * compare as Java maps, ignoring entry order: equally many entries, and
   * every entry of `a` has an entry of `b` with an equal key and an equal value.
   */
  function Equal(a: DataTree, b: DataTree): bool
    decreases a, 1
  {
    match a
    case Null => b.Null?
    case IntLit(x) => b.IntLit? && b.longValue == x
    case FloatLit(x) => b.FloatLit? && b.doubleValue == x
    case StringLit(x) => b.StringLit? && b.stringValue == x
    case BoolLit(x) => b.BoolLit? && b.boolValue == x
    case Array(xs) =>
      b.Array? && |xs| == |b.elements| &&
      forall i :: 0 <= i < |xs| ==> Equal(xs[i], b.elements[i])
    case Map(es) =>
      b.Map? && |es| == |b.entries| &&
      forall i :: 0 <= i < |es| ==> HasEntry(es[i], b.entries)
  }

  /** `containsKey(e.0)` with an equal value: some entry of `es` equals `e` in key and value. */
  predicate HasEntry(e: (DataTree, DataTree), es: seq<(DataTree, DataTree)>)
    decreases e, 0
  {
    exists j :: 0 <= j < |es| && Equal(e.0, es[j].0) && Equal(e.1, es[j].1)
  }

  /** `value()`: `null` for `DataTreeNull`, the payload of a literal, the children of an array or map. */
  function ValueOf(t: DataTree): (v: Obj)
    ensures t.Null? <==> v.JNull?
  {
    match t
    case Null => JNull
    case IntLit(x) => JNumber(x)
    case FloatLit(x) => JDouble(x)
    case StringLit(x) => JString(x)
    case BoolLit(x) => JBoolean(x)
    case Array(xs) => JList(seq(|xs|, i requires 0 <= i < |xs| => JTree(xs[i])))
    case Map(es) => JMap(seq(|es|, i requires 0 <= i < |es| => (JTree(es[i].0), JTree(es[i].1))))
  }

  /** `LinkedHashMap.get` with a string-literal key: the value stored under `StringLit(key)`. */
  function Lookup(es: seq<(DataTree, DataTree)>, key: string): (r: Option<DataTree>)
    ensures r.None? <==> forall j :: 0 <= j < |es| ==> es[j].0 != StringLit(key)
    ensures r.Some? ==> exists j :: 0 <= j < |es| && es[j] == (StringLit(key), r.value)
  {
    if |es| == 0 then None
    else if es[0].0 == StringLit(key) then Some(es[0].1)
    else
      var r := Lookup(es[1..], key);
      assert r.Some? ==> exists j :: 0 <= j < |es| - 1 && es[1..][j] == (StringLit(key), r.value);
      r
  }

  /** `get(key)`: on a map, the entry whose key is the string literal `key`; on anything else, `null`. */
  function Get(t: DataTree, key: string): (r: Option<DataTree>)
    ensures !t.Map? ==> r.None?
    ensures t.Map? ==> r == Lookup(t.entries, key)
  {
    if t.Map? then Lookup(t.entries, key) else None
  }

  /** `getOrDefault(key, default)`: the stored subtree when there is one, otherwise `default`. */
  function GetOrDefault(t: DataTree, key: string, default: Obj): (r: Obj)
    ensures Get(t, key).Some? ==> r == JTree(Get(t, key).value)
    ensures Get(t, key).None? ==> r == default
    ensures default != JNull ==> r != JNull
  {
    var found := Get(t, key);
    if found.None? then default else JTree(found.value)
  }

  // ---------------------------------------------------------------------
  // Properties
  // ---------------------------------------------------------------------

  /** Only a string-literal key with the same text equals a string literal. */
  lemma StringKeyEquality(s: string, k: DataTree)
    ensures Equal(StringLit(s), k) <==> k == StringLit(s)
  {
  }

  /** All `DataTreeNull` values are equal, to each other only, and their `value()` is `null`. */
  lemma NullEquality(t: DataTree)
    ensures Equal(Null, t) <==> t.Null?
    ensures Equal(t, Null) <==> t.Null?
    ensures ValueOf(Null) == JNull
  {
  }

  /** Two literals are equal exactly when they are the same variant with the same payload. */
  lemma LiteralEquality(a: DataTree, b: DataTree)
    requires a.IsLiteral()
    ensures Equal(a, b) <==> a == b
  {
  }

  /** Every tree equals itself. */
  lemma {:induction false} EqualReflexive(t: DataTree)
    ensures Equal(t, t)
  {
    match t
    case Array(xs) =>
      forall i | 0 <= i < |xs|
        ensures Equal(xs[i], xs[i])
      {
        EqualReflexive(xs[i]);
      }
    case Map(es) =>
      forall i | 0 <= i < |es|
        ensures HasEntry(es[i], es)
      {
        EqualReflexive(es[i].0);
        EqualReflexive(es[i].1);
      }
    case _ =>
  }

  /** A tree that holds no map somewhere inside it. */
  predicate MapFree(t: DataTree)
  {
    match t
    case Map(_) => false
    case Array(xs) => forall i :: 0 <= i < |xs| ==> MapFree(xs[i])
    case _ => true
  }

  /** Without maps, Java equality is exactly structural equality. */
  lemma {:induction false} EqualIsStructuralWithoutMaps(a: DataTree, b: DataTree)
    requires MapFree(a)
    ensures Equal(a, b) <==> a == b
  {
    match a
    case Array(xs) =>
      if Equal(a, b) {
        forall i | 0 <= i < |xs|
          ensures xs[i] == b.elements[i]
        {
          EqualIsStructuralWithoutMaps(xs[i], b.elements[i]);
        }
        assert xs == b.elements;
      }
      if a == b {
        EqualReflexive(a);
      }
    case _ =>
  }

  /** Java map equality ignores entry order: any reordering of a map's entries gives an equal map. */
  lemma MapEqualityIgnoresOrder(es: seq<(DataTree, DataTree)>, others: seq<(DataTree, DataTree)>)
    requires |others| == |es|
    requires forall i :: 0 <= i < |es| ==> es[i] in others
    ensures Equal(Map(es), Map(others))
  {
    forall i | 0 <= i < |es|
      ensures HasEntry(es[i], others)
    {
      var j :| 0 <= j < |others| && others[j] == es[i];
      EqualReflexive(es[i].0);
      EqualReflexive(es[i].1);
      assert Equal(es[i].0, others[j].0) && Equal(es[i].1, others[j].1);
    }
  }

  /** `getOrDefault` on a non-map tree always falls back to the default. */
  lemma GetOnNonMap(t: DataTree, key: string, default: Obj)
    requires !t.Map?
    ensures Get(t, key).None? && GetOrDefault(t, key, default) == default
  {
  }

  /** A map whose only entry for `key` is the last one answers `get(key)` with that entry's value. */
  lemma {:induction false} GetFindsLastEntry(es: seq<(DataTree, DataTree)>, key: string, v: DataTree)
    requires forall j :: 0 <= j < |es| ==> es[j].0 != StringLit(key)
    ensures Get(Map(es + [(StringLit(key), v)]), key) == Some(v)
  {
    if |es| > 0 {
      assert (es + [(StringLit(key), v)])[1..] == es[1..] + [(StringLit(key), v)];
      GetFindsLastEntry(es[1..], key, v);
    }
  }
}
