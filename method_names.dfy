/**
 * `MethodNames`: the names of the accessor methods of a generated
 * configuration class, chosen so that they do not clash with a no-argument
 * method the DTO already has, and the names of the generated
 * `deserialize` methods.
 *
 * The program element model is `ElementsFinder.getAllMethods`, given to
 * the class as the function `allMethods`.
 */
module MethodNames {
  import opened Sequences
  import opened Results
  import opened Strings
  import opened ClassNames

  /** An `ExecutableElement`: a method's simple name and how many parameters it takes. */
  datatype Method = Method(simpleName: string, parameterCount: nat)

  /** A `VariableElement` for a DTO field; `id` tells apart two fields that look alike. */
  datatype Field = Field(id: nat, simpleName: string, enclosingElement: TypeElement)

  /** `Property.PropertySource`: a property is read from a field or from an abstract method. */
  datatype PropertySource = FieldSource(field: Field) | MethodSource(executable: Method)

  /** The names of the methods that take no argument. */
  function NoArgNames(methods: seq<Method>): set<string>
  {
    set i | 0 <= i < |methods| && methods[i].parameterCount == 0 :: methods[i].simpleName
  }

  /** A method with parameters never adds a clash; one without always does. */
  lemma OnlyNoArgMethodsClash(methods: seq<Method>, m: Method)
    ensures m.parameterCount > 0 ==> NoArgNames(methods + [m]) == NoArgNames(methods)
    ensures m.parameterCount == 0 ==> NoArgNames(methods + [m]) == NoArgNames(methods) + {m.simpleName}
  {
    var ms := methods + [m];
    assert ms[|methods|] == m;
    forall i | 0 <= i < |methods| ensures ms[i] == methods[i] { }
    if m.parameterCount > 0 {
      forall n | n in NoArgNames(ms) ensures n in NoArgNames(methods) {
        var i :| 0 <= i < |ms| && ms[i].parameterCount == 0 && ms[i].simpleName == n;
        assert i < |methods|;
      }
    } else {
      forall n | n in NoArgNames(ms) ensures n in NoArgNames(methods) + {m.simpleName} {
        var i :| 0 <= i < |ms| && ms[i].parameterCount == 0 && ms[i].simpleName == n;
        if i < |methods| {
          assert methods[i].simpleName == n;
        }
      }
    }
  }

  /**
   * `r` is `base` followed by the fewest underscores that make it a name no
   * no-argument method has: every shorter candidate is taken.
   */
  ghost predicate FewestUnderscores(base: string, taken: set<string>, r: string)
  {
    exists k: nat :: r == base + Repeat('_', k) && r !in taken &&
      forall j: nat :: j < k ==> base + Repeat('_', j) in taken
  }

  /** There is only one such name. */
  lemma FewestUnderscoresUnique(base: string, taken: set<string>, r1: string, r2: string)
    requires FewestUnderscores(base, taken, r1) && FewestUnderscores(base, taken, r2)
    ensures r1 == r2
  {
    var k1: nat :| r1 == base + Repeat('_', k1) && r1 !in taken && forall j: nat :: j < k1 ==> base + Repeat('_', j) in taken;
    var k2: nat :| r2 == base + Repeat('_', k2) && r2 !in taken && forall j: nat :: j < k2 ==> base + Repeat('_', j) in taken;
    assert k1 == k2;
  }

  /** A field name that clashes with nothing is kept as it is; one that clashes is never kept. */
  lemma NameKeptUnlessTaken(base: string, taken: set<string>, r: string)
    ensures base !in taken ==> FewestUnderscores(base, taken, base)
    ensures FewestUnderscores(base, taken, r) ==> r !in taken && StartsWith(r, base)
    ensures FewestUnderscores(base, taken, r) && base in taken ==> r != base
  {
    assert base + Repeat('_', 0) == base;
    if FewestUnderscores(base, taken, r) {
      var k: nat :| r == base + Repeat('_', k) && r !in taken && forall j: nat :: j < k ==> base + Repeat('_', j) in taken;
      assert r[..|base|] == base;
    }
  }

  /** The `while` loop of `safeMethodName0`: append `_` for as long as the name is taken. */
  method AppendUnderscores(base: string, taken: set<string>) returns (r: string)
    ensures FewestUnderscores(base, taken, r)
    ensures r !in taken && StartsWith(r, base)
  {
    var name := base;
    ghost var k: nat := 0;
    ghost var remaining := taken;
    assert base + Repeat('_', 0) == base;
    while name in taken
      invariant name == base + Repeat('_', k)
      invariant forall j: nat :: j < k ==> base + Repeat('_', j) in taken
      invariant remaining <= taken
      invariant forall s :: s in taken && s !in remaining ==> |s| < |base| + k
      decreases |remaining|
    {
      assert name in remaining;
      remaining := remaining - {name};
      name := name + "_";
      k := k + 1;
      assert name == base + Repeat('_', k);
    }
    r := name;
    assert r[..|base|] == base;
  }

  class MethodNames {
    /** `elementsFinder.getAllMethods`: every method of a type, inherited ones included. */
    const allMethods: TypeElement -> seq<Method>
    /** `safeNameCache`: the name chosen for each field. */
    var safeNameCache: map<Field, string>
    /** `methodNamesCache`: the no-argument method names each field's name was checked against. */
    var methodNamesCache: map<Field, set<string>>

    /** Every cached name is the fewest-underscores name for its field among the names it was checked against. */
    ghost predicate Valid()
      reads this
    {
      forall f :: f in safeNameCache ==>
        f in methodNamesCache && FewestUnderscores(f.simpleName, methodNamesCache[f], safeNameCache[f])
    }

    constructor(allMethods: TypeElement -> seq<Method>)
      ensures this.allMethods == allMethods
      ensures safeNameCache == map[] && methodNamesCache == map[] && Valid()
    {
      this.allMethods := allMethods;
      safeNameCache := map[];
      methodNamesCache := map[];
    }

    /** `getNoArgMethodNames`: the names of the methods of `enclosingClass` that take no argument. */
    method GetNoArgMethodNames(enclosingClass: TypeElement) returns (names: set<string>)
      ensures names == NoArgNames(allMethods(enclosingClass))
    {
      var methods := allMethods(enclosingClass);
      names := {};
      for i := 0 to |methods|
        invariant names == NoArgNames(methods[..i])
      {
        OnlyNoArgMethodsClash(methods[..i], methods[i]);
        assert methods[..i + 1] == methods[..i] + [methods[i]];
        if methods[i].parameterCount != 0 {
          continue;
        }
        names := names + {methods[i].simpleName};
      }
      assert methods[..|methods|] == methods;
    }

    /**
     * `safeMethodName0`: the method names are looked up in their cache, or
     * computed for `enclosingClass` and cached, and the field's name gets
     * the fewest underscores that avoid them.
     */
    method SafeMethodName0(field: Field, enclosingClass: TypeElement) returns (r: string)
      requires Valid()
      modifies this
      ensures field in old(methodNamesCache) ==> methodNamesCache == old(methodNamesCache)
      ensures field !in old(methodNamesCache) ==>
                methodNamesCache == old(methodNamesCache)[field := NoArgNames(allMethods(enclosingClass))]
      ensures safeNameCache == old(safeNameCache)
      ensures FewestUnderscores(field.simpleName, methodNamesCache[field], r)
      ensures Valid()
    {
      var names;
      if field in methodNamesCache {
        names := methodNamesCache[field];
      } else {
        names := GetNoArgMethodNames(enclosingClass);
        methodNamesCache := methodNamesCache[field := names];
      }
      r := AppendUnderscores(field.simpleName, names);
    }

    /**
     * `safeMethodName(field, enclosingClass)`: a field asked about before
     * gets its cached name back, whatever class is passed; otherwise the
     * name is computed and cached.
     */
    method SafeMethodName(field: Field, enclosingClass: TypeElement) returns (r: string)
      requires Valid()
      modifies this
      ensures field in old(safeNameCache) ==>
                r == old(safeNameCache)[field] && safeNameCache == old(safeNameCache) && methodNamesCache == old(methodNamesCache)
      ensures field !in old(safeNameCache) ==> safeNameCache == old(safeNameCache)[field := r]
      ensures field !in old(safeNameCache) && field in old(methodNamesCache) ==> methodNamesCache == old(methodNamesCache)
      ensures field !in old(safeNameCache) && field !in old(methodNamesCache) ==>
                methodNamesCache == old(methodNamesCache)[field := NoArgNames(allMethods(enclosingClass))]
      ensures field in safeNameCache && safeNameCache[field] == r
      ensures field in methodNamesCache && FewestUnderscores(field.simpleName, methodNamesCache[field], r)
      ensures Valid()
    {
      if field in safeNameCache {
        r := safeNameCache[field];
      } else {
        r := SafeMethodName0(field, enclosingClass);
        safeNameCache := safeNameCache[field := r];
      }
    }

    /** `safeMethodName(property)`: a field is named through the cache, a method keeps its own name. */
    method SafeMethodNameOf(source: PropertySource) returns (r: string)
      requires Valid()
      modifies this
      ensures source.MethodSource? ==>
                r == source.executable.simpleName && safeNameCache == old(safeNameCache) && methodNamesCache == old(methodNamesCache)
      ensures source.FieldSource? ==>
                source.field in safeNameCache && safeNameCache[source.field] == r && source.field in methodNamesCache &&
                FewestUnderscores(source.field.simpleName, methodNamesCache[source.field], r)
      ensures source.FieldSource? && source.field in old(safeNameCache) ==> r == old(safeNameCache)[source.field]
      ensures source.FieldSource? && source.field !in old(safeNameCache) && source.field !in old(methodNamesCache) ==>
                methodNamesCache[source.field] == NoArgNames(allMethods(source.field.enclosingElement))
      ensures Valid()
    {
      match source
      case FieldSource(f) =>
        r := SafeMethodName(f, f.enclosingElement);
      case MethodSource(m) =>
        r := m.simpleName;
    }
  }

  /** Two calls for the same field give the same name, and it avoids the enclosing class's no-argument methods. */
  method RepeatCallsAgree(names: MethodNames, field: Field) returns (first: string, second: string)
    requires names.Valid() && names.safeNameCache == map[] && names.methodNamesCache == map[]
    modifies names
    ensures first == second
    ensures first !in NoArgNames(names.allMethods(field.enclosingElement))
    ensures FewestUnderscores(field.simpleName, NoArgNames(names.allMethods(field.enclosingElement)), first)
  {
    first := names.SafeMethodNameOf(FieldSource(field));
    assert names.methodNamesCache[field] == NoArgNames(names.allMethods(field.enclosingElement));
    second := names.SafeMethodNameOf(FieldSource(field));
    NameKeptUnlessTaken(field.simpleName, NoArgNames(names.allMethods(field.enclosingElement)), first);
  }

  // ---------------------------------------------------------------------
  // getDeserializeMethodName
  // ---------------------------------------------------------------------

  /** `CodeGenNames.Methods.DESERIALIZE_PREFIX`. */
  const DeserializePrefix := "deserialize"

  /** `getDeserializeMethodName(TypeName)`: the prefix and a class's simple name, or the prefix and the type's text. */
  function DeserializeMethodName(n: TypeName): string
  {
    DeserializePrefix + (if n.Named? then n.className.simpleName else TypeNameText(n))
  }

  /**
   * A class's method is named after its simple name alone, so two classes
   * whose simple names agree get the same method whatever their packages and
   * enclosing classes, and classes whose simple names differ get different
   * methods.
   */
  lemma DeserializeNameOfClass(c1: ClassName, c2: ClassName)
    ensures StartsWith(DeserializeMethodName(Named(c1)), DeserializePrefix)
    ensures DeserializeMethodName(Named(c1))[|DeserializePrefix|..] == c1.simpleName
    ensures DeserializeMethodName(Named(c1)) == DeserializeMethodName(Named(c2)) <==> c1.simpleName == c2.simpleName
  {
    var n1 := DeserializeMethodName(Named(c1));
    var n2 := DeserializeMethodName(Named(c2));
    assert n1[..|DeserializePrefix|] == DeserializePrefix;
    assert n1[|DeserializePrefix|..] == c1.simpleName;
    assert n2[|DeserializePrefix|..] == c2.simpleName;
  }

  /** Any other type is named by its whole text after the prefix. */
  lemma DeserializeNameOfOther(n: TypeName)
    requires !n.Named?
    ensures StartsWith(DeserializeMethodName(n), DeserializePrefix)
    ensures DeserializeMethodName(n)[|DeserializePrefix|..] == TypeNameText(n)
  {
    var r := DeserializeMethodName(n);
    assert r[..|DeserializePrefix|] == DeserializePrefix;
  }
}
