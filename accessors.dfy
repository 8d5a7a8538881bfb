/**
 * `AccessorGenerator`: the getter of each property, and the `withX`
 * methods, immutable setters that call the all-arguments constructor with
 * one value replaced.
 */
module Accessors {
  import opened Results
  import opened Strings
  import opened ClassNames
  import opened DeserializationPlans
  import opened ConfigAsts
  import opened TypeSpecs
  import opened Sequences

  // ---------------------------------------------------------------------
  // Getters
  // ---------------------------------------------------------------------

  /**
   * `createGetterMethod` and `createGetterMethodOverriding`: a public method
   * named by the property's accessor that returns the field, marked pure; one
   * that implements a DTO method also overrides it.
   */
  function Getter(p: Property): (m: MethodSpec)
    ensures m.name == p.accessor && m.parameters == [] && m.returnType == Some(p.publicType)
    ensures m.statements == ["return " + p.name]
    ensures PureContract in m.annotations
    ensures Override in m.annotations <==> p.fromMethod
  {
    if p.fromMethod then MethodSpec(p.accessor, [Public], [Override, PureContract], Some(p.publicType), [], ["return " + p.name])
    else MethodSpec(p.accessor, [Public], [PureContract], Some(p.publicType), [], ["return " + p.name])
  }

  method CreateGetterMethod(b: TypeSpecBuilder, p: Property)
    modifies b
    ensures b.methods == old(b.methods) + [Getter(p)]
    ensures b.modifiers == old(b.modifiers) && b.superinterfaces == old(b.superinterfaces) && b.superclass == old(b.superclass)
    ensures b.fields == old(b.fields) && b.types == old(b.types)
  {
    var annotations := if p.fromMethod then [Override, PureContract] else [PureContract];
    b.AddMethod(MethodSpec(p.accessor, [Public], annotations, Some(p.publicType), [], ["return " + p.name]));
  }

  // ---------------------------------------------------------------------
  // With-methods
  // ---------------------------------------------------------------------

  /** The argument for `other` in the constructor call of `field`'s with-method: the parameter for `field` itself, the current value otherwise. */
  function WithArgument(field: Property): Property -> string
  {
    (other: Property) => if other.name == field.name then other.name else "this." + other.name
  }

  /** Whether the with-method passes the current parent first: a class that extends another. */
  predicate PassesParent(ast: Ast)
  {
    ast.structure.source == ClassSource && ast.parent.Some?
  }

  /** The arguments of the constructor call, as `joinWith` and the `StringJoiner` put them together. */
  function ConstructorArguments(ast: Ast, field: Property): string
  {
    var own := Joined(Mapped(ast.properties, WithArgument(field)), ", ");
    if PassesParent(ast) then (if own == "" then "this.parent" else "this.parent" + ", " + own)
    else own
  }

  function WithMethodName(field: Property): string
  {
    "with" + Capitalize(field.name)
  }

  function WithMethod(ast: Ast, field: Property): MethodSpec
  {
    MethodSpec(WithMethodName(field), [Public], [], Some(Named(ast.implClass)),
      [ParameterSpec(field.publicType, field.name)],
      ["return new " + CanonicalName(ast.implClass) + "(" + ConstructorArguments(ast, field) + ")"])
  }

  /** The with-methods of a structure: one per property, in order; none for a union. */
  function WithMethods(ast: Ast): (r: seq<MethodSpec>)
    ensures ast.kind == Union ==> r == []
    ensures ast.kind != Union ==> |r| == |ast.properties|
    ensures ast.kind != Union ==>
              forall i :: 0 <= i < |ast.properties| ==>
                (r[i].name == "with" + Capitalize(ast.properties[i].name) &&
                 r[i].parameters == [ParameterSpec(ast.properties[i].publicType, ast.properties[i].name)] &&
                 r[i].returnType == Some(Named(ast.implClass)))
  {
    if ast.kind == Union then []
    else seq(|ast.properties|, i requires 0 <= i < |ast.properties| => WithMethod(ast, ast.properties[i]))
  }

  /** `createWithMethods`: the loop over the properties, each with-method added in turn. */
  method CreateWithMethods(b: TypeSpecBuilder, ast: Ast)
    modifies b
    ensures b.methods == old(b.methods) + WithMethods(ast)
    ensures b.modifiers == old(b.modifiers) && b.superinterfaces == old(b.superinterfaces) && b.superclass == old(b.superclass)
    ensures b.fields == old(b.fields) && b.types == old(b.types)
  {
    var props := ast.properties;
    ghost var before := b.methods;
    for i := 0 to |props|
      invariant b.methods == before + (if ast.kind == Union then [] else WithMethods(ast)[..i])
      invariant b.modifiers == old(b.modifiers) && b.superinterfaces == old(b.superinterfaces) && b.superclass == old(b.superclass)
      invariant b.fields == old(b.fields) && b.types == old(b.types)
    {
      var field := props[i];
      if ast.kind == Union {
        // the method would be abstract, and is dropped
        continue;
      }
      var constructorParams := JoinWith(props, WithArgument(field), ", ");
      if ast.structure.source == ClassSource && ast.parent.Some? {
        var joined := "this.parent";
        if constructorParams != "" {
          joined := joined + ", " + constructorParams;
        }
        constructorParams := joined;
      }
      b.AddMethod(MethodSpec("with" + Capitalize(field.name), [Public], [], Some(Named(ast.implClass)),
        [ParameterSpec(field.publicType, field.name)],
        ["return new " + CanonicalName(ast.implClass) + "(" + constructorParams + ")"]));
      TakeSnoc(WithMethods(ast), i);
      AppendAssoc(before, WithMethods(ast)[..i], [WithMethods(ast)[i]]);
    }
    TakeAll(WithMethods(ast));
  }

  /**
   * The arguments of a with-method's constructor call, one by one: the
   * current parent first when there is one, then for every property in
   * order the new value for the property being replaced and the current
   * value for every other.
   */
  function WithArguments(ast: Ast, field: Property): (r: seq<string>)
    ensures |r| == (if PassesParent(ast) then 1 else 0) + |ast.properties|
    ensures PassesParent(ast) ==> r[0] == "this.parent"
    ensures var off := if PassesParent(ast) then 1 else 0;
            forall k :: 0 <= k < |ast.properties| ==>
              r[off + k] == (if ast.properties[k].name == field.name then field.name else "this." + ast.properties[k].name)
  {
    (if PassesParent(ast) then ["this.parent"] else []) + Mapped(ast.properties, WithArgument(field))
  }

  /** A part with some text in it leaves some text in the join. */
  lemma {:induction false} JoinedNonEmpty(parts: seq<string>, sep: string, k: nat)
    requires k < |parts| && parts[k] != ""
    ensures Joined(parts, sep) != ""
  {
    if |parts| > 1 {
      if k == 0 {
        assert |Joined(parts, sep)| >= |parts[0]|;
      } else {
        JoinedNonEmpty(parts[1..], sep, k - 1);
        assert |Joined(parts, sep)| >= |Joined(parts[1..], sep)|;
      }
    }
  }

  /**
   * The text of the call is those arguments joined by ", ". This needs the
   * replaced property to be one of the structure's and to have a name: an
   * empty text from `joinWith` would otherwise drop the separator.
   */
  lemma WithArgumentsJoined(ast: Ast, field: Property)
    requires field in ast.properties && field.name != ""
    ensures ConstructorArguments(ast, field) == Joined(WithArguments(ast, field), ", ")
  {
    var own := Mapped(ast.properties, WithArgument(field));
    var parent := "this.parent";
    if PassesParent(ast) {
      var k :| 0 <= k < |ast.properties| && ast.properties[k] == field;
      JoinedNonEmpty(own, ", ", k);
      JoinedAppend([parent], own, ", ");
      assert Joined([parent], ", ") == parent;
      assert WithArguments(ast, field) == [parent] + own;
    } else {
      assert WithArguments(ast, field) == own;
    }
  }
}
