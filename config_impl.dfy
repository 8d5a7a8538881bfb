/**
 * `ConfigImplGenerator`: the generated implementation class of a
 * configuration, filled into a `TypeSpec.Builder` step by step: its
 * modifiers, the `CONFIG` field, its supertypes, the default-method proxy of
 * an interface, one field and getter per property, the parent field, the
 * with-methods, the all-arguments constructor, `toString` and the classes
 * of the nested structures.
 *
 * A class DTO that extends another takes an instance of the parent's
 * implementation as its first constructor argument, keeps it in a `parent`
 * field, and passes the parent's values up with
 * `super(parent.a(), parent.b(), ...)`, preceded by `parent` itself when the
 * parent extends a third class.
 */
module ConfigImpls {
  import opened Results
  import opened Strings
  import opened ClassNames
  import opened MethodNames
  import opened DeserializationPlans
  import opened ConfigAsts
  import opened TypeSpecs
  import opened Accessors
  import opened ToStrings
  import DeserializerChains
  import opened Sequences

  /** `ConfigNameCache.lookupAST`: the structure generated for a class, when there is one. */
  type Lookup = ClassName -> Option<Ast>

  /** `me.bristermitten.mittenlib.config.Configuration`. */
  const ConfigurationClass := ClassName("me.bristermitten.mittenlib.config", [], "Configuration")

  // ---------------------------------------------------------------------
  // Modifiers, the CONFIG field and the supertypes
  // ---------------------------------------------------------------------

  /** Public always; abstract for a union (`makeAbstractIfUnion`); static when nested (`addNestedClassModifiers`). */
  function ImplModifiers(ast: Ast): (r: seq<Modifier>)
    ensures Public in r
    ensures Abstract in r <==> ast.kind == Union
    ensures Static in r <==> ast.structure.enclosedIn.Some?
    ensures Private !in r && Final !in r
  {
    [Public] + (if ast.kind == Union then [Abstract] else []) + (if ast.structure.enclosedIn.Some? then [Static] else [])
  }

  /**
   * `addSourceElement`: with a `@Source` file, a public static final
   * `Configuration<Public> CONFIG` built from the file name, the public
   * class, and the implementation's deserialize method, with its serialize
   * method only when serialization is supported.
   */
  function ConfigFields(ast: Ast): (r: seq<FieldSpec>)
    ensures |r| <= 1 && (|r| == 1 <==> ast.settings.source.Some?)
    ensures |r| == 1 ==>
              r[0].name == "CONFIG" && r[0].modifiers == [Public, Static, Final] &&
              r[0].fieldType == Parameterized(ConfigurationClass, [Named(PublicClassName(ast.structure))]) &&
              r[0].initializer.Some? &&
              r[0].initializer.value.sourceFile == ast.settings.source.value &&
              r[0].initializer.value.deserializeMethod == DeserializeMethodName(Named(ast.implClass)) &&
              (r[0].initializer.value.serializeMethod.Some? <==> ast.serialization.supported)
  {
    match ast.settings.source
    case None => []
    case Some(file) =>
      var publicClass := PublicClassName(ast.structure);
      var serialize := if ast.serialization.supported then Some(ast.serialization.methodName) else None;
      [FieldSpec(Parameterized(ConfigurationClass, [Named(publicClass)]), "CONFIG", [Public, Static, Final],
        Some(ConfigurationInit(file, publicClass, ast.implClass, DeserializeMethodName(Named(ast.implClass)), serialize)))]
  }

  /** `addInheritance`: an interface DTO is implemented. */
  function Superinterfaces(ast: Ast): (r: seq<ClassName>)
    ensures r == [] || r == [ast.structure.name]
    ensures r != [] <==> ast.structure.source == InterfaceSource
  {
    if ast.structure.source == InterfaceSource then [ast.structure.name] else []
  }

  /** `addInheritance`: a class DTO's parent, when a structure is known for it, is extended through its implementation. */
  function Superclass(ast: Ast, lookup: Lookup): (r: Option<ClassName>)
    ensures r.Some? <==> SuperClassOf(ast).Some? && lookup(SuperClassOf(ast).value).Some?
    ensures r.Some? ==> r.value == lookup(SuperClassOf(ast).value).value.implClass
  {
    match SuperClassOf(ast)
    case None => None
    case Some(p) => match lookup(p) case None => None case Some(pc) => Some(pc.implClass)
  }

  // ---------------------------------------------------------------------
  // The default-method proxy
  // ---------------------------------------------------------------------

  /** The body of a proxy method: `defaultValueProxyException(Concrete.class, "name")` is thrown. */
  function ProxyStatement(concrete: ClassName, name: string): string
  {
    "throw " + CanonicalName(DeserializerChains.ErrorsClass) + ".defaultValueProxyException(" +
      CanonicalName(concrete) + ".class, " + ToStrings.Quote + name + ToStrings.Quote + ")"
  }

  function ProxyMethod(p: Property, concrete: ClassName): MethodSpec
  {
    MethodSpec(p.name, [Public], [Override], Some(p.publicType), [], [ProxyStatement(concrete, p.name)])
  }

  /** The proxy methods of the properties without a default, in order. */
  function ProxyMethods(props: seq<Property>, concrete: ClassName): (r: seq<MethodSpec>)
    ensures |r| <= |props|
  {
    if |props| == 0 then []
    else
      ProxyMethods(props[..|props| - 1], concrete) +
      (if props[|props| - 1].hasDefault then [] else [ProxyMethod(props[|props| - 1], concrete)])
  }

  /** The proxy overrides exactly the properties without a default. */
  lemma {:induction false} ProxyMethodsMeaning(props: seq<Property>, concrete: ClassName)
    ensures forall m :: m in ProxyMethods(props, concrete) ==>
              exists p :: p in props && !p.hasDefault && m == ProxyMethod(p, concrete)
    ensures forall p :: p in props && !p.hasDefault ==> ProxyMethod(p, concrete) in ProxyMethods(props, concrete)
  {
    if |props| > 0 {
      var init := props[..|props| - 1];
      var last := props[|props| - 1];
      ProxyMethodsMeaning(init, concrete);
      assert props == init + [last];
      forall m | m in ProxyMethods(props, concrete)
        ensures exists p :: p in props && !p.hasDefault && m == ProxyMethod(p, concrete)
      {
        if m in ProxyMethods(init, concrete) {
          var p :| p in init && !p.hasDefault && m == ProxyMethod(p, concrete);
          assert p in props;
        } else {
          assert m == ProxyMethod(last, concrete);
        }
      }
    }
  }

  /** The proxy's name: `<Simple>DefaultMethodAccess` nested in the concrete class. */
  function ProxyName(ast: Ast): ClassName
  {
    NestedClass(ConcreteClassName(ast.structure), ast.structure.name.simpleName + "DefaultMethodAccess")
  }

  /** Whether the proxy is written: an interface with a property that has no default. */
  predicate HasProxy(ast: Ast)
  {
    ast.structure.source == InterfaceSource && |ProxyMethods(ast.properties, ConcreteClassName(ast.structure))| > 0
  }

  /** `addInnerDefaultMethodImpl`: the private static proxy class implementing the DTO interface, when it is written. */
  function ProxyTypes(ast: Ast): (r: seq<TypeSpec>)
    ensures |r| <= 1 && (|r| == 1 <==> HasProxy(ast))
  {
    if HasProxy(ast) then
      [TypeSpec(ProxyName(ast), [Private, Static], [ast.structure.name], None, [],
        ProxyMethods(ast.properties, ConcreteClassName(ast.structure)), [])]
    else []
  }

  /** The proxy is written only for an interface, exactly when one of its properties has no default. */
  lemma ProxyWrittenIff(ast: Ast)
    ensures HasProxy(ast) <==> ast.structure.source == InterfaceSource && exists p :: p in ast.properties && !p.hasDefault
  {
    var concrete := ConcreteClassName(ast.structure);
    var methods := ProxyMethods(ast.properties, concrete);
    ProxyMethodsMeaning(ast.properties, concrete);
    if exists p :: p in ast.properties && !p.hasDefault {
      var p :| p in ast.properties && !p.hasDefault;
      assert ProxyMethod(p, concrete) in methods;
    }
    if |methods| > 0 {
      assert methods[0] in methods;
    }
  }

  /**
   * The proxy overrides exactly the properties without a default, each by
   * throwing the default-value proxy exception for the concrete class.
   */
  lemma ProxyOverrides(ast: Ast)
    requires HasProxy(ast)
    ensures var concrete := ConcreteClassName(ast.structure);
            var methods := ProxyTypes(ast)[0].methods;
            (forall p :: p in ast.properties && !p.hasDefault ==>
               exists m :: m in methods && m.name == p.name && m.statements == [ProxyStatement(concrete, p.name)]) &&
            (forall m :: m in methods ==> exists p :: p in ast.properties && !p.hasDefault && m.name == p.name)
  {
    var concrete := ConcreteClassName(ast.structure);
    var methods := ProxyMethods(ast.properties, concrete);
    assert ProxyTypes(ast)[0].methods == methods;
    forall p | p in ast.properties && !p.hasDefault
      ensures exists m :: m in methods && m.name == p.name && m.statements == [ProxyStatement(concrete, p.name)]
    {
      ProxyMethodsMeaning(ast.properties, concrete);
      assert ProxyMethod(p, concrete) in methods;
    }
    forall m | m in methods
      ensures exists p :: p in ast.properties && !p.hasDefault && m.name == p.name
    {
      ProxyMethodNamed(ast.properties, concrete, m);
    }
  }

  /** Each proxy method is named after a property without a default. */
  lemma ProxyMethodNamed(props: seq<Property>, concrete: ClassName, m: MethodSpec)
    requires m in ProxyMethods(props, concrete)
    ensures exists p :: p in props && !p.hasDefault && m.name == p.name
  {
    ProxyMethodsMeaning(props, concrete);
    var p :| p in props && !p.hasDefault && m == ProxyMethod(p, concrete);
    assert m.name == p.name;
  }

  // ---------------------------------------------------------------------
  // Properties, the parent and the constructor
  // ---------------------------------------------------------------------

  /** `addProperty`: a private final field of the property's public type. */
  function PropertyField(p: Property): FieldSpec
  {
    FieldSpec(p.publicType, p.name, [Final, Private], None)
  }

  function PropertyFields(props: seq<Property>): (r: seq<FieldSpec>)
    ensures |r| == |props| && forall i :: 0 <= i < |props| ==> r[i] == PropertyField(props[i])
  {
    seq(|props|, i requires 0 <= i < |props| => PropertyField(props[i]))
  }

  function Getters(props: seq<Property>): (r: seq<MethodSpec>)
    ensures |r| == |props| && forall i :: 0 <= i < |props| ==> r[i] == Getter(props[i])
  {
    seq(|props|, i requires 0 <= i < |props| => Getter(props[i]))
  }

  function ParentMissingMessage(parent: ClassName): string
  {
    "could not determine a config for parent class " + CanonicalName(parent)
  }

  /**
   * The parent's structure, looked up as `addSuperClassField` and
   * `addSuperClassParameter` do: none without a parent, and an
   * `IllegalStateException` when the parent has no known structure.
   */
  function ResolvedParent(ast: Ast, lookup: Lookup): (r: Result<Option<Ast>>)
    ensures r.Fail? <==> SuperClassOf(ast).Some? && lookup(SuperClassOf(ast).value).None?
    ensures r.Fail? ==> r.error == IllegalState(ParentMissingMessage(SuperClassOf(ast).value))
    ensures r.Ok? ==> (r.value.Some? <==> SuperClassOf(ast).Some?) &&
                      (r.value.Some? ==> r.value == lookup(SuperClassOf(ast).value))
  {
    match SuperClassOf(ast)
    case None => Ok(None)
    case Some(p) =>
      match lookup(p)
      case None => Fail(IllegalState(ParentMissingMessage(p)))
      case Some(pc) => Ok(Some(pc))
  }

  /** `addSuperClassField`: a private final `parent` field of the parent's implementation type, when there is a parent. */
  function ParentFields(resolved: Option<Ast>): (r: seq<FieldSpec>)
    ensures |r| <= 1 && (|r| == 1 <==> resolved.Some?)
    ensures |r| == 1 ==> r[0] == FieldSpec(Named(resolved.value.implClass), "parent", [Private, Final], None)
  {
    match resolved
    case None => []
    case Some(pc) => [FieldSpec(Named(pc.implClass), "parent", [Private, Final], None)]
  }

  /** `parentName.accessor()` for each of the parent's properties. */
  function AccessorCalls(props: seq<Property>, parameter: string): (r: seq<string>)
    ensures |r| == |props| && forall i :: 0 <= i < |props| ==> r[i] == parameter + "." + props[i].accessor + "()"
  {
    seq(|props|, i requires 0 <= i < |props| => parameter + "." + props[i].accessor + "()")
  }

  /**
   * `buildSuperConstructorParams`: the parent's values read through its
   * accessors, in order, preceded by the parameter itself when the parent
   * extends another class.
   */
  function SuperConstructorParams(parentConfig: Ast, parameter: string): (r: seq<string>)
    ensures |r| == (if SuperClassOf(parentConfig).Some? then 1 else 0) + |parentConfig.properties|
    ensures SuperClassOf(parentConfig).Some? ==> r[0] == parameter
    ensures var off := if SuperClassOf(parentConfig).Some? then 1 else 0;
            forall i :: 0 <= i < |parentConfig.properties| ==>
              r[off + i] == parameter + "." + parentConfig.properties[i].accessor + "()"
  {
    var calls := AccessorCalls(parentConfig.properties, parameter);
    if SuperClassOf(parentConfig).Some? then [parameter] + calls else calls
  }

  function PropertyParameter(p: Property): ParameterSpec
  {
    ParameterSpec(p.publicType, p.name)
  }

  function Assignment(p: Property): string
  {
    "this." + p.name + " = " + p.name
  }

  /**
   * `addAllArgsConstructor`: a public constructor taking the parent first
   * when there is one, then one parameter per property in order; it passes
   * the parent's values to `super`, keeps the parent, and assigns every
   * property from its parameter.
   */
  function Constructor(ast: Ast, resolved: Option<Ast>): (m: MethodSpec)
    ensures m.name == ConstructorName && m.modifiers == [Public] && m.returnType == None
    ensures resolved.None? ==>
              |m.parameters| == |ast.properties| &&
              forall i :: 0 <= i < |ast.properties| ==> m.parameters[i] == PropertyParameter(ast.properties[i])
    ensures resolved.Some? ==>
              |m.parameters| == 1 + |ast.properties| &&
              m.parameters[0] == ParameterSpec(Named(resolved.value.implClass), "parent") &&
              forall i :: 0 <= i < |ast.properties| ==> m.parameters[1 + i] == PropertyParameter(ast.properties[i])
    ensures resolved.None? ==>
              |m.statements| == |ast.properties| &&
              forall i :: 0 <= i < |ast.properties| ==> m.statements[i] == Assignment(ast.properties[i])
    ensures resolved.Some? ==>
              |m.statements| == 2 + |ast.properties| &&
              m.statements[0] == SuperCall(resolved.value) && m.statements[1] == "this.parent = parent" &&
              forall i :: 0 <= i < |ast.properties| ==> m.statements[2 + i] == Assignment(ast.properties[i])
  {
    MethodSpec(ConstructorName, [Public], [], None,
      ConstructorParameters(ast.properties, resolved), ConstructorStatements(ast.properties, resolved))
  }

  /** The constructor's parameters: the parent when there is one, then the properties. */
  function ConstructorParameters(props: seq<Property>, resolved: Option<Ast>): (r: seq<ParameterSpec>)
    ensures resolved.None? ==> |r| == |props| && forall i :: 0 <= i < |props| ==> r[i] == PropertyParameter(props[i])
    ensures resolved.Some? ==>
              |r| == 1 + |props| && r[0] == ParameterSpec(Named(resolved.value.implClass), "parent") &&
              forall i :: 0 <= i < |props| ==> r[1 + i] == PropertyParameter(props[i])
  {
    match resolved
    case None => PropertyParameters(props)
    case Some(pc) => [ParameterSpec(Named(pc.implClass), "parent")] + PropertyParameters(props)
  }

  /** The constructor's statements: the super call and the parent kept when there is one, then the assignments. */
  function ConstructorStatements(props: seq<Property>, resolved: Option<Ast>): (r: seq<string>)
    ensures resolved.None? ==> |r| == |props| && forall i :: 0 <= i < |props| ==> r[i] == Assignment(props[i])
    ensures resolved.Some? ==>
              |r| == 2 + |props| && r[0] == SuperCall(resolved.value) && r[1] == "this.parent = parent" &&
              forall i :: 0 <= i < |props| ==> r[2 + i] == Assignment(props[i])
  {
    match resolved
    case None => Assignments(props)
    case Some(pc) => [SuperCall(pc), "this.parent = parent"] + Assignments(props)
  }

  /** `super(...)` with the parent's values. */
  function SuperCall(parentConfig: Ast): string
  {
    "super(" + Joined(SuperConstructorParams(parentConfig, "parent"), ", ") + ")"
  }

  function ParentParameters(resolved: Option<Ast>): (r: seq<ParameterSpec>)
    ensures |r| == (if resolved.Some? then 1 else 0)
  {
    match resolved
    case None => []
    case Some(pc) => [ParameterSpec(Named(pc.implClass), "parent")]
  }

  function ParentStatements(resolved: Option<Ast>): (r: seq<string>)
    ensures |r| == (if resolved.Some? then 2 else 0)
  {
    match resolved
    case None => []
    case Some(pc) => [SuperCall(pc), "this.parent = parent"]
  }

  function PropertyParameters(props: seq<Property>): (r: seq<ParameterSpec>)
    ensures |r| == |props| && forall i :: 0 <= i < |props| ==> r[i] == PropertyParameter(props[i])
  {
    seq(|props|, i requires 0 <= i < |props| => PropertyParameter(props[i]))
  }

  function Assignments(props: seq<Property>): (r: seq<string>)
    ensures |r| == |props| && forall i :: 0 <= i < |props| ==> r[i] == Assignment(props[i])
  {
    seq(|props|, i requires 0 <= i < |props| => Assignment(props[i]))
  }

  /**
   * The super call fits the parent's own constructor: it passes exactly as
   * many arguments as that constructor has parameters, and the two agree on
   * whether the first of them is the parent's own parent (the grandparent's
   * implementation, which the parent's implementation extends). Past that
   * slot, both follow the parent's properties in order, as the contracts of
   * `SuperConstructorParams` and `Constructor` state.
   */
  lemma SuperCallFitsParentConstructor(parentConfig: Ast, lookup: Lookup, grandparent: Option<Ast>)
    requires ResolvedParent(parentConfig, lookup) == Ok(grandparent)
    ensures |SuperConstructorParams(parentConfig, "parent")| == |Constructor(parentConfig, grandparent).parameters|
    ensures grandparent.Some? <==> SuperClassOf(parentConfig).Some?
    ensures grandparent.Some? ==>
              SuperConstructorParams(parentConfig, "parent")[0] == "parent" &&
              Constructor(parentConfig, grandparent).parameters[0].name == "parent"
  {
    assert grandparent.Some? <==> SuperClassOf(parentConfig).Some?;
  }

  /**
   * A with-method's call fits the constructor: one argument per constructor
   * parameter, and the current parent passed exactly where the constructor
   * takes the parent. Past that slot, both follow the properties in order,
   * as the contracts of `WithArguments` and `Constructor` state.
   */
  lemma WithCallFitsConstructor(ast: Ast, lookup: Lookup, resolved: Option<Ast>, field: Property)
    requires ResolvedParent(ast, lookup) == Ok(resolved)
    ensures |WithArguments(ast, field)| == |Constructor(ast, resolved).parameters|
    ensures PassesParent(ast) <==> resolved.Some?
    ensures PassesParent(ast) ==>
              WithArguments(ast, field)[0] == "this.parent" &&
              Constructor(ast, resolved).parameters[0].name == "parent"
  {
    assert PassesParent(ast) <==> resolved.Some?;
  }

  /**
   * Every property is stored and read back unchanged: the constructor
   * assigns the field of the property's name from the parameter of that
   * name, and the property's getter returns that field.
   */
  lemma PropertyRoundTrip(ast: Ast, resolved: Option<Ast>, k: nat)
    requires k < |ast.properties|
    ensures PropertyFields(ast.properties)[k].name == ast.properties[k].name
    ensures resolved.None? ==> Constructor(ast, resolved).parameters[k].name == ast.properties[k].name
    ensures resolved.Some? ==> Constructor(ast, resolved).parameters[1 + k].name == ast.properties[k].name
    ensures Assignment(ast.properties[k]) in Constructor(ast, resolved).statements
    ensures Getters(ast.properties)[k].statements == ["return " + ast.properties[k].name]
  {
    var p := ast.properties[k];
    var ctor := Constructor(ast, resolved);
    assert PropertyFields(ast.properties)[k].name == p.name by {
      assert PropertyFields(ast.properties)[k] == PropertyField(p);
    }
    if resolved.Some? {
      assert ctor.parameters[1 + k] == PropertyParameter(p);
      assert ctor.statements[2 + k] == Assignment(p);
    } else {
      assert ctor.parameters[k] == PropertyParameter(p);
      assert ctor.statements[k] == Assignment(p);
    }
    assert Getters(ast.properties)[k].statements == ["return " + p.name] by {
      assert Getters(ast.properties)[k] == Getter(p);
    }
  }

  function ToStringMethods(ast: Ast): (r: seq<MethodSpec>)
    ensures |r| <= 1 && (|r| == 1 <==> ast.settings.generateToString)
  {
    if ast.settings.generateToString then [ToStringMethod(ast.implClass, ast.properties)] else []
  }

  // ---------------------------------------------------------------------
  // The whole class
  // ---------------------------------------------------------------------

  /**
   * The class written into a builder named `name` for a structure whose
   * parent (if any) is `resolved`, before the classes of its nested
   * structures are added.
   */
  function Head(ast: Ast, lookup: Lookup, name: ClassName, resolved: Option<Ast>): TypeSpec
  {
    TypeSpec(
      name,
      ImplModifiers(ast),
      Superinterfaces(ast),
      Superclass(ast, lookup),
      ConfigFields(ast) + PropertyFields(ast.properties) + ParentFields(resolved),
      Getters(ast.properties) + WithMethods(ast) + [Constructor(ast, resolved)] + ToStringMethods(ast),
      ProxyTypes(ast))
  }

  /** The same class with the classes `children` of its nested structures. */
  function ClassOf(ast: Ast, lookup: Lookup, name: ClassName, resolved: Option<Ast>, children: seq<TypeSpec>): TypeSpec
  {
    var head := Head(ast, lookup, name, resolved);
    head.(types := head.types + children)
  }

  /**
   * The class `emit` writes for a structure, with the classes of its nested
   * structures inside: what `emitInto` writes into a builder named by the
   * structure's implementation class.
   */
  function Emitted(ast: Ast, lookup: Lookup): Result<TypeSpec>
    decreases ast, 2
  {
    EmittedInto(ast, lookup, ast.implClass)
  }

  /**
   * What `emitInto` writes into a fresh builder named `name`; the first
   * structure in the tree whose parent has no known structure fails it.
   */
  function EmittedInto(ast: Ast, lookup: Lookup, name: ClassName): Result<TypeSpec>
    decreases ast, 1
  {
    match ResolvedParent(ast, lookup)
    case Fail(e) => Fail(e)
    case Ok(resolved) => EmittedWithParent(ast, lookup, name, resolved)
  }

  /** The same once the parent is resolved: the nested structures' classes, then the class holding them. */
  function EmittedWithParent(ast: Ast, lookup: Lookup, name: ClassName, resolved: Option<Ast>): Result<TypeSpec>
    decreases ast, 0
  {
    match EmittedAll(ast.enclosed, lookup)
    case Fail(e) => Fail(e)
    case Ok(children) => Ok(ClassOf(ast, lookup, name, resolved, children))
  }

  /** The classes of `asts`, in order, or the first failure. */
  function EmittedAll(asts: seq<Ast>, lookup: Lookup): Result<seq<TypeSpec>>
    decreases asts
  {
    if |asts| == 0 then Ok([])
    else
      match EmittedAll(asts[..|asts| - 1], lookup)
      case Fail(e) => Fail(e)
      case Ok(init) =>
        match Emitted(asts[|asts| - 1], lookup)
        case Fail(e) => Fail(e)
        case Ok(t) => Ok(init + [t])
  }

  /** Every structure in the tree either extends nothing or extends a class whose structure is known. */
  predicate ParentsKnown(ast: Ast, lookup: Lookup)
    decreases ast
  {
    ResolvedParent(ast, lookup).Ok? && forall i :: 0 <= i < |ast.enclosed| ==> ParentsKnown(ast.enclosed[i], lookup)
  }

  /** Generation fails exactly when some structure in the tree extends a class with no known structure. */
  lemma {:induction false} EmittedIffParentsKnown(ast: Ast, lookup: Lookup)
    ensures Emitted(ast, lookup).Ok? <==> ParentsKnown(ast, lookup)
    decreases ast, 1
  {
    EmittedAllIffParentsKnown(ast, ast.enclosed, lookup);
    EmittedOk(ast, lookup);
  }

  /** The same for a sequence of nested structures, which also gives one class for each. */
  lemma {:induction false} EmittedAllIffParentsKnown(parent: Ast, asts: seq<Ast>, lookup: Lookup)
    requires forall i :: 0 <= i < |asts| ==> asts[i] < parent
    ensures EmittedAll(asts, lookup).Ok? <==> AllParentsKnown(asts, lookup)
    ensures EmittedAll(asts, lookup).Ok? ==> |EmittedAll(asts, lookup).value| == |asts|
    decreases parent, 0, |asts|
  {
    if |asts| > 0 {
      var init := asts[..|asts| - 1];
      EmittedAllIffParentsKnown(parent, init, lookup);
      EmittedIffParentsKnown(asts[|asts| - 1], lookup);
      EmittedAllSnoc(asts, lookup);
      AllParentsKnownSnoc(asts, lookup);
    }
  }

  predicate AllParentsKnown(asts: seq<Ast>, lookup: Lookup)
  {
    forall i :: 0 <= i < |asts| ==> ParentsKnown(asts[i], lookup)
  }

  lemma EmittedOk(ast: Ast, lookup: Lookup)
    ensures Emitted(ast, lookup).Ok? <==> ResolvedParent(ast, lookup).Ok? && EmittedAll(ast.enclosed, lookup).Ok?
  {
    EmittedUnfold(ast, lookup);
  }

  /** `Emitted` through its two steps: the parent, then the nested structures. */
  lemma EmittedUnfold(ast: Ast, lookup: Lookup)
    ensures ResolvedParent(ast, lookup).Fail? ==> Emitted(ast, lookup) == Fail(ResolvedParent(ast, lookup).error)
    ensures ResolvedParent(ast, lookup).Ok? ==>
              Emitted(ast, lookup) == EmittedWithParent(ast, lookup, ast.implClass, ResolvedParent(ast, lookup).value)
  {
    assert Emitted(ast, lookup) == EmittedInto(ast, lookup, ast.implClass);
  }

  lemma EmittedAllSnoc(asts: seq<Ast>, lookup: Lookup)
    requires |asts| > 0
    ensures EmittedAll(asts, lookup).Ok? <==> EmittedAll(asts[..|asts| - 1], lookup).Ok? && Emitted(asts[|asts| - 1], lookup).Ok?
    ensures EmittedAll(asts, lookup).Ok? ==> |EmittedAll(asts, lookup).value| == |EmittedAll(asts[..|asts| - 1], lookup).value| + 1
  {
  }

  lemma AllParentsKnownSnoc(asts: seq<Ast>, lookup: Lookup)
    requires |asts| > 0
    ensures AllParentsKnown(asts, lookup) <==> AllParentsKnown(asts[..|asts| - 1], lookup) && ParentsKnown(asts[|asts| - 1], lookup)
  {
    var init := asts[..|asts| - 1];
    if AllParentsKnown(asts, lookup) {
      forall i | 0 <= i < |init|
        ensures ParentsKnown(init[i], lookup)
      {
        assert init[i] == asts[i];
      }
    }
  }

  /**
   * The fields of a generated class: the `CONFIG` field, then the property
   * fields in order, then the parent field exactly when the structure
   * extends a class; and it has a superclass exactly then.
   */
  lemma EmittedFields(ast: Ast, lookup: Lookup)
    requires Emitted(ast, lookup).Ok?
    ensures var t := Emitted(ast, lookup).value;
            var n := |ast.properties|;
            var c := |ConfigFields(ast)|;
            |t.fields| == c + n + (if SuperClassOf(ast).Some? then 1 else 0) &&
            (forall i :: 0 <= i < n ==> t.fields[c + i] == PropertyField(ast.properties[i])) &&
            (SuperClassOf(ast).Some? ==> t.fields[c + n].name == "parent") &&
            (t.superclass.Some? <==> SuperClassOf(ast).Some?)
  {
    EmittedParts(ast, lookup);
    FieldsLayout(ConfigFields(ast), ast.properties, ParentFields(ResolvedParent(ast, lookup).value));
  }

  /** The fields, the superclass and the methods of a generated class, each as its parts put together. */
  lemma EmittedParts(ast: Ast, lookup: Lookup)
    requires Emitted(ast, lookup).Ok?
    ensures ResolvedParent(ast, lookup).Ok?
    ensures var resolved := ResolvedParent(ast, lookup).value;
            Emitted(ast, lookup).value.fields == ConfigFields(ast) + PropertyFields(ast.properties) + ParentFields(resolved)
    ensures Emitted(ast, lookup).value.superclass == Superclass(ast, lookup)
    ensures var resolved := ResolvedParent(ast, lookup).value;
            Emitted(ast, lookup).value.methods == Getters(ast.properties) + WithMethods(ast) + [Constructor(ast, resolved)] + ToStringMethods(ast)
  {
    EmittedResolved(ast, lookup);
  }

  /** A generated class is its structure's head with the classes of the nested structures added. */
  lemma EmittedResolved(ast: Ast, lookup: Lookup)
    requires Emitted(ast, lookup).Ok?
    ensures ResolvedParent(ast, lookup).Ok? && EmittedAll(ast.enclosed, lookup).Ok?
    ensures Emitted(ast, lookup).value == ClassOf(ast, lookup, ast.implClass, ResolvedParent(ast, lookup).value, EmittedAll(ast.enclosed, lookup).value)
  {
    EmittedUnfold(ast, lookup);
  }

  lemma FieldsLayout(config: seq<FieldSpec>, props: seq<Property>, parent: seq<FieldSpec>)
    ensures var fields := config + PropertyFields(props) + parent;
            |fields| == |config| + |props| + |parent| &&
            (forall i :: 0 <= i < |props| ==> fields[|config| + i] == PropertyField(props[i])) &&
            (|parent| > 0 ==> fields[|config| + |props|] == parent[0])
  {
    var fields := config + PropertyFields(props) + parent;
    assert forall i :: 0 <= i < |props| ==> fields[|config| + i] == PropertyFields(props)[i];
  }

  /**
   * The methods of a generated class: the getters first, in property order,
   * then the with-methods, then the constructor, then `toString` when it is
   * asked for.
   */
  lemma EmittedMethods(ast: Ast, lookup: Lookup)
    requires Emitted(ast, lookup).Ok?
    ensures var t := Emitted(ast, lookup).value;
            var n := |ast.properties|;
            var w := |WithMethods(ast)|;
            |t.methods| == n + w + 1 + (if ast.settings.generateToString then 1 else 0) &&
            (forall i :: 0 <= i < n ==> t.methods[i] == Getter(ast.properties[i])) &&
            t.methods[n + w].name == ConstructorName &&
            (ast.settings.generateToString ==> t.methods[n + w + 1].name == "toString")
  {
    EmittedParts(ast, lookup);
    var resolved := ResolvedParent(ast, lookup).value;
    MethodsLayout(ast.properties, WithMethods(ast), Constructor(ast, resolved), ToStringMethods(ast));
  }

  lemma MethodsLayout(props: seq<Property>, withMethods: seq<MethodSpec>, ctor: MethodSpec, toString: seq<MethodSpec>)
    ensures var methods := Getters(props) + withMethods + [ctor] + toString;
            |methods| == |props| + |withMethods| + 1 + |toString| &&
            (forall i :: 0 <= i < |props| ==> methods[i] == Getter(props[i])) &&
            methods[|props| + |withMethods|] == ctor &&
            (|toString| > 0 ==> methods[|props| + |withMethods| + 1] == toString[0])
  {
    var methods := Getters(props) + withMethods + [ctor] + toString;
    assert forall i :: 0 <= i < |props| ==> methods[i] == Getters(props)[i];
  }

  /** The nested classes of a generated class: the proxy first when there is one, then one class per nested structure. */
  lemma EmittedTypes(ast: Ast, lookup: Lookup)
    requires Emitted(ast, lookup).Ok?
    ensures var t := Emitted(ast, lookup).value;
            |t.types| == |ProxyTypes(ast)| + |ast.enclosed| &&
            (HasProxy(ast) ==> t.types[0].name == ProxyName(ast))
  {
    EmittedAllIffParentsKnown(ast, ast.enclosed, lookup);
    EmittedIffParentsKnown(ast, lookup);
    var resolved := ResolvedParent(ast, lookup).value;
    var children := EmittedAll(ast.enclosed, lookup).value;
    EmittedIntoIs(ast, lookup, ast.implClass, resolved, children);
    assert Emitted(ast, lookup) == EmittedInto(ast, lookup, ast.implClass);
  }

  // ---------------------------------------------------------------------
  // The generator's steps on the builder
  // ---------------------------------------------------------------------

  method AddSourceElement(ast: Ast, b: TypeSpecBuilder)
    modifies b
    ensures b.fields == old(b.fields) + ConfigFields(ast)
    ensures b.modifiers == old(b.modifiers) && b.superinterfaces == old(b.superinterfaces) && b.superclass == old(b.superclass)
    ensures b.methods == old(b.methods) && b.types == old(b.types)
  {
    if ast.settings.source.Some? {
      var publicClassName := PublicClassName(ast.structure);
      var serializationSupported := ast.serialization.supported;
      var init;
      if serializationSupported {
        init := ConfigurationInit(ast.settings.source.value, publicClassName, ast.implClass,
          DeserializeMethodName(Named(ast.implClass)), Some(ast.serialization.methodName));
      } else {
        init := ConfigurationInit(ast.settings.source.value, publicClassName, ast.implClass,
          DeserializeMethodName(Named(ast.implClass)), None);
      }
      b.AddField(FieldSpec(Parameterized(ConfigurationClass, [Named(publicClassName)]), "CONFIG", [Public, Static, Final], Some(init)));
    }
  }

  method AddInheritance(ast: Ast, lookup: Lookup, b: TypeSpecBuilder)
    modifies b
    ensures b.superinterfaces == old(b.superinterfaces) + Superinterfaces(ast)
    ensures b.superclass == (if Superclass(ast, lookup).Some? then Superclass(ast, lookup) else old(b.superclass))
    ensures b.modifiers == old(b.modifiers) && b.fields == old(b.fields) && b.methods == old(b.methods) && b.types == old(b.types)
  {
    if ast.structure.source == InterfaceSource {
      b.AddSuperinterface(ast.structure.name);
    }
    if ast.structure.source == ClassSource && ast.parent.Some? {
      var parent := lookup(ast.parent.value);
      if parent.Some? {
        b.SetSuperclass(parent.value.implClass);
      }
    }
  }

  /** The loop of `addInnerDefaultMethodImpl`: an override for each property without a default, in order. */
  method AddProxyMethods(inner: TypeSpecBuilder, props: seq<Property>, concrete: ClassName)
    modifies inner
    ensures inner.methods == old(inner.methods) + ProxyMethods(props, concrete)
    ensures inner.modifiers == old(inner.modifiers) && inner.superinterfaces == old(inner.superinterfaces) && inner.superclass == old(inner.superclass)
    ensures inner.fields == old(inner.fields) && inner.types == old(inner.types)
  {
    for i := 0 to |props|
      invariant inner.methods == old(inner.methods) + ProxyMethods(props[..i], concrete)
      invariant inner.modifiers == old(inner.modifiers) && inner.superinterfaces == old(inner.superinterfaces) && inner.superclass == old(inner.superclass)
      invariant inner.fields == old(inner.fields) && inner.types == old(inner.types)
    {
      assert props[..i + 1][..i] == props[..i];
      if props[i].hasDefault {
        continue;
      }
      inner.AddMethod(MethodSpec(props[i].name, [Public], [Override], Some(props[i].publicType), [],
        [ProxyStatement(concrete, props[i].name)]));
    }
    assert props[..|props|] == props;
  }

  /** `addInnerDefaultMethodImpl`: the loop over the properties, skipping those with a default; an empty proxy is dropped. */
  method AddInnerDefaultMethodImpl(b: TypeSpecBuilder, ast: Ast) returns (daoName: Option<ClassName>)
    modifies b
    ensures daoName == (if HasProxy(ast) then Some(ProxyName(ast)) else None)
    ensures b.types == old(b.types) + ProxyTypes(ast)
    ensures b.modifiers == old(b.modifiers) && b.superinterfaces == old(b.superinterfaces) && b.superclass == old(b.superclass)
    ensures b.fields == old(b.fields) && b.methods == old(b.methods)
  {
    if ast.structure.source != InterfaceSource {
      return None;
    }
    var concrete := ConcreteClassName(ast.structure);
    var innerName := NestedClass(concrete, ast.structure.name.simpleName + "DefaultMethodAccess");
    var inner := new TypeSpecBuilder(innerName);
    inner.AddModifiers([Private, Static]);
    inner.AddSuperinterface(ast.structure.name);
    assert inner.modifiers == [Private, Static] && inner.superinterfaces == [ast.structure.name];
    AddProxyMethods(inner, ast.properties, concrete);
    assert inner.methods == ProxyMethods(ast.properties, concrete);
    if |inner.methods| == 0 {
      assert !HasProxy(ast);
      return None;
    }
    assert HasProxy(ast) && innerName == ProxyName(ast);
    var proxy := inner.Build();
    assert ProxyTypes(ast) == [proxy];
    b.AddType(proxy);
    daoName := Some(innerName);
  }

  /** `addProperties`: a field and its getter for each property, in order. */
  method AddProperties(ast: Ast, b: TypeSpecBuilder)
    modifies b
    ensures b.fields == old(b.fields) + PropertyFields(ast.properties)
    ensures b.methods == old(b.methods) + Getters(ast.properties)
    ensures b.modifiers == old(b.modifiers) && b.superinterfaces == old(b.superinterfaces) && b.superclass == old(b.superclass)
    ensures b.types == old(b.types)
  {
    var props := ast.properties;
    for i := 0 to |props|
      invariant b.fields == old(b.fields) + PropertyFields(props)[..i]
      invariant b.methods == old(b.methods) + Getters(props)[..i]
      invariant b.modifiers == old(b.modifiers) && b.superinterfaces == old(b.superinterfaces) && b.superclass == old(b.superclass)
      invariant b.types == old(b.types)
    {
      b.AddField(FieldSpec(props[i].publicType, props[i].name, [Final, Private], None));
      CreateGetterMethod(b, props[i]);
      assert PropertyFields(props)[..i + 1] == PropertyFields(props)[..i] + [PropertyFields(props)[i]];
      assert Getters(props)[..i + 1] == Getters(props)[..i] + [Getters(props)[i]];
    }
    assert PropertyFields(props)[..|props|] == PropertyFields(props);
    assert Getters(props)[..|props|] == Getters(props);
  }

  /** `addSuperClassField`: throws when the parent has no known structure. */
  method AddSuperClassField(ast: Ast, lookup: Lookup, b: TypeSpecBuilder) returns (r: Result<Option<Ast>>)
    modifies b
    ensures r == ResolvedParent(ast, lookup)
    ensures r.Ok? ==> b.fields == old(b.fields) + ParentFields(r.value)
    ensures r.Fail? ==> b.fields == old(b.fields)
    ensures b.modifiers == old(b.modifiers) && b.superinterfaces == old(b.superinterfaces) && b.superclass == old(b.superclass)
    ensures b.methods == old(b.methods) && b.types == old(b.types)
  {
    var parentMirror := SuperClassOf(ast);
    if parentMirror.None? {
      return Ok(None);
    }
    var parentConfig := lookup(parentMirror.value);
    if parentConfig.None? {
      return Fail(IllegalState(ParentMissingMessage(parentMirror.value)));
    }
    b.AddField(FieldSpec(Named(parentConfig.value.implClass), "parent", [Private, Final], None));
    r := Ok(parentConfig);
  }

  /**
   * `addAllArgsConstructor`, with `addSuperClassParameter` and the loop of
   * `addPropertyParameters`. The parent's structure is the one
   * `addSuperClassField` found: the lookup is repeated in the generator and
   * gives the same answer.
   */
  method AddAllArgsConstructor(b: TypeSpecBuilder, ast: Ast, resolved: Option<Ast>)
    modifies b
    ensures b.methods == old(b.methods) + [Constructor(ast, resolved)]
    ensures b.modifiers == old(b.modifiers) && b.superinterfaces == old(b.superinterfaces) && b.superclass == old(b.superclass)
    ensures b.fields == old(b.fields) && b.types == old(b.types)
  {
    var parameters: seq<ParameterSpec> := [];
    var statements: seq<string> := [];
    if resolved.Some? {
      parameters := [ParameterSpec(Named(resolved.value.implClass), "parent")];
      var parentParams := SuperConstructorParams(resolved.value, "parent");
      statements := ["super(" + Joined(parentParams, ", ") + ")", "this.parent = parent"];
    }
    assert parameters == ParentParameters(resolved) && statements == ParentStatements(resolved);
    var props := ast.properties;
    for i := 0 to |props|
      invariant parameters == ParentParameters(resolved) + PropertyParameters(props[..i])
      invariant statements == ParentStatements(resolved) + Assignments(props[..i])
    {
      assert PropertyParameters(props[..i + 1]) == PropertyParameters(props[..i]) + [PropertyParameter(props[i])];
      assert Assignments(props[..i + 1]) == Assignments(props[..i]) + [Assignment(props[i])];
      parameters := parameters + [ParameterSpec(props[i].publicType, props[i].name)];
      statements := statements + ["this." + props[i].name + " = " + props[i].name];
    }
    assert props[..|props|] == props;
    assert parameters == ConstructorParameters(props, resolved) && statements == ConstructorStatements(props, resolved) by {
      if resolved.None? {
        assert [] + PropertyParameters(props) == PropertyParameters(props);
        assert [] + Assignments(props) == Assignments(props);
      }
    }
    b.AddMethod(MethodSpec(ConstructorName, [Public], [], None, parameters, statements));
  }

  /** `emitInto`'s first steps: the modifiers, the `CONFIG` field, the supertypes and the proxy. */
  method AddHeader(ast: Ast, lookup: Lookup, b: TypeSpecBuilder)
    requires b.IsEmpty()
    modifies b
    ensures b.modifiers == ImplModifiers(ast) && b.superinterfaces == Superinterfaces(ast) && b.superclass == Superclass(ast, lookup)
    ensures b.fields == ConfigFields(ast) && b.methods == [] && b.types == ProxyTypes(ast)
  {
    ghost var abstractPart: seq<Modifier> := if ast.kind == Union then [Abstract] else [];
    ghost var staticPart: seq<Modifier> := if ast.structure.enclosedIn.Some? then [Static] else [];
    b.AddModifiers([Public]);
    if ast.kind == Union {
      b.AddModifiers([Abstract]);
    }
    assert b.modifiers == [Public] + abstractPart;
    AddSourceElement(ast, b);
    AddInheritance(ast, lookup, b);
    var daoName := AddInnerDefaultMethodImpl(b, ast);
    if ast.structure.enclosedIn.Some? {
      b.AddModifiers([Static]);
    }
    assert b.modifiers == [Public] + abstractPart + staticPart;
  }

  /** `emitInto`'s methods after the getters: the with-methods, the constructor and `toString`. */
  method AddMethods(ast: Ast, b: TypeSpecBuilder, resolved: Option<Ast>)
    modifies b
    ensures b.methods == old(b.methods) + WithMethods(ast) + [Constructor(ast, resolved)] + ToStringMethods(ast)
    ensures b.modifiers == old(b.modifiers) && b.superinterfaces == old(b.superinterfaces) && b.superclass == old(b.superclass)
    ensures b.fields == old(b.fields) && b.types == old(b.types)
  {
    CreateWithMethods(b, ast);
    AddAllArgsConstructor(b, ast, resolved);
    if ast.settings.generateToString {
      var toString := GenerateToString(ast.properties, ast.implClass);
      b.AddMethod(toString);
    }
  }

  /**
   * `emitInto` up to the nested classes, on a builder with nothing added
   * yet. The parent's structure is what `addSuperClassField` finds; when it
   * throws, the steps after it are not taken.
   */
  method AddMembers(ast: Ast, lookup: Lookup, b: TypeSpecBuilder) returns (resolved: Result<Option<Ast>>)
    requires b.IsEmpty()
    modifies b
    ensures resolved == ResolvedParent(ast, lookup)
    ensures resolved.Ok? ==> b.Describes(Head(ast, lookup, b.name, resolved.value))
  {
    AddHeader(ast, lookup, b);
    AddProperties(ast, b);
    assert b.methods == Getters(ast.properties) by {
      assert [] + Getters(ast.properties) == Getters(ast.properties);
    }
    resolved := AddSuperClassField(ast, lookup, b);
    if resolved.Fail? {
      return;
    }
    AddMethods(ast, b, resolved.value);
    assert b.methods == Getters(ast.properties) + WithMethods(ast) + [Constructor(ast, resolved.value)] + ToStringMethods(ast);
    assert b.fields == ConfigFields(ast) + PropertyFields(ast.properties) + ParentFields(resolved.value);
  }

  /**
   * `emitInto`, on the builder with nothing added yet that both of its
   * callers create. When it throws, the compilation stops and the builder
   * is dropped, so only the failure is stated then.
   */
  method EmitInto(ast: Ast, lookup: Lookup, b: TypeSpecBuilder) returns (r: Result<()>)
    requires b.IsEmpty()
    modifies b
    decreases ast, 1
    ensures EmittedInto(ast, lookup, b.name).Fail? ==> r == Fail(EmittedInto(ast, lookup, b.name).error)
    ensures EmittedInto(ast, lookup, b.name).Ok? ==> r == Ok(()) && b.Describes(EmittedInto(ast, lookup, b.name).value)
  {
    var resolved := AddMembers(ast, lookup, b);
    if resolved.Fail? {
      assert EmittedInto(ast, lookup, b.name) == Fail(resolved.error);
      return Fail(resolved.error);
    }
    var added, children := AddChildClasses(ast, lookup, b);
    if added.Fail? {
      EmittedFailsWithChildren(ast, lookup, b.name, resolved.value);
      return Fail(added.error);
    }
    assert b.Describes(ClassOf(ast, lookup, b.name, resolved.value, children));
    EmittedIntoIs(ast, lookup, b.name, resolved.value, children);
    r := Ok(());
  }

  lemma EmittedIntoIs(ast: Ast, lookup: Lookup, name: ClassName, resolved: Option<Ast>, children: seq<TypeSpec>)
    requires ResolvedParent(ast, lookup) == Ok(resolved) && EmittedAll(ast.enclosed, lookup) == Ok(children)
    ensures EmittedInto(ast, lookup, name) == Ok(ClassOf(ast, lookup, name, resolved, children))
  {
  }

  lemma EmittedFailsWithChildren(ast: Ast, lookup: Lookup, name: ClassName, resolved: Option<Ast>)
    requires ResolvedParent(ast, lookup) == Ok(resolved) && EmittedAll(ast.enclosed, lookup).Fail?
    ensures EmittedInto(ast, lookup, name) == Fail(EmittedAll(ast.enclosed, lookup).error)
  {
  }

  /** `addChildClasses`: each nested structure's class, written into a builder of its own and added in order. */
  method AddChildClasses(ast: Ast, lookup: Lookup, b: TypeSpecBuilder) returns (r: Result<()>, ghost children: seq<TypeSpec>)
    modifies b
    decreases ast, 0
    ensures r.Ok? <==> EmittedAll(ast.enclosed, lookup).Ok?
    ensures r.Fail? ==> r == Fail(EmittedAll(ast.enclosed, lookup).error)
    ensures r.Ok? ==> EmittedAll(ast.enclosed, lookup) == Ok(children) && b.types == old(b.types) + children
    ensures b.modifiers == old(b.modifiers) && b.superinterfaces == old(b.superinterfaces) && b.superclass == old(b.superclass)
    ensures b.fields == old(b.fields) && b.methods == old(b.methods)
  {
    var nested := ast.enclosed;
    ghost var done: seq<TypeSpec> := [];
    for i := 0 to |nested|
      invariant EmittedAll(nested[..i], lookup) == Ok(done)
      invariant b.types == old(b.types) + done
      invariant b.modifiers == old(b.modifiers) && b.superinterfaces == old(b.superinterfaces) && b.superclass == old(b.superclass)
      invariant b.fields == old(b.fields) && b.methods == old(b.methods)
    {
      var cr, t := AddChildClass(nested[i], lookup, b);
      if cr.Fail? {
        EmittedAllFailStep(nested, i, lookup);
        FailurePersists(nested, i + 1, lookup);
        return cr, done;
      }
      EmittedAllStep(nested, i, lookup, done, t);
      done := done + [t];
    }
    assert nested[..|nested|] == nested;
    r := Ok(());
    children := done;
  }

  /** One nested structure's class, written into a builder of its own and added to `b`. */
  method AddChildClass(child: Ast, lookup: Lookup, b: TypeSpecBuilder) returns (r: Result<()>, ghost t: TypeSpec)
    modifies b
    decreases child, 2
    ensures r.Fail? ==> Emitted(child, lookup) == Fail(r.error) && b.types == old(b.types)
    ensures r.Ok? ==> Emitted(child, lookup) == Ok(t) && b.types == old(b.types) + [t]
    ensures b.modifiers == old(b.modifiers) && b.superinterfaces == old(b.superinterfaces) && b.superclass == old(b.superclass)
    ensures b.fields == old(b.fields) && b.methods == old(b.methods)
  {
    var childBuilder := new TypeSpecBuilder(child.implClass);
    r := EmitInto(child, lookup, childBuilder);
    assert Emitted(child, lookup) == EmittedInto(child, lookup, child.implClass);
    t := childBuilder.Build();
    if r.Ok? {
      b.AddType(childBuilder.Build());
    }
  }

  lemma EmittedAllStep(asts: seq<Ast>, i: nat, lookup: Lookup, done: seq<TypeSpec>, t: TypeSpec)
    requires i < |asts| && EmittedAll(asts[..i], lookup) == Ok(done) && Emitted(asts[i], lookup) == Ok(t)
    ensures EmittedAll(asts[..i + 1], lookup) == Ok(done + [t])
  {
    assert asts[..i + 1][..i] == asts[..i];
  }

  lemma EmittedAllFailStep(asts: seq<Ast>, i: nat, lookup: Lookup)
    requires i < |asts| && EmittedAll(asts[..i], lookup).Ok? && Emitted(asts[i], lookup).Fail?
    ensures EmittedAll(asts[..i + 1], lookup) == Fail(Emitted(asts[i], lookup).error)
  {
    assert asts[..i + 1][..i] == asts[..i];
  }

  /** A failure among the first `i` nested structures fails them all. */
  lemma {:induction false} FailurePersists(asts: seq<Ast>, i: nat, lookup: Lookup)
    requires i <= |asts| && EmittedAll(asts[..i], lookup).Fail?
    ensures EmittedAll(asts, lookup) == Fail(EmittedAll(asts[..i], lookup).error)
    decreases |asts| - i
  {
    if i < |asts| {
      assert asts[..i + 1][..i] == asts[..i];
      FailurePersists(asts, i + 1, lookup);
    } else {
      assert asts[..i] == asts;
    }
  }

  /** `emit`: the class of a structure, written into a fresh builder named by its implementation. */
  method Emit(ast: Ast, lookup: Lookup) returns (r: Result<TypeSpec>)
    ensures r == Emitted(ast, lookup)
  {
    var source := new TypeSpecBuilder(ast.implClass);
    var emitted := EmitInto(ast, lookup, source);
    assert Emitted(ast, lookup) == EmittedInto(ast, lookup, ast.implClass);
    if emitted.Fail? {
      return Fail(emitted.error);
    }
    r := Ok(source.Build());
  }
}
