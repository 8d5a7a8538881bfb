/**
 * The decisions `DeserializationCodeGenerator` takes when it writes the
 * `deserializeX(context)` method of one property. The method reads the raw
 * value `xFromMap` from the data, then runs a list of `if (test) return ...`
 * steps, the first whose test holds deciding the result. The model is that
 * list: each step is a test on the raw value and what the method returns
 * when it holds. Generation can throw instead, which is a `Fail`.
 */
module DeserializationPlans {
  import opened Sequences
  import opened Results
  import opened Strings
  import opened ClassNames
  import opened TypesUtilModel
  import opened DataTrees
  import opened MethodNames

  // ---------------------------------------------------------------------
  // The schema of one property
  // ---------------------------------------------------------------------

  /** `EnumParsingScheme`. */
  datatype EnumScheme = ExactMatch | CaseInsensitive

  /** `CustomDeserializerInfo`: the deserializer class, and whether it is static and a fallback. */
  datatype CustomInfo = CustomInfo(deserializerClass: ClassName, isStatic: bool, isFallback: bool)

  /**
   * A `Property` with what the generator looks up about it: its lookup key,
   * its settings, whether `@UseObjectMapperSerialization` is on it, its type,
   * the safe (boxed, erased, config-translated) type, the name of the
   * boxed public type the method returns, and the public type handed to the
   * object mapper. `accessor` is the name `MethodNames.safeMethodName` gives
   * the property's getter, and `fromMethod` says whether the property is read
   * from an abstract method of the DTO rather than from a field.
   */
  datatype Property = Property(
    name: string,
    accessor: string,
    fromMethod: bool,
    key: string,
    hasDefault: bool,
    nullable: bool,
    enumScheme: EnumScheme,
    useObjectMapper: bool,
    propertyType: TypeMirror,
    safeType: TypeName,
    resultType: TypeName,
    publicType: TypeName)

  /**
   * What the generator asks about types: the DTO class (its `$T.class`
   * text), the registered custom deserializer of a type, whether a declared
   * type's element carries `@Config`, and whether a type is an enum.
   */
  datatype Env = Env(
    dtoClass: string,
    customOf: TypeMirror -> Option<CustomInfo>,
    hasConfigAnnotation: TypeMirror -> bool,
    isEnum: TypeMirror -> bool)

  // ---------------------------------------------------------------------
  // The raw value
  // ---------------------------------------------------------------------

  /**
   * `xFromMap`: `data.getOrDefault(key, default)` when the property has a
   * default (the default read from the DAO), otherwise `data.get(key)`,
   * which is `null` when the key is absent.
   */
  function RawValue(p: Property, data: DataTree, default: Obj): Obj
  {
    if p.hasDefault then GetOrDefault(data, p.key, default)
    else match Get(data, p.key)
      case Some(t) => JTree(t)
      case None => JNull
  }

  /** The expression the default is read from: a method of an interface's DAO, a field of a class's. */
  function DefaultExpression(p: Property, source: SourceKind): (e: string)
    ensures |e| >= 4 + |p.name| && e[..4] == "dao." && e[4..4 + |p.name|] == p.name
    ensures source.InterfaceSource? ==> e[4 + |p.name|..] == "()"
    ensures source.ClassSource? ==> |e| == 4 + |p.name|
  {
    match source
    case InterfaceSource => "dao." + p.name + "()"
    case ClassSource => "dao." + p.name
  }

  /**
   * The raw value is `null` exactly when the key is absent and there is no
   * default to fall back on, or the default itself is `null`. A key present
   * with an explicit null node is a `DataTreeNull`, which is not `null`.
   */
  lemma RawValueNullIff(p: Property, data: DataTree, default: Obj)
    ensures RawValue(p, data, default) == JNull <==> Get(data, p.key).None? && (!p.hasDefault || default == JNull)
    ensures Get(data, p.key).Some? ==> RawValue(p, data, default) == JTree(Get(data, p.key).value)
    ensures Get(data, p.key).None? && p.hasDefault ==> RawValue(p, data, default) == default
  {
  }

  // ---------------------------------------------------------------------
  // The steps of a generated method
  // ---------------------------------------------------------------------

  /** What a step checks about `xFromMap`. */
  datatype Test =
    | IsNull
    | InstanceOf(safeType: TypeName)
    | InstanceOfTree(treeClass: TreeClass)
    | InstanceOfString
    | NotDataTree
    | Always

  /** A function reference handed to `CollectionsUtils`: `Deserializer::deserialize`, or `Config::deserializeConfig`. */
  datatype Deserializer = CustomReference(deserializerClass: ClassName) | ConfigReference(configClass: TypeName, methodName: string)

  /** What a step returns. */
  datatype Action =
    | ReturnOkNull
    | ReturnFail(error: Exn)
      /** `Result.ok((T) xFromMap)`. */
    | ReturnCast(safeType: TypeName)
      /** `Result.ok(((TreeClass) xFromMap).value())`, converted by the named `Number` method if any. */
    | ReturnLiteral(treeClass: TreeClass, conversion: Option<string>)
      /** `Deserializer.deserialize(context.withData(DataTreeTransforms.loadFrom(xFromMap)))`. */
    | ReturnCustom(deserializerClass: ClassName)
      /** Look the enum constant up by the string; `Fail(invalidEnumException)` when there is none, else `Ok` of it. */
    | ReturnEnum(enumType: TypeName, scheme: EnumScheme, fromTree: bool)
      /** `Config.deserializeConfig(context.withData(mapData))`. */
    | ReturnConfig(configClass: TypeName, methodName: string)
      /** `context.getMapper().map(toPOJO(loadFrom(xFromMap)), TypeToken.get(T.class))`. */
    | ReturnObjectMapper(propertyType: TypeName)
      /** `context.getMapper().map(xFromMap, new TypeToken<T>(){})`. */
    | ReturnMapped(resultType: TypeName)
    | ReturnList(element: Deserializer)
      /** `CollectionsUtils.deserializeMap`, passed the key class when the values are configs. */
    | ReturnMap(keyClass: Option<TypeName>, value: Deserializer)

  datatype Step = Step(test: Test, action: Action)

  /** Whether the generator finished the method (`true` / a built method) or leaves it to the mapper fallback. */
  datatype Handling = Handled(steps: seq<Step>) | Unhandled(steps: seq<Step>)

  const NonStaticMessage := "idk non-static is hard"

  const ListName := "java.util.List"

  const MapName := "java.util.Map"

  // ---------------------------------------------------------------------
  // Building the steps
  // ---------------------------------------------------------------------

  /** `handleNullChecks`: a nullable property returns `ok(null)`, any other fails with `notFoundException`. */
  function NullStep(p: Property, env: Env): Step
  {
    Step(IsNull, if p.nullable then ReturnOkNull
                 else ReturnFail(PropertyNotFound(p.name, TypeNameText(TypeNameOf(p.propertyType)), env.dtoClass, p.key)))
  }

  /** `handleDirectTypeMatch`: only with a default can the value already have the property's type. */
  function DirectSteps(p: Property): seq<Step>
  {
    if p.hasDefault then [Step(InstanceOf(p.safeType), ReturnCast(p.safeType))] else []
  }

  /** `dataTreeConvert`: the `Number` method that narrows a literal's value to the property's primitive type. */
  function Conversion(safeType: TypeName, treeClass: TreeClass): (r: Option<string>)
    ensures r.Some? ==> treeClass in {LiteralInt, LiteralFloat} && Unboxed(safeType).PrimitiveName?
    ensures r.Some? ==> r.value == Unboxed(safeType).keyword + "Value"
  {
    var u := Unboxed(safeType);
    if treeClass == LiteralInt && u in {PrimitiveName("int"), PrimitiveName("short"), PrimitiveName("byte"), PrimitiveName("long")} then
      Some(u.keyword + "Value")
    else if treeClass == LiteralFloat && u in {PrimitiveName("float"), PrimitiveName("double")} then
      Some(u.keyword + "Value")
    else None
  }

  /** `handleDataTreeTypeMatch`: a type with a `DataTree` class is read from a node of that class. */
  function LiteralSteps(p: Property): seq<Step>
  {
    match DataTreeType(p.safeType)
    case None => []
    case Some(c) => [Step(InstanceOfTree(c), ReturnLiteral(c, Conversion(p.safeType, c)))]
  }

  /** The two shortcuts, in the order they are written. */
  function Shortcuts(p: Property): seq<Step>
  {
    DirectSteps(p) + LiteralSteps(p)
  }

  /** `handleCustomDeserializer` once it applies: only a static deserializer can be called. */
  function CustomStep(info: CustomInfo): Result<Step>
  {
    if info.isStatic then Ok(Step(Always, ReturnCustom(info.deserializerClass)))
    else Fail(IllegalArgument(NonStaticMessage))
  }

  /** `isConfigType` when it does not throw: a declared type whose element carries `@Config`. */
  predicate IsConfigType(m: TypeMirror, env: Env)
  {
    m.DeclaredMirror? && env.hasConfigAnnotation(m)
  }

  /**
   * `isConfigType`, then `getConfigClassName` for a config type: an
   * unresolved type throws `DTOReferenceException`; a config type gets its
   * generated class name, or the exception `getConfigClassName` throws (a
   * generated type, or one in the unnamed package); any other type is not a
   * config. The exception carries only the unresolved type's text here: the
   * message `DTOReferenceException` builds from it and the generated-type
   * cache is `TypeRegistry.MessageFor`, which this plan does not consult.
   */
  function ConfigCheck(m: TypeMirror, env: Env): Result<Option<TypeName>>
  {
    if m.ErrorMirror? then Fail(Raised("DTOReferenceException", m.text))
    else if !IsConfigType(m, env) then Ok(None)
    else match ConfigClassName(m)
      case Fail(e) => Fail(e)
      case Ok(c) => Ok(Some(c))
  }

  /** `handleEnumType`: with a default, first a plain `String`; then always a string literal node. */
  function EnumSteps(p: Property): seq<Step>
  {
    (if p.hasDefault then [Step(InstanceOfString, ReturnEnum(p.safeType, p.enumScheme, false))] else []) +
    [Step(InstanceOfTree(LiteralString), ReturnEnum(p.safeType, p.enumScheme, true))]
  }

  /** `handleConfigType`: a map node is handed to the config's own deserializer. */
  function ConfigSteps(c: TypeName): seq<Step>
  {
    [Step(InstanceOfTree(TreeMap), ReturnConfig(c, DeserializeMethodName(c)))]
  }

  /** The enum or config branch, which is skipped for any other type. */
  function KindSteps(p: Property, env: Env): Result<seq<Step>>
  {
    if env.isEnum(p.propertyType) then Ok(EnumSteps(p))
    else match ConfigCheck(p.propertyType, env)
      case Fail(e) => Fail(e)
      case Ok(None) => Ok([])
      case Ok(Some(c)) => Ok(ConfigSteps(c))
  }

  /**
   * `handleInvalidPropertyType`: the object mapper finishes the method when
   * the property asks for it; without a default nothing is added; with one,
   * a value that is not a `DataTree` (so it came from the default and has
   * the wrong type) fails.
   */
  function InvalidTypeHandling(p: Property, env: Env, before: seq<Step>): Handling
  {
    if p.useObjectMapper then Handled(before + [Step(Always, ReturnObjectMapper(p.publicType))])
    else if !p.hasDefault then Unhandled(before)
    else Unhandled(before + [Step(NotDataTree, ReturnFail(InvalidPropertyType(p.name, MirrorText(p.propertyType), env.dtoClass)))])
  }

  /**
   * `handleNonGenericType`: the shortcuts, then a non-fallback custom
   * deserializer (which finishes the method), then the enum or config
   * branch, then a fallback custom deserializer (which finishes it too),
   * then the invalid-type check.
   */
  function NonGeneric(p: Property, env: Env): Result<Handling>
  {
    var custom := env.customOf(p.propertyType);
    if custom.Some? && !custom.value.isFallback then
      match CustomStep(custom.value)
      case Fail(e) => Fail(e)
      case Ok(s) => Ok(Handled(Shortcuts(p) + [s]))
    else match KindSteps(p, env)
      case Fail(e) => Fail(e)
      case Ok(kind) =>
        if custom.Some? then
          match CustomStep(custom.value)
          case Fail(e) => Fail(e)
          case Ok(s) => Ok(Handled(Shortcuts(p) + kind + [s]))
        else Ok(InvalidTypeHandling(p, env, Shortcuts(p) + kind))
  }

  /** The function an element of a `List` or a value of a `Map` is read with: a custom deserializer first, then a config's. */
  function ElementDeserializer(m: TypeMirror, env: Env): Result<Option<Deserializer>>
  {
    match env.customOf(m)
    case Some(info) =>
      if info.isStatic then Ok(Some(CustomReference(info.deserializerClass))) else Fail(IllegalArgument(NonStaticMessage))
    case None =>
      match ConfigCheck(m, env)
      case Fail(e) => Fail(e)
      case Ok(None) => Ok(None)
      case Ok(Some(c)) => Ok(Some(ConfigReference(c, DeserializeMethodName(c))))
  }

  /** `getSafeType` of a map's key type, as a `$T`. */
  function KeyClass(m: TypeMirror): TypeName
  {
    match m
    case DeclaredMirror(e, _, _) => Named(ClassNameOf(e))
    case _ => TypeNameOf(m)
  }

  /**
   * `handleGenericType`: a `List` is read element by element and a `Map`
   * value by value when their element type has a deserializer; any other
   * generic type throws.
   */
  function Generic(e: TypeElement, args: seq<TypeMirror>, env: Env): Result<Handling>
    requires |args| > 0
  {
    var canonical := CanonicalName(ClassNameOf(e));
    if canonical == ListName then
      match ElementDeserializer(args[0], env)
      case Fail(x) => Fail(x)
      case Ok(None) => Ok(Unhandled([]))
      case Ok(Some(d)) => Ok(Handled([Step(Always, ReturnList(d))]))
    else if canonical == MapName then
      if |args| < 2 then Fail(Raised("IndexOutOfBoundsException", "Index 1 out of bounds for length 1"))
      else match ElementDeserializer(args[1], env)
        case Fail(x) => Fail(x)
        case Ok(None) => Ok(Unhandled([]))
        case Ok(Some(d)) => Ok(Handled([Step(Always, ReturnMap(if d.ConfigReference? then Some(KeyClass(args[0])) else None, d))]))
    else Fail(IllegalState("Unexpected generic type: " + canonical))
  }

  predicate IsGeneric(m: TypeMirror)
  {
    m.DeclaredMirror? && |m.arguments| > 0
  }

  /** The method's steps after the null check, and whether they finish it. */
  function Body(p: Property, env: Env): Result<Handling>
  {
    if IsGeneric(p.propertyType) then Generic(p.propertyType.element, p.propertyType.arguments, env)
    else NonGeneric(p, env)
  }

  /** The last step when no shortcut finishes the method: the context's mapper. */
  function MapperStep(p: Property): Step
  {
    Step(Always, ReturnMapped(p.resultType))
  }

  /** `createDeserializeMethodFor`: the null check, the type-directed steps, and the mapper fallback if they do not finish the method. */
  function FieldPlan(p: Property, env: Env): Result<seq<Step>>
  {
    match Body(p, env)
    case Fail(e) => Fail(e)
    case Ok(Handled(s)) => Ok([NullStep(p, env)] + s)
    case Ok(Unhandled(s)) => Ok([NullStep(p, env)] + s + [MapperStep(p)])
  }

  // ---------------------------------------------------------------------
  // Running the steps
  // ---------------------------------------------------------------------

  /** The `DataTree` class of a node; `DataTreeNull` is none of the classes tested. */
  function TreeClassOf(t: DataTree): Option<TreeClass>
  {
    match t
    case Null => None
    case IntLit(_) => Some(LiteralInt)
    case FloatLit(_) => Some(LiteralFloat)
    case StringLit(_) => Some(LiteralString)
    case BoolLit(_) => Some(LiteralBoolean)
    case Array(_) => Some(TreeArray)
    case Map(_) => Some(TreeMap)
  }

  /** Whether a test holds of the raw value; `instanceOf` says which Java types a non-null object has. */
  predicate Holds(t: Test, v: Obj, instanceOf: (Obj, TypeName) -> bool)
  {
    match t
    case IsNull => v == JNull
    case InstanceOf(c) => v != JNull && instanceOf(v, c)
    case InstanceOfTree(c) => v.JTree? && TreeClassOf(v.tree) == Some(c)
    case InstanceOfString => v.JString?
    case NotDataTree => !v.JTree?
    case Always => true
  }

  /** What the method returns for `v`: the action of the first step whose test holds. */
  function Chosen(steps: seq<Step>, v: Obj, instanceOf: (Obj, TypeName) -> bool): Option<Action>
  {
    if |steps| == 0 then None
    else if Holds(steps[0].test, v, instanceOf) then Some(steps[0].action)
    else Chosen(steps[1..], v, instanceOf)
  }

  lemma {:induction false} ChosenAppend(a: seq<Step>, b: seq<Step>, v: Obj, instanceOf: (Obj, TypeName) -> bool)
    ensures Chosen(a + b, v, instanceOf) == if Chosen(a, v, instanceOf).Some? then Chosen(a, v, instanceOf) else Chosen(b, v, instanceOf)
  {
    if |a| == 0 {
      assert a + b == b;
    } else {
      assert (a + b)[1..] == a[1..] + b;
      ChosenAppend(a[1..], b, v, instanceOf);
    }
  }

  /** A final step with no condition catches whatever the earlier ones do not. */
  lemma AlwaysLast(a: seq<Step>, action: Action, v: Obj, instanceOf: (Obj, TypeName) -> bool)
    ensures Chosen(a + [Step(Always, action)], v, instanceOf) == if Chosen(a, v, instanceOf).Some? then Chosen(a, v, instanceOf) else Some(action)
  {
    ChosenAppend(a, [Step(Always, action)], v, instanceOf);
  }

  /** Whether one of the shortcuts catches `v`: a default of the right type, or a node of the type's `DataTree` class. */
  predicate ShortcutCatches(p: Property, v: Obj, instanceOf: (Obj, TypeName) -> bool)
  {
    (p.hasDefault && v != JNull && instanceOf(v, p.safeType)) ||
    (v.JTree? && DataTreeType(p.safeType).Some? && TreeClassOf(v.tree) == DataTreeType(p.safeType))
  }

  lemma ShortcutsMeaning(p: Property, v: Obj, instanceOf: (Obj, TypeName) -> bool)
    ensures Chosen(Shortcuts(p), v, instanceOf).Some? <==> ShortcutCatches(p, v, instanceOf)
    ensures p.hasDefault && v != JNull && instanceOf(v, p.safeType) ==> Chosen(Shortcuts(p), v, instanceOf) == Some(ReturnCast(p.safeType))
    ensures !(p.hasDefault && v != JNull && instanceOf(v, p.safeType)) && ShortcutCatches(p, v, instanceOf) ==>
              Chosen(Shortcuts(p), v, instanceOf) ==
              Some(ReturnLiteral(DataTreeType(p.safeType).value, Conversion(p.safeType, DataTreeType(p.safeType).value)))
  {
    ChosenAppend(DirectSteps(p), LiteralSteps(p), v, instanceOf);
  }

  // ---------------------------------------------------------------------
  // What the generated method does
  // ---------------------------------------------------------------------

  /** A body that finishes the method ends in a step that always applies. */
  lemma HandledEndsInAlways(p: Property, env: Env)
    requires Body(p, env).Ok? && Body(p, env).value.Handled?
    ensures |Body(p, env).value.steps| > 0
    ensures Body(p, env).value.steps[|Body(p, env).value.steps| - 1].test == Always
  {
    if !IsGeneric(p.propertyType) {
      var custom := env.customOf(p.propertyType);
      if custom.Some? && !custom.value.isFallback {
        assert Body(p, env).value.steps == Shortcuts(p) + [CustomStep(custom.value).value];
      } else if custom.Some? {
        var kind := KindSteps(p, env).value;
        assert Body(p, env).value.steps == Shortcuts(p) + kind + [CustomStep(custom.value).value];
      } else {
        var kind := KindSteps(p, env).value;
        assert Body(p, env).value.steps == Shortcuts(p) + kind + [Step(Always, ReturnObjectMapper(p.publicType))];
      }
    }
  }

  /** Every generated method returns something: its steps end in one that always applies. */
  lemma PlanAlwaysReturns(p: Property, env: Env, v: Obj, instanceOf: (Obj, TypeName) -> bool)
    requires FieldPlan(p, env).Ok?
    ensures Chosen(FieldPlan(p, env).value, v, instanceOf).Some?
  {
    var body := Body(p, env).value;
    if body.Unhandled? {
      AlwaysLast([NullStep(p, env)] + body.steps, MapperStep(p).action, v, instanceOf);
    } else {
      HandledEndsInAlways(p, env);
      var steps := body.steps;
      var last := steps[|steps| - 1];
      assert steps == steps[..|steps| - 1] + [Step(Always, last.action)];
      assert FieldPlan(p, env).value == ([NullStep(p, env)] + steps[..|steps| - 1]) + [Step(Always, last.action)];
      AlwaysLast([NullStep(p, env)] + steps[..|steps| - 1], last.action, v, instanceOf);
    }
  }

  /** A missing value short-circuits: `Ok(null)` for a nullable property, the not-found failure for any other. */
  lemma NullIsCheckedFirst(p: Property, env: Env, instanceOf: (Obj, TypeName) -> bool)
    requires FieldPlan(p, env).Ok?
    ensures p.nullable ==> Chosen(FieldPlan(p, env).value, JNull, instanceOf) == Some(ReturnOkNull)
    ensures !p.nullable ==>
              Chosen(FieldPlan(p, env).value, JNull, instanceOf) ==
              Some(ReturnFail(PropertyNotFound(p.name, TypeNameText(TypeNameOf(p.propertyType)), env.dtoClass, p.key)))
  {
  }

  /**
   * Reading from the data: an absent key with no default (or a `null`
   * default) takes the null branch, while a present key, even one holding
   * an explicit null node, and a non-null default skip it.
   */
  lemma NullBranchFromData(p: Property, env: Env, data: DataTree, default: Obj, instanceOf: (Obj, TypeName) -> bool)
    requires FieldPlan(p, env).Ok?
    ensures Get(data, p.key).None? && (!p.hasDefault || default == JNull) ==>
              Chosen(FieldPlan(p, env).value, RawValue(p, data, default), instanceOf) == Some(NullStep(p, env).action)
    ensures Get(data, p.key).Some? || (p.hasDefault && default != JNull) ==>
              Chosen(FieldPlan(p, env).value, RawValue(p, data, default), instanceOf) ==
              Chosen(FieldPlan(p, env).value[1..], RawValue(p, data, default), instanceOf)
  {
    RawValueNullIff(p, data, default);
  }

  /** Without a default the value is never tested against the property's own type, and never cast to it. */
  lemma DirectMatchNeedsDefault(p: Property, env: Env)
    requires FieldPlan(p, env).Ok? && !p.hasDefault
    ensures forall s :: s in FieldPlan(p, env).value ==> !s.test.InstanceOf? && !s.action.ReturnCast?
  {
    var steps := Body(p, env).value.steps;
    if IsGeneric(p.propertyType) {
      assert NoDirectMatch(steps);
    } else {
      NonGenericNoDirectMatch(p, env);
    }
    assert FieldPlan(p, env).value == [NullStep(p, env)] + steps || FieldPlan(p, env).value == [NullStep(p, env)] + steps + [MapperStep(p)];
  }

  /** No step tests the value against the property's own type or casts it to that type. */
  predicate NoDirectMatch(steps: seq<Step>)
  {
    forall s :: s in steps ==> !s.test.InstanceOf? && !s.action.ReturnCast?
  }

  /** The non-generic steps of a property without a default hold no direct type match. */
  lemma NonGenericNoDirectMatch(p: Property, env: Env)
    requires NonGeneric(p, env).Ok? && !p.hasDefault
    ensures NoDirectMatch(NonGeneric(p, env).value.steps)
  {
    assert DirectSteps(p) == [];
    assert NoDirectMatch(Shortcuts(p));
    assert KindSteps(p, env).Ok? ==> NoDirectMatch(KindSteps(p, env).value);
  }

  /** With a default, a value that already has the property's type is returned as it is. */
  lemma DefaultOfRightTypeIsCast(p: Property, env: Env, v: Obj, instanceOf: (Obj, TypeName) -> bool)
    requires FieldPlan(p, env).Ok? && !IsGeneric(p.propertyType)
    requires p.hasDefault && v != JNull && instanceOf(v, p.safeType)
    ensures Chosen(FieldPlan(p, env).value, v, instanceOf) == Some(ReturnCast(p.safeType))
  {
    var body := Body(p, env).value;
    assert body.steps[0] == Step(InstanceOf(p.safeType), ReturnCast(p.safeType));
  }

  /**
   * A node of the type's `DataTree` class that no default shortcut caught is
   * read as a literal, whatever else the property has (custom
   * deserializer, enum, config or object mapper).
   */
  lemma LiteralBeforeEverythingElse(p: Property, env: Env, t: DataTree, instanceOf: (Obj, TypeName) -> bool)
    requires FieldPlan(p, env).Ok? && !IsGeneric(p.propertyType)
    requires DataTreeType(p.safeType).Some? && TreeClassOf(t) == DataTreeType(p.safeType)
    requires !(p.hasDefault && instanceOf(JTree(t), p.safeType))
    ensures Chosen(FieldPlan(p, env).value, JTree(t), instanceOf) ==
            Some(ReturnLiteral(DataTreeType(p.safeType).value, Conversion(p.safeType, DataTreeType(p.safeType).value)))
  {
    var v := JTree(t);
    ShortcutsMeaning(p, v, instanceOf);
    var body := Body(p, env).value;
    var rest := body.steps[|Shortcuts(p)|..];
    assert body.steps == Shortcuts(p) + rest;
    ChosenAppend(Shortcuts(p), rest, v, instanceOf);
    if body.Unhandled? {
      assert FieldPlan(p, env).value == [NullStep(p, env)] + (Shortcuts(p) + (rest + [MapperStep(p)]));
      ChosenAppend(Shortcuts(p), rest + [MapperStep(p)], v, instanceOf);
    } else {
      assert FieldPlan(p, env).value == [NullStep(p, env)] + (Shortcuts(p) + rest);
    }
  }

  /** Whether the enum or config branch catches `v`: a string (plain only with a default) for an enum, a map node for a config. */
  predicate KindCatches(p: Property, env: Env, v: Obj)
  {
    if env.isEnum(p.propertyType) then (p.hasDefault && v.JString?) || (v.JTree? && v.tree.StringLit?)
    else IsConfigType(p.propertyType, env) && ConfigClassName(p.propertyType).Ok? && v.JTree? && v.tree.Map?
  }

  /** What the enum or config branch returns when it catches `v`. */
  function KindAction(p: Property, env: Env, v: Obj): Action
    requires KindCatches(p, env, v)
  {
    if env.isEnum(p.propertyType) then ReturnEnum(p.safeType, p.enumScheme, v.JTree?)
    else ReturnConfig(ConfigClassName(p.propertyType).value, DeserializeMethodName(ConfigClassName(p.propertyType).value))
  }

  /**
   * The enum and config branches catch exactly what `KindCatches` says. Only
   * a type that is not an enum throws: an unresolved one in `isConfigType`,
   * a config type whose class name `getConfigClassName` refuses.
   */
  lemma KindStepsMeaning(p: Property, env: Env, v: Obj, instanceOf: (Obj, TypeName) -> bool)
    ensures KindSteps(p, env).Fail? <==>
              !env.isEnum(p.propertyType) &&
              (p.propertyType.ErrorMirror? || (IsConfigType(p.propertyType, env) && ConfigClassName(p.propertyType).Fail?))
    ensures !env.isEnum(p.propertyType) && p.propertyType.ErrorMirror? ==>
              KindSteps(p, env) == Fail(Raised("DTOReferenceException", p.propertyType.text))
    ensures !env.isEnum(p.propertyType) && IsConfigType(p.propertyType, env) && ConfigClassName(p.propertyType).Fail? ==>
              KindSteps(p, env) == Fail(ConfigClassName(p.propertyType).error)
    ensures KindSteps(p, env).Ok? ==> (Chosen(KindSteps(p, env).value, v, instanceOf).Some? <==> KindCatches(p, env, v))
    ensures KindSteps(p, env).Ok? && KindCatches(p, env, v) ==> Chosen(KindSteps(p, env).value, v, instanceOf) == Some(KindAction(p, env, v))
  {
    if KindSteps(p, env).Ok? {
      KindStepsChoose(p, env, v, instanceOf);
    }
  }

  /** When the enum or config branch is written, what its steps choose for `v`. */
  lemma KindStepsChoose(p: Property, env: Env, v: Obj, instanceOf: (Obj, TypeName) -> bool)
    requires KindSteps(p, env).Ok?
    ensures Chosen(KindSteps(p, env).value, v, instanceOf).Some? <==> KindCatches(p, env, v)
    ensures KindCatches(p, env, v) ==> Chosen(KindSteps(p, env).value, v, instanceOf) == Some(KindAction(p, env, v))
  {
    if env.isEnum(p.propertyType) && p.hasDefault {
      ChosenAppend([Step(InstanceOfString, ReturnEnum(p.safeType, p.enumScheme, false))],
                   [Step(InstanceOfTree(LiteralString), ReturnEnum(p.safeType, p.enumScheme, true))], v, instanceOf);
    }
  }

  /** The steps up to the custom or invalid-type step, split so each part can be run on its own. */
  lemma NonGenericSplit(p: Property, env: Env, v: Obj, instanceOf: (Obj, TypeName) -> bool, last: seq<Step>)
    requires KindSteps(p, env).Ok?
    ensures Chosen([NullStep(p, env)] + (Shortcuts(p) + KindSteps(p, env).value) + last, v, instanceOf) ==
            if v == JNull then Some(NullStep(p, env).action)
            else if ShortcutCatches(p, v, instanceOf) then Chosen(Shortcuts(p), v, instanceOf)
            else if KindCatches(p, env, v) then Some(KindAction(p, env, v))
            else Chosen(last, v, instanceOf)
  {
    ShortcutsMeaning(p, v, instanceOf);
    KindStepsChoose(p, env, v, instanceOf);
    ChosenOfParts(NullStep(p, env), Shortcuts(p), KindSteps(p, env).value, last, v, instanceOf);
  }

  /** A first step, then three runs of steps: the first run, in order, whose choice is made decides. */
  lemma ChosenOfParts(first: Step, a: seq<Step>, b: seq<Step>, c: seq<Step>, v: Obj, instanceOf: (Obj, TypeName) -> bool)
    ensures Chosen([first] + (a + b) + c, v, instanceOf) ==
            if Holds(first.test, v, instanceOf) then Some(first.action)
            else if Chosen(a, v, instanceOf).Some? then Chosen(a, v, instanceOf)
            else if Chosen(b, v, instanceOf).Some? then Chosen(b, v, instanceOf)
            else Chosen(c, v, instanceOf)
  {
    var steps := [first] + (a + b) + c;
    assert steps[1..] == a + (b + c);
    ChosenAppend(a, b + c, v, instanceOf);
    ChosenAppend(b, c, v, instanceOf);
  }

  /**
   * A custom deserializer that is not a fallback comes straight after the
   * shortcuts and finishes the method: the enum, config, invalid-type and
   * mapper steps are never written. A deserializer that is not static
   * cannot be called, and generation throws.
   */
  lemma CustomDeserializerFirst(p: Property, env: Env, info: CustomInfo, v: Obj, instanceOf: (Obj, TypeName) -> bool)
    requires !IsGeneric(p.propertyType)
    requires env.customOf(p.propertyType) == Some(info) && !info.isFallback
    ensures !info.isStatic ==> FieldPlan(p, env) == Fail(IllegalArgument(NonStaticMessage))
    ensures info.isStatic ==> FieldPlan(p, env).Ok?
    ensures info.isStatic ==>
              forall s :: s in FieldPlan(p, env).value ==>
                !s.action.ReturnEnum? && !s.action.ReturnConfig? && !s.action.ReturnMapped? && !s.action.ReturnObjectMapper?
    ensures info.isStatic && v != JNull && !ShortcutCatches(p, v, instanceOf) ==>
              Chosen(FieldPlan(p, env).value, v, instanceOf) == Some(ReturnCustom(info.deserializerClass))
  {
    if info.isStatic {
      ShortcutsMeaning(p, v, instanceOf);
      var custom := Step(Always, ReturnCustom(info.deserializerClass));
      assert FieldPlan(p, env).value == [NullStep(p, env)] + (Shortcuts(p) + [custom]);
      ChosenAppend(Shortcuts(p), [custom], v, instanceOf);
    }
  }

  /**
   * A fallback custom deserializer is tried after the enum or config
   * branch, and then finishes the method: a value those branches catch
   * never reaches it, and any other value does.
   */
  lemma CustomFallbackAfterKind(p: Property, env: Env, info: CustomInfo, v: Obj, instanceOf: (Obj, TypeName) -> bool)
    requires !IsGeneric(p.propertyType)
    requires env.customOf(p.propertyType) == Some(info) && info.isFallback
    ensures KindSteps(p, env).Fail? ==> FieldPlan(p, env) == Fail(KindSteps(p, env).error)
    ensures KindSteps(p, env).Ok? && !info.isStatic ==> FieldPlan(p, env) == Fail(IllegalArgument(NonStaticMessage))
    ensures KindSteps(p, env).Ok? && info.isStatic ==> FieldPlan(p, env).Ok?
    ensures KindSteps(p, env).Ok? && info.isStatic && v != JNull && !ShortcutCatches(p, v, instanceOf) ==>
              Chosen(FieldPlan(p, env).value, v, instanceOf) ==
              Some(if KindCatches(p, env, v) then KindAction(p, env, v) else ReturnCustom(info.deserializerClass))
  {
    if KindSteps(p, env).Ok? && info.isStatic {
      var custom := Step(Always, ReturnCustom(info.deserializerClass));
      assert FieldPlan(p, env).value == [NullStep(p, env)] + (Shortcuts(p) + KindSteps(p, env).value) + [custom];
      NonGenericSplit(p, env, v, instanceOf, [custom]);
    }
  }

  /** Without a custom deserializer, generation fails exactly when the enum or config branch does. */
  lemma NoCustomPlanFails(p: Property, env: Env)
    requires !IsGeneric(p.propertyType) && env.customOf(p.propertyType).None?
    ensures FieldPlan(p, env).Fail? <==> KindSteps(p, env).Fail?
    ensures KindSteps(p, env).Fail? ==> FieldPlan(p, env) == Fail(KindSteps(p, env).error)
  {
  }

  /**
   * A config DTO declared in the unnamed package has no generated class name:
   * generating a property of that type throws, and no plan is written.
   */
  lemma UnnamedPackageConfigFails(p: Property, env: Env)
    requires !IsGeneric(p.propertyType) && env.customOf(p.propertyType).None? && !env.isEnum(p.propertyType)
    requires IsConfigType(p.propertyType, env) && p.propertyType.generatedFrom.None?
    requires Outermost(p.propertyType.element).packageName == ""
    ensures FieldPlan(p, env) == Fail(IllegalArgument("Unnamed packages are not supported"))
  {
    NoCustomPlanFails(p, env);
  }

  /**
   * Without a custom deserializer, a property marked for the object mapper
   * hands it whatever no shortcut, enum or config step catches, and the
   * context's mapper is never written.
   */
  lemma ObjectMapperFinishes(p: Property, env: Env, v: Obj, instanceOf: (Obj, TypeName) -> bool)
    requires !IsGeneric(p.propertyType) && env.customOf(p.propertyType).None? && p.useObjectMapper
    requires KindSteps(p, env).Ok?
    ensures FieldPlan(p, env).Ok?
    ensures forall s :: s in FieldPlan(p, env).value ==> !s.action.ReturnMapped?
    ensures v != JNull && !ShortcutCatches(p, v, instanceOf) && !KindCatches(p, env, v) ==>
              Chosen(FieldPlan(p, env).value, v, instanceOf) == Some(ReturnObjectMapper(p.publicType))
  {
    var kind := KindSteps(p, env).value;
    var om := Step(Always, ReturnObjectMapper(p.publicType));
    var plan := FieldPlan(p, env).value;
    assert plan == [NullStep(p, env)] + (Shortcuts(p) + kind) + [om];
    NonGenericSplit(p, env, v, instanceOf, [om]);
    forall s | s in plan ensures !s.action.ReturnMapped? {
      if s in Shortcuts(p) {
      } else if s in kind {
      }
    }
  }

  /**
   * Without a custom deserializer or the object mapper, what no shortcut,
   * enum or config step catches fails as having the wrong type when there
   * is a default and it is not a `DataTree`, and is otherwise handed to the
   * context's mapper.
   */
  lemma MapperFallback(p: Property, env: Env, v: Obj, instanceOf: (Obj, TypeName) -> bool)
    requires !IsGeneric(p.propertyType) && env.customOf(p.propertyType).None? && !p.useObjectMapper
    requires KindSteps(p, env).Ok?
    ensures FieldPlan(p, env).Ok?
    ensures v != JNull && !ShortcutCatches(p, v, instanceOf) && !KindCatches(p, env, v) ==>
              Chosen(FieldPlan(p, env).value, v, instanceOf) ==
              Some(if p.hasDefault && !v.JTree? then ReturnFail(InvalidPropertyType(p.name, MirrorText(p.propertyType), env.dtoClass))
                   else ReturnMapped(p.resultType))
  {
    var before := Shortcuts(p) + KindSteps(p, env).value;
    if !p.hasDefault {
      assert FieldPlan(p, env).value == [NullStep(p, env)] + before + [MapperStep(p)];
      NonGenericSplit(p, env, v, instanceOf, [MapperStep(p)]);
    } else {
      var invalid := Step(NotDataTree, ReturnFail(InvalidPropertyType(p.name, MirrorText(p.propertyType), env.dtoClass)));
      assert FieldPlan(p, env).value == [NullStep(p, env)] + before + [invalid, MapperStep(p)];
      NonGenericSplit(p, env, v, instanceOf, [invalid, MapperStep(p)]);
    }
  }

  /**
   * The function a `List` element or a `Map` value is read with: a custom
   * deserializer wins over a config class, which has to be a resolved type.
   */
  lemma ElementCustomFirst(m: TypeMirror, env: Env)
    ensures env.customOf(m).Some? && env.customOf(m).value.isStatic ==>
              ElementDeserializer(m, env) == Ok(Some(CustomReference(env.customOf(m).value.deserializerClass)))
    ensures env.customOf(m).Some? && !env.customOf(m).value.isStatic ==> ElementDeserializer(m, env) == Fail(IllegalArgument(NonStaticMessage))
    ensures env.customOf(m).None? && IsConfigType(m, env) && ConfigClassName(m).Ok? ==>
              ElementDeserializer(m, env) == Ok(Some(ConfigReference(ConfigClassName(m).value, DeserializeMethodName(ConfigClassName(m).value))))
    ensures env.customOf(m).None? && IsConfigType(m, env) && ConfigClassName(m).Fail? ==>
              ElementDeserializer(m, env) == Fail(ConfigClassName(m).error)
    ensures env.customOf(m).None? && m.ErrorMirror? ==> ElementDeserializer(m, env) == Fail(Raised("DTOReferenceException", m.text))
    ensures ElementDeserializer(m, env) == Ok(None) <==> env.customOf(m).None? && !m.ErrorMirror? && !IsConfigType(m, env)
  {
  }

  /** A generic property other than a `List` or a `Map` cannot be read, and generation throws. */
  lemma UnexpectedGenericType(p: Property, env: Env)
    requires IsGeneric(p.propertyType)
    requires CanonicalName(ClassNameOf(p.propertyType.element)) !in {ListName, MapName}
    ensures FieldPlan(p, env) == Fail(IllegalState("Unexpected generic type: " + CanonicalName(ClassNameOf(p.propertyType.element))))
  {
  }

  /**
   * A `List` whose element type has a deserializer is read element by
   * element with it; without one the method goes straight to the mapper.
   */
  lemma ListProperty(p: Property, env: Env)
    requires IsGeneric(p.propertyType) && CanonicalName(ClassNameOf(p.propertyType.element)) == ListName
    ensures FieldPlan(p, env) ==
            match ElementDeserializer(p.propertyType.arguments[0], env)
            case Fail(e) => Fail(e)
            case Ok(None) => Ok([NullStep(p, env), MapperStep(p)])
            case Ok(Some(f)) => Ok([NullStep(p, env), Step(Always, ReturnList(f))])
  {
    match ElementDeserializer(p.propertyType.arguments[0], env)
    case Fail(e) =>
    case Ok(None) =>
      assert [NullStep(p, env)] + [] + [MapperStep(p)] == [NullStep(p, env), MapperStep(p)];
    case Ok(Some(f)) =>
      assert [NullStep(p, env)] + [Step(Always, ReturnList(f))] == [NullStep(p, env), Step(Always, ReturnList(f))];
  }

  /**
   * A `Map` whose value type has a deserializer is read value by value with
   * it, the key class passed along only to a config's deserializer; without
   * one the method goes straight to the mapper.
   */
  lemma MapProperty(p: Property, env: Env)
    requires IsGeneric(p.propertyType) && CanonicalName(ClassNameOf(p.propertyType.element)) == MapName
    requires |p.propertyType.arguments| >= 2
    ensures var args := p.propertyType.arguments;
            FieldPlan(p, env) ==
            match ElementDeserializer(args[1], env)
            case Fail(e) => Fail(e)
            case Ok(None) => Ok([NullStep(p, env), MapperStep(p)])
            case Ok(Some(f)) => Ok([NullStep(p, env), Step(Always, ReturnMap(if f.ConfigReference? then Some(KeyClass(args[0])) else None, f))])
  {
    var args := p.propertyType.arguments;
    assert CanonicalName(ClassNameOf(p.propertyType.element)) != ListName;
    match ElementDeserializer(args[1], env)
    case Fail(e) =>
    case Ok(None) =>
      assert [NullStep(p, env)] + [] + [MapperStep(p)] == [NullStep(p, env), MapperStep(p)];
    case Ok(Some(f)) =>
      var step := Step(Always, ReturnMap(if f.ConfigReference? then Some(KeyClass(args[0])) else None, f));
      assert [NullStep(p, env)] + [step] == [NullStep(p, env), step];
  }
}
