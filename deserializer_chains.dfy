/**
 * The `deserializeX(context)` method of a whole config class, written by
 * `DeserializationCodeGenerator.createDeserializeMethods`. A union tries
 * its alternatives in order, each after the failure of the one before; any
 * other class deserializes its parent (when it extends one) and then each
 * property in order through a `FlatMapChainBuilder`, and passes every value
 * to the constructor.
 */
module DeserializerChains {
  import opened Results
  import opened Strings
  import opened ClassNames
  import opened Scopes
  import opened CodeBuilders
  import opened FlatMapChains
  import opened MethodNames
  import opened DeserializationPlans
  import opened Sequences

  /** `me.bristermitten.mittenlib.util.Result`. */
  const ResultClass := ClassName("me.bristermitten.mittenlib.util", [], "Result")

  /** `me.bristermitten.mittenlib.config.exception.ConfigLoadingErrors`. */
  const ErrorsClass := ClassName("me.bristermitten.mittenlib.config.exception", [], "ConfigLoadingErrors")

  // ---------------------------------------------------------------------
  // Unions
  // ---------------------------------------------------------------------

  /** The last resort of a union: `Result.fail(ConfigLoadingErrors.noUnionMatch())`. */
  function NoMatchCode(): string
  {
    CanonicalName(ResultClass) + ".fail(" + CanonicalName(ErrorsClass) + ".noUnionMatch())"
  }

  /** One alternative: its deserializer, its value cast to the union's public type, and the rest of the union if it fails. */
  function AlternativeCode(alternative: ClassName, publicClass: ClassName): string
  {
    CanonicalName(alternative) + "." + DeserializeMethodName(Named(alternative)) + "(context).map(" +
    CanonicalName(publicClass) + ".class::cast).orElse(() -> \n"
  }

  /** What the loop adds for the alternatives: each one's code, then an indent. */
  function AlternativeEvents(alternatives: seq<ClassName>, publicClass: ClassName): seq<Event>
  {
    if |alternatives| == 0 then []
    else [CodeAdded(AlternativeCode(alternatives[0], publicClass)), Indented] + AlternativeEvents(alternatives[1..], publicClass)
  }

  /** Everything added to the union's code block. */
  function UnionEvents(alternatives: seq<ClassName>, publicClass: ClassName): seq<Event>
  {
    [CodeAdded("return ")] + AlternativeEvents(alternatives, publicClass) +
    [CodeAdded(NoMatchCode()), CodeAdded(Repeat(')', |alternatives|))]
  }

  /** The text of a code block: what its `add` calls wrote, in order (indents change only the layout). */
  function CodeText(events: seq<Event>): string
  {
    if |events| == 0 then ""
    else (if events[0].CodeAdded? then events[0].code else "") + CodeText(events[1..])
  }

  /** The union as nested calls: every alternative's `orElse` encloses the ones after it. */
  function UnionExpression(alternatives: seq<ClassName>, publicClass: ClassName): string
  {
    if |alternatives| == 0 then NoMatchCode()
    else AlternativeCode(alternatives[0], publicClass) + UnionExpression(alternatives[1..], publicClass) + ")"
  }

  /** The alternatives' code, one after the other. */
  function UnionOpenings(alternatives: seq<ClassName>, publicClass: ClassName): string
  {
    if |alternatives| == 0 then "" else AlternativeCode(alternatives[0], publicClass) + UnionOpenings(alternatives[1..], publicClass)
  }

  lemma {:induction false} CodeTextAppend(a: seq<Event>, b: seq<Event>)
    ensures CodeText(a + b) == CodeText(a) + CodeText(b)
  {
    if |a| == 0 {
      assert a + b == b;
      assert "" + CodeText(b) == CodeText(b);
    } else {
      assert (a + b)[1..] == a[1..] + b;
      CodeTextAppend(a[1..], b);
      AppendAssoc(if a[0].CodeAdded? then a[0].code else "", CodeText(a[1..]), CodeText(b));
    }
  }

  lemma {:induction false} AlternativeEventsAppend(a: seq<ClassName>, b: seq<ClassName>, publicClass: ClassName)
    ensures AlternativeEvents(a + b, publicClass) == AlternativeEvents(a, publicClass) + AlternativeEvents(b, publicClass)
  {
    if |a| == 0 {
      assert a + b == b;
    } else {
      assert (a + b)[1..] == a[1..] + b;
      AlternativeEventsAppend(a[1..], b, publicClass);
      AppendAssoc([CodeAdded(AlternativeCode(a[0], publicClass)), Indented], AlternativeEvents(a[1..], publicClass),
        AlternativeEvents(b, publicClass));
    }
  }

  lemma {:induction false} AlternativeText(alternatives: seq<ClassName>, publicClass: ClassName)
    ensures CodeText(AlternativeEvents(alternatives, publicClass)) == UnionOpenings(alternatives, publicClass)
  {
    if |alternatives| > 0 {
      var head := [CodeAdded(AlternativeCode(alternatives[0], publicClass)), Indented];
      AlternativeText(alternatives[1..], publicClass);
      CodeTextAppend(head, AlternativeEvents(alternatives[1..], publicClass));
      assert CodeText(head) == AlternativeCode(alternatives[0], publicClass) + CodeText(head[1..]);
      assert CodeText(head[1..]) == "" + CodeText(head[2..]);
    }
  }

  lemma {:induction false} UnionOpeningsNest(alternatives: seq<ClassName>, publicClass: ClassName)
    ensures UnionOpenings(alternatives, publicClass) + NoMatchCode() + Repeat(')', |alternatives|) == UnionExpression(alternatives, publicClass)
  {
    if |alternatives| > 0 {
      var a, u, n, c := AlternativeCode(alternatives[0], publicClass), UnionOpenings(alternatives[1..], publicClass),
                        NoMatchCode(), Repeat(')', |alternatives[1..]|);
      UnionOpeningsNest(alternatives[1..], publicClass);
      assert Repeat(')', |alternatives|) == c + ")";
      AppendAssoc(a + u + n, c, ")");
      AppendAssoc(a + u, n, c);
      AppendAssoc(a, u, n + c);
      AppendAssoc(u, n, c);
    }
  }

  /**
   * The union's statement reads `return` and then the nested expression:
   * the loop's openings and the closing run of `)` match up, one per
   * alternative.
   */
  lemma UnionTextIsNested(alternatives: seq<ClassName>, publicClass: ClassName)
    ensures CodeText(UnionEvents(alternatives, publicClass)) == "return " + UnionExpression(alternatives, publicClass)
  {
    var alts := AlternativeEvents(alternatives, publicClass);
    var opening, noMatch, closing := UnionOpenings(alternatives, publicClass), NoMatchCode(), Repeat(')', |alternatives|);
    var start := [CodeAdded("return ")];
    var tail := [CodeAdded(noMatch), CodeAdded(closing)];
    CodeTextAppend(start + alts, tail);
    CodeTextAppend(start, alts);
    CodeTextAppend([CodeAdded(noMatch)], [CodeAdded(closing)]);
    SingleCode("return ");
    SingleCode(noMatch);
    SingleCode(closing);
    AlternativeText(alternatives, publicClass);
    assert CodeText(UnionEvents(alternatives, publicClass)) == "return " + opening + (noMatch + closing);
    UnionOpeningsNest(alternatives, publicClass);
    Regroup("return ", opening, noMatch, closing);
  }

  lemma Regroup(a: string, b: string, c: string, d: string)
    ensures a + b + (c + d) == a + (b + c + d)
  {
  }

  lemma SingleCode(code: string)
    ensures CodeText([CodeAdded(code)]) == code
  {
    assert CodeText([CodeAdded(code)]) == code + CodeText([]);
  }

  /** The union branch of `createDeserializeMethods`: the code block built alternative by alternative. */
  method UnionDeserializer(alternatives: seq<ClassName>, publicClass: ClassName, block: CodeBlockBuilder)
    modifies block
    ensures block.events == old(block.events) + UnionEvents(alternatives, publicClass)
  {
    block.Emit(CodeAdded("return "));
    ghost var start := block.events;
    for i := 0 to |alternatives|
      invariant block.events == start + AlternativeEvents(alternatives[..i], publicClass)
    {
      ghost var done := AlternativeEvents(alternatives[..i], publicClass);
      ghost var added := [CodeAdded(AlternativeCode(alternatives[i], publicClass)), Indented];
      AlternativeEventsAppend(alternatives[..i], [alternatives[i]], publicClass);
      TakeSnoc(alternatives, i);
      assert AlternativeEvents([alternatives[i]], publicClass) == added + AlternativeEvents([], publicClass) == added;
      block.Emit(CodeAdded(AlternativeCode(alternatives[i], publicClass)));
      block.Emit(Indented);
      AppendAssoc(start + done, [CodeAdded(AlternativeCode(alternatives[i], publicClass))], [Indented]);
      AppendAssoc(start, done, added);
    }
    TakeAll(alternatives);
    ghost var middle := block.events;
    block.Emit(CodeAdded(NoMatchCode()));
    block.Emit(CodeAdded(Repeat(')', |alternatives|)));
    AppendAssoc(middle, [CodeAdded(NoMatchCode())], [CodeAdded(Repeat(')', |alternatives|))]);
    AppendAssoc(old(block.events), [CodeAdded("return ")], AlternativeEvents(alternatives, publicClass));
    AppendAssoc(old(block.events), [CodeAdded("return ")] + AlternativeEvents(alternatives, publicClass),
      [CodeAdded(NoMatchCode()), CodeAdded(Repeat(')', |alternatives|))]);
  }

  /**
   * The value of the union's expression when the alternatives' deserializers
   * give `results` in turn: each `orElse` runs the rest only after a failure.
   */
  function UnionValue<V>(results: seq<Result<V>>): Result<V>
  {
    if |results| == 0 then Fail(NoUnionMatch) else results[0].OrElse(UnionValue(results[1..]))
  }

  /**
   * A union takes the first alternative that succeeds; when none does it
   * fails with `noUnionMatch`, and the alternatives' own errors are dropped.
   */
  lemma {:induction false} UnionFirstMatch<V>(results: seq<Result<V>>, k: nat)
    ensures (forall i :: 0 <= i < |results| ==> results[i].Fail?) ==> UnionValue(results) == Fail(NoUnionMatch)
    ensures k < |results| && results[k].Ok? && (forall i :: 0 <= i < k ==> results[i].Fail?) ==> UnionValue(results) == results[k]
  {
    if |results| > 0 {
      UnionFirstMatch(results[1..], if k == 0 then 0 else k - 1);
      if forall i :: 0 <= i < |results| ==> results[i].Fail? {
        assert forall i :: 0 <= i < |results[1..]| ==> results[1..][i] == results[i + 1];
      }
      if k > 0 && k < |results| && (forall i :: 0 <= i < k ==> results[i].Fail?) {
        assert results[0].Fail?;
        assert forall i :: 0 <= i < k - 1 ==> results[1..][i] == results[i + 1];
      }
    }
  }

  // ---------------------------------------------------------------------
  // Aggregates
  // ---------------------------------------------------------------------

  /** A generated property method: its name and its declared return type. */
  datatype FieldMethod = FieldMethod(methodName: string, returnType: TypeName)

  /** `createDeserializeMethodBuilder`: `deserialize` and the capitalised name, returning `Result<T>` of the boxed public type. */
  function FieldMethodOf(p: Property): FieldMethod
  {
    FieldMethod(DeserializePrefix + Capitalize(p.name), Parameterized(ResultClass, [p.resultType]))
  }

  /** The type the chain binds a method's value to: the `T` of a `Result<T>`; any other parameterised type throws. */
  function ChainType(returnType: TypeName): Result<TypeName>
  {
    if returnType.Parameterized? then
      if returnType.raw == ResultClass && |returnType.arguments| > 0 then Ok(returnType.arguments[0])
      else Fail(IllegalState("Expected Result<T> return type, got: " + TypeNameText(returnType)))
    else Ok(returnType)
  }

  /** Every property method the generator writes returns `Result<T>`, so the check never throws for it. */
  lemma FieldMethodChainType(p: Property)
    ensures ChainType(FieldMethodOf(p).returnType) == Ok(p.resultType)
    ensures StartsWith(FieldMethodOf(p).methodName, DeserializePrefix)
  {
    assert FieldMethodOf(p).methodName[..|DeserializePrefix|] == DeserializePrefix;
  }

  /** The arguments a property method is called with: the context, and the DAO when there is one. */
  function CallArguments(hasDao: bool): string
  {
    if hasDao then "context, dao" else "context"
  }

  /** The parent's operation: `Parent.deserializeParent(context)`, bound to the parent's type. */
  function ParentCall(parent: TypeName): (string, TypeName)
  {
    (TypeNameText(parent) + "." + DeserializeMethodName(parent) + "(context)", parent)
  }

  function FieldCall(m: FieldMethod, hasDao: bool): string
  {
    m.methodName + "(" + CallArguments(hasDao) + ")"
  }

  /** The properties' operations, in order, up to the first method whose return type throws. */
  function FieldCalls(methods: seq<FieldMethod>, hasDao: bool): Result<seq<(string, TypeName)>>
  {
    if |methods| == 0 then Ok([])
    else
      var last := methods[|methods| - 1];
      match FieldCalls(methods[..|methods| - 1], hasDao)
      case Fail(e) => Fail(e)
      case Ok(calls) =>
        match ChainType(last.returnType)
        case Fail(e) => Fail(e)
        case Ok(t) => Ok(calls + [(FieldCall(last, hasDao), t)])
  }

  /**
   * The properties' operations are their calls in order, each bound to its
   * method's result type; it fails exactly at the first method without a
   * `Result<T>` return type.
   */
  lemma {:induction false} FieldCallsMeaning(methods: seq<FieldMethod>, hasDao: bool)
    ensures FieldCalls(methods, hasDao).Ok? <==> forall i :: 0 <= i < |methods| ==> ChainType(methods[i].returnType).Ok?
    ensures FieldCalls(methods, hasDao).Ok? ==>
              |FieldCalls(methods, hasDao).value| == |methods| &&
              forall i :: 0 <= i < |methods| ==>
                FieldCalls(methods, hasDao).value[i] == (FieldCall(methods[i], hasDao), ChainType(methods[i].returnType).value)
  {
    if |methods| > 0 {
      var init := methods[..|methods| - 1];
      FieldCallsMeaning(init, hasDao);
      assert forall i :: 0 <= i < |init| ==> init[i] == methods[i];
    }
  }

  /** Once a method's return type throws, the methods after it change nothing. */
  lemma {:induction false} FieldCallsFailPersists(a: seq<FieldMethod>, b: seq<FieldMethod>, hasDao: bool)
    requires FieldCalls(a, hasDao).Fail?
    ensures FieldCalls(a + b, hasDao) == FieldCalls(a, hasDao)
  {
    if |b| > 0 {
      FieldCallsFailPersists(a, b[..|b| - 1], hasDao);
      assert (a + b)[..|a + b| - 1] == a + b[..|b| - 1];
    } else {
      assert a + b == a;
    }
  }

  /** A method whose return type throws makes the whole chain throw, when the methods before it did not. */
  lemma FieldCallsFailAt(methods: seq<FieldMethod>, i: nat, hasDao: bool)
    requires i < |methods| && FieldCalls(methods[..i], hasDao).Ok? && ChainType(methods[i].returnType).Fail?
    ensures FieldCalls(methods, hasDao) == Fail(ChainType(methods[i].returnType).error)
  {
    assert methods[..i + 1][..i] == methods[..i];
    assert FieldCalls(methods[..i + 1], hasDao) == Fail(ChainType(methods[i].returnType).error);
    FieldCallsFailPersists(methods[..i + 1], methods[i + 1..], hasDao);
    assert methods[..i + 1] + methods[i + 1..] == methods;
  }

  /** Every operation of the chain: the superclass's first, when there is one, then the properties'. */
  function ChainCalls(parent: Option<TypeName>, methods: seq<FieldMethod>, hasDao: bool): Result<seq<(string, TypeName)>>
  {
    match FieldCalls(methods, hasDao)
    case Fail(e) => Fail(e)
    case Ok(calls) => Ok((if parent.Some? then [ParentCall(parent.value)] else []) + calls)
  }

  /** The operations of a fresh chain: the `i`th is bound to `var<i>`. */
  function Bound(calls: seq<(string, TypeName)>): (ops: seq<ChainOperation>)
    ensures |ops| == |calls|
  {
    seq(|calls|, i requires 0 <= i < |calls| => ChainOperation(calls[i].0, Variable(AnonymousName(i), calls[i].1)))
  }

  function AnonymousNames(n: nat): (names: seq<string>)
    ensures |names| == n
  {
    seq(n, i requires 0 <= i < n => AnonymousName(i))
  }

  /** The chain's variables so far are `var0`, `var1`, ..., so the next anonymous name is free. */
  lemma NextNameFree(calls: seq<(string, TypeName)>)
    ensures AnonymousName(|calls|) !in Names(ResultVariables(Bound(calls)))
    ensures Names(ResultVariables(Bound(calls))) == AnonymousNames(|calls|)
  {
    var names := Names(ResultVariables(Bound(calls)));
    forall i | 0 <= i < |calls| ensures names[i] != AnonymousName(|calls|) {
      AnonymousNamesDiffer(i, |calls|);
    }
  }

  /** One more operation on a chain bound by `Bound`. */
  lemma BoundAppend(calls: seq<(string, TypeName)>, c: (string, TypeName))
    ensures Bound(calls + [c]) == Bound(calls) + [ChainOperation(c.0, Variable(AnonymousName(|calls|), c.1))]
  {
  }

  /**
   * The chain of an aggregate: the parent's operation and then the
   * properties' are added to a fresh `FlatMapChainBuilder`, which then
   * writes the nested `flatMap` expression ending in the constructor call.
   * A chain with no operation at all (no parent, no property) throws.
   */
  method AggregateChain(parent: Option<TypeName>, methods: seq<FieldMethod>, hasDao: bool, constructorClass: TypeName)
    returns (r: Result<string>)
    ensures ChainCalls(parent, methods, hasDao).Fail? ==> r == Fail(ChainCalls(parent, methods, hasDao).error)
    ensures ChainCalls(parent, methods, hasDao) == Ok([]) ==> r == Fail(IllegalState("No operations added to chain"))
    ensures ChainCalls(parent, methods, hasDao).Ok? && ChainCalls(parent, methods, hasDao).value != [] ==>
              var calls := ChainCalls(parent, methods, hasDao).value;
              r == Ok("return " + Nested(Bound(calls), Construction(CanonicalName(ResultClass), TypeNameText(constructorClass),
                                                                    AnonymousNames(|calls|))))
  {
    var chain := new FlatMapChainBuilder.Fresh();
    var first: seq<(string, TypeName)> := [];
    if parent.Some? {
      NextNameFree([]);
      var added := chain.AddOperation(ParentCall(parent.value).0, parent.value);
      first := [ParentCall(parent.value)];
      assert chain.operations == Bound(first);
    }
    var done: seq<(string, TypeName)> := [];
    for i := 0 to |methods|
      invariant chain.Valid() && chain.prior == []
      invariant FieldCalls(methods[..i], hasDao) == Ok(done)
      invariant chain.operations == Bound(first + done)
      invariant chain.scope.anonymousVarCounter == |first + done|
    {
      var t := ChainType(methods[i].returnType);
      if t.Fail? {
        FieldCallsFailAt(methods, i, hasDao);
        return Fail(t.error);
      }
      var call := (FieldCall(methods[i], hasDao), t.value);
      assert FieldCalls(methods[..i + 1], hasDao) == Ok(done + [call]) by {
        assert methods[..i + 1][..i] == methods[..i];
      }
      NextNameFree(first + done);
      var added := chain.AddOperation(call.0, call.1);
      BoundAppend(first + done, call);
      AppendAssoc(first, done, [call]);
      done := done + [call];
    }
    assert ChainCalls(parent, methods, hasDao) == Ok(first + done) by {
      TakeAll(methods);
    }
    NextNameFree(first + done);
    assert chain.prior + chain.Variables() == ResultVariables(Bound(first + done));
    r := chain.BuildWithConstructor(ResultClass, constructorClass);
  }

  /** `new Dao()`, the first statement of a class with a DAO. */
  function DaoStatement(dao: ClassName): string
  {
    CanonicalName(dao) + " dao = new " + CanonicalName(dao) + "()"
  }

  /** The methods of an aggregate's properties, in order. */
  function FieldMethods(properties: seq<Property>): (ms: seq<FieldMethod>)
    ensures |ms| == |properties| && forall i :: 0 <= i < |properties| ==> ms[i] == FieldMethodOf(properties[i])
  {
    seq(|properties|, i requires 0 <= i < |properties| => FieldMethodOf(properties[i]))
  }

  /** The plans of an aggregate's properties, in order. */
  function FieldPlans(properties: seq<Property>, env: Env): (ps: seq<Result<seq<Step>>>)
    ensures |ps| == |properties| && forall i :: 0 <= i < |properties| ==> ps[i] == FieldPlan(properties[i], env)
  {
    seq(|properties|, i requires 0 <= i < |properties| => FieldPlan(properties[i], env))
  }

  /** The generated code of an aggregate: each property's method, and the statements of the class's own method. */
  datatype Aggregate = Aggregate(fieldMethods: seq<seq<Step>>, body: seq<Event>)

  /** The operations of an aggregate's chain: the parent's, then one call per property bound to its boxed public type. */
  function AggregateCalls(parent: Option<TypeName>, properties: seq<Property>, hasDao: bool): (calls: seq<(string, TypeName)>)
    ensures |calls| == (if parent.Some? then 1 else 0) + |properties|
  {
    (if parent.Some? then [ParentCall(parent.value)] else []) +
    seq(|properties|, i requires 0 <= i < |properties| => (FieldCall(FieldMethodOf(properties[i]), hasDao), properties[i].resultType))
  }

  /** The return types of the generator's own methods never throw, so the chain is always the aggregate's calls. */
  lemma AggregateCallsNeverFail(parent: Option<TypeName>, properties: seq<Property>, hasDao: bool)
    ensures ChainCalls(parent, FieldMethods(properties), hasDao) == Ok(AggregateCalls(parent, properties, hasDao))
  {
    var methods := FieldMethods(properties);
    forall i | 0 <= i < |methods| ensures ChainType(methods[i].returnType) == Ok(properties[i].resultType) {
      FieldMethodChainType(properties[i]);
    }
    FieldCallsMeaning(methods, hasDao);
    var fields := seq(|properties|, i requires 0 <= i < |properties| => (FieldCall(FieldMethodOf(properties[i]), hasDao), properties[i].resultType));
    assert FieldCalls(methods, hasDao).value == fields;
    assert AggregateCalls(parent, properties, hasDao) == (if parent.Some? then [ParentCall(parent.value)] else []) + fields;
  }

  /**
   * The parent's generated class name, from `getConfigClassName` on a class
   * source's superclass: absent without a superclass, otherwise that call's
   * name or the exception it throws.
   */
  function ParentClassName(superClass: Option<TypeMirror>): (r: Result<Option<TypeName>>)
    ensures superClass.None? ==> r == Ok(None)
    ensures superClass.Some? ==> (r.Ok? <==> ConfigClassName(superClass.value).Ok?)
    ensures superClass.Some? && r.Ok? ==> r.value == Some(ConfigClassName(superClass.value).value)
    ensures superClass.Some? && r.Fail? ==> r.error == ConfigClassName(superClass.value).error
  {
    if superClass.None? then Ok(None)
    else
      match ConfigClassName(superClass.value)
      case Ok(c) => Ok(Some(c))
      case Fail(e) => Fail(e)
  }

  /**
   * The aggregate branch of `createDeserializeMethods`: the DAO is created
   * first; every property's method is generated, in order, and the first
   * one that throws ends generation; then the superclass's config class name
   * is looked up, which can throw as well; then the chain over the parent
   * and the property methods.
   */
  method AggregateDeserializer(dao: Option<ClassName>, superClass: Option<TypeMirror>, properties: seq<Property>, env: Env,
                               constructorClass: TypeName)
    returns (r: Result<Aggregate>)
    ensures Sequenced(FieldPlans(properties, env)).Fail? ==> r == Fail(Sequenced(FieldPlans(properties, env)).error)
    ensures Sequenced(FieldPlans(properties, env)).Ok? && superClass.Some? && ConfigClassName(superClass.value).Fail? ==>
              r == Fail(ConfigClassName(superClass.value).error)
    ensures Sequenced(FieldPlans(properties, env)).Ok? && superClass.None? && properties == [] ==>
              r == Fail(IllegalState("No operations added to chain"))
    ensures Sequenced(FieldPlans(properties, env)).Ok? && ParentClassName(superClass).Ok? && (superClass.Some? || properties != []) ==>
              var calls := AggregateCalls(ParentClassName(superClass).value, properties, dao.Some?);
              r == Ok(Aggregate(Sequenced(FieldPlans(properties, env)).value,
                                (if dao.Some? then [StatementAdded(DaoStatement(dao.value))] else []) +
                                [StatementAdded("return " + Nested(Bound(calls),
                                                                   Construction(CanonicalName(ResultClass), TypeNameText(constructorClass),
                                                                                AnonymousNames(|calls|))))]))
  {
    var block := new CodeBlockBuilder();
    if dao.Some? {
      block.Emit(StatementAdded(DaoStatement(dao.value)));
    }
    var plans := Sequence(FieldPlans(properties, env));
    if plans.Fail? {
      return Fail(plans.error);
    }
    var parent := ParentClassName(superClass);
    if parent.Fail? {
      return Fail(parent.error);
    }
    AggregateCallsNeverFail(parent.value, properties, dao.Some?);
    var chain := AggregateChain(parent.value, FieldMethods(properties), dao.Some?, constructorClass);
    if chain.Fail? {
      return Fail(chain.error);
    }
    ghost var daoStatements := if dao.Some? then [StatementAdded(DaoStatement(dao.value))] else [];
    assert block.events == daoStatements;
    block.Emit(StatementAdded(chain.value));
    assert block.events == daoStatements + [StatementAdded(chain.value)];
    r := Ok(Aggregate(plans.value, block.events));
  }

  /**
   * Running an aggregate's chain: the parent is deserialized first and its
   * failure is the result; otherwise the first failing property decides it;
   * when all succeed the constructor receives the parent's value and then
   * each property's, in order.
   */
  lemma ParentRunsFirst<V>(parentResult: Result<V>, fieldResults: seq<Result<V>>)
    ensures parentResult.Fail? ==> NestedValue([parentResult] + fieldResults, []) == Fail(parentResult.error)
    ensures parentResult.Ok? && Sequenced(fieldResults).Fail? ==>
              NestedValue([parentResult] + fieldResults, []) == Fail(Sequenced(fieldResults).error)
    ensures parentResult.Ok? && Sequenced(fieldResults).Ok? ==>
              NestedValue([parentResult] + fieldResults, []) == Ok([parentResult.value] + Sequenced(fieldResults).value)
  {
    var all := [parentResult] + fieldResults;
    assert all[0] == parentResult && all[1..] == fieldResults;
    NestedValueIsSequence(all, []);
    if parentResult.Ok? && Sequenced(fieldResults).Ok? {
      var vs := [parentResult.value] + Sequenced(fieldResults).value;
      assert [] + vs == vs;
    }
  }
}
