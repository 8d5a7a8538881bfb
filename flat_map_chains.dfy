/**
 * `FlatMapChainBuilder`: collects `Result`-returning expressions, gives
 * each an anonymous variable in a scope, and writes them out as one
 * `return e0.flatMap(var0 -> e1.flatMap(var1 -> ... Result.ok(new C(...))))`
 * expression. The code block is modelled as its text.
 */
module FlatMapChains {
  import opened Sequences
  import opened Results
  import opened Strings
  import opened ClassNames
  import opened Scopes

  /** `ChainOperation`: an expression and the variable bound to its value. */
  datatype ChainOperation = ChainOperation(expression: string, resultVariable: Variable)

  function ResultVariables(ops: seq<ChainOperation>): (vs: seq<Variable>)
    ensures |vs| == |ops|
    ensures forall i :: 0 <= i < |ops| ==> vs[i] == ops[i].resultVariable
  {
    seq(|ops|, i requires 0 <= i < |ops| => ops[i].resultVariable)
  }

  /** What one operation writes before the rest of the chain. */
  function Opening(op: ChainOperation): string
  {
    op.expression + ".flatMap(" + op.resultVariable.name + " -> \n"
  }

  function Openings(ops: seq<ChainOperation>): string
  {
    if |ops| == 0 then "" else Opening(ops[0]) + Openings(ops[1..])
  }

  /** The innermost expression: the constructor applied to the arguments, wrapped in `ok`. */
  function Construction(resultText: string, constructorText: string, args: seq<string>): string
  {
    resultText + ".ok(new " + constructorText + "(" + Joined(args, ", ") + "))"
  }

  /** The chain as nested lambdas: each operation's `flatMap` encloses the rest and is closed after it. */
  function Nested(ops: seq<ChainOperation>, inner: string): string
  {
    if |ops| == 0 then inner
    else ops[0].expression + ".flatMap(" + ops[0].resultVariable.name + " -> \n" + Nested(ops[1..], inner) + ")"
  }

  lemma {:induction false} OpeningsAppend(a: seq<ChainOperation>, b: seq<ChainOperation>)
    ensures Openings(a + b) == Openings(a) + Openings(b)
  {
    if |a| == 0 {
      assert a + b == b;
    } else {
      assert (a + b)[1..] == a[1..] + b;
      OpeningsAppend(a[1..], b);
    }
  }

  /**
   * Writing every opening, then the constructor call, then one `)` per
   * operation gives the nested chain: the parentheses of each `flatMap`
   * close in the reverse order of their opening.
   */
  lemma {:induction false} FlatTextIsNested(ops: seq<ChainOperation>, inner: string)
    ensures Openings(ops) + inner + Repeat(')', |ops|) == Nested(ops, inner)
  {
    if |ops| > 0 {
      FlatTextIsNested(ops[1..], inner);
      assert Repeat(')', |ops|) == Repeat(')', |ops[1..]|) + ")";
    }
  }

  /**
   * The value of the nested chain when the expressions evaluate to `results`
   * in turn: `bound` holds the values of the variables already in scope.
   */
  function NestedValue<V>(results: seq<Result<V>>, bound: seq<V>): Result<seq<V>>
  {
    if |results| == 0 then Ok(bound)
    else results[0].FlatMapPure(v => NestedValue(results[1..], bound + [v]))
  }

  /**
   * Running the chain gives the first failure among the operations, in
   * order; when all succeed the constructor gets the variables that were
   * in scope followed by every operation's value.
   */
  lemma {:induction false} NestedValueIsSequence<V>(results: seq<Result<V>>, bound: seq<V>)
    ensures Sequenced(results).Fail? ==> NestedValue(results, bound) == Fail(Sequenced(results).error)
    ensures Sequenced(results).Ok? ==> NestedValue(results, bound) == Ok(bound + Sequenced(results).value)
  {
    if |results| == 0 {
      assert bound + [] == bound;
    } else if results[0].Ok? {
      var v := results[0].value;
      NestedValueIsSequence(results[1..], bound + [v]);
      if Sequenced(results[1..]).Ok? {
        assert bound + [v] + Sequenced(results[1..]).value == bound + ([v] + Sequenced(results[1..]).value);
      }
    }
  }

  class FlatMapChainBuilder {
    const scope: Scope
    var operations: seq<ChainOperation>
    /** The variables the scope held when the chain was started. */
    ghost const prior: seq<Variable>

    /** The chain's own variables follow the scope's earlier ones, in the order they were added. */
    ghost predicate Valid()
      reads this, scope
    {
      scope.Valid() && scope.variables == prior + ResultVariables(operations)
    }

    /** `new FlatMapChainBuilder(scope)`. */
    constructor(scope: Scope)
      requires scope.Valid()
      ensures this.scope == scope && operations == [] && prior == scope.variables && Valid()
    {
      this.scope := scope;
      operations := [];
      prior := scope.variables;
      new;
      assert scope.variables + [] == scope.variables;
    }

    /** `new FlatMapChainBuilder()`: a chain in a new, empty scope. */
    constructor Fresh()
      ensures fresh(scope) && scope.variables == [] && scope.anonymousVarCounter == 0
      ensures operations == [] && prior == [] && Valid()
    {
      scope := new Scope();
      operations := [];
      prior := [];
    }

    /**
     * `addOperation`: the next anonymous variable of the scope receives the
     * expression's value; when that name is already taken the scope throws
     * and the chain is unchanged, though the counter has moved on.
     */
    method AddOperation(expression: string, resultType: TypeName) returns (r: Result<()>)
      requires Valid()
      modifies this, scope
      ensures Valid()
      ensures scope.anonymousVarCounter == old(scope.anonymousVarCounter) + 1
      ensures AnonymousName(old(scope.anonymousVarCounter)) !in Names(old(scope.variables)) ==>
                r == Ok(()) &&
                operations == old(operations) + [ChainOperation(expression, Variable(AnonymousName(old(scope.anonymousVarCounter)), resultType))]
      ensures AnonymousName(old(scope.anonymousVarCounter)) in Names(old(scope.variables)) ==>
                r.Fail? && operations == old(operations)
    {
      var v := scope.DeclareAnonymous(resultType);
      if v.Fail? {
        return Fail(v.error);
      }
      assert ResultVariables(operations + [ChainOperation(expression, v.value)]) == ResultVariables(operations) + [v.value];
      operations := operations + [ChainOperation(expression, v.value)];
      r := Ok(());
    }

    /** `getVariables`: the chain's own variables, in order. */
    function Variables(): seq<Variable>
      reads this
    {
      ResultVariables(operations)
    }

    /** The chain's variables are the last ones of its scope, all named differently. */
    lemma VariablesEndTheScope()
      requires Valid()
      ensures scope.variables[|prior|..] == Variables()
      ensures |Variables()| == |operations|
      ensures forall i, j :: 0 <= i < j < |operations| ==> Variables()[i].name != Variables()[j].name
    {
      assert scope.variables[|prior|..] == Variables();
      forall i, j | 0 <= i < j < |operations| ensures Variables()[i].name != Variables()[j].name {
        assert Variables()[i] == scope.variables[|prior| + i];
        assert Variables()[j] == scope.variables[|prior| + j];
      }
    }

    /**
     * `buildWithConstructor`: an empty chain throws; otherwise every
     * operation's `flatMap` encloses the ones after it, and the innermost
     * call passes every variable of the scope, the earlier ones first, to
     * the constructor.
     */
    method BuildWithConstructor(resultClass: ClassName, constructorClass: TypeName) returns (r: Result<string>)
      requires Valid()
      ensures operations == [] ==> r == Fail(IllegalState("No operations added to chain"))
      ensures operations != [] ==>
                r == Ok("return " + Nested(operations,
                                           Construction(CanonicalName(resultClass), TypeNameText(constructorClass),
                                                        Names(prior + Variables()))))
    {
      if |operations| == 0 {
        return Fail(IllegalState("No operations added to chain"));
      }
      var text := "return ";
      var openings := WriteOpenings(operations);
      text := text + openings;
      var all := scope.AllVariables();
      var args := JoinArguments(all);
      var inner := CanonicalName(resultClass) + ".ok(new " + TypeNameText(constructorClass) + "(" + args + "))";
      assert inner == Construction(CanonicalName(resultClass), TypeNameText(constructorClass), Names(prior + Variables()));
      text := text + inner + Repeat(')', |operations|);
      FlatTextIsNested(operations, inner);
      assert text == "return " + (openings + inner + Repeat(')', |operations|));
      r := Ok(text);
    }
  }

  /** The first loop of `buildWithConstructor`: one `flatMap(` opening per operation, in order. */
  method WriteOpenings(ops: seq<ChainOperation>) returns (text: string)
    ensures text == Openings(ops)
  {
    text := "";
    for i := 0 to |ops|
      invariant text == Openings(ops[..i])
    {
      OpeningsAppend(ops[..i], [ops[i]]);
      assert ops[..i + 1] == ops[..i] + [ops[i]];
      assert Openings([ops[i]]) == Opening(ops[i]);
      text := text + ops[i].expression + ".flatMap(" + ops[i].resultVariable.name + " -> \n";
    }
    assert ops[..|ops|] == ops;
  }

  /** The second loop: every variable's name, with `", "` after all but the last. */
  method JoinArguments(all: seq<Variable>) returns (args: string)
    ensures args == Joined(Names(all), ", ")
  {
    var names := Names(all);
    args := "";
    for i := 0 to |all|
      invariant i == 0 ==> args == ""
      invariant i > 0 ==> args == Joined(names[..i], ", ") + (if i != |all| then ", " else "")
    {
      if i > 0 {
        JoinedAppend(names[..i], [names[i]], ", ");
        assert names[..i] + [names[i]] == names[..i + 1];
      } else {
        assert names[..1] == [names[0]];
      }
      args := args + all[i].name;
      if i != |all| - 1 {
        args := args + ", ";
      }
    }
    assert names[..|all|] == names;
  }

  /** A fresh chain with one operation binds it to `var0` and passes `var0`, alone, to the constructor. */
  method SingleOperation(expression: string, resultType: TypeName, resultClass: ClassName, constructorClass: TypeName)
    returns (r: Result<string>)
    ensures r == Ok("return " + Nested([ChainOperation(expression, Variable("var0", resultType))],
                                       Construction(CanonicalName(resultClass), TypeNameText(constructorClass), ["var0"])))
  {
    var chain := new FlatMapChainBuilder.Fresh();
    assert AnonymousName(0) == "var0";
    var added := chain.AddOperation(expression, resultType);
    assert chain.prior + chain.Variables() == [Variable("var0", resultType)];
    assert Names([Variable("var0", resultType)]) == ["var0"];
    r := chain.BuildWithConstructor(resultClass, constructorClass);
  }

  /** Two operations on a fresh chain are bound to `var0` and `var1`, with their own types. */
  method TwoOperationVariables(e1: string, t1: TypeName, e2: string, t2: TypeName) returns (vs: seq<Variable>)
    ensures vs == [Variable("var0", t1), Variable("var1", t2)]
  {
    var chain := new FlatMapChainBuilder.Fresh();
    assert AnonymousName(0) == "var0";
    assert AnonymousName(1) == "var1";
    var a := chain.AddOperation(e1, t1);
    var b := chain.AddOperation(e2, t2);
    vs := chain.Variables();
  }
}
