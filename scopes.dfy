/**
 * `Scope` and `Variable` of the code generator: the local variables a
 * generated method has declared, in declaration order, and the counter that
 * names anonymous ones `var0`, `var1`, ...
 */
module Scopes {
  import opened Results
  import opened Strings
  import opened ClassNames

  /** `Variable`: a declared name and its type. */
  datatype Variable = Variable(name: string, varType: TypeName)

  /** The names of `vs`, in order. */
  function Names(vs: seq<Variable>): (r: seq<string>)
    ensures |r| == |vs| && forall i :: 0 <= i < |vs| ==> r[i] == vs[i].name
  {
    if |vs| == 0 then [] else [vs[0].name] + Names(vs[1..])
  }

  predicate DistinctNames(vs: seq<Variable>)
  {
    forall i, j :: 0 <= i < j < |vs| ==> vs[i].name != vs[j].name
  }

  /** The variable called `name`, if there is one. */
  function Find(vs: seq<Variable>, name: string): Option<Variable>
  {
    if |vs| == 0 then None
    else if vs[0].name == name then Some(vs[0])
    else Find(vs[1..], name)
  }

  /** `Find` gives a declared variable of that name exactly when one was declared. */
  lemma {:induction false} FindMeaning(vs: seq<Variable>, name: string)
    ensures Find(vs, name).Some? <==> name in Names(vs)
    ensures Find(vs, name).Some? ==> Find(vs, name).value in vs && Find(vs, name).value.name == name
  {
    if |vs| > 0 {
      FindMeaning(vs[1..], name);
      assert Names(vs) == [vs[0].name] + Names(vs[1..]);
    }
  }

  /** The name `declareAnonymous` gives for counter value `n`. */
  function AnonymousName(n: nat): string
  {
    "var" + NatToString(n)
  }

  /** Different counter values give different names. */
  lemma AnonymousNamesDiffer(a: nat, b: nat)
    ensures AnonymousName(a) == AnonymousName(b) <==> a == b
  {
    if AnonymousName(a) == AnonymousName(b) {
      assert NatToString(a) == AnonymousName(a)[3..];
      assert NatToString(b) == AnonymousName(b)[3..];
      NatToStringInjective(a, b);
    }
  }

  class Scope {
    /** The `LinkedHashMap` from name to variable, as its values in insertion order. */
    var variables: seq<Variable>
    var anonymousVarCounter: nat

    ghost predicate Valid()
      reads this
    {
      DistinctNames(variables)
    }

    constructor()
      ensures variables == [] && anonymousVarCounter == 0 && Valid()
    {
      variables := [];
      anonymousVarCounter := 0;
    }

    /** `declare`: a new name is added at the end; a name already in scope throws. */
    method Declare(name: string, varType: TypeName) returns (r: Result<Variable>)
      requires Valid()
      modifies this
      ensures Valid()
      ensures anonymousVarCounter == old(anonymousVarCounter)
      ensures name in Names(old(variables)) ==>
                r == Fail(IllegalState("Variable " + name + " already exists in scope")) && variables == old(variables)
      ensures name !in Names(old(variables)) ==>
                r == Ok(Variable(name, varType)) && variables == old(variables) + [Variable(name, varType)]
    {
      if name in Names(variables) {
        return Fail(IllegalState("Variable " + name + " already exists in scope"));
      }
      variables := variables + [Variable(name, varType)];
      r := Ok(Variable(name, varType));
    }

    /** `declareAnonymous`: the counter is advanced before the name is declared, so even a clash uses up a number. */
    method DeclareAnonymous(varType: TypeName) returns (r: Result<Variable>)
      requires Valid()
      modifies this
      ensures Valid()
      ensures anonymousVarCounter == old(anonymousVarCounter) + 1
      ensures AnonymousName(old(anonymousVarCounter)) in Names(old(variables)) ==>
                r == Fail(IllegalState("Variable " + AnonymousName(old(anonymousVarCounter)) + " already exists in scope")) &&
                variables == old(variables)
      ensures AnonymousName(old(anonymousVarCounter)) !in Names(old(variables)) ==>
                r == Ok(Variable(AnonymousName(old(anonymousVarCounter)), varType)) &&
                variables == old(variables) + [Variable(AnonymousName(old(anonymousVarCounter)), varType)]
    {
      var name := AnonymousName(anonymousVarCounter);
      anonymousVarCounter := anonymousVarCounter + 1;
      r := Declare(name, varType);
    }

    /** `get`. */
    function Get(name: string): Option<Variable>
      reads this
    {
      Find(variables, name)
    }

    /** `contains`. */
    function Contains(name: string): bool
      reads this
    {
      name in Names(variables)
    }

    /** `get` finds a variable exactly when `contains` holds, and it is the one declared under that name. */
    lemma GetMeaning(name: string)
      ensures Get(name).Some? <==> Contains(name)
      ensures Get(name).Some? ==> Get(name).value in variables && Get(name).value.name == name
    {
      FindMeaning(variables, name);
    }

    /** `allVariables`: a copy of the variables in declaration order. */
    function AllVariables(): seq<Variable>
      reads this
    {
      variables
    }

    /** `createChild`: a new scope with the same variables and counter. */
    method CreateChild() returns (child: Scope)
      requires Valid()
      ensures fresh(child) && child.Valid()
      ensures child.variables == variables && child.anonymousVarCounter == anonymousVarCounter
    {
      child := new Scope();
      child.variables := variables;
      child.anonymousVarCounter := anonymousVarCounter;
    }
  }

  /**
   * A child continues the parent's numbering, and what it declares stays
   * out of the parent.
   */
  method ChildLeavesParentAlone(parent: Scope, varType: TypeName) returns (child: Scope, v: Result<Variable>)
    requires parent.Valid()
    ensures fresh(child)
    ensures parent.variables == old(parent.variables) && parent.anonymousVarCounter == old(parent.anonymousVarCounter)
    ensures AnonymousName(parent.anonymousVarCounter) !in Names(parent.variables) ==>
              v == Ok(Variable(AnonymousName(parent.anonymousVarCounter), varType)) &&
              child.variables == parent.variables + [v.value]
  {
    child := parent.CreateChild();
    v := child.DeclareAnonymous(varType);
  }

  /** Two anonymous declarations in a row give `varN` and `varN+1`, different names. */
  method TwoAnonymous(scope: Scope, t1: TypeName, t2: TypeName) returns (a: Result<Variable>, b: Result<Variable>)
    requires scope.Valid() && scope.variables == []
    modifies scope
    ensures a.Ok? && b.Ok?
    ensures a.value.name == AnonymousName(old(scope.anonymousVarCounter))
    ensures b.value.name == AnonymousName(old(scope.anonymousVarCounter) + 1)
    ensures a.value.name != b.value.name
    ensures scope.variables == [a.value, b.value]
  {
    a := scope.DeclareAnonymous(t1);
    AnonymousNamesDiffer(old(scope.anonymousVarCounter), old(scope.anonymousVarCounter) + 1);
    assert Names(scope.variables) == [AnonymousName(old(scope.anonymousVarCounter))];
    b := scope.DeclareAnonymous(t2);
  }
}
