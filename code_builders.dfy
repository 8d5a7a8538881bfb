/**
 * The code builders of the generator. JavaPoet's `CodeBlock.Builder` (and
 * the code part of a `MethodSpec.Builder`) is modelled as the log of calls
 * made to it; `CodeGenBuilder` wraps one and keeps count of the open control
 * flow blocks and indents, so that a block cannot be closed twice and the
 * code cannot be built with one still open.
 */
module CodeBuilders {
  import opened Results
  import opened Strings
  import opened ClassNames
  import opened Scopes

  /** One call made to a JavaPoet builder. */
  datatype Event =
    | StatementAdded(code: string)
    | CodeAdded(code: string)
    | FlowBegun(code: string)
    | FlowContinued(code: string)
    | FlowEnded
    | Indented
    | Unindented

  /** How far an event moves the nesting level. */
  function Step(e: Event): int
  {
    match e
    case FlowBegun(_) => 1
    case Indented => 1
    case FlowEnded => -1
    case Unindented => -1
    case _ => 0
  }

  /** The nesting level after `events`. */
  function Depth(events: seq<Event>): int
  {
    if |events| == 0 then 0 else Depth(events[..|events| - 1]) + Step(events[|events| - 1])
  }

  lemma {:induction false} DepthAppend(a: seq<Event>, b: seq<Event>)
    ensures Depth(a + b) == Depth(a) + Depth(b)
  {
    if |b| > 0 {
      var c := a + b;
      assert c[..|c| - 1] == a + b[..|b| - 1];
      DepthAppend(a, b[..|b| - 1]);
    } else {
      assert a + b == a;
    }
  }

  /** No prefix closes more than it opened. */
  predicate NeverNegative(events: seq<Event>)
  {
    forall i :: 0 <= i <= |events| ==> Depth(events[..i]) >= 0
  }

  /** Every block opened is closed, and none is closed before it is opened. */
  predicate Balanced(events: seq<Event>)
  {
    Depth(events) == 0 && NeverNegative(events)
  }

  lemma NeverNegativeAppend(a: seq<Event>, b: seq<Event>)
    requires NeverNegative(a) && Depth(a) >= 0 && NeverNegative(b)
    ensures NeverNegative(a + b)
  {
    forall i | 0 <= i <= |a + b| ensures Depth((a + b)[..i]) >= 0 {
      if i <= |a| {
        assert (a + b)[..i] == a[..i];
      } else {
        assert (a + b)[..i] == a + b[..i - |a|];
        DepthAppend(a, b[..i - |a|]);
      }
    }
  }

  /** Blocks appended after a balanced log keep it balanced. */
  lemma BalancedAppend(a: seq<Event>, b: seq<Event>)
    requires Balanced(a) && Balanced(b)
    ensures Balanced(a + b)
  {
    DepthAppend(a, b);
    NeverNegativeAppend(a, b);
  }

  /** One more event on a log that stays non-negative. */
  lemma PushEvent(events: seq<Event>, e: Event)
    requires NeverNegative(events) && Depth(events) + Step(e) >= 0
    ensures NeverNegative(events + [e]) && Depth(events + [e]) == Depth(events) + Step(e)
  {
    var n := events + [e];
    assert n[..|n| - 1] == events;
    forall i | 0 <= i <= |n| ensures Depth(n[..i]) >= 0 {
      if i < |n| {
        assert n[..i] == events[..i];
      } else {
        assert n[..i] == n;
      }
    }
  }

  /** A JavaPoet `CodeBlock.Builder`: the calls made to it, in order. */
  class CodeBlockBuilder {
    var events: seq<Event>

    constructor()
      ensures events == []
    {
      events := [];
    }

    method Emit(e: Event)
      modifies this
      ensures events == old(events) + [e]
    {
      events := events + [e];
    }

    /** Several calls, in order. */
    method EmitAll(es: seq<Event>)
      modifies this
      ensures events == old(events) + es
    {
      events := events + es;
    }
  }

  class CodeGenBuilder {
    const builder: CodeBlockBuilder
    const scope: Scope
    var indentLevel: nat

    /** The level counts the blocks and indents the log has open, and the log never went below zero. */
    ghost predicate Valid()
      reads this, builder, scope
    {
      indentLevel == Depth(builder.events) && NeverNegative(builder.events) && scope.Valid()
    }

    /** `new CodeGenBuilder(scope)`. */
    constructor(scope: Scope)
      requires scope.Valid()
      ensures this.scope == scope && fresh(builder)
      ensures builder.events == [] && indentLevel == 0 && Valid()
    {
      builder := new CodeBlockBuilder();
      this.scope := scope;
      indentLevel := 0;
      new;
      var none: seq<Event> := [];
      assert none[..0] == none;
    }

    method AddStatement(code: string)
      requires Valid()
      modifies builder
      ensures Valid() && builder.events == old(builder.events) + [StatementAdded(code)]
    {
      PushEvent(builder.events, StatementAdded(code));
      builder.Emit(StatementAdded(code));
    }

    method Add(code: string)
      requires Valid()
      modifies builder
      ensures Valid() && builder.events == old(builder.events) + [CodeAdded(code)]
    {
      PushEvent(builder.events, CodeAdded(code));
      builder.Emit(CodeAdded(code));
    }

    /** `beginControlFlow`: one level deeper. */
    method BeginControlFlow(code: string)
      requires Valid()
      modifies this, builder
      ensures Valid() && indentLevel == old(indentLevel) + 1
      ensures builder.events == old(builder.events) + [FlowBegun(code)]
    {
      PushEvent(builder.events, FlowBegun(code));
      builder.Emit(FlowBegun(code));
      indentLevel := indentLevel + 1;
    }

    /** `nextControlFlow`: `} else {` and the like, at the same level. */
    method NextControlFlow(code: string)
      requires Valid()
      modifies builder
      ensures Valid() && indentLevel == old(indentLevel)
      ensures builder.events == old(builder.events) + [FlowContinued(code)]
    {
      PushEvent(builder.events, FlowContinued(code));
      builder.Emit(FlowContinued(code));
    }

    /** `endControlFlow`: one level up; at level 0 it throws and changes nothing. */
    method EndControlFlow() returns (r: Result<()>)
      requires Valid()
      modifies this, builder
      ensures Valid()
      ensures old(indentLevel) == 0 ==>
                r == Fail(IllegalState("No control flow to end")) && indentLevel == 0 && builder.events == old(builder.events)
      ensures old(indentLevel) > 0 ==>
                r == Ok(()) && indentLevel == old(indentLevel) - 1 && builder.events == old(builder.events) + [FlowEnded]
    {
      if indentLevel <= 0 {
        return Fail(IllegalState("No control flow to end"));
      }
      PushEvent(builder.events, FlowEnded);
      builder.Emit(FlowEnded);
      indentLevel := indentLevel - 1;
      r := Ok(());
    }

    /** `indent`: one level deeper. */
    method Indent()
      requires Valid()
      modifies this, builder
      ensures Valid() && indentLevel == old(indentLevel) + 1
      ensures builder.events == old(builder.events) + [Indented]
    {
      PushEvent(builder.events, Indented);
      builder.Emit(Indented);
      indentLevel := indentLevel + 1;
    }

    /** `unindent`: one level up; at level 0 it throws and changes nothing. */
    method Unindent() returns (r: Result<()>)
      requires Valid()
      modifies this, builder
      ensures Valid()
      ensures old(indentLevel) == 0 ==>
                r == Fail(IllegalState("Cannot unindent below zero")) && indentLevel == 0 && builder.events == old(builder.events)
      ensures old(indentLevel) > 0 ==>
                r == Ok(()) && indentLevel == old(indentLevel) - 1 && builder.events == old(builder.events) + [Unindented]
    {
      if indentLevel <= 0 {
        return Fail(IllegalState("Cannot unindent below zero"));
      }
      PushEvent(builder.events, Unindented);
      builder.Emit(Unindented);
      indentLevel := indentLevel - 1;
      r := Ok(());
    }

    /** `declareVariable`: the name is declared in the scope, then its declaration statement is added; a name already in scope throws first. */
    method DeclareVariable(name: string, varType: TypeName, initializer: string) returns (r: Result<Variable>)
      requires Valid()
      modifies builder, scope
      ensures Valid()
      ensures name in Names(old(scope.variables)) ==>
                r == Fail(IllegalState("Variable " + name + " already exists in scope")) &&
                builder.events == old(builder.events) && scope.variables == old(scope.variables)
      ensures name !in Names(old(scope.variables)) ==>
                r == Ok(Variable(name, varType)) && scope.variables == old(scope.variables) + [Variable(name, varType)] &&
                builder.events == old(builder.events) + [StatementAdded(TypeNameText(varType) + " " + name + " = " + initializer)]
    {
      r := scope.Declare(name, varType);
      if r.Fail? {
        return;
      }
      AddStatement(TypeNameText(varType) + " " + name + " = " + initializer);
    }

    /** `declareAnonymous`: the scope's next anonymous name is declared, then its declaration statement is added. */
    method DeclareAnonymous(varType: TypeName, initializer: string) returns (r: Result<Variable>)
      requires Valid()
      modifies builder, scope
      ensures Valid()
      ensures scope.anonymousVarCounter == old(scope.anonymousVarCounter) + 1
      ensures AnonymousName(old(scope.anonymousVarCounter)) in Names(old(scope.variables)) ==>
                r == Fail(IllegalState("Variable " + AnonymousName(old(scope.anonymousVarCounter)) + " already exists in scope")) && builder.events == old(builder.events) && scope.variables == old(scope.variables)
      ensures AnonymousName(old(scope.anonymousVarCounter)) !in Names(old(scope.variables)) ==>
                r == Ok(Variable(AnonymousName(old(scope.anonymousVarCounter)), varType)) &&
                scope.variables == old(scope.variables) + [r.value] &&
                builder.events == old(builder.events) +
                  [StatementAdded(TypeNameText(varType) + " " + AnonymousName(old(scope.anonymousVarCounter)) + " = " + initializer)]
    {
      r := scope.DeclareAnonymous(varType);
      if r.Fail? {
        return;
      }
      AddStatement(TypeNameText(varType) + " " + r.value.name + " = " + initializer);
    }

    /** `build`: the code, once every block and indent is closed; otherwise it throws. */
    method Build() returns (r: Result<seq<Event>>)
      requires Valid()
      ensures indentLevel != 0 ==>
                r == Fail(IllegalState("Unclosed control flow blocks: " + NatToString(indentLevel)))
      ensures indentLevel == 0 ==> r == Ok(builder.events)
      ensures r.Ok? ==> Balanced(r.value)
    {
      if indentLevel != 0 {
        return Fail(IllegalState("Unclosed control flow blocks: " + NatToString(indentLevel)));
      }
      r := Ok(builder.events);
    }
  }

  /** One open block, closed again: the level goes back to where it was and the code builds. */
  method OneBlock(b: CodeGenBuilder, condition: string, body: string) returns (r: Result<seq<Event>>)
    requires b.Valid() && b.indentLevel == 0
    modifies b, b.builder
    ensures r == Ok(old(b.builder.events) + [FlowBegun(condition), StatementAdded(body), FlowEnded])
  {
    b.BeginControlFlow(condition);
    b.AddStatement(body);
    var closed := b.EndControlFlow();
    assert b.builder.events == old(b.builder.events) + [FlowBegun(condition), StatementAdded(body), FlowEnded];
    r := b.Build();
  }
}
