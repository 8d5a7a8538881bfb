/**
 * `CodeGenDSL`: immutable descriptions of code (a statement, a return, a
 * control-flow block with a body, or several of these in order) that are
 * applied to a method builder, and their combination.
 */
module CodeGenDsl {
  import opened CodeBuilders

  datatype CodeGenResult =
    | Statement(code: string)
    | Return(expression: string)
    | Empty
    | ControlFlow(controlStatement: string, body: seq<CodeGenResult>)
    | Combined(operations: seq<CodeGenResult>)

  /** What applying `r` adds to a builder. */
  function Emitted(r: CodeGenResult): seq<Event>
    decreases r, 1
  {
    match r
    case Statement(code) => [StatementAdded(code)]
    case Return(e) => [StatementAdded("return " + e)]
    case Empty => []
    case ControlFlow(c, body) => [FlowBegun(c)] + EmittedAll(body) + [FlowEnded]
    case Combined(ops) => EmittedAll(ops)
  }

  /** What applying each of `rs` in order adds. */
  function EmittedAll(rs: seq<CodeGenResult>): seq<Event>
    decreases rs, 0
  {
    if |rs| == 0 then [] else Emitted(rs[0]) + EmittedAll(rs[1..])
  }

  lemma {:induction false} EmittedAllAppend(a: seq<CodeGenResult>, b: seq<CodeGenResult>)
    ensures EmittedAll(a + b) == EmittedAll(a) + EmittedAll(b)
  {
    if |a| > 0 {
      assert (a + b)[1..] == a[1..] + b;
      EmittedAllAppend(a[1..], b);
    } else {
      assert a + b == b;
    }
  }

  /** `apply`: each kind adds its code to the builder; a block adds its body, in order, between its braces. */
  method Apply(r: CodeGenResult, builder: CodeBlockBuilder)
    modifies builder
    ensures builder.events == old(builder.events) + Emitted(r)
    decreases r, 1
  {
    match r
    case Statement(code) =>
      builder.Emit(StatementAdded(code));
    case Return(e) =>
      builder.Emit(StatementAdded("return " + e));
    case Empty =>
    case ControlFlow(c, body) =>
      builder.Emit(FlowBegun(c));
      ApplyAll(body, builder);
      builder.Emit(FlowEnded);
    case Combined(ops) =>
      ApplyAll(ops, builder);
  }

  /** The loop over a body or a combination. */
  method ApplyAll(rs: seq<CodeGenResult>, builder: CodeBlockBuilder)
    modifies builder
    ensures builder.events == old(builder.events) + EmittedAll(rs)
    decreases rs, 0
  {
    for i := 0 to |rs|
      invariant builder.events == old(builder.events) + EmittedAll(rs[..i])
    {
      Apply(rs[i], builder);
      assert rs[..i + 1] == rs[..i] + [rs[i]];
      EmittedAllAppend(rs[..i], [rs[i]]);
      assert EmittedAll([rs[i]]) == Emitted(rs[i]) + EmittedAll([]);
    }
    assert rs[..|rs|] == rs;
  }

  /** `combine`: a combination gets `other` appended in a new value; anything else is paired with it. */
  function Combine(a: CodeGenResult, other: CodeGenResult): CodeGenResult
  {
    if a.Combined? then Combined(a.operations + [other]) else Combined([a, other])
  }

  /** `a.combine(b)` applies `a` and then `b`. */
  lemma CombineAppliesInOrder(a: CodeGenResult, b: CodeGenResult)
    ensures Emitted(Combine(a, b)) == Emitted(a) + Emitted(b)
  {
    assert EmittedAll([b]) == Emitted(b) + EmittedAll([]);
    if a.Combined? {
      EmittedAllAppend(a.operations, [b]);
    } else {
      assert [a, b][1..] == [b];
    }
  }

  /** However the combinations are grouped, the same code is added. */
  lemma CombineAssociative(a: CodeGenResult, b: CodeGenResult, c: CodeGenResult)
    ensures Emitted(Combine(Combine(a, b), c)) == Emitted(Combine(a, Combine(b, c)))
  {
    CombineAppliesInOrder(Combine(a, b), c);
    CombineAppliesInOrder(a, b);
    CombineAppliesInOrder(a, Combine(b, c));
    CombineAppliesInOrder(b, c);
  }

  /** `Empty` adds nothing, so combining with it changes nothing that is applied. */
  lemma EmptyIsNeutral(a: CodeGenResult)
    ensures Emitted(Combine(a, Empty)) == Emitted(a)
    ensures Emitted(Combine(Empty, a)) == Emitted(a)
  {
    CombineAppliesInOrder(a, Empty);
    CombineAppliesInOrder(Empty, a);
  }

  /** Combining appends to a copy: the operations of the original come first, unchanged. */
  lemma CombineKeepsOriginal(a: CodeGenResult, b: CodeGenResult)
    requires a.Combined?
    ensures Combine(a, b).operations[..|a.operations|] == a.operations
    ensures |Combine(a, b).operations| == |a.operations| + 1 && Combine(a, b).operations[|a.operations|] == b
  {
    assert (a.operations + [b])[..|a.operations|] == a.operations;
  }

  /** Whatever is described, the code it adds closes every block it opens, and none too early. */
  lemma {:induction false} EmittedIsBalanced(r: CodeGenResult)
    ensures Balanced(Emitted(r))
    decreases r, 1
  {
    match r
    case Statement(code) =>
      PushEvent([], StatementAdded(code));
    case Return(e) =>
      PushEvent([], StatementAdded("return " + e));
    case Empty =>
      var none: seq<Event> := [];
      assert none[..0] == none;
    case ControlFlow(c, body) =>
      EmittedAllIsBalanced(body);
      var inner := EmittedAll(body);
      var none: seq<Event> := [];
      assert none[..0] == none;
      PushEvent(none, FlowBegun(c));
      assert none + [FlowBegun(c)] == [FlowBegun(c)];
      DepthAppend([FlowBegun(c)], inner);
      NeverNegativeAppend([FlowBegun(c)], inner);
      PushEvent([FlowBegun(c)] + inner, FlowEnded);
    case Combined(ops) =>
      EmittedAllIsBalanced(ops);
  }

  lemma {:induction false} EmittedAllIsBalanced(rs: seq<CodeGenResult>)
    ensures Balanced(EmittedAll(rs))
    decreases rs, 0
  {
    if |rs| == 0 {
      var none: seq<Event> := [];
      assert none[..0] == none;
    } else {
      EmittedIsBalanced(rs[0]);
      EmittedAllIsBalanced(rs[1..]);
      BalancedAppend(Emitted(rs[0]), EmittedAll(rs[1..]));
    }
  }
}
