/**
 * `ToStringGenerator`: the `toString()` method of a generated class, one
 * `return` statement whose expression concatenates the class name, each
 * property as `name=value`, commas between them and a closing brace.
 *
 * The statement is modelled twice: as its text, which the generator's loop
 * writes piece by piece, and as the string concatenation it is, a sequence
 * of operands, so that what the generated method returns at run time can be
 * stated.
 */
module ToStrings {
  import opened Results
  import opened Strings
  import opened ClassNames
  import opened DeserializationPlans
  import opened TypeSpecs
  import opened Sequences

  const Quote := "\""

  /** An operand of the generated `+` chain: a string literal, or a field. */
  datatype Operand = Literal(text: string) | Reference(name: string)

  /** How an operand is written: a literal between quotes, a field by its name. */
  function OperandCode(o: Operand): string
  {
    match o
    case Literal(t) => Quote + t + Quote
    case Reference(n) => n
  }

  /** The operands joined by ` + `. */
  function Expression(ops: seq<Operand>): string
  {
    if |ops| == 0 then ""
    else if |ops| == 1 then OperandCode(ops[0])
    else Expression(ops[..|ops| - 1]) + " + " + OperandCode(ops[|ops| - 1])
  }

  /** The operands for the property at `i`: its name with `=`, its field, and a comma unless it is the last. */
  function Piece(names: seq<string>, i: nat): seq<Operand>
    requires i < |names|
  {
    [Literal(names[i] + "="), Reference(names[i])] + (if i != |names| - 1 then [Literal(",")] else [])
  }

  /** The operands of the first `i` properties. */
  function Pieces(names: seq<string>, i: nat): seq<Operand>
    requires i <= |names|
  {
    if i == 0 then [] else Pieces(names, i - 1) + Piece(names, i - 1)
  }

  /** The whole chain: `"Name{"`, the properties, `"}"`. */
  function Operands(className: string, names: seq<string>): seq<Operand>
  {
    [Literal(className + "{")] + Pieces(names, |names|) + [Literal("}")]
  }

  function Names(properties: seq<Property>): (r: seq<string>)
    ensures |r| == |properties|
  {
    seq(|properties|, i requires 0 <= i < |properties| => properties[i].name)
  }

  /**
   * The statement's text: `return` and the chain. With no property the
   * closing piece follows the opening one without the space JavaPoet's
   * pieces otherwise put before it.
   */
  function ToStringCode(className: string, names: seq<string>): string
  {
    if |names| == 0 then "return " + Quote + className + "{" + Quote + ClosingCode
    else "return " + Expression(Operands(className, names))
  }

  const StringClass := ClassName("java.lang", [], "String")

  function ToStringMethod(className: ClassName, properties: seq<Property>): MethodSpec
  {
    MethodSpec("toString", [Public], [Override], Some(Named(StringClass)), [], [ToStringCode(className.simpleName, Names(properties))])
  }

  /** One more operand at the end of a non-empty chain adds ` + ` and its code. */
  lemma ExpressionSnoc(ops: seq<Operand>, o: Operand)
    requires |ops| > 0
    ensures Expression(ops + [o]) == Expression(ops) + " + " + OperandCode(o)
  {
    assert (ops + [o])[..|ops|] == ops;
  }

  /** The text a loop step adds, as the chain gains the property's field operands. */
  lemma StepText(e: string, n: string)
    ensures e + FieldCode(n) ==
              ExtendedText(e, [Literal(n + "="), Reference(n)]) + " "
  {
    var ops := [Literal(n + "="), Reference(n)];
    var l := OperandCode(Literal(n + "="));
    assert ops[..1] == [Literal(n + "=")] && ops[..1][..0] == [];
    assert ExtendedText(e, ops[..1]) == e + " + " + l;
    assert ExtendedText(e, ops) == ExtendedText(e, ops[..1]) + " + " + OperandCode(Reference(n));
    var f1 := " + " + l;
    var f2 := f1 + " + ";
    var f3 := f2 + n;
    AppendAssoc(e, f3, " ");
    AppendAssoc(e, f2, n);
    AppendAssoc(e, f1, " + ");
    AppendAssoc(e, " + ", l);
  }

  /** The comma a loop step adds between two properties. */
  lemma CommaText(t: string, ops: seq<Operand>, e: string)
    requires t == ExtendedText(e, ops)
    ensures t + " " + CommaCode == ExtendedText(e, ops + [Literal(",")])
  {
    var q := OperandCode(Literal(","));
    assert (ops + [Literal(",")])[..|ops|] == ops;
    assert ExtendedText(e, ops + [Literal(",")]) == t + " + " + q;
    AppendAssoc(t, " ", "+ " + q);
    AppendAssoc(" ", "+ ", q);
    assert " " + "+ " == " + ";
    AppendAssoc(t, " + ", q);
  }

  /** The text of a chain `e` after `ops` are appended to it. */
  function ExtendedText(e: string, ops: seq<Operand>): string
  {
    if |ops| == 0 then e else ExtendedText(e, ops[..|ops| - 1]) + " + " + OperandCode(ops[|ops| - 1])
  }

  lemma {:induction false} ExtendedExpression(ops: seq<Operand>, more: seq<Operand>)
    requires |ops| > 0
    ensures Expression(ops + more) == ExtendedText(Expression(ops), more)
  {
    if |more| > 0 {
      var init := more[..|more| - 1];
      ExtendedExpression(ops, init);
      assert (ops + more)[..|ops + more| - 1] == ops + init;
    } else {
      assert ops + more == ops;
    }
  }

  /** The pieces the loop adds: a property, the comma after it, and the closing brace. */
  function FieldCode(name: string): string
  {
    " + " + OperandCode(Literal(name + "=")) + " + " + name + " "
  }

  const CommaCode := "+ " + OperandCode(Literal(","))
  const ClosingCode := "+ " + OperandCode(Literal("}"))

  /** The regrouping a turn of the loop needs, on plain strings. */
  lemma LoopStepText(code: string, e: string, x: string, name: string, comma: bool, target: string)
    requires code == "return " + e && e + FieldCode(name) == x + " "
    requires target == (if comma then x + " " + CommaCode else x)
    ensures code + FieldCode(name) + (if comma then CommaCode else "") == "return " + target + (if comma then "" else " ")
  {
    var r := "return ";
    AppendAssoc(r, e, FieldCode(name));
    AppendAssoc(r, x, " ");
    if comma {
      AppendAssoc(r, x + " ", CommaCode);
      assert target + "" == target;
    } else {
      assert code + FieldCode(name) + "" == code + FieldCode(name);
    }
  }

  /** One turn of the loop: the statement so far gains the operands of property `i`. */
  lemma {:induction false} LoopStep(code: string, head: seq<Operand>, names: seq<string>, i: nat)
    requires |head| > 0 && i < |names|
    requires code == "return " + Expression(head + Pieces(names, i))
    ensures code + FieldCode(names[i]) + (if i == |names| - 1 then "" else CommaCode) ==
              "return " + Expression(head + Pieces(names, i + 1)) + (if i + 1 == |names| then " " else "")
  {
    var before := head + Pieces(names, i);
    var e := Expression(before);
    var name := names[i];
    var fieldOps := [Literal(name + "="), Reference(name)];
    var x := ExtendedText(e, fieldOps);
    var comma := i != |names| - 1;
    var target := Expression(head + Pieces(names, i + 1));
    assert target == ExtendedText(e, Piece(names, i)) by {
      ExtendedExpression(before, Piece(names, i));
      AppendAssoc(head, Pieces(names, i), Piece(names, i));
    }
    assert target == (if comma then x + " " + CommaCode else x) by {
      if comma {
        CommaText(x, fieldOps, e);
        assert Piece(names, i) == fieldOps + [Literal(",")];
      } else {
        assert Piece(names, i) == fieldOps;
      }
    }
    assert e + FieldCode(name) == x + " " by {
      StepText(e, name);
    }
    LoopStepText(code, e, x, name, comma, target);
  }

  /** The closing brace after the last property. */
  lemma {:induction false} ClosingText(code: string, className: string, names: seq<string>)
    requires |names| > 0
    requires code == "return " + Expression([Literal(className + "{")] + Pieces(names, |names|)) + " "
    ensures code + ClosingCode == ToStringCode(className, names)
  {
    var r, x, q := "return ", Expression([Literal(className + "{")] + Pieces(names, |names|)), OperandCode(Literal("}"));
    ExpressionSnoc([Literal(className + "{")] + Pieces(names, |names|), Literal("}"));
    AppendAssoc(r + x, " ", "+ " + q);
    AppendAssoc(" ", "+ ", q);
    assert " " + "+ " == " + ";
    AppendAssoc(r + x, " + ", q);
    AppendAssoc(r, x, " + ");
    AppendAssoc(r, x + " + ", q);
  }

  /** `generateToString`: the index loop that adds the pieces of the statement to a `CodeBlock`. */
  method GenerateToString(properties: seq<Property>, className: ClassName) returns (m: MethodSpec)
    ensures m == ToStringMethod(className, properties)
  {
    ghost var names := Names(properties);
    ghost var head := [Literal(className.simpleName + "{")];
    var code := "return " + Quote + className.simpleName + "{" + Quote;
    assert code == "return " + Expression(head);
    for i := 0 to |properties|
      invariant code == "return " + Expression(head + Pieces(names, i)) + (if 0 < i == |properties| then " " else "")
    {
      var name := properties[i].name;
      LoopStep(code, head, names, i);
      code := code + FieldCode(name);
      if i != |properties| - 1 {
        code := code + CommaCode;
      }
    }
    if |properties| > 0 {
      ClosingText(code, className.simpleName, names);
    }
    code := code + ClosingCode;
    m := MethodSpec("toString", [Public], [Override], Some(Named(StringClass)), [], [code]);
  }

  // ---------------------------------------------------------------------
  // What the generated method returns
  // ---------------------------------------------------------------------

  /** What one operand evaluates to: a literal's text, a field's rendering by `value`. */
  function OperandValue(o: Operand, value: string -> string): string
  {
    match o
    case Literal(t) => t
    case Reference(n) => value(n)
  }

  /** The string the chain evaluates to, each field rendered by `value`. */
  function Eval(ops: seq<Operand>, value: string -> string): string
  {
    if |ops| == 0 then ""
    else Eval(ops[..|ops| - 1], value) + OperandValue(ops[|ops| - 1], value)
  }

  /** Each property as `name=value`. */
  function Rendered(names: seq<string>, value: string -> string): (r: seq<string>)
    ensures |r| == |names| && forall i :: 0 <= i < |names| ==> r[i] == names[i] + "=" + value(names[i])
  {
    seq(|names|, i requires 0 <= i < |names| => names[i] + "=" + value(names[i]))
  }

  lemma {:induction false} EvalAppend(a: seq<Operand>, b: seq<Operand>, value: string -> string)
    ensures Eval(a + b, value) == Eval(a, value) + Eval(b, value)
  {
    if |b| == 0 {
      assert a + b == a;
    } else {
      var init := b[..|b| - 1];
      EvalAppend(a, init, value);
      assert (a + b)[..|a + b| - 1] == a + init;
      assert (a + b)[|a + b| - 1] == b[|b| - 1];
      AppendAssoc(Eval(a, value), Eval(init, value), OperandValue(b[|b| - 1], value));
    }
  }

  /** The operands of one property evaluate to `name=value`, and a comma unless it is the last. */
  lemma EvalPiece(names: seq<string>, value: string -> string, i: nat)
    requires i < |names|
    ensures Eval(Piece(names, i), value) == names[i] + "=" + value(names[i]) + (if i != |names| - 1 then "," else "")
  {
    var n := names[i];
    var fieldOps := [Literal(n + "="), Reference(n)];
    assert fieldOps[..1] == [Literal(n + "=")] && fieldOps[..1][..0] == [];
    assert Eval(fieldOps[..1], value) == "" + (n + "=");
    assert Eval(fieldOps, value) == n + "=" + value(n);
    if i != |names| - 1 {
      assert Piece(names, i) == fieldOps + [Literal(",")];
      assert (fieldOps + [Literal(",")])[..2] == fieldOps;
    } else {
      assert Piece(names, i) == fieldOps;
    }
  }

  /** The operands of the first `i` properties evaluate to their renderings joined by commas, and a comma after them unless they are all. */
  lemma {:induction false} EvalPieces(names: seq<string>, value: string -> string, i: nat)
    requires i <= |names|
    ensures Eval(Pieces(names, i), value) ==
              Joined(Rendered(names, value)[..i], ",") + (if 0 < i < |names| then "," else "")
  {
    if i > 0 {
      var r := Rendered(names, value);
      var comma := if i != |names| then "," else "";
      EvalPieces(names, value, i - 1);
      assert Eval(Piece(names, i - 1), value) == r[i - 1] + comma by {
        EvalPiece(names, value, i - 1);
      }
      assert Eval(Pieces(names, i), value) == Eval(Pieces(names, i - 1), value) + (r[i - 1] + comma) by {
        EvalAppend(Pieces(names, i - 1), Piece(names, i - 1), value);
      }
      if i == 1 {
        assert r[..1] == [r[0]] && r[..0] == [];
        JoinedSmall(r[0], ",");
        assert "" + (r[0] + comma) == r[0] + comma;
      } else {
        var j := Joined(r[..i - 1], ",");
        assert Joined(r[..i], ",") == j + "," + r[i - 1] by {
          JoinedAppend(r[..i - 1], [r[i - 1]], ",");
          TakeSnoc(r, i - 1);
          JoinedSmall(r[i - 1], ",");
        }
        AppendAssoc(j + ",", r[i - 1], comma);
      }
    }
  }

  /**
   * The generated `toString()` returns the class name, then `{`, then every
   * property as `name=value` in declaration order with a comma between two
   * neighbours and nowhere else, then `}`.
   */
  lemma ToStringValue(className: string, names: seq<string>, value: string -> string)
    ensures Eval(Operands(className, names), value) == className + "{" + Joined(Rendered(names, value), ",") + "}"
  {
    var head, body, tail := [Literal(className + "{")], Pieces(names, |names|), [Literal("}")];
    var opening, joined := className + "{", Joined(Rendered(names, value), ",");
    assert Eval(head, value) == opening by {
      assert head[..0] == [];
      assert Eval(head, value) == "" + opening;
    }
    assert Eval(tail, value) == "}" by {
      assert tail[..0] == [];
      assert Eval(tail, value) == "" + "}";
    }
    assert Eval(body, value) == joined by {
      EvalPieces(names, value, |names|);
      TakeAll(Rendered(names, value));
    }
    assert Eval(head + body, value) == opening + joined by {
      EvalAppend(head, body, value);
    }
    EvalAppend(head + body, tail, value);
  }

  /** The values of the example `ToStringConfig`: `x` is 3, `y` is 0 and `z` is null. */
  function ExampleValue(n: string): string
  {
    if n == "x" then "3" else if n == "y" then "0" else "null"
  }

  /**
   * The three properties `x`, `y`, `z` of `ToStringConfig` give the chain
   * `"ToStringConfig{" + "x=" + x + "," + "y=" + y + "," + "z=" + z + "}"`.
   */
  lemma ThreePropertyChain()
    ensures Operands("ToStringConfig", ["x", "y", "z"]) ==
              [Literal("ToStringConfig{"), Literal("x="), Reference("x"), Literal(","), Literal("y="), Reference("y"),
               Literal(","), Literal("z="), Reference("z"), Literal("}")]
  {
    var names := ["x", "y", "z"];
    var x, y, z, c := Literal("x="), Literal("y="), Literal("z="), Literal(",");
    assert Pieces(names, 1) == [x, Reference("x"), c] by {
      assert Pieces(names, 0) == [];
      assert "x" + "=" == "x=";
    }
    assert Pieces(names, 2) == [x, Reference("x"), c, y, Reference("y"), c] by {
      assert "y" + "=" == "y=";
    }
    assert Pieces(names, 3) == [x, Reference("x"), c, y, Reference("y"), c, z, Reference("z")] by {
      assert "z" + "=" == "z=";
    }
    assert "ToStringConfig" + "{" == "ToStringConfig{";
  }

  /** With the values 3, 0 and null the example returns `ToStringConfig{x=3,y=0,z=null}`. */
  lemma ThreePropertyExample()
    ensures Eval(Operands("ToStringConfig", ["x", "y", "z"]), ExampleValue) == "ToStringConfig{x=3,y=0,z=null}"
  {
    ExampleJoined();
    ToStringValue("ToStringConfig", ["x", "y", "z"], ExampleValue);
    assert "ToStringConfig" + "{" + "x=3,y=0,z=null" + "}" == "ToStringConfig{x=3,y=0,z=null}";
  }

  /** The example's properties rendered and joined. */
  lemma ExampleJoined()
    ensures Joined(Rendered(["x", "y", "z"], ExampleValue), ",") == "x=3,y=0,z=null"
  {
    var r := Rendered(["x", "y", "z"], ExampleValue);
    assert r == ["x=3", "y=0", "z=null"] by {
      assert r[0] == "x" + "=" + "3" == "x=3";
      assert r[1] == "y" + "=" + "0" == "y=0";
      assert r[2] == "z" + "=" + "null" == "z=null";
    }
    assert r[1..][1..] == ["z=null"];
    assert Joined(r[1..], ",") == "y=0" + "," + "z=null";
    assert Joined(r, ",") == "x=3" + "," + ("y=0" + "," + "z=null");
  }
}
