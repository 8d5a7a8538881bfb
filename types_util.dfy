/**
 * `TypesUtil`: which `DataTree` class a property type is read from, whether
 * a type or an element is nullable, and annotation lookup with cascading to
 * inner classes.
 */
module TypesUtilModel {
  import opened Results
  import opened ClassNames

  // ---------------------------------------------------------------------
  // getDataTreeType
  // ---------------------------------------------------------------------

  /** The `DataTree` classes a value can be checked against. */
  datatype TreeClass = LiteralInt | LiteralFloat | LiteralBoolean | LiteralString | TreeMap | TreeArray

  function JavaLang(simple: string): ClassName
  {
    ClassName("java.lang", [], simple)
  }

  function JavaUtil(simple: string): ClassName
  {
    ClassName("java.util", [], simple)
  }

  /** The eight primitive keywords. */
  predicate IsPrimitiveKeyword(k: string)
  {
    k in {"boolean", "byte", "short", "int", "long", "char", "float", "double"}
  }

  /** JavaPoet's box class of a primitive keyword. */
  function BoxOf(k: string): ClassName
    requires IsPrimitiveKeyword(k)
  {
    JavaLang(
      if k == "boolean" then "Boolean"
      else if k == "byte" then "Byte"
      else if k == "short" then "Short"
      else if k == "int" then "Integer"
      else if k == "long" then "Long"
      else if k == "char" then "Character"
      else if k == "float" then "Float"
      else "Double")
  }

  /** `isBoxedPrimitive() ? unbox() : type`. */
  function Unboxed(t: TypeName): (u: TypeName)
    ensures t.PrimitiveName? ==> u == t
  {
    if t == Named(JavaLang("Boolean")) then PrimitiveName("boolean")
    else if t == Named(JavaLang("Byte")) then PrimitiveName("byte")
    else if t == Named(JavaLang("Short")) then PrimitiveName("short")
    else if t == Named(JavaLang("Integer")) then PrimitiveName("int")
    else if t == Named(JavaLang("Long")) then PrimitiveName("long")
    else if t == Named(JavaLang("Character")) then PrimitiveName("char")
    else if t == Named(JavaLang("Float")) then PrimitiveName("float")
    else if t == Named(JavaLang("Double")) then PrimitiveName("double")
    else t
  }

  /** `getDataTreeType`. */
  function DataTreeType(t: TypeName): Option<TreeClass>
  {
    var u := Unboxed(t);
    if u in {PrimitiveName("int"), PrimitiveName("long"), PrimitiveName("short"), PrimitiveName("byte")} then Some(LiteralInt)
    else if u in {PrimitiveName("float"), PrimitiveName("double")} then Some(LiteralFloat)
    else if u == PrimitiveName("boolean") then Some(LiteralBoolean)
    else if u == Named(JavaLang("String")) then Some(LiteralString)
    else if u.Parameterized? && u.raw == JavaUtil("Map") then Some(TreeMap)
    else if u.Parameterized? && u.raw == JavaUtil("List") then Some(TreeArray)
    else None
  }

  /** A boxed primitive is read from the same class as the primitive. */
  lemma BoxedLikePrimitive(k: string)
    requires IsPrimitiveKeyword(k)
    ensures Unboxed(Named(BoxOf(k))) == PrimitiveName(k)
    ensures DataTreeType(Named(BoxOf(k))) == DataTreeType(PrimitiveName(k))
  {
  }

  /** The integral types, boxed or not, and only they, are read as integer literals. */
  lemma IntegralTypes(t: TypeName)
    ensures DataTreeType(t) == Some(LiteralInt) <==>
              exists k :: k in {"int", "long", "short", "byte"} && (t == PrimitiveName(k) || t == Named(BoxOf(k)))
  {
    if DataTreeType(t) == Some(LiteralInt) {
      var k := Unboxed(t).keyword;
      assert k in {"int", "long", "short", "byte"} && (t == PrimitiveName(k) || t == Named(BoxOf(k)));
    }
  }

  /** `float` and `double`, boxed or not, and only they, are read as floating-point literals. */
  lemma FloatingTypes(t: TypeName)
    ensures DataTreeType(t) == Some(LiteralFloat) <==>
              exists k :: k in {"float", "double"} && (t == PrimitiveName(k) || t == Named(BoxOf(k)))
  {
    if DataTreeType(t) == Some(LiteralFloat) {
      var k := Unboxed(t).keyword;
      assert k in {"float", "double"} && (t == PrimitiveName(k) || t == Named(BoxOf(k)));
    }
  }

  /** `boolean` and `Boolean` are read as boolean literals, `String` as a string literal, and nothing else is. */
  lemma BooleanAndStringTypes(t: TypeName)
    ensures DataTreeType(t) == Some(LiteralBoolean) <==> t == PrimitiveName("boolean") || t == Named(JavaLang("Boolean"))
    ensures DataTreeType(t) == Some(LiteralString) <==> t == Named(JavaLang("String"))
  {
  }

  /** A parameterised `java.util.Map` is read from a map node and a parameterised `java.util.List` from an array node. */
  lemma CollectionTypes(t: TypeName)
    ensures DataTreeType(t) == Some(TreeMap) <==> t.Parameterized? && t.raw == JavaUtil("Map")
    ensures DataTreeType(t) == Some(TreeArray) <==> t.Parameterized? && t.raw == JavaUtil("List")
  {
  }

  /** `char`, `Character` and a raw `Map` or `List` without type arguments have no `DataTree` class. */
  lemma UnreadTypes()
    ensures DataTreeType(PrimitiveName("char")) == None
    ensures DataTreeType(Named(JavaLang("Character"))) == None
    ensures DataTreeType(Named(JavaUtil("Map"))) == None
    ensures DataTreeType(Named(JavaUtil("List"))) == None
  {
  }

  // ---------------------------------------------------------------------
  // isNullable
  // ---------------------------------------------------------------------

  /** A type use and the simple names of the annotations on it. */
  datatype AnnotatedType = AnnotatedType(mirror: TypeMirror, annotations: seq<string>)

  /** What kind of element is asked about: a field or parameter with its type, a method with its return type, or another element. */
  datatype ElementKind = VariableElement(varType: AnnotatedType) | ExecutableElement(returnType: AnnotatedType) | OtherElement

  /** An `Element` and the simple names of the annotations on it. */
  datatype Element = Element(kind: ElementKind, annotations: seq<string>)

  /** Any annotation whose simple name is `Nullable`, whatever its package. */
  predicate MentionsNullable(annotations: seq<string>)
  {
    exists i :: 0 <= i < |annotations| && annotations[i] == "Nullable"
  }

  /** The loop over annotation mirrors: true at the first one named `Nullable`. */
  method HasNullableAnnotation(annotations: seq<string>) returns (b: bool)
    ensures b <==> MentionsNullable(annotations)
  {
    for i := 0 to |annotations|
      invariant forall j :: 0 <= j < i ==> annotations[j] != "Nullable"
    {
      if annotations[i] == "Nullable" {
        return true;
      }
    }
    return false;
  }

  /** `isNullable(TypeMirror)`: a primitive never is; anything else is when annotated `Nullable`. */
  method IsNullableType(t: AnnotatedType) returns (b: bool)
    ensures b <==> !t.mirror.PrimitiveMirror? && MentionsNullable(t.annotations)
  {
    if t.mirror.PrimitiveMirror? {
      return false;
    }
    b := HasNullableAnnotation(t.annotations);
  }

  /** `isNullable(Element)`: a nullable variable type or return type, or a `Nullable` annotation on the element itself. */
  method IsNullableElement(e: Element) returns (b: bool)
    ensures b <==>
              (e.kind.VariableElement? && !e.kind.varType.mirror.PrimitiveMirror? && MentionsNullable(e.kind.varType.annotations)) ||
              (e.kind.ExecutableElement? && !e.kind.returnType.mirror.PrimitiveMirror? && MentionsNullable(e.kind.returnType.annotations)) ||
              MentionsNullable(e.annotations)
  {
    if e.kind.VariableElement? {
      b := IsNullableType(e.kind.varType);
      if b {
        return;
      }
    }
    if e.kind.ExecutableElement? {
      b := IsNullableType(e.kind.returnType);
      if b {
        return;
      }
    }
    b := HasNullableAnnotation(e.annotations);
  }

  /** A primitive type is non-nullable whatever annotations it carries. */
  method PrimitiveNeverNullable(keyword: string, annotations: seq<string>) returns (b: bool)
    ensures !b
  {
    b := IsNullableType(AnnotatedType(PrimitiveMirror(keyword), annotations));
  }

  // ---------------------------------------------------------------------
  // getAnnotation
  // ---------------------------------------------------------------------

  /** An annotation instance: its type's name and its values, as text. */
  datatype Annotation = Annotation(typeName: string, values: seq<string>)

  /** An annotation class, and whether it is itself marked `@CascadeToInnerClasses`. */
  datatype AnnotationType = AnnotationType(name: string, cascades: bool)

  /** An element with its annotations and the element it is declared in, if any. */
  datatype AnnotatedElement = AnnotatedElement(declared: seq<Annotation>, enclosing: Option<AnnotatedElement>)

  /** `e.getAnnotation(type)`: the annotation of that type directly on `e`. */
  function Own(declared: seq<Annotation>, name: string): (r: Option<Annotation>)
    ensures r.Some? ==> r.value in declared && r.value.typeName == name
    ensures r.None? <==> forall i :: 0 <= i < |declared| ==> declared[i].typeName != name
  {
    if |declared| == 0 then None
    else if declared[0].typeName == name then Some(declared[0])
    else Own(declared[1..], name)
  }

  /** `getAnnotation(e, type)`: the element's own annotation, else, for a cascading type only, the enclosing element's. */
  function GetAnnotation(e: AnnotatedElement, t: AnnotationType): Option<Annotation>
  {
    var onElem := Own(e.declared, t.name);
    if onElem.Some? then onElem
    else if t.cascades then
      match e.enclosing
      case None => None
      case Some(outer) => GetAnnotation(outer, t)
    else None
  }

  /** `e` and the elements around it, from `e` outwards. */
  function Enclosing(e: AnnotatedElement): (r: seq<AnnotatedElement>)
    ensures |r| > 0 && r[0] == e
  {
    match e.enclosing
    case None => [e]
    case Some(outer) => [e] + Enclosing(outer)
  }

  /** An annotation on the element itself always wins; a type that does not cascade is looked up on the element only. */
  lemma OwnAnnotationWins(e: AnnotatedElement, t: AnnotationType)
    ensures Own(e.declared, t.name).Some? ==> GetAnnotation(e, t) == Own(e.declared, t.name)
    ensures !t.cascades ==> GetAnnotation(e, t) == Own(e.declared, t.name)
  {
  }

  /**
   * A cascading annotation is missing exactly when no element around `e`,
   * from `e` outwards, carries one.
   */
  lemma {:induction false} CascadeNoneIff(e: AnnotatedElement, t: AnnotationType)
    requires t.cascades
    ensures GetAnnotation(e, t).None? <==>
              forall i :: 0 <= i < |Enclosing(e)| ==> Own(Enclosing(e)[i].declared, t.name).None?
  {
    if Own(e.declared, t.name).None? {
      match e.enclosing
      case None =>
        assert Enclosing(e) == [e];
      case Some(outer) =>
        CascadeNoneIff(outer, t);
        assert GetAnnotation(e, t) == GetAnnotation(outer, t);
        assert Enclosing(e) == [e] + Enclosing(outer);
        forall i | 0 < i < |Enclosing(e)|
          ensures Enclosing(e)[i] == Enclosing(outer)[i - 1]
        {
        }
        if GetAnnotation(outer, t).Some? {
          var i :| 0 <= i < |Enclosing(outer)| && Own(Enclosing(outer)[i].declared, t.name).Some?;
          assert Enclosing(e)[i + 1] == Enclosing(outer)[i];
          assert Own(Enclosing(e)[i + 1].declared, t.name).Some?;
        } else {
          forall i | 0 <= i < |Enclosing(e)|
            ensures Own(Enclosing(e)[i].declared, t.name).None?
          {
            if i > 0 {
              assert Own(Enclosing(outer)[i - 1].declared, t.name).None?;
            }
          }
        }
    } else {
      assert Enclosing(e)[0] == e;
    }
  }

  /**
   * A cascading annotation that is found comes from the nearest element,
   * from `e` outwards, that carries one.
   */
  lemma {:induction false} CascadeFindsNearest(e: AnnotatedElement, t: AnnotationType)
    requires t.cascades
    ensures GetAnnotation(e, t).Some? ==>
              exists i :: 0 <= i < |Enclosing(e)| && GetAnnotation(e, t) == Own(Enclosing(e)[i].declared, t.name) &&
                          forall j :: 0 <= j < i ==> Own(Enclosing(e)[j].declared, t.name).None?
  {
    if Own(e.declared, t.name).None? {
      match e.enclosing
      case None =>
      case Some(outer) =>
        CascadeFindsNearest(outer, t);
        assert Enclosing(e) == [e] + Enclosing(outer);
        if GetAnnotation(outer, t).Some? {
          var i :| 0 <= i < |Enclosing(outer)| && GetAnnotation(outer, t) == Own(Enclosing(outer)[i].declared, t.name) &&
                   forall j :: 0 <= j < i ==> Own(Enclosing(outer)[j].declared, t.name).None?;
          assert Enclosing(e)[i + 1] == Enclosing(outer)[i];
          forall j | 0 <= j < i + 1 ensures Own(Enclosing(e)[j].declared, t.name).None? {
            if j > 0 {
              assert Enclosing(e)[j] == Enclosing(outer)[j - 1];
            }
          }
        }
    } else {
      assert Enclosing(e)[0] == e;
    }
  }
}
