/**
 * `ConfigurationClassNameGenerator`: the names of the classes generated for
 * a configuration DTO, and the checks made on a type a DTO refers to.
 *
 * JavaPoet's `ClassName` and `TypeName` and the compiler's `TypeElement`
 * and `TypeMirror` are modelled by the parts of them these rules read.
 */
module ClassNames {
  import opened Results
  import opened Strings
  import TypeRegistry

  // ---------------------------------------------------------------------
  // Names and elements
  // ---------------------------------------------------------------------

  /** `ClassName`: a package, the simple names of the enclosing classes from the outside in, and the simple name. */
  datatype ClassName = ClassName(packageName: string, enclosing: seq<string>, simpleName: string)

  /** All simple names, from the outermost class in. */
  function SimpleNames(c: ClassName): seq<string>
  {
    c.enclosing + [c.simpleName]
  }

  /** `peerClass(name)`: a class beside `c`. */
  function PeerClass(c: ClassName, name: string): ClassName
  {
    c.(simpleName := name)
  }

  /** `nestedClass(name)`: a class inside `c`. */
  function NestedClass(c: ClassName, name: string): ClassName
  {
    ClassName(c.packageName, SimpleNames(c), name)
  }

  /** `canonicalName()`: the package and every simple name, dot-separated. */
  function CanonicalName(c: ClassName): string
  {
    if c.packageName == "" then Joined(SimpleNames(c), ".")
    else c.packageName + "." + Joined(SimpleNames(c), ".")
  }

  /** `@Config`, with its `className` (empty when not given). */
  datatype ConfigAnnotation = ConfigAnnotation(className: string)

  /** How a type is nested: at top level, or as a member of another type. */
  datatype Nesting = TopLevel | Member(enclosing: TypeElement)

  /** A `TypeElement`: its simple name, its package ("" for the unnamed package), its `@Config` and its nesting. */
  datatype TypeElement = TypeElement(simpleName: string, packageName: string, config: Option<ConfigAnnotation>, nesting: Nesting)

  /** The top-level type `t` is declared in, which also gives its package. */
  function Outermost(t: TypeElement): TypeElement
  {
    match t.nesting
    case TopLevel => t
    case Member(e) => Outermost(e)
  }

  /** The types from the top-level one down to `t`. */
  function ElementChain(t: TypeElement): (r: seq<TypeElement>)
    ensures |r| > 0 && r[|r| - 1] == t && r[0] == Outermost(t)
  {
    match t.nesting
    case TopLevel => [t]
    case Member(e) => ElementChain(e) + [t]
  }

  /** `ClassName.get(element)`. */
  function ClassNameOf(t: TypeElement): ClassName
  {
    match t.nesting
    case TopLevel => ClassName(t.packageName, [], t.simpleName)
    case Member(e) => NestedClass(ClassNameOf(e), t.simpleName)
  }

  // ---------------------------------------------------------------------
  // createConfigImplClassName
  // ---------------------------------------------------------------------

  /** The simple name of the implementation: a `DTO` suffix is dropped, any other name gets `Impl`. */
  function ImplSimpleName(simple: string): string
  {
    if EndsWith(simple, "DTO") then simple[..|simple| - 3] else simple + "Impl"
  }

  /** `createConfigImplClassName(ClassName)`: the implementation's name, beside the DTO. */
  function CreateImplClassName(dto: ClassName): ClassName
  {
    PeerClass(dto, ImplSimpleName(dto.simpleName))
  }

  /**
   * Adding `DTO` and then naming the implementation gives the name back; a
   * name without the suffix gains `Impl`. Either way the implementation is
   * another class in the same package and the same enclosing class.
   */
  lemma ImplNameMeaning(base: string, dto: ClassName)
    ensures ImplSimpleName(base + "DTO") == base
    ensures !EndsWith(base, "DTO") ==> StartsWith(ImplSimpleName(base), base) && EndsWith(ImplSimpleName(base), "Impl")
    ensures ImplSimpleName(base) != base
    ensures var impl := CreateImplClassName(dto);
            impl.packageName == dto.packageName && impl.enclosing == dto.enclosing && impl != dto
  {
    var s := base + "DTO";
    assert s[|s| - 3..] == "DTO";
    assert s[..|s| - 3] == base;
    if !EndsWith(base, "DTO") {
      var r := base + "Impl";
      assert r[..|base|] == base;
      assert r[|r| - 4..] == "Impl";
    }
  }

  lemma ImplNameExamples()
    ensures ImplSimpleName("TestConfigDTO") == "TestConfig"
    ensures ImplSimpleName("TestConfig") == "TestConfigImpl"
  {
    ImplNameMeaning("TestConfig", ClassName("", [], ""));
    assert !EndsWith("TestConfig", "DTO") by {
      assert "TestConfig"[7..] == "fig";
    }
  }

  /** `ASTParentReference`: the DTO a structure is declared in, and that DTO's own enclosing reference. */
  datatype ParentReference = ParentReference(parentClassName: ClassName, parent: Option<ParentReference>)

  /** The enclosing DTO names from the outermost in. */
  function ParentChain(p: ParentReference): (r: seq<ClassName>)
    ensures |r| > 0 && r[|r| - 1] == p.parentClassName
  {
    if p.parent.Some? then ParentChain(p.parent.value) + [p.parentClassName] else [p.parentClassName]
  }

  /** `createConfigImplClassName(ASTParentReference)`: the implementation name, nested in its parent's implementation name. */
  function ImplClassNameOfParent(p: ParentReference): ClassName
  {
    var implName := CreateImplClassName(p.parentClassName);
    if p.parent.Some? then NestedClass(ImplClassNameOfParent(p.parent.value), implName.simpleName) else implName
  }

  function ImplSimpleNames(chain: seq<ClassName>): (r: seq<string>)
    ensures |r| == |chain|
    ensures forall i :: 0 <= i < |chain| ==> r[i] == ImplSimpleName(chain[i].simpleName)
  {
    seq(|chain|, i requires 0 <= i < |chain| => ImplSimpleName(chain[i].simpleName))
  }

  /**
   * The name is built from the outermost DTO in: that DTO's package and
   * enclosing classes, then the implementation name of every DTO on the way.
   */
  lemma {:induction false} ImplClassNameOfParentNests(p: ParentReference)
    ensures var root := ParentChain(p)[0];
            ImplClassNameOfParent(p).packageName == root.packageName &&
            SimpleNames(ImplClassNameOfParent(p)) == root.enclosing + ImplSimpleNames(ParentChain(p))
  {
    if p.parent.Some? {
      var q := p.parent.value;
      ImplClassNameOfParentNests(q);
      var chain := ParentChain(p);
      assert chain == ParentChain(q) + [p.parentClassName];
      assert ImplSimpleNames(chain) == ImplSimpleNames(ParentChain(q)) + [ImplSimpleName(p.parentClassName.simpleName)];
    }
  }

  /** Where a configuration comes from: an interface or a class. */
  datatype SourceKind = InterfaceSource | ClassSource

  /** The parts of an `AbstractConfigStructure` the names depend on. */
  datatype Structure = Structure(name: ClassName, enclosedIn: Option<ParentReference>, source: SourceKind)

  /** `createConfigImplClassName(AbstractConfigStructure)`: nested in the enclosing parent's implementation when there is one. */
  function ImplClassNameOfStructure(ast: Structure): ClassName
  {
    var implName := CreateImplClassName(ast.name);
    if ast.enclosedIn.Some? then NestedClass(ImplClassNameOfParent(ast.enclosedIn.value), implName.simpleName) else implName
  }

  /** `getPublicClassName`: what users refer to, the interface itself or the implementation of a class. */
  function PublicClassName(ast: Structure): ClassName
  {
    match ast.source
    case InterfaceSource => ast.name
    case ClassSource => ImplClassNameOfStructure(ast)
  }

  /** `getConcreteConfigClassName`: what is instantiated, the reverse choice. */
  function ConcreteClassName(ast: Structure): ClassName
  {
    match ast.source
    case ClassSource => ast.name
    case InterfaceSource => ImplClassNameOfStructure(ast)
  }

  /**
   * One of the public and concrete names is the DTO's own and the other the
   * generated implementation's, and they are never the same class.
   */
  lemma PublicAndConcreteDiffer(ast: Structure)
    ensures {PublicClassName(ast), ConcreteClassName(ast)} == {ast.name, ImplClassNameOfStructure(ast)}
    ensures PublicClassName(ast) != ConcreteClassName(ast)
    ensures ImplClassNameOfStructure(ast).simpleName == ImplSimpleName(ast.name.simpleName)
  {
    ImplNameMeaning(ast.name.simpleName, ast.name);
  }

  // ---------------------------------------------------------------------
  // findConfigClassName and generateConfigurationClassName
  // ---------------------------------------------------------------------

  /** `findConfigClassName`: a type without `@Config` keeps its name, a non-empty `className` is used as it is, else the implementation name. */
  function FindConfigClassName(t: TypeElement): string
  {
    if t.config.None? then t.simpleName
    else if t.config.value.className != "" then t.config.value.className
    else ImplSimpleName(t.simpleName)
  }

  /** `generateConfigurationClassName`: a member type is nested under the generated name of the type it is declared in. */
  function GenerateConfigurationClassName(t: TypeElement): ClassName
  {
    match t.nesting
    case Member(e) => NestedClass(GenerateConfigurationClassName(e), FindConfigClassName(t))
    case TopLevel => ClassName(t.packageName, [], FindConfigClassName(t))
  }

  function FoundNames(chain: seq<TypeElement>): (r: seq<string>)
    ensures |r| == |chain|
    ensures forall i :: 0 <= i < |chain| ==> r[i] == FindConfigClassName(chain[i])
  {
    seq(|chain|, i requires 0 <= i < |chain| => FindConfigClassName(chain[i]))
  }

  /**
   * The generated name lies in the package of the top-level type, and each
   * simple name along the nesting is that type's own config class name.
   */
  lemma {:induction false} GeneratedNameNests(t: TypeElement)
    ensures GenerateConfigurationClassName(t).packageName == Outermost(t).packageName
    ensures SimpleNames(GenerateConfigurationClassName(t)) == FoundNames(ElementChain(t))
  {
    match t.nesting {
      case TopLevel =>
      case Member(e) =>
        GeneratedNameNests(e);
        assert FoundNames(ElementChain(t)) == FoundNames(ElementChain(e)) + [FindConfigClassName(t)];
    }
  }

  /** A type with no `@Config` on it or around it keeps its unchanged name. */
  lemma {:induction false} UnannotatedKeepsName(t: TypeElement)
    requires forall i :: 0 <= i < |ElementChain(t)| ==> ElementChain(t)[i].config.None?
    ensures GenerateConfigurationClassName(t) == ClassNameOf(t)
  {
    match t.nesting {
      case TopLevel =>
        assert ElementChain(t)[0] == t;
      case Member(e) =>
        assert ElementChain(t) == ElementChain(e) + [t];
        forall i | 0 <= i < |ElementChain(e)| ensures ElementChain(e)[i].config.None? {
          assert ElementChain(t)[i] == ElementChain(e)[i];
        }
        UnannotatedKeepsName(e);
    }
  }

  /** A `className` override wins, whatever the type is called. */
  lemma OverrideWins(t: TypeElement, className: string)
    requires className != ""
    ensures GenerateConfigurationClassName(t.(config := Some(ConfigAnnotation(className)))).simpleName == className
  {
  }

  // ---------------------------------------------------------------------
  // Types, and the names generated for property types
  // ---------------------------------------------------------------------

  /** A `TypeMirror`: primitive, unresolved (an error type), declared (with its type arguments and any `@GeneratedConfig` source), or anything else. */
  datatype TypeMirror =
    | PrimitiveMirror(keyword: string)
    | ErrorMirror(text: string)
    | DeclaredMirror(element: TypeElement, arguments: seq<TypeMirror>, generatedFrom: Option<string>)
    | OtherMirror(text: string)

  /** JavaPoet's `TypeName`. */
  datatype TypeName =
    | PrimitiveName(keyword: string)
    | Named(className: ClassName)
    | Parameterized(raw: ClassName, arguments: seq<TypeName>)
    | OtherName(text: string)

  /** JavaPoet's `TypeName.toString`: qualified names, type arguments separated by ", ". */
  function TypeNameText(n: TypeName): string
  {
    match n
    case PrimitiveName(k) => k
    case Named(c) => CanonicalName(c)
    case Parameterized(raw, args) =>
      CanonicalName(raw) + "<" + Joined(seq(|args|, i requires 0 <= i < |args| => TypeNameText(args[i])), ", ") + ">"
    case OtherName(text) => text
  }

  /** `TypeName.get(mirror)`. */
  function TypeNameOf(m: TypeMirror): TypeName
  {
    match m
    case PrimitiveMirror(k) => PrimitiveName(k)
    case ErrorMirror(text) => OtherName(text)
    case OtherMirror(text) => OtherName(text)
    case DeclaredMirror(e, args, _) =>
      if |args| == 0 then Named(ClassNameOf(e))
      else Parameterized(ClassNameOf(e), seq(|args|, i requires 0 <= i < |args| => TypeNameOf(args[i])))
  }

  /** The compiler's `toString` of a type: qualified names, type arguments in angle brackets separated by ",". */
  function MirrorText(m: TypeMirror): string
  {
    match m
    case PrimitiveMirror(k) => k
    case ErrorMirror(text) => text
    case OtherMirror(text) => text
    case DeclaredMirror(e, args, _) =>
      if |args| == 0 then CanonicalName(ClassNameOf(e))
      else CanonicalName(ClassNameOf(e)) + "<" + Joined(seq(|args|, i requires 0 <= i < |args| => MirrorText(args[i])), ",") + ">"
  }

  /**
   * `getPropertyClassName`: a type the config registry knows is named by
   * `astMapper`; any other type keeps its name, with its type arguments
   * translated the same way (`translateDTOParameters`).
   */
  function PropertyClassName(m: TypeMirror, lookup: TypeMirror -> Option<Structure>, astMapper: Structure -> ClassName): TypeName
  {
    if lookup(m).Some? then Named(astMapper(lookup(m).value))
    else match m
      case DeclaredMirror(e, args, _) =>
        if |args| == 0 then TypeNameOf(m)
        else Parameterized(ClassNameOf(e), seq(|args|, i requires 0 <= i < |args| => PropertyClassName(args[i], lookup, astMapper)))
      case _ => TypeNameOf(m)
  }

  /** `getConfigPropertyClassName`, `publicPropertyClassName` and `concretePropertyClassName`. */
  function ConfigPropertyClassName(m: TypeMirror, lookup: TypeMirror -> Option<Structure>): TypeName
  {
    PropertyClassName(m, lookup, ImplClassNameOfStructure)
  }

  function PublicPropertyClassName(m: TypeMirror, lookup: TypeMirror -> Option<Structure>): TypeName
  {
    PropertyClassName(m, lookup, PublicClassName)
  }

  function ConcretePropertyClassName(m: TypeMirror, lookup: TypeMirror -> Option<Structure>): TypeName
  {
    PropertyClassName(m, lookup, ConcreteClassName)
  }

  /** No type inside `m`, `m` included, is a known config. */
  predicate MentionsNoConfig(m: TypeMirror, lookup: TypeMirror -> Option<Structure>)
  {
    lookup(m).None? &&
    match m
    case DeclaredMirror(_, args, _) => forall i :: 0 <= i < |args| ==> MentionsNoConfig(args[i], lookup)
    case _ => true
  }

  /** A type that mentions no config is named exactly as `TypeName.get` names it. */
  lemma {:induction false} PlainTypeKeepsName(m: TypeMirror, lookup: TypeMirror -> Option<Structure>, astMapper: Structure -> ClassName)
    requires MentionsNoConfig(m, lookup)
    ensures PropertyClassName(m, lookup, astMapper) == TypeNameOf(m)
  {
    match m {
      case DeclaredMirror(e, args, _) =>
        forall i | 0 <= i < |args|
          ensures PropertyClassName(args[i], lookup, astMapper) == TypeNameOf(args[i])
        {
          PlainTypeKeepsName(args[i], lookup, astMapper);
        }
      case _ =>
    }
  }

  /** A known config as a type argument is replaced, the container kept: `List<UserDTO>` becomes `List<User>`. */
  lemma ArgumentIsTranslated(list: TypeElement, dto: TypeMirror, ast: Structure, lookup: TypeMirror -> Option<Structure>)
    requires lookup(dto) == Some(ast)
    requires lookup(DeclaredMirror(list, [dto], None)).None?
    ensures PublicPropertyClassName(DeclaredMirror(list, [dto], None), lookup) == Parameterized(ClassNameOf(list), [Named(PublicClassName(ast))])
  {
    var m := DeclaredMirror(list, [dto], None);
    var r := PublicPropertyClassName(m, lookup);
    assert r.Parameterized? && r.raw == ClassNameOf(list) && |r.arguments| == 1;
    assert r.arguments[0] == PropertyClassName(dto, lookup, PublicClassName);
    assert r.arguments == [Named(PublicClassName(ast))];
  }

  // ---------------------------------------------------------------------
  // getConfigClassName
  // ---------------------------------------------------------------------

  /** What `getConfigClassName` answers, and the error it reports to the compiler first, if any. */
  datatype Checked = Checked(result: Result<TypeName>, reported: Option<string>)

  /**
   * What `getConfigClassName(typeMirror, source)` returns or throws: a
   * primitive passes through; an unresolved type or one generated by this
   * processor throws a bare `RuntimeException`; a type without an element or
   * from the unnamed package is refused; anything else gets its generated
   * configuration name. The generated-type cache only shapes the message
   * reported before the throw, so the outcome does not depend on it.
   */
  function ConfigClassName(m: TypeMirror): Result<TypeName>
  {
    match m
    case PrimitiveMirror(_) => Ok(TypeNameOf(m))
    case ErrorMirror(_) => Fail(Raised("RuntimeException", ""))
    case DeclaredMirror(e, _, generatedFrom) =>
      if generatedFrom.Some? then Fail(Raised("RuntimeException", ""))
      else if Outermost(e).packageName == "" then Fail(IllegalArgument("Unnamed packages are not supported"))
      else Ok(Named(GenerateConfigurationClassName(e)))
    case OtherMirror(text) => Fail(IllegalArgument(text + " must be a declared type"))
  }

  /**
   * `getConfigClassName(typeMirror, source)` with what it reports to the
   * compiler: an unresolved or generated type is reported with
   * `DTOReferenceException`'s message, built from the cache, before it throws.
   */
  function GetConfigClassName<K(==)>(m: TypeMirror, cache: TypeRegistry.GeneratedTypeCache<K>, pretty: K -> string, source: Option<string>): Checked
    reads cache
  {
    var reported :=
      match m
      case ErrorMirror(_) => Some(TypeRegistry.MessageFor(cache, MirrorText(m), pretty, None, source))
      case DeclaredMirror(_, _, generatedFrom) =>
        if generatedFrom.Some? then Some(TypeRegistry.MessageFor(cache, MirrorText(m), pretty, generatedFrom, source)) else None
      case _ => None;
    Checked(ConfigClassName(m), reported)
  }

  /** The checks in their order: reporting happens exactly when the result is the bare `RuntimeException`. */
  lemma GetConfigClassNameChecks<K>(m: TypeMirror, cache: TypeRegistry.GeneratedTypeCache<K>, pretty: K -> string, source: Option<string>)
    ensures m.PrimitiveMirror? ==> GetConfigClassName(m, cache, pretty, source).result == Ok(PrimitiveName(m.keyword))
    ensures GetConfigClassName(m, cache, pretty, source).reported.Some? <==> m.ErrorMirror? || (m.DeclaredMirror? && m.generatedFrom.Some?)
    ensures GetConfigClassName(m, cache, pretty, source).reported.Some? ==> GetConfigClassName(m, cache, pretty, source).result.Fail?
    ensures m.DeclaredMirror? && m.generatedFrom.None? ==>
              (GetConfigClassName(m, cache, pretty, source).result.Ok? <==> Outermost(m.element).packageName != "")
    ensures GetConfigClassName(m, cache, pretty, source).result.Ok? && !m.PrimitiveMirror? ==>
              GetConfigClassName(m, cache, pretty, source).result == Ok(Named(GenerateConfigurationClassName(m.element)))
  {
  }

  /** A reference to a generated class names the DTO it was generated from, as `@GeneratedConfig` records it. */
  lemma GeneratedTypeNamesItsSource<K>(e: TypeElement, args: seq<TypeMirror>, dto: string, cache: TypeRegistry.GeneratedTypeCache<K>, pretty: K -> string, source: Option<string>)
    ensures var m := DeclaredMirror(e, args, Some(dto));
            var c := GetConfigClassName(m, cache, pretty, source);
            c.reported.Some? && Contains(c.reported.value, TypeRegistry.Suggests(MirrorText(m), dto))
  {
    var m := DeclaredMirror(e, args, Some(dto));
    TypeRegistry.MessageChoice(MirrorText(m), TypeRegistry.Matching(cache.specs, MirrorText(m)), pretty, Some(dto), source);
  }
}
