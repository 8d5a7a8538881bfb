/**
 * The parts of JavaPoet's type model the generator fills in: a type is a
 * name, modifiers, supertypes, fields, methods and nested types, and
 * `TypeSpec.Builder` collects them in the order they are added. Annotations
 * are kept as the few the generator's decisions are about; Javadoc, imports
 * and formatting are not modelled.
 */
module TypeSpecs {
  import opened Results
  import opened ClassNames

  datatype Modifier = Public | Private | Static | Final | Abstract

  /** The annotations whose presence the generator decides: `@Override` and `@Contract(pure = true)`. */
  datatype Annotation = Override | PureContract

  /**
   * The initializer of a `CONFIG` field, `new Configuration<>(source,
   * Public.class, Impl::deserialize[, Impl::serialize])`.
   */
  datatype ConfigurationInit = ConfigurationInit(
    sourceFile: string,
    publicClass: ClassName,
    implClass: ClassName,
    deserializeMethod: string,
    serializeMethod: Option<string>)

  datatype FieldSpec = FieldSpec(fieldType: TypeName, name: string, modifiers: seq<Modifier>, initializer: Option<ConfigurationInit>)

  datatype ParameterSpec = ParameterSpec(parameterType: TypeName, name: string)

  /** A method; a constructor has no return type and is named `<init>`, as in JavaPoet. */
  datatype MethodSpec = MethodSpec(
    name: string,
    modifiers: seq<Modifier>,
    annotations: seq<Annotation>,
    returnType: Option<TypeName>,
    parameters: seq<ParameterSpec>,
    statements: seq<string>)

  const ConstructorName := "<init>"

  datatype TypeSpec = TypeSpec(
    name: ClassName,
    modifiers: seq<Modifier>,
    superinterfaces: seq<ClassName>,
    superclass: Option<ClassName>,
    fields: seq<FieldSpec>,
    methods: seq<MethodSpec>,
    types: seq<TypeSpec>)

  /** `TypeSpec.classBuilder(name)`: everything added so far, in order. */
  class TypeSpecBuilder {
    const name: ClassName
    var modifiers: seq<Modifier>
    var superinterfaces: seq<ClassName>
    var superclass: Option<ClassName>
    var fields: seq<FieldSpec>
    var methods: seq<MethodSpec>
    var types: seq<TypeSpec>

    constructor(name: ClassName)
      ensures this.name == name
      ensures modifiers == [] && superinterfaces == [] && superclass == None
      ensures fields == [] && methods == [] && types == []
      ensures IsEmpty()
    {
      this.name := name;
      modifiers := [];
      superinterfaces := [];
      superclass := None;
      fields := [];
      methods := [];
      types := [];
    }

    method AddModifiers(ms: seq<Modifier>)
      modifies this
      ensures modifiers == old(modifiers) + ms
      ensures superinterfaces == old(superinterfaces) && superclass == old(superclass)
      ensures fields == old(fields) && methods == old(methods) && types == old(types)
    {
      modifiers := modifiers + ms;
    }

    method AddSuperinterface(c: ClassName)
      modifies this
      ensures superinterfaces == old(superinterfaces) + [c]
      ensures modifiers == old(modifiers) && superclass == old(superclass)
      ensures fields == old(fields) && methods == old(methods) && types == old(types)
    {
      superinterfaces := superinterfaces + [c];
    }

    /** `superclass(c)`. */
    method SetSuperclass(c: ClassName)
      modifies this
      ensures superclass == Some(c)
      ensures modifiers == old(modifiers) && superinterfaces == old(superinterfaces)
      ensures fields == old(fields) && methods == old(methods) && types == old(types)
    {
      superclass := Some(c);
    }

    method AddField(f: FieldSpec)
      modifies this
      ensures fields == old(fields) + [f]
      ensures modifiers == old(modifiers) && superinterfaces == old(superinterfaces) && superclass == old(superclass)
      ensures methods == old(methods) && types == old(types)
    {
      fields := fields + [f];
    }

    method AddMethod(m: MethodSpec)
      modifies this
      ensures methods == old(methods) + [m]
      ensures modifiers == old(modifiers) && superinterfaces == old(superinterfaces) && superclass == old(superclass)
      ensures fields == old(fields) && types == old(types)
    {
      methods := methods + [m];
    }

    method AddType(t: TypeSpec)
      modifies this
      ensures types == old(types) + [t]
      ensures modifiers == old(modifiers) && superinterfaces == old(superinterfaces) && superclass == old(superclass)
      ensures fields == old(fields) && methods == old(methods)
    {
      types := types + [t];
    }

    /** Nothing added yet. */
    predicate IsEmpty()
      reads this
    {
      modifiers == [] && superinterfaces == [] && superclass == None && fields == [] && methods == [] && types == []
    }

    /** What `build()` would give is `t`. */
    predicate Describes(t: TypeSpec)
      reads this
    {
      name == t.name && modifiers == t.modifiers && superinterfaces == t.superinterfaces && superclass == t.superclass &&
      fields == t.fields && methods == t.methods && types == t.types
    }

    /** `build()`. */
    function Build(): (t: TypeSpec)
      reads this
      ensures Describes(t)
    {
      TypeSpec(name, modifiers, superinterfaces, superclass, fields, methods, types)
    }
  }
}
