/**
 * `AbstractConfigStructure`: the schema of one configuration class as the
 * generator receives it, with what the generator looks up about it.
 */
module ConfigAsts {
  import opened Results
  import opened ClassNames
  import opened DeserializationPlans

  /** The three records implementing `AbstractConfigStructure`. */
  datatype Kind = Atomic | Intersection | Union

  /**
   * `ConfigASTSettings`: the `@Source` file name when there is one, and
   * whether `@GenerateToString` is on the class.
   */
  datatype Settings = Settings(source: Option<string>, generateToString: bool)

  /**
   * What `SerializationCodeGenerator` answers about a structure: whether it
   * can write its `serialize` method, and that method's name.
   */
  datatype Serialization = Serialization(supported: bool, methodName: string)

  /**
   * A structure. `structure` holds the DTO's name, the DTO it is declared in
   * and whether it is an interface or a class; `implClass` is the name
   * of the generated class (what `generateConfigurationClassName` gives for
   * its element); `parent` is the superclass a class DTO extends, named by
   * its class; `enclosed` are the nested structures, a union's alternatives.
   */
  datatype Ast = Ast(
    kind: Kind,
    structure: Structure,
    implClass: ClassName,
    parent: Option<ClassName>,
    properties: seq<Property>,
    enclosed: seq<Ast>,
    settings: Settings,
    serialization: Serialization)

  /** `getSuperClass(ast)`: only a class source has a superclass. */
  function SuperClassOf(ast: Ast): (r: Option<ClassName>)
    ensures r.Some? <==> ast.structure.source == ClassSource && ast.parent.Some?
    ensures r.Some? ==> r == ast.parent
  {
    if ast.structure.source == ClassSource then ast.parent else None
  }
}
