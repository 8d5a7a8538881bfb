/**
 * `FieldClassNameGenerator`: the key under which a property is looked up in
 * the configuration data.
 */
module FieldNames {
  import opened Sequences
  import opened Results
  import opened Strings
  import opened NamingPatterns
  import Nulls

  /**
   * The naming pattern a property is parsed with: its own `@NamingPattern`,
   * or else the one of its configuration type.
   */
  function PropertyPattern(fieldPattern: Option<NamingPattern>, typePattern: Option<NamingPattern>): (p: Option<NamingPattern>)
    ensures fieldPattern.Some? ==> p == fieldPattern
    ensures fieldPattern.None? ==> p == typePattern
  {
    Nulls.OrElse(fieldPattern, typePattern)
  }

  /**
   * `getConfigFieldName`: an explicit `@ConfigName` wins, then the naming
   * pattern applied to the field name, then the field name itself.
   */
  function ConfigFieldName(configName: Option<string>, pattern: Option<NamingPattern>, fieldName: string): (key: string)
    ensures configName.Some? ==> key == configName.value
    ensures configName.None? && pattern.Some? ==> key == Formatted(fieldName, pattern.value)
    ensures configName.None? && pattern.None? ==> key == fieldName
  {
    if configName.Some? then configName.value
    else if pattern.Some? then Formatted(fieldName, pattern.value)
    else fieldName
  }

  lemma SplitFieldName()
    ensures SplitCamel("fieldName") == ["field", "Name"]
  {
    var s := "fieldName";
    assert !Boundary(s, 1) && !Boundary(s, 2) && !Boundary(s, 3) && !Boundary(s, 4);
    assert Boundary(s, 5);
    assert !Boundary(s, 6) && !Boundary(s, 7) && !Boundary(s, 8);
    assert Segments(s, 5, 9) == ["Name"];
    assert Segments(s, 5, 6) == Segments(s, 5, 7) == Segments(s, 5, 8) == Segments(s, 5, 9);
    assert s[0..5] == "field";
    assert Segments(s, 0, 5) == ["field"] + Segments(s, 5, 6);
    assert Segments(s, 0, 1) == Segments(s, 0, 2) == Segments(s, 0, 3) == Segments(s, 0, 4) == Segments(s, 0, 5);
  }

  /** A field's own pattern beats its type's: `fieldName` under UPPER_CAMEL_CASE over LOWER_SNAKE_CASE is `FieldName`. */
  lemma FieldPatternBeatsTypePattern()
    ensures ConfigFieldName(None, PropertyPattern(Some(UpperCamelCase), Some(LowerSnakeCase)), "fieldName") == "FieldName"
  {
    SplitFieldName();
    assert Capitalize("field") == "Field";
    assert Capitalize("Name") == "Name";
    assert CamelParts(UpperCamelCase, ["field", "Name"]) == ["Field", "Name"];
  }

  /** An unannotated field takes its type's pattern: `fieldName` under LOWER_KEBAB_CASE is `field-name`. */
  lemma TypePatternApplies()
    ensures ConfigFieldName(None, PropertyPattern(None, Some(LowerKebabCase)), "fieldName") == "field-name"
  {
    SplitFieldName();
    var parts := ["field", "Name"];
    assert LowerCase("field") == "field";
    assert LowerCase("Name")[0] == 'n';
    assert LowerCase("Name") == "name";
    var mapped := Mapped(parts, part => TransformPart(LowerKebabCase, part));
    assert mapped == ["field", "name"];
    assert mapped[1..] == ["name"];
  }

  /** `@ConfigName("field-name")` wins over a LOWER_SNAKE_CASE type pattern. */
  lemma ConfigNameBeatsPattern()
    ensures ConfigFieldName(Some("field-name"), PropertyPattern(None, Some(LowerSnakeCase)), "hello") == "field-name"
  {
  }
}
