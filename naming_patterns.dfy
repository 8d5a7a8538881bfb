/**
 * `NamingPatternTransformer`: re-spelling a camel-case Java name in one of
 * the configuration naming patterns (kebab, snake or camel case).
 */
module NamingPatterns {
  import opened Sequences
  import opened Strings
  import Results

  /** The constants of the `NamingPatterns` enum. */
  datatype NamingPattern =
    | Default
    | LowerKebabCase
    | UpperKebabCase
    | LowerSnakeCase
    | UpperSnakeCase
    | LowerCamelCase
    | UpperCamelCase

  predicate IsCamel(p: NamingPattern) { p == LowerCamelCase || p == UpperCamelCase }

  // ---------------------------------------------------------------------
  // Splitting on the camel-case pattern
  // ---------------------------------------------------------------------

  /**
   * Where the zero-width pattern `(?=(?<=[a-z])[A-Z]|[A-Z](?=[a-z]))` matches:
   * before an upper-case letter that follows a lower-case one, or that is
   * followed by a lower-case one.
   */
  predicate Boundary(s: string, i: int)
    requires 0 <= i < |s|
  {
    IsUpper(s[i]) && ((i > 0 && IsLower(s[i - 1])) || (i + 1 < |s| && IsLower(s[i + 1])))
  }

  /** The parts of `s[start..]`, the current part having begun at `start` and `s[start+1..i]` scanned. */
  function Segments(s: string, start: nat, i: nat): (parts: seq<string>)
    requires start < i <= |s|
    ensures |parts| > 0
    decreases |s| - i
  {
    if i == |s| then [s[start..]]
    else if Boundary(s, i) then [s[start..i]] + Segments(s, i, i + 1)
    else Segments(s, start, i + 1)
  }

  /**
   * `Pattern.split` with the camel-case pattern. A match at index 0 produces no
   * leading empty part, and an input with no match, the empty string included,
   * is a single part.
   */
  function SplitCamel(s: string): (parts: seq<string>)
    ensures |parts| > 0
  {
    if |s| == 0 then [""] else Segments(s, 0, 1)
  }

  lemma {:induction false} SegmentsJoin(s: string, start: nat, i: nat)
    requires start < i <= |s|
    ensures Joined(Segments(s, start, i), "") == s[start..]
    ensures forall k :: 0 <= k < |Segments(s, start, i)| ==> |Segments(s, start, i)[k]| > 0
    ensures forall k :: 0 < k < |Segments(s, start, i)| ==> IsUpper(Segments(s, start, i)[k][0])
    decreases |s| - i
  {
    if i < |s| {
      if Boundary(s, i) {
        SegmentsJoin(s, i, i + 1);
        SegmentsSplitAt(s, start, i, Segments(s, i, i + 1));
      } else {
        SegmentsJoin(s, start, i + 1);
      }
    }
  }

  /** One step of `SegmentsJoin`: a boundary at `i` closes the part `s[start..i]` before the parts `rest` of `s[i..]`. */
  lemma SegmentsSplitAt(s: string, start: nat, i: nat, rest: seq<string>)
    requires start < i < |s| && Boundary(s, i)
    requires rest == Segments(s, i, i + 1)
    requires Joined(rest, "") == s[i..]
    requires forall k :: 0 <= k < |rest| ==> |rest[k]| > 0
    requires forall k :: 0 < k < |rest| ==> IsUpper(rest[k][0])
    ensures Joined(Segments(s, start, i), "") == s[start..]
    ensures forall k :: 0 <= k < |Segments(s, start, i)| ==> |Segments(s, start, i)[k]| > 0
    ensures forall k :: 0 < k < |Segments(s, start, i)| ==> IsUpper(Segments(s, start, i)[k][0])
  {
    assert Segments(s, start, i) == [s[start..i]] + rest;
    JoinedAppend([s[start..i]], rest, "");
    assert rest[0][0] == s[i] by {
      SegmentsFirst(s, i, i + 1);
    }
  }

  lemma {:induction false} SegmentsFirst(s: string, start: nat, i: nat)
    requires start < i <= |s|
    ensures StartsWith(Segments(s, start, i)[0], s[start..i])
    decreases |s| - i
  {
    if i < |s| && !Boundary(s, i) {
      SegmentsFirst(s, start, i + 1);
      assert s[start..i + 1][..i - start] == s[start..i];
    }
  }

  /** Splitting loses nothing: the parts, put back together, are the input. */
  lemma SplitCamelJoins(s: string)
    ensures Joined(SplitCamel(s), "") == s
    ensures |s| > 0 ==> forall k :: 0 <= k < |SplitCamel(s)| ==> |SplitCamel(s)[k]| > 0
    ensures forall k :: 0 < k < |SplitCamel(s)| ==> IsUpper(SplitCamel(s)[k][0])
  {
    if |s| > 0 {
      SegmentsJoin(s, 0, 1);
    }
  }

  // ---------------------------------------------------------------------
  // Formatting
  // ---------------------------------------------------------------------

  /** What `camelCaseFormat` returns: every part capitalized, the first then uncapitalized for lower camel case. */
  function CamelJoined(pattern: NamingPattern, parts: seq<string>): string
    requires IsCamel(pattern) && |parts| > 0
  {
    Joined(CamelParts(pattern, parts), "")
  }

  function CamelParts(pattern: NamingPattern, parts: seq<string>): (r: seq<string>)
    requires IsCamel(pattern) && |parts| > 0
    ensures |r| == |parts|
    ensures forall i :: 0 < i < |parts| ==> r[i] == Capitalize(parts[i])
    ensures r[0] == if pattern == LowerCamelCase then Uncapitalize(Capitalize(parts[0])) else Capitalize(parts[0])
  {
    var caps := seq(|parts|, i requires 0 <= i < |parts| => Capitalize(parts[i]));
    if pattern == LowerCamelCase then caps[0 := Uncapitalize(caps[0])] else caps
  }

  /** The separator and part transformer of the kebab and snake patterns. */
  function Separator(pattern: NamingPattern): string
  {
    if pattern == LowerKebabCase || pattern == UpperKebabCase then "-" else "_"
  }

  function TransformPart(pattern: NamingPattern, part: string): string
  {
    if pattern == LowerKebabCase || pattern == LowerSnakeCase then LowerCase(part) else Capitalize(part)
  }

  /** The specification of `format`. */
  function Formatted(input: string, pattern: NamingPattern): string
  {
    if pattern == Default then input
    else
      var parts := SplitCamel(input);
      if IsCamel(pattern) then CamelJoined(pattern, parts)
      else Joined(Mapped(parts, part => TransformPart(pattern, part)), Separator(pattern))
  }

  /**
   * `camelCaseFormat`: `None` (Java `null`) unless the pattern is a camel case;
   * otherwise it rewrites `parts` in place and returns their concatenation.
   */
  method CamelCaseFormat(pattern: NamingPattern, parts: array<string>) returns (r: Results.Option<string>)
    requires parts.Length > 0
    modifies parts
    ensures !IsCamel(pattern) ==> r.None? && parts[..] == old(parts[..])
    ensures IsCamel(pattern) ==> parts[..] == CamelParts(pattern, old(parts[..]))
    ensures IsCamel(pattern) ==> r == Results.Some(CamelJoined(pattern, old(parts[..])))
  {
    if !IsCamel(pattern) {
      return Results.None;
    }
    var i := 0;
    while i < parts.Length
      invariant 0 <= i <= parts.Length
      invariant forall k :: 0 <= k < i ==> parts[k] == Capitalize(old(parts[k]))
      invariant forall k :: i <= k < parts.Length ==> parts[k] == old(parts[k])
    {
      parts[i] := Capitalize(parts[i]);
      i := i + 1;
    }
    if pattern == LowerCamelCase {
      parts[0] := Uncapitalize(parts[0]);
    }
    assert parts[..] == CamelParts(pattern, old(parts[..]));
    r := Results.Some(Joined(parts[..], ""));
  }

  /** `format(input, pattern)`. */
  method Format(input: string, pattern: NamingPattern) returns (r: string)
    ensures r == Formatted(input, pattern)
  {
    if pattern == Default {
      return input;
    }
    var split := SplitCamel(input);
    var parts := new string[|split|](i requires 0 <= i < |split| => split[i]);
    assert parts[..] == split;
    var camel := CamelCaseFormat(pattern, parts);
    if camel.Some? {
      return camel.value;
    }
    r := JoinWith(split, part => TransformPart(pattern, part), Separator(pattern));
  }

  // ---------------------------------------------------------------------
  // Properties
  // ---------------------------------------------------------------------

  /** `DEFAULT` leaves every input unchanged. */
  lemma DefaultIsIdentity(input: string)
    ensures Formatted(input, Default) == input
  {
  }

  /** The empty name stays empty in every pattern. */
  lemma EmptyStaysEmpty(pattern: NamingPattern)
    ensures Formatted("", pattern) == ""
  {
  }

  /**
   * The kebab and snake patterns join the camel-case parts with `-` and `_`:
   * the lower variants lower-case every part (`String::toLowerCase`), the
   * upper variants capitalize it (`Strings::capitalize`).
   */
  lemma SeparatedShape(input: string)
    ensures Formatted(input, LowerKebabCase) == Joined(Mapped(SplitCamel(input), LowerCase), "-")
    ensures Formatted(input, UpperKebabCase) == Joined(Mapped(SplitCamel(input), Capitalize), "-")
    ensures Formatted(input, LowerSnakeCase) == Joined(Mapped(SplitCamel(input), LowerCase), "_")
    ensures Formatted(input, UpperSnakeCase) == Joined(Mapped(SplitCamel(input), Capitalize), "_")
  {
    var parts := SplitCamel(input);
    assert Mapped(parts, part => TransformPart(LowerKebabCase, part)) == Mapped(parts, LowerCase);
    assert Mapped(parts, part => TransformPart(UpperKebabCase, part)) == Mapped(parts, Capitalize);
    assert Mapped(parts, part => TransformPart(LowerSnakeCase, part)) == Mapped(parts, LowerCase);
    assert Mapped(parts, part => TransformPart(UpperSnakeCase, part)) == Mapped(parts, Capitalize);
  }

  /** A kebab or snake name is the input with one separator added at each camel-case boundary. */
  lemma SeparatedLength(input: string, pattern: NamingPattern)
    requires pattern != Default && !IsCamel(pattern)
    ensures |Formatted(input, pattern)| == |input| + |SplitCamel(input)| - 1
  {
    var parts := SplitCamel(input);
    var f := part => TransformPart(pattern, part);
    var sep := Separator(pattern);
    assert |sep| == 1;
    assert Formatted(input, pattern) == Joined(Mapped(parts, f), sep);
    assert forall t :: |f(t)| == |t|;
    SplitCamelJoins(input);
    JoinedLength(parts, "");
    assert SumOfLengths(parts) == |input|;
    JoinedLength(Mapped(parts, f), sep);
    SumOfLengthsMapped(parts, f);
  }

  /** The lower kebab and lower snake names hold no capital letter. */
  lemma LowerSeparatedHasNoCapitals(input: string, pattern: NamingPattern)
    requires pattern == LowerKebabCase || pattern == LowerSnakeCase
    ensures forall i :: 0 <= i < |Formatted(input, pattern)| ==> !IsUpper(Formatted(input, pattern)[i])
  {
    var lowered := Mapped(SplitCamel(input), part => TransformPart(pattern, part));
    JoinedKeeps(lowered, Separator(pattern), c => !IsUpper(c));
  }

  /** Upper camel case of a name that already starts with a capital, split into its parts, is the name itself. */
  lemma {:induction false} UpperCamelOfCapitalized(input: string)
    requires |input| > 0 && IsUpper(input[0])
    ensures Formatted(input, UpperCamelCase) == input
  {
    var parts := SplitCamel(input);
    SplitCamelJoins(input);
    SegmentsFirst(input, 0, 1);
    assert parts[0][0] == input[0];
    forall k | 0 <= k < |parts|
      ensures Capitalize(parts[k]) == parts[k]
    {
      CapitalizedIsUnchanged(parts[k]);
    }
    assert CamelParts(UpperCamelCase, parts) == parts;
  }

  lemma SplitHelloWorld()
    ensures SplitCamel("helloWorld") == ["hello", "World"]
    ensures SplitCamel("hello") == ["hello"]
  {
    var s := "helloWorld";
    assert !Boundary(s, 1) && !Boundary(s, 2) && !Boundary(s, 3) && !Boundary(s, 4);
    assert Boundary(s, 5);
    assert !Boundary(s, 6) && !Boundary(s, 7) && !Boundary(s, 8) && !Boundary(s, 9);
    assert Segments(s, 5, 10) == ["World"];
    assert Segments(s, 5, 6) == Segments(s, 5, 7) == Segments(s, 5, 8) == Segments(s, 5, 9) == Segments(s, 5, 10);
    assert s[0..5] == "hello";
    assert Segments(s, 0, 5) == ["hello"] + Segments(s, 5, 6);
    assert Segments(s, 0, 1) == Segments(s, 0, 2) == Segments(s, 0, 3) == Segments(s, 0, 4) == Segments(s, 0, 5);
    var h := "hello";
    assert !Boundary(h, 1) && !Boundary(h, 2) && !Boundary(h, 3) && !Boundary(h, 4);
    assert Segments(h, 0, 1) == Segments(h, 0, 2) == Segments(h, 0, 3) == Segments(h, 0, 4) == Segments(h, 0, 5);
  }

  lemma HelloWorldSeparatedShape(pattern: NamingPattern)
    requires pattern != Default && !IsCamel(pattern)
    ensures Formatted("helloWorld", pattern) == TransformPart(pattern, "hello") + Separator(pattern) + TransformPart(pattern, "World")
  {
    SplitHelloWorld();
    var parts := ["hello", "World"];
    var mapped := Mapped(parts, part => TransformPart(pattern, part));
    assert mapped == [TransformPart(pattern, "hello"), TransformPart(pattern, "World")];
    assert mapped[1..] == [TransformPart(pattern, "World")];
  }

  lemma LowerCaseExamples()
    ensures LowerCase("hello") == "hello" && LowerCase("World") == "world"
  {
    assert LowerCase("World")[0] == 'w';
  }

  /** The documented examples for `helloWorld` in the kebab and snake patterns. */
  lemma HelloWorldLower()
    ensures Formatted("helloWorld", LowerKebabCase) == "hello-world"
    ensures Formatted("helloWorld", LowerSnakeCase) == "hello_world"
  {
    LowerCaseExamples();
    HelloWorldSeparatedShape(LowerKebabCase);
    HelloWorldSeparatedShape(LowerSnakeCase);
  }

  lemma HelloWorldUpper()
    ensures Formatted("helloWorld", UpperKebabCase) == "Hello-World"
    ensures Formatted("helloWorld", UpperSnakeCase) == "Hello_World"
  {
    assert Formatted("helloWorld", UpperKebabCase) == "Hello-World" by {
      HelloWorldCapitalized(UpperKebabCase);
    }
    assert Formatted("helloWorld", UpperSnakeCase) == "Hello_World" by {
      HelloWorldCapitalized(UpperSnakeCase);
    }
  }

  /** The upper kebab and snake patterns capitalise each part of `helloWorld`. */
  lemma HelloWorldCapitalized(pattern: NamingPattern)
    requires pattern == UpperKebabCase || pattern == UpperSnakeCase
    ensures Formatted("helloWorld", pattern) == "Hello" + Separator(pattern) + "World"
  {
    assert Capitalize("hello") == "Hello";
    assert Capitalize("World") == "World";
    HelloWorldSeparatedShape(pattern);
  }

  /** The documented examples for `helloWorld` and `hello` in the camel patterns. */
  lemma HelloWorldCamel()
    ensures Formatted("helloWorld", UpperCamelCase) == "HelloWorld"
    ensures Formatted("helloWorld", LowerCamelCase) == "helloWorld"
    ensures Formatted("hello", UpperCamelCase) == "Hello"
  {
    SplitHelloWorld();
    assert Capitalize("hello") == "Hello";
    assert Capitalize("World") == "World";
    assert Uncapitalize("Hello") == "hello";
    assert CamelParts(UpperCamelCase, ["hello", "World"]) == ["Hello", "World"];
    assert CamelParts(LowerCamelCase, ["hello", "World"]) == ["hello", "World"];
    assert CamelParts(UpperCamelCase, ["hello"]) == ["Hello"];
  }
}
