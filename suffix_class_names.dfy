/**
 * `ConfigClassNameGenerator`: an older naming rule that finds the
 * configuration name by matching `(.+)(DTO|Config)` against the DTO's simple
 * name, and nests member types under their enclosing type's name.
 */
module SuffixClassNames {
  import opened Results
  import opened Strings
  import opened ClassNames

  /** One of the two suffixes of the pattern starts at `p`. */
  predicate SuffixAt(s: string, p: nat)
    requires p <= |s|
  {
    StartsWith(s[p..], "DTO") || StartsWith(s[p..], "Config")
  }

  /** The greatest `p` with `1 <= p < n` where a suffix starts: where the greedy `(.+)` stops backtracking. */
  function LastSuffixBelow(s: string, n: nat): (r: Option<nat>)
    requires n <= |s|
    ensures r.Some? ==> 1 <= r.value < n
  {
    if n <= 1 then None
    else if SuffixAt(s, n - 1) then Some(n - 1)
    else LastSuffixBelow(s, n - 1)
  }

  /**
   * The first group of the first match that `Matcher.find` reports for the
   * pattern: the match that starts at 0 and whose `(.+)` is as long as it
   * can be. A match found at a later start would also give one at 0, so
   * only start 0 matters.
   */
  function SuffixGroup(s: string): Option<string>
  {
    match LastSuffixBelow(s, |s|)
    case None => None
    case Some(p) => Some(s[..p])
  }

  lemma {:induction false} LastSuffixBelowMeaning(s: string, n: nat)
    requires n <= |s|
    ensures LastSuffixBelow(s, n).Some? ==>
              var p := LastSuffixBelow(s, n).value;
              1 <= p < n && SuffixAt(s, p) && forall q :: p < q < n ==> !SuffixAt(s, q)
    ensures LastSuffixBelow(s, n).None? <==> forall q :: 1 <= q < n ==> !SuffixAt(s, q)
  {
    if n > 1 && !SuffixAt(s, n - 1) {
      LastSuffixBelowMeaning(s, n - 1);
    }
  }

  /**
   * The group is the part before the last `DTO` or `Config` that has
   * something in front of it; there is none exactly when no such suffix
   * occurs after the first character.
   */
  lemma SuffixGroupMeaning(s: string)
    ensures SuffixGroup(s).Some? ==>
              var g := SuffixGroup(s).value;
              0 < |g| < |s| && StartsWith(s, g) && SuffixAt(s, |g|) && forall q :: |g| < q < |s| ==> !SuffixAt(s, q)
    ensures SuffixGroup(s).None? <==> forall q :: 1 <= q < |s| ==> !SuffixAt(s, q)
  {
    LastSuffixBelowMeaning(s, |s|);
  }

  /** `generateConfigClassName`: a non-empty `className` wins, else the matched prefix, else nothing. */
  function GenerateConfigClassName(t: TypeElement): Option<string>
  {
    if t.config.Some? && t.config.value.className != "" then Some(t.config.value.className)
    else SuffixGroup(t.simpleName)
  }

  /** `generateFullConfigClassName`: a member type is nested under its enclosing type's name, and both must exist. */
  function FullConfigClassName(t: TypeElement): Option<ClassName>
  {
    var name := GenerateConfigClassName(t);
    match t.nesting
    case Member(e) =>
      var outer := FullConfigClassName(e);
      if outer.Some? && name.Some? then Some(NestedClass(outer.value, name.value)) else None
    case TopLevel =>
      if name.Some? then Some(ClassName(t.packageName, [], name.value)) else None
  }

  function GeneratedNames(chain: seq<TypeElement>): (r: seq<Option<string>>)
    ensures |r| == |chain|
    ensures forall i :: 0 <= i < |chain| ==> r[i] == GenerateConfigClassName(chain[i])
  {
    seq(|chain|, i requires 0 <= i < |chain| => GenerateConfigClassName(chain[i]))
  }

  /**
   * A full name exists exactly when every type from the top level down has a
   * name; it then lies in the top-level type's package and its simple names
   * are those names in order.
   */
  lemma {:induction false} FullNameMeaning(t: TypeElement)
    ensures FullConfigClassName(t).Some? <==> forall i :: 0 <= i < |ElementChain(t)| ==> GeneratedNames(ElementChain(t))[i].Some?
    ensures FullConfigClassName(t).Some? ==>
              FullConfigClassName(t).value.packageName == Outermost(t).packageName &&
              |SimpleNames(FullConfigClassName(t).value)| == |ElementChain(t)| &&
              forall i :: 0 <= i < |ElementChain(t)| ==> Some(SimpleNames(FullConfigClassName(t).value)[i]) == GeneratedNames(ElementChain(t))[i]
  {
    match t.nesting {
      case TopLevel =>
        assert ElementChain(t) == [t];
        assert GeneratedNames(ElementChain(t))[0] == GenerateConfigClassName(t);
        if FullConfigClassName(t).Some? {
          assert SimpleNames(FullConfigClassName(t).value) == [GenerateConfigClassName(t).value];
        }
      case Member(e) =>
        FullNameMeaning(e);
        var chain := ElementChain(t);
        assert chain == ElementChain(e) + [t];
        var names := GeneratedNames(chain);
        assert names == GeneratedNames(ElementChain(e)) + [GenerateConfigClassName(t)];
        if FullConfigClassName(e).None? {
          var i :| 0 <= i < |ElementChain(e)| && GeneratedNames(ElementChain(e))[i].None?;
          assert names[i].None?;
          assert GeneratedNames(ElementChain(t))[i].None?;
          assert FullConfigClassName(t).None?;
        } else if GenerateConfigClassName(t).None? {
          assert names[|chain| - 1].None?;
        } else {
          var outer := FullConfigClassName(e).value;
          assert SimpleNames(FullConfigClassName(t).value) == SimpleNames(outer) + [GenerateConfigClassName(t).value];
          forall k | 0 <= k < |chain|
            ensures names[k].Some? && Some(SimpleNames(FullConfigClassName(t).value)[k]) == names[k]
          {
            if k < |ElementChain(e)| {
              assert names[k] == GeneratedNames(ElementChain(e))[k];
            }
          }
        }
    }
  }

  /** A member type has no name when the type around it has none. */
  lemma UnnamedEnclosingGivesNoName(t: TypeElement, e: TypeElement)
    requires t.nesting == Member(e) && FullConfigClassName(e).None?
    ensures FullConfigClassName(t).None?
  {
  }

  /** A position holding neither `D` nor `C` starts no suffix. */
  lemma NoSuffixAt(s: string, p: nat)
    requires p < |s| && s[p] != 'D' && s[p] != 'C'
    ensures !SuffixAt(s, p)
  {
    assert s[p..][0] == s[p];
  }

  lemma SuffixExampleDto()
    ensures SuffixGroup("TestConfigDTO") == Some("TestConfig")
  {
    var a := "TestConfigDTO";
    assert SuffixAt(a, 10) by { assert a[10..][..3] == "DTO"; }
    NoSuffixAt(a, 11);
    NoSuffixAt(a, 12);
    assert LastSuffixBelow(a, 13) == Some(10);
    assert a[..10] == "TestConfig";
  }

  lemma SuffixExampleConfig()
    ensures SuffixGroup("TestConfig") == Some("Test")
    ensures SuffixGroup("Config") == None
  {
    var b := "TestConfig";
    assert SuffixAt(b, 4) by { assert b[4..][..6] == "Config"; }
    NoSuffixAt(b, 5); NoSuffixAt(b, 6); NoSuffixAt(b, 7); NoSuffixAt(b, 8); NoSuffixAt(b, 9);
    assert LastSuffixBelow(b, 10) == Some(4);
    assert b[..4] == "Test";
    var c := "Config";
    NoSuffixAt(c, 1); NoSuffixAt(c, 2); NoSuffixAt(c, 3); NoSuffixAt(c, 4); NoSuffixAt(c, 5);
    assert LastSuffixBelow(c, 6) == None;
  }

  /**
   * The suffix need not end the name, since the pattern is searched for
   * rather than matched against the whole name: `DatabaseConfiguration`
   * gives `Database`.
   */
  lemma SuffixNeedNotEnd(prefix: string, tail: string)
    requires |prefix| > 0
    requires forall i :: 0 <= i < |tail| ==> tail[i] != 'D' && tail[i] != 'C'
    ensures SuffixGroup(prefix + "Config" + tail) == Some(prefix)
  {
    var s := prefix + "Config" + tail;
    assert s[|prefix|..][..6] == "Config";
    assert SuffixAt(s, |prefix|);
    forall q | |prefix| < q < |s| ensures !SuffixAt(s, q) {
      if q < |prefix| + 6 {
        assert s[q] == "Config"[q - |prefix|];
      } else {
        assert s[q] == tail[q - |prefix| - 6];
      }
      NoSuffixAt(s, q);
    }
    SuffixGroupMeaning(s);
    assert s[..|prefix|] == prefix;
  }

  lemma SuffixExampleInside()
    ensures SuffixGroup("DatabaseConfiguration") == Some("Database")
  {
    var tail := "uration";
    assert forall i :: 0 <= i < |tail| ==> tail[i] != 'D' && tail[i] != 'C';
    SuffixNeedNotEnd("Database", tail);
    assert "Database" + "Config" + tail == "DatabaseConfiguration";
  }
}
