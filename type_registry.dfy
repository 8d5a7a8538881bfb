/**
 * `GeneratedTypeCache` and the message of `DTOReferenceException`: a registry
 * from each DTO type to the qualified name of the configuration class
 * generated for it, searched by name when a DTO refers to a generated type.
 *
 * The registry is a `HashBiMap`; its entries are kept in the order they were
 * put, which stands for the map's iteration order.
 */
module TypeRegistry {
  import opened Results
  import opened Strings
  import opened Sequences

  /** The keys of the entries whose name contains `query` or is contained in it, in entry order. */
  function Matching<K>(specs: seq<(K, string)>, query: string): (r: seq<K>)
    ensures |r| <= |specs|
  {
    if |specs| == 0 then []
    else
      var rest := Matching(specs[1..], query);
      if Contains(specs[0].1, query) || Contains(query, specs[0].1) then [specs[0].0] + rest else rest
  }

  /** No key and no name occurs twice: what a `BiMap` guarantees. */
  predicate IsBiMap<K(==)>(specs: seq<(K, string)>)
  {
    forall i, j :: 0 <= i < j < |specs| ==> specs[i].0 != specs[j].0 && specs[i].1 != specs[j].1
  }

  lemma {:induction false} MatchingMeaning<K>(specs: seq<(K, string)>, query: string, k: K)
    ensures k in Matching(specs, query) <==>
              exists i :: 0 <= i < |specs| && specs[i].0 == k && (Contains(specs[i].1, query) || Contains(query, specs[i].1))
  {
    if |specs| > 0 {
      MatchingMeaning(specs[1..], query, k);
      if k in Matching(specs[1..], query) {
        var i :| 0 <= i < |specs[1..]| && specs[1..][i].0 == k && (Contains(specs[1..][i].1, query) || Contains(query, specs[1..][i].1));
        assert specs[i + 1] == specs[1..][i];
      }
      forall i | 1 <= i < |specs| && specs[i].0 == k && (Contains(specs[i].1, query) || Contains(query, specs[i].1))
        ensures k in Matching(specs[1..], query)
      {
        assert specs[1..][i - 1] == specs[i];
      }
    }
  }

  /** A sub-sequence of keys of a `BiMap` has no repetition. */
  lemma {:induction false} MatchingIsDistinct<K>(specs: seq<(K, string)>, query: string)
    requires IsBiMap(specs)
    ensures forall i, j :: 0 <= i < j < |Matching(specs, query)| ==> Matching(specs, query)[i] != Matching(specs, query)[j]
  {
    if |specs| > 0 {
      assert IsBiMap(specs[1..]) by {
        forall i, j | 0 <= i < j < |specs[1..]|
          ensures specs[1..][i].0 != specs[1..][j].0 && specs[1..][i].1 != specs[1..][j].1
        {
          assert specs[1..][i] == specs[i + 1] && specs[1..][j] == specs[j + 1];
        }
      }
      MatchingIsDistinct(specs[1..], query);
      MatchingMeaning(specs[1..], query, specs[0].0);
    }
  }

  /** The first entry with key `key`, if there is one. */
  function FindKey<K(==)>(specs: seq<(K, string)>, key: K): (r: Option<nat>)
    ensures r.None? <==> forall j :: 0 <= j < |specs| ==> specs[j].0 != key
    ensures r.Some? ==> r.value < |specs| && specs[r.value].0 == key && forall j :: 0 <= j < r.value ==> specs[j].0 != key
  {
    if |specs| == 0 then None
    else if specs[0].0 == key then Some(0)
    else
      match FindKey(specs[1..], key)
      case None =>
        assert forall j :: 1 <= j < |specs| ==> specs[j] == specs[1..][j - 1];
        None
      case Some(i) =>
        assert forall j :: 1 <= j <= i ==> specs[j] == specs[1..][j - 1];
        Some(i + 1)
  }

  /** No key other than `key` holds `name`. */
  predicate NameFree<K(==)>(specs: seq<(K, string)>, key: K, name: string)
  {
    forall j :: 0 <= j < |specs| ==> specs[j].0 == key || specs[j].1 != name
  }

  class GeneratedTypeCache<K(==)> {
    /** `generatedSpecs`: each DTO type with the qualified name of the class generated for it. */
    var specs: seq<(K, string)>

    ghost predicate Valid()
      reads this
    {
      IsBiMap(specs)
    }

    constructor()
      ensures specs == [] && Valid()
    {
      specs := [];
    }

    /**
     * `getGeneratedSpecs().put(key, name)`, as `HashBiMap.put` does it: a name
     * already held by another key is refused, a known key has its name
     * replaced, and a new key is added; the name it had before is returned.
     */
    method Put(key: K, name: string) returns (r: Result<Option<string>>)
      requires Valid()
      modifies this
      ensures Valid()
      ensures r.Ok? <==> NameFree(old(specs), key, name)
      ensures r.Fail? ==> r == Fail(IllegalArgument("value already present: " + name)) && specs == old(specs)
      ensures r.Ok? && FindKey(old(specs), key).Some? ==>
                r.value == Some(old(specs)[FindKey(old(specs), key).value].1) &&
                specs == old(specs)[FindKey(old(specs), key).value := (key, name)]
      ensures r.Ok? && FindKey(old(specs), key).None? ==> r.value == None && specs == old(specs) + [(key, name)]
      ensures r.Ok? ==> (key, name) in specs && forall e :: e in old(specs) && e.0 != key ==> e in specs
    {
      var i := 0;
      while i < |specs|
        invariant 0 <= i <= |specs|
        invariant forall j :: 0 <= j < i ==> specs[j].0 == key || specs[j].1 != name
      {
        if specs[i].0 != key && specs[i].1 == name {
          return Fail(IllegalArgument("value already present: " + name));
        }
        i := i + 1;
      }
      i := 0;
      while i < |specs|
        invariant 0 <= i <= |specs|
        invariant forall j :: 0 <= j < |specs| ==> specs[j].0 == key || specs[j].1 != name
        invariant forall j :: 0 <= j < i ==> specs[j].0 != key
        invariant specs == old(specs)
      {
        if specs[i].0 == key {
          var previous := specs[i].1;
          specs := specs[i := (key, name)];
          assert specs[i] == (key, name);
          assert forall e :: e in old(specs) && e.0 != key ==> e in specs by {
            forall e | e in old(specs) && e.0 != key ensures e in specs {
              var j :| 0 <= j < |old(specs)| && old(specs)[j] == e;
              assert specs[j] == e;
            }
          }
          return Ok(Some(previous));
        }
        i := i + 1;
      }
      specs := specs + [(key, name)];
      r := Ok(None);
    }

    /** `getByName`: the DTO types whose generated name contains `name` or is contained in it. */
    function GetByName(name: string): set<K>
      reads this
    {
      set k | k in Matching(specs, name)
    }

    /**
     * `getByName` holds only registered types, exactly those whose generated
     * name and `name` contain one another, so an exact name is always found
     * and an empty registry finds nothing.
     */
    lemma GetByNameMeaning(name: string, k: K)
      ensures k in GetByName(name) ==> exists i :: 0 <= i < |specs| && specs[i].0 == k
      ensures k in GetByName(name) <==>
                exists i :: 0 <= i < |specs| && specs[i].0 == k && (Contains(specs[i].1, name) || Contains(name, specs[i].1))
      ensures (k, name) in specs ==> k in GetByName(name)
      ensures specs == [] ==> GetByName(name) == {}
    {
      MatchingMeaning(specs, name, k);
      if (k, name) in specs {
        var i :| 0 <= i < |specs| && specs[i] == (k, name);
        ContainsItself(name);
        assert Contains(specs[i].1, name);
      }
    }
  }

  // ---------------------------------------------------------------------
  // DTOReferenceException.message
  // ---------------------------------------------------------------------

  const UnknownLocation := "<Unknown Location>"

  /** The suggestion: one registered type by its printed form, several as "any of" and Kotlin's list rendering. */
  function ReplacementText<K>(matches: seq<K>, pretty: K -> string): string
    requires |matches| > 0
  {
    if |matches| == 1 then pretty(matches[0])
    else "any of [" + Joined(Mapped(matches, pretty), ", ") + "]"
  }

  const Preamble := "You seem to be using a generated type " + "in a DTO.\n" + "This results in weird behaviour " + "and so is not allowed.\n"

  /** The sentence that names the replacement. */
  function Suggests(typeUsed: string, replacement: string): string
  {
    "You should replace " + typeUsed + " with " + replacement + "."
  }

  /** The last line: where the reference was found. */
  function LocationLine(location: Option<string>): string
  {
    "This issue occurred in " + (if location.Some? then location.value else UnknownLocation) + ".\n"
  }

  /** The four lines of the message once `trimIndent` has removed the indentation and the blank first and last lines. */
  function ReplaceMessage(typeUsed: string, replacement: string, location: Option<string>): string
  {
    Preamble + Suggests(typeUsed, replacement) + "\n" + LocationLine(location)
  }

  /** The message names the replacement and ends with the location; it does not begin like "Unknown type". */
  lemma ReplaceMessageShape(typeUsed: string, replacement: string, location: Option<string>)
    ensures Contains(ReplaceMessage(typeUsed, replacement, location), Suggests(typeUsed, replacement))
    ensures EndsWith(ReplaceMessage(typeUsed, replacement, location), LocationLine(location))
    ensures ReplaceMessage(typeUsed, replacement, location)[0] == 'Y'
  {
    var suggestion := Suggests(typeUsed, replacement);
    var last := LocationLine(location);
    assert Preamble + suggestion + "\n" + last == Preamble + suggestion + ("\n" + last) by {
      AppendAssoc(Preamble + suggestion, "\n", last);
    }
    ContainsMiddle(Preamble, suggestion, "\n" + last);
    EndsWithLast(Preamble + suggestion + "\n", last);
    assert ReplaceMessage(typeUsed, replacement, location)[0] == Preamble[0];
  }

  /**
   * `message`: a known `replaceWith` class is suggested by its name;
   * otherwise the registry is searched by the used type's text, and no match
   * gives "Unknown type".
   */
  function DtoReferenceMessage<K>(typeUsed: string, matches: seq<K>, pretty: K -> string, replaceWith: Option<string>, location: Option<string>): string
  {
    if replaceWith.Some? then ReplaceMessage(typeUsed, replaceWith.value, location)
    else if |matches| == 0 then "Unknown type " + typeUsed
    else ReplaceMessage(typeUsed, ReplacementText(matches, pretty), location)
  }

  /** `message` with a registry: what the exception thrown for `typeUsed` says. */
  function MessageFor<K(==)>(cache: GeneratedTypeCache<K>, typeUsed: string, pretty: K -> string, replaceWith: Option<string>, location: Option<string>): string
    reads cache
  {
    DtoReferenceMessage(typeUsed, Matching(cache.specs, typeUsed), pretty, replaceWith, location)
  }

  /**
   * The choice of message: `replaceWith` wins over the registry; no match
   * says "Unknown type"; one match is named by itself; a missing location
   * reads "<Unknown Location>".
   */
  lemma MessageChoice<K>(typeUsed: string, matches: seq<K>, pretty: K -> string, replaceWith: Option<string>, location: Option<string>)
    ensures replaceWith.Some? ==> Contains(DtoReferenceMessage(typeUsed, matches, pretty, replaceWith, location), Suggests(typeUsed, replaceWith.value))
    ensures replaceWith.None? && |matches| == 0 <==> DtoReferenceMessage(typeUsed, matches, pretty, replaceWith, location) == "Unknown type " + typeUsed
    ensures replaceWith.None? && |matches| == 1 ==> Contains(DtoReferenceMessage(typeUsed, matches, pretty, replaceWith, location), Suggests(typeUsed, pretty(matches[0])))
    ensures replaceWith.Some? || |matches| > 0 ==> EndsWith(DtoReferenceMessage(typeUsed, matches, pretty, replaceWith, location), LocationLine(location))
  {
    if replaceWith.Some? || |matches| > 0 {
      var replacement := if replaceWith.Some? then replaceWith.value else ReplacementText(matches, pretty);
      ReplaceMessageShape(typeUsed, replacement, location);
      assert ("Unknown type " + typeUsed)[0] == 'U';
    }
  }
}
