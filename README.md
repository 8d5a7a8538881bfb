# mittenlib, modelled in Dafny

mittenlib is a Java library for Minecraft plugins. Its core is a configuration-schema compiler and the small utilities around it. The annotation processor reads a configuration DTO and generates an implementation class from it. That class has a `deserialize` method built from `Result.flatMap` chains, a constructor, getters, `withX` methods, `toString`, and a `CONFIG` field. At run time, the parsed YAML or JSON document arrives as a `DataTree`, which the generated code and the collection helpers turn into values.

This project models that core and proves properties of the model. Each file follows one part of the program:

- **Results and utilities.**
  - `results.dfy` holds `Result`: `ok`/`fail`, `map`, `flatMap`, `orElse`, `sequence`, `recover`/`handle` and `toOptional`/`error`. Java `null` is `Option.None`, and a thrown exception is an `Exn` value.
  - `nulls.dfy` is `Null`, `cached.dfy` is the lazy `Cached` cell (a class), and `versions.dfy` is `Version` ordering.
- **Trees.**
  - `datatrees.dfy` holds the `DataTree` variants, `get` and Java equality.
  - `datatree_transforms.dfy` holds `loadFrom` and `toPOJO`, with their round trip.
- **Collection helpers.**
  - `config_collections.dfy` is the run-time helper, which collects every error.
  - `processor_collections.dfy` is the annotation processor's helper, which stops at the first failure.
- **Naming.**
  - `strings.dfy` holds `capitalize` and `joinWith`.
  - `naming_patterns.dfy` is `NamingPatternTransformer`, and `field_names.dfy` is the lookup-key precedence.
  - `config_class_names.dfy` and `suffix_class_names.dfy` are the two class-name generators.
  - `method_names.dfy` holds `MethodNames`, with its `_` loop and its caches.
- **Types and diagnostics.**
  - `type_registry.dfy` holds `GeneratedTypeCache` and the `DTOReferenceException` message choice.
  - `types_util.dfy` is the part of `TypesUtil` the generator decides with.
- **Generators.**
  - `config_asts.dfy` is the abstract schema.
  - `deserialization_plans.dfy` and `deserializer_chains.dfy` are `DeserializationCodeGenerator`.
  - `config_impl.dfy`, `accessors.dfy` and `to_string.dfy` are the `ConfigImpl`, accessor and `toString` generators.
  - `type_specs.dfy` is the part of JavaPoet's `TypeSpec.Builder` that they fill in.
- **Code-generation helpers.**
  - The state machines are classes: `scopes.dfy` (`Scope`), `flat_map_chains.dfy` (`FlatMapChainBuilder`), `code_builders.dfy` (`CodeGenBuilder`) and `deserialization_method_builder.dfy` (`DeserializationMethodBuilder`).
  - `code_gen_dsl.dfy` holds the `CodeGenDSL` operations.
- **Collections.**
  - `immutable_sets.dfy` holds `Sets` and `SetImpls`, including their iterators.
  - `immutable_maps.dfy` holds `Maps` and `MapImpls`.
- **Enum suggestions.** `enum_suggestions.dfy` is the Levenshtein closest-match search of `InvalidEnumValueException`.
- **Helpers.** `sequences.dfy` holds helper lemmas about sequences.

Java collections are modelled as sequences in their iteration order. Where Java leaves that order unspecified (a `HashSet`), the model fixes one, first-insertion order, and says so under "## Left out". Generated Java code is modelled by the values and calls the generator decides on, not by the text JavaPoet prints.

In the model, loops are methods proved against a specification function. Objects whose fields change are classes with `modifies` clauses. The rest is functions and lemmas.

Where the documentation and the code disagree, the model follows the code:

- The generated constructor of a class that extends another takes the parent instance as its first parameter. It does not take the parent's properties flattened.
- `generateToString`'s Javadoc shows `", "` between properties. The code appends `","`, and so does the model.

## Model

| member | source | states |
|---|---|---|
| Results.Sequence | core/src/main/java/me/bristermitten/mittenlib/util/Result.java:153-169 | the loop stops at the first `Fail` and returns it; otherwise `Ok` of every value in input order; it succeeds exactly when every input is `Ok` |
| Results.SequencedAllOk | core/src/main/java/me/bristermitten/mittenlib/util/Result.java:153-169 | all inputs `Ok` gives `Ok` of their values, in order (the empty input gives `Ok([])`) |
| Results.SequencedFirstFail | core/src/main/java/me/bristermitten/mittenlib/util/Result.java:160-163 | the first `Fail` is the one returned |
| Results.SequencedOkIff | core/src/main/java/me/bristermitten/mittenlib/util/Result.java:153-169 | `sequence` succeeds iff every input does, keeping one value per input |
| Results.OkIsSuccess | core/src/main/java/me/bristermitten/mittenlib/util/Result.java:29-31 | `ok(v)` is a success, not a failure, and `getOrThrow` returns `v` |
| Results.ExactlyOneSide | core/src/main/java/me/bristermitten/mittenlib/util/Result.java:346-353 | exactly one of `toOptional` and `error` is present, and `toOptional` is present iff the result is a success |
| Results.FailShortCircuits | core/src/main/java/me/bristermitten/mittenlib/util/Result.java:361-370 | `Fail.flatMap` and `Fail.map` return the same failure whatever the function |
| Results.OkFlatMap | core/src/main/java/me/bristermitten/mittenlib/util/Result.java:442-444 | `Ok(v).flatMap(f)` is `f(v)`; a throw inside `f` becomes `Fail` of that exception |
| Results.MapIsFlatMapOfOk | core/src/main/java/me/bristermitten/mittenlib/util/Result.java:209-211 | the classes' `map` agrees with the default `flatMap(t -> ok(f(t)))`, throws included |
| Results.OrElseLeftBiased | core/src/main/java/me/bristermitten/mittenlib/util/Result.java:437-439 | `orElse` keeps an `Ok` and replaces a `Fail` by the supplier's result |
| Results.HandleAndRecover | core/src/main/java/me/bristermitten/mittenlib/util/Result.java:457-464 | `handle` and `recover` take the success branch on `Ok` and the exception branch on `Fail` |
| Results.OkEquality | core/src/main/java/me/bristermitten/mittenlib/util/Result.java:477-482 | two `Ok`s are equal iff their payloads are |
| Results.MonadLaws | core/src/main/java/me/bristermitten/mittenlib/util/Result.java:266-268 | left identity, right identity and associativity of `flatMapPure` |
| Nulls.OrElse | core/src/main/java/me/bristermitten/mittenlib/util/Null.java:27-30 | `t` when non-null, `other` otherwise; null exactly when both are |
| Nulls.OrElseGet | core/src/main/java/me/bristermitten/mittenlib/util/Null.java:42-45 | `t` when non-null, the supplier's value otherwise |
| Nulls.Map | core/src/main/java/me/bristermitten/mittenlib/util/Null.java:57-63 | null iff the input is null; otherwise `f(a)` |
| Nulls.SupplierOnlyWhenNull | core/src/main/java/me/bristermitten/mittenlib/util/Null.java:43-44 | with a non-null `t` the supplier cannot affect the result |
| Nulls.MapNullIgnoresFunction | core/src/main/java/me/bristermitten/mittenlib/util/Null.java:59-61 | `map(null, f)` is null whatever `f` is |
| Nulls.OrElseNullness | core/src/main/java/me/bristermitten/mittenlib/util/Null.java:27-29 | `orElse(null, null)` is null; a non-null fallback never gives null |
| Caching.Cached.constructor | core/src/main/java/me/bristermitten/mittenlib/util/Cached.java:32-37 | an eager cell has called the supplier once and caches its value; a lazy one has called nothing |
| Caching.Cached.Invalidate | core/src/main/java/me/bristermitten/mittenlib/util/Cached.java:44-46 | clears the cache without calling the supplier |
| Caching.Cached.Update | core/src/main/java/me/bristermitten/mittenlib/util/Cached.java:48-50 | caches the supplier's next value, one more call |
| Caching.Cached.Get | core/src/main/java/me/bristermitten/mittenlib/util/Cached.java:57-64 | a cached value is returned with no call; otherwise the supplier is called once and its value cached and returned |
| Caching.GetTwice | core/src/main/java/me/bristermitten/mittenlib/util/Cached.java:57-64 | two `get`s with no `invalidate` return the same value with at most one call of the supplier |
| Caching.GetAfterInvalidate | core/src/main/java/me/bristermitten/mittenlib/util/Cached.java:44-46 | after `invalidate` the next `get` recomputes: the supplier's next value |
| Versions.IntCompare | core/src/main/java/me/bristermitten/mittenlib/util/Version.java:289 | `Integer.compare`: sign is -1, 0, 1 as `a < b`, `a == b`, `a > b` |
| Versions.CompareTo | core/src/main/java/me/bristermitten/mittenlib/util/Version.java:276-290 | the result is -1, 0 or 1 |
| Versions.CompareIsLexicographic | core/src/main/java/me/bristermitten/mittenlib/util/Version.java:276-298 | `compareTo` is the lexicographic order on (major, minor, patch); it is 0 iff `equals` holds, iff the versions are identical |
| Versions.CompareAntisymmetric | core/src/main/java/me/bristermitten/mittenlib/util/Version.java:276-290 | swapping the operands negates the result |
| Versions.CompareTransitive | core/src/main/java/me/bristermitten/mittenlib/util/Version.java:276-290 | `a < b` and `b < c` give `a < c` |
| Versions.NewerIsMirrorOfOlder | core/src/main/java/me/bristermitten/mittenlib/util/Version.java:267-273 | `isNewerThan(v, o)` iff `isOlderThan(o, v)`; never both; a version is neither newer nor older than itself |
| Versions.UnknownIsOldest | core/src/main/java/me/bristermitten/mittenlib/util/Version.java:15 | `UNKNOWN` (0.0.0) is older than every version with a positive major |
| DataTrees.ValueOf | core/src/main/java/me/bristermitten/mittenlib/config/tree/DataTree.java:43-44 | `value()` is null exactly for `DataTreeNull` |
| DataTrees.Lookup | core/src/main/java/me/bristermitten/mittenlib/config/tree/DataTree.java:215-217 | the value under the entry whose key is the string literal `key`; absent iff no entry has that key |
| DataTrees.Get | core/src/main/java/me/bristermitten/mittenlib/config/tree/DataTree.java:23-25 | a non-map gives null; a map looks the key up as a string literal |
| DataTrees.GetOrDefault | core/src/main/java/me/bristermitten/mittenlib/config/tree/DataTree.java:28-34 | the stored subtree when present, otherwise the default |
| DataTrees.GetOnNonMap | core/src/main/java/me/bristermitten/mittenlib/config/tree/DataTree.java:23-34 | on any non-map tree `get` is null and `getOrDefault` gives the default |
| DataTrees.GetFindsLastEntry | core/src/main/java/me/bristermitten/mittenlib/config/tree/DataTree.java:215-217 | an entry appended with a new string key is what `get` returns for it |
| DataTrees.StringKeyEquality | core/src/main/java/me/bristermitten/mittenlib/config/tree/DataTree.java:126-130 | a string literal equals only the string literal with the same text |
| DataTrees.NullEquality | core/src/main/java/me/bristermitten/mittenlib/config/tree/DataTree.java:43-50 | every `DataTreeNull` equals every other and nothing else, and its `value()` is null |
| DataTrees.LiteralEquality | core/src/main/java/me/bristermitten/mittenlib/config/tree/DataTree.java:76-80 | literals are equal iff same variant and same payload |
| DataTrees.EqualReflexive | core/src/main/java/me/bristermitten/mittenlib/config/tree/DataTree.java:181-185 | every tree equals itself |
| DataTrees.EqualIsStructuralWithoutMaps | core/src/main/java/me/bristermitten/mittenlib/config/tree/DataTree.java:181-185 | arrays compare element-wise: without maps, `equals` is structural equality |
| DataTrees.MapEqualityIgnoresOrder | core/src/main/java/me/bristermitten/mittenlib/config/tree/DataTree.java:220-224 | two maps with equally many entries, every entry of one found in the other (any reordering), are equal |
| DataTreeTransforms.Put | core/src/main/java/me/bristermitten/mittenlib/config/tree/DataTreeTransforms.java:48 | `LinkedHashMap.put`: a new key is appended after the others; an existing key keeps the size |
| DataTreeTransforms.PutStores | core/src/main/java/me/bristermitten/mittenlib/config/tree/DataTreeTransforms.java:48 | after `put` the map holds the new value under the key or a key equal to it |
| DataTreeTransforms.LoadedItems | core/src/main/java/me/bristermitten/mittenlib/config/tree/DataTreeTransforms.java:52-59 | a successful prefix of the list loop has one tree per element so far |
| DataTreeTransforms.EntriesFailureSticks | core/src/main/java/me/bristermitten/mittenlib/config/tree/DataTreeTransforms.java:47-49 | once a map entry throws, no later entry changes the outcome |
| DataTreeTransforms.ItemsFailureSticks | core/src/main/java/me/bristermitten/mittenlib/config/tree/DataTreeTransforms.java:55-58 | once a list element throws, no later element changes the outcome |
| DataTreeTransforms.LoadFrom | core/src/main/java/me/bristermitten/mittenlib/config/tree/DataTreeTransforms.java:27-62 | the recursive method computes `Loaded(o)`: null, trees, scalars, maps, lists, and the unknown-type exception |
| DataTreeTransforms.LoadEntries | core/src/main/java/me/bristermitten/mittenlib/config/tree/DataTreeTransforms.java:45-51 | the entry loop loads key then value and puts them in order |
| DataTreeTransforms.LoadItems | core/src/main/java/me/bristermitten/mittenlib/config/tree/DataTreeTransforms.java:52-60 | the element loop fills an array of the list's size |
| DataTreeTransforms.PojoOf | core/src/main/java/me/bristermitten/mittenlib/config/tree/DataTreeTransforms.java:70-92 | null for null, `value()` for literals, a list for an array and a map for a map with the same sizes; never a tree or an unknown object |
| DataTreeTransforms.PojoEqualIff | core/src/main/java/me/bristermitten/mittenlib/config/tree/DataTreeTransforms.java:70-92 | two trees give equal plain objects iff they are equal trees |
| DataTreeTransforms.ToPojo | core/src/main/java/me/bristermitten/mittenlib/config/tree/DataTreeTransforms.java:70-92 | the recursive method with its `forEach` and its loop builds `PojoOf(tree)` |
| DataTreeTransforms.RoundTrip | core/src/test/java/me/bristermitten/mittenlib/config/tree/DataTreeTransformsTest.java:34-41 | `loadFrom(toPOJO(t)) == t` for every well-formed tree |
| DataTreeTransforms.RoundTripEntries | core/src/main/java/me/bristermitten/mittenlib/config/tree/DataTreeTransforms.java:45-51 | the map loop over `toPOJO`'s entries rebuilds each prefix of the entries |
| DataTreeTransforms.PutNewKey | core/src/main/java/me/bristermitten/mittenlib/config/tree/DataTreeTransforms.java:48 | in a well-formed map each key is new, so `put` appends it |
| DataTreeTransforms.RoundTripItems | core/src/main/java/me/bristermitten/mittenlib/config/tree/DataTreeTransforms.java:52-59 | the list loop over `toPOJO`'s elements rebuilds each prefix of the array |
| DataTreeTransforms.RoundTripEquals | core/src/test/java/me/bristermitten/mittenlib/config/tree/DataTreeTransformsTest.java:34-41 | the round trip succeeds and gives a tree `equals` to the original |
| DataTreeTransforms.LoadNullAndTree | core/src/main/java/me/bristermitten/mittenlib/config/tree/DataTreeTransforms.java:28-31 | `loadFrom(null)` is `DataTreeNull`; a `DataTree` comes back unchanged |
| DataTreeTransforms.LoadScalars | core/src/main/java/me/bristermitten/mittenlib/config/tree/DataTreeTransforms.java:32-43 | `Double` to a float literal, other numbers to an int literal of the long value, strings and booleans to their literals |
| DataTreeTransforms.LoadUnknownType | core/src/main/java/me/bristermitten/mittenlib/config/tree/DataTreeTransforms.java:61 | any other class raises `IllegalArgumentException("Unknown type: ...")` |
| DataTreeTransforms.LoadListWithUnknown | core/src/main/java/me/bristermitten/mittenlib/config/tree/DataTreeTransforms.java:52-61 | an unknown object inside a list makes the whole `loadFrom` throw |
| DataTreeTransforms.LoadNumbers | core/src/main/java/me/bristermitten/mittenlib/config/tree/DataTreeTransforms.java:35-37 | a list of numbers always loads |
| DataTreeTransforms.LoadCollapsesEqualKeys | core/src/main/java/me/bristermitten/mittenlib/config/tree/DataTreeTransforms.java:46-49 | two Java keys that load to equal trees become one entry holding the later value |
| Sequences.Mapped | core/src/main/java/me/bristermitten/mittenlib/config/CollectionsUtils.java:61-62 | the function applied to each element, one result per element, in order (also the text of each element in `Strings.joinWith`) |
| ConfigCollections.ErrorsConcat | core/src/main/java/me/bristermitten/mittenlib/config/CollectionsUtils.java:61-65 | the error list of two runs of the loop is the first run's errors followed by the second's |
| ConfigCollections.SuccessesConcat | core/src/main/java/me/bristermitten/mittenlib/config/CollectionsUtils.java:61-65 | the value list of two runs is the first run's values followed by the second's |
| ConfigCollections.ErrorsAndSuccessesPartition | core/src/main/java/me/bristermitten/mittenlib/config/CollectionsUtils.java:63-64 | every result lands in exactly one of `errors` and `res`; `errors` is empty iff every result is `Ok` |
| ConfigCollections.SuccessesOfAllOk | core/src/main/java/me/bristermitten/mittenlib/config/CollectionsUtils.java:61-70 | with no error, `res` holds one value per element, in input order |
| ConfigCollections.ErrorsComeFromFailures | core/src/main/java/me/bristermitten/mittenlib/config/CollectionsUtils.java:63 | each collected error is the error of some failed element |
| ConfigCollections.FailureIsReported | core/src/main/java/me/bristermitten/mittenlib/config/CollectionsUtils.java:63-68 | the error of any failed element is in the reported failure |
| ConfigCollections.AggregatedMeaning | core/src/main/java/me/bristermitten/mittenlib/config/CollectionsUtils.java:66-70 | the list fails iff some element fails, then with `MultipleFailures` carrying every error; otherwise `Ok` of all values |
| ConfigCollections.CastablePrefix | core/src/main/java/me/bristermitten/mittenlib/config/CollectionsUtils.java:47 | the elements before the first that fails the implicit cast to `DataTree` |
| ConfigCollections.Trees | core/src/main/java/me/bristermitten/mittenlib/config/CollectionsUtils.java:51-52 | the mapper's trees as list elements, one per tree |
| ConfigCollections.DeserialiseListFrom | core/src/main/java/me/bristermitten/mittenlib/config/CollectionsUtils.java:56-71 | the loop computes `ListFrom`; the function is applied to every element up to the first failed cast, with no early exit on a failed result |
| ConfigCollections.CastablePrefixAt | core/src/main/java/me/bristermitten/mittenlib/config/CollectionsUtils.java:47 | the cast prefix is the index of the first element that fails the cast |
| ConfigCollections.DeserializeList | core/src/main/java/me/bristermitten/mittenlib/config/CollectionsUtils.java:42-53 | the blind cast first; the mapper only after a `ClassCastException`; `calls` lists the elements deserialized on every path: none for `null`, all for a successful cast, the cast's prefix then the mapped trees when the mapper succeeds, the cast's prefix alone when it fails |
| ConfigCollections.TreeListIgnoresMapper | core/src/main/java/me/bristermitten/mittenlib/config/CollectionsUtils.java:44-49 | a list of trees is deserialized directly: the mapper is never consulted and every element is passed on, in order |
| ConfigCollections.NonListUsesMapper | core/src/main/java/me/bristermitten/mittenlib/config/CollectionsUtils.java:50-52 | non-list data goes through the mapper; the mapper's failure is returned unchanged |
| ConfigCollections.EntryData | core/src/main/java/me/bristermitten/mittenlib/config/CollectionsUtils.java:95-96 | the contexts the map loop deserializes, one per entry value |
| ConfigCollections.DeserializeMap | core/src/main/java/me/bristermitten/mittenlib/config/CollectionsUtils.java:84-106 | the mapper's failure is returned unchanged; otherwise every value is deserialized, in order, and the loop computes `DeserializedMap` |
| ConfigCollections.PutSuccessesContents | core/src/main/java/me/bristermitten/mittenlib/config/CollectionsUtils.java:95-99 | with distinct keys the built map holds exactly the keys of the values that deserialized, each with its own value |
| ConfigCollections.StoredUnderOriginalKey | core/src/main/java/me/bristermitten/mittenlib/config/CollectionsUtils.java:98 | with no failure each value is stored under its original key and nothing else is stored |
| ConfigCollections.MapFailsWithAllErrors | core/src/main/java/me/bristermitten/mittenlib/config/CollectionsUtils.java:100-102 | the map fails iff some value fails, and then with every error |
| ProcessorCollections.DeserializeList | annotation-processor/src/main/java/me/bristermitten/mittenlib/annotations/util/CollectionsUtils.java:22-37 | the mapper's failure is returned unchanged; otherwise the loop reassigning `res` computes the fold, and `calls` are the elements deserialized |
| ProcessorCollections.ListFoldFirstFailure | annotation-processor/src/main/java/me/bristermitten/mittenlib/annotations/util/CollectionsUtils.java:27-33 | the first failing element's error is the result |
| ProcessorCollections.ListFoldAllOk | annotation-processor/src/main/java/me/bristermitten/mittenlib/annotations/util/CollectionsUtils.java:27-33 | with no failure, `Ok` with one value per raw element, in order |
| ProcessorCollections.ListFoldIsSequence | annotation-processor/src/main/java/me/bristermitten/mittenlib/annotations/util/CollectionsUtils.java:26-34 | the fold equals `Result.sequence` of the elements' results |
| ProcessorCollections.FailFast | annotation-processor/src/main/java/me/bristermitten/mittenlib/annotations/util/CollectionsUtils.java:28 | after the first failure no later element is deserialized |
| ProcessorCollections.CalledAllOk | annotation-processor/src/main/java/me/bristermitten/mittenlib/annotations/util/CollectionsUtils.java:27-33 | with no failure every element is deserialized once, in order |
| ProcessorCollections.DeserializeMap | annotation-processor/src/main/java/me/bristermitten/mittenlib/annotations/util/CollectionsUtils.java:39-54 | the mapper's failure is returned unchanged; otherwise the loop computes the map fold |
| ProcessorCollections.MapFoldFirstFailure | annotation-processor/src/main/java/me/bristermitten/mittenlib/annotations/util/CollectionsUtils.java:45-51 | the first failing value aborts the fold with its error |
| ProcessorCollections.MapFoldAllOk | annotation-processor/src/main/java/me/bristermitten/mittenlib/annotations/util/CollectionsUtils.java:45-51 | with no failure the keys are exactly the entries' keys, each holding its entry's value (a later equal key wins) |
| Strings.ToUpper | core/src/main/java/me/bristermitten/mittenlib/util/Strings.java:31-32 | a lower-case letter becomes its upper-case letter, every other character is unchanged |
| Strings.LowerCase | core/src/main/java/me/bristermitten/mittenlib/config/names/NamingPatternTransformer.java:33 | same length, every character lower-cased and nothing else changed |
| Strings.Capitalize | core/src/main/java/me/bristermitten/mittenlib/util/Strings.java:27-33 | same length; the first character is upper-cased and the rest kept |
| Strings.Uncapitalize | core/src/main/java/me/bristermitten/mittenlib/config/names/NamingPatternTransformer.java:56-58 | same length; the first character is lower-cased and the rest kept |
| Strings.CapitalizeEmpty | core/src/main/java/me/bristermitten/mittenlib/util/Strings.java:28-30 | the empty string is returned as it is |
| Strings.CapitalizedIsUnchanged | core/src/main/java/me/bristermitten/mittenlib/util/Strings.java:18-20 | a string not starting with a lower-case letter is unchanged ("HEllo" stays "HEllo") |
| Strings.CapitalizeIdempotent | core/src/main/java/me/bristermitten/mittenlib/util/Strings.java:27-33 | capitalizing twice is capitalizing once |
| Strings.UncapitalizeUndoesCapitalize | core/src/main/java/me/bristermitten/mittenlib/config/names/NamingPatternTransformer.java:53-58 | for a part starting lower-case, uncapitalize undoes capitalize |
| Strings.JoinWith | core/src/main/java/me/bristermitten/mittenlib/util/Strings.java:46-52 | the loop over the StringJoiner yields the mapped parts in order, the separator only between neighbours |
| Strings.JoinedAppend | core/src/main/java/me/bristermitten/mittenlib/util/Strings.java:46-52 | joining two non-empty runs puts exactly one separator between them |
| Strings.JoinedLength | core/src/main/java/me/bristermitten/mittenlib/util/Strings.java:46-52 | the join's length is the parts' lengths plus one separator per gap |
| Strings.JoinedSmall | core/src/main/java/me/bristermitten/mittenlib/util/Strings.java:46-52 | an empty collection joins to "", a single element to itself |
| NamingPatterns.Segments | core/src/main/java/me/bristermitten/mittenlib/config/names/NamingPatternTransformer.java:13 | scanning for split points never yields an empty list of parts |
| NamingPatterns.SplitCamel | core/src/main/java/me/bristermitten/mittenlib/config/names/NamingPatternTransformer.java:22-25 | the split always has at least one part, so the length-0 guard never fires |
| NamingPatterns.SegmentsJoin | core/src/main/java/me/bristermitten/mittenlib/config/names/NamingPatternTransformer.java:13 | the scanned parts concatenate back to the scanned text, none is empty, and each after the first starts upper-case |
| NamingPatterns.SegmentsFirst | core/src/main/java/me/bristermitten/mittenlib/config/names/NamingPatternTransformer.java:13 | the current part extends what was scanned so far |
| NamingPatterns.SplitCamelJoins | core/src/main/java/me/bristermitten/mittenlib/config/names/NamingPatternTransformer.java:13-22 | splitting loses nothing: the parts concatenate to the input, are non-empty, and each later part starts at an upper-case letter |
| NamingPatterns.CamelParts | core/src/main/java/me/bristermitten/mittenlib/config/names/NamingPatternTransformer.java:53-58 | every part capitalized; for lower camel case the first part then uncapitalized |
| NamingPatterns.CamelCaseFormat | core/src/main/java/me/bristermitten/mittenlib/config/names/NamingPatternTransformer.java:49-60 | null and the array untouched unless a camel pattern; otherwise the array rewritten to the camel parts and their concatenation returned |
| NamingPatterns.Format | core/src/main/java/me/bristermitten/mittenlib/config/names/NamingPatternTransformer.java:18-46 | the result is the pattern's formatting of the input: identity for DEFAULT, camel join, or the kebab/snake join |
| NamingPatterns.DefaultIsIdentity | core/src/main/java/me/bristermitten/mittenlib/config/names/NamingPatternTransformer.java:19-21 | DEFAULT returns the input unchanged |
| NamingPatterns.EmptyStaysEmpty | core/src/test/java/me/bristermitten/mittenlib/config/names/NamingPatternTransformerTest.java:11-57 | "" stays "" in every pattern |
| NamingPatterns.SeparatedShape | core/src/main/java/me/bristermitten/mittenlib/config/names/NamingPatternTransformer.java:31-45 | lower kebab is the lower-cased parts joined by "-", upper kebab the capitalized parts joined by "-", lower snake the lower-cased parts joined by "_", upper snake the capitalized parts joined by "_" |
| NamingPatterns.SeparatedLength | core/src/main/java/me/bristermitten/mittenlib/config/names/NamingPatternTransformer.java:31-45 | a kebab or snake name is as long as the input plus one separator per camel-case boundary |
| NamingPatterns.LowerSeparatedHasNoCapitals | core/src/main/java/me/bristermitten/mittenlib/config/names/NamingPatternTransformer.java:31-37 | lower kebab and lower snake names contain no capital letter |
| NamingPatterns.UpperCamelOfCapitalized | core/src/main/java/me/bristermitten/mittenlib/config/names/NamingPatternTransformer.java:49-60 | upper camel case leaves a name that already starts upper-case unchanged |
| NamingPatterns.SplitHelloWorld | core/src/main/java/me/bristermitten/mittenlib/config/names/NamingPatternTransformer.java:13-22 | "helloWorld" splits into "hello" and "World"; "hello" is one part |
| NamingPatterns.HelloWorldSeparatedShape | core/src/main/java/me/bristermitten/mittenlib/config/names/NamingPatternTransformer.java:31-45 | "helloWorld" in a kebab or snake pattern is the two transformed parts around the separator |
| NamingPatterns.LowerCaseExamples | core/src/main/java/me/bristermitten/mittenlib/config/names/NamingPatternTransformer.java:33 | "hello" lower-cases to itself and "World" to "world" |
| NamingPatterns.HelloWorldLower | core/src/test/java/me/bristermitten/mittenlib/config/names/NamingPatternTransformerTest.java:31-50 | "helloWorld" becomes "hello-world" and "hello_world" |
| NamingPatterns.HelloWorldUpper | core/src/test/java/me/bristermitten/mittenlib/config/names/NamingPatternTransformerTest.java:38-57 | "helloWorld" becomes "Hello-World" and "Hello_World" |
| NamingPatterns.HelloWorldCapitalized | core/src/main/java/me/bristermitten/mittenlib/config/names/NamingPatternTransformer.java:31-45 | the upper kebab and snake forms of "helloWorld" are "Hello", the separator, "World" |
| NamingPatterns.HelloWorldCamel | core/src/test/java/me/bristermitten/mittenlib/config/names/NamingPatternTransformerTest.java:17-29 | "helloWorld" becomes "HelloWorld" and stays "helloWorld"; "hello" becomes "Hello" |
| FieldNames.PropertyPattern | annotation-processor/src/main/java/me/bristermitten/mittenlib/annotations/parser/ConfigClassParser.java:92-93 | the property's own naming pattern, else its type's |
| FieldNames.ConfigFieldName | annotation-processor/src/main/java/me/bristermitten/mittenlib/annotations/compile/FieldClassNameGenerator.java:44-54 | an explicit ConfigName wins; else the naming pattern applied to the field name; else the field name |
| FieldNames.SplitFieldName | annotation-processor/src/test/java/me/bristermitten/mittenlib/annotations/config/FieldClassNameGeneratorTest.java:73-88 | "fieldName" splits into "field" and "Name" |
| FieldNames.FieldPatternBeatsTypePattern | annotation-processor/src/test/java/me/bristermitten/mittenlib/annotations/config/FieldClassNameGeneratorTest.java:73-80 | a field UPPER_CAMEL_CASE pattern over a type LOWER_SNAKE_CASE one gives "FieldName" |
| FieldNames.TypePatternApplies | annotation-processor/src/test/java/me/bristermitten/mittenlib/annotations/config/FieldClassNameGeneratorTest.java:82-88 | an unannotated field under a LOWER_KEBAB_CASE type gives "field-name" |
| FieldNames.ConfigNameBeatsPattern | annotation-processor/src/test/java/me/bristermitten/mittenlib/annotations/config/FieldClassNameGeneratorTest.java:64-71 | an explicit ConfigName beats the type's naming pattern |
| ClassNames.ElementChain | annotation-processor/src/main/java/me/bristermitten/mittenlib/annotations/compile/ConfigurationClassNameGenerator.java:298-312 | the nesting chain ends at the type and starts at its top-level type |
| ClassNames.ImplNameMeaning | annotation-processor/src/main/java/me/bristermitten/mittenlib/annotations/compile/ConfigurationClassNameGenerator.java:60-65 | a "DTO" suffix is dropped, any other name gains "Impl"; the result is another class beside the DTO |
| ClassNames.ImplNameExamples | annotation-processor/src/test/java/me/bristermitten/mittenlib/annotations/config/ConfigurationClassNameGeneratorTest.java:70-79 | TestConfigDTO becomes TestConfig and TestConfig becomes TestConfigImpl |
| ClassNames.ParentChain | annotation-processor/src/main/java/me/bristermitten/mittenlib/annotations/compile/ConfigurationClassNameGenerator.java:74-81 | the chain of enclosing DTOs ends at the nearest one |
| ClassNames.ImplSimpleNames | annotation-processor/src/main/java/me/bristermitten/mittenlib/annotations/compile/ConfigurationClassNameGenerator.java:74-81 | each DTO on the chain is given its implementation simple name |
| ClassNames.ImplClassNameOfParentNests | annotation-processor/src/main/java/me/bristermitten/mittenlib/annotations/compile/ConfigurationClassNameGenerator.java:74-97 | the implementation name lies in the outermost DTO's package, nested through the implementation names of every enclosing DTO |
| ClassNames.PublicAndConcreteDiffer | annotation-processor/src/main/java/me/bristermitten/mittenlib/annotations/compile/ConfigurationClassNameGenerator.java:108-128 | public and concrete names are the DTO's own and the implementation's, one each, and never equal |
| ClassNames.FoundNames | annotation-processor/src/main/java/me/bristermitten/mittenlib/annotations/compile/ConfigurationClassNameGenerator.java:137-147 | each type on the chain contributes its config class name |
| ClassNames.GeneratedNameNests | annotation-processor/src/main/java/me/bristermitten/mittenlib/annotations/compile/ConfigurationClassNameGenerator.java:297-312 | the generated name is in the top-level type's package and nests the config names of every type along the way |
| ClassNames.UnannotatedKeepsName | annotation-processor/src/main/java/me/bristermitten/mittenlib/annotations/compile/ConfigurationClassNameGenerator.java:139-141 | with no Config annotation anywhere on the chain, the generated name is the type's own name |
| ClassNames.OverrideWins | annotation-processor/src/main/java/me/bristermitten/mittenlib/annotations/compile/ConfigurationClassNameGenerator.java:142-144 | a non-empty className override is used verbatim |
| ClassNames.PlainTypeKeepsName | annotation-processor/src/main/java/me/bristermitten/mittenlib/annotations/compile/ConfigurationClassNameGenerator.java:157-171 | a type mentioning no known config is named as TypeName.get names it |
| ClassNames.ArgumentIsTranslated | annotation-processor/src/main/java/me/bristermitten/mittenlib/annotations/compile/ConfigurationClassNameGenerator.java:149-171 | a known DTO as a type argument is replaced by its public name, the container kept (List of UserDTO becomes List of User) |
| ClassNames.GetConfigClassNameChecks | annotation-processor/src/main/java/me/bristermitten/mittenlib/annotations/compile/ConfigurationClassNameGenerator.java:265-285 | a primitive passes through; an error or generated type is reported and fails; a declared type succeeds exactly outside the unnamed package, with its generated name |
| ClassNames.GeneratedTypeNamesItsSource | annotation-processor/src/main/java/me/bristermitten/mittenlib/annotations/compile/ConfigurationClassNameGenerator.java:269-274 | a reference to an already generated class is reported with a suggestion of the DTO it came from |
| SuffixClassNames.LastSuffixBelow | annotation-processor/src/main/java/me/bristermitten/mittenlib/annotations/config/ConfigClassNameGenerator.java:15 | a suffix position leaves at least one character before it |
| SuffixClassNames.LastSuffixBelowMeaning | annotation-processor/src/main/java/me/bristermitten/mittenlib/annotations/config/ConfigClassNameGenerator.java:15-32 | the position found is the last suffix start with a non-empty prefix; none exactly when no suffix starts after the first character |
| SuffixClassNames.SuffixGroupMeaning | annotation-processor/src/main/java/me/bristermitten/mittenlib/annotations/config/ConfigClassNameGenerator.java:29-33 | the group is the non-empty prefix before the last DTO or Config; empty exactly when there is no such suffix |
| SuffixClassNames.GeneratedNames | annotation-processor/src/main/java/me/bristermitten/mittenlib/annotations/config/ConfigClassNameGenerator.java:24-34 | each type on the chain is given its suffix-rule name |
| SuffixClassNames.FullNameMeaning | annotation-processor/src/main/java/me/bristermitten/mittenlib/annotations/config/ConfigClassNameGenerator.java:47-59 | a full name exists iff every type down the chain has a name; it is then in the top-level package and nests those names in order |
| SuffixClassNames.UnnamedEnclosingGivesNoName | annotation-processor/src/main/java/me/bristermitten/mittenlib/annotations/config/ConfigClassNameGenerator.java:50-56 | a member type of an unnamed type has no name |
| SuffixClassNames.NoSuffixAt | annotation-processor/src/main/java/me/bristermitten/mittenlib/annotations/config/ConfigClassNameGenerator.java:15 | no suffix starts at a character other than D or C |
| SuffixClassNames.SuffixExampleDto | annotation-processor/src/main/java/me/bristermitten/mittenlib/annotations/config/ConfigClassNameGenerator.java:29-32 | TestConfigDTO gives TestConfig (the last suffix wins) |
| SuffixClassNames.SuffixExampleConfig | annotation-processor/src/main/java/me/bristermitten/mittenlib/annotations/config/ConfigClassNameGenerator.java:29-33 | TestConfig gives Test; Config alone gives nothing, the group needing a character |
| SuffixClassNames.SuffixNeedNotEnd | annotation-processor/src/main/java/me/bristermitten/mittenlib/annotations/config/ConfigClassNameGenerator.java:29-31 | find searches, so a suffix inside the name also matches |
| SuffixClassNames.SuffixExampleInside | annotation-processor/src/main/java/me/bristermitten/mittenlib/annotations/config/ConfigClassNameGenerator.java:29-31 | DatabaseConfiguration gives Database |
| MethodNames.OnlyNoArgMethodsClash | annotation-processor/src/main/java/me/bristermitten/mittenlib/annotations/compile/MethodNames.java:78-87 | a method with parameters adds no clash; one without adds exactly its name |
| MethodNames.FewestUnderscoresUnique | annotation-processor/src/main/java/me/bristermitten/mittenlib/annotations/compile/MethodNames.java:71-75 | the fewest-underscores name is unique |
| MethodNames.NameKeptUnlessTaken | annotation-processor/src/main/java/me/bristermitten/mittenlib/annotations/compile/MethodNames.java:71-75 | a free field name is kept; the chosen name is free and extends the field name, so a taken name is never kept |
| MethodNames.AppendUnderscores | annotation-processor/src/main/java/me/bristermitten/mittenlib/annotations/compile/MethodNames.java:71-75 | the loop ends with the field name plus the fewest underscores that avoid every taken name |
| MethodNames.MethodNames.constructor | annotation-processor/src/main/java/me/bristermitten/mittenlib/annotations/compile/MethodNames.java:27-36 | both caches start empty |
| MethodNames.MethodNames.GetNoArgMethodNames | annotation-processor/src/main/java/me/bristermitten/mittenlib/annotations/compile/MethodNames.java:78-87 | exactly the names of the zero-parameter methods |
| MethodNames.MethodNames.SafeMethodName0 | annotation-processor/src/main/java/me/bristermitten/mittenlib/annotations/compile/MethodNames.java:68-76 | the method names come from their cache or are computed once and cached; the result is the fewest-underscores name among them |
| MethodNames.MethodNames.SafeMethodName | annotation-processor/src/main/java/me/bristermitten/mittenlib/annotations/compile/MethodNames.java:46-49 | a cached field gets its cached name and nothing changes; otherwise the name is computed and cached |
| MethodNames.MethodNames.SafeMethodNameOf | annotation-processor/src/main/java/me/bristermitten/mittenlib/annotations/compile/MethodNames.java:60-66 | a method-sourced property keeps its simple name; a field goes through the cache |
| MethodNames.RepeatCallsAgree | annotation-processor/src/main/java/me/bristermitten/mittenlib/annotations/compile/MethodNames.java:46-49 | two calls for the same field give the same name, free of the class's no-argument methods |
| MethodNames.DeserializeNameOfClass | annotation-processor/src/main/java/me/bristermitten/mittenlib/annotations/compile/MethodNames.java:96-99 | "deserialize" followed by the simple name; equal names exactly for equal simple names |
| MethodNames.DeserializeNameOfOther | annotation-processor/src/main/java/me/bristermitten/mittenlib/annotations/compile/MethodNames.java:100 | any other type: "deserialize" followed by the type's text |
| TypeRegistry.Matching | annotation-processor/src/main/java/me/bristermitten/mittenlib/annotations/config/GeneratedTypeCache.java:55-61 | the filter keeps at most the entries there are |
| TypeRegistry.MatchingMeaning | annotation-processor/src/main/java/me/bristermitten/mittenlib/annotations/config/GeneratedTypeCache.java:58-59 | a key is kept iff one of its entries has a name containing the query or contained in it |
| TypeRegistry.MatchingIsDistinct | annotation-processor/src/main/java/me/bristermitten/mittenlib/annotations/config/GeneratedTypeCache.java:55-61 | over a bidirectional map the kept keys are pairwise distinct, so the list is the set collected |
| TypeRegistry.GeneratedTypeCache.constructor | annotation-processor/src/main/java/me/bristermitten/mittenlib/annotations/config/GeneratedTypeCache.java:36 | the registry starts empty |
| TypeRegistry.GeneratedTypeCache.Put | annotation-processor/src/main/java/me/bristermitten/mittenlib/annotations/config/GeneratedTypeCache.java:44-46 | succeeds exactly when no other key holds the name; a refusal throws `value already present: <name>` and changes nothing; on success it returns the key's previous name (or none), replaces that key's entry in place or appends the new pair, and keeps other keys' entries and the bidirectional invariant |
| TypeRegistry.GeneratedTypeCache.GetByNameMeaning | annotation-processor/src/main/java/me/bristermitten/mittenlib/annotations/config/GeneratedTypeCache.java:55-61 | only registered keys; exactly those whose name and the query contain one another; an exact name is always found; an empty registry finds nothing |
| TypeRegistry.ReplaceMessageShape | annotation-processor/src/main/kotlin/me/bristermitten/mittenlib/annotations/exception/DTOReferenceException.kt:36-43 | the message names the replacement, ends with the location line, and begins with the preamble |
| TypeRegistry.MessageChoice | annotation-processor/src/main/kotlin/me/bristermitten/mittenlib/annotations/exception/DTOReferenceException.kt:26-44 | a known replaceWith is suggested; no match gives "Unknown type" (and only then); one match is named by itself; otherwise the message ends with the location, "<Unknown Location>" when missing |
| TypesUtilModel.Unboxed | annotation-processor/src/main/java/me/bristermitten/mittenlib/annotations/util/TypesUtil.java:152 | a primitive is left as it is; a box class becomes its primitive |
| TypesUtilModel.BoxedLikePrimitive | annotation-processor/src/main/java/me/bristermitten/mittenlib/annotations/util/TypesUtil.java:152 | a boxed primitive unboxes to its keyword and is read from the same DataTree class as the primitive |
| TypesUtilModel.IntegralTypes | annotation-processor/src/main/java/me/bristermitten/mittenlib/annotations/util/TypesUtil.java:152-155 | exactly int, long, short and byte, boxed or not, are read as integer literals |
| TypesUtilModel.FloatingTypes | annotation-processor/src/main/java/me/bristermitten/mittenlib/annotations/util/TypesUtil.java:156-158 | exactly float and double, boxed or not, are read as floating-point literals |
| TypesUtilModel.BooleanAndStringTypes | annotation-processor/src/main/java/me/bristermitten/mittenlib/annotations/util/TypesUtil.java:159-164 | exactly boolean and Boolean are read as boolean literals, exactly String as a string literal |
| TypesUtilModel.CollectionTypes | annotation-processor/src/main/java/me/bristermitten/mittenlib/annotations/util/TypesUtil.java:165-172 | exactly a parameterized Map is read from a map node and a parameterized List from an array node |
| TypesUtilModel.UnreadTypes | annotation-processor/src/main/java/me/bristermitten/mittenlib/annotations/util/TypesUtil.java:173 | char, Character and raw Map and List have no DataTree class |
| TypesUtilModel.HasNullableAnnotation | annotation-processor/src/main/java/me/bristermitten/mittenlib/annotations/util/TypesUtil.java:101-106 | true exactly when some annotation is named Nullable |
| TypesUtilModel.IsNullableType | annotation-processor/src/main/java/me/bristermitten/mittenlib/annotations/util/TypesUtil.java:97-107 | a primitive never is nullable; another type is exactly when annotated Nullable |
| TypesUtilModel.IsNullableElement | annotation-processor/src/main/java/me/bristermitten/mittenlib/annotations/util/TypesUtil.java:78-95 | a nullable field type, a nullable return type, or a Nullable annotation on the element itself |
| TypesUtilModel.PrimitiveNeverNullable | annotation-processor/src/main/java/me/bristermitten/mittenlib/annotations/util/TypesUtil.java:98-100 | a primitive is non-nullable whatever annotations it carries |
| TypesUtilModel.Own | annotation-processor/src/main/java/me/bristermitten/mittenlib/annotations/util/TypesUtil.java:120 | the annotation found is on the element and of the asked type; none exactly when no annotation has that type |
| TypesUtilModel.Enclosing | annotation-processor/src/main/java/me/bristermitten/mittenlib/annotations/util/TypesUtil.java:127-131 | the chain of elements starts at the element itself |
| TypesUtilModel.OwnAnnotationWins | annotation-processor/src/main/java/me/bristermitten/mittenlib/annotations/util/TypesUtil.java:119-134 | the element's own annotation wins; a type that does not cascade is looked up on the element only |
| TypesUtilModel.CascadeNoneIff | annotation-processor/src/main/java/me/bristermitten/mittenlib/annotations/util/TypesUtil.java:126-133 | a cascading annotation is missing exactly when no element from this one outwards carries it |
| TypesUtilModel.CascadeFindsNearest | annotation-processor/src/main/java/me/bristermitten/mittenlib/annotations/util/TypesUtil.java:126-131 | a cascading annotation found comes from the nearest element outwards that carries it |
| DeserializationPlans.DefaultExpression | annotation-processor/src/main/java/me/bristermitten/mittenlib/annotations/compile/DeserializationCodeGenerator.java:193-196 | the default is read as dao.name() from an interface's DAO and dao.name from a class's |
| DeserializationPlans.RawValueNullIff | annotation-processor/src/main/java/me/bristermitten/mittenlib/annotations/compile/DeserializationCodeGenerator.java:188-201 | the raw value is null exactly when the key is absent and there is no default or a null one; a present key gives its node, an absent one the default |
| DeserializationPlans.Conversion | annotation-processor/src/main/java/me/bristermitten/mittenlib/annotations/compile/DeserializationCodeGenerator.java:84-109 | a narrowing call is added only for an int or float literal read into a matching primitive, and it is that primitive's Value method |
| DeserializationPlans.ChosenAppend | annotation-processor/src/main/java/me/bristermitten/mittenlib/annotations/compile/DeserializationCodeGenerator.java:121-156 | running two lists of if-return steps is running the first, then the second when none of the first applied |
| DeserializationPlans.AlwaysLast | annotation-processor/src/main/java/me/bristermitten/mittenlib/annotations/compile/DeserializationCodeGenerator.java:150-154 | an unconditional last step catches whatever the earlier steps do not |
| DeserializationPlans.ShortcutsMeaning | annotation-processor/src/main/java/me/bristermitten/mittenlib/annotations/compile/DeserializationCodeGenerator.java:361-384 | the shortcuts catch exactly a default of the right type (returned as a cast) or a node of the type's DataTree class (returned as a literal) |
| DeserializationPlans.HandledEndsInAlways | annotation-processor/src/main/java/me/bristermitten/mittenlib/annotations/compile/DeserializationCodeGenerator.java:323-359 | a body that finishes the method ends in a step that always applies |
| DeserializationPlans.PlanAlwaysReturns | annotation-processor/src/main/java/me/bristermitten/mittenlib/annotations/compile/DeserializationCodeGenerator.java:121-156 | every generated method returns on every path |
| DeserializationPlans.NullIsCheckedFirst | annotation-processor/src/main/java/me/bristermitten/mittenlib/annotations/compile/DeserializationCodeGenerator.java:204-227 | a missing value gives ok(null) for a nullable property and the not-found failure otherwise, before anything else |
| DeserializationPlans.NullBranchFromData | annotation-processor/src/main/java/me/bristermitten/mittenlib/annotations/compile/DeserializationCodeGenerator.java:188-227 | an absent key with no (or a null) default takes the null branch; a present key or a non-null default skips it |
| DeserializationPlans.DirectMatchNeedsDefault | annotation-processor/src/main/java/me/bristermitten/mittenlib/annotations/compile/DeserializationCodeGenerator.java:361-370 | without a default no step tests or casts to the property's own type |
| DeserializationPlans.NonGenericNoDirectMatch | annotation-processor/src/main/java/me/bristermitten/mittenlib/annotations/compile/DeserializationCodeGenerator.java:323-359 | the non-generic steps of a property without a default hold no direct type match |
| DeserializationPlans.DefaultOfRightTypeIsCast | annotation-processor/src/main/java/me/bristermitten/mittenlib/annotations/compile/DeserializationCodeGenerator.java:361-370 | with a default, a value already of the property's type is returned cast |
| DeserializationPlans.LiteralBeforeEverythingElse | annotation-processor/src/main/java/me/bristermitten/mittenlib/annotations/compile/DeserializationCodeGenerator.java:335-384 | a node of the type's DataTree class is read as a literal before any custom, enum, config or mapper step |
| DeserializationPlans.KindStepsMeaning | annotation-processor/src/main/java/me/bristermitten/mittenlib/annotations/compile/DeserializationCodeGenerator.java:345-429 | generation fails exactly for a non-enum type that is unresolved (`DTOReferenceException`) or a config type whose class name `getConfigClassName` refuses (with that exception); otherwise the enum steps catch strings (plain ones only with a default) and the config step a map node |
| DeserializationPlans.NonGenericSplit | annotation-processor/src/main/java/me/bristermitten/mittenlib/annotations/compile/DeserializationCodeGenerator.java:323-359 | the null check, shortcuts and enum or config steps can be run part by part |
| DeserializationPlans.CustomDeserializerFirst | annotation-processor/src/main/java/me/bristermitten/mittenlib/annotations/compile/DeserializationCodeGenerator.java:338-402 | a non-fallback custom deserializer follows the shortcuts and finishes the method; a non-static one makes generation throw |
| DeserializationPlans.CustomFallbackAfterKind | annotation-processor/src/main/java/me/bristermitten/mittenlib/annotations/compile/DeserializationCodeGenerator.java:345-356 | a fallback custom deserializer comes after the enum or config step and then finishes the method |
| DeserializationPlans.NoCustomPlanFails | annotation-processor/src/main/java/me/bristermitten/mittenlib/annotations/compile/DeserializationCodeGenerator.java:323-359 | without a custom deserializer, generation fails exactly when the enum or config branch does (an unresolved type, or a config class name refused), with that branch's exception |
| DeserializationPlans.UnnamedPackageConfigFails | annotation-processor/src/main/java/me/bristermitten/mittenlib/annotations/compile/DeserializationCodeGenerator.java:421-427 | a property whose type is a config DTO in the unnamed package makes generation throw "Unnamed packages are not supported" |
| DeserializationPlans.ObjectMapperFinishes | annotation-processor/src/main/java/me/bristermitten/mittenlib/annotations/compile/DeserializationCodeGenerator.java:436-448 | the object mapper finishes a property marked for it, and the context's mapper is never written |
| DeserializationPlans.MapperFallback | annotation-processor/src/main/java/me/bristermitten/mittenlib/annotations/compile/DeserializationCodeGenerator.java:449-463 | otherwise a non-DataTree default fails as the wrong type, and everything else goes to the context's mapper |
| DeserializationPlans.ElementCustomFirst | annotation-processor/src/main/java/me/bristermitten/mittenlib/annotations/compile/DeserializationCodeGenerator.java:269-320 | a list element or map value is read by a static custom deserializer first, then by a config's method when `getConfigClassName` gives its class; a non-static deserializer, an unresolved type or a refused config class name throws; no deserializer exactly when there is no custom one and the type is neither unresolved nor a config |
| DeserializationPlans.UnexpectedGenericType | annotation-processor/src/main/java/me/bristermitten/mittenlib/annotations/compile/DeserializationCodeGenerator.java:256-262 | a generic type other than List or Map makes generation throw |
| DeserializationPlans.ListProperty | annotation-processor/src/main/java/me/bristermitten/mittenlib/annotations/compile/DeserializationCodeGenerator.java:265-290 | a List is read element by element when its element type has a deserializer, else by the mapper; it fails with the element lookup's exception, including a config class name `getConfigClassName` refuses |
| DeserializationPlans.MapProperty | annotation-processor/src/main/java/me/bristermitten/mittenlib/annotations/compile/DeserializationCodeGenerator.java:292-321 | a Map is read value by value when its value type has a deserializer (the key class passed for a config), else by the mapper; it fails with the value lookup's exception, including a config class name `getConfigClassName` refuses |
| DeserializerChains.CodeTextAppend | annotation-processor/src/main/java/me/bristermitten/mittenlib/annotations/compile/DeserializationCodeGenerator.java:513-529 | the text of two runs of code-block events is their texts concatenated |
| DeserializerChains.AlternativeEventsAppend | annotation-processor/src/main/java/me/bristermitten/mittenlib/annotations/compile/DeserializationCodeGenerator.java:515-525 | the events for two runs of alternatives are the events of each, in order |
| DeserializerChains.AlternativeText | annotation-processor/src/main/java/me/bristermitten/mittenlib/annotations/compile/DeserializationCodeGenerator.java:515-525 | the alternatives' events write each alternative's code in turn |
| DeserializerChains.UnionOpeningsNest | annotation-processor/src/main/java/me/bristermitten/mittenlib/annotations/compile/DeserializationCodeGenerator.java:519-527 | the alternatives' openings, the no-match failure and one ")" per alternative form the nested orElse expression |
| DeserializerChains.UnionTextIsNested | annotation-processor/src/main/java/me/bristermitten/mittenlib/annotations/compile/DeserializationCodeGenerator.java:511-529 | the union statement reads "return" and then the properly nested expression |
| DeserializerChains.SingleCode | annotation-processor/src/main/java/me/bristermitten/mittenlib/annotations/compile/DeserializationCodeGenerator.java:514 | one added piece of code is the whole text |
| DeserializerChains.UnionDeserializer | annotation-processor/src/main/java/me/bristermitten/mittenlib/annotations/compile/DeserializationCodeGenerator.java:511-529 | the block receives "return ", then each alternative's code and an indent, then the no-match failure and the closing parentheses |
| DeserializerChains.UnionFirstMatch | annotation-processor/src/main/java/me/bristermitten/mittenlib/annotations/compile/DeserializationCodeGenerator.java:519-526 | a union takes the first alternative that succeeds, and fails with noUnionMatch when none does |
| DeserializerChains.FieldMethodChainType | annotation-processor/src/main/java/me/bristermitten/mittenlib/annotations/compile/DeserializationCodeGenerator.java:158-172 | a property method is named deserialize plus the capitalized name and returns Result of the boxed public type, so the chain check never throws for it |
| DeserializerChains.FieldCallsMeaning | annotation-processor/src/main/java/me/bristermitten/mittenlib/annotations/compile/DeserializationCodeGenerator.java:566-585 | the property operations are the calls in order, each bound to its result type; they fail exactly when some method lacks a Result return type |
| DeserializerChains.FieldCallsFailPersists | annotation-processor/src/main/java/me/bristermitten/mittenlib/annotations/compile/DeserializationCodeGenerator.java:575-577 | once a return type throws, later methods change nothing |
| DeserializerChains.FieldCallsFailAt | annotation-processor/src/main/java/me/bristermitten/mittenlib/annotations/compile/DeserializationCodeGenerator.java:575-577 | the first method whose return type throws makes the chain throw with its error |
| DeserializerChains.Bound | annotation-processor/src/main/java/me/bristermitten/mittenlib/annotations/compile/DeserializationCodeGenerator.java:579-584 | a fresh chain binds one variable per operation |
| DeserializerChains.AnonymousNames | annotation-processor/src/main/java/me/bristermitten/mittenlib/annotations/compile/DeserializationCodeGenerator.java:579-584 | n operations give n anonymous names |
| DeserializerChains.NextNameFree | annotation-processor/src/main/java/me/bristermitten/mittenlib/annotations/compile/DeserializationCodeGenerator.java:579-584 | the chain's variables are var0, var1, ..., so the next anonymous name is free |
| DeserializerChains.BoundAppend | annotation-processor/src/main/java/me/bristermitten/mittenlib/annotations/compile/DeserializationCodeGenerator.java:579-584 | one more operation is bound to the next anonymous name |
| DeserializerChains.AggregateChain | annotation-processor/src/main/java/me/bristermitten/mittenlib/annotations/compile/DeserializationCodeGenerator.java:546-592 | the parent's operation, then each property's, are added to a fresh chain; a throwing return type is the result, an empty chain throws, and otherwise the text is the nested flatMap ending in the constructor |
| DeserializerChains.FieldMethods | annotation-processor/src/main/java/me/bristermitten/mittenlib/annotations/compile/DeserializationCodeGenerator.java:540-542 | one method per property, in order |
| DeserializerChains.FieldPlans | annotation-processor/src/main/java/me/bristermitten/mittenlib/annotations/compile/DeserializationCodeGenerator.java:540-542 | one plan per property, in order |
| DeserializerChains.AggregateCalls | annotation-processor/src/main/java/me/bristermitten/mittenlib/annotations/compile/DeserializationCodeGenerator.java:548-585 | the parent's call when there is one, then one call per property |
| DeserializerChains.AggregateCallsNeverFail | annotation-processor/src/main/java/me/bristermitten/mittenlib/annotations/compile/DeserializationCodeGenerator.java:566-585 | the generator's own property methods never make the chain throw |
| DeserializerChains.AggregateDeserializer | annotation-processor/src/main/java/me/bristermitten/mittenlib/annotations/compile/DeserializationCodeGenerator.java:534-595 | the DAO statement first when there is one; the first property method that throws ends generation; then a superclass whose `getConfigClassName` throws (:554-555) ends it with that exception; otherwise the property methods and the chain statement over the resolved parent |
| DeserializerChains.ParentRunsFirst | annotation-processor/src/main/java/me/bristermitten/mittenlib/annotations/compile/DeserializationCodeGenerator.java:553-563 | the parent is deserialized first and its failure wins; then the first failing property; otherwise the constructor receives the parent's value and then the properties' in order |
| Accessors.Getter | annotation-processor/src/main/java/me/bristermitten/mittenlib/annotations/compile/AccessorGenerator.java:47-92 | a public, pure method named by the accessor that returns the field; it overrides exactly when the property comes from a DTO method |
| Accessors.CreateGetterMethod | annotation-processor/src/main/java/me/bristermitten/mittenlib/annotations/compile/AccessorGenerator.java:47-92 | the getter is appended and nothing else in the class changes |
| Accessors.WithMethods | annotation-processor/src/main/java/me/bristermitten/mittenlib/annotations/compile/AccessorGenerator.java:100-146 | none for a union; otherwise one per property, in order, named with plus the capitalized name, taking that property and returning the implementation |
| Accessors.CreateWithMethods | annotation-processor/src/main/java/me/bristermitten/mittenlib/annotations/compile/AccessorGenerator.java:105-145 | the loop appends exactly the with-methods, and nothing else in the class changes |
| Accessors.WithArguments | annotation-processor/src/main/java/me/bristermitten/mittenlib/annotations/compile/AccessorGenerator.java:122-138 | the constructor receives the current parent first when there is one, then the new value for the replaced property and the current value of every other, in order |
| Accessors.JoinedNonEmpty | annotation-processor/src/main/java/me/bristermitten/mittenlib/annotations/compile/AccessorGenerator.java:134-136 | a non-empty part leaves the join non-empty |
| Accessors.WithArgumentsJoined | annotation-processor/src/main/java/me/bristermitten/mittenlib/annotations/compile/AccessorGenerator.java:122-138 | for a named property of the class, the call's text is exactly those arguments joined by ", " |
| ConfigAsts.SuperClassOf | annotation-processor/src/main/java/me/bristermitten/mittenlib/annotations/compile/ConfigImplGenerator.java:258-263 | a superclass exists exactly for a class source with a parent, and it is that parent |
| ConfigImpls.ImplModifiers | annotation-processor/src/main/java/me/bristermitten/mittenlib/annotations/compile/ConfigImplGenerator.java:55-59 | always public; abstract exactly for a union; static exactly when nested (lines 175-180); never private or final |
| ConfigImpls.ConfigFields | annotation-processor/src/main/java/me/bristermitten/mittenlib/annotations/compile/ConfigImplGenerator.java:109-146 | a CONFIG field exactly when a source file is set: public static final, typed Configuration of the public class, built from the file, the deserialize method, and the serialize method exactly when serialization is supported |
| ConfigImpls.AddSourceElement | annotation-processor/src/main/java/me/bristermitten/mittenlib/annotations/compile/ConfigImplGenerator.java:109-146 | appends exactly those CONFIG fields and changes nothing else |
| ConfigImpls.Superinterfaces | annotation-processor/src/main/java/me/bristermitten/mittenlib/annotations/compile/ConfigImplGenerator.java:149-152 | the DTO interface is implemented exactly for an interface source |
| ConfigImpls.Superclass | annotation-processor/src/main/java/me/bristermitten/mittenlib/annotations/compile/ConfigImplGenerator.java:153-158 | a superclass exactly when a class source has a parent whose structure is known, and it is that structure's implementation |
| ConfigImpls.AddInheritance | annotation-processor/src/main/java/me/bristermitten/mittenlib/annotations/compile/ConfigImplGenerator.java:149-159 | adds exactly those supertypes, keeps an earlier superclass when none is found, and changes nothing else |
| ConfigImpls.ProxyMethods | annotation-processor/src/main/java/me/bristermitten/mittenlib/annotations/compile/ConfigImplGenerator.java:369-385 | at most one proxy method per property |
| ConfigImpls.ProxyMethodsMeaning | annotation-processor/src/main/java/me/bristermitten/mittenlib/annotations/compile/ConfigImplGenerator.java:369-385 | both directions: every proxy method belongs to a property without a default, and every such property has its proxy method |
| ConfigImpls.ProxyTypes | annotation-processor/src/main/java/me/bristermitten/mittenlib/annotations/compile/ConfigImplGenerator.java:387-391 | the proxy class is added exactly when it is written |
| ConfigImpls.ProxyWrittenIff | annotation-processor/src/main/java/me/bristermitten/mittenlib/annotations/compile/ConfigImplGenerator.java:355-392 | the proxy is written exactly for an interface with some property that has no default |
| ConfigImpls.ProxyOverrides | annotation-processor/src/main/java/me/bristermitten/mittenlib/annotations/compile/ConfigImplGenerator.java:369-385 | the proxy overrides exactly the properties without a default, each throwing the default-value proxy exception for the concrete class |
| ConfigImpls.ProxyMethodNamed | annotation-processor/src/main/java/me/bristermitten/mittenlib/annotations/compile/ConfigImplGenerator.java:374-375 | each proxy method is named after a property without a default |
| ConfigImpls.AddProxyMethods | annotation-processor/src/main/java/me/bristermitten/mittenlib/annotations/compile/ConfigImplGenerator.java:369-385 | the loop appends exactly the proxy methods to the inner class and changes nothing else |
| ConfigImpls.AddInnerDefaultMethodImpl | annotation-processor/src/main/java/me/bristermitten/mittenlib/annotations/compile/ConfigImplGenerator.java:355-392 | returns the proxy's name exactly when the proxy is written, adds exactly the proxy type, and changes nothing else |
| ConfigImpls.PropertyFields | annotation-processor/src/main/java/me/bristermitten/mittenlib/annotations/compile/ConfigImplGenerator.java:240-248 | one private final field per property, in order |
| ConfigImpls.Getters | annotation-processor/src/main/java/me/bristermitten/mittenlib/annotations/compile/ConfigImplGenerator.java:250-255 | one getter per property, in order |
| ConfigImpls.AddProperties | annotation-processor/src/main/java/me/bristermitten/mittenlib/annotations/compile/ConfigImplGenerator.java:182-186 | appends exactly the property fields and the getters and changes nothing else |
| ConfigImpls.ResolvedParent | annotation-processor/src/main/java/me/bristermitten/mittenlib/annotations/compile/ConfigImplGenerator.java:306-311 | fails exactly when there is a parent with no known structure, with the source's IllegalStateException message; otherwise gives the parent's structure exactly when there is a parent |
| ConfigImpls.ParentFields | annotation-processor/src/main/java/me/bristermitten/mittenlib/annotations/compile/ConfigImplGenerator.java:309-316 | a private final parent field of the parent implementation type, exactly when there is a parent |
| ConfigImpls.AddSuperClassField | annotation-processor/src/main/java/me/bristermitten/mittenlib/annotations/compile/ConfigImplGenerator.java:306-317 | returns the parent lookup result, adds the parent field only when it succeeds, and changes nothing else |
| ConfigImpls.AccessorCalls | annotation-processor/src/main/java/me/bristermitten/mittenlib/annotations/compile/ConfigImplGenerator.java:320-322 | one accessor call on the parameter per parent property, in order |
| ConfigImpls.SuperConstructorParams | annotation-processor/src/main/java/me/bristermitten/mittenlib/annotations/compile/ConfigImplGenerator.java:319-333 | the parent's values read through its accessors in order, preceded by the parameter itself exactly when the parent has its own parent |
| ConfigImpls.Constructor | annotation-processor/src/main/java/me/bristermitten/mittenlib/annotations/compile/ConfigImplGenerator.java:271-304 | a public constructor. With a parent it takes the parent first, calls super with the parent's values and keeps the parent. Then it takes one parameter per property and assigns each property's field from it, in order |
| ConfigImpls.ConstructorParameters | annotation-processor/src/main/java/me/bristermitten/mittenlib/annotations/compile/ConfigImplGenerator.java:293-298 | the parent parameter first when there is one, then one per property, in order (lines 335-341) |
| ConfigImpls.ConstructorStatements | annotation-processor/src/main/java/me/bristermitten/mittenlib/annotations/compile/ConfigImplGenerator.java:300-302 | the super call and the parent assignment first when there is one, then one assignment per property, in order (lines 335-341) |
| ConfigImpls.PropertyParameters | annotation-processor/src/main/java/me/bristermitten/mittenlib/annotations/compile/ConfigImplGenerator.java:335-353 | one parameter per property, of its public type and name, in order |
| ConfigImpls.Assignments | annotation-processor/src/main/java/me/bristermitten/mittenlib/annotations/compile/ConfigImplGenerator.java:339 | one field assignment per property, in order |
| ConfigImpls.SuperCallFitsParentConstructor | annotation-processor/src/main/java/me/bristermitten/mittenlib/annotations/compile/ConfigImplGenerator.java:319-333 | the super call passes as many arguments as the parent's own constructor takes, and the two agree on passing the parent first |
| ConfigImpls.WithCallFitsConstructor | annotation-processor/src/main/java/me/bristermitten/mittenlib/annotations/compile/AccessorGenerator.java:122-138 | a with-method's call passes as many arguments as the constructor takes, with the current parent exactly where the constructor takes the parent |
| ConfigImpls.PropertyRoundTrip | annotation-processor/src/main/java/me/bristermitten/mittenlib/annotations/compile/ConfigImplGenerator.java:240-256 | each property's field, constructor parameter and assignment share its name, and its getter returns that field |
| ConfigImpls.ToStringMethods | annotation-processor/src/main/java/me/bristermitten/mittenlib/annotations/compile/ConfigImplGenerator.java:222-225 | a toString method exactly when it is asked for |
| ConfigImpls.EmittedIffParentsKnown | annotation-processor/src/main/java/me/bristermitten/mittenlib/annotations/compile/ConfigImplGenerator.java:83-104 | generation succeeds exactly when every structure in the tree either has no parent or has a parent with a known structure |
| ConfigImpls.EmittedAllIffParentsKnown | annotation-processor/src/main/java/me/bristermitten/mittenlib/annotations/compile/ConfigImplGenerator.java:231-238 | the nested classes are all generated exactly when every nested tree's parents are known, one class per nested structure |
| ConfigImpls.EmittedFields | annotation-processor/src/main/java/me/bristermitten/mittenlib/annotations/compile/ConfigImplGenerator.java:87-93 | the fields are the CONFIG field, then the property fields in order, then the parent field exactly when there is a parent; there is a superclass exactly then |
| ConfigImpls.EmittedParts | annotation-processor/src/main/java/me/bristermitten/mittenlib/annotations/compile/ConfigImplGenerator.java:83-104 | a generated class's fields, superclass and methods are the parts above, in the order the steps add them |
| ConfigImpls.EmittedMethods | annotation-processor/src/main/java/me/bristermitten/mittenlib/annotations/compile/ConfigImplGenerator.java:92-101 | the methods are the getters in property order, then the with-methods, then the constructor, then toString when it is asked for |
| ConfigImpls.EmittedTypes | annotation-processor/src/main/java/me/bristermitten/mittenlib/annotations/compile/ConfigImplGenerator.java:89-102 | the nested types are the proxy first when it is written, then one class per nested structure |
| ConfigImpls.AddHeader | annotation-processor/src/main/java/me/bristermitten/mittenlib/annotations/compile/ConfigImplGenerator.java:85-91 | an empty builder then holds exactly the modifiers, supertypes, CONFIG field and proxy type |
| ConfigImpls.AddAllArgsConstructor | annotation-processor/src/main/java/me/bristermitten/mittenlib/annotations/compile/ConfigImplGenerator.java:271-279 | appends exactly the constructor and changes nothing else |
| ConfigImpls.AddMethods | annotation-processor/src/main/java/me/bristermitten/mittenlib/annotations/compile/ConfigImplGenerator.java:94-101 | appends the with-methods, the constructor and toString, in that order, and changes nothing else |
| ConfigImpls.AddMembers | annotation-processor/src/main/java/me/bristermitten/mittenlib/annotations/compile/ConfigImplGenerator.java:85-101 | returns the parent lookup result, and on success the builder describes the class head |
| ConfigImpls.EmitInto | annotation-processor/src/main/java/me/bristermitten/mittenlib/annotations/compile/ConfigImplGenerator.java:83-104 | fails with the first unknown-parent error; otherwise the builder describes exactly the generated class |
| ConfigImpls.AddChildClasses | annotation-processor/src/main/java/me/bristermitten/mittenlib/annotations/compile/ConfigImplGenerator.java:231-238 | succeeds exactly when every nested class is generated, appending them in order; otherwise fails with the first error |
| ConfigImpls.AddChildClass | annotation-processor/src/main/java/me/bristermitten/mittenlib/annotations/compile/ConfigImplGenerator.java:233-236 | one nested class generated into a fresh builder and appended, or its error with nothing appended |
| ConfigImpls.FailurePersists | annotation-processor/src/main/java/me/bristermitten/mittenlib/annotations/compile/ConfigImplGenerator.java:231-238 | once a nested class fails, the whole loop fails with that error |
| ConfigImpls.Emit | annotation-processor/src/main/java/me/bristermitten/mittenlib/annotations/compile/ConfigImplGenerator.java:68-75 | the result is exactly the generated class, or its failure |
| ToStrings.Names | annotation-processor/src/main/java/me/bristermitten/mittenlib/annotations/compile/ToStringGenerator.java:41-43 | one name per property |
| ToStrings.ExpressionSnoc | annotation-processor/src/main/java/me/bristermitten/mittenlib/annotations/compile/ToStringGenerator.java:43-48 | one more operand adds " + " and its code to the chain |
| ToStrings.StepText | annotation-processor/src/main/java/me/bristermitten/mittenlib/annotations/compile/ToStringGenerator.java:43 | the text one step adds is the property's "name=" literal and its field, appended to the chain |
| ToStrings.CommaText | annotation-processor/src/main/java/me/bristermitten/mittenlib/annotations/compile/ToStringGenerator.java:44-46 | the comma text adds a "," literal operand to the chain |
| ToStrings.ExtendedExpression | annotation-processor/src/main/java/me/bristermitten/mittenlib/annotations/compile/ToStringGenerator.java:39-48 | the chain of a longer operand list is the shorter chain extended operand by operand |
| ToStrings.LoopStepText | annotation-processor/src/main/java/me/bristermitten/mittenlib/annotations/compile/ToStringGenerator.java:42-46 | the text of one turn regroups into the chain with that property's operands |
| ToStrings.LoopStep | annotation-processor/src/main/java/me/bristermitten/mittenlib/annotations/compile/ToStringGenerator.java:41-47 | one turn of the loop extends the statement by the operands of property i, and the comma exactly when it is not the last |
| ToStrings.ClosingText | annotation-processor/src/main/java/me/bristermitten/mittenlib/annotations/compile/ToStringGenerator.java:48 | the closing brace completes the statement of a non-empty property list |
| ToStrings.GenerateToString | annotation-processor/src/main/java/me/bristermitten/mittenlib/annotations/compile/ToStringGenerator.java:32-51 | the loop builds exactly the public overriding toString of String type whose one statement returns the chain of class name, properties and closing brace |
| ToStrings.Rendered | annotation-processor/src/main/java/me/bristermitten/mittenlib/annotations/compile/ToStringGenerator.java:43 | each property written "name=value", in order |
| ToStrings.EvalAppend | annotation-processor/src/main/java/me/bristermitten/mittenlib/annotations/compile/ToStringGenerator.java:39-48 | a concatenation of operand lists evaluates to the concatenation of their values |
| ToStrings.EvalPiece | annotation-processor/src/main/java/me/bristermitten/mittenlib/annotations/compile/ToStringGenerator.java:43-46 | one property's operands evaluate to "name=value", followed by "," exactly when it is not the last |
| ToStrings.EvalPieces | annotation-processor/src/main/java/me/bristermitten/mittenlib/annotations/compile/ToStringGenerator.java:41-47 | the first i properties evaluate to their renderings joined by ",", followed by "," exactly when more follow |
| ToStrings.ToStringValue | annotation-processor/src/main/java/me/bristermitten/mittenlib/annotations/compile/ToStringGenerator.java:32-51 | the generated method returns the class name, "{", every property as name=value in order separated by "," and nowhere else, then "}" |
| ToStrings.ThreePropertyChain | annotation-processor/src/test/java/me/bristermitten/mittenlib/annotations/config/ToStringGeneratorTest.java:35-39 | the properties x, y and z give exactly the statement the test expects |
| ToStrings.ThreePropertyExample | annotation-processor/src/test/java/me/bristermitten/mittenlib/annotations/config/ToStringGeneratorTest.java:23-27 | example only: with x 3, y 0 and z null the example returns ToStringConfig{x=3,y=0,z=null} |
| ToStrings.ExampleJoined | annotation-processor/src/test/java/me/bristermitten/mittenlib/annotations/config/ToStringGeneratorTest.java:23-27 | the example's three renderings joined by "," are x=3,y=0,z=null |
| TypeSpecs.TypeSpecBuilder.constructor | annotation-processor/src/main/java/me/bristermitten/mittenlib/annotations/compile/ConfigImplGenerator.java:70 | a builder with the given name and nothing yet added |
| TypeSpecs.TypeSpecBuilder.AddModifiers | annotation-processor/src/main/java/me/bristermitten/mittenlib/annotations/compile/ConfigImplGenerator.java:85 | appends the modifiers; nothing else changes |
| TypeSpecs.TypeSpecBuilder.AddSuperinterface | annotation-processor/src/main/java/me/bristermitten/mittenlib/annotations/compile/ConfigImplGenerator.java:151 | appends the interface; nothing else changes |
| TypeSpecs.TypeSpecBuilder.SetSuperclass | annotation-processor/src/main/java/me/bristermitten/mittenlib/annotations/compile/ConfigImplGenerator.java:157 | sets the superclass; nothing else changes |
| TypeSpecs.TypeSpecBuilder.AddField | annotation-processor/src/main/java/me/bristermitten/mittenlib/annotations/compile/ConfigImplGenerator.java:248 | appends the field; nothing else changes |
| TypeSpecs.TypeSpecBuilder.AddMethod | annotation-processor/src/main/java/me/bristermitten/mittenlib/annotations/compile/ConfigImplGenerator.java:278 | appends the method; nothing else changes |
| TypeSpecs.TypeSpecBuilder.AddType | annotation-processor/src/main/java/me/bristermitten/mittenlib/annotations/compile/ConfigImplGenerator.java:236 | appends the nested type; nothing else changes |
| TypeSpecs.TypeSpecBuilder.Build | annotation-processor/src/main/java/me/bristermitten/mittenlib/annotations/compile/ConfigImplGenerator.java:74 | the built type holds exactly what was added |
| Scopes.Names | annotation-processor/src/main/java/me/bristermitten/mittenlib/annotations/codegen/Scope.java:69-71 | the declared names, one per variable, in declaration order |
| Scopes.FindMeaning | annotation-processor/src/main/java/me/bristermitten/mittenlib/annotations/codegen/Scope.java:50-52 | a lookup finds a variable exactly when its name is declared, and the one found is declared under that name |
| Scopes.AnonymousNamesDiffer | annotation-processor/src/main/java/me/bristermitten/mittenlib/annotations/codegen/Scope.java:40 | two counter values give the same anonymous name exactly when they are equal |
| Scopes.Scope.constructor | annotation-processor/src/main/java/me/bristermitten/mittenlib/annotations/codegen/Scope.java:12-13 | a new scope has no variables and the counter at 0 |
| Scopes.Scope.Declare | annotation-processor/src/main/java/me/bristermitten/mittenlib/annotations/codegen/Scope.java:23-30 | a new name is appended with its type and returned; a name already in scope fails with the source's IllegalStateException message and leaves the scope as it was; names stay distinct |
| Scopes.Scope.DeclareAnonymous | annotation-processor/src/main/java/me/bristermitten/mittenlib/annotations/codegen/Scope.java:39-42 | the counter always advances by one, and var plus the old counter is declared as Declare does, failing with the same message on a clash |
| Scopes.Scope.GetMeaning | annotation-processor/src/main/java/me/bristermitten/mittenlib/annotations/codegen/Scope.java:50-62 | get finds a variable exactly when contains holds, and it is the variable declared under that name |
| Scopes.Scope.CreateChild | annotation-processor/src/main/java/me/bristermitten/mittenlib/annotations/codegen/Scope.java:79-86 | a fresh scope with the same variables and the same counter |
| Scopes.ChildLeavesParentAlone | annotation-processor/src/main/java/me/bristermitten/mittenlib/annotations/codegen/Scope.java:73-86 | example only: a declaration in the child continues the parent's numbering and leaves the parent unchanged |
| Scopes.TwoAnonymous | annotation-processor/src/main/java/me/bristermitten/mittenlib/annotations/codegen/Scope.java:32-42 | example only: two anonymous declarations in an empty scope give varN and varN+1, which differ, in that order |
| FlatMapChains.ResultVariables | annotation-processor/src/main/java/me/bristermitten/mittenlib/annotations/codegen/FlatMapChainBuilder.java:122-126 | the operations' variables, one per operation, in order |
| Sequences.Repeat | annotation-processor/src/main/java/me/bristermitten/mittenlib/annotations/codegen/FlatMapChainBuilder.java:103 | exactly n copies of the character (the closing parentheses of a chain, the underscores of a method name) |
| FlatMapChains.OpeningsAppend | annotation-processor/src/main/java/me/bristermitten/mittenlib/annotations/codegen/FlatMapChainBuilder.java:86-88 | the openings of two operation lists put together are the two texts put together |
| FlatMapChains.FlatTextIsNested | annotation-processor/src/main/java/me/bristermitten/mittenlib/annotations/codegen/FlatMapChainBuilder.java:83-103 | the openings, the constructor call and one closer per operation form the nested chain, each flatMap enclosing the rest |
| FlatMapChains.NestedValueIsSequence | annotation-processor/src/main/java/me/bristermitten/mittenlib/annotations/codegen/FlatMapChainBuilder.java:9-22 | the written chain evaluates to the first failure in order, or to success with the variables in scope followed by every operation's value |
| FlatMapChains.FlatMapChainBuilder.constructor | annotation-processor/src/main/java/me/bristermitten/mittenlib/annotations/codegen/FlatMapChainBuilder.java:37-40 | a chain over the given scope with no operations |
| FlatMapChains.FlatMapChainBuilder.Fresh | annotation-processor/src/main/java/me/bristermitten/mittenlib/annotations/codegen/FlatMapChainBuilder.java:33-35 | a chain over a fresh empty scope with no operations |
| FlatMapChains.FlatMapChainBuilder.AddOperation | annotation-processor/src/main/java/me/bristermitten/mittenlib/annotations/codegen/FlatMapChainBuilder.java:51-55 | the scope's next anonymous variable is bound to the expression and the operation appended; on a name clash it fails and the chain is unchanged; the counter advances either way |
| FlatMapChains.FlatMapChainBuilder.VariablesEndTheScope | annotation-processor/src/main/java/me/bristermitten/mittenlib/annotations/codegen/FlatMapChainBuilder.java:122-126 | the chain's variables are the scope's last ones, one per operation, with distinct names |
| FlatMapChains.FlatMapChainBuilder.BuildWithConstructor | annotation-processor/src/main/java/me/bristermitten/mittenlib/annotations/codegen/FlatMapChainBuilder.java:77-106 | an empty chain fails with the source's message; otherwise the text is the nested chain whose innermost call passes every variable of the scope, earlier ones first |
| FlatMapChains.WriteOpenings | annotation-processor/src/main/java/me/bristermitten/mittenlib/annotations/codegen/FlatMapChainBuilder.java:86-88 | the loop writes exactly the openings, in order |
| FlatMapChains.JoinArguments | annotation-processor/src/main/java/me/bristermitten/mittenlib/annotations/codegen/FlatMapChainBuilder.java:95-100 | the loop writes the variable names joined by ", " |
| FlatMapChains.SingleOperation | annotation-processor/src/main/java/me/bristermitten/mittenlib/annotations/codegen/FlatMapChainBuilder.java:13-22 | example only: a fresh chain of one operation binds var0 and passes var0 alone to the constructor |
| FlatMapChains.TwoOperationVariables | annotation-processor/src/main/java/me/bristermitten/mittenlib/annotations/codegen/FlatMapChainBuilder.java:15-17 | example only: two operations on a fresh chain are bound to var0 and var1 with their own types |
| CodeBuilders.DepthAppend | annotation-processor/src/main/java/me/bristermitten/mittenlib/annotations/codegen/CodeGenBuilder.java:96-163 | the nesting level of two logs put together is the sum of their levels |
| CodeBuilders.NeverNegativeAppend | annotation-processor/src/main/java/me/bristermitten/mittenlib/annotations/codegen/CodeGenBuilder.java:119-126 | a log that never closes more than it opened stays so when another such log follows it at a non-negative level |
| CodeBuilders.BalancedAppend | annotation-processor/src/main/java/me/bristermitten/mittenlib/annotations/codegen/CodeGenBuilder.java:210-214 | two balanced logs put together are balanced |
| CodeBuilders.PushEvent | annotation-processor/src/main/java/me/bristermitten/mittenlib/annotations/codegen/CodeGenBuilder.java:96-163 | one more call that keeps the level non-negative keeps the log non-negative and moves the level by that call's step |
| CodeBuilders.CodeBlockBuilder.constructor | annotation-processor/src/main/java/me/bristermitten/mittenlib/annotations/codegen/CodeGenBuilder.java:21 | a fresh code block has no calls logged |
| CodeBuilders.CodeBlockBuilder.Emit | annotation-processor/src/main/java/me/bristermitten/mittenlib/annotations/codegen/CodeGenBuilder.java:51 | the call is appended to the log |
| CodeBuilders.CodeBlockBuilder.EmitAll | annotation-processor/src/main/java/me/bristermitten/mittenlib/annotations/codegen/CodeGenBuilder.java:84-87 | the calls are appended to the log in order |
| CodeBuilders.CodeGenBuilder.constructor | annotation-processor/src/main/java/me/bristermitten/mittenlib/annotations/codegen/CodeGenBuilder.java:20-23 | a fresh code block over the given scope at level 0 |
| CodeBuilders.CodeGenBuilder.AddStatement | annotation-processor/src/main/java/me/bristermitten/mittenlib/annotations/codegen/CodeGenBuilder.java:50-64 | the statement is logged and the level is unchanged |
| CodeBuilders.CodeGenBuilder.Add | annotation-processor/src/main/java/me/bristermitten/mittenlib/annotations/codegen/CodeGenBuilder.java:73-87 | the code is logged and the level is unchanged |
| CodeBuilders.CodeGenBuilder.BeginControlFlow | annotation-processor/src/main/java/me/bristermitten/mittenlib/annotations/codegen/CodeGenBuilder.java:96-112 | the block is logged and the level goes up by one |
| CodeBuilders.CodeGenBuilder.NextControlFlow | annotation-processor/src/main/java/me/bristermitten/mittenlib/annotations/codegen/CodeGenBuilder.java:135-138 | the continuation is logged and the level is unchanged |
| CodeBuilders.CodeGenBuilder.EndControlFlow | annotation-processor/src/main/java/me/bristermitten/mittenlib/annotations/codegen/CodeGenBuilder.java:119-126 | at level 0 it fails with the source's message and changes nothing; otherwise the end is logged and the level goes down by one; the level always equals the log's depth |
| CodeBuilders.CodeGenBuilder.Indent | annotation-processor/src/main/java/me/bristermitten/mittenlib/annotations/codegen/CodeGenBuilder.java:145-149 | the indent is logged and the level goes up by one |
| CodeBuilders.CodeGenBuilder.Unindent | annotation-processor/src/main/java/me/bristermitten/mittenlib/annotations/codegen/CodeGenBuilder.java:156-163 | at level 0 it fails with the source's message and changes nothing; otherwise the unindent is logged and the level goes down by one |
| CodeBuilders.CodeGenBuilder.DeclareVariable | annotation-processor/src/main/java/me/bristermitten/mittenlib/annotations/codegen/CodeGenBuilder.java:173-177 | a name already in scope fails with "Variable <name> already exists in scope" before anything is logged; otherwise the variable is declared and its declaration statement logged |
| CodeBuilders.CodeGenBuilder.DeclareAnonymous | annotation-processor/src/main/java/me/bristermitten/mittenlib/annotations/codegen/CodeGenBuilder.java:199-203 | the counter advances; the next anonymous name is declared and its declaration statement logged, or on a clash it fails with the scope's "already exists" message and nothing is logged |
| CodeBuilders.CodeGenBuilder.Build | annotation-processor/src/main/java/me/bristermitten/mittenlib/annotations/codegen/CodeGenBuilder.java:210-215 | fails with the count of unclosed blocks unless the level is 0; what it returns is balanced, every block closed and none closed before it was opened |
| CodeBuilders.OneBlock | annotation-processor/src/main/java/me/bristermitten/mittenlib/annotations/codegen/CodeGenBuilder.java:96-126 | example only: a block opened, filled and closed builds to exactly those three calls |
| DeserializationMethodBuilders.AllEmitsAppend | annotation-processor/src/main/java/me/bristermitten/mittenlib/annotations/codegen/DeserializationMethodBuilder.java:86-91 | what two strategy lists write, one after the other, is their two texts put together |
| DeserializationMethodBuilders.TriedCount | annotation-processor/src/main/java/me/bristermitten/mittenlib/annotations/codegen/DeserializationMethodBuilder.java:86-91 | no more strategies are tried than were added |
| DeserializationMethodBuilders.TriedPrefix | annotation-processor/src/main/java/me/bristermitten/mittenlib/annotations/codegen/DeserializationMethodBuilder.java:86-91 | trying the strategies writes exactly what the ones tried, a prefix, write, in order |
| DeserializationMethodBuilders.TriedCountMeaning | annotation-processor/src/main/java/me/bristermitten/mittenlib/annotations/codegen/DeserializationMethodBuilder.java:86-91 | every strategy tried before the last declined; the last tried handled the case exactly when some strategy does; when none does, all are tried |
| DeserializationMethodBuilders.AllEmitsSnoc | annotation-processor/src/main/java/me/bristermitten/mittenlib/annotations/codegen/DeserializationMethodBuilder.java:86-91 | one more strategy tried writes its code after the earlier ones' |
| DeserializationMethodBuilders.TriedUpTo | annotation-processor/src/main/java/me/bristermitten/mittenlib/annotations/codegen/DeserializationMethodBuilder.java:87-90 | when the first strategy to handle the case is number i, exactly the first i+1 strategies write code |
| DeserializationMethodBuilders.TriedAll | annotation-processor/src/main/java/me/bristermitten/mittenlib/annotations/codegen/DeserializationMethodBuilder.java:86-94 | when no strategy handles the case, every strategy writes its code |
| DeserializationMethodBuilders.LaterStrategiesIgnored | annotation-processor/src/main/java/me/bristermitten/mittenlib/annotations/codegen/DeserializationMethodBuilder.java:60-71 | a strategy added after one that handles the case changes nothing written |
| DeserializationMethodBuilders.DeserializationMethodBuilder.constructor | annotation-processor/src/main/java/me/bristermitten/mittenlib/annotations/codegen/DeserializationMethodBuilder.java:54-57 | a builder over the given method with no strategies, not yet built |
| DeserializationMethodBuilders.DeserializationMethodBuilder.TryStrategy | annotation-processor/src/main/java/me/bristermitten/mittenlib/annotations/codegen/DeserializationMethodBuilder.java:65-71 | after building it fails with the source's message and queues nothing; otherwise the strategy is queued at the end |
| DeserializationMethodBuilders.DeserializationMethodBuilder.RunStrategies | annotation-processor/src/main/java/me/bristermitten/mittenlib/annotations/codegen/DeserializationMethodBuilder.java:86-91 | reports whether some strategy handled the case, and writes exactly what the strategies tried write |
| DeserializationMethodBuilders.DeserializationMethodBuilder.OrElse | annotation-processor/src/main/java/me/bristermitten/mittenlib/annotations/codegen/DeserializationMethodBuilder.java:79-95 | a second terminal call fails with the source's message and writes nothing; otherwise the builder closes, the strategies are tried and the fallback runs exactly when none handled the case |
| DeserializationMethodBuilders.DeserializationMethodBuilder.Build | annotation-processor/src/main/java/me/bristermitten/mittenlib/annotations/codegen/DeserializationMethodBuilder.java:101-114 | a second terminal call fails with the source's message and writes nothing; otherwise the builder closes and the strategies are tried with no fallback |
| DeserializationMethodBuilders.ClosedAfterBuild | annotation-processor/src/main/java/me/bristermitten/mittenlib/annotations/codegen/DeserializationMethodBuilder.java:65-114 | example only: after build, another terminal call and another strategy both fail, and only the first call wrote code |
| CodeGenDsl.EmittedAllAppend | annotation-processor/src/main/java/me/bristermitten/mittenlib/annotations/codegen/CodeGenDSL.java:204-209 | applying two lists of operations one after the other adds their two codes put together |
| CodeGenDsl.Apply | annotation-processor/src/main/java/me/bristermitten/mittenlib/annotations/codegen/CodeGenDSL.java:140-209 | applying a description adds exactly its code: a statement, a return, nothing for the empty one, a block's body between its opening and its end, or the combined operations in order |
| CodeGenDsl.ApplyAll | annotation-processor/src/main/java/me/bristermitten/mittenlib/annotations/codegen/CodeGenDSL.java:187-189 | the loop applies each operation in order |
| CodeGenDsl.CombineAppliesInOrder | annotation-processor/src/main/java/me/bristermitten/mittenlib/annotations/codegen/CodeGenDSL.java:125-127 | a combination applies the first description and then the second (the override at lines 211-216 included) |
| CodeGenDsl.CombineAssociative | annotation-processor/src/main/java/me/bristermitten/mittenlib/annotations/codegen/CodeGenDSL.java:10-16 | however combinations are grouped, the same code is applied |
| CodeGenDsl.EmptyIsNeutral | annotation-processor/src/main/java/me/bristermitten/mittenlib/annotations/codegen/CodeGenDSL.java:52-59 | combining with the empty description on either side applies the same code (its identity element) |
| CodeGenDsl.CombineKeepsOriginal | annotation-processor/src/main/java/me/bristermitten/mittenlib/annotations/codegen/CodeGenDSL.java:211-216 | combining a combination copies its operations unchanged and adds the other one last |
| CodeGenDsl.EmittedIsBalanced | annotation-processor/src/main/java/me/bristermitten/mittenlib/annotations/codegen/CodeGenDSL.java:184-191 | whatever is described, its code closes every block it opens, and none before it is opened |
| CodeGenDsl.EmittedAllIsBalanced | annotation-processor/src/main/java/me/bristermitten/mittenlib/annotations/codegen/CodeGenDSL.java:204-209 | the same for a list of descriptions applied in order |
| ImmutableSets.ContainsIffMember | core/src/main/java/me/bristermitten/mittenlib/collections/SetImpls.java:35-36 | contains holds exactly for the members (each arity, lines 82-83, 134-135, 185-186, 221-222), and iteration visits exactly the members |
| ImmutableSets.IsEmptyIffNoMembers | core/src/main/java/me/bristermitten/mittenlib/collections/SetImpls.java:226-228 | isEmpty holds exactly when there are no members, for every kind of set |
| ImmutableSets.DistinctCard | core/src/main/java/me/bristermitten/mittenlib/collections/SetImpls.java:201-202 | a sequence without repeats has as many members as entries |
| ImmutableSets.DistinctConcat | core/src/main/java/me/bristermitten/mittenlib/collections/SetImpls.java:237-238 | two repeat-free disjoint iterations concatenate without repeats |
| ImmutableSets.SizeIsCardinality | core/src/main/java/me/bristermitten/mittenlib/collections/SetImpls.java:209-214 | a valid set iterates without repeats, and size is its number of members, a union's stored size included |
| ImmutableSets.MembersAreIterated | core/src/main/java/me/bristermitten/mittenlib/collections/SetImpls.java:46-62 | the members are exactly the elements the iterator yields |
| ImmutableSets.Of0 | core/src/main/java/me/bristermitten/mittenlib/collections/Sets.java:20-22 | the empty set, valid |
| ImmutableSets.Of1 | core/src/main/java/me/bristermitten/mittenlib/collections/Sets.java:24-26 | exactly the element, valid |
| ImmutableSets.Of2 | core/src/main/java/me/bristermitten/mittenlib/collections/Sets.java:28-33 | exactly the two elements, valid; equal arguments exactly give a one-element set |
| ImmutableSets.Of3 | core/src/main/java/me/bristermitten/mittenlib/collections/Sets.java:35-51 | exactly the three elements, valid, with size the number of distinct arguments |
| ImmutableSets.Dedup | core/src/main/java/me/bristermitten/mittenlib/collections/Sets.java:62-69 | the elements added so far, each once |
| ImmutableSets.DedupOfDistinct | core/src/main/java/me/bristermitten/mittenlib/collections/Sets.java:62-69 | already distinct elements are all kept, in order |
| ImmutableSets.Of | core/src/main/java/me/bristermitten/mittenlib/collections/Sets.java:53-72 | the varargs loop gives the reference result: of() or of(e) for short inputs, a null pointer failure at a null element, otherwise the distinct elements wrapped |
| ImmutableSets.OfElementsMeaning | core/src/main/java/me/bristermitten/mittenlib/collections/Sets.java:53-72 | fails exactly when there are at least two elements and one is null; otherwise valid and holding exactly the elements |
| ImmutableSets.OfAllMeaning | core/src/main/java/me/bristermitten/mittenlib/collections/Sets.java:82-90 | a valid set holding exactly the collection's elements; a non-empty immutable set is returned as it is |
| ImmutableSets.Difference | core/src/main/java/me/bristermitten/mittenlib/collections/Sets.java:125-144 | the loop gives the reference difference: the empty cases first, then the elements of a not in b, in a's order |
| ImmutableSets.KeptMeaning | core/src/main/java/me/bristermitten/mittenlib/collections/Sets.java:138-142 | the builder holds, once each, exactly the elements looked at that b does not contain |
| ImmutableSets.KeptIsDifference | core/src/main/java/me/bristermitten/mittenlib/collections/Sets.java:138-143 | after the loop the builder holds exactly the members of a that are not members of b, without repeats |
| ImmutableSets.ElemSetOfDifference | core/src/main/java/me/bristermitten/mittenlib/collections/Sets.java:138-143 | a sequence holding exactly the elements of m not in n has m minus n as its members |
| ImmutableSets.DifferenceMeaning | core/src/main/java/me/bristermitten/mittenlib/collections/Sets.java:125-144 | difference of a valid set is valid and holds exactly the members of a not in b |
| ImmutableSets.UnionMembers | core/src/main/java/me/bristermitten/mittenlib/collections/Sets.java:102-115 | union holds exactly the members of both sets |
| ImmutableSets.UnionMeaning | core/src/main/java/me/bristermitten/mittenlib/collections/Sets.java:102-115 | for valid sets the union is valid and its size counts each member once (core/src/test/java/me/bristermitten/mittenlib/collections/SetsTest.java:396-410 checks the same) |
| ImmutableSets.UnionOfDisjoint | core/src/main/java/me/bristermitten/mittenlib/collections/SetImpls.java:209-214 | a union of disjoint valid sets is valid and its stored size counts its members |
| ImmutableSets.JavaEqualsIffSameMembers | core/src/main/java/me/bristermitten/mittenlib/collections/SetImpls.java:15-20 | both directions: the inherited equals of valid sets holds exactly when they have the same members |
| ImmutableSets.JavaEqualsGivesSameMembers | core/src/main/java/me/bristermitten/mittenlib/collections/SetImpls.java:15-20 | equal valid sets have the same members |
| ImmutableSets.SameMembersGiveJavaEquals | core/src/main/java/me/bristermitten/mittenlib/collections/SetImpls.java:15-20 | valid sets with the same members are equal |
| ImmutableSets.UnionCommutative | core/src/test/java/me/bristermitten/mittenlib/collections/SetsTest.java:237-248 | union(a, b) equals union(b, a) for valid sets |
| ImmutableSets.UnionAssociative | core/src/test/java/me/bristermitten/mittenlib/collections/SetsTest.java:412-426 | both groupings of a three-way union hold the same members |
| ImmutableSets.RemoveMeaning | core/src/main/java/me/bristermitten/mittenlib/collections/SetImpls.java:209-240 | for a valid set, remove answers `false` exactly for a non-member of the classes without an override, `true` exactly for a union member held by a wrapped `HashSet` (line 196-198 hands out its iterator), and otherwise throws `UnsupportedOperationException` |
| ImmutableSets.IteratorRemoveMeaning | core/src/main/java/me/bristermitten/mittenlib/collections/SetImpls.java:237-240 | removing a member through the concatenated iterator succeeds exactly when a wrapped `HashSet` holds it, and otherwise throws `UnsupportedOperationException` |
| ImmutableSets.HashSetMembersAreMembers | core/src/main/java/me/bristermitten/mittenlib/collections/SetImpls.java:196-198 | the elements held in wrapped hash sets are members of the set |
| ImmutableSets.RemoveFirstOfDistinct | core/src/main/java/me/bristermitten/mittenlib/collections/SetImpls.java:196-198 | the hash set iterator's removal takes exactly the removed element away and keeps the rest free of repeats |
| ImmutableSets.IteratorRemoveMembers | core/src/main/java/me/bristermitten/mittenlib/collections/SetImpls.java:209-240 | a successful removal takes exactly that element out of the members while the union keeps its stored size (line 218) |
| ImmutableSets.RemovedUnionIsInvalid | core/src/main/java/me/bristermitten/mittenlib/collections/SetImpls.java:209-240 | for every valid union and every member in a wrapped hash set, remove answers `true`, the element is gone, and `size()` still reports one more than the members, so the set is no longer valid |
| ImmutableSets.UnionRemoveExample | core/src/main/java/me/bristermitten/mittenlib/collections/Sets.java:102-115 | `union(ofAll(List.of(1, 2)), of(3)).remove(1)` answers `true` and leaves a union of size 3 holding 2 and 3 |
| ImmutableSets.RemoveNeverRemoves | core/src/main/java/me/bristermitten/mittenlib/collections/SetImpls.java:20-24 | with `UnionOf` extending the immutable base class, remove never reports a removal, throws for every member and always for the immutable base classes and unions, and agrees with the as-written `remove` on every other class |
| ImmutableSets.RemoveOnEmptySets | core/src/main/java/me/bristermitten/mittenlib/collections/Sets.java:125-143 | the JDK empty set answers `false` to remove; the empty set that `difference` builds is Guava's and throws |
| ImmutableSets.SingleIterator.constructor | core/src/main/java/me/bristermitten/mittenlib/collections/SetImpls.java:46-50 | the iterator starts with one element to give |
| ImmutableSets.SingleIterator.HasNext | core/src/main/java/me/bristermitten/mittenlib/collections/SetImpls.java:51-53 | reports whether the element is still to come |
| ImmutableSets.SingleIterator.Next | core/src/main/java/me/bristermitten/mittenlib/collections/SetImpls.java:56-62 | the element the first time, NoSuchElementException afterwards; nothing is left after it |
| ImmutableSets.CountingIterator.constructor | core/src/main/java/me/bristermitten/mittenlib/collections/SetImpls.java:93-96 | the counter starts at 0 |
| ImmutableSets.CountingIterator.HasNext | core/src/main/java/me/bristermitten/mittenlib/collections/SetImpls.java:98-100 | holds exactly while the counter is below the arity |
| ImmutableSets.CountingIterator.Next | core/src/main/java/me/bristermitten/mittenlib/collections/SetImpls.java:103-112 | the element at the counter while there is one, NoSuchElementException after; the counter always advances |
| ImmutableSets.IterateSet2 | core/src/main/java/me/bristermitten/mittenlib/collections/SetImpls.java:93-113 | example only: a two-element set's iterator yields both elements in order and then fails |
| ImmutableMaps.EntryContract | core/src/main/java/me/bristermitten/mittenlib/collections/MapImpls.java:34-49 | entries are equal exactly when keys and values are, equal entries hash alike, and setValue always throws (the symmetry of the hash in key and value is a fact about `^`, stated for completeness only) |
| ImmutableMaps.LookupMeaning | core/src/main/java/me/bristermitten/mittenlib/collections/MapImpls.java:65-66 | a value found comes from an entry with that key, and nothing is found exactly when no entry has that key |
| ImmutableMaps.LookupFindsEntry | core/src/main/java/me/bristermitten/mittenlib/collections/MapImpls.java:98-99 | with distinct keys the lookup of an entry's key gives that entry's value |
| ImmutableMaps.ContainsMeaning | core/src/main/java/me/bristermitten/mittenlib/collections/MapImpls.java:87-93 | containsKey and containsValue hold exactly when some entry has that key or value (each class, lines 54-60, 132-138, 183-189) |
| ImmutableMaps.GetMeaning | core/src/main/java/me/bristermitten/mittenlib/collections/MLImmutableMap.java:11 | the inherited get finds values only through entries, answers null exactly for a key that is not contained, and on distinct keys returns each entry's value |
| ImmutableMaps.EmptyMapHoldsNothing | core/src/main/java/me/bristermitten/mittenlib/collections/MapImpls.java:52-67 | the empty map contains no key or value, answers null and has size 0 |
| ImmutableMaps.Of1MapMeaning | core/src/main/java/me/bristermitten/mittenlib/collections/Maps.java:31-35 | fails exactly for a null key or value; otherwise the key gets its value, size 1 |
| ImmutableMaps.Of2MapMeaning | core/src/main/java/me/bristermitten/mittenlib/collections/Maps.java:37-52 | nulls fail first, then equal keys; otherwise each key gets its value, size 2, distinct keys (core/src/test/java/me/bristermitten/mittenlib/collections/MapsTest.java:40-45 checks the same) |
| ImmutableMaps.Of3AcceptsRepeatedKey | core/src/main/java/me/bristermitten/mittenlib/collections/Maps.java:62-64 | as written, repeating the second key as the third is accepted: three entries, two keys, and the third value is never read back |
| ImmutableMaps.Of3CheckedMeaning | core/src/main/java/me/bristermitten/mittenlib/collections/Maps.java:54-67 | with every pair of keys compared, nulls and every repeated key are rejected, and each key gets its value, size 3 (core/src/test/java/me/bristermitten/mittenlib/collections/MapsTest.java:58-64) |
| ImmutableMaps.EntrySetOf | core/src/main/java/me/bristermitten/mittenlib/collections/Maps.java:69-78 | the entry set is what Sets.of builds from the entries |
| ImmutableMaps.PairEntries | core/src/main/java/me/bristermitten/mittenlib/collections/Maps.java:69-171 | one entry per pair, in order |
| ImmutableMaps.OfPairsMeaning | core/src/main/java/me/bristermitten/mittenlib/collections/Maps.java:69-171 | the four-to-ten-pair forms hold exactly the pairs given, in a valid set |
| ImmutableMaps.OfPairsLookup | core/src/test/java/me/bristermitten/mittenlib/collections/MapsTest.java:66-76 | with distinct keys each key gets its value and the size is the number of pairs |
| ImmutableMaps.PairsIterated | core/src/main/java/me/bristermitten/mittenlib/collections/Maps.java:69-171 | pairs with distinct keys are all kept, in order, with distinct keys |
| ImmutableMaps.EntryBuildersMeaning | core/src/main/java/me/bristermitten/mittenlib/collections/Maps.java:194-221 | of(entries...) and of(collection) hold exactly the given entries, in valid sets, and agree |
| ImmutableMaps.PlusGrows | core/src/main/java/me/bristermitten/mittenlib/collections/MapImpls.java:70-71 | plus grows each class into the next (lines 110-111, 156-157, 207-215) and stays a MapN from four entries |
| ImmutableMaps.PlusMembers | core/src/main/java/me/bristermitten/mittenlib/collections/MapImpls.java:235-239 | plus keeps every entry and adds the new one, so the new key is contained (`Maps.of(map, k, v)` calls it) |
| ImmutableMaps.PlusMembersMap3 | core/src/main/java/me/bristermitten/mittenlib/collections/MapImpls.java:207-215 | on three entries, the four go into the set |
| ImmutableMaps.PlusMembersMapN | core/src/main/java/me/bristermitten/mittenlib/collections/MapImpls.java:235-239 | on a larger map, the copied entries and the new one |
| ImmutableMaps.PlusDoesNotReplace | core/src/main/java/me/bristermitten/mittenlib/collections/MapImpls.java:110-111 | plus on a key already present does not replace it: get keeps the old value and the size grows |
| ImmutableMaps.PlusLeavesOriginal | core/src/main/java/me/bristermitten/mittenlib/collections/MapImpls.java:235-239 | example only: plus answers a new map and leaves the old one as it was |
| ImmutableMaps.Mutate | core/src/main/java/me/bristermitten/mittenlib/collections/MLImmutableMap.java:13-60 | every mutator throws UnsupportedOperationException (core/src/test/java/me/bristermitten/mittenlib/collections/MapsTest.java:93-107) |
| ImmutableMaps.MapEqualsIffSameEntries | core/src/main/java/me/bristermitten/mittenlib/collections/MapImpls.java:103-107 | both directions: maps with valid entry sets are equal exactly when they hold the same entries, whatever their classes |
| EnumSuggestions.LevenshteinDistance | core/src/main/java/me/bristermitten/mittenlib/config/exception/InvalidEnumValueException.java:97-118 | the table filled row by row answers the edit distance of the two strings, the recurrence taken as its reference |
| EnumSuggestions.DistanceToEmpty | core/src/main/java/me/bristermitten/mittenlib/config/exception/InvalidEnumValueException.java:100-105 | against an empty string the distance is the other string's length, both ways round |
| EnumSuggestions.DistanceToSelf | core/src/main/java/me/bristermitten/mittenlib/config/exception/InvalidEnumValueException.java:107-115 | each prefix is at distance 0 from itself |
| EnumSuggestions.ZeroDistanceMeansEqual | core/src/main/java/me/bristermitten/mittenlib/config/exception/InvalidEnumValueException.java:107-115 | distance 0 between prefixes means they have the same length and text |
| EnumSuggestions.ZeroIffEqual | core/src/main/java/me/bristermitten/mittenlib/config/exception/InvalidEnumValueException.java:97-118 | both directions: the distance is 0 exactly when the strings are equal |
| EnumSuggestions.DistanceSymmetric | core/src/main/java/me/bristermitten/mittenlib/config/exception/InvalidEnumValueException.java:107-115 | the distance does not depend on which string comes first |
| EnumSuggestions.SymmetricEdge | core/src/main/java/me/bristermitten/mittenlib/config/exception/InvalidEnumValueException.java:100-105 | on the first row and column the distance is symmetric |
| EnumSuggestions.SymmetricStep | core/src/main/java/me/bristermitten/mittenlib/config/exception/InvalidEnumValueException.java:109-113 | a cell is symmetric when the three cells it is computed from are |
| EnumSuggestions.DistanceBounds | core/src/main/java/me/bristermitten/mittenlib/config/exception/InvalidEnumValueException.java:97-118 | the distance lies between the difference of the lengths and the larger length |
| EnumSuggestions.BoundsStep | core/src/main/java/me/bristermitten/mittenlib/config/exception/InvalidEnumValueException.java:109-113 | a cell keeps the bounds when the three cells it is computed from do |
| EnumSuggestions.FindClosestMatch | core/src/main/java/me/bristermitten/mittenlib/config/exception/InvalidEnumValueException.java:72-92 | the loop over the constants answers what the scan specifies, and nothing for an empty input |
| EnumSuggestions.ScanMeaning | core/src/main/java/me/bristermitten/mittenlib/config/exception/InvalidEnumValueException.java:80-89 | both directions: nothing is found exactly when no constant is close enough; otherwise the first close-enough constant at the least distance |
| EnumSuggestions.ClosestMatchExamples | core/src/main/java/me/bristermitten/mittenlib/config/exception/InvalidEnumValueException.java:73-75 | an empty input gets no suggestion, and a constant typed in another case is suggested |
| EnumSuggestions.ValidValues | core/src/main/java/me/bristermitten/mittenlib/config/exception/InvalidEnumValueException.java:27-29 | the list of valid values starts and ends with a quote |
| EnumSuggestions.ValidValuesQuotesEach | core/src/main/java/me/bristermitten/mittenlib/config/exception/InvalidEnumValueException.java:27-29 | for every list of constants, `Collectors.joining("', '", "'", "'")` gives each name in its own quotes, the quoted names separated by ", ", and two quotes alone for none |
| EnumSuggestions.SuggestionMeaning | core/src/main/java/me/bristermitten/mittenlib/config/exception/InvalidEnumValueException.java:32-36 | the suggestion line is empty exactly when no match was found, and otherwise ends with the match in quotes |
| EnumSuggestions.ValidValuesExamples | core/src/main/java/me/bristermitten/mittenlib/config/exception/InvalidEnumValueException.java:27-29 | no constants give two quotes, one constant is quoted alone, and two are separated by "', '" |

## Left out

- File I/O, YAML and JSON readers and writers, config providers, file watching, Bukkit, GUIs, language services and Guice wiring are outside the core and are not modelled.
- The `javax.lang.model` queries (elements, type mirrors, annotation lookups) are inputs. The abstract schema in `config_asts.dfy` and the type descriptions in `types_util.dfy` stand in for them.
- JavaPoet output text is not modelled: formatting, imports, Javadoc, `$S` escaping and every annotation other than `@Override` and `@Contract(pure = true)`. Statements are kept as the strings the generator puts together.
- Floating-point payloads of `DataTree` float literals are opaque values. Long truncation of non-`Double` numbers is modelled as a value of the 64-bit range, given as input.
- EnumSuggestions.FindClosestMatch: the test `distance <= length * 0.3` is done in double arithmetic and is modelled as the integer test `10 * distance <= 3 * length`, an approximation. Case mapping is ASCII only. `LevenshteinDistance` compares Dafny characters, while `charAt` compares UTF-16 code units, so the distance differs on text outside the Basic Multilingual Plane.
- EnumSuggestions.SuggestionText: the box-drawing frame, emoji and line breaks of the message are left out. Only the list of valid values and the suggestion are modelled.
- `NamingPatternTransformer` calls `Strings.uncapitalize`, which `Strings.java` does not define (it has only `capitalize` and `joinWith`). The model takes it to lower-case the first character (`Strings.Uncapitalize`).
- `ConfigurationClassNameGenerator.translateConfigClassName`, called by the code generators, is a name lookup whose results (union and constructor class names) the model takes as parameters. Only the `TypeName` overload of `getDeserializeMethodName` is modelled.
- TypeRegistry.DtoReferenceMessage: `getByName` collects the matching DTO types with `Collectors.toSet()`, whose iteration order is unspecified, so the order of the "any of" list is too. The model lists the matches in registration order.
- ImmutableSets.IteratorRemove: the model works on values and answers the union's new value. In Java the removal changes the wrapped `HashSet` in place, so every other holder of that `SetN` sees the change too; that aliasing is not modelled.
- `toPrettyString`, the Kotlin extension `DTOReferenceException` uses to describe a type or element, is the parameter `pretty`.
- Strings.ToUpper: ASCII letters only. Java's `Character.toUpperCase` also maps non-ASCII letters; the model leaves every other character unchanged.
- Strings.ToLower: ASCII letters only, for the same reason as `Strings.ToUpper`.
- Strings.LowerCase: ASCII only. `String.toLowerCase` uses the default locale and the full Unicode tables, which can change a string's length; the model maps each ASCII capital and keeps the length.
- Strings.Capitalize: inherits the ASCII-only `Strings.ToUpper` for the first character.
- Strings.Uncapitalize: inherits the ASCII-only `Strings.ToLower` for the first character.
- The members built on these, `NamingPatterns.Format`, the field-name and accessor-name functions in `FieldNames` and `MethodNames`, and `EnumSuggestions.FindClosestMatch`, inherit the ASCII-only case mapping.
- ImmutableSets.OfElements, ImmutableSets.OfAll and ImmutableMaps.Plus: these copy into a `HashSet`, whose iteration order Java leaves unspecified. The model fixes it as first-insertion order, so the order in which the resulting set or map iterates is an abstraction. The lemmas about them (`OfElementsMeaning`, `OfAllMeaning`, `PlusMembers`) state members, sizes and distinctness, which do not depend on that order.
- Deserialization functions passed to the collection helpers are total functions returning a `Result`. A function that throws is not modelled.
- `Sets.of()` with no arguments constructs `SetImpls.Set0`, a class that `SetImpls` does not declare (it declares `Set1`, `Set2`, `Set3` and `SetN`). The model gives it an empty set class, `Set0`, with nothing in it.
- `CodeGenMonad`, the deprecated `ControlFlowBuilder` and `ControlFlowBodyBuilder` of `CodeGenDSL`, and `getMethodBuilder`/`unwrap` are left out. The last two hand out the underlying builder, which would alias it. The no-argument `CodeGenBuilder` constructor and plain getters are left out too.
- ConfigImpls.EmitInto: after a failure the contract states only that a failure is reported, not what the builder already holds.
- ConfigImpls.WithCallFitsConstructor and ConfigImpls.SuperCallFitsParentConstructor state the argument counts and order. Per-argument types are left to the contracts of the component functions.
- ConfigImpl's deserialization and serialization methods, `equals`/`hashCode` generation, the `@GeneratedConfig`/`@Generated` annotations and the serialization warnings and errors are left out.
- The type validation in `handleGenericType` that goes through the annotation-processing toolkit is left out. The plan fails with the same exception for an unexpected generic type.
- Scopes.Scope.DeclareAnonymous: the `int` counter is unbounded, so its wrap-around after 2^31 names is not modelled.
- ImmutableMaps.CopyWith: the branch for a map that is not an `MLImmutableMap` (copy through `Sets.ofAll`) is not modelled. Only `plus` is.
- The null checks of the entry forms of `Maps.of` (entries and collections) are not modelled: entries are values with a key and a value.
- `Map0` and `MapN` inherit `AbstractMap.equals`. The model compares entry sets for every class.
- `contains(null)` on the small sets throws a `NullPointerException`. Elements are values with no `null`, so this is not modelled.
- `hashCode` values other than `MLEntry`'s are not modelled, and neither is Java serialization.
- `Version.getServerVersion` reads the Bukkit server. It is left out, and so is the table of known versions.
- Caching.Cached: concurrency is not modelled. The supplier is a sequence of the values its successive calls return.

## Findings

| source | as written | input that shows it | evidently intended | confidence | as-written member | corrected member |
|---|---|---|---|---|---|---|
| core/src/main/java/me/bristermitten/mittenlib/collections/Maps.java:54-67 | the three-pair `Maps.of` compares `k1` with `k2` and `k1` with `k3`, but never `k2` with `k3` | `of(k1, v1, k2, v2, k2, v3)` with `k1 != k2` and `v2 != v3`: a map of size 3 with a repeated key, whose `get(k2)` is `v2` | throw `IllegalArgumentException` for every repeated key, as the two-pair form does | not executed | ImmutableMaps.Of3AcceptsRepeatedKey | ImmutableMaps.Of3CheckedMeaning |
| core/src/main/java/me/bristermitten/mittenlib/collections/SetImpls.java:209 | `UnionOf` extends `AbstractSet`, not `MLImmutableSet`, so `remove` uses the collection default and asks the iterator from `Iterators.concat` to remove; for an element of a wrapped `HashSet` that iterator removes it | `Sets.union(Sets.ofAll(List.of(1, 2)), Sets.of(3)).remove(1)` answers `true`, removes 1 from the wrapped `HashSet` and leaves `size()` at 3 with two elements | a union that throws `UnsupportedOperationException` like the other immutable sets, as `Sets.union`'s documentation calls the result immutable | not executed | ImmutableSets.RemovedUnionIsInvalid | ImmutableSets.RemoveNeverRemoves |
