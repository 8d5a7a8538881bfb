/**
 * The runtime `CollectionsUtils` that generated configuration classes call to
 * deserialize a `List` or a `Map` property. Every element is deserialized and
 * all the errors are gathered into one `MultipleFailuresException`.
 *
 * The deserialization function is applied to the data of the context it is
 * given, modelled as the element itself. The object mapper that the fallback
 * path consults is a parameter.
 */
module ConfigCollections {
  import opened Results
  import opened DataTrees
  import opened Sequences

  // ---------------------------------------------------------------------
  // Gathering results
  // ---------------------------------------------------------------------

  /** The `errors` list: the error of every failed result, in order. */
  function Errors<T>(rs: seq<Result<T>>): seq<Exn>
  {
    if |rs| == 0 then []
    else Errors(rs[..|rs| - 1]) + (if rs[|rs| - 1].Fail? then [rs[|rs| - 1].error] else [])
  }

  /** The `res` list: the value of every successful result, in order. */
  function Successes<T>(rs: seq<Result<T>>): seq<T>
  {
    if |rs| == 0 then []
    else Successes(rs[..|rs| - 1]) + (if rs[|rs| - 1].Ok? then [rs[|rs| - 1].value] else [])
  }

  /** Errors from consecutive runs of results are the errors of each run, one after the other. */
  lemma {:induction false} ErrorsConcat<T>(a: seq<Result<T>>, b: seq<Result<T>>)
    ensures Errors(a + b) == Errors(a) + Errors(b)
    decreases |b|
  {
    if |b| > 0 {
      assert (a + b)[..|a + b| - 1] == a + b[..|b| - 1];
      ErrorsConcat(a, b[..|b| - 1]);
    } else {
      assert a + b == a;
    }
  }

  lemma {:induction false} SuccessesConcat<T>(a: seq<Result<T>>, b: seq<Result<T>>)
    ensures Successes(a + b) == Successes(a) + Successes(b)
    decreases |b|
  {
    if |b| > 0 {
      assert (a + b)[..|a + b| - 1] == a + b[..|b| - 1];
      SuccessesConcat(a, b[..|b| - 1]);
    } else {
      assert a + b == a;
    }
  }

  /** Every result lands in exactly one of the two lists. */
  lemma {:induction false} ErrorsAndSuccessesPartition<T>(rs: seq<Result<T>>)
    ensures |Errors(rs)| + |Successes(rs)| == |rs|
    ensures |Errors(rs)| == 0 <==> forall i :: 0 <= i < |rs| ==> rs[i].Ok?
  {
    if |rs| > 0 {
      ErrorsAndSuccessesPartition(rs[..|rs| - 1]);
      assert forall i :: 0 <= i < |rs| - 1 ==> rs[..|rs| - 1][i] == rs[i];
    }
  }

  /** With no error, the values are those of the results, one per result and in order. */
  lemma {:induction false} SuccessesOfAllOk<T>(rs: seq<Result<T>>)
    requires forall i :: 0 <= i < |rs| ==> rs[i].Ok?
    ensures Successes(rs) == Values(rs)
  {
    if |rs| > 0 {
      SuccessesOfAllOk(rs[..|rs| - 1]);
      assert Values(rs) == Values(rs[..|rs| - 1]) + [rs[|rs| - 1].value];
    }
  }

  /** The error list holds exactly the errors of the failed results: each one comes from some failed result. */
  lemma {:induction false} ErrorsComeFromFailures<T>(rs: seq<Result<T>>)
    ensures forall e :: e in Errors(rs) ==> exists i :: 0 <= i < |rs| && rs[i] == Fail(e)
  {
    if |rs| > 0 {
      var init := rs[..|rs| - 1];
      ErrorsComeFromFailures(init);
      forall e | e in Errors(rs)
        ensures exists i :: 0 <= i < |rs| && rs[i] == Fail(e)
      {
        if e in Errors(init) {
          var i :| 0 <= i < |init| && init[i] == Fail(e);
          assert rs[i] == Fail(e);
        } else {
          assert rs[|rs| - 1] == Fail(e);
        }
      }
    }
  }

  /** One failure among the results: its error is in the list. */
  lemma {:induction false} FailureIsReported<T>(rs: seq<Result<T>>, k: nat)
    requires k < |rs| && rs[k].Fail?
    ensures rs[k].error in Errors(rs)
  {
    assert rs == rs[..k] + [rs[k]] + rs[k + 1..];
    ErrorsConcat(rs[..k] + [rs[k]], rs[k + 1..]);
    ErrorsConcat(rs[..k], [rs[k]]);
    assert Errors([rs[k]]) == Errors([rs[k]][..0]) + [rs[k].error];
  }

  /**
   * The outcome of the loop and the check after it: one failure carrying all
   * the errors when there is any, otherwise the values.
   */
  function Aggregated<T>(rs: seq<Result<T>>, message: string): Result<seq<T>>
  {
    var errors := Errors(rs);
    if |errors| > 0 then Fail(MultipleFailures(message, errors)) else Ok(Successes(rs))
  }

  /** The aggregate fails exactly when one result does; it then reports every error, otherwise every value. */
  lemma AggregatedMeaning<T>(rs: seq<Result<T>>, message: string)
    ensures Aggregated(rs, message).Fail? <==> exists i :: 0 <= i < |rs| && rs[i].Fail?
    ensures Aggregated(rs, message).Fail? ==> Aggregated(rs, message).error == MultipleFailures(message, Errors(rs))
    ensures Aggregated(rs, message).Ok? ==> Aggregated(rs, message).value == Values(rs)
  {
    ErrorsAndSuccessesPartition(rs);
    if forall i :: 0 <= i < |rs| ==> rs[i].Ok? {
      SuccessesOfAllOk(rs);
    }
  }

  // ---------------------------------------------------------------------
  // deserializeList
  // ---------------------------------------------------------------------

  /** An element survives the implicit cast to `DataTree`: it is a `DataTree` or `null`. */
  predicate Castable(x: Obj)
  {
    x.JTree? || x.JNull?
  }

  /** How many leading elements pass the cast before the first one that does not. */
  function CastablePrefix(items: seq<Obj>): (n: nat)
    ensures n <= |items|
    ensures forall i :: 0 <= i < n ==> Castable(items[i])
    ensures n < |items| ==> !Castable(items[n])
  {
    if |items| == 0 || !Castable(items[0]) then 0 else 1 + CastablePrefix(items[1..])
  }

  /** The DataTrees the object mapper returned, as the list elements the loop reads. */
  function Trees(ts: seq<DataTree>): (xs: seq<Obj>)
    ensures |xs| == |ts|
    ensures forall i :: 0 <= i < |ts| ==> xs[i] == JTree(ts[i])
  {
    seq(|ts|, i requires 0 <= i < |ts| => JTree(ts[i]))
  }

  /**
   * `deserialiseListFrom(rawList, ...)`: every element is deserialized, then
   * the results are aggregated; an element that is not a `DataTree` raises a
   * `ClassCastException` from the loop.
   */
  function ListFrom<T>(rawList: seq<Obj>, f: Obj -> Result<T>): Outcome<Result<seq<T>>>
  {
    if CastablePrefix(rawList) < |rawList| then Threw(ClassCast)
    else Returned(Aggregated(Mapped(rawList, f), "Failed to deserialize list"))
  }

  /**
   * `deserializeList(rawData, ...)`: first a blind cast to a list of trees; a
   * `ClassCastException` (the data is no list, or an element is no tree) falls
   * back to the object mapper, whose failure is returned as it is. A `null`
   * list passes the cast and then fails the loop with a `NullPointerException`,
   * which nothing catches.
   */
  function DeserializedList<T>(raw: Obj, f: Obj -> Result<T>, mapper: Obj -> Result<seq<DataTree>>): Outcome<Result<seq<T>>>
  {
    if raw.JNull? then Threw(NullPointer)
    else if raw.JList? && ListFrom(raw.items, f).Returned? then ListFrom(raw.items, f)
    else
      match mapper(raw)
      case Fail(e) => Returned(Fail(e))
      case Ok(trees) => ListFrom(Trees(trees), f)
  }

  /** The elements the direct attempt hands to the deserialization function before giving up or finishing. */
  function DirectCalls(raw: Obj): seq<Obj>
  {
    if raw.JList? then raw.items[..CastablePrefix(raw.items)] else []
  }

  /** `deserialiseListFrom`: its loop, which deserializes every element; `calls` lists the elements passed to `f`. */
  method DeserialiseListFrom<T>(rawList: seq<Obj>, f: Obj -> Result<T>) returns (r: Outcome<Result<seq<T>>>, calls: seq<Obj>)
    ensures r == ListFrom(rawList, f)
    ensures calls == rawList[..CastablePrefix(rawList)]
  {
    var res: seq<T> := [];
    var errors: seq<Exn> := [];
    calls := [];
    ghost var rs := Mapped(rawList, f);
    var i := 0;
    while i < |rawList|
      invariant 0 <= i <= |rawList|
      invariant forall j :: 0 <= j < i ==> Castable(rawList[j])
      invariant calls == rawList[..i]
      invariant errors == Errors(rs[..i])
      invariant res == Successes(rs[..i])
    {
      if !Castable(rawList[i]) {
        assert CastablePrefix(rawList) == i by { CastablePrefixAt(rawList, i); }
        return Threw(ClassCast), calls;
      }
      var deserialised := f(rawList[i]);
      calls := calls + [rawList[i]];
      assert rs[..i + 1] == rs[..i] + [deserialised];
      ErrorsConcat(rs[..i], [deserialised]);
      SuccessesConcat(rs[..i], [deserialised]);
      assert Errors([deserialised]) == Errors([deserialised][..0]) + (if deserialised.Fail? then [deserialised.error] else []);
      assert Successes([deserialised]) == Successes([deserialised][..0]) + (if deserialised.Ok? then [deserialised.value] else []);
      if deserialised.Fail? {
        errors := errors + [deserialised.error];
      }
      if deserialised.Ok? {
        res := res + [deserialised.value];
      }
      i := i + 1;
    }
    assert rs[..i] == rs;
    CastablePrefixAt(rawList, i);
    if |errors| > 0 {
      return Returned(Fail(MultipleFailures("Failed to deserialize list", errors))), calls;
    }
    return Returned(Ok(res)), calls;
  }

  /** The cast prefix is the first index that fails the cast, or the length when none does. */
  lemma {:induction false} CastablePrefixAt(items: seq<Obj>, n: nat)
    requires n <= |items|
    requires forall j :: 0 <= j < n ==> Castable(items[j])
    requires n < |items| ==> !Castable(items[n])
    ensures CastablePrefix(items) == n
  {
    if n > 0 {
      CastablePrefixAt(items[1..], n - 1);
    }
  }

  /** `deserializeList`, with the `try`/`catch` around the direct attempt and the mapper fallback. */
  method DeserializeList<T>(raw: Obj, f: Obj -> Result<T>, mapper: Obj -> Result<seq<DataTree>>)
    returns (r: Outcome<Result<seq<T>>>, calls: seq<Obj>)
    ensures r == DeserializedList(raw, f, mapper)
    ensures raw.JNull? ==> calls == []
    ensures raw.JList? && ListFrom(raw.items, f).Returned? ==> calls == raw.items
    ensures !raw.JNull? && mapper(raw).Ok? && !(raw.JList? && ListFrom(raw.items, f).Returned?) ==>
              calls == DirectCalls(raw) + Trees(mapper(raw).value)
    ensures !raw.JNull? && mapper(raw).Fail? && !(raw.JList? && ListFrom(raw.items, f).Returned?) ==>
              calls == DirectCalls(raw)
  {
    if raw.JNull? {
      return Threw(NullPointer), [];
    }
    calls := [];
    if raw.JList? {
      var attempt, direct := DeserialiseListFrom(raw.items, f);
      calls := direct;
      if attempt.Returned? {
        assert raw.items[..CastablePrefix(raw.items)] == raw.items;
        return attempt, calls;
      }
    }
    var rawListRes := mapper(raw);
    if rawListRes.Fail? {
      return Returned(Fail(rawListRes.error)), calls;
    }
    var fallback, mapped := DeserialiseListFrom(Trees(rawListRes.value), f);
    assert Trees(rawListRes.value)[..CastablePrefix(Trees(rawListRes.value))] == Trees(rawListRes.value) by {
      CastablePrefixAt(Trees(rawListRes.value), |rawListRes.value|);
    }
    r := fallback;
    calls := calls + mapped;
  }

  /** A list of trees never throws and never consults the mapper: every element is deserialized once, in order. */
  lemma TreeListIgnoresMapper<T>(ts: seq<DataTree>, f: Obj -> Result<T>, m1: Obj -> Result<seq<DataTree>>, m2: Obj -> Result<seq<DataTree>>)
    ensures DeserializedList(JList(Trees(ts)), f, m1) == DeserializedList(JList(Trees(ts)), f, m2)
    ensures DeserializedList(JList(Trees(ts)), f, m1) == Returned(Aggregated(Mapped(Trees(ts), f), "Failed to deserialize list"))
    ensures DirectCalls(JList(Trees(ts))) == Trees(ts)
  {
    CastablePrefixAt(Trees(ts), |ts|);
    assert Trees(ts)[..|ts|] == Trees(ts);
  }

  /** Data that is not a list is handed to the mapper, and a mapper failure is the answer. */
  lemma NonListUsesMapper<T>(raw: Obj, f: Obj -> Result<T>, mapper: Obj -> Result<seq<DataTree>>)
    requires !raw.JNull? && !raw.JList?
    ensures mapper(raw).Fail? ==> DeserializedList(raw, f, mapper) == Returned(Fail(mapper(raw).error))
    ensures mapper(raw).Ok? ==> DeserializedList(raw, f, mapper) == Returned(Aggregated(Mapped(Trees(mapper(raw).value), f), "Failed to deserialize list"))
  {
    if mapper(raw).Ok? {
      CastablePrefixAt(Trees(mapper(raw).value), |mapper(raw).value|);
    }
  }

  // ---------------------------------------------------------------------
  // deserializeMap
  // ---------------------------------------------------------------------

  /** The `HashMap` after the loop has put the values of the first `n` entries that deserialized. */
  function PutSuccesses<K, V>(entries: seq<(K, DataTree)>, rs: seq<Result<V>>, n: nat): map<K, V>
    requires |rs| == |entries| && n <= |entries|
  {
    if n == 0 then map[]
    else
      var m := PutSuccesses(entries, rs, n - 1);
      if rs[n - 1].Ok? then m[entries[n - 1].0 := rs[n - 1].value] else m
  }

  function EntryData<K>(entries: seq<(K, DataTree)>): (xs: seq<Obj>)
    ensures |xs| == |entries|
    ensures forall i :: 0 <= i < |entries| ==> xs[i] == JTree(entries[i].1)
  {
    seq(|entries|, i requires 0 <= i < |entries| => JTree(entries[i].1))
  }

  /** The lambda given to `flatMap`: every value is deserialized, then the results are aggregated. */
  function MapFrom<K, V>(rawMap: seq<(K, DataTree)>, f: Obj -> Result<V>): Result<map<K, V>>
  {
    var rs := Mapped(EntryData(rawMap), f);
    var errors := Errors(rs);
    if |errors| > 0 then Fail(MultipleFailures("Failed to deserialize map", errors))
    else Ok(PutSuccesses(rawMap, rs, |rawMap|))
  }

  /** `deserializeMap`: the mapper first turns the data into a map of trees; its failure is returned as it is. */
  function DeserializedMap<K, V>(raw: Obj, f: Obj -> Result<V>, mapper: Obj -> Result<seq<(K, DataTree)>>): Result<map<K, V>>
  {
    mapper(raw).FlatMapPure(rawMap => MapFrom(rawMap, f))
  }

  /** `deserializeMap`, with its loop over the entries of the mapped map. */
  method DeserializeMap<K, V>(raw: Obj, f: Obj -> Result<V>, mapper: Obj -> Result<seq<(K, DataTree)>>)
    returns (r: Result<map<K, V>>, calls: seq<Obj>)
    ensures r == DeserializedMap(raw, f, mapper)
    ensures mapper(raw).Fail? ==> calls == []
    ensures mapper(raw).Ok? ==> calls == EntryData(mapper(raw).value)
  {
    var rawMapRes := mapper(raw);
    if rawMapRes.Fail? {
      return Fail(rawMapRes.error), [];
    }
    var rawMap := rawMapRes.value;
    ghost var rs := Mapped(EntryData(rawMap), f);
    var res: map<K, V> := map[];
    var errors: seq<Exn> := [];
    calls := [];
    var i := 0;
    while i < |rawMap|
      invariant 0 <= i <= |rawMap|
      invariant calls == EntryData(rawMap)[..i]
      invariant errors == Errors(rs[..i])
      invariant res == PutSuccesses(rawMap, rs, i)
    {
      var deserialised := f(JTree(rawMap[i].1));
      calls := calls + [JTree(rawMap[i].1)];
      TakeSnoc(EntryData(rawMap), i);
      assert Errors(rs[..i + 1]) == Errors(rs[..i]) + (if deserialised.Fail? then [deserialised.error] else []) by {
        assert rs[..i + 1][..i] == rs[..i];
      }
      if deserialised.Fail? {
        errors := errors + [deserialised.error];
      }
      if deserialised.Ok? {
        res := res[rawMap[i].0 := deserialised.value];
      }
      i := i + 1;
    }
    TakeAll(rs);
    TakeAll(EntryData(rawMap));
    assert DeserializedMap(raw, f, mapper) == MapFrom(rawMap, f);
    if |errors| > 0 {
      return Fail(MultipleFailures("Failed to deserialize map", errors)), calls;
    }
    return Ok(res), calls;
  }

  /** Keys that appear once in the entries' order. */
  predicate DistinctKeys<K(==), V>(entries: seq<(K, V)>)
  {
    forall i, j :: 0 <= i < j < |entries| ==> entries[i].0 != entries[j].0
  }

  /** The built map holds exactly the keys of the entries that deserialized, each with its own value. */
  lemma {:induction false} PutSuccessesContents<K, V>(entries: seq<(K, DataTree)>, rs: seq<Result<V>>, n: nat)
    requires |rs| == |entries| && n <= |entries|
    requires DistinctKeys(entries)
    ensures forall i :: 0 <= i < n && rs[i].Ok? ==>
              entries[i].0 in PutSuccesses(entries, rs, n) && PutSuccesses(entries, rs, n)[entries[i].0] == rs[i].value
    ensures forall k :: k in PutSuccesses(entries, rs, n) ==> exists i :: 0 <= i < n && rs[i].Ok? && entries[i].0 == k
  {
    if n > 0 {
      PutSuccessesContents(entries, rs, n - 1);
    }
  }

  /** With distinct keys and no failure, each value is stored under its original key, and nothing else is stored. */
  lemma StoredUnderOriginalKey<K, V>(rawMap: seq<(K, DataTree)>, f: Obj -> Result<V>)
    requires DistinctKeys(rawMap)
    requires MapFrom(rawMap, f).Ok?
    ensures forall i :: 0 <= i < |rawMap| ==>
              f(JTree(rawMap[i].1)).Ok? && rawMap[i].0 in MapFrom(rawMap, f).value &&
              MapFrom(rawMap, f).value[rawMap[i].0] == f(JTree(rawMap[i].1)).value
    ensures forall k :: k in MapFrom(rawMap, f).value ==> exists i :: 0 <= i < |rawMap| && rawMap[i].0 == k
  {
    var rs := Mapped(EntryData(rawMap), f);
    ErrorsAndSuccessesPartition(rs);
    PutSuccessesContents(rawMap, rs, |rawMap|);
  }

  /** A map fails exactly when one of its values does, and then with every error. */
  lemma MapFailsWithAllErrors<K, V>(rawMap: seq<(K, DataTree)>, f: Obj -> Result<V>)
    ensures MapFrom(rawMap, f).Fail? <==> exists i :: 0 <= i < |rawMap| && f(JTree(rawMap[i].1)).Fail?
    ensures MapFrom(rawMap, f).Fail? ==>
      MapFrom(rawMap, f).error == MultipleFailures("Failed to deserialize map", Errors(Mapped(EntryData(rawMap), f)))
  {
    var rs := Mapped(EntryData(rawMap), f);
    ErrorsAndSuccessesPartition(rs);
  }
}
