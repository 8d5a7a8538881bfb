/**
 * The annotation processor's own `CollectionsUtils`: lists and maps are
 * deserialized by folding `flatMap` over the elements, so the first failure
 * ends the work and is the result.
 *
 * The object mapper and the deserialization function are parameters; the
 * function is applied to the element the context is given.
 */
module ProcessorCollections {
  import opened Results
  import opened DataTrees

  // ---------------------------------------------------------------------
  // deserializeList
  // ---------------------------------------------------------------------

  /**
   * `res` after the loop has run over the first `n` elements:
   * `res = res.flatMap(list -> f(element).map(list::add))`.
   */
  function ListFold<T>(items: seq<Obj>, f: Obj -> Result<T>, n: nat): Result<seq<T>>
    requires n <= |items|
  {
    if n == 0 then Ok([])
    else ListFold(items, f, n - 1).FlatMapPure(list => f(items[n - 1]).FlatMapPure(t => Ok(list + [t])))
  }

  /** `deserializeList`: the mapper's failure is returned as it is, otherwise the fold over the mapped list. */
  function DeserializedList<T>(raw: Obj, f: Obj -> Result<T>, mapper: Obj -> Result<seq<Obj>>): Result<seq<T>>
  {
    mapper(raw).FlatMapPure(rawList => ListFold(rawList, f, |rawList|))
  }

  /** The elements the fold hands to `f`: every one up to and including the first that fails. */
  function Called<T>(items: seq<Obj>, f: Obj -> Result<T>, n: nat): seq<Obj>
    requires n <= |items|
  {
    if n == 0 then []
    else if ListFold(items, f, n - 1).Fail? then Called(items, f, n - 1)
    else Called(items, f, n - 1) + [items[n - 1]]
  }

  /** `deserializeList`, with its loop reassigning `res`; `calls` lists the elements passed to `f`. */
  method DeserializeList<T>(raw: Obj, f: Obj -> Result<T>, mapper: Obj -> Result<seq<Obj>>)
    returns (r: Result<seq<T>>, calls: seq<Obj>)
    ensures r == DeserializedList(raw, f, mapper)
    ensures mapper(raw).Fail? ==> calls == []
    ensures mapper(raw).Ok? ==> calls == Called(mapper(raw).value, f, |mapper(raw).value|)
  {
    var rawListRes := mapper(raw);
    if rawListRes.Fail? {
      return Fail(rawListRes.error), [];
    }
    var rawList := rawListRes.value;
    var res: Result<seq<T>> := Ok([]);
    calls := [];
    for i := 0 to |rawList|
      invariant res == ListFold(rawList, f, i)
      invariant calls == Called(rawList, f, i)
    {
      if res.Ok? {
        var list := res.value;
        var element := f(rawList[i]);
        calls := calls + [rawList[i]];
        res := if element.Fail? then Fail(element.error) else Ok(list + [element.value]);
      }
    }
    r := res;
  }

  /** The fold fails exactly when some element does, with the error of the first one that does. */
  lemma {:induction false} ListFoldFirstFailure<T>(items: seq<Obj>, f: Obj -> Result<T>, n: nat, k: nat)
    requires k < n <= |items|
    requires forall i :: 0 <= i < k ==> f(items[i]).Ok?
    requires f(items[k]).Fail?
    ensures ListFold(items, f, n) == Fail(f(items[k]).error)
  {
    if n - 1 > k {
      ListFoldFirstFailure(items, f, n - 1, k);
    } else {
      ListFoldAllOk(items, f, k);
    }
  }

  /** With no failure, the fold gives every element's value, in order. */
  lemma {:induction false} ListFoldAllOk<T>(items: seq<Obj>, f: Obj -> Result<T>, n: nat)
    requires n <= |items|
    requires forall i :: 0 <= i < n ==> f(items[i]).Ok?
    ensures ListFold(items, f, n).Ok?
    ensures |ListFold(items, f, n).value| == n
    ensures forall i :: 0 <= i < n ==> ListFold(items, f, n).value[i] == f(items[i]).value
  {
    if n > 0 {
      ListFoldAllOk(items, f, n - 1);
    }
  }

  /** The fold is `Result.sequence` over the elements' results. */
  lemma {:induction false} ListFoldIsSequence<T>(items: seq<Obj>, f: Obj -> Result<T>)
    ensures ListFold(items, f, |items|) == Sequenced(seq(|items|, i requires 0 <= i < |items| => f(items[i])))
  {
    var rs := seq(|items|, i requires 0 <= i < |items| => f(items[i]));
    assert forall i :: 0 <= i < |items| ==> rs[i] == f(items[i]);
    if forall i :: 0 <= i < |rs| ==> rs[i].Ok? {
      ListFoldAllOk(items, f, |items|);
      SequencedAllOk(rs);
      var vs := ListFold(items, f, |items|).value;
      assert |vs| == |Values(rs)|;
      assert forall i :: 0 <= i < |vs| ==> vs[i] == Values(rs)[i];
      assert vs == Values(rs);
    } else {
      var k := FirstFailure(rs);
      ListFoldFirstFailure(items, f, |items|, k);
      SequencedFirstFail(rs, k);
    }
  }

  /** After the first failure, no later element is deserialized. */
  lemma {:induction false} FailFast<T>(items: seq<Obj>, f: Obj -> Result<T>, n: nat, k: nat)
    requires k < n <= |items|
    requires forall i :: 0 <= i < k ==> f(items[i]).Ok?
    requires f(items[k]).Fail?
    ensures Called(items, f, n) == items[..k + 1]
  {
    if n - 1 > k {
      FailFast(items, f, n - 1, k);
      ListFoldFirstFailure(items, f, n - 1, k);
    } else {
      CalledAllOk(items, f, k);
      ListFoldAllOk(items, f, k);
      assert items[..k] + [items[k]] == items[..k + 1];
    }
  }

  /** Without a failure, every element is deserialized once, in order. */
  lemma {:induction false} CalledAllOk<T>(items: seq<Obj>, f: Obj -> Result<T>, n: nat)
    requires n <= |items|
    requires forall i :: 0 <= i < n ==> f(items[i]).Ok?
    ensures Called(items, f, n) == items[..n]
  {
    if n > 0 {
      CalledAllOk(items, f, n - 1);
      ListFoldAllOk(items, f, n - 1);
      assert items[..n - 1] + [items[n - 1]] == items[..n];
    }
  }

  // ---------------------------------------------------------------------
  // deserializeMap
  // ---------------------------------------------------------------------

  /** `res` after the loop has run over the first `n` entries: each value is put under its key. */
  function MapFold<K, V>(entries: seq<(K, Obj)>, f: Obj -> Result<V>, n: nat): Result<map<K, V>>
    requires n <= |entries|
  {
    if n == 0 then Ok(map[])
    else MapFold(entries, f, n - 1).FlatMapPure(m => f(entries[n - 1].1).FlatMapPure(v => Ok(m[entries[n - 1].0 := v])))
  }

  function DeserializedMap<K, V>(raw: Obj, f: Obj -> Result<V>, mapper: Obj -> Result<seq<(K, Obj)>>): Result<map<K, V>>
  {
    mapper(raw).FlatMapPure(rawMap => MapFold(rawMap, f, |rawMap|))
  }

  /** `deserializeMap`, with its loop reassigning `res`. */
  method DeserializeMap<K, V>(raw: Obj, f: Obj -> Result<V>, mapper: Obj -> Result<seq<(K, Obj)>>)
    returns (r: Result<map<K, V>>)
    ensures r == DeserializedMap(raw, f, mapper)
  {
    var rawMapRes := mapper(raw);
    if rawMapRes.Fail? {
      return Fail(rawMapRes.error);
    }
    var rawMap := rawMapRes.value;
    var res: Result<map<K, V>> := Ok(map[]);
    for i := 0 to |rawMap|
      invariant res == MapFold(rawMap, f, i)
    {
      if res.Ok? {
        var m := res.value;
        var value := f(rawMap[i].1);
        res := if value.Fail? then Fail(value.error) else Ok(m[rawMap[i].0 := value.value]);
      }
    }
    r := res;
  }

  /** The map fold fails with the first failing value's error. */
  lemma {:induction false} MapFoldFirstFailure<K, V>(entries: seq<(K, Obj)>, f: Obj -> Result<V>, n: nat, k: nat)
    requires k < n <= |entries|
    requires forall i :: 0 <= i < k ==> f(entries[i].1).Ok?
    requires f(entries[k].1).Fail?
    ensures MapFold(entries, f, n) == Fail(f(entries[k].1).error)
  {
    if n - 1 > k {
      MapFoldFirstFailure(entries, f, n - 1, k);
    } else {
      MapFoldAllOk(entries, f, k);
    }
  }

  /** With no failure, every key maps to the value of its entry (a later entry with the same key wins). */
  lemma {:induction false} MapFoldAllOk<K, V>(entries: seq<(K, Obj)>, f: Obj -> Result<V>, n: nat)
    requires n <= |entries|
    requires forall i :: 0 <= i < n ==> f(entries[i].1).Ok?
    ensures MapFold(entries, f, n).Ok?
    ensures forall k :: k in MapFold(entries, f, n).value <==> exists i :: 0 <= i < n && entries[i].0 == k
    ensures forall i :: 0 <= i < n && (forall j :: i < j < n ==> entries[j].0 != entries[i].0) ==>
              MapFold(entries, f, n).value[entries[i].0] == f(entries[i].1).value
  {
    if n > 0 {
      MapFoldAllOk(entries, f, n - 1);
      var m := MapFold(entries, f, n - 1).value;
      var last := MapFold(entries, f, n).value;
      assert last == m[entries[n - 1].0 := f(entries[n - 1].1).value];
      forall k
        ensures k in last <==> exists i :: 0 <= i < n && entries[i].0 == k
      {
        if k == entries[n - 1].0 {
          assert entries[n - 1].0 == k;
        }
      }
    }
  }
}
