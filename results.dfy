/**
 * The `Result` monad of mittenlib's core utilities: the outcome of a
 * computation that either produced a value (`Ok`) or failed with an
 * exception (`Fail`). Every generated deserializer is a chain of these.
 *
 * Java `null` is `Option.None`; a Java lambda that may throw is a function
 * returning an `Outcome`.
 */
module Results {

  /** The exceptions the modelled code throws or carries inside a `Fail`. */
  datatype Exn =
    | IllegalArgument(message: string)
    | IllegalState(message: string)
    | NullPointer
    | NoSuchElement
    | UnsupportedOperation
    | ClassCast
    | MultipleFailures(message: string, causes: seq<Exn>)
    | PropertyNotFound(property: string, propertyType: string, configClass: string, key: string)
    | InvalidPropertyType(property: string, propertyType: string, configClass: string)
    | NoUnionMatch
    | Raised(kind: string, message: string)

  /** A nullable Java reference: `None` is `null`. */
  datatype Option<T> = None | Some(value: T)

  /** What calling a Java lambda produces: a value, or an exception it threw. */
  datatype Outcome<T> = Returned(value: T) | Threw(exn: Exn)

  datatype Result<T> = Ok(value: T) | Fail(error: Exn)
  {
    predicate IsSuccess() { Ok? }

    predicate IsFailure() { Fail? }

    /** `toOptional`: the value of an `Ok`, empty for a `Fail`. */
    function ToOptional(): Option<T>
    {
      match this
      case Ok(v) => Some(v)
      case Fail(_) => None
    }

    /** `error`: the exception of a `Fail`, empty for an `Ok`. */
    function Error(): Option<Exn>
    {
      match this
      case Ok(_) => None
      case Fail(e) => Some(e)
    }

    /** `orElse`: an `Ok` keeps itself, a `Fail` is replaced by what the supplier gives. */
    function OrElse(supplier: Result<T>): Result<T>
    {
      match this
      case Ok(_) => this
      case Fail(_) => supplier
    }

    /** `flatMap` with a function that may throw; a `Fail` is passed on without calling `f`. */
    function FlatMap<U>(f: T -> Outcome<Result<U>>): Result<U>
    {
      match this
      case Ok(v) => ComputeCatching(f(v))
      case Fail(e) => Fail(e)
    }

    /** `map` with a function that may throw; a `Fail` is passed on without calling `f`. */
    function Map<U>(f: T -> Outcome<U>): Result<U>
    {
      match this
      case Ok(v) => RunCatching(f(v))
      case Fail(e) => Fail(e)
    }

    /** `flatMapPure`: `flatMap` with a function that never throws. */
    function FlatMapPure<U>(f: T -> Result<U>): Result<U>
    {
      FlatMap(t => Returned(f(t)))
    }

    /** `getOrThrow`: the value of an `Ok`; a `Fail` throws its exception. */
    function GetOrThrow(): Outcome<T>
    {
      match this
      case Ok(v) => Returned(v)
      case Fail(e) => Threw(e)
    }

    function Handle<R>(onSuccess: T -> R, onFailure: Exn -> R): R
    {
      match this
      case Ok(v) => onSuccess(v)
      case Fail(e) => onFailure(e)
    }

    function Recover(onFailure: Exn -> T): T
    {
      match this
      case Ok(v) => v
      case Fail(e) => onFailure(e)
    }
  }

  /** `runCatching`: a returned value becomes `Ok`, a thrown exception `Fail`. */
  function RunCatching<T>(supplier: Outcome<T>): Result<T>
  {
    match supplier
    case Returned(v) => Ok(v)
    case Threw(e) => Fail(e)
  }

  /**
   * `computeCatching`: a returned `Fail` is passed on as it is, a returned `Ok`
   * is rebuilt from its value, and a thrown exception becomes `Fail`.
   */
  function ComputeCatching<T>(supplier: Outcome<Result<T>>): Result<T>
  {
    match supplier
    case Returned(r) => if r.Fail? then r else Ok(r.value)
    case Threw(e) => Fail(e)
  }

  /** The specification of `sequence`: the first failure, or all values in input order. */
  function Sequenced<T>(results: seq<Result<T>>): Result<seq<T>>
  {
    if |results| == 0 then Ok([])
    else match results[0]
      case Fail(e) => Fail(e)
      case Ok(v) =>
        match Sequenced(results[1..])
        case Fail(e) => Fail(e)
        case Ok(vs) => Ok([v] + vs)
  }

  /** The values of a sequence of results that are all `Ok`. */
  function Values<T>(results: seq<Result<T>>): (vs: seq<T>)
    requires forall i :: 0 <= i < |results| ==> results[i].Ok?
    ensures |vs| == |results|
    ensures forall i :: 0 <= i < |results| ==> results[i] == Ok(vs[i])
  {
    seq(|results|, i requires 0 <= i < |results| => results[i].value)
  }

  /** `sequence`: stops at the first `Fail`; otherwise collects every value, in order. */
  method Sequence<T>(results: seq<Result<T>>) returns (r: Result<seq<T>>)
    ensures r == Sequenced(results)
    ensures r.Ok? <==> forall i :: 0 <= i < |results| ==> results[i].Ok?
  {
    if |results| == 0 {
      return Ok([]);
    }
    var collection: seq<T> := [];
    var i := 0;
    while i < |results|
      invariant 0 <= i <= |results|
      invariant forall j :: 0 <= j < i ==> results[j].Ok?
      invariant collection == Values(results[..i])
    {
      match results[i]
      case Fail(e) =>
        SequencedFirstFail(results, i);
        return Fail(e);
      case Ok(v) =>
        assert Values(results[..i + 1]) == collection + [v];
        collection := collection + [v];
      i := i + 1;
    }
    assert results[..i] == results;
    SequencedAllOk(results);
    return Ok(collection);
  }

  // ---------------------------------------------------------------------
  // Properties
  // ---------------------------------------------------------------------

  /** `ok(v)` is a success and not a failure, and `getOrThrow` gives back `v`. */
  lemma OkIsSuccess<T>(v: T)
    ensures Ok(v).IsSuccess() && !Ok(v).IsFailure()
    ensures Ok(v).GetOrThrow() == Returned(v)
  {
  }

  /** Exactly one of `toOptional` and `error` is present, for every result. */
  lemma ExactlyOneSide<T>(r: Result<T>)
    ensures r.ToOptional().Some? != r.Error().Some?
    ensures r.ToOptional().Some? <==> r.IsSuccess()
  {
  }

  /** A failure passes through `flatMap` and `map` unchanged, whatever the function. */
  lemma FailShortCircuits<T, U>(e: Exn, f: T -> Outcome<Result<U>>, g: T -> Outcome<U>)
    ensures Fail(e).FlatMap(f) == Fail(e)
    ensures Fail(e).Map(g) == Fail(e)
  {
  }

  /** `Ok(v).flatMap(f)` is what `f(v)` returns, and a throw inside `f` becomes a `Fail`. */
  lemma OkFlatMap<T, U>(v: T, f: T -> Outcome<Result<U>>)
    ensures f(v).Returned? ==> Ok(v).FlatMap(f) == f(v).value
    ensures f(v).Threw? ==> Ok(v).FlatMap(f) == Fail(f(v).exn)
  {
  }

  /** The classes' `map` overrides agree with the interface's default `flatMap(t -> ok(f(t)))`. */
  lemma MapIsFlatMapOfOk<T, U>(r: Result<T>, f: T -> Outcome<U>)
    ensures r.Map(f) == r.FlatMap(t => match f(t) case Returned(u) => Returned(Ok(u)) case Threw(e) => Threw(e))
  {
  }

  /** `orElse` is left-biased. */
  lemma OrElseLeftBiased<T>(r: Result<T>, s: Result<T>)
    ensures r.Ok? ==> r.OrElse(s) == r
    ensures r.Fail? ==> r.OrElse(s) == s
  {
  }

  /** `handle` and `recover` take the success branch on `Ok`, the exception branch on `Fail`. */
  lemma HandleAndRecover<T, R>(r: Result<T>, onSuccess: T -> R, onFailure: Exn -> R, recover: Exn -> T)
    ensures r.Ok? ==> r.Handle(onSuccess, onFailure) == onSuccess(r.value) && r.Recover(recover) == r.value
    ensures r.Fail? ==> r.Handle(onSuccess, onFailure) == onFailure(r.error) && r.Recover(recover) == recover(r.error)
  {
  }

  /** Two `Ok`s are equal exactly when their payloads are. */
  lemma OkEquality<T>(a: T, b: T)
    ensures Ok(a) == Ok(b) <==> a == b
  {
  }

  /** The monad laws for the non-throwing `flatMapPure`. */
  lemma MonadLaws<T, U, W>(v: T, r: Result<T>, f: T -> Result<U>, g: U -> Result<W>)
    ensures Ok(v).FlatMapPure(f) == f(v)
    ensures r.FlatMapPure(x => Ok(x)) == r
    ensures r.FlatMapPure(f).FlatMapPure(g) == r.FlatMapPure(x => f(x).FlatMapPure(g))
  {
    if r.Ok? {
      var fv := f(r.value);
      if fv.Ok? {
        assert Ok(fv.value).FlatMapPure(g) == g(fv.value);
      }
    }
  }

  /** When every result is `Ok`, `sequence` gives all their values in order. */
  lemma {:induction false} SequencedAllOk<T>(results: seq<Result<T>>)
    requires forall i :: 0 <= i < |results| ==> results[i].Ok?
    ensures Sequenced(results) == Ok(Values(results))
  {
    if |results| > 0 {
      SequencedAllOk(results[1..]);
      assert Values(results) == [results[0].value] + Values(results[1..]);
    }
  }

  /** When `results[k]` is the first `Fail`, `sequence` returns exactly that failure. */
  lemma {:induction false} SequencedFirstFail<T>(results: seq<Result<T>>, k: nat)
    requires k < |results| && results[k].Fail?
    requires forall i :: 0 <= i < k ==> results[i].Ok?
    ensures Sequenced(results) == Fail(results[k].error)
  {
    if k > 0 {
      SequencedFirstFail(results[1..], k - 1);
    }
  }

  /** `sequence` succeeds exactly when every input does, and then it keeps one value per input. */
  lemma SequencedOkIff<T>(results: seq<Result<T>>)
    ensures Sequenced(results).Ok? <==> forall i :: 0 <= i < |results| ==> results[i].Ok?
    ensures Sequenced(results).Ok? ==> |Sequenced(results).value| == |results|
  {
    if forall i :: 0 <= i < |results| ==> results[i].Ok? {
      SequencedAllOk(results);
    } else {
      var k := FirstFailure(results);
      SequencedFirstFail(results, k);
    }
  }

  /** The index of the first `Fail` in a sequence that holds one. */
  function FirstFailure<T>(results: seq<Result<T>>): (k: nat)
    requires exists i :: 0 <= i < |results| && results[i].Fail?
    ensures k < |results| && results[k].Fail?
    ensures forall i :: 0 <= i < k ==> results[i].Ok?
  {
    if results[0].Fail? then 0 else 1 + FirstFailure(results[1..])
  }
}
