/**
 * `DeserializationMethodBuilder`: strategies that each write some code into
 * a method and say whether they handled the case, tried in the order they
 * were added until one does, with an optional fallback for when none does.
 * A strategy is modelled by what it writes when tried and by its answer.
 */
module DeserializationMethodBuilders {
  import opened Results
  import opened CodeBuilders
  import opened Sequences

  /** A `DeserializationStrategy`: the code `tryHandle` adds, and whether it returns true. */
  datatype Strategy = Strategy(emits: seq<Event>, handles: bool)

  /** The code written by trying `ss` in order, stopping after the first that handles the case. */
  function Tried(ss: seq<Strategy>): seq<Event>
  {
    if |ss| == 0 then []
    else ss[0].emits + (if ss[0].handles then [] else Tried(ss[1..]))
  }

  predicate Handled(ss: seq<Strategy>)
  {
    exists i :: 0 <= i < |ss| && ss[i].handles
  }

  /** Everything each of `ss` writes, in order. */
  function AllEmits(ss: seq<Strategy>): seq<Event>
  {
    if |ss| == 0 then [] else ss[0].emits + AllEmits(ss[1..])
  }

  lemma {:induction false} AllEmitsAppend(a: seq<Strategy>, b: seq<Strategy>)
    ensures AllEmits(a + b) == AllEmits(a) + AllEmits(b)
  {
    if |a| == 0 {
      assert a + b == b;
    } else {
      assert (a + b)[1..] == a[1..] + b;
      AllEmitsAppend(a[1..], b);
    }
  }

  /** How many strategies are tried: up to and including the first that handles the case, or all of them. */
  function TriedCount(ss: seq<Strategy>): (n: nat)
    ensures n <= |ss|
  {
    if |ss| == 0 then 0 else if ss[0].handles then 1 else 1 + TriedCount(ss[1..])
  }

  /** What trying the strategies writes is what the ones tried, a prefix, write in order. */
  lemma {:induction false} TriedPrefix(ss: seq<Strategy>)
    ensures Tried(ss) == AllEmits(ss[..TriedCount(ss)])
  {
    if |ss| > 0 {
      TriedPrefix(ss[1..]);
      if ss[0].handles {
        assert ss[..1] == [ss[0]];
        assert AllEmits([ss[0]]) == ss[0].emits + AllEmits([]);
      } else {
        var n := TriedCount(ss[1..]);
        assert ss[..1 + n][1..] == ss[1..][..n];
      }
    }
  }

  /**
   * The strategies tried stop at the first that handles the case: every one
   * before the last tried declined, the last tried handled the case unless
   * all were tried.
   */
  lemma {:induction false} TriedCountMeaning(ss: seq<Strategy>)
    ensures forall j :: 0 <= j < TriedCount(ss) - 1 ==> !ss[j].handles
    ensures Handled(ss) <==> TriedCount(ss) > 0 && ss[TriedCount(ss) - 1].handles
    ensures !Handled(ss) ==> TriedCount(ss) == |ss|
  {
    if |ss| > 0 && !ss[0].handles {
      TriedCountMeaning(ss[1..]);
      if Handled(ss) {
        var i :| 0 <= i < |ss| && ss[i].handles;
        assert ss[1..][i - 1].handles;
      }
      if Handled(ss[1..]) {
        var i :| 0 <= i < |ss[1..]| && ss[1..][i].handles;
        assert ss[i + 1].handles;
      }
      assert forall j :: 0 < j < |ss| ==> ss[j] == ss[1..][j - 1];
    }
  }

  /** Trying one more strategy writes its code after what the earlier ones wrote. */
  lemma AllEmitsSnoc(ss: seq<Strategy>, i: nat)
    requires i < |ss|
    ensures AllEmits(ss[..i + 1]) == AllEmits(ss[..i]) + ss[i].emits
  {
    AllEmitsAppend(ss[..i], [ss[i]]);
    assert ss[..i + 1] == ss[..i] + [ss[i]];
    assert AllEmits([ss[i]]) == ss[i].emits + AllEmits([]);
  }

  /** When the first strategy to handle the case is the one at `i`, trying writes the code of the first `i + 1`. */
  lemma {:induction false} TriedUpTo(ss: seq<Strategy>, i: nat)
    requires i < |ss| && ss[i].handles
    requires forall j :: 0 <= j < i ==> !ss[j].handles
    ensures Handled(ss) && Tried(ss) == AllEmits(ss[..i + 1])
  {
    if i == 0 {
      assert ss[..1] == [ss[0]];
      assert AllEmits([ss[0]]) == ss[0].emits + AllEmits([]);
    } else {
      assert ss[1..][i - 1] == ss[i];
      TriedUpTo(ss[1..], i - 1);
      assert ss[..i + 1][1..] == ss[1..][..i];
    }
  }

  /** When no strategy handles the case, all of them are tried. */
  lemma {:induction false} TriedAll(ss: seq<Strategy>)
    requires forall j :: 0 <= j < |ss| ==> !ss[j].handles
    ensures !Handled(ss) && Tried(ss) == AllEmits(ss)
  {
    if |ss| > 0 {
      assert forall j :: 0 <= j < |ss[1..]| ==> ss[1..][j] == ss[j + 1];
      TriedAll(ss[1..]);
    }
  }

  /** Adding a strategy after one that handles the case changes nothing that is written. */
  lemma {:induction false} LaterStrategiesIgnored(ss: seq<Strategy>, s: Strategy)
    requires Handled(ss)
    ensures Tried(ss + [s]) == Tried(ss)
  {
    var i :| 0 <= i < |ss| && ss[i].handles;
    if !ss[0].handles {
      assert (ss + [s])[1..] == ss[1..] + [s];
      assert ss[1..][i - 1].handles;
      LaterStrategiesIgnored(ss[1..], s);
    }
  }

  class DeserializationMethodBuilder {
    const methodBuilder: CodeBlockBuilder
    var strategies: seq<Strategy>
    var built: bool

    constructor(methodBuilder: CodeBlockBuilder)
      ensures this.methodBuilder == methodBuilder && strategies == [] && !built
    {
      this.methodBuilder := methodBuilder;
      strategies := [];
      built := false;
    }

    /** `tryStrategy`: queued at the end; after a terminal call it throws. */
    method TryStrategy(strategy: Strategy) returns (r: Result<()>)
      modifies this
      ensures built == old(built)
      ensures old(built) ==> r == Fail(IllegalState("Cannot add strategies after building")) && strategies == old(strategies)
      ensures !old(built) ==> r == Ok(()) && strategies == old(strategies) + [strategy]
    {
      if built {
        return Fail(IllegalState("Cannot add strategies after building"));
      }
      strategies := strategies + [strategy];
      r := Ok(());
    }

    /** The loop shared by `orElse` and `build`: the strategies in order, up to the first that handles the case. */
    method RunStrategies() returns (handled: bool)
      modifies methodBuilder
      ensures handled == Handled(strategies)
      ensures methodBuilder.events == old(methodBuilder.events) + Tried(strategies)
    {
      var ss := strategies;
      ghost var before := methodBuilder.events;
      var i := 0;
      while i < |ss|
        invariant 0 <= i <= |ss|
        invariant forall j :: 0 <= j < i ==> !ss[j].handles
        invariant methodBuilder.events == before + AllEmits(ss[..i])
      {
        AllEmitsSnoc(ss, i);
        AppendAssoc(before, AllEmits(ss[..i]), ss[i].emits);
        methodBuilder.EmitAll(ss[i].emits);
        if ss[i].handles {
          TriedUpTo(ss, i);
          return true;
        }
        i := i + 1;
      }
      TriedAll(ss);
      assert ss[..i] == ss;
      return false;
    }

    /** `orElse`: a terminal call; the fallback's code is written exactly when no strategy handled the case. */
    method OrElse(fallback: seq<Event>) returns (r: Result<()>)
      modifies this, methodBuilder
      ensures built && strategies == old(strategies)
      ensures old(built) ==> r == Fail(IllegalState("Method already built")) && methodBuilder.events == old(methodBuilder.events)
      ensures !old(built) ==>
                r == Ok(()) &&
                methodBuilder.events == old(methodBuilder.events) + Tried(strategies) + (if Handled(strategies) then [] else fallback)
    {
      if built {
        return Fail(IllegalState("Method already built"));
      }
      built := true;
      var handled := RunStrategies();
      if !handled {
        methodBuilder.EmitAll(fallback);
      }
      r := Ok(());
    }

    /** `build`: a terminal call that tries the strategies with no fallback. */
    method Build() returns (r: Result<()>)
      modifies this, methodBuilder
      ensures built && strategies == old(strategies)
      ensures old(built) ==> r == Fail(IllegalState("Method already built")) && methodBuilder.events == old(methodBuilder.events)
      ensures !old(built) ==> r == Ok(()) && methodBuilder.events == old(methodBuilder.events) + Tried(strategies)
    {
      if built {
        return Fail(IllegalState("Method already built"));
      }
      built := true;
      var handled := RunStrategies();
      r := Ok(());
    }
  }

  /** After a terminal call the builder is closed: a second terminal call and a new strategy both throw. */
  method ClosedAfterBuild(b: DeserializationMethodBuilder, s: Strategy, fallback: seq<Event>)
    returns (first: Result<()>, second: Result<()>, added: Result<()>)
    requires !b.built
    modifies b, b.methodBuilder
    ensures first == Ok(())
    ensures second == Fail(IllegalState("Method already built"))
    ensures added == Fail(IllegalState("Cannot add strategies after building"))
    ensures b.methodBuilder.events == old(b.methodBuilder.events) + Tried(old(b.strategies))
  {
    first := b.Build();
    second := b.OrElse(fallback);
    added := b.TryStrategy(s);
  }
}
