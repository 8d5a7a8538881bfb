/**
 * `Cached`: a supplier that remembers the value it computed until it is
 * invalidated.
 *
 * The wrapped supplier may give a different value each time it is called, so
 * it is modelled as the value its n-th call returns (`null` is `None`).
 */
module Caching {
  import opened Results

  class Cached<T> {
    /** What the wrapped supplier returns on its n-th call, counting from 0. */
    const computeWith: nat -> Option<T>
    /** The cached value; `None` is `null`, meaning nothing is cached. */
    var t: Option<T>
    /** How many times the supplier has been called. */
    var computations: nat

    /** `new Cached(computeWith, eager)`: an eager cell calls the supplier at once, a lazy one waits for `get`. */
    constructor(computeWith: nat -> Option<T>, eager: bool)
      ensures this.computeWith == computeWith
      ensures eager ==> t == computeWith(0) && computations == 1
      ensures !eager ==> t == None && computations == 0
    {
      this.computeWith := computeWith;
      if eager {
        t := computeWith(0);
        computations := 1;
      } else {
        t := None;
        computations := 0;
      }
    }

    /** `invalidate`: forget the cached value; the next `get` recomputes it, lazily. */
    method Invalidate()
      modifies this
      ensures t == None && computations == old(computations)
    {
      t := None;
    }

    /** `update`: call the supplier and cache what it gives. */
    method Update()
      modifies this
      ensures t == computeWith(old(computations))
      ensures computations == old(computations) + 1
    {
      t := computeWith(computations);
      computations := computations + 1;
    }

    /**
     * `get`: the cached value when there is one, without calling the supplier;
     * otherwise the supplier is called once and its value cached and returned.
     */
    method Get() returns (r: Option<T>)
      modifies this
      ensures old(t).Some? ==> r == old(t) && t == old(t) && computations == old(computations)
      ensures old(t).None? ==> r == computeWith(old(computations)) && t == r && computations == old(computations) + 1
    {
      if t.None? {
        Update();
      }
      r := t;
    }
  }

  /** Two calls of `get` on a cell whose supplier never returns `null` call the supplier at most once and agree. */
  method GetTwice<T>(c: Cached<T>) returns (first: Option<T>, second: Option<T>)
    requires forall n :: c.computeWith(n).Some?
    modifies c
    ensures first == second && first.Some?
    ensures c.computations <= old(c.computations) + 1
  {
    first := c.Get();
    second := c.Get();
  }

  /** After `invalidate`, `get` computes afresh: the supplier's next value, not the old one. */
  method GetAfterInvalidate<T>(c: Cached<T>) returns (r: Option<T>)
    modifies c
    ensures r == c.computeWith(old(c.computations))
    ensures c.computations == old(c.computations) + 1
  {
    c.Invalidate();
    r := c.Get();
  }
}
