/** The generic object pool (internal/utils/pool.go): a stack of reset objects. The element
    type's Reset method is the function `reset`, and the Go zero value of the type is `zero`. */
module ObjectPool {

  /** The pool's items after Put(item): the reset item on top. */
  function Pushed<T>(items: seq<T>, reset: T -> T, item: T): (r: seq<T>)
    ensures |r| == |items| + 1 && r[..|items|] == items && r[|items|] == reset(item)
  {
    items + [reset(item)]
  }

  /** What Get returns and the items it leaves: the zero value and no change on an empty
      pool, otherwise the top item, removed. */
  function Popped<T>(items: seq<T>, zero: T): (r: (T, seq<T>))
    ensures items == [] ==> r == (zero, [])
    ensures items != [] ==> r.1 + [r.0] == items
  {
    if items == [] then (zero, []) else (items[|items| - 1], items[..|items| - 1])
  }

  /** LIFO: Get right after Put(x) returns x, reset, and leaves the pool as it was. */
  lemma PutThenGet<T>(items: seq<T>, reset: T -> T, zero: T, x: T)
    ensures Popped(Pushed(items, reset, x), zero) == (reset(x), items)
  {
    assert Pushed(items, reset, x)[..|items|] == items;
  }

  /** Putting `xs` one after another stacks them, reset and in order, on top of the earlier
      items, so that Gets (Popped) return them last first. */
  lemma {:induction false} PutsStackInOrder<T>(items: seq<T>, reset: T -> T, xs: seq<T>)
    ensures var all := PushedAll(items, reset, xs);
      |all| == |items| + |xs| && forall i | 0 <= i < |xs| :: all[|items| + i] == reset(xs[i])
    decreases |xs|
  {
    if xs != [] {
      PutsStackInOrder(items, reset, xs[..|xs| - 1]);
      assert forall i | 0 <= i < |xs| - 1 :: xs[..|xs| - 1][i] == xs[i];
    }
  }

  /** The pool's items after putting each of `xs` in turn. */
  function PushedAll<T>(items: seq<T>, reset: T -> T, xs: seq<T>): seq<T>
  {
    if xs == [] then items else Pushed(PushedAll(items, reset, xs[..|xs| - 1]), reset, xs[|xs| - 1])
  }

  class Pool<T> {
    var items: seq<T>
    const zero: T
    const reset: T -> T

    /** New: an empty pool. */
    constructor (zero: T, reset: T -> T)
      ensures items == [] && this.zero == zero && this.reset == reset
    {
      items := [];
      this.zero := zero;
      this.reset := reset;
    }

    /** Get: the zero value from an empty pool, which stays empty; otherwise the most recently
        put item, which is removed. */
    method Get() returns (item: T)
      modifies this
      ensures (item, items) == Popped(old(items), zero)
    {
      if |items| == 0 {
        return zero;
      }
      item := items[|items| - 1];
      items := items[..|items| - 1];
    }

    /** Put: the item is reset and appended. */
    method Put(item: T)
      modifies this
      ensures items == Pushed(old(items), reset, item)
    {
      var resetItem := reset(item);
      items := items + [resetItem];
    }
  }
}
