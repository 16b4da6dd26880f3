/**
 * `queue.Queue(maxsize=n)` as the live client uses it: a FIFO that `put_nowait` refuses
 * to grow past `maxsize` (a non-positive `maxsize` means unbounded, as in Python) and
 * that `get_nowait` pops from the front, reporting an empty queue instead of blocking.
 */
module Fifos {
  import opened Models

  datatype Fifo<T> = Fifo(items: seq<T>, maxsize: int) {

    /** `Queue.full()`. */
    predicate Full() {
      0 < maxsize <= |items|
    }

    /** The capacity given at construction is respected. */
    predicate Valid() {
      0 < maxsize ==> |items| <= maxsize
    }

    /**
     * `put_nowait(x)`: appends when there is room; on a full queue Python raises `Full`,
     * which the client catches and drops the item, so here the queue is returned as it was.
     */
    function PutNowait(x: T): (r: (Fifo<T>, bool))
      ensures r.0.maxsize == maxsize
      ensures r.1 <==> !Full()
      ensures r.1 ==> r.0.items == items + [x]
      ensures !r.1 ==> r.0 == this
      ensures Valid() ==> r.0.Valid()
    {
      if Full() then (this, false) else (Fifo(items + [x], maxsize), true)
    }

    /** `get_nowait()`: the oldest item, or None (Python's `Empty`) with the queue unchanged. */
    function GetNowait(): (r: (Fifo<T>, Option<T>))
      ensures r.0.maxsize == maxsize
      ensures r.1.None? <==> items == []
      ensures r.1.None? ==> r.0 == this
      ensures r.1.Some? ==> [r.1.value] + r.0.items == items
      ensures Valid() ==> r.0.Valid()
    {
      if items == [] then (this, None) else (Fifo(items[1..], maxsize), Some(items[0]))
    }
  }

  /** `Queue(maxsize=n)`. */
  function EmptyFifo<T>(maxsize: int): (q: Fifo<T>)
    ensures q.Valid() && q.items == [] && q.maxsize == maxsize
  {
    Fifo([], maxsize)
  }

  /** `put_nowait` of each of `xs` in turn, dropping those that find the queue full. */
  function PutAll<T>(q: Fifo<T>, xs: seq<T>): (r: Fifo<T>)
    ensures r.maxsize == q.maxsize
  {
    if xs == [] then q else PutAll(q, xs[..|xs| - 1]).PutNowait(xs[|xs| - 1]).0
  }

  /** How many of `n` offered items a queue admits: all when unbounded, else up to the free room. */
  function Admitted<T>(q: Fifo<T>, n: nat): nat {
    if q.maxsize <= 0 || n <= q.maxsize - |q.items| then n
    else if q.maxsize <= |q.items| then 0
    else q.maxsize - |q.items|
  }

  /**
   * Offering a batch to a queue keeps the earliest items that fit and drops exactly the
   * rest: nothing already queued is lost, order is kept, and capacity is never exceeded.
   */
  lemma {:induction false} PutAllKeepsEarliest<T>(q: Fifo<T>, xs: seq<T>)
    requires q.Valid()
    ensures PutAll(q, xs).items == q.items + xs[..Admitted(q, |xs|)]
    ensures PutAll(q, xs).Valid()
  {
    if xs != [] {
      var init := xs[..|xs| - 1];
      PutAllKeepsEarliest(q, init);
      assert init[..Admitted(q, |init|)] == xs[..Admitted(q, |init|)];
      if Admitted(q, |xs|) == Admitted(q, |init|) + 1 {
        assert xs[..Admitted(q, |xs|)] == xs[..Admitted(q, |init|)] + [xs[|xs| - 1]];
      }
    }
  }

  /** `get_nowait` repeated until the queue reports empty: everything, oldest first. */
  function Drain<T>(q: Fifo<T>): (r: seq<T>)
    decreases |q.items|
  {
    var (q', x) := q.GetNowait();
    if x.None? then [] else [x.value] + Drain(q')
  }

  lemma {:induction false} DrainYieldsItems<T>(q: Fifo<T>)
    ensures Drain(q) == q.items
    decreases |q.items|
  {
    if q.items != [] {
      DrainYieldsItems(q.GetNowait().0);
    }
  }

  /** First in, first out: what is put into an empty queue with room for it comes back out in order. */
  lemma FifoRoundTrip<T>(maxsize: int, xs: seq<T>)
    requires maxsize <= 0 || |xs| <= maxsize
    ensures Drain(PutAll(EmptyFifo<T>(maxsize), xs)) == xs
  {
    PutAllKeepsEarliest(EmptyFifo<T>(maxsize), xs);
    DrainYieldsItems(PutAll(EmptyFifo<T>(maxsize), xs));
  }
}
