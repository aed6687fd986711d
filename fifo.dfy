/**
  The bounded pool of spawned cans, as both revisions update it: append the
  new entry with `push`, then drop the head with a single `shift` when the
  length exceeds 49.
 */
module FifoPool {
  import opened Optional

  /** The most entries the pool keeps: eviction happens when the length is over 49. */
  const Capacity: nat := 49

  /** The pool after one `push` and the conditional `shift`. */
  function Push<T>(pool: seq<T>, x: T): (r: seq<T>)
    ensures |r| > 0 && r[|r| - 1] == x
    ensures |pool| <= Capacity ==> r == Newest(pool + [x], Capacity)
  {
    var appended := pool + [x];
    if |appended| > Capacity then appended[1..] else appended
  }

  /** The entry that `shift` removes during that push, if any. */
  function Evicted<T>(pool: seq<T>, x: T): Option<T> {
    var appended := pool + [x];
    if |appended| > Capacity then Some(appended[0]) else None
  }

  /** The pool after pushing each of `xs` in turn. */
  function PushAll<T>(pool: seq<T>, xs: seq<T>): seq<T>
    decreases |xs|
  {
    if |xs| == 0 then pool else PushAll(Push(pool, xs[0]), xs[1..])
  }

  /** The entries evicted while pushing each of `xs` in turn, in eviction order. */
  function EvictedAll<T>(pool: seq<T>, xs: seq<T>): seq<T>
    decreases |xs|
  {
    if |xs| == 0 then []
    else
      var e := match Evicted(pool, xs[0]) case Some(v) => [v] case None => [];
      e + EvictedAll(Push(pool, xs[0]), xs[1..])
  }

  /** The last n entries of s (all of s when it is shorter). */
  function Newest<T>(s: seq<T>, n: nat): (r: seq<T>)
    ensures |r| == if |s| <= n then |s| else n
  {
    if |s| <= n then s else s[|s| - n..]
  }

  /**
    One push on a pool within capacity: the pool stays within capacity; below
    capacity it grows by one and nothing is evicted; at capacity exactly the
    head is evicted. The new entry is last and the survivors keep their order.
   */
  lemma PushSpec<T>(pool: seq<T>, x: T)
    requires |pool| <= Capacity
    ensures |Push(pool, x)| <= Capacity
    ensures |Push(pool, x)| > 0 && Push(pool, x)[|Push(pool, x)| - 1] == x
    ensures |pool| < Capacity ==> Push(pool, x) == pool + [x] && Evicted(pool, x) == None
    ensures |pool| == Capacity ==>
              |Push(pool, x)| == Capacity && Push(pool, x) == pool[1..] + [x] && Evicted(pool, x) == Some(pool[0])
  {
    if |pool| == Capacity {
      assert (pool + [x])[1..] == pool[1..] + [x];
    }
  }

  /** Nothing is lost or reordered by a push: the evicted entry followed by the new pool is the old pool plus x. */
  lemma PushConserves<T>(pool: seq<T>, x: T)
    ensures Evicted(pool, x).None? ==> Push(pool, x) == pool + [x]
    ensures Evicted(pool, x).Some? ==> [Evicted(pool, x).value] + Push(pool, x) == pool + [x]
  {
    var appended := pool + [x];
    if |appended| > Capacity {
      assert [appended[0]] + appended[1..] == appended;
    }
  }

  /** After any run of pushes from a pool within capacity, the pool holds the 49 newest entries. */
  lemma {:induction false} PushAllKeepsNewest<T>(pool: seq<T>, xs: seq<T>)
    requires |pool| <= Capacity
    ensures PushAll(pool, xs) == Newest(pool + xs, Capacity)
    decreases |xs|
  {
    if |xs| == 0 {
      assert pool + xs == pool;
    } else {
      var p := Push(pool, xs[0]);
      PushSpec(pool, xs[0]);
      PushAllKeepsNewest(p, xs[1..]);
      var all := pool + xs;
      assert PushAll(pool, xs) == Newest(p + xs[1..], Capacity);
      if |pool| < Capacity {
        assert p + xs[1..] == all;
      } else {
        assert p + xs[1..] == all[1..];
        assert |all| > Capacity;
        assert Newest(all[1..], Capacity) == Newest(all, Capacity);
      }
    }
  }

  /**
    FIFO order: the entries evicted by a run of pushes, followed by the final
    pool, are the initial pool followed by the pushed entries. The evicted
    entries are therefore the oldest ones, in insertion order.
   */
  lemma {:induction false} EvictionOrder<T>(pool: seq<T>, xs: seq<T>)
    ensures EvictedAll(pool, xs) + PushAll(pool, xs) == pool + xs
    decreases |xs|
  {
    if |xs| > 0 {
      var x, rest := xs[0], xs[1..];
      var p := Push(pool, x);
      PushConserves(pool, x);
      EvictionOrder(p, rest);
      assert PushAll(pool, xs) == PushAll(p, rest);
      assert pool + xs == (pool + [x]) + rest by {
        assert xs == [x] + rest;
      }
      match Evicted(pool, x)
      case Some(v) =>
        assert EvictedAll(pool, xs) == [v] + EvictedAll(p, rest);
        assert ([v] + EvictedAll(p, rest)) + PushAll(p, rest) == [v] + (EvictedAll(p, rest) + PushAll(p, rest));
      case None =>
        assert EvictedAll(pool, xs) == EvictedAll(p, rest);
    }
  }

  /** Pushing 50 entries into an empty pool leaves the last 49, and evicts only the first. */
  lemma FiftySpawns<T>(xs: seq<T>)
    requires |xs| == Capacity + 1
    ensures PushAll([], xs) == xs[1..]
    ensures EvictedAll([], xs) == [xs[0]]
  {
    PushAllKeepsNewest([], xs);
    assert [] + xs == xs;
    EvictionOrder([], xs);
    var ev := EvictedAll([], xs);
    assert ev + xs[1..] == xs;
    assert |ev| == 1;
    assert ev[0] == (ev + xs[1..])[0];
  }
}
