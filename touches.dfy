/**
 * The bookkeeping of `handleMoveZoom` (src/index.js:134-189): the cache of the touches
 * seen in the previous batch, keyed by touch identifier, the selection of the touches of
 * the new batch that were already in it ("moved" touches), and the rebuilding of the
 * cache from the new batch.
 */
module Touches {

  /** A touch as the browser reports it: a stable identifier and screen coordinates. */
  datatype Touch = Touch(id: int, clientX: real, clientY: real)

  /** The touches of `batch` whose identifier is in `cache`, in batch order. */
  function Moved(batch: seq<Touch>, cache: map<int, Touch>): (r: seq<Touch>)
    ensures |r| <= |batch|
    ensures forall k :: 0 <= k < |r| ==> r[k] in batch && r[k].id in cache
  {
    if batch == [] then []
    else
      var last := batch[|batch| - 1];
      Moved(batch[..|batch| - 1], cache) + (if last.id in cache then [last] else [])
  }

  /** A touch is selected exactly when it is in the batch and its identifier was cached. */
  lemma {:induction false} MovedExactly(batch: seq<Touch>, cache: map<int, Touch>, t: Touch)
    ensures t in Moved(batch, cache) <==> t in batch && t.id in cache
  {
    if batch != [] {
      var front := batch[..|batch| - 1];
      MovedExactly(front, cache, t);
      assert batch == front + [batch[|batch| - 1]];
    }
  }

  /** Selection keeps batch order: splitting the batch splits the selection at the same place. */
  lemma {:induction false} MovedAppend(b1: seq<Touch>, b2: seq<Touch>, cache: map<int, Touch>)
    ensures Moved(b1 + b2, cache) == Moved(b1, cache) + Moved(b2, cache)
  {
    if b2 != [] {
      var front := b2[..|b2| - 1];
      assert (b1 + b2)[..|b1 + b2| - 1] == b1 + front;
      MovedAppend(b1, front, cache);
    } else {
      assert b1 + b2 == b1;
    }
  }

  /** The selection loop of handleMoveZoom. */
  method CollectMoved(batch: seq<Touch>, cache: map<int, Touch>) returns (moved: seq<Touch>)
    ensures moved == Moved(batch, cache)
  {
    moved := [];
    var i := 0;
    while i < |batch|
      invariant 0 <= i <= |batch|
      invariant moved == Moved(batch[..i], cache)
    {
      var tp := batch[i];
      if tp.id in cache {
        moved := moved + [tp];
      }
      assert batch[..i + 1][..i] == batch[..i];
      i := i + 1;
    }
    assert batch[..i] == batch;
  }

  /** The cache built from a batch: each identifier maps to the last touch that carries it. */
  function CacheOf(batch: seq<Touch>): map<int, Touch>
  {
    if batch == [] then map[]
    else
      var last := batch[|batch| - 1];
      CacheOf(batch[..|batch| - 1])[last.id := last]
  }

  /** Touch `i` is the last one in `batch` with its identifier. */
  ghost predicate LastWithId(batch: seq<Touch>, i: int)
    requires 0 <= i < |batch|
  {
    forall j :: i < j < |batch| ==> batch[j].id != batch[i].id
  }

  /** The cache holds the identifiers of the batch and nothing else. */
  lemma {:induction false} CacheOfKeys(batch: seq<Touch>)
    ensures CacheOf(batch).Keys == set t | t in batch :: t.id
  {
    if batch != [] {
      var front := batch[..|batch| - 1];
      CacheOfKeys(front);
      assert batch == front + [batch[|batch| - 1]];
    }
  }

  /** For each identifier, the cache holds the batch's last touch with it (the touch itself when identifiers are distinct). */
  lemma {:induction false} CacheOfHoldsLast(batch: seq<Touch>, i: int)
    requires 0 <= i < |batch|
    requires LastWithId(batch, i)
    ensures batch[i].id in CacheOf(batch) && CacheOf(batch)[batch[i].id] == batch[i]
  {
    var n := |batch| - 1;
    if i < n {
      var front := batch[..n];
      assert LastWithId(front, i);
      CacheOfHoldsLast(front, i);
    }
  }

  /** The cache-rebuilding loop of handleMoveZoom: the old cache is dropped, each touch of the batch stored in turn. */
  method BuildCache(batch: seq<Touch>) returns (cache: map<int, Touch>)
    ensures cache == CacheOf(batch)
  {
    cache := map[];
    var i := 0;
    while i < |batch|
      invariant 0 <= i <= |batch|
      invariant cache == CacheOf(batch[..i])
    {
      var tp := batch[i];
      cache := cache[tp.id := tp];
      assert batch[..i + 1][..i] == batch[..i];
      i := i + 1;
    }
    assert batch[..i] == batch;
  }
}
