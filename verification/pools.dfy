/** Setting up the message buffers of the two virtqueues, with the unwind at every point of
    failure. */
module Pools {
  import opened Wrappers

  datatype Errno = FindFailed | EINVAL | ENOMEM

  /** What the page allocator answers: block `n` of the run, or nothing. Blocks are numbered
      in the order they are handed out. */
  class PageSource {
    var answers: seq<bool>
    var asked: nat
    /** How often each block was given back. */
    var freed: multiset<nat>

    constructor (answers: seq<bool>)
      ensures this.answers == answers && asked == 0 && freed == multiset{}
    {
      this.answers := answers;
      asked, freed := 0, multiset{};
    }

    /** `__get_free_pages`: an exhausted answer list refuses. */
    method Get() returns (block: Option<nat>)
      modifies this`asked
      ensures asked == old(asked) + 1
      ensures block == if old(asked) < |answers| && answers[old(asked)] then Some(old(asked)) else None
    {
      block := if asked < |answers| && answers[asked] then Some(asked) else None;
      asked := asked + 1;
    }

    method Put(block: nat)
      modifies this`freed
      ensures freed == old(freed) + multiset{block}
    {
      freed := freed + multiset{block};
    }
  }

  predicate Granted(answers: seq<bool>, n: nat) { n < |answers| && answers[n] }

  /** All of requests `lo .. hi` are granted. */
  ghost predicate AllGranted(answers: seq<bool>, lo: nat, hi: nat) {
    forall k :: lo <= k < hi ==> Granted(answers, k)
  }

  /** Blocks `lo .. hi`. */
  function Blocks(lo: nat, hi: nat): multiset<nat>
    requires lo <= hi
    decreases hi - lo
  {
    if lo == hi then multiset{} else Blocks(lo, hi - 1) + multiset{hi - 1}
  }

  lemma {:induction false} BlocksAreSingle(lo: nat, hi: nat, k: nat)
    requires lo <= hi
    ensures Blocks(lo, hi)[k] == if lo <= k < hi then 1 else 0
    decreases hi - lo
  {
    if lo < hi { BlocksAreSingle(lo, hi - 1, k); }
  }

  /** A zeroed pointer array filled with `Some` up to `n`. */
  ghost predicate FilledTo(a: array<Option<nat>>, n: nat, first: nat)
    requires n <= a.Length
    reads a
  {
    && (forall i :: 0 <= i < n ==> a[i] == Some(first + i))
    && forall i :: n <= i < a.Length ==> a[i].None?
  }

  /** Fills a pool; stops at the first refusal. */
  method FillPool(pages: PageSource, pool: array<Option<nat>>) returns (ok: bool, n: nat)
    requires FilledTo(pool, 0, pages.asked)
    modifies pages`asked, pool
    ensures n <= pool.Length && FilledTo(pool, n, old(pages.asked))
    ensures AllGranted(pages.answers, old(pages.asked), old(pages.asked) + n)
    ensures ok ==> n == pool.Length && pages.asked == old(pages.asked) + n
    ensures !ok ==> n < pool.Length && !Granted(pages.answers, old(pages.asked) + n)
  {
    n := 0;
    while n < pool.Length
      invariant 0 <= n <= pool.Length && pages.asked == old(pages.asked) + n
      invariant FilledTo(pool, n, old(pages.asked))
      invariant AllGranted(pages.answers, old(pages.asked), old(pages.asked) + n)
    {
      var block := pages.Get();
      pool[n] := block;
      if block.None? {
        ok := false;
        return;
      }
      n := n + 1;
    }
    ok := true;
  }

  lemma OneMore(was: multiset<nat>, lo: nat, hi: nat)
    requires lo <= hi
    ensures was + Blocks(lo, hi) + multiset{hi} == was + Blocks(lo, hi + 1)
  {
  }

  /** Frees what a pool holds, skipping empty entries. */
  method FreePool(pages: PageSource, pool: array<Option<nat>>, ghost n: nat, ghost first: nat)
    requires n <= pool.Length && FilledTo(pool, n, first)
    modifies pages`freed
    ensures pages.freed == old(pages.freed) + Blocks(first, first + n)
  {
    hide Blocks;
    ghost var was := pages.freed;
    NoBlocks(was, first);
    ghost var k := 0;
    var i := 0;
    while i < pool.Length
      invariant 0 <= i <= pool.Length && k == (if i < n then i else n)
      invariant pages.freed == was + Blocks(first, first + k)
    {
      if pool[i].Some? {
        OneMore(was, first, first + k);
        pages.Put(pool[i].value);
        k := k + 1;
      }
      i := i + 1;
    }
  }

  lemma NoBlocks(was: multiset<nat>, lo: nat)
    ensures was + Blocks(lo, lo) == was
  {
  }

  /** The resources of `init_vqs` besides the blocks: how often each was released. */
  datatype Freed = Freed(rbufs: nat, sbufs: nat, vqs: nat)

  /** The two pools, once set up. */
  datatype Pool = Pool(rbufs: array<Option<nat>>, sbufs: array<Option<nat>>)

  /** Filling both pools, and the two unwind loops. */
  method FillPools(pages: PageSource, rbufs: array<Option<nat>>, sbufs: array<Option<nat>>) returns (ok: bool, ghost m: nat)
    requires rbufs != sbufs && rbufs.Length == sbufs.Length && FilledTo(rbufs, 0, 0) && FilledTo(sbufs, 0, 0)
    requires pages.asked == 0 && pages.freed == multiset{}
    modifies pages`asked, pages`freed, rbufs, sbufs
    ensures AllGranted(pages.answers, 0, m)
    ensures ok ==> m == 2 * rbufs.Length && pages.freed == multiset{}
    ensures ok ==> FilledTo(rbufs, rbufs.Length, 0) && FilledTo(sbufs, sbufs.Length, sbufs.Length)
    ensures !ok ==> m < 2 * rbufs.Length && !Granted(pages.answers, m) && pages.freed == Blocks(0, m)
  {
    hide Blocks, Granted;
    var n, n';
    ok, n := FillPool(pages, rbufs);
    if !ok {
      FreePool(pages, rbufs, n, 0);
      m := n;
      return;
    }
    ok, n' := FillPool(pages, sbufs);
    m := n + n';
    if !ok {
      FreePool(pages, sbufs, n', n);
      FreePool(pages, rbufs, n, 0);
      BlocksJoin(0, n, m);
    }
  }

  /** `init_vqs`. On failure at any point every block obtained is given back exactly once, and
      each pointer array that was allocated is freed once; on success both pools are full. */
  method InitVqs(pages: PageSource, findOk: bool, rxSize: nat, txSize: nat, rArrayOk: bool, sArrayOk: bool)
    returns (r: Result<Pool, Errno>, freed: Freed, ghost m: nat)
    requires pages.asked == 0 && pages.freed == multiset{}
    modifies pages`asked, pages`freed
    ensures r.Ok? <==> findOk && rxSize == txSize && rArrayOk && sArrayOk && AllGranted(pages.answers, 0, 2 * rxSize)
    ensures r.Err? ==> r.error == if !findOk then FindFailed else if rxSize != txSize then EINVAL else ENOMEM
    ensures r.Ok? ==> freed == Freed(0, 0, 0) && pages.freed == multiset{}
    ensures r.Ok? ==> r.value.rbufs.Length == r.value.sbufs.Length == rxSize
    ensures r.Ok? ==> FilledTo(r.value.rbufs, rxSize, 0) && FilledTo(r.value.sbufs, rxSize, rxSize)
    ensures r.Err? ==> freed == if !findOk then Freed(0, 0, 0)
                                else if rxSize != txSize || !rArrayOk then Freed(0, 0, 1)
                                else if !sArrayOk then Freed(1, 0, 1)
                                else Freed(1, 1, 1)
    ensures r.Err? ==> AllGranted(pages.answers, 0, m) && pages.freed == Blocks(0, m)
    ensures r.Err? && findOk && rxSize == txSize && rArrayOk && sArrayOk ==>
              m < 2 * rxSize && !Granted(pages.answers, m)
  {
    hide Granted;
    freed, m := Freed(0, 0, 0), 0;
    if !findOk { return Err(FindFailed), freed, 0; }
    if rxSize != txSize { return Err(EINVAL), Freed(0, 0, 1), 0; }
    if !rArrayOk { return Err(ENOMEM), Freed(0, 0, 1), 0; }
    var rbufs := new Option<nat>[rxSize](_ => None);
    if !sArrayOk { return Err(ENOMEM), Freed(1, 0, 1), 0; }
    var sbufs := new Option<nat>[rxSize](_ => None);
    var ok;
    ok, m := FillPools(pages, rbufs, sbufs);
    if !ok { return Err(ENOMEM), Freed(1, 1, 1), m; }
    r := Ok(Pool(rbufs, sbufs));
  }

  lemma {:induction false} BlocksJoin(lo: nat, mid: nat, hi: nat)
    requires lo <= mid <= hi
    ensures Blocks(mid, hi) + Blocks(lo, mid) == Blocks(lo, hi)
    decreases hi - mid
  {
    if mid < hi {
      BlocksJoin(lo, mid, hi - 1);
      assert Blocks(mid, hi) == Blocks(mid, hi - 1) + multiset{hi - 1};
    }
  }
}
