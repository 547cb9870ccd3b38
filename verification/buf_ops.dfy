/** The buffer pool of a file as the driver updates it, and its runs. */
module BufOps {
  import opened Lists
  import opened Wrappers
  import opened BufCache

  datatype Errno = ENOMEM | EFAULT

  // ---------------------------------------------------------------- runs

  predicate Legal(s: Pool, run: seq<Step>)
    decreases |run|
  {
    run == [] || (Enabled(s, run[0]) && Legal(Apply(s, run[0]), run[1..]))
  }

  function Run(s: Pool, run: seq<Step>): Pool
    requires Legal(s, run)
    decreases |run|
  {
    if run == [] then s else Run(Apply(s, run[0]), run[1..])
  }

  /** The pool is in order after every sequence of operations of any threads. */
  lemma {:induction false} RunKeeps(s: Pool, run: seq<Step>)
    requires Inv(s) && Legal(s, run)
    ensures Inv(Run(s, run))
    decreases |run|
  {
    hide Inv, Apply, Enabled;
    if run != [] {
      StepKeeps(s, run[0]);
      RunKeeps(Apply(s, run[0]), run[1..]);
    }
  }

  /** What it means that buffer `id` of pool `s` is accounted for. */
  ghost predicate Accounted(s: Pool, id: nat) {
    && s.num == |s.cached| <= MAX_CACHED_BUFS + 1
    && (id in s.bufs <==> id in s.cached || id in s.remote || IsHeld(s, id))
    && !(id in s.cached && id in s.remote) && !(id in s.cached && IsHeld(s, id)) && !(id in s.remote && IsHeld(s, id))
    && (forall a, b :: a in s.held && b in s.held && s.held[a] == id == s.held[b] ==> a == b)
    && s.taken == s.returned + LivePages(s.bufs, s.next)
  }

  lemma AccountedByInv(s: Pool, id: nat)
    requires Inv(s)
    ensures Accounted(s, id)
  {
    assert At(s, id);
  }

  /** From an empty pool: the counter is the length of the list and at most one above the
      limit, each live buffer is in one place only, and pages balance. */
  lemma PoolInRuns(run: seq<Step>, id: nat)
    requires Legal(EMPTY, run)
    ensures Accounted(Run(EMPTY, run), id)
  {
    hide Legal, Run, Inv, Accounted;
    EmptyInv();
    RunKeeps(EMPTY, run);
    AccountedByInv(Run(EMPTY, run), id);
  }

  /** The bound is reached: the limit is tested before the buffer is added. */
  lemma {:induction false} CacheFills(s: Pool, n: nat) returns (run: seq<Step>)
    requires Slot(0, 0) !in s.held && s.num + n <= MAX_CACHED_BUFS + 1
    ensures Legal(s, run) && Run(s, run).num == s.num + n
    decreases n
  {
    if n == 0 { return []; }
    var one := Make(Slot(0, 0), 1);
    var s1 := Apply(s, one);
    var two := Put(Slot(0, 0));
    var s2 := Apply(s1, two);
    var rest := CacheFills(s2, n - 1);
    run := [one, two] + rest;
    assert run[1..] == [two] + rest && run[1..][1..] == rest;
    assert Legal(s1, run[1..]) && Run(s1, run[1..]) == Run(s2, rest);
  }

  lemma {:induction false} PagesOfNone(n: nat)
    ensures LivePages(map[], n) == 0
  {
    if n > 0 { PagesOfNone(n - 1); }
  }

  /** With every list empty and no context left, every page is back and every buffer was
      released. */
  lemma NothingLeft(s: Pool)
    requires Inv(s) && s.cached == [] && s.remote == [] && s.held == map[]
    ensures s.bufs == map[] && s.taken == s.returned
    ensures forall id: nat :: id in s.released <==> id < s.next
  {
    forall id: nat ensures id !in s.bufs && (id in s.released <==> id < s.next) {
      assert At(s, id);
    }
    assert s.bufs == map[];
    PagesOfNone(s.next);
  }

  lemma RemoteFirst(s: Pool)
    requires Inv(s) && s.remote != []
    ensures Without(s.remote, s.remote[0]) == s.remote[1..]
  {
    WithoutFirst(s.remote);
  }

  // ---------------------------------------------------------------- the file's pool

  class FileBufs {
    var bufs: map<nat, Buf>
    var cached: seq<nat>
    var num: int
    var remote: seq<nat>
    var held: map<Slot, nat>
    var next: nat
    ghost var taken: nat
    ghost var returned: nat
    ghost var released: set<nat>

    ghost function St(): Pool
      reads this
    {
      Pool(bufs, cached, num, remote, held, taken, returned, released, next)
    }

    constructor ()
      ensures St() == EMPTY
    {
      bufs, cached, num, remote, held, next := map[], [], 0, [], map[], 0;
      taken, returned, released := 0, 0, {};
    }

    /** The walk over the cached buffers: `fr` is the best seen so far. */
    method FindFit(size: nat) returns (fr: Option<nat>)
      requires Known(St())
      ensures fr == Hit(St(), size)
    {
      fr := None;
      var i := 0;
      while i < |cached|
        invariant 0 <= i <= |cached| && fr == Best(St(), size, i)
      {
        if bufs[cached[i]].size >= size && (fr.None? || bufs[cached[fr.value]].size > bufs[cached[i]].size) {
          fr := Some(i);
        }
        i := i + 1;
      }
    }

    /** `vfastrpc_buf_alloc` for a context slot: empty requests are refused, a fitting cached
        buffer is reused, otherwise a new one is made if memory allows. */
    method Alloc(slot: Slot, size: nat, memOk: bool) returns (r: Result<nat, Errno>)
      requires Inv(St()) && slot !in held
      modifies this
      ensures Inv(St())
      ensures size == 0 ==> r == Err(EFAULT) && St() == old(St())
      ensures size > 0 ==> Known(old(St()))
      ensures size > 0 && Hit(old(St()), size).Some? ==> St() == Apply(old(St()), Take(slot, size))
      ensures size > 0 && Hit(old(St()), size).None? && memOk ==> St() == Apply(old(St()), Make(slot, size))
      ensures size > 0 && Hit(old(St()), size).None? && !memOk ==> r == Err(ENOMEM) && St() == old(St())
      ensures r.Ok? <==> size > 0 && (memOk || Hit(old(St()), size).Some?)
      ensures r.Ok? ==> slot in held && held[slot] == r.value && r.value in bufs && bufs[r.value].size >= size
      ensures r.Ok? && old(next) != next ==>
                bufs[r.value] == Buf(size, false) && size <= (taken - old(taken)) * 4096 < size + 4096
    {
      hide At, ListsOk, LivePages, Best;
      PagesHold(size);
      if size == 0 { return Err(EFAULT); }
      ghost var was := St();
      KnownByInv(was);
      BestFit(was, size, |cached|);
      var fr := FindFit(size);
      if fr.Some? {
        StepKeeps(was, Take(slot, size));
        var id := cached[fr.value];
        cached, num := Remove(cached, fr.value), num - 1;
        held := held[slot := id];
        return Ok(id);
      }
      if !memOk { return Err(ENOMEM); }
      StepKeeps(was, Make(slot, size));
      NewBuffer(size, false);
      held := held[slot := next - 1];
      r := Ok(next - 1);
    }

    method NewBuffer(size: nat, isRemote: bool)
      modifies this
      ensures St() == old(St()).(bufs := old(bufs)[old(next) := Buf(size, isRemote)],
                                 taken := old(taken) + PageCount(size), next := old(next) + 1)
    {
      bufs := bufs[next := Buf(size, isRemote)];
      taken := taken + PageCount(size);
      next := next + 1;
    }

    /** `vfastrpc_buf_alloc` for the remote heap: the cache is not consulted. */
    method AllocRemote(size: nat, memOk: bool) returns (r: Result<nat, Errno>)
      requires Inv(St())
      modifies this
      ensures Inv(St())
      ensures r.Ok? <==> size > 0 && memOk
      ensures r.Ok? ==> St() == Apply(old(St()), MakeRemote(size)) && r.value == old(next)
      ensures r.Ok? ==> r.value in bufs && bufs[r.value] == Buf(size, true) && remote == [r.value] + old(remote)
      ensures r.Ok? ==> size <= (taken - old(taken)) * 4096 < size + 4096
      ensures r.Err? ==> St() == old(St())
    {
      hide At, ListsOk, LivePages;
      PagesHold(size);
      if size == 0 { return Err(EFAULT); }
      if !memOk { return Err(ENOMEM); }
      StepKeeps(St(), MakeRemote(size));
      NewBuffer(size, true);
      remote := [next - 1] + remote;
      r := Ok(next - 1);
    }

    /** Gives the pages of a buffer that is on no list back. */
    method FreeBuffer(id: nat)
      requires id in bufs
      modifies this
      ensures St() == Release(old(St()), id)
    {
      returned := returned + PageCount(bufs[id].size);
      released := released + {id};
      bufs := bufs - {id};
    }

    /** `vfastrpc_buf_free` with caching, for the buffer of a context slot. */
    method Free(slot: Slot)
      requires Inv(St()) && slot in held
      modifies this
      ensures Inv(St()) && Enabled(old(St()), Put(slot)) && St() == Apply(old(St()), Put(slot))
      ensures held == old(held) - {slot} && old(held)[slot] in old(bufs)
      ensures var id := old(held)[slot];
              if old(bufs)[id].size < 8 * 1024 * 1024 && |old(cached)| <= 32
              then cached == [id] + old(cached) && bufs == old(bufs) && returned == old(returned)
              else cached == old(cached) && bufs == old(bufs) - {id} && returned == old(returned) + PageCount(old(bufs)[id].size)
    {
      hide At, ListsOk, LivePages;
      assert num == |cached| by { NumIsLength(St()); }
      HeldNotListed(St(), slot);
      StepKeeps(St(), Put(slot));
      var id := held[slot];
      held := held - {slot};
      if bufs[id].size < MAX_CACHE_BUF_SIZE {
        if num <= MAX_CACHED_BUFS {
          cached, num := [id] + cached, num + 1;
          return;
        }
      }
      FreeBuffer(id);
    }

    /** `vfastrpc_buf_free` without caching, for a remote buffer. */
    method FreeRemote(id: nat)
      requires Inv(St()) && id in remote
      modifies this
      ensures Inv(St()) && Enabled(old(St()), DropRemote(id)) && St() == Apply(old(St()), DropRemote(id))
      ensures id in old(bufs) && id !in remote && bufs == old(bufs) - {id} && id in released && cached == old(cached)
      ensures returned == old(returned) + PageCount(old(bufs)[id].size)
    {
      hide ListsOk, LivePages;
      assert At(St(), id);
      WithoutMembers(remote, id, id);
      StepKeeps(St(), DropRemote(id));
      remote := Without(remote, id);
      FreeBuffer(id);
    }

    /** Empties the cache at teardown. */
    method CachedListFree()
      requires Inv(St())
      modifies this
      ensures Inv(St()) && cached == [] && remote == old(remote) && held == old(held) && next == old(next)
    {
      hide ListsOk, LivePages;
      while cached != []
        invariant Inv(St()) && remote == old(remote) && held == old(held) && next == old(next)
        decreases |cached|
      {
        assert At(St(), cached[0]);
        StepKeeps(St(), DropCached);
        var free := cached[0];
        cached, num := cached[1..], num - 1;
        FreeBuffer(free);
      }
    }

    /** Empties the remote list at teardown. */
    method RemoteListFree()
      requires Inv(St())
      modifies this
      ensures Inv(St()) && remote == [] && cached == old(cached) && held == old(held) && next == old(next)
    {
      hide At, ListsOk, LivePages;
      while remote != []
        invariant Inv(St()) && cached == old(cached) && held == old(held) && next == old(next)
        decreases |remote|
      {
        RemoteFirst(St());
        FreeRemote(remote[0]);
      }
    }

    /** The loop of `context_free` over a context's descriptors. */
    method FreeDesc(ctx: nat, nbufs: nat)
      requires Inv(St())
      modifies this
      ensures Inv(St()) && St() == PutRow(old(St()), ctx, nbufs)
      ensures remote == old(remote) && next == old(next)
      ensures forall sl :: sl in held <==> sl in old(held) && !(sl.ctx == ctx && sl.index < nbufs)
    {
      hide At, ListsOk, LivePages, Cacheable;
      PutRowKeeps(St(), ctx, nbufs);
      var i := 0;
      while i < nbufs
        invariant 0 <= i <= nbufs && Inv(St())
        invariant St() == PutRow(old(St()), ctx, i)
      {
        if Slot(ctx, i) in held { Free(Slot(ctx, i)); }
        i := i + 1;
      }
    }
  }
}
