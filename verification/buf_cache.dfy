/** The per-file pool of internal buffers: a best-fit cache, the buffers mapped for the remote
    heap, and the buffers held by the slots of invoke contexts. */
module BufCache {
  import opened Lists
  import opened Wrappers

  const MAX_CACHE_BUF_SIZE := 8 * 1024 * 1024
  const MAX_CACHED_BUFS := 32
  const PAGE_SIZE := 4096

  datatype Buf = Buf(size: nat, remote: bool)

  /** A place in a context's descriptor table. */
  datatype Slot = Slot(ctx: nat, index: nat)

  /** `taken` and `returned` count pages; ids below `next` that are not live were released. */
  datatype Pool = Pool(bufs: map<nat, Buf>, cached: seq<nat>, num: int, remote: seq<nat>, held: map<Slot, nat>,
                       taken: nat, returned: nat, released: set<nat>, next: nat)

  datatype Step =
    | Take(slot: Slot, size: nat)   // a hit in the cache
    | Make(slot: Slot, size: nat)   // a new buffer for a context
    | MakeRemote(size: nat)         // a new buffer for the remote heap
    | Put(slot: Slot)               // a context gives its buffer back
    | DropRemote(id: nat)           // a remote buffer is unmapped
    | DropCached                    // teardown takes the first cached buffer

  function PageCount(size: nat): nat { (size + PAGE_SIZE - 1) / PAGE_SIZE }

  /** The pages taken for a buffer hold it, with less than a page to spare. */
  lemma PagesHold(size: nat)
    ensures size <= PageCount(size) * 4096 < size + 4096
  {
  }

  function Remove(s: seq<nat>, i: nat): seq<nat>
    requires i < |s|
  {
    s[..i] + s[i + 1..]
  }

  predicate Known(s: Pool) { forall i :: 0 <= i < |s.cached| ==> s.cached[i] in s.bufs }

  /** The choice made after looking at the first `n` cached buffers. */
  function Best(s: Pool, size: nat, n: nat): (r: Option<nat>)
    requires Known(s) && n <= |s.cached|
    ensures r.Some? ==> r.value < n
  {
    if n == 0 then None
    else
      var fr, here := Best(s, size, n - 1), s.bufs[s.cached[n - 1]].size;
      if here >= size && (fr.None? || s.bufs[s.cached[fr.value]].size > here) then Some(n - 1) else fr
  }

  function Hit(s: Pool, size: nat): (r: Option<nat>)
    requires Known(s)
    ensures r.Some? ==> r.value < |s.cached|
  {
    Best(s, size, |s.cached|)
  }

  function Release(s: Pool, id: nat): Pool
    requires id in s.bufs
  {
    s.(bufs := s.bufs - {id}, returned := s.returned + PageCount(s.bufs[id].size), released := s.released + {id})
  }

  predicate Enabled(s: Pool, step: Step) {
    match step
    case Take(slot, size) => size > 0 && slot !in s.held && Known(s) && Hit(s, size).Some?
    case Make(slot, size) => size > 0 && slot !in s.held
    case MakeRemote(size) => size > 0
    case Put(slot) => slot in s.held && s.held[slot] in s.bufs
    case DropRemote(id) => id in s.remote && id in s.bufs
    case DropCached => s.cached != [] && s.cached[0] in s.bufs
  }

  /** The cache takes a buffer back unless it is large or the cache is full. */
  predicate Cacheable(s: Pool, id: nat)
    requires id in s.bufs
  {
    s.bufs[id].size < MAX_CACHE_BUF_SIZE && s.num <= MAX_CACHED_BUFS
  }

  function Apply(s: Pool, step: Step): Pool
    requires Enabled(s, step)
  {
    match step
    case Take(slot, size) =>
      var i := Hit(s, size).value;
      s.(cached := Remove(s.cached, i), num := s.num - 1, held := s.held[slot := s.cached[i]])
    case Make(slot, size) =>
      s.(bufs := s.bufs[s.next := Buf(size, false)], held := s.held[slot := s.next],
         taken := s.taken + PageCount(size), next := s.next + 1)
    case MakeRemote(size) =>
      s.(bufs := s.bufs[s.next := Buf(size, true)], remote := [s.next] + s.remote,
         taken := s.taken + PageCount(size), next := s.next + 1)
    case Put(slot) =>
      var id := s.held[slot];
      var s' := s.(held := s.held - {slot});
      if Cacheable(s, id) then s'.(cached := [id] + s.cached, num := s.num + 1) else Release(s', id)
    case DropRemote(id) => Release(s.(remote := Without(s.remote, id)), id)
    case DropCached => Release(s.(cached := s.cached[1..], num := s.num - 1), s.cached[0])
  }

  // ---------------------------------------------------------------- invariant

  predicate IsHeld(s: Pool, id: nat) { exists sl :: sl in s.held && s.held[sl] == id }

  /** A live buffer is in exactly one place; any other id below `next` was released. */
  ghost predicate At(s: Pool, id: nat) {
    && (id in s.bufs <==> id in s.cached || id in s.remote || IsHeld(s, id))
    && !(id in s.cached && id in s.remote) && !(id in s.cached && IsHeld(s, id)) && !(id in s.remote && IsHeld(s, id))
    && (id in s.released <==> id < s.next && id !in s.bufs)
    && (id in s.bufs ==> id < s.next && (s.bufs[id].remote <==> id in s.remote))
    && (id in s.bufs && id in s.cached ==> s.bufs[id].size < MAX_CACHE_BUF_SIZE)
  }

  /** Pages of the live buffers below `n`. */
  function LivePages(bufs: map<nat, Buf>, n: nat): nat {
    if n == 0 then 0
    else LivePages(bufs, n - 1) + if n - 1 in bufs then PageCount(bufs[n - 1].size) else 0
  }

  ghost predicate ListsOk(s: Pool) {
    && NoDuplicates(s.cached) && NoDuplicates(s.remote)
    && (forall a, b :: a in s.held && b in s.held && s.held[a] == s.held[b] ==> a == b)
    && s.num == |s.cached| <= MAX_CACHED_BUFS + 1
  }

  ghost predicate Inv(s: Pool) {
    && ListsOk(s) && (forall id: nat :: At(s, id))
    && s.taken == s.returned + LivePages(s.bufs, s.next)
  }

  lemma NumIsLength(s: Pool)
    requires Inv(s)
    ensures s.num == |s.cached|
  {
  }

  const EMPTY := Pool(map[], [], 0, [], map[], 0, 0, {}, 0)

  lemma EmptyInv()
    ensures Inv(EMPTY)
  {
  }

  // ---------------------------------------------------------------- lists and sums

  lemma RemoveMembers(s: seq<nat>, i: nat, x: nat)
    requires i < |s| && NoDuplicates(s)
    ensures x in Remove(s, i) <==> x in s && x != s[i]
    ensures NoDuplicates(Remove(s, i)) && |Remove(s, i)| == |s| - 1
  {
    var r := Remove(s, i);
    assert forall k :: 0 <= k < |r| ==> r[k] == s[if k < i then k else k + 1];
    if x in s && x != s[i] {
      var k :| 0 <= k < |s| && s[k] == x;
      assert r[if k < i then k else k - 1] == x;
    }
  }

  lemma {:induction false} WithoutIsRemove(s: seq<nat>, i: nat)
    requires i < |s| && NoDuplicates(s)
    ensures Without(s, s[i]) == Remove(s, i)
  {
    if i > 0 {
      assert s[1..][i - 1] == s[i];
      WithoutIsRemove(s[1..], i - 1);
      assert Remove(s, i) == [s[0]] + Remove(s[1..], i - 1);
    } else {
      assert s[0] !in s[1..];
      WithoutAbsent(s[1..], s[0]);
    }
  }

  lemma {:induction false} PagesOfSame(a: map<nat, Buf>, b: map<nat, Buf>, n: nat)
    requires forall id :: 0 <= id < n ==> (id in a <==> id in b) && (id in a ==> a[id].size == b[id].size)
    ensures LivePages(a, n) == LivePages(b, n)
  {
    if n > 0 { PagesOfSame(a, b, n - 1); }
  }

  lemma {:induction false} PagesWithout(a: map<nat, Buf>, id: nat, n: nat)
    requires id in a && id < n
    ensures LivePages(a, n) == LivePages(a - {id}, n) + PageCount(a[id].size)
  {
    if id == n - 1 { PagesOfSame(a, a - {id}, n - 1); } else { PagesWithout(a, id, n - 1); }
  }

  /** The hit is a smallest buffer that fits, the first among equals; a miss means none fits. */
  lemma {:induction false} BestFit(s: Pool, size: nat, n: nat)
    requires Known(s) && n <= |s.cached|
    ensures Best(s, size, n).None? <==> forall j :: 0 <= j < n ==> s.bufs[s.cached[j]].size < size
    ensures Best(s, size, n).Some? ==>
              var k := Best(s, size, n).value;
              && s.bufs[s.cached[k]].size >= size
              && (forall j :: 0 <= j < n && s.bufs[s.cached[j]].size >= size ==>
                    s.bufs[s.cached[k]].size <= s.bufs[s.cached[j]].size)
              && (forall j :: 0 <= j < k && s.bufs[s.cached[j]].size >= size ==>
                    s.bufs[s.cached[k]].size < s.bufs[s.cached[j]].size)
  {
    if n > 0 { BestFit(s, size, n - 1); }
  }

  lemma KnownByInv(s: Pool)
    requires Inv(s)
    ensures Known(s)
  {
    forall i | 0 <= i < |s.cached| ensures s.cached[i] in s.bufs {
      assert At(s, s.cached[i]);
    }
  }

  // ---------------------------------------------------------------- preservation

  lemma TakeKeepsAt(s: Pool, slot: Slot, size: nat, id: nat)
    requires Inv(s) && Enabled(s, Take(slot, size))
    ensures At(Apply(s, Take(slot, size)), id)
  {
    hide Best, LivePages, Remove;
    var s' := Apply(s, Take(slot, size));
    var i := Hit(s, size).value;
    RemoveMembers(s.cached, i, id);
    assert At(s, id) && At(s, s.cached[i]);
    HeldAfterAdd(s, s', slot, s.cached[i], id);
  }

  lemma HeldAfterAdd(s: Pool, s': Pool, slot: Slot, x: nat, id: nat)
    requires slot !in s.held && s'.held == s.held[slot := x]
    ensures IsHeld(s', id) <==> IsHeld(s, id) || id == x
  {
    assert s'.held[slot] == x;
    if IsHeld(s, id) {
      var sl :| sl in s.held && s.held[sl] == id;
      assert s'.held[sl] == id;
    }
  }

  lemma HeldAfterRemove(s: Pool, s': Pool, slot: Slot, id: nat)
    requires ListsOk(s) && slot in s.held && s'.held == s.held - {slot}
    ensures IsHeld(s', id) <==> IsHeld(s, id) && id != s.held[slot]
  {
    if IsHeld(s, id) && id != s.held[slot] {
      var sl :| sl in s.held && s.held[sl] == id;
      assert sl in s'.held && s'.held[sl] == id;
    }
  }

  lemma HeldSame(s: Pool, s': Pool, id: nat)
    requires s'.held == s.held
    ensures IsHeld(s', id) <==> IsHeld(s, id)
  {
  }

  lemma MakeKeepsAt(s: Pool, step: Step, id: nat)
    requires Inv(s) && (step.Make? || step.MakeRemote?) && Enabled(s, step)
    ensures At(Apply(s, step), id)
  {
    hide LivePages, ListsOk, PageCount;
    var s' := Apply(s, step);
    assert At(s, id) && At(s, s.next);
    if step.Make? { HeldAfterAdd(s, s', step.slot, s.next, id); } else { HeldSame(s, s', id); }
  }

  lemma PutKeepsAt(s: Pool, slot: Slot, id: nat)
    requires Inv(s) && Enabled(s, Put(slot))
    ensures At(Apply(s, Put(slot)), id)
  {
    hide LivePages, PageCount;
    var s' := Apply(s, Put(slot));
    assert At(s, id) && At(s, s.held[slot]);
    HeldAfterRemove(s, s', slot, id);
    assert IsHeld(s, s.held[slot]);
  }

  lemma DropKeepsAt(s: Pool, step: Step, id: nat)
    requires Inv(s) && (step.DropRemote? || step.DropCached?) && Enabled(s, step)
    ensures At(Apply(s, step), id)
  {
    hide LivePages, PageCount, Remove, Without;
    var s' := Apply(s, step);
    assert At(s, id);
    HeldSame(s, s', id);
    if step.DropRemote? {
      var i :| 0 <= i < |s.remote| && s.remote[i] == step.id;
      WithoutIsRemove(s.remote, i);
      RemoveMembers(s.remote, i, id);
      assert At(s, step.id);
    } else {
      assert At(s, s.cached[0]);
      FirstRemoved(s.cached, id);
    }
  }

  lemma FirstRemoved(s: seq<nat>, x: nat)
    requires s != [] && NoDuplicates(s)
    ensures x in s[1..] <==> x in s && x != s[0]
    ensures NoDuplicates(s[1..])
  {
    RemoveMembers(s, 0, x);
    assert Remove(s, 0) == s[1..];
  }

  lemma ListsKept(s: Pool, step: Step)
    requires Inv(s) && Enabled(s, step)
    ensures ListsOk(Apply(s, step))
  {
    hide LivePages, PageCount, Remove, Without, Best, At;
    match step
    case Take(slot, size) =>
      var i := Hit(s, size).value;
      RemoveMembers(s.cached, i, 0);
      NotHeldElsewhere(s, s.cached[i]);
    case Make(slot, size) =>
      NotHeldElsewhere(s, s.next);
    case MakeRemote(size) =>
      assert s.next !in s.remote by { assert At(s, s.next); LiveBelowNext(s); }
    case Put(slot) =>
      assert s.held[slot] !in s.cached by { HeldNotListed(s, slot); }
    case DropRemote(id) =>
      var i :| 0 <= i < |s.remote| && s.remote[i] == id;
      WithoutIsRemove(s.remote, i);
      RemoveMembers(s.remote, i, 0);
    case DropCached =>
      FirstRemoved(s.cached, 0);
  }

  lemma LiveBelowNext(s: Pool)
    requires At(s, s.next)
    ensures s.next !in s.bufs && s.next !in s.cached && s.next !in s.remote && !IsHeld(s, s.next)
  {
  }

  lemma HeldNotListed(s: Pool, slot: Slot)
    requires Inv(s) && slot in s.held
    ensures s.held[slot] in s.bufs && s.held[slot] !in s.cached && s.held[slot] !in s.remote
  {
    assert At(s, s.held[slot]);
    assert IsHeld(s, s.held[slot]);
  }

  lemma NotHeldElsewhere(s: Pool, x: nat)
    requires Inv(s) && (x in s.cached || x == s.next)
    ensures forall sl :: sl in s.held ==> s.held[sl] != x
  {
    assert At(s, x);
    assert !IsHeld(s, x);
  }

  lemma PagesKept(s: Pool, step: Step)
    requires Inv(s) && Enabled(s, step)
    ensures var s' := Apply(s, step); s'.taken == s'.returned + LivePages(s'.bufs, s'.next)
  {
    hide PageCount, Remove, Without, Best, ListsOk, At;
    var s' := Apply(s, step);
    match step
    case Take(slot, size) =>
    case Make(slot, size) => PagesOfSame(s.bufs, s'.bufs, s.next);
    case MakeRemote(size) => PagesOfSame(s.bufs, s'.bufs, s.next);
    case Put(slot) => IdBelowNext(s, s.held[slot]); PagesWithout(s.bufs, s.held[slot], s.next);
    case DropRemote(id) => IdBelowNext(s, id); PagesWithout(s.bufs, id, s.next);
    case DropCached => IdBelowNext(s, s.cached[0]); PagesWithout(s.bufs, s.cached[0], s.next);
  }

  lemma IdBelowNext(s: Pool, id: nat)
    requires Inv(s) && id in s.bufs
    ensures id < s.next
  {
    assert At(s, id);
  }

  /** Every operation keeps the pool in order. */
  lemma StepKeeps(s: Pool, step: Step)
    requires Inv(s) && Enabled(s, step)
    ensures Inv(Apply(s, step))
  {
    hide At, ListsOk, LivePages, Apply, Enabled;
    ListsKept(s, step);
    PagesKept(s, step);
    forall id: nat ensures At(Apply(s, step), id) {
      match step
      case Take(slot, size) => TakeKeepsAt(s, slot, size, id);
      case Make(_, _) => MakeKeepsAt(s, step, id);
      case MakeRemote(_) => MakeKeepsAt(s, step, id);
      case Put(slot) => PutKeepsAt(s, slot, id);
      case DropRemote(_) => DropKeepsAt(s, step, id);
      case DropCached => DropKeepsAt(s, step, id);
    }
  }

  // ---------------------------------------------------------------- a context gives back everything

  /** The loop of `context_free` over the first `n` descriptors of a context. */
  function PutRow(s: Pool, ctx: nat, n: nat): Pool
    decreases n
  {
    if n == 0 then s
    else
      var s' := PutRow(s, ctx, n - 1);
      if Enabled(s', Put(Slot(ctx, n - 1))) then Apply(s', Put(Slot(ctx, n - 1))) else s'
  }

  /** It gives back exactly the buffers of that context. */
  lemma {:induction false} PutRowKeeps(s: Pool, ctx: nat, n: nat)
    requires Inv(s)
    ensures var s' := PutRow(s, ctx, n);
            && Inv(s') && s'.remote == s.remote && s'.next == s.next
            && (forall sl :: sl in s'.held <==> sl in s.held && !(sl.ctx == ctx && sl.index < n))
            && (forall sl :: sl in s'.held ==> s'.held[sl] == s.held[sl])
    decreases n
  {
    hide At, ListsOk, LivePages;
    if n > 0 {
      PutRowKeeps(s, ctx, n - 1);
      var s' := PutRow(s, ctx, n - 1);
      var slot := Slot(ctx, n - 1);
      if slot in s'.held {
        HeldNotListed(s', slot);
        StepKeeps(s', Put(slot));
      }
    }
  }
}
