/** `vfastrpc_alloc_pages`: fill a page table with `count` pages, asking an
    allocator that may refuse any request for blocks of falling order. */
module PageAlloc {
  import opened Lists
  import opened Bits
  import opened Wrappers

  /** One call of `alloc_pages_node`: the order, the NORETRY flag and the answer
      (first page of the block, or a refusal). */
  datatype Attempt = Attempt(order: nat, noRetry: bool, base: Option<nat>)

  /** The page allocator as an adversary: the answer to the n-th call, made with
      the given order. Since the calls before the n-th one are themselves fixed by
      the earlier answers, this covers allocators whose answers depend on history. */
  type Allocator = (nat, nat) -> Option<nat>

  /** The kernel's promise: blocks handed out by two calls do not overlap. */
  ghost predicate DisjointBlocks(alloc: Allocator) {
    forall i: nat, o: nat, j: nat, p: nat ::
      i < j && alloc(i, o).Some? && alloc(j, p).Some? ==>
        || alloc(i, o).value + Pow2(o) <= alloc(j, p).value
        || alloc(j, p).value + Pow2(p) <= alloc(i, o).value
  }

  ghost predicate AcceptsExactlyUpTo(alloc: Allocator, t: nat) {
    forall i: nat, o: nat :: alloc(i, o).Some? <==> o <= t
  }

  function Block(base: nat, n: nat): seq<nat> {
    seq(n, i requires 0 <= i < n => base + i)
  }

  function PagesOf(a: Attempt): seq<nat> {
    match a.base
    case None => []
    case Some(b) => Block(b, Pow2(a.order))
  }

  /** All pages obtained by a sequence of calls, in order. */
  function Granted(log: seq<Attempt>): seq<nat> {
    if log == [] then [] else Granted(log[..|log| - 1]) + PagesOf(log[|log| - 1])
  }

  function PageCount(log: seq<Attempt>): nat {
    if log == [] then 0 else |PagesOf(log[0])| + PageCount(log[1..])
  }

  function Grants(log: seq<Attempt>): nat {
    if log == [] then 0 else (if log[0].base.Some? then 1 else 0) + Grants(log[1..])
  }

  function Refusals(log: seq<Attempt>): nat {
    if log == [] then 0 else (if log[0].base.None? then 1 else 0) + Refusals(log[1..])
  }

  function Reverse(s: seq<nat>): seq<nat> {
    seq(|s|, i requires 0 <= i < |s| => s[|s| - 1 - i])
  }

  /** The calls made for `left` more pages when the orders below `w` are still open,
      numbered from `n`: always the largest open order that is not too big. */
  function Trace(left: nat, w: nat, n: nat, alloc: Allocator): seq<Attempt>
    decreases left + w
  {
    if left == 0 || w == 0 then []
    else
      FlsBounds(left);
      var order := Min(w - 1, Fls(left));
      Pow2Monotone(order, Fls(left));
      var a := Attempt(order, order > 0, alloc(n, order));
      if a.base.Some? then [a] + Trace(left - Pow2(order), order + 1, n + 1, alloc)
      else [a] + Trace(left, order, n + 1, alloc)
  }

  /** What the calls look like: answers come from the allocator, NORETRY is set exactly
      above order 0, orders never rise, and a refused order never recurs. */
  ghost predicate WellFormed(log: seq<Attempt>, w: nat, n: nat, alloc: Allocator) {
    && (forall i :: 0 <= i < |log| ==>
          && log[i].base == alloc(n + i, log[i].order)
          && (log[i].noRetry <==> log[i].order > 0)
          && log[i].order < w)
    && (forall i, j :: 0 <= i < j < |log| ==>
          && log[i].order >= log[j].order
          && (log[i].base.None? ==> log[i].order > log[j].order))
  }

  /** One unfolding of the trace. */
  lemma TraceStep(left: nat, w: nat, n: nat, alloc: Allocator)
    returns (order: nat, left': nat, w': nat)
    requires left > 0 && w > 0
    ensures order == Min(w - 1, Fls(left)) && Pow2(order) <= left
    ensures order + 1 == w || left < 2 * Pow2(order)
    ensures left' == if alloc(n, order).Some? then left - Pow2(order) else left
    ensures w' == if alloc(n, order).Some? then order + 1 else order
    ensures Trace(left, w, n, alloc)
         == [Attempt(order, order > 0, alloc(n, order))] + Trace(left', w', n + 1, alloc)
    ensures left' + w' < left + w && w' <= w
  {
    FlsBounds(left);
    order := Min(w - 1, Fls(left));
    Pow2Monotone(order, Fls(left));
    left' := if alloc(n, order).Some? then left - Pow2(order) else left;
    w' := if alloc(n, order).Some? then order + 1 else order;
  }

  lemma {:induction false} TraceAt(left: nat, w: nat, n: nat, alloc: Allocator, i: nat)
    requires i < |Trace(left, w, n, alloc)|
    ensures var a := Trace(left, w, n, alloc)[i];
            a.base == alloc(n + i, a.order) && (a.noRetry <==> a.order > 0) && a.order < w
    decreases left + w
  {
    var _, left', w' := TraceStep(left, w, n, alloc);
    if i > 0 {
      hide Trace, Fls, Pow2;
      TraceAt(left', w', n + 1, alloc, i - 1);
    }
  }

  lemma {:induction false} TraceFalls(left: nat, w: nat, n: nat, alloc: Allocator, i: nat, j: nat)
    requires i < j < |Trace(left, w, n, alloc)|
    ensures var log := Trace(left, w, n, alloc);
            log[i].order >= log[j].order && (log[i].base.None? ==> log[i].order > log[j].order)
    decreases left + w
  {
    var _, left', w' := TraceStep(left, w, n, alloc);
    hide Trace, Fls, Pow2;
    if i > 0 {
      TraceFalls(left', w', n + 1, alloc, i - 1, j - 1);
    } else {
      TraceAt(left', w', n + 1, alloc, j - 1);
    }
  }

  lemma TraceWellFormed(left: nat, w: nat, n: nat, alloc: Allocator)
    ensures WellFormed(Trace(left, w, n, alloc), w, n, alloc)
  {
    hide Trace;
    var log := Trace(left, w, n, alloc);
    forall i | 0 <= i < |log|
      ensures log[i].base == alloc(n + i, log[i].order) && log[i].order < w
      ensures log[i].noRetry <==> log[i].order > 0
    {
      TraceAt(left, w, n, alloc, i);
    }
    forall i, j | 0 <= i < j < |log|
      ensures log[i].order >= log[j].order && (log[i].base.None? ==> log[i].order > log[j].order)
    {
      TraceFalls(left, w, n, alloc, i, j);
    }
  }

  /** Each order is refused at most once. */
  lemma {:induction false} TraceRefusals(left: nat, w: nat, n: nat, alloc: Allocator)
    ensures Refusals(Trace(left, w, n, alloc)) <= w
    decreases left + w
  {
    if left > 0 && w > 0 {
      hide Trace, Fls, Pow2;
      var _, left', w' := TraceStep(left, w, n, alloc);
      TraceRefusals(left', w', n + 1, alloc);
      assert Trace(left, w, n, alloc)[1..] == Trace(left', w', n + 1, alloc);
    }
  }

  /** Either exactly the wanted pages are obtained, or the last call is a refusal of
      order 0 and some are missing. */
  lemma {:induction false} TraceExact(left: nat, w: nat, n: nat, alloc: Allocator)
    requires w > 0 || left == 0
    ensures var log := Trace(left, w, n, alloc);
            || PageCount(log) == left
            || (PageCount(log) < left && log != []
                && log[|log| - 1].order == 0 && log[|log| - 1].base.None?)
    decreases left + w
  {
    if left > 0 {
      var _, left', w' := TraceStep(left, w, n, alloc);
      var log, tail := Trace(left, w, n, alloc), Trace(left', w', n + 1, alloc);
      assert log[1..] == tail;
      if w' > 0 || left' == 0 {
        hide Trace, Fls, Pow2;
        TraceExact(left', w', n + 1, alloc);
        assert tail != [] ==> log[|log| - 1] == tail[|tail| - 1];
      }
    }
  }

  lemma {:induction false} PageCountExtends(log: seq<Attempt>, a: Attempt)
    ensures PageCount(log + [a]) == PageCount(log) + |PagesOf(a)|
  {
    hide PagesOf;
    if log == [] {
      assert [a][1..] == [];
    } else {
      PageCountExtends(log[1..], a);
      assert (log + [a])[1..] == log[1..] + [a];
    }
  }

  lemma GrantedStep(log: seq<Attempt>)
    requires log != []
    ensures Granted(log) == Granted(log[..|log| - 1]) + PagesOf(log[|log| - 1])
  {
    hide PagesOf;
  }

  lemma {:induction false} GrantedLength(log: seq<Attempt>)
    ensures |Granted(log)| == PageCount(log)
  {
    if log != [] {
      hide PagesOf, PageCount, Granted;
      var init, last := log[..|log| - 1], log[|log| - 1];
      GrantedStep(log);
      GrantedLength(init);
      PageCountExtends(init, last);
      assert log == init + [last];
    }
  }

  /** Every obtained page lies in the block of some granted call. */
  lemma {:induction false} GrantedFrom(log: seq<Attempt>, k: nat) returns (i: nat)
    requires k < |Granted(log)|
    ensures i < |log| && log[i].base.Some?
    ensures log[i].base.value <= Granted(log)[k] < log[i].base.value + Pow2(log[i].order)
  {
    var init := log[..|log| - 1];
    if k < |Granted(init)| {
      i := GrantedFrom(init, k);
    } else {
      i := |log| - 1;
    }
  }

  /** With a kernel that keeps its promise, no page is obtained twice. */
  lemma {:induction false} PagesDiffer(log: seq<Attempt>, alloc: Allocator, j: nat, k: nat)
    requires DisjointBlocks(alloc)
    requires forall i :: 0 <= i < |log| ==> log[i].base == alloc(i, log[i].order)
    requires j < k < |Granted(log)|
    ensures Granted(log)[j] != Granted(log)[k]
  {
    var n := |log| - 1;
    var init := log[..n];
    if k < |Granted(init)| {
      PagesDiffer(init, alloc, j, k);
    } else if j < |Granted(init)| {
      var i := GrantedFrom(init, j);
      assert alloc(i, log[i].order).Some? && alloc(n, log[n].order).Some?;
    }
  }

  // ---------------------------------------------------------------- optimality

  /** The fewest blocks of order at most `t` that add up to `c` pages (see
      `FewestBlocks`), by halving. */
  function MinChunks(c: nat, t: nat): nat
    decreases t
  {
    if t == 0 then c else c % 2 + MinChunks(c / 2, t - 1)
  }

  function TotalPages(orders: seq<nat>): nat {
    if orders == [] then 0 else Pow2(orders[0]) + TotalPages(orders[1..])
  }

  lemma PopCountOfDouble(x: nat, bit: nat)
    requires bit < 2
    ensures PopCount(2 * x + bit) == bit + PopCount(x)
  {
    assert (2 * x + bit) / 2 == x && (2 * x + bit) % 2 == bit;
  }

  /** The closed form: whole blocks of the top order plus one per set bit below it. */
  lemma {:induction false} MinChunksClosedForm(c: nat, t: nat)
    ensures MinChunks(c, t) == c / Pow2(t) + PopCount(c % Pow2(t))
    decreases t
  {
    if t > 0 {
      MinChunksClosedForm(c / 2, t - 1);
      Halved(c, Pow2(t - 1));
      PopCountOfDouble((c / 2) % Pow2(t - 1), c % 2);
    }
  }

  lemma {:induction false} MinChunksZero(t: nat)
    ensures MinChunks(0, t) == 0
    decreases t
  {
    if t > 0 { MinChunksZero(t - 1); }
  }

  lemma {:induction false} AddingABlock(c: nat, o: nat, t: nat)
    requires o <= t
    ensures MinChunks(c + Pow2(o), t) <= MinChunks(c, t) + 1
    decreases t
  {
    if t > 0 {
      if o > 0 {
        AddingABlock(c / 2, o - 1, t - 1);
        assert (c + Pow2(o)) / 2 == c / 2 + Pow2(o - 1);
      } else if c % 2 == 1 {
        AddingABlock(c / 2, 0, t - 1);
        assert (c + 1) / 2 == c / 2 + 1;
      }
    }
  }

  /** No way of splitting the request into blocks of order at most `t` uses fewer. */
  lemma {:induction false} FewestBlocks(orders: seq<nat>, t: nat)
    requires forall i :: 0 <= i < |orders| ==> orders[i] <= t
    ensures MinChunks(TotalPages(orders), t) <= |orders|
  {
    if orders == [] {
      MinChunksZero(t);
    } else {
      FewestBlocks(orders[1..], t);
      AddingABlock(TotalPages(orders[1..]), orders[0], t);
    }
  }

  /** Taking the largest block that is both allowed and not too big is a best move. */
  lemma {:induction false} GreedyIsBest(c: nat, o: nat, t: nat)
    requires o <= t && Pow2(o) <= c
    requires o == t || c < 2 * Pow2(o)
    ensures MinChunks(c, t) == 1 + MinChunks(c - Pow2(o), t)
    decreases t
  {
    if t > 0 && o > 0 {
      var half := Pow2(o - 1);
      assert half <= c / 2 && (c < 4 * half ==> c / 2 < 2 * half);
      GreedyIsBest(c / 2, o - 1, t - 1);
      assert (c - 2 * half) / 2 == c / 2 - half && (c - 2 * half) % 2 == c % 2;
    }
  }

  /** An allocator that grants exactly the orders up to `t` is asked for a fewest
      number of blocks. */
  lemma {:induction false} TraceOptimal(left: nat, w: nat, n: nat, alloc: Allocator, t: nat)
    requires AcceptsExactlyUpTo(alloc, t)
    requires w > t || left < Pow2(w)
    ensures var log := Trace(left, w, n, alloc);
            PageCount(log) == left && Grants(log) == MinChunks(left, t)
    decreases left + w
  {
    if left == 0 {
      MinChunksZero(t);
    } else {
      hide Trace, Fls, MinChunks, Granted;
      var order, left', w' := TraceStep(left, w, n, alloc);
      var log, tail := Trace(left, w, n, alloc), Trace(left', w', n + 1, alloc);
      assert log[0] == Attempt(order, order > 0, alloc(n, order)) && log[1..] == tail;
      if order <= t {
        assert alloc(n, order).Some?;
        GreedyIsBest(left, order, t);
      }
      TraceOptimal(left', w', n + 1, alloc, t);
    }
  }

  // ---------------------------------------------------------------- the loop

  /** `vfastrpc_free_pages`: from the last page to the first. */
  method FreePages(pages: seq<nat>) returns (freed: seq<nat>)
    ensures freed == Reverse(pages)
    ensures |freed| == |pages| && forall i :: 0 <= i < |pages| ==> freed[i] == pages[|pages| - 1 - i]
  {
    var count := |pages|;
    freed := [];
    while count > 0
      invariant 0 <= count <= |pages|
      invariant |freed| == |pages| - count
      invariant forall i :: 0 <= i < |freed| ==> freed[i] == pages[|pages| - 1 - i]
    {
      count := count - 1;
      freed := freed + [pages[count]];
    }
  }

  /** The mask arithmetic of one round: the highest order in the mask, its size in
      pages, whether it is not the last one, and the mask without it. */
  method TopOrder(mask: nat, ghost w: nat)
    returns (order: nat, orderSize: nat, noRetry: bool, rest: nat)
    requires w > 0 && mask == Pow2(w) - 1
    ensures order == w - 1 && orderSize == Pow2(order) && rest == orderSize - 1
    ensures noRetry <==> order > 0
  {
    FlsOfMask(w);
    order := Fls(mask);
    orderSize := Pow2(order);
    noRetry := mask > orderSize;
    ClearTopOfMask(w);
    rest := AndNot(mask, orderSize);
  }

  /** The mask clipped to orders that do not exceed the pages still wanted. */
  method ClipMask(mask: nat, left: nat, ghost w: nat) returns (clipped: nat)
    requires left > 0 && mask == Pow2(w) - 1
    ensures clipped == Pow2(Min(w, Fls(left) + 1)) - 1
  {
    AndOfMasks(w, Fls(left) + 1);
    clipped := And(mask, 2 * Pow2(Fls(left)) - 1);
  }

  /** The inner copying loop: the pages of one block go to consecutive table entries. */
  method StoreBlock(table: array<nat>, i: nat, page: nat, orderSize: nat)
    requires i + orderSize <= table.Length
    modifies table
    ensures table[..i + orderSize] == old(table[..i]) + Block(page, orderSize)
  {
    var k := i;
    while k < i + orderSize
      invariant i <= k <= i + orderSize
      invariant table[..i] == old(table[..i])
      invariant forall j :: i <= j < k ==> table[j] == page + (j - i)
    {
      table[k] := page + (k - i);
      k := k + 1;
    }
  }

  lemma GrantedExtends(log: seq<Attempt>, a: Attempt)
    ensures Granted(log + [a]) == Granted(log) + PagesOf(a)
  {
    assert (log + [a])[..|log|] == log;
  }

  lemma Assoc(a: seq<Attempt>, b: seq<Attempt>, c: seq<Attempt>)
    ensures a + (b + c) == a + b + c
  {
  }

  lemma WholeEnds(calls: seq<Attempt>, left: nat, w: nat, alloc: Allocator)
    requires left == 0 || w == 0
    ensures Whole(calls, left, w, alloc) == calls
  {
  }

  /** The calls made so far followed by those still to come. */
  ghost function Whole(calls: seq<Attempt>, left: nat, w: nat, alloc: Allocator): seq<Attempt> {
    calls + Trace(left, w, |calls|, alloc)
  }

  /** One call moves from the rest of the trace to the calls made. */
  lemma Advance(left: nat, w: nat, alloc: Allocator, calls: seq<Attempt>, a: Attempt)
    requires left > 0 && 0 < w <= Fls(left) + 1
    requires a == Attempt(w - 1, w > 1, alloc(|calls|, w - 1))
    ensures Pow2(w - 1) <= left
    ensures Whole(calls, left, w, alloc)
         == if a.base.Some? then Whole(calls + [a], left - Pow2(w - 1), w, alloc)
            else Whole(calls + [a], left, w - 1, alloc)
    ensures Granted(calls + [a]) == Granted(calls) + PagesOf(a)
  {
    var o, left', w' := TraceStep(left, w, |calls|, alloc);
    Assoc(calls, [a], Trace(left', w', |calls| + 1, alloc));
    GrantedExtends(calls, a);
  }

  /** The inner `for` loop: walks the mask down from its highest bit until a block is
      granted. The ghost `w` is the number of bits left in the mask. */
  method TryOrders(mask0: nat, ghost w: nat, ghost left: nat, calls0: seq<Attempt>, alloc: Allocator)
    returns (mask: nat, order: nat, page: Option<nat>, calls: seq<Attempt>)
    requires left > 0 && 0 < w <= Fls(left) + 1 && mask0 == Pow2(w) - 1
    ensures page.Some? ==>
              && Pow2(order) <= left && mask == Pow2(order + 1) - 1
              && Granted(calls) == Granted(calls0) + Block(page.value, Pow2(order))
              && Whole(calls, left - Pow2(order), order + 1, alloc) == Whole(calls0, left, w, alloc)
    ensures page.None? ==>
              Granted(calls) == Granted(calls0) && calls == Whole(calls0, left, w, alloc)
  {
    hide Trace, Fls, Granted, Whole;
    mask, order, page, calls := mask0, 0, None, calls0;
    ghost var v: nat := w;
    while mask > 0
      invariant v <= w && mask == Pow2(v) - 1 && page.None?
      invariant Granted(calls) == Granted(calls0)
      invariant Whole(calls, left, v, alloc) == Whole(calls0, left, w, alloc)
    {
      var orderSize, noRetry, rest;
      order, orderSize, noRetry, rest := TopOrder(mask, v);
      page := alloc(|calls|, order);
      var attempt := Attempt(order, noRetry, page);
      Advance(left, v, alloc, calls, attempt);
      calls := calls + [attempt];
      if page.Some? { return; }
      mask, v := rest, v - 1;
    }
    WholeEnds(calls, left, 0, alloc);
  }

  /** `vfastrpc_alloc_pages`. `tableOk` says whether the page table itself could be
      allocated; `calls` is the sequence of allocator calls made. */
  method AllocPages(count: nat, maxOrder: nat, tableOk: bool, alloc: Allocator)
    returns (pages: Option<seq<nat>>, freed: seq<nat>, calls: seq<Attempt>)
    ensures calls == if tableOk then Trace(count, maxOrder + 1, 0, alloc) else []
    ensures pages.Some? ==>
              tableOk && pages.value == Granted(calls) && |pages.value| == count && freed == []
    ensures pages.None? ==> freed == Reverse(Granted(calls)) && (tableOk ==> |freed| < count)
  {
    hide Trace, Fls, Granted, Whole;
    pages, freed, calls := None, [], [];
    var mask := 2 * Pow2(maxOrder) - 1;
    WholeStarts(count, maxOrder + 1, alloc);
    if !tableOk { return; }
    var table := new nat[count];
    var left: nat, i: nat := count, 0;
    ghost var w: nat := maxOrder + 1;
    while left > 0
      invariant i + left == count
      invariant w > 0 && mask == Pow2(w) - 1
      invariant table[..i] == Granted(calls)
      invariant Whole(calls, left, w, alloc) == Trace(count, maxOrder + 1, 0, alloc)
    {
      mask := ClipMask(mask, left, w);
      WholeClip(calls, left, w, alloc);
      w := Min(w, Fls(left) + 1);
      var order, page;
      mask, order, page, calls := TryOrders(mask, w, left, calls, alloc);
      if page.None? {
        freed := FreePages(table[..i]);
        return;
      }
      left := left - Pow2(order);
      StoreBlock(table, i, page.value, Pow2(order));
      i, w := i + Pow2(order), order + 1;
    }
    WholeEnds(calls, left, w, alloc);
    pages := Some(table[..]);
    assert table[..] == table[..i];
  }

  /** Orders too big for the request are not called, so masking them changes nothing. */
  lemma WholeClip(calls: seq<Attempt>, left: nat, w: nat, alloc: Allocator)
    requires left > 0 && w > 0
    ensures Whole(calls, left, w, alloc) == Whole(calls, left, Min(w, Fls(left) + 1), alloc)
  {
    hide Trace, Fls;
    var o, left', w' := TraceStep(left, w, |calls|, alloc);
    var _, _, _ := TraceStep(left, Min(w, Fls(left) + 1), |calls|, alloc);
  }

  lemma WholeStarts(left: nat, w: nat, alloc: Allocator)
    ensures Whole([], left, w, alloc) == Trace(left, w, 0, alloc) && Granted([]) == []
  {
  }

  /** The promises of the allocation taken together: distinct pages in blocks of falling
      order, each order refused at most once, and a fewest number of blocks when the
      allocator grants exactly the orders up to `t`. */
  lemma AllocationProperties(count: nat, maxOrder: nat, alloc: Allocator, t: nat)
    ensures var calls := Trace(count, maxOrder + 1, 0, alloc);
            && WellFormed(calls, maxOrder + 1, 0, alloc)
            && Refusals(calls) <= maxOrder + 1
            && (|Granted(calls)| == count
                || (calls != [] && calls[|calls| - 1].order == 0 && calls[|calls| - 1].base.None?))
            && (DisjointBlocks(alloc) ==> NoDuplicates(Granted(calls)))
            && (AcceptsExactlyUpTo(alloc, t) && t <= maxOrder ==>
                  && |Granted(calls)| == count
                  && Grants(calls) == count / Pow2(t) + PopCount(count % Pow2(t)))
  {
    hide Trace, Granted, Grants, Refusals, PageCount;
    var calls := Trace(count, maxOrder + 1, 0, alloc);
    TraceWellFormed(count, maxOrder + 1, 0, alloc);
    TraceRefusals(count, maxOrder + 1, 0, alloc);
    TraceExact(count, maxOrder + 1, 0, alloc);
    GrantedLength(calls);
    if DisjointBlocks(alloc) {
      forall j, k | 0 <= j < k < |Granted(calls)| ensures Granted(calls)[j] != Granted(calls)[k] {
        PagesDiffer(calls, alloc, j, k);
      }
    }
    if AcceptsExactlyUpTo(alloc, t) && t <= maxOrder {
      TraceOptimal(count, maxOrder + 1, 0, alloc, t);
      MinChunksClosedForm(count, t);
    }
  }
}
