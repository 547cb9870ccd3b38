/** The references that contexts hold in their tables: acquired one by one by the sizing pass
    and the handle pass of `get_args`, dropped by `put_args`, the fdlist and `context_free`. */
module Slots {
  import opened Lists
  import opened Wrappers
  import opened MapTable
  import opened MapLedger
  import opened MapRuns

  /** A DMA handle of an invoke: its descriptor, map flags and what creating it meets. */
  datatype HandleRequest = HandleRequest(fd: int, flags: int, env: CreateEnv)

  /** The `maps` table of a context, for its buffer arguments. */
  type Row = seq<Option<MapId>>

  function NoMaps(n: nat): (r: Row)
    ensures |r| == n
  {
    seq(n, _ => None)
  }

  /** Releasing buffer slots one by one (`context_free`, `put_args`); an empty slot is
      skipped. */
  function ReleaseAll(t: Table, maps: seq<Option<MapId>>): Table
    decreases |maps|
  {
    if maps == [] then t
    else match maps[0]
         case Some(id) => ReleaseAll(if id in t.heap then FreeCtx(t, id) else t, maps[1..])
         case None => ReleaseAll(t, maps[1..])
  }

  /** The handle pass of `get_args`: a failing entry gives back all `taken` so far. */
  function TakeHandles(t: Table, reqs: seq<Option<HandleRequest>>, taken: seq<Option<MapId>>):
    (Table, Option<seq<Option<MapId>>>)
    decreases |reqs|
  {
    if reqs == [] then (t, Some(taken))
    else match reqs[0]
         case None => TakeHandles(t, reqs[1..], taken + [None])
         case Some(q) =>
           var (t', r) := Create(t, q.fd, false, 0, 0, q.flags, q.env);
           if r.Some? && r.value in t'.heap
           then TakeHandles(TakeCtx(t', r.value), reqs[1..], taken + [r])
           else (ReleaseAll(t', taken), None)
  }

  /** The fdlist of a response: entries up to the first zero. */
  function ReleaseFds(t: Table, fds: seq<int>): Table
    decreases |fds|
  {
    if fds == [] || fds[0] == 0 then t
    else match Lookup(t, fds[0], 0, 0)
         case Some(id) => ReleaseFds(FreeCtx(t, id), fds[1..])
         case None => ReleaseFds(t, fds[1..])
  }

  /** How many listed KEEP_MAP objects belong to a descriptor. */
  function CountForFd(ids: seq<MapId>, heap: map<MapId, Mapping>, fd: int): nat {
    if ids == [] then 0
    else (if ids[0] in heap && ForFd(heap[ids[0]], fd) then 1 else 0) + CountForFd(ids[1..], heap, fd)
  }

  // ---------------------------------------------------------------- what the loops do

  function Ids(maps: seq<Option<MapId>>): multiset<MapId> {
    if maps == [] then multiset{}
    else (if maps[0].Some? then multiset{maps[0].value} else multiset{}) + Ids(maps[1..])
  }

  lemma {:induction false} IdsConcat(a: seq<Option<MapId>>, b: seq<Option<MapId>>)
    ensures Ids(a + b) == Ids(a) + Ids(b)
  {
    if a == [] {
      assert a + b == b;
    } else {
      ConcatTail(a, b);
      IdsConcat(a[1..], b);
      var h := if a[0].Some? then multiset{a[0].value} else multiset{};
      Regroup(h, Ids(a[1..]), Ids(b));
    }
  }

  lemma ConcatTail<X>(a: seq<X>, b: seq<X>)
    requires a != []
    ensures a + b != [] && (a + b)[0] == a[0] && (a + b)[1..] == a[1..] + b
  {
  }

  lemma Regroup<X>(a: multiset<X>, b: multiset<X>, c: multiset<X>)
    ensures a + (b + c) == a + b + c
  {
  }

  /** The ledger with some slot or handle references taken out. */
  function Less(g: Ledger, kind: Kind, ids: multiset<MapId>): Ledger {
    if kind.Slot? then g.(slots := g.slots - ids) else g.(handles := g.handles - ids)
  }

  lemma LessInTwo(g: Ledger, kind: Kind, a: multiset<MapId>, b: multiset<MapId>)
    ensures Less(Less(g, kind, a), kind, b) == Less(g, kind, a + b)
    ensures Less(g, kind, multiset{}) == g
  {
    assert g.slots - a - b == g.slots - (a + b) && g.handles - a - b == g.handles - (a + b);
    assert g.slots - multiset{} == g.slots && g.handles - multiset{} == g.handles;
  }

  /** Giving back the slots of a context drops exactly their references. */
  lemma {:induction false} ReleaseAllKeeps(s: State, maps: seq<Option<MapId>>, kind: Kind)
    requires Inv(s) && !kind.User?
    requires Ids(maps) <= if kind.Slot? then s.g.slots else s.g.handles
    ensures Inv(State(ReleaseAll(s.t, maps), Less(s.g, kind, Ids(maps))))
    ensures Clean(s) ==> Clean(State(ReleaseAll(s.t, maps), Less(s.g, kind, Ids(maps))))
    decreases |maps|
  {
    hide Inv, FreeCtx, Clean;
    if maps == [] {
      LessInTwo(s.g, kind, multiset{}, multiset{});
    } else if maps[0].None? {
      assert Ids(maps) == Ids(maps[1..]);
      ReleaseAllKeeps(s, maps[1..], kind);
    } else {
      var id := maps[0].value;
      assert id in Ids(maps);
      HolderListed(s, id);
      DropExact(s, id, kind);
      if Clean(s) { DropClean(s, id, kind); }
      var g1 := Less(s.g, kind, multiset{id});
      ReleaseAllKeeps(State(FreeCtx(s.t, id), g1), maps[1..], kind);
      LessInTwo(s.g, kind, multiset{id}, Ids(maps[1..]));
    }
  }

  /** The ledger after a handle pass that started with `taken` and ended with `r`. */
  function AfterHandles(g: Ledger, taken: seq<Option<MapId>>, r: Option<seq<Option<MapId>>>): Ledger {
    g.(handles := g.handles - Ids(taken) + if r.Some? then Ids(r.value) else multiset{})
  }

  /** The handle pass: success enters one handle reference per request, failure leaves the
      ledger as it was before the pass. */
  lemma {:induction false} TakeHandlesKeeps(s: State, reqs: seq<Option<HandleRequest>>, taken: seq<Option<MapId>>)
    requires Inv(s) && Ids(taken) <= s.g.handles
    requires forall i :: 0 <= i < |reqs| && reqs[i].Some? ==> !HeapFlags(reqs[i].value.flags)
    ensures var (t', r) := TakeHandles(s.t, reqs, taken);
            && (r.Some? ==> |r.value| == |taken| + |reqs|)
            && Inv(State(t', AfterHandles(s.g, taken, r)))
            && (Clean(s) ==> Clean(State(t', AfterHandles(s.g, taken, r))))
    decreases |reqs|
  {
    hide Inv, Create, FreeCtx, Clean;
    if reqs == [] {
      assert s.g.handles - Ids(taken) + Ids(taken) == s.g.handles;
      assert AfterHandles(s.g, taken, Some(taken)) == s.g;
      return;
    }
    var rest := reqs[1..];
    assert forall i :: 0 <= i < |rest| ==> rest[i] == reqs[i + 1];
    if reqs[0].None? {
      IdsConcat(taken, [None]);
      assert Ids(taken + [None]) == Ids(taken);
      TakeHandlesKeeps(s, rest, taken + [None]);
    } else {
      hide AfterHandles, ReleaseAll;
      var q := reqs[0].value;
      var r := Create(s.t, q.fd, false, 0, 0, q.flags, q.env).1;
      var s1 := HandleStep(s, q, taken);
      if r.Some? {
        TakeHandlesKeeps(s1, rest, taken + [r]);
        assert TakeHandles(s.t, reqs, taken) == TakeHandles(s1.t, rest, taken + [r]);
        var end := TakeHandles(s1.t, rest, taken + [r]).1;
        assert AfterHandles(s1.g, taken + [r], end) == AfterHandles(s.g, taken, end);
      }
    }
  }

  /** One request of the pass. */
  lemma HandleStep(s: State, q: HandleRequest, taken: seq<Option<MapId>>) returns (s1: State)
    requires Inv(s) && Ids(taken) <= s.g.handles && !HeapFlags(q.flags)
    ensures var (t', r) := Create(s.t, q.fd, false, 0, 0, q.flags, q.env);
            if r.Some? then
              && r.value in t'.heap && s1.t == TakeCtx(t', r.value) && Inv(s1) && (Clean(s) ==> Clean(s1))
              && Ids(taken + [r]) <= s1.g.handles
              && forall x :: AfterHandles(s1.g, taken + [r], x) == AfterHandles(s.g, taken, x)
            else
              && Inv(State(ReleaseAll(t', taken), AfterHandles(s.g, taken, None)))
              && (Clean(s) ==> Clean(State(ReleaseAll(t', taken), AfterHandles(s.g, taken, None))))
  {
    hide Inv, Create, FreeCtx, ReleaseAll, Clean;
    var (t', r) := Create(s.t, q.fd, false, 0, 0, q.flags, q.env);
    s1 := Acquire(s, q.fd, false, 0, 0, q.flags, q.env, Handle);
    AcquireKeeps(s, q.fd, false, 0, 0, q.flags, q.env, Handle);
    if Clean(s) { AcquireClean(s, q.fd, false, 0, 0, q.flags, q.env, Handle); }
    PlainCreateLosesNothing(s, q.fd, q.flags, q.env);
    if r.Some? {
      OneMore(s.g.handles, taken, r.value);
    } else {
      ReleaseAllKeeps(s1, taken, Handle);
      assert s.g.handles - Ids(taken) + multiset{} == s.g.handles - Ids(taken);
    }
  }

  lemma OneMore(m: multiset<MapId>, taken: seq<Option<MapId>>, id: MapId)
    requires Ids(taken) <= m
    ensures Ids(taken + [Some(id)]) <= m + multiset{id}
    ensures m + multiset{id} - Ids(taken + [Some(id)]) == m - Ids(taken)
  {
    IdsConcat(taken, [Some(id)]);
    assert [Some(id)][1..] == [] && Ids([Some(id)]) == multiset{id};
  }

  /** The fdlist of a response as ledger steps. */
  function FdlistSteps(fds: seq<int>): seq<Step> {
    if fds == [] || fds[0] == 0 then [] else [ReleaseFd(fds[0])] + FdlistSteps(fds[1..])
  }

  /** Working off an fdlist is a run of the ledger, so its counts stay right exactly when
      each entry finds an object with an outstanding handle reference. */
  lemma {:induction false} FdlistIsARun(s: State, fds: seq<int>)
    requires Inv(s)
    ensures Legal(s, FdlistSteps(fds)) && Run(s, FdlistSteps(fds)).t == ReleaseFds(s.t, fds)
    ensures InvThroughout(s, FdlistSteps(fds)) <==> RegularRun(s, FdlistSteps(fds))
    decreases |fds|
  {
    FdlistRunTable(s, fds);
    LedgerOverRuns(s, FdlistSteps(fds));
  }

  lemma {:induction false} FdlistRunTable(s: State, fds: seq<int>)
    ensures Legal(s, FdlistSteps(fds)) && Run(s, FdlistSteps(fds)).t == ReleaseFds(s.t, fds)
    decreases |fds|
  {
    if fds != [] && fds[0] != 0 {
      hide FreeCtx, FirstMatch;
      var s' := Apply(s, ReleaseFd(fds[0]));
      FdlistRunTable(s', fds[1..]);
      assert FdlistSteps(fds)[1..] == FdlistSteps(fds[1..]);
    }
  }

  /** `munmap_fd` on the table is the table part of the ledger step. */
  lemma {:induction false} RemoveFdIsAStep(s: State, ids: seq<MapId>, fd: int)
    ensures DropPins(s, ids, fd).t == RemoveFdFrom(s.t, ids, fd)
    decreases |ids|
  {
    if ids != [] {
      if ids[0] in s.t.heap && ForFd(s.t.heap[ids[0]], fd) {
        RemoveFdIsAStep(DropPin(s, ids[0]), ids[1..], fd);
      } else {
        RemoveFdIsAStep(s, ids[1..], fd);
      }
    }
  }

  /** Without KEEP_MAP and heap flags, a failed create leaves nothing behind. */
  lemma PlainCreateLosesNothing(s: State, fd: int, flags: int, env: CreateEnv)
    requires Inv(s) && !HeapFlags(flags)
    ensures var (t', r) := Create(s.t, fd, false, 0, 0, flags, env);
            && AfterCreate(s.g, s.t, t', r, false) == s.g
            && (r.Some? ==> r.value in t'.heap)
  {
    assert Local(s, s.t.next);
    hide FirstMatch, Without;
  }

  /** Two states with right counts and the same holders list the same objects with the
      same counts: so a failed handle pass is invisible. */
  lemma SameHoldersSameCounts(s: State, s': State, k: MapId)
    requires Inv(s) && Inv(s') && s.g == s'.g
    ensures k in s.t.list <==> k in s'.t.list
    ensures k in s.t.list ==> k in s.t.heap && k in s'.t.heap
    ensures k in s.t.list ==>
              s.t.heap[k].refs == s'.t.heap[k].refs && s.t.heap[k].ctxRefs == s'.t.heap[k].ctxRefs
  {
    assert Local(s, k) && Local(s', k);
  }

  /** A failed handle pass lists the same objects with the same counts as before. */
  lemma FailedHandlePass(s: State, reqs: seq<Option<HandleRequest>>, k: MapId)
    requires Inv(s)
    requires forall i :: 0 <= i < |reqs| && reqs[i].Some? ==> !HeapFlags(reqs[i].value.flags)
    requires TakeHandles(s.t, reqs, []).1.None?
    ensures var t' := TakeHandles(s.t, reqs, []).0;
            && (k in s.t.list <==> k in t'.list)
            && (k in s.t.list && k in t'.heap && k in s.t.heap ==>
                  s.t.heap[k].refs == t'.heap[k].refs && s.t.heap[k].ctxRefs == t'.heap[k].ctxRefs)
  {
    hide Inv, TakeHandles;
    TakeHandlesKeeps(s, reqs, []);
    assert s.g.handles - Ids([]) + multiset{} == s.g.handles;
    assert AfterHandles(s.g, [], None) == s.g;
    SameHoldersSameCounts(s, State(TakeHandles(s.t, reqs, []).0, s.g), k);
  }

  // ---------------------------------------------------------------- tables of contexts

  /** The ledger state after giving back the slots of a row. */
  function ReleasedRow(s: State, row: Row): State {
    State(ReleaseAll(s.t, row), Less(s.g, Kind.Slot, Ids(row)))
  }

  predicate PlainHandles(reqs: seq<Option<HandleRequest>>) {
    forall i :: 0 <= i < |reqs| && reqs[i].Some? ==> !HeapFlags(reqs[i].value.flags)
  }

  function AfterHandlePass(s: State, reqs: seq<Option<HandleRequest>>): State {
    var (t', r) := TakeHandles(s.t, reqs, []);
    State(t', AfterHandles(s.g, [], r))
  }

  lemma HandlePassKeeps(s: State, reqs: seq<Option<HandleRequest>>)
    requires Inv(s) && PlainHandles(reqs)
    ensures Inv(AfterHandlePass(s, reqs)) && AfterHandlePass(s, reqs).g.slots == s.g.slots
    ensures Clean(s) ==> Clean(AfterHandlePass(s, reqs))
  {
    hide Inv, TakeHandles, Clean;
    TakeHandlesKeeps(s, reqs, []);
  }

  lemma {:induction false} IdsOfNoMaps(n: nat)
    ensures Ids(NoMaps(n)) == multiset{}
  {
    if n > 0 {
      assert NoMaps(n)[1..] == NoMaps(n - 1);
      IdsOfNoMaps(n - 1);
    }
  }

  /** Changing one entry of a row. */
  lemma {:induction false} IdsUpdate(row: Row, n: nat, x: Option<MapId>)
    requires n < |row|
    ensures Ids(row[n := x]) + Ids([row[n]]) == Ids(row) + Ids([x])
  {
    IdsOne(row[n]);
    IdsOne(x);
    if n > 0 {
      assert row[n := x][1..] == row[1..][n - 1 := x];
      IdsUpdate(row[1..], n - 1, x);
      AddFront(Ids([row[0]]), Ids(row[1..][n - 1 := x]), Ids([row[n]]), Ids(row[1..]), Ids([x]));
      IdsOne(row[0]);
    } else {
      assert row[0 := x][1..] == row[1..];
    }
  }

  lemma AddFront<X>(h: multiset<X>, a: multiset<X>, x: multiset<X>, b: multiset<X>, y: multiset<X>)
    requires a + x == b + y
    ensures h + a + x == h + b + y
  {
    assert h + a + x == h + (a + x) && h + b + y == h + (b + y);
  }

  lemma IdsOne(x: Option<MapId>)
    ensures Ids([x]) == if x.Some? then multiset{x.value} else multiset{}
  {
    assert [x][1..] == [];
  }

  /** All slot references of the listed contexts. */
  function SlotsOf(maps: map<nat, Row>, list: seq<nat>): multiset<MapId> {
    if list == [] then multiset{}
    else (if list[0] in maps then Ids(maps[list[0]]) else multiset{}) + SlotsOf(maps, list[1..])
  }

  lemma {:induction false} SlotsOfSame(a: map<nat, Row>, b: map<nat, Row>, list: seq<nat>)
    requires forall i :: 0 <= i < |list| ==>
               (list[i] in a <==> list[i] in b) && (list[i] in a ==> Ids(a[list[i]]) == Ids(b[list[i]]))
    ensures SlotsOf(a, list) == SlotsOf(b, list)
  {
    if list != [] {
      assert forall i :: 0 <= i < |list[1..]| ==> list[1..][i] == list[i + 1];
      SlotsOfSame(a, b, list[1..]);
    }
  }

  /** A context that is not on the list does not matter. */
  lemma SlotsOfOthers(maps: map<nat, Row>, list: seq<nat>, c: nat, row: Row)
    requires c !in list
    ensures SlotsOf(maps[c := row], list) == SlotsOf(maps, list) == SlotsOf(maps - {c}, list)
  {
    SlotsOfSame(maps, maps[c := row], list);
    SlotsOfSame(maps, maps - {c}, list);
  }

  lemma {:induction false} SlotsOfUpdate(maps: map<nat, Row>, list: seq<nat>, c: nat, row: Row)
    requires NoDuplicates(list) && c in list && c in maps
    ensures SlotsOf(maps[c := row], list) + Ids(maps[c]) == SlotsOf(maps, list) + Ids(row)
  {
    if list[0] == c {
      assert c !in list[1..];
      SlotsOfOthers(maps, list[1..], c, row);
    } else {
      SlotsOfUpdate(maps, list[1..], c, row);
      var h := if list[0] in maps then Ids(maps[list[0]]) else multiset{};
      AddFront(h, SlotsOf(maps[c := row], list[1..]), Ids(maps[c]), SlotsOf(maps, list[1..]), Ids(row));
    }
  }

  lemma {:induction false} SlotsOfWithout(maps: map<nat, Row>, list: seq<nat>, c: nat)
    requires NoDuplicates(list) && c in list && c in maps
    ensures SlotsOf(maps, Without(list, c)) + Ids(maps[c]) == SlotsOf(maps, list)
  {
    if list[0] == c {
      WithoutFirst(list);
    } else {
      SlotsOfWithout(maps, list[1..], c);
      assert Without(list, c) == [list[0]] + Without(list[1..], c);
      assert Without(list, c)[1..] == Without(list[1..], c);
    }
  }

  lemma {:induction false} SlotsOfMember(maps: map<nat, Row>, list: seq<nat>, c: nat)
    requires c in list && c in maps
    ensures Ids(maps[c]) <= SlotsOf(maps, list)
  {
    if list[0] != c { SlotsOfMember(maps, list[1..], c); }
  }

  lemma {:induction false} SlotsOfConcat(maps: map<nat, Row>, a: seq<nat>, b: seq<nat>)
    ensures SlotsOf(maps, a + b) == SlotsOf(maps, a) + SlotsOf(maps, b)
  {
    if a == [] {
      assert a + b == b;
    } else {
      ConcatTail(a, b);
      SlotsOfConcat(maps, a[1..], b);
      Regroup(if a[0] in maps then Ids(maps[a[0]]) else multiset{}, SlotsOf(maps, a[1..]), SlotsOf(maps, b));
    }
  }

  // ---------------------------------------------------------------- one invoke, whatever happens to it

  /** A buffer argument with an ION buffer, and what creating its mapping meets. */
  datatype BufRequest = BufRequest(fd: int, keep: bool, va: nat, len: nat, env: CreateEnv)

  /** The sizing pass of `get_args`: it stops at the first buffer that cannot be mapped and
      leaves the rest of the table empty. */
  function TakeSlots(t: Table, reqs: seq<Option<BufRequest>>, taken: Row): (Table, Row, bool)
    decreases |reqs|
  {
    if reqs == [] then (t, taken, true)
    else match reqs[0]
         case None => TakeSlots(t, reqs[1..], taken + [None])
         case Some(q) =>
           var (t1, r) := Create(t, q.fd, q.keep, q.va, q.len, 0, q.env);
           if r.Some? && r.value in t1.heap then TakeSlots(TakeCtx(t1, r.value), reqs[1..], taken + [r])
           else (t1, taken + NoMaps(|reqs|), false)
  }

  /** The same with its holders. */
  function Sized(s: State, reqs: seq<Option<BufRequest>>): State
    decreases |reqs|
  {
    if reqs == [] then s
    else match reqs[0]
         case None => Sized(s, reqs[1..])
         case Some(q) =>
           var s1 := Acquire(s, q.fd, q.keep, q.va, q.len, 0, q.env, Kind.Slot);
           if Create(s.t, q.fd, q.keep, q.va, q.len, 0, q.env).1.Some? then Sized(s1, reqs[1..]) else s1
  }

  /** One buffer of the pass. */
  lemma SizeStep(s: State, q: BufRequest)
    requires Inv(s)
    ensures var (t1, r) := Create(s.t, q.fd, q.keep, q.va, q.len, 0, q.env);
            var s1 := Acquire(s, q.fd, q.keep, q.va, q.len, 0, q.env, Kind.Slot);
            && Inv(s1) && s1.g.slots == s.g.slots + Ids([r])
            && (r.Some? ==> r.value in t1.heap && s1.t == TakeCtx(t1, r.value)) && (r.None? ==> s1.t == t1)
  {
    AcquireKeeps(s, q.fd, q.keep, q.va, q.len, 0, q.env, Kind.Slot);
    IdsOne(Create(s.t, q.fd, q.keep, q.va, q.len, 0, q.env).1);
    assert Local(s, s.t.next);
    hide Inv, Local, Create;
    CreateCases(s.t, q.fd, q.keep, q.va, q.len, 0, q.env);
  }

  /** Wherever the sizing pass stops, it has entered exactly the references in its table. */
  lemma {:induction false} SizedKeeps(s: State, reqs: seq<Option<BufRequest>>, taken: Row)
    requires Inv(s)
    ensures var (t', row, ok) := TakeSlots(s.t, reqs, taken);
            && Inv(Sized(s, reqs)) && Sized(s, reqs).t == t' && |row| == |taken| + |reqs|
            && Sized(s, reqs).g.slots + Ids(taken) == s.g.slots + Ids(row)
    decreases |reqs|
  {
    hide Inv, Acquire, Create, TakeCtx, Ids;
    if reqs == [] {
    } else if reqs[0].None? {
      SizedKeeps(s, reqs[1..], taken + [None]);
      IdsConcat(taken, [None]);
      IdsOne(None);
    } else {
      var q := reqs[0].value;
      var r := Create(s.t, q.fd, q.keep, q.va, q.len, 0, q.env).1;
      var s1 := Acquire(s, q.fd, q.keep, q.va, q.len, 0, q.env, Kind.Slot);
      SizeStep(s, q);
      if r.Some? {
        SizedKeeps(s1, reqs[1..], taken + [r]);
        IdsConcat(taken, [r]);
        Cancel(Sized(s1, reqs[1..]).g.slots, Ids(taken), Ids([r]), s.g.slots, Ids(TakeSlots(s1.t, reqs[1..], taken + [r]).1));
      } else {
        IdsOne(r);
        IdsConcat(taken, NoMaps(|reqs|));
        IdsOfNoMaps(|reqs|);
      }
    }
  }

  lemma Cancel<X>(end: multiset<X>, taken: multiset<X>, one: multiset<X>, start: multiset<X>, row: multiset<X>)
    requires end + (taken + one) == start + one + row
    ensures end + taken == start + row
  {
    forall x ensures (end + taken)[x] == (start + row)[x] {
      assert (end + (taken + one))[x] == (start + one + row)[x];
    }
  }

  /** The table after `put_args` has dropped its outputs from `lo` up to `hi`. */
  function Cleared(row: Row, lo: nat, hi: nat): (r: Row)
    requires lo <= hi <= |row|
    ensures |r| == |row|
  {
    row[..lo] + NoMaps(hi - lo) + row[hi..]
  }

  lemma IdsCleared(row: Row, lo: nat, hi: nat)
    requires lo <= hi <= |row|
    ensures Ids(Cleared(row, lo, hi)) + Ids(row[lo..hi]) == Ids(row)
  {
    hide Ids;
    var a, b, c, none := row[..lo], row[lo..hi], row[hi..], NoMaps(hi - lo);
    ThreeParts(row, lo, hi);
    hide NoMaps;
    IdsConcat(a + none, c);
    IdsConcat(a, none);
    assert Ids(none) == multiset{} by { IdsOfNoMaps(hi - lo); }
    IdsConcat(a + b, c);
    IdsConcat(a, b);
    MoveLast(Ids(a), Ids(b), Ids(c));
  }

  lemma ThreeParts(row: Row, lo: nat, hi: nat)
    requires lo <= hi <= |row|
    ensures row == row[..lo] + row[lo..hi] + row[hi..]
  {
  }

  lemma MoveLast<X>(a: multiset<X>, b: multiset<X>, c: multiset<X>)
    ensures a + multiset{} + c + b == a + b + c
  {
  }

  /** `put_args` and then `context_free`: wherever `put_args` stops, every reference in the
      table is dropped, and dropped once. */
  lemma PutThenFree(s: State, row: Row, lo: nat, hi: nat)
    requires Inv(s) && lo <= hi <= |row| && Ids(row) <= s.g.slots
    ensures var s1 := ReleasedRow(s, row[lo..hi]);
            var s2 := ReleasedRow(s1, Cleared(row, lo, hi));
            Inv(s1) && Inv(s2) && s2.g == s.g.(slots := s.g.slots - Ids(row))
  {
    hide Inv, Ids, ReleaseAll, Cleared;
    IdsCleared(row, lo, hi);
    var s1 := ReleasedRow(s, row[lo..hi]);
    ReleaseAllKeeps(s, row[lo..hi], Kind.Slot);
    assert Ids(Cleared(row, lo, hi)) <= s1.g.slots;
    ReleaseAllKeeps(s1, Cleared(row, lo, hi), Kind.Slot);
    LessInTwo(s.g, Kind.Slot, Ids(row[lo..hi]), Ids(Cleared(row, lo, hi)));
    assert Ids(row[lo..hi]) + Ids(Cleared(row, lo, hi)) == Ids(row);
  }

  /** One invoke from beginning to end: the sizing pass may stop anywhere, the handle pass may
      fail, `put_args` may not be reached (`lo == hi`) or stop at any output; the slot
      references are afterwards exactly what they were before. */
  lemma InvokeIsBalanced(s: State, reqs: seq<Option<BufRequest>>, handles: seq<Option<HandleRequest>>, lo: nat, hi: nat)
    requires Inv(s) && PlainHandles(handles) && lo <= hi <= |reqs|
    ensures var row := TakeSlots(s.t, reqs, []).1;
            && |row| == |reqs|
            && var s1 := AfterHandlePass(Sized(s, reqs), handles);
            var s2 := ReleasedRow(s1, row[lo..hi]);
            var s3 := ReleasedRow(s2, Cleared(row, lo, hi));
            Inv(s3) && s3.g.slots == s.g.slots
  {
    hide Inv, Ids, ReleaseAll, Cleared, Sized, TakeSlots, TakeHandles, AfterHandlePass;
    SizedKeeps(s, reqs, []);
    HandlePassKeeps(Sized(s, reqs), handles);
    var row := TakeSlots(s.t, reqs, []).1;
    assert Ids([]) == multiset{} by { IdsOfNoMaps(0); }
    assert Sized(s, reqs).g.slots + multiset{} == Sized(s, reqs).g.slots;
    var s1 := AfterHandlePass(Sized(s, reqs), handles);
    assert Ids(row) <= s1.g.slots;
    PutThenFree(s1, row, lo, hi);
    assert s.g.slots + Ids(row) - Ids(row) == s.g.slots;
  }
}
