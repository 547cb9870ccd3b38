/** Whole runs of the mapping table: the ledger over every interleaving, exclusive and
    transactional unmapping, and the teardown loop of `vfastrpc_file_free`. */
module MapRuns {
  import opened Lists
  import opened Wrappers
  import opened MapTable
  import opened MapLedger

  // ---------------------------------------------------------------- runs

  predicate Legal(s: State, steps: seq<Step>)
    decreases |steps|
  {
    steps == [] || (Enabled(s, steps[0]) && Legal(Apply(s, steps[0]), steps[1..]))
  }

  function Run(s: State, steps: seq<Step>): State
    requires Legal(s, steps)
    decreases |steps|
  {
    if steps == [] then s else Run(Apply(s, steps[0]), steps[1..])
  }

  ghost predicate RegularRun(s: State, steps: seq<Step>)
    requires Legal(s, steps)
    decreases |steps|
  {
    steps == [] || (Regular(s, steps[0]) && RegularRun(Apply(s, steps[0]), steps[1..]))
  }

  ghost predicate VisibleRun(s: State, steps: seq<Step>)
    requires Legal(s, steps)
    decreases |steps|
  {
    steps == [] || (Visible(s, steps[0]) && VisibleRun(Apply(s, steps[0]), steps[1..]))
  }

  /** The invariant holds after every step of the run. */
  ghost predicate InvThroughout(s: State, steps: seq<Step>)
    requires Legal(s, steps)
    decreases |steps|
  {
    Inv(s) && (steps == [] || InvThroughout(Apply(s, steps[0]), steps[1..]))
  }

  /** The ledger over runs: the counts are the holders throughout a run exactly when each
      step of the run is regular. */
  lemma {:induction false} LedgerOverRuns(s: State, steps: seq<Step>)
    requires Inv(s) && Legal(s, steps)
    ensures InvThroughout(s, steps) <==> RegularRun(s, steps)
    ensures RegularRun(s, steps) ==> Inv(Run(s, steps))
    decreases |steps|
  {
    if steps != [] {
      hide Inv, Apply, Regular;
      StepExact(s, steps[0]);
      if Regular(s, steps[0]) {
        LedgerOverRuns(Apply(s, steps[0]), steps[1..]);
      } else {
        NotThroughout(Apply(s, steps[0]), steps[1..]);
      }
    }
  }

  lemma NotThroughout(s: State, steps: seq<Step>)
    requires Legal(s, steps) && !Inv(s)
    ensures !InvThroughout(s, steps)
  {
  }

  lemma InitIsGood()
    ensures Inv(Init()) && Clean(Init())
  {
  }

  /** What the invariant means for a holder: the object is allocated and its count is the
      number of its holders, so it is not freed while anybody holds it. */
  lemma HeldIsAlive(s: State, id: MapId)
    requires Inv(s) && Holders(s.g, id) > 0
    ensures id in s.t.heap && s.t.heap[id].refs == Holders(s.g, id) >= 1
    ensures s.t.heap[id].ctxRefs == s.g.slots[id] + s.g.handles[id]
    ensures id in s.t.list || s.g.pending == UnmapOp(id)
  {
    assert Local(s, id);
  }

  // ------------------------------------------------ runs restricted by their calls

  lemma {:induction false} NormalRemoveFds(s: State, ids: seq<MapId>, fd: int, i: nat)
    requires NoDuplicates(s.t.list) && NoDuplicates(ids) && i < |ids|
    requires ids[i] in s.t.heap && ForFd(s.t.heap[ids[i]], fd) && !HeapFlags(s.t.heap[ids[i]].flags)
    requires s.t.heap[ids[i]].refs == 1 && s.t.heap[ids[i]].ctxRefs == 0
    ensures ids[i] !in DropPins(s, ids, fd).t.list
    decreases |ids|
  {
    var id, rest := ids[0], ids[1..];
    assert forall j :: 0 <= j < |rest| ==> rest[j] == ids[j + 1];
    if i == 0 {
      assert id !in rest;
      WithoutMembers(s.t.list, id, id);
      FreeTouchesOne(s.t, id, false);
      DropPinsFrame(DropPin(s, id), rest, fd, id);
    } else if id in s.t.heap && ForFd(s.t.heap[id], fd) {
      assert rest[i - 1] == ids[i] && ids[i] != id;
      FreeTouchesOne(s.t, id, false);
      NormalRemoveFds(DropPin(s, id), rest, fd, i - 1);
    } else {
      NormalRemoveFds(s, rest, fd, i - 1);
    }
  }

  lemma RemoveFdsClean(s: State, fd: int)
    requires Inv(s) && Clean(s) && s.g.pending.Idle? && Visible(s, RemoveFds(fd))
    ensures Clean(DropPins(s, s.t.list, fd))
  {
    DropPinsPending(s, s.t.list, fd);
    var s' := DropPins(s, s.t.list, fd);
    forall k ensures CleanAt(s', k) {
      assert CleanAt(s, k) && Local(s, k);
      if k !in s.t.list {
        DropPinsFrame(s, s.t.list, fd, k);
      } else {
        var i :| 0 <= i < |s.t.list| && s.t.list[i] == k;
        if ForFd(s.t.heap[k], fd) {
          NormalRemoveFds(s, s.t.list, fd, i);
        } else {
          DropPinsSkips(s, s.t.list, fd, k);
        }
      }
    }
  }

  lemma {:induction false} DropPinsPending(s: State, ids: seq<MapId>, fd: int)
    ensures DropPins(s, ids, fd).g.pending == s.g.pending
    decreases |ids|
  {
    if ids != [] {
      DropPinsPending(if ids[0] in s.t.heap && ForFd(s.t.heap[ids[0]], fd) then DropPin(s, ids[0]) else s, ids[1..], fd);
    }
  }

  lemma {:induction false} DropPinsSkips(s: State, ids: seq<MapId>, fd: int, k: MapId)
    requires NoDuplicates(s.t.list) && k in s.t.heap && !ForFd(s.t.heap[k], fd)
    ensures SameAt(s, DropPins(s, ids, fd), k)
    decreases |ids|
  {
    if ids != [] {
      var id := ids[0];
      if id in s.t.heap && ForFd(s.t.heap[id], fd) {
        FreeTouchesOne(s.t, id, false);
        assert SameAt(s, DropPin(s, id), k);
        hide DropPin;
        DropPinsSkips(DropPin(s, id), ids[1..], fd, k);
      } else {
        DropPinsSkips(s, ids[1..], fd, k);
      }
    }
  }

  /** A call within the restrictions is a regular step and leaves a clean state. */
  lemma VisibleIsRegular(s: State, step: Step)
    requires Inv(s) && Clean(s) && Enabled(s, step) && Visible(s, step)
    ensures Regular(s, step) && Inv(Apply(s, step)) && Clean(Apply(s, step))
  {
    hide Acquire, FreeCtx, Free, DoUnmapFail, DoUnmapBegin, FirstMatch, Inv, Clean, DropPins, Local, CleanAt;
    assert Regular(s, step) by { VisibleRegular(s, step); }
    StepExact(s, step);
    match step
    case MapBuf(fd, keep, va, len, env) => AcquireClean(s, fd, keep, va, len, 0, env, Slot);
    case UnmapBuf(id) => HolderListed(s, id); DropClean(s, id, Slot);
    case MapHandle(fd, flags, env) => AcquireClean(s, fd, false, 0, 0, flags, env, Handle);
    case UnmapHandle(id) => HolderListed(s, id); DropClean(s, id, Handle);
    case ReleaseFd(fd) =>
      if Lookup(s.t, fd, 0, 0).Some? { DropClean(s, Lookup(s.t, fd, 0, 0).value, Handle); }
    case MapBegin(fd, keep, va, len, flags, env) => AcquireClean(s, fd, keep, va, len, flags, env, User);
    case MapDone(raddr) => MapDoneKeeps(s, raddr);
    case MapFail => HolderListed(s, s.g.pending.id); DropClean(s, s.g.pending.id, User);
    case UnmapBegin(fd, va, len) => UnmapBeginExact(s, fd, va, len);
    case UnmapDone => UnmapDoneKeeps(s);
    case UnmapFail(retake) => UnmapFailKeeps(s, retake);
    case RemoveFds(fd) => RemoveFdsClean(s, fd);
  }

  /** Whatever descriptor the remote side names, the search finds an object with an
      outstanding handle reference or none. */
  lemma EveryFdlistEntryIsRegular(s: State, fd: int)
    requires Inv(s) && Clean(s)
    ensures Regular(s, ReleaseFd(fd))
  {
    var r := Lookup(s.t, fd, 0, 0);
    if r.Some? {
      assert s.t.heap[r.value].va == 0;
      assert Local(s, r.value) && CleanAt(s, r.value);
    }
  }

  lemma VisibleRegular(s: State, step: Step)
    requires Inv(s) && Clean(s) && Enabled(s, step) && Visible(s, step)
    ensures Regular(s, step)
  {
    match step
    case ReleaseFd(fd) => EveryFdlistEntryIsRegular(s, fd);
    case UnmapBegin(fd, va, len) =>
      var r := Remove(s.t, fd, va, len).1;
      if r.Some? { assert Local(s, r.value) && CleanAt(s, r.value); }
    case RemoveFds(fd) =>
      forall i | 0 <= i < |s.t.list| && s.t.list[i] in s.t.heap && ForFd(s.t.heap[s.t.list[i]], fd)
        ensures s.t.list[i] in s.g.pins
      {
        assert CleanAt(s, s.t.list[i]);
      }
    case _ =>
  }

  /** The ledger theorem in terms of what the callers do and how unmapping goes; the fdlists
      of the responses are arbitrary. */
  lemma {:induction false} LedgerForVisibleRuns(s: State, steps: seq<Step>)
    requires Inv(s) && Clean(s) && Legal(s, steps) && VisibleRun(s, steps)
    ensures RegularRun(s, steps) && Inv(Run(s, steps)) && Clean(Run(s, steps))
    decreases |steps|
  {
    if steps != [] {
      hide Inv, Clean, Apply, Regular, Visible;
      VisibleIsRegular(s, steps[0]);
      LedgerForVisibleRuns(Apply(s, steps[0]), steps[1..]);
    }
  }

  /** From the opening of the file: while the callers keep to the restrictions, every count is
      the number of holders after every step. */
  lemma LedgerFromTheStart(steps: seq<Step>)
    requires Legal(Init(), steps) && VisibleRun(Init(), steps)
    ensures InvThroughout(Init(), steps) && Clean(Run(Init(), steps))
  {
    hide Legal, Run, VisibleRun, InvThroughout, RegularRun;
    InitIsGood();
    LedgerForVisibleRuns(Init(), steps);
    LedgerOverRuns(Init(), steps);
  }

  // ---------------------------------------------------------------- unmapping

  predicate Ends(step: Step) { step.UnmapDone? || step.UnmapFail? }

  /** While an object is being unmapped, no other critical section can change it. */
  lemma UnmappingIsExclusive(s: State, step: Step, id: MapId)
    requires Inv(s) && s.g.pending == UnmapOp(id) && Enabled(s, step) && !Ends(step)
    ensures SameAt(s, Apply(s, step), id) && Apply(s, step).g.pending == s.g.pending
  {
    assert Local(s, id) && Local(s, s.t.next);
    hide FirstMatch;
    match step
    case MapBuf(fd, keep, va, len, env) => AcquireElsewhere(s, fd, keep, va, len, 0, env, Slot, id);
    case MapHandle(fd, flags, env) => AcquireElsewhere(s, fd, false, 0, 0, flags, env, Handle, id);
    case UnmapBuf(k) =>
      HolderListed(s, k);
      DropsOnlyAt(s, k, true, s.g.(slots := s.g.slots - multiset{k}));
    case UnmapHandle(k) =>
      HolderListed(s, k);
      DropsOnlyAt(s, k, true, s.g.(handles := s.g.handles - multiset{k}));
    case ReleaseFd(fd) =>
      if Lookup(s.t, fd, 0, 0).Some? {
        var k := Lookup(s.t, fd, 0, 0).value;
        DropsOnlyAt(s, k, true, s.g.(handles := s.g.handles - multiset{k}));
      }
  }

  lemma AcquireElsewhere(s: State, fd: int, keep: bool, va: nat, len: nat, flags: int, env: CreateEnv,
                         kind: Kind, k: MapId)
    requires s.t.next !in s.t.heap && s.t.next !in s.t.list && k != s.t.next && k !in s.t.list
    requires !kind.User?
    ensures SameAt(s, Acquire(s, fd, keep, va, len, flags, env, kind), k)
    ensures Acquire(s, fd, keep, va, len, flags, env, kind).g.pending == s.g.pending
  {
    hide Create;
    CreateElsewhere(s.t, fd, keep, va, len, flags, env, k);
    var (s1, r) := Creating(s, fd, keep, va, len, flags, env);
    assert SameAt(s, s1, k) && s1.g.pending == s.g.pending;
    if r.Some? && r.value in s1.t.heap { EnterElsewhere(s1, r.value, kind, k); }
  }

  lemma EnterElsewhere(s: State, id: MapId, kind: Kind, k: MapId)
    requires id in s.t.heap && k != id && !kind.User?
    ensures SameAt(s, Enter(s, id, kind), k) && Enter(s, id, kind).g.pending == s.g.pending
  {
  }

  lemma CreateElsewhere(t: Table, fd: int, keep: bool, va: nat, len: nat, flags: int, env: CreateEnv, k: MapId)
    requires t.next !in t.heap && t.next !in t.list && k != t.next && k !in t.list
    ensures var (t', r) := Create(t, fd, keep, va, len, flags, env);
            && k !in t'.list && t.next <= t'.next && (r.Some? ==> r.value != k)
            && (k in t'.heap <==> k in t.heap) && (k in t.heap ==> t'.heap[k] == t.heap[k])
  {
    CreateCases(t, fd, keep, va, len, flags, env);
    var (t', r) := Create(t, fd, keep, va, len, flags, env);
    hide Create;
    if r.None? {
      assert k in t'.heap - {t.next} <==> k in t'.heap;
      assert k in t.heap ==> t'.heap[k] == (t'.heap - {t.next})[k];
    }
  }

  /** The same over any number of other steps. */
  lemma {:induction false} UnmappingIsExclusiveInRuns(s: State, steps: seq<Step>, id: MapId)
    requires Inv(s) && s.g.pending == UnmapOp(id) && Legal(s, steps) && RegularRun(s, steps)
    requires forall i :: 0 <= i < |steps| ==> !Ends(steps[i])
    ensures SameAt(s, Run(s, steps), id) && Run(s, steps).g.pending == s.g.pending
    ensures Inv(Run(s, steps))
    decreases |steps|
  {
    if steps != [] {
      hide Inv, Apply, Regular;
      assert forall i :: 0 <= i < |steps[1..]| ==> steps[1..][i] == steps[i + 1];
      UnmappingIsExclusive(s, steps[0], id);
      StepExact(s, steps[0]);
      UnmappingIsExclusiveInRuns(Apply(s, steps[0]), steps[1..], id);
    }
  }

  /** A failed unmap, whatever ran in between, leaves the object and its holders as they
      were exactly when the pin is re-taken (mem_unmap) or there was none. */
  lemma UnmapIsTransactional(s: State, fd: int, va: nat, len: nat, steps: seq<Step>, retake: bool)
    requires Inv(s) && s.g.pending.Idle? && Regular(s, UnmapBegin(fd, va, len))
    requires Remove(s.t, fd, va, len).1.Some?
    requires var s1 := Apply(s, UnmapBegin(fd, va, len));
             Legal(s1, steps) && RegularRun(s1, steps) && forall i :: 0 <= i < |steps| ==> !Ends(steps[i])
    ensures var id := Remove(s.t, fd, va, len).1.value;
            var s2 := Run(Apply(s, UnmapBegin(fd, va, len)), steps);
            && Enabled(s2, UnmapFail(retake))
            && id !in s2.t.list
            && (SameAt(s, Apply(s2, UnmapFail(retake)), id) <==> retake || !s.t.heap[id].keep)
  {
    var id := Remove(s.t, fd, va, len).1.value;
    var s1 := Apply(s, UnmapBegin(fd, va, len));
    StepExact(s, UnmapBegin(fd, va, len));
    UnmappingIsExclusiveInRuns(s1, steps, id);
    hide Legal, Run, RegularRun;
    FailedUnmap(s, fd, va, len, Run(s1, steps), retake);
  }

  lemma FailedUnmap(s: State, fd: int, va: nat, len: nat, s2: State, retake: bool)
    requires Inv(s) && s.g.pending.Idle? && Regular(s, UnmapBegin(fd, va, len))
    requires Remove(s.t, fd, va, len).1.Some?
    requires var s1 := Apply(s, UnmapBegin(fd, va, len));
             SameAt(s1, s2, Remove(s.t, fd, va, len).1.value) && s2.g.pending == s1.g.pending && Inv(s1)
    ensures var id := Remove(s.t, fd, va, len).1.value;
            && Enabled(s2, UnmapFail(retake))
            && id !in s2.t.list
            && (SameAt(s, Apply(s2, UnmapFail(retake)), id) <==> retake || !s.t.heap[id].keep)
  {
    var id := Remove(s.t, fd, va, len).1.value;
    var s1 := Apply(s, UnmapBegin(fd, va, len));
    assert Local(s, id) && Local(s1, id);
    hide Inv, Local, FirstMatch, Without;
  }

  /** With nothing in between, the whole table comes back, up to the order of the list. */
  lemma UnmapRestoresTable(s: State, fd: int, va: nat, len: nat, retake: bool)
    requires Inv(s) && s.g.pending.Idle? && Regular(s, UnmapBegin(fd, va, len))
    requires Remove(s.t, fd, va, len).1.Some?
    requires retake || !s.t.heap[Remove(s.t, fd, va, len).1.value].keep
    ensures var s1 := Apply(s, UnmapBegin(fd, va, len));
            && Enabled(s1, UnmapFail(retake))
            && var s2 := Apply(s1, UnmapFail(retake));
            s2.g == s.g && s2.t.heap == s.t.heap && multiset(s2.t.list) == multiset(s.t.list)
  {
    var id := Remove(s.t, fd, va, len).1.value;
    assert Local(s, id);
    WithoutMultiset(s.t.list, id);
    hide FirstMatch, Without;
    var s1 := Apply(s, UnmapBegin(fd, va, len));
    var s2 := Apply(s1, UnmapFail(retake));
    assert s2.t.list == [id] + s1.t.list;
    assert s2.t.heap == s.t.heap;
    assert s2.g.pins == s.g.pins;
  }

  // ---------------------------------------------------------------- teardown

  /** One round of the map loop in `vfastrpc_file_free`: force-free the first entry. */
  function ForceFirst(t: Table): Table {
    if t.list == [] || t.list[0] !in t.heap then t else Free(t, t.list[0], true)
  }

  function ForceRounds(t: Table, n: nat): Table
    decreases n
  {
    if n == 0 then t else ForceRounds(ForceFirst(t), n - 1)
  }

  /** `vfastrpc_mmap_free` does something with such an object. */
  predicate Freeable(m: Mapping) { !HeapFlags(m.flags) && m.refs >= 1 && m.ctxRefs >= 0 }

  ghost predicate Shaped(t: Table) {
    NoDuplicates(t.list) && forall k :: k in t.list ==> k in t.heap
  }

  lemma {:induction false} StuckEntryStays(t: Table, n: nat, k: MapId)
    requires Shaped(t) && k in t.list && !Freeable(t.heap[k])
    ensures k in ForceRounds(t, n).list
    decreases n
  {
    if n > 0 {
      if t.list[0] != k { FreeTouchesOne(t, t.list[0], true); }
      StuckEntryStays(ForceFirst(t), n - 1, k);
    }
  }

  lemma {:induction false} FreeableListEmpties(t: Table)
    requires Shaped(t) && forall k :: k in t.list ==> Freeable(t.heap[k])
    ensures ForceRounds(t, |t.list|).list == []
    ensures forall k :: k in ForceRounds(t, |t.list|).heap <==> k in t.heap && k !in t.list
    decreases |t.list|
  {
    if t.list != [] {
      var t' := FirstIsFreed(t);
      FreeableListEmpties(t');
    }
  }

  lemma FirstIsFreed(t: Table) returns (t': Table)
    requires Shaped(t) && t.list != [] && Freeable(t.heap[t.list[0]])
    ensures t' == ForceFirst(t) && t'.list == t.list[1..] && Shaped(t')
    ensures t'.heap == t.heap - {t.list[0]}
    ensures ForceRounds(t, |t.list|) == ForceRounds(t', |t'.list|)
    ensures forall k :: k in t'.list ==> k in t.list && t'.heap[k] == t.heap[k]
    ensures forall k :: k in t.list <==> k == t.list[0] || k in t'.list
  {
    t' := ForceFirst(t);
    assert t.list[0] !in t.list[1..];
    WithoutAbsent(t.list[1..], t.list[0]);
    assert t'.list == t.list[1..];
  }

  /** The loop ends if and only if every listed object has a positive count. */
  lemma TeardownEnds(t: Table)
    requires Shaped(t)
    ensures (exists n: nat :: ForceRounds(t, n).list == [])
       <==> forall k :: k in t.list ==> Freeable(t.heap[k])
  {
    if forall k :: k in t.list ==> Freeable(t.heap[k]) {
      FreeableListEmpties(t);
    } else {
      var k :| k in t.list && !Freeable(t.heap[k]);
      forall n: nat ensures ForceRounds(t, n).list != [] { StuckEntryStays(t, n, k); }
    }
  }

  /** After any run whose counts are right, the loop ends, and what it leaves allocated is
      exactly what was never on the list or is being unmapped. */
  lemma TeardownAfterRegularRun(s: State)
    requires Inv(s)
    ensures ForceRounds(s.t, |s.t.list|).list == []
    ensures forall k :: k in ForceRounds(s.t, |s.t.list|).heap <==> k in s.g.lost || s.g.pending == UnmapOp(k)
  {
    forall k | k in s.t.list ensures k in s.t.heap && Freeable(s.t.heap[k]) { assert Local(s, k); }
    FreeableListEmpties(s.t);
    forall k ensures k in s.t.heap && k !in s.t.list <==> k in s.g.lost || s.g.pending == UnmapOp(k) {
      assert Local(s, k);
    }
  }

  // ---------------------------------------------------------------- irregular runs

  ghost predicate Reaches(s: State, steps: seq<Step>, s': State) {
    Legal(s, steps) && Run(s, steps) == s'
  }

  lemma ReachOne(s: State, step: Step)
    requires Enabled(s, step)
    ensures Reaches(s, [step], Apply(s, step))
  {
    assert [step][1..] == [];
  }

  lemma {:induction false} ReachMore(s: State, a: seq<Step>, s1: State, b: seq<Step>, s2: State)
    requires Reaches(s, a, s1) && Reaches(s1, b, s2)
    ensures Reaches(s, a + b, s2)
    decreases |a|
  {
    hide Enabled, Apply;
    if a == [] {
      assert a + b == b;
    } else {
      ReachMore(Apply(s, a[0]), a[1..], s1, b, s2);
      assert (a + b)[0] == a[0] && (a + b)[1..] == a[1..] + b;
    }
  }

  /** One object of the given descriptor, mapped by mmap/mem_map at remote address 100. */
  function Mapped(fd: int, keep: bool, va: nat, refs: int): State {
    State(Table([0], map[0 := Mapping(fd, keep, 2, va, 4096, 100, refs, 0)], 1),
          Ledger(multiset{}, multiset{}, multiset{0}, if keep && refs == 2 then {0} else {}, Idle, {}))
  }

  lemma MappedRun(fd: int, keep: bool, va: nat)
    requires va <= 4096
    ensures Reaches(Init(), [MapBegin(fd, keep, va, 4096, 2, Usable)] + [MapDone(100)],
                    Mapped(fd, keep, va, if keep then 2 else 1))
  {
    var a, b := MapBegin(fd, keep, va, 4096, 2, Usable), MapDone(100);
    var s1 := State(Table([0], map[0 := Mapping(fd, keep, 2, va, 4096, 0, if keep then 2 else 1, 0)], 1),
                    Ledger(multiset{}, multiset{}, multiset{0}, if keep then {0} else {}, MapOp(0), {}));
    assert Apply(Init(), a) == s1 by {
      assert Reused(Init().t, fd, va, 4096, 2) == None;
      assert [0] + [] == [0];
    }
    ReachOne(Init(), a);
    ReachOne(s1, b);
    hide Apply, Legal, Run;
    ReachMore(Init(), [a], s1, [b], Apply(s1, b));
  }

  /** The same object taken off the list by an unmap request that is still running. */
  function TakenOff(fd: int, keep: bool, va: nat, refs: int): State {
    State(Table([], map[0 := Mapping(fd, keep, 2, va, 4096, 100, refs, 0)], 1),
          Ledger(multiset{}, multiset{}, multiset{0}, {}, UnmapOp(0), {}))
  }

  lemma TakeOff(fd: int, keep: bool, va: nat, refs: int)
    requires refs == 1 || (refs == 2 && keep)
    ensures Apply(Mapped(fd, keep, va, refs), UnmapBegin(-1, 100, 4096))
         == TakenOff(fd, keep, va, if keep then refs - 1 else refs)
  {
    var s := Mapped(fd, keep, va, refs);
    assert Remove(s.t, -1, 100, 4096).1 == Some(0);
    assert Without([0], 0) == [];
  }

  /** Taking the object off and letting munmap fail: the KEEP_MAP pin is gone. */
  lemma FailedMunmap(fd: int, va: nat, refs: int)
    requires refs == 1 || refs == 2
    ensures Reaches(Mapped(fd, true, va, refs), [UnmapBegin(-1, 100, 4096)] + [UnmapFail(false)],
                    Mapped(fd, true, va, refs - 1))
  {
    var s, s1, s2 := Mapped(fd, true, va, refs), TakenOff(fd, true, va, refs - 1), Mapped(fd, true, va, refs - 1);
    TakeOff(fd, true, va, refs);
    ReachOne(s, UnmapBegin(-1, 100, 4096));
    assert Apply(s1, UnmapFail(false)) == s2;
    ReachOne(s1, UnmapFail(false));
    hide Apply, Legal, Run;
    ReachMore(s, [UnmapBegin(-1, 100, 4096)], s1, [UnmapFail(false)], s2);
  }

  /** A KEEP_MAP object is mapped and munmap fails twice on it: it stays listed with count
      0, and then the map loop of `vfastrpc_file_free` never ends. */
  lemma TeardownCanHang() returns (steps: seq<Step>, s: State)
    ensures steps == [MapBegin(7, true, 4096, 4096, 2, Usable), MapDone(100),
                      UnmapBegin(-1, 100, 4096), UnmapFail(false),
                      UnmapBegin(-1, 100, 4096), UnmapFail(false)]
    ensures Reaches(Init(), steps, s)
    ensures forall n: nat :: ForceRounds(s.t, n).list != []
  {
    var a := [MapBegin(7, true, 4096, 4096, 2, Usable)] + [MapDone(100)];
    var b := [UnmapBegin(-1, 100, 4096)] + [UnmapFail(false)];
    s := Mapped(7, true, 4096, 0);
    MappedRun(7, true, 4096);
    FailedMunmap(7, 4096, 2);
    FailedMunmap(7, 4096, 1);
    forall n: nat ensures ForceRounds(s.t, n).list != [] { StuckEntryStays(s.t, n, 0); }
    hide Legal, Run, Mapped;
    ReachMore(Init(), a, Mapped(7, true, 4096, 2), b, Mapped(7, true, 4096, 1));
    ReachMore(Init(), a + b, Mapped(7, true, 4096, 1), b, s);
    steps := a + b + b;
  }

  /** An mmap object and a newer DMA-handle object of the same descriptor. */
  function TwoOfOneFd(listed: bool): State {
    State(Table(if listed then [0, 1] else [1],
                map[0 := Mapping(5, false, 2, 0, 4096, 100, 1, 0), 1 := Mapping(5, false, 0, 0, 0, 0, 1, 1)], 2),
          Ledger(multiset{}, multiset{1}, multiset{0}, {}, if listed then Idle else UnmapOp(0), {}))
  }

  /** The state is reached when a handle is mapped while munmap of the older object runs
      and then fails. */
  lemma TwoOfOneFdReached() returns (steps: seq<Step>)
    ensures steps == [MapBegin(5, false, 0, 4096, 2, Usable), MapDone(100), UnmapBegin(-1, 100, 4096),
                      MapHandle(5, 0, Usable), UnmapFail(false)]
    ensures Reaches(Init(), steps, TwoOfOneFd(true))
  {
    hide Legal, Run, Apply;
    var a := [MapBegin(5, false, 0, 4096, 2, Usable)] + [MapDone(100)];
    var b, c, d := UnmapBegin(-1, 100, 4096), MapHandle(5, 0, Usable), UnmapFail(false);
    MappedRun(5, false, 0);
    TakeOff(5, false, 0, 1);
    SecondObject();
    ReachOne(Mapped(5, false, 0, 1), b);
    ReachOne(TakenOff(5, false, 0, 1), c);
    ReachOne(TwoOfOneFd(false), d);
    hide Reaches;
    ReachMore(Init(), a, Mapped(5, false, 0, 1), [b], TakenOff(5, false, 0, 1));
    ReachMore(Init(), a + [b], TakenOff(5, false, 0, 1), [c], TwoOfOneFd(false));
    ReachMore(Init(), a + [b] + [c], TwoOfOneFd(false), [d], TwoOfOneFd(true));
    steps := a + [b] + [c] + [d];
  }

  lemma SecondObject()
    ensures Apply(TakenOff(5, false, 0, 1), MapHandle(5, 0, Usable)) == TwoOfOneFd(false)
    ensures Apply(TwoOfOneFd(false), UnmapFail(false)) == TwoOfOneFd(true)
  {
    var s := TakenOff(5, false, 0, 1);
    assert Reused(s.t, 5, 0, 0, 0) == None;
    assert [1] + s.t.list == [1];
    assert [0] + [1] == [0, 1];
  }

  /** An fdlist entry that names a descriptor with an outstanding handle reference is not
      enough: the mmap object of the same descriptor, re-added by the failed munmap, is
      found first and freed although its holder still counts on it. */
  lemma FdlistCanFreeAnotherObject()
    ensures var s := TwoOfOneFd(true);
            && Inv(s) && 1 in s.g.handles && s.t.heap[1].fd == 5 && !Regular(s, ReleaseFd(5))
            && var s' := Apply(s, ReleaseFd(5)); 0 !in s'.t.heap && 0 in s'.g.users
  {
    var s := TwoOfOneFd(true);
    assert Lookup(s.t, 5, 0, 0) == Some(0);
    forall k ensures Local(s, k) { }
  }
}
