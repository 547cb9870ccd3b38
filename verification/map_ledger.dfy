/** Who holds the references of the mapping table. Every critical section that changes the
    table is a step; a ledger records the holders, and the counts in the table are proved
    to be the number of holders in exactly the runs whose steps are `Regular`. */
module MapLedger {
  import opened Lists
  import opened Wrappers
  import opened MapTable

  /** The request that owns `internal_map_mutex` between its critical sections: a mapping
      that waits for the remote side, or an object taken off the list for unmapping. */
  datatype Pending = Idle | MapOp(id: MapId) | UnmapOp(id: MapId)

  /** Holders: buffer slots of invoke contexts, DMA-handle references that the remote side
      has not given back, references of mmap/mem_map, and KEEP_MAP pins. `lost` are objects
      that were never listed and that nobody can free any more. */
  datatype Ledger = Ledger(
    slots: multiset<MapId>, handles: multiset<MapId>, users: multiset<MapId>, pins: set<MapId>,
    pending: Pending, lost: set<MapId>)

  datatype State = State(t: Table, g: Ledger)

  function Init(): State {
    State(Table([], map[], 0), Ledger(multiset{}, multiset{}, multiset{}, {}, Idle, {}))
  }

  datatype Step =
    | MapBuf(fd: int, keep: bool, va: nat, len: nat, env: CreateEnv)   // sizing pass of get_args
    | UnmapBuf(id: MapId)                                  // put_args, context_free
    | MapHandle(fd: int, flags: int, env: CreateEnv)       // handle pass of get_args
    | UnmapHandle(id: MapId)                               // its roll-back
    | ReleaseFd(fd: int)                                   // one fdlist entry in put_args
    | MapBegin(fd: int, keep: bool, va: nat, len: nat, flags: int, env: CreateEnv)
    | MapDone(raddr: nat)
    | MapFail
    | UnmapBegin(fd: int, va: nat, len: nat)
    | UnmapDone
    | UnmapFail(retake: bool)                              // mem_unmap re-takes the pin
    | RemoveFds(fd: int)                                   // munmap_fd

  function Holders(g: Ledger, id: MapId): nat {
    g.slots[id] + g.handles[id] + g.users[id] + if id in g.pins then 1 else 0
  }

  /** A step that its caller can take: references are dropped by their holder, and
      mmap/munmap requests are serialized by `internal_map_mutex`. */
  predicate Enabled(s: State, step: Step) {
    match step
    case MapBuf(_, _, _, _, _) => true
    case UnmapBuf(id) => id in s.g.slots && id in s.t.heap
    case MapHandle(_, flags, _) => !HeapFlags(flags)
    case UnmapHandle(id) => id in s.g.handles && id in s.t.heap
    case ReleaseFd(_) => true
    case MapBegin(_, _, _, _, _, _) => s.g.pending.Idle?
    case MapDone(_) => s.g.pending.MapOp? && s.g.pending.id in s.t.heap
    case MapFail => s.g.pending.MapOp? && s.g.pending.id in s.t.heap
    case UnmapBegin(_, _, _) => s.g.pending.Idle?
    case UnmapDone => s.g.pending.UnmapOp? && s.g.pending.id in s.t.heap
    case UnmapFail(_) => s.g.pending.UnmapOp? && s.g.pending.id in s.t.heap
    case RemoveFds(_) => s.g.pending.Idle?
  }

  /** The ledger after a call of `Create` that took table `t` to `t'`: a pin for a new
      KEEP_MAP object, and an object that stays allocated without being returned is lost. */
  function AfterCreate(g: Ledger, t: Table, t': Table, r: Option<MapId>, keep: bool): Ledger {
    if t'.next == t.next then g
    else if r.Some? then (if keep then g.(pins := g.pins + {t.next}) else g)
    else if t.next in t'.heap then g.(lost := g.lost + {t.next})
    else g
  }

  function Creating(s: State, fd: int, keep: bool, va: nat, len: nat, flags: int, env: CreateEnv):
    (State, Option<MapId>)
  {
    var (t', r) := Create(s.t, fd, keep, va, len, flags, env);
    (State(t', AfterCreate(s.g, s.t, t', r, keep)), r)
  }

  function TakeCtx(t: Table, id: MapId): Table
    requires id in t.heap
  {
    t.(heap := t.heap[id := t.heap[id].(ctxRefs := t.heap[id].ctxRefs + 1)])
  }

  datatype Kind = Slot | Handle | User

  /** Enter a new holder of an object. */
  function Enter(s: State, id: MapId, kind: Kind): State
    requires id in s.t.heap
  {
    match kind
    case Slot => State(TakeCtx(s.t, id), s.g.(slots := s.g.slots + multiset{id}))
    case Handle => State(TakeCtx(s.t, id), s.g.(handles := s.g.handles + multiset{id}))
    case User => s.(g := s.g.(users := s.g.users + multiset{id}, pending := MapOp(id)))
  }

  /** Create or reuse an object and enter its new holder. */
  function Acquire(s: State, fd: int, keep: bool, va: nat, len: nat, flags: int, env: CreateEnv, kind: Kind): State {
    var (s', r) := Creating(s, fd, keep, va, len, flags, env);
    if r.Some? && r.value in s'.t.heap then Enter(s', r.value, kind) else s'
  }

  function DoReleaseFd(s: State, fd: int): State {
    match Lookup(s.t, fd, 0, 0)
    case None => s
    case Some(id) =>
      State(FreeCtx(s.t, id), s.g.(handles := s.g.handles - multiset{id}))
  }

  function DoUnmapBegin(s: State, fd: int, va: nat, len: nat): State {
    var (t', r) := Remove(s.t, fd, va, len);
    if r.None? then s
    else State(t', s.g.(pins := s.g.pins - {r.value}, pending := UnmapOp(r.value)))
  }

  function DoUnmapFail(s: State, retake: bool): State
    requires s.g.pending.UnmapOp? && s.g.pending.id in s.t.heap
  {
    var id := s.g.pending.id;
    var m := s.t.heap[id];
    var pin := retake && m.keep;
    var t := if pin then s.t.(heap := s.t.heap[id := m.(refs := m.refs + 1)]) else s.t;
    State(Add(t, id), s.g.(pending := Idle, pins := if pin then s.g.pins + {id} else s.g.pins))
  }

  /** One object freed by `vfastrpc_mmap_remove_fd`, and its pin. */
  function DropPin(s: State, id: MapId): State
    requires id in s.t.heap
  {
    State(Free(s.t, id, false), s.g.(pins := s.g.pins - {id}))
  }

  function DropPins(s: State, ids: seq<MapId>, fd: int): State
    decreases |ids|
  {
    if ids == [] then s
    else if ids[0] in s.t.heap && ForFd(s.t.heap[ids[0]], fd)
    then DropPins(DropPin(s, ids[0]), ids[1..], fd)
    else DropPins(s, ids[1..], fd)
  }

  function Apply(s: State, step: Step): State
    requires Enabled(s, step)
  {
    match step
    case MapBuf(fd, keep, va, len, env) => Acquire(s, fd, keep, va, len, 0, env, Slot)
    case UnmapBuf(id) => State(FreeCtx(s.t, id), s.g.(slots := s.g.slots - multiset{id}))
    case MapHandle(fd, flags, env) => Acquire(s, fd, false, 0, 0, flags, env, Handle)
    case UnmapHandle(id) => State(FreeCtx(s.t, id), s.g.(handles := s.g.handles - multiset{id}))
    case ReleaseFd(fd) => DoReleaseFd(s, fd)
    case MapBegin(fd, keep, va, len, flags, env) => Acquire(s, fd, keep, va, len, flags, env, User)
    case MapDone(raddr) =>
      var id := s.g.pending.id;
      State(s.t.(heap := s.t.heap[id := s.t.heap[id].(raddr := raddr)]), s.g.(pending := Idle))
    case MapFail =>
      var id := s.g.pending.id;
      State(Free(s.t, id, false), s.g.(users := s.g.users - multiset{id}, pending := Idle))
    case UnmapBegin(fd, va, len) => DoUnmapBegin(s, fd, va, len)
    case UnmapDone =>
      var id := s.g.pending.id;
      State(Free(s.t, id, false), s.g.(users := s.g.users - multiset{id}, pending := Idle))
    case UnmapFail(retake) => DoUnmapFail(s, retake)
    case RemoveFds(fd) => DropPins(s, s.t.list, fd)
  }

  /** The steps that drop a reference somebody has. Three calls do not check it:
      - an fdlist entry releases whichever object the search finds first for the fd;
      - unmapping drops the KEEP_MAP pin without asking whether it is still there;
      - so does `munmap_fd`, also in the branch that reports abnormal counts. */
  ghost predicate Regular(s: State, step: Step) {
    match step
    case ReleaseFd(fd) => Lookup(s.t, fd, 0, 0).Some? ==> Lookup(s.t, fd, 0, 0).value in s.g.handles
    case UnmapBegin(fd, va, len) =>
      var r := Remove(s.t, fd, va, len).1;
      r.Some? && r.value in s.t.heap && s.t.heap[r.value].keep ==>
        r.value in s.g.pins && s.t.heap[r.value].refs == 2
    case RemoveFds(fd) => AllPinned(s, s.t.list, fd)
    case _ => true
  }

  // ---------------------------------------------------------------- the invariant

  /** What the ledger promises about one id. */
  ghost predicate Local(s: State, id: MapId) {
    var t, g := s.t, s.g;
    && (id in t.list ==>
          && id in t.heap && !HeapFlags(t.heap[id].flags)
          && t.heap[id].refs == Holders(g, id) && 1 <= t.heap[id].refs < INT_MAX
          && t.heap[id].ctxRefs == g.slots[id] + g.handles[id]
          && (id in g.pins ==> t.heap[id].keep))
    && (g.pending == UnmapOp(id) ==>
          && id !in t.list && id in t.heap && !HeapFlags(t.heap[id].flags)
          && t.heap[id].refs == 1 && t.heap[id].ctxRefs == 0
          && g.users[id] == 1 && Holders(g, id) == 1)
    && (g.pending == MapOp(id) ==> g.users[id] >= 1)
    && (Holders(g, id) > 0 ==> id in t.list || g.pending == UnmapOp(id))
    && (id in t.heap ==> id < t.next && (id in t.list || g.pending == UnmapOp(id) || id in g.lost))
    && (id in g.lost ==> id in t.heap && id !in t.list && g.pending != UnmapOp(id))
  }

  ghost predicate Inv(s: State) {
    NoDuplicates(s.t.list) && forall id :: Local(s, id)
  }

  /** The two states agree on everything the ledger says about `k`. */
  ghost predicate SameAt(s: State, s': State, k: MapId) {
    && (k in s.t.list <==> k in s'.t.list)
    && (k in s.t.heap <==> k in s'.t.heap) && (k in s.t.heap ==> s.t.heap[k] == s'.t.heap[k])
    && s.g.slots[k] == s'.g.slots[k] && s.g.handles[k] == s'.g.handles[k]
    && s.g.users[k] == s'.g.users[k] && (k in s.g.pins <==> k in s'.g.pins)
    && (s.g.pending == MapOp(k) <==> s'.g.pending == MapOp(k))
    && (s.g.pending == UnmapOp(k) <==> s'.g.pending == UnmapOp(k))
    && (k in s.g.lost <==> k in s'.g.lost) && s.t.next <= s'.t.next
  }

  ghost predicate OnlyAt(s: State, s': State, id: MapId) {
    forall k :: k != id ==> SameAt(s, s', k)
  }

  /** A step that touches one object keeps the invariant exactly when it keeps it there. */
  lemma LocalDecides(s: State, s': State, id: MapId)
    requires Inv(s) && OnlyAt(s, s', id) && NoDuplicates(s'.t.list)
    ensures Inv(s') <==> Local(s', id)
  {
    forall k | k != id ensures Local(s', k) {
      assert SameAt(s, s', k) && Local(s, k);
    }
  }

  /** Restrictions on the calls and replies alone: buffers and mmap requests name non-null
      addresses, unmapped remote addresses are not zero, munmap does not fail on a KEEP_MAP
      object, and munmap_fd does not take its abnormal branch. What the remote side puts into
      an fdlist is not restricted. */
  ghost predicate Visible(s: State, step: Step) {
    match step
    case MapBuf(_, _, va, _, _) => va != 0
    case MapBegin(_, _, va, _, _, _) => va != 0
    case UnmapBegin(_, va, _) => va != 0
    case UnmapFail(retake) =>
      s.g.pending.UnmapOp? && s.g.pending.id in s.t.heap && s.t.heap[s.g.pending.id].keep ==> retake
    case RemoveFds(fd) =>
      forall i :: 0 <= i < |s.t.list| && s.t.list[i] in s.t.heap && ForFd(s.t.heap[s.t.list[i]], fd) ==>
        s.t.heap[s.t.list[i]].refs <= 1 && s.t.heap[s.t.list[i]].ctxRefs == 0
    case _ => true
  }

  /** KEEP_MAP objects keep their pin, a mapped remote address means that a finished
      mmap/mem_map still holds the object, and an object at address zero was made for DMA
      handles and is held by nobody else. */
  ghost predicate CleanAt(s: State, id: MapId) {
    && (id in s.t.list && id in s.t.heap ==>
          && (s.t.heap[id].keep ==> id in s.g.pins)
          && (s.t.heap[id].raddr != 0 ==> s.g.users[id] >= if s.g.pending == MapOp(id) then 2 else 1)
          && (s.t.heap[id].va == 0 ==> HandlesOnly(s, id)))
    && (s.g.pending == UnmapOp(id) && id in s.t.heap ==> s.t.heap[id].va != 0)
  }

  ghost predicate HandlesOnly(s: State, id: MapId)
    requires id in s.t.heap
  {
    s.t.heap[id].len == 0 && s.g.slots[id] == 0 && s.g.users[id] == 0 && id !in s.g.pins
  }

  ghost predicate Clean(s: State) { forall id :: CleanAt(s, id) }

  lemma CleanDecides(s: State, s': State, id: MapId)
    requires OnlyAt(s, s', id)
    ensures Clean(s) && CleanAt(s', id) ==> Clean(s')
  {
    if Clean(s) {
      forall k | k != id ensures CleanAt(s', k) { assert SameAt(s, s', k) && CleanAt(s, k); }
    }
  }

  // ---------------------------------------------------------------- single operations

  lemma FreeTouchesOne(t: Table, id: MapId, force: bool)
    requires id in t.heap && NoDuplicates(t.list)
    ensures var t' := Free(t, id, force);
            && NoDuplicates(t'.list) && t'.next == t.next
            && (forall k :: k in t'.list <==> k in t.list && (k != id || id in t'.heap))
            && (forall k :: k != id ==>
                  && (k in t'.heap <==> k in t.heap)
                  && (k in t.heap ==> t'.heap[k] == t.heap[k]))
  {
    WithoutNoDuplicates(t.list, id);
    forall k ensures k in Without(t.list, id) <==> k in t.list && k != id {
      WithoutMembers(t.list, id, k);
    }
  }

  lemma DropsOnlyAt(s: State, id: MapId, ctx: bool, g': Ledger)
    requires NoDuplicates(s.t.list) && id in s.t.heap
    requires forall k :: k != id ==>
               && g'.slots[k] == s.g.slots[k] && g'.handles[k] == s.g.handles[k]
               && g'.users[k] == s.g.users[k] && (k in g'.pins <==> k in s.g.pins)
               && (g'.pending == MapOp(k) <==> s.g.pending == MapOp(k))
               && (g'.pending == UnmapOp(k) <==> s.g.pending == UnmapOp(k))
    requires g'.lost == s.g.lost
    ensures var s' := State(if ctx then FreeCtx(s.t, id) else Free(s.t, id, false), g');
            OnlyAt(s, s', id) && NoDuplicates(s'.t.list)
            && (id in s'.t.list <==> id in s.t.list && id in s'.t.heap)
  {
    hide Without;
    var m := s.t.heap[id];
    var m' := if ctx && m.ctxRefs != 0 then m.(ctxRefs := m.ctxRefs - 1) else m;
    var t1 := if ctx then s.t.(heap := s.t.heap[id := m']) else s.t;
    FreeTouchesOne(t1, id, false);
    var s' := State(if ctx then FreeCtx(s.t, id) else Free(s.t, id, false), g');
    assert s'.t == Free(t1, id, false);
    forall k | k != id ensures SameAt(s, s', k) { }
  }

  /** The three outcomes of creating: an object is reused, a new one is put at the head
      of the list, or none is returned and at most an unlisted one stays allocated. */
  lemma CreateCases(t: Table, fd: int, keep: bool, va: nat, len: nat, flags: int, env: CreateEnv)
    requires t.next !in t.heap && t.next !in t.list
    ensures var (t', r) := Create(t, fd, keep, va, len, flags, env);
            match r
            case None => t'.list == t.list && t.next <= t'.next <= t.next + 1
                         && t'.heap - {t.next} == t.heap && (t'.next == t.next ==> t' == t)
            case Some(id) =>
              || (id in t.list && id in t.heap && t.heap[id].refs + 1 != INT_MAX && t.heap[id].va <= va
                  && (t.heap[id].va == 0 && t.heap[id].len == 0 ==> va == 0)
                  && t' == t.(heap := t.heap[id := t.heap[id].(refs := t.heap[id].refs + 1)]))
              || (id == t.next && !HeapFlags(flags)
                  && t' == Table([id] + t.list, t'.heap, id + 1)
                  && t'.heap == t.heap[id := Mapping(fd, keep, flags, va, len, 0, if keep then 2 else 1, 0)])
  {
    hide FirstMatch, Without;
    WithoutAbsent(t.list, t.next);
    assert (t.heap - {t.next}) == t.heap;
  }

  function Raised(t: Table, id: MapId): Table
    requires id in t.heap
  {
    t.(heap := t.heap[id := t.heap[id].(refs := t.heap[id].refs + 1)])
  }

  function Fresh(s: State, m: Mapping): State {
    var id := s.t.next;
    State(Table([id] + s.t.list, s.t.heap[id := m], id + 1), if m.keep then s.g.(pins := s.g.pins + {id}) else s.g)
  }

  lemma ReuseTouchesOne(s: State, id: MapId, kind: Kind)
    requires id in s.t.heap && (kind.User? ==> s.g.pending.Idle?)
    ensures OnlyAt(s, Enter(State(Raised(s.t, id), s.g), id, kind), id)
  {
  }

  lemma ReuseKeeps(s: State, id: MapId, kind: Kind)
    requires Inv(s) && id in s.t.list && id in s.t.heap && s.t.heap[id].refs + 1 != INT_MAX
    requires kind.User? ==> s.g.pending.Idle?
    ensures Inv(Enter(State(Raised(s.t, id), s.g), id, kind))
  {
    var s' := Enter(State(Raised(s.t, id), s.g), id, kind);
    assert Local(s, id);
    ReuseTouchesOne(s, id, kind);
    LocalDecides(s, s', id);
  }

  lemma ReuseClean(s: State, id: MapId, kind: Kind)
    requires Clean(s) && id in s.t.heap && id in s.t.list && (kind.User? ==> s.g.pending.Idle?)
    requires kind.Handle? || s.t.heap[id].va != 0
    ensures Clean(Enter(State(Raised(s.t, id), s.g), id, kind))
  {
    ReuseTouchesOne(s, id, kind);
    assert CleanAt(s, id);
    CleanDecides(s, Enter(State(Raised(s.t, id), s.g), id, kind), id);
  }

  lemma FreshTouchesOne(s: State, m: Mapping, kind: Kind)
    requires s.t.next !in s.t.list && (kind.User? ==> s.g.pending.Idle?)
    ensures OnlyAt(s, Enter(Fresh(s, m), s.t.next, kind), s.t.next)
    ensures NoDuplicates(s.t.list) ==> NoDuplicates(Fresh(s, m).t.list)
  {
  }

  lemma FreshKeeps(s: State, m: Mapping, kind: Kind)
    requires Inv(s) && !HeapFlags(m.flags) && m.ctxRefs == 0 && m.refs == if m.keep then 2 else 1
    requires kind.User? ==> s.g.pending.Idle?
    ensures Inv(Enter(Fresh(s, m), s.t.next, kind))
  {
    assert Local(s, s.t.next);
    FreshTouchesOne(s, m, kind);
    LocalDecides(s, Enter(Fresh(s, m), s.t.next, kind), s.t.next);
  }

  lemma FreshClean(s: State, m: Mapping, kind: Kind)
    requires Inv(s) && Clean(s) && m.raddr == 0 && (kind.User? ==> s.g.pending.Idle?)
    requires m.va != 0 || (kind.Handle? && m.len == 0 && !m.keep)
    ensures Clean(Enter(Fresh(s, m), s.t.next, kind))
  {
    assert Local(s, s.t.next) && CleanAt(s, s.t.next);
    FreshTouchesOne(s, m, kind);
    CleanDecides(s, Enter(Fresh(s, m), s.t.next, kind), s.t.next);
  }

  lemma LostKeeps(s: State, t': Table, g': Ledger)
    requires Inv(s) && t'.list == s.t.list && s.t.next <= t'.next <= s.t.next + 1
    requires t'.heap - {s.t.next} == s.t.heap && (t'.next == s.t.next ==> t' == s.t)
    requires g' == if s.t.next in t'.heap then s.g.(lost := s.g.lost + {s.t.next}) else s.g
    ensures Inv(State(t', g')) && (Clean(s) ==> Clean(State(t', g')))
  {
    hide NoDuplicates;
    var id, s' := s.t.next, State(t', g');
    assert Local(s, id);
    forall k | k != id ensures SameAt(s, s', k) {
      assert k in s.t.heap <==> k in t'.heap - {id};
    }
    LocalDecides(s, s', id);
    if Clean(s) { assert CleanAt(s, id); }
    CleanDecides(s, s', id);
  }

  /** Handles are mapped at address zero with no length, everything else at an address. */
  predicate FitsKind(keep: bool, va: nat, len: nat, kind: Kind) {
    if kind.Handle? then va == 0 && len == 0 && !keep else va != 0
  }

  /** The three ways acquiring goes. */
  lemma AcquireIs(s: State, fd: int, keep: bool, va: nat, len: nat, flags: int, env: CreateEnv, kind: Kind)
    requires s.t.next !in s.t.heap && s.t.next !in s.t.list
    ensures var s' := Acquire(s, fd, keep, va, len, flags, env, kind);
            var (t', r) := Create(s.t, fd, keep, va, len, flags, env);
            if r.None? then s' == State(t', AfterCreate(s.g, s.t, t', r, keep))
            else if r.value == s.t.next then
              s' == Enter(Fresh(s, Mapping(fd, keep, flags, va, len, 0, if keep then 2 else 1, 0)), s.t.next, kind)
            else r.value in s.t.heap && s' == Enter(State(Raised(s.t, r.value), s.g), r.value, kind)
  {
    hide Create, Enter;
    CreateCases(s.t, fd, keep, va, len, flags, env);
  }

  /** Creating or reusing an object enters exactly one holder. */
  lemma AcquireKeeps(s: State, fd: int, keep: bool, va: nat, len: nat, flags: int, env: CreateEnv, kind: Kind)
    requires Inv(s) && (kind.User? ==> s.g.pending.Idle?)
    ensures Inv(Acquire(s, fd, keep, va, len, flags, env, kind))
  {
    assert Local(s, s.t.next);
    hide Create, Inv, Local, Enter, Acquire, Fresh, Raised;
    CreateCases(s.t, fd, keep, va, len, flags, env);
    AcquireIs(s, fd, keep, va, len, flags, env, kind);
    var (t', r) := Create(s.t, fd, keep, va, len, flags, env);
    if r.None? {
      LostKeeps(s, t', AfterCreate(s.g, s.t, t', r, keep));
    } else if r.value == s.t.next {
      FreshKeeps(s, Mapping(fd, keep, flags, va, len, 0, if keep then 2 else 1, 0), kind);
    } else {
      ReuseKeeps(s, r.value, kind);
    }
  }

  lemma AcquireClean(s: State, fd: int, keep: bool, va: nat, len: nat, flags: int, env: CreateEnv, kind: Kind)
    requires Inv(s) && Clean(s) && (kind.User? ==> s.g.pending.Idle?) && FitsKind(keep, va, len, kind)
    ensures Clean(Acquire(s, fd, keep, va, len, flags, env, kind))
  {
    assert Local(s, s.t.next);
    hide Create, Inv, Local, Enter, Acquire, Fresh, Raised;
    CreateCases(s.t, fd, keep, va, len, flags, env);
    AcquireIs(s, fd, keep, va, len, flags, env, kind);
    var (t', r) := Create(s.t, fd, keep, va, len, flags, env);
    if r.None? {
      LostKeeps(s, t', AfterCreate(s.g, s.t, t', r, keep));
    } else if r.value == s.t.next {
      FreshClean(s, Mapping(fd, keep, flags, va, len, 0, if keep then 2 else 1, 0), kind);
    } else {
      assert CleanAt(s, r.value);
      ReuseClean(s, r.value, kind);
    }
  }

  /** Dropping a reference of one kind. */
  function Dropped(s: State, id: MapId, kind: Kind): State
    requires id in s.t.heap
  {
    match kind
    case Slot => State(FreeCtx(s.t, id), s.g.(slots := s.g.slots - multiset{id}))
    case Handle => State(FreeCtx(s.t, id), s.g.(handles := s.g.handles - multiset{id}))
    case User => State(Free(s.t, id, false), s.g.(users := s.g.users - multiset{id}, pending := Idle))
  }

  lemma DropTouchesOne(s: State, id: MapId, kind: Kind)
    requires NoDuplicates(s.t.list) && id in s.t.heap && (kind.User? ==> s.g.pending == MapOp(id))
    ensures var s' := Dropped(s, id, kind);
            OnlyAt(s, s', id) && NoDuplicates(s'.t.list) && (id in s'.t.list <==> id in s.t.list && id in s'.t.heap)
  {
    hide FreeCtx, Free;
    DropsOnlyAt(s, id, !kind.User?, Dropped(s, id, kind).g);
  }

  /** Dropping one reference: the counts stay right exactly when the holder existed. */
  lemma DropExact(s: State, id: MapId, kind: Kind)
    requires Inv(s) && id in s.t.heap && id in s.t.list
    requires kind.User? ==> s.g.pending == MapOp(id)
    ensures Inv(Dropped(s, id, kind)) <==> match kind
                                           case Slot => id in s.g.slots
                                           case Handle => id in s.g.handles
                                           case User => true
  {
    assert Local(s, id);
    DropTouchesOne(s, id, kind);
    LocalDecides(s, Dropped(s, id, kind), id);
    hide Without, Inv, OnlyAt;
  }

  lemma DropClean(s: State, id: MapId, kind: Kind)
    requires Inv(s) && Clean(s) && id in s.t.heap && id in s.t.list && Inv(Dropped(s, id, kind))
    requires kind.User? ==> s.g.pending == MapOp(id)
    ensures Clean(Dropped(s, id, kind))
  {
    assert CleanAt(s, id);
    assert Local(s, id) && Local(Dropped(s, id, kind), id);
    DropTouchesOne(s, id, kind);
    CleanDecides(s, Dropped(s, id, kind), id);
    hide Without, Inv, OnlyAt;
  }

  /** Taking an object off the list keeps the counts right exactly when a KEEP_MAP object
      still has its pin besides the one reference that is being unmapped. */
  lemma UnmapBeginExact(s: State, fd: int, va: nat, len: nat)
    requires Inv(s) && s.g.pending.Idle?
    ensures Inv(DoUnmapBegin(s, fd, va, len)) <==> Regular(s, UnmapBegin(fd, va, len))
    ensures Clean(s) && va != 0 ==> Clean(DoUnmapBegin(s, fd, va, len))
  {
    var (t', r) := Remove(s.t, fd, va, len);
    if r.Some? {
      var id := r.value;
      var s' := DoUnmapBegin(s, fd, va, len);
      assert Local(s, id);
      hide Without, FirstMatch;
      WithoutNoDuplicates(s.t.list, id);
      forall k ensures k in Without(s.t.list, id) <==> k in s.t.list && k != id {
        WithoutMembers(s.t.list, id, k);
      }
      assert OnlyAt(s, s', id) by { hide Local, Holders, NoDuplicates; }
      LocalDecides(s, s', id);
      if Clean(s) { assert CleanAt(s, id); }
      CleanDecides(s, s', id);
    }
  }

  lemma UnmapDoneKeeps(s: State)
    requires Inv(s) && Enabled(s, UnmapDone)
    ensures Inv(Apply(s, UnmapDone)) && (Clean(s) ==> Clean(Apply(s, UnmapDone)))
  {
    var id := s.g.pending.id;
    assert Local(s, id);
    hide Without, FirstMatch;
    DropsOnlyAt(s, id, false, s.g.(users := s.g.users - multiset{id}, pending := Idle));
    LocalDecides(s, Apply(s, UnmapDone), id);
    if Clean(s) { assert CleanAt(s, id); }
    CleanDecides(s, Apply(s, UnmapDone), id);
  }

  lemma UnmapFailKeeps(s: State, retake: bool)
    requires Inv(s) && Enabled(s, UnmapFail(retake))
    ensures Inv(Apply(s, UnmapFail(retake)))
    ensures Clean(s) && Visible(s, UnmapFail(retake)) ==> Clean(Apply(s, UnmapFail(retake)))
  {
    var id := s.g.pending.id;
    var s' := Apply(s, UnmapFail(retake));
    assert Local(s, id);
    assert OnlyAt(s, s', id) by { hide Local, Holders; }
    LocalDecides(s, s', id);
    if Clean(s) { assert CleanAt(s, id); }
    CleanDecides(s, s', id);
  }

  lemma MapDoneKeeps(s: State, raddr: nat)
    requires Inv(s) && Enabled(s, MapDone(raddr))
    ensures Inv(Apply(s, MapDone(raddr))) && (Clean(s) ==> Clean(Apply(s, MapDone(raddr))))
  {
    var id := s.g.pending.id;
    var s' := Apply(s, MapDone(raddr));
    assert Local(s, id);
    assert OnlyAt(s, s', id) by { hide Local, Holders, NoDuplicates; }
    LocalDecides(s, s', id);
    if Clean(s) { assert CleanAt(s, id); }
    CleanDecides(s, s', id);
  }

  lemma DropPinExact(s: State, id: MapId)
    requires Inv(s) && id in s.t.list && id in s.t.heap
    ensures OnlyAt(s, DropPin(s, id), id) && NoDuplicates(DropPin(s, id).t.list)
    ensures Inv(DropPin(s, id)) <==> id in s.g.pins
    ensures id !in s.g.pins ==> !Local(DropPin(s, id), id)
  {
    assert Local(s, id);
    hide Without;
    DropsOnlyAt(s, id, false, s.g.(pins := s.g.pins - {id}));
    LocalDecides(s, DropPin(s, id), id);
  }

  /** Objects that are not visited stay as they are. */
  lemma {:induction false} DropPinsFrame(s: State, ids: seq<MapId>, fd: int, k: MapId)
    requires k !in ids && NoDuplicates(s.t.list)
    ensures SameAt(s, DropPins(s, ids, fd), k) && DropPins(s, ids, fd).t.next == s.t.next
    decreases |ids|
  {
    if ids != [] {
      assert ids[0] in ids && k !in ids[1..];
      if ids[0] in s.t.heap && ForFd(s.t.heap[ids[0]], fd) {
        var s' := DropPin(s, ids[0]);
        DropsOnlyAt(s, ids[0], false, s.g.(pins := s.g.pins - {ids[0]}));
        assert SameAt(s, s', k);
        hide DropPin;
        DropPinsFrame(s', ids[1..], fd, k);
      } else {
        DropPinsFrame(s, ids[1..], fd, k);
      }
    }
  }

  ghost predicate AllPinned(s: State, ids: seq<MapId>, fd: int) {
    forall i :: 0 <= i < |ids| && ids[i] in s.t.heap && ForFd(s.t.heap[ids[i]], fd) ==> ids[i] in s.g.pins
  }

  lemma {:induction false} DropPinsExact(s: State, ids: seq<MapId>, fd: int)
    requires Inv(s) && NoDuplicates(ids) && forall i :: 0 <= i < |ids| ==> ids[i] in s.t.list
    ensures Inv(DropPins(s, ids, fd)) <==> AllPinned(s, ids, fd)
    decreases |ids|
  {
    if ids == [] { return; }
    var id, rest := ids[0], ids[1..];
    assert forall i :: 0 <= i < |rest| ==> rest[i] == ids[i + 1];
    assert id !in rest;
    if !(id in s.t.heap && ForFd(s.t.heap[id], fd)) {
      DropPinsExact(s, rest, fd);
      AllPinnedCons(s, s, ids, fd);
      return;
    }
    var s' := DropPin(s, id);
    DropPinExact(s, id);
    hide DropPin, Local;
    if id in s.g.pins {
      forall i | 0 <= i < |rest| ensures rest[i] in s'.t.list { assert SameAt(s, s', rest[i]); }
      DropPinsExact(s', rest, fd);
      AllPinnedCons(s, s', ids, fd);
    } else {
      DropPinsFrame(s', rest, fd, id);
      SameLocal(s', DropPins(s', rest, fd), id);
    }
  }

  lemma SameLocal(s: State, s': State, k: MapId)
    requires SameAt(s, s', k) && s.t.next == s'.t.next
    ensures Local(s, k) <==> Local(s', k)
  {
  }

  /** Splitting off the first visited object. */
  lemma AllPinnedCons(s: State, s': State, ids: seq<MapId>, fd: int)
    requires ids != [] && NoDuplicates(ids) && OnlyAt(s, s', ids[0])
    requires ids[0] in s.t.heap && ForFd(s.t.heap[ids[0]], fd) ==> ids[0] in s.g.pins
    ensures AllPinned(s, ids, fd) <==> AllPinned(s', ids[1..], fd)
  {
    var rest := ids[1..];
    assert forall i :: 0 <= i < |rest| ==> rest[i] == ids[i + 1];
    forall i | 0 <= i < |rest| ensures SameAt(s, s', rest[i]) { }
    if AllPinned(s', rest, fd) {
      forall i | 0 <= i < |ids| && ids[i] in s.t.heap && ForFd(s.t.heap[ids[i]], fd)
        ensures ids[i] in s.g.pins
      {
        if i > 0 { assert ids[i] == rest[i - 1] && SameAt(s, s', rest[i - 1]); }
      }
    }
  }

  // ---------------------------------------------------------------- steps and runs

  /** The main result for one step: from a state where the counts are right, they are
      right after the step if and only if the step is regular. */
  lemma StepExact(s: State, step: Step)
    requires Inv(s) && Enabled(s, step)
    ensures Inv(Apply(s, step)) <==> Regular(s, step)
  {
    hide Inv, Acquire, FreeCtx, Free, DoUnmapFail, DoUnmapBegin, FirstMatch;
    match step
    case MapBuf(fd, keep, va, len, env) => AcquireKeeps(s, fd, keep, va, len, 0, env, Slot);
    case UnmapBuf(id) => HolderListed(s, id); DropExact(s, id, Slot);
    case MapHandle(fd, flags, env) => AcquireKeeps(s, fd, false, 0, 0, flags, env, Handle);
    case UnmapHandle(id) => HolderListed(s, id); DropExact(s, id, Handle);
    case ReleaseFd(fd) =>
      if Lookup(s.t, fd, 0, 0).Some? { DropExact(s, Lookup(s.t, fd, 0, 0).value, Handle); }
    case MapBegin(fd, keep, va, len, flags, env) => AcquireKeeps(s, fd, keep, va, len, flags, env, User);
    case MapDone(raddr) => MapDoneKeeps(s, raddr);
    case MapFail => HolderListed(s, s.g.pending.id); DropExact(s, s.g.pending.id, User);
    case UnmapBegin(fd, va, len) => UnmapBeginExact(s, fd, va, len);
    case UnmapDone => UnmapDoneKeeps(s);
    case UnmapFail(retake) => UnmapFailKeeps(s, retake);
    case RemoveFds(fd) => ListedIsNoDuplicates(s); DropPinsExact(s, s.t.list, fd);
  }

  lemma ListedIsNoDuplicates(s: State)
    requires Inv(s)
    ensures NoDuplicates(s.t.list)
  {
  }

  /** Whoever holds an object in a slot, a handle or a running mmap finds it listed. */
  lemma HolderListed(s: State, id: MapId)
    requires Inv(s)
    requires id in s.g.slots || id in s.g.handles || s.g.pending == MapOp(id)
    ensures id in s.t.list && id in s.t.heap
  {
    assert Local(s, id);
  }
}
