/** The per-file table of DMA mappings (`vfastrpc_mmap_*`): a linked list of reference
    counted objects. Each function is one call made while `map_mutex` is held. */
module MapTable {
  import opened Lists
  import opened Wrappers

  type MapId = nat

  const ADSP_MMAP_HEAP_ADDR := 4
  const ADSP_MMAP_REMOTE_HEAP_ADDR := 8
  const INT_MAX := 0x7fff_ffff
  const TWO_TO_THE_64 := 0x1_0000_0000_0000_0000

  /** The fields of `struct vfastrpc_mmap` that decide anything; `keep` is the
      FASTRPC_ATTR_KEEP_MAP bit of its attributes. */
  datatype Mapping = Mapping(
    fd: int, keep: bool, flags: int, va: nat, len: nat, raddr: nat, refs: int, ctxRefs: int)

  /** `list` is the linked list from its head; `heap` holds every object that has been
      allocated and not freed, listed or not; ids from `next` on are unused. */
  datatype Table = Table(list: seq<MapId>, heap: map<MapId, Mapping>, next: MapId)

  /** How creating a new object goes: no memory, no usable dma-buf, or success. */
  datatype CreateEnv = NoMemory | NoDmaBuf | Usable

  predicate HeapFlags(flags: int) {
    flags == ADSP_MMAP_HEAP_ADDR || flags == ADSP_MMAP_REMOTE_HEAP_ADDR
  }

  /** 64-bit address arithmetic. */
  function Add64(a: nat, b: nat): nat { (a + b) % TWO_TO_THE_64 }

  predicate Covers(m: Mapping, fd: int, va: nat, len: nat) {
    va >= m.va && Add64(va, len) <= Add64(m.va, m.len) && m.fd == fd
  }

  /** The guard of `vfastrpc_mmap_remove`. */
  predicate Removable(m: Mapping, fd: int, va: nat, len: nat) {
    && (fd < 0 || m.fd == fd) && m.raddr == va && Add64(m.raddr, m.len) == Add64(va, len)
    && (m.refs == 1 || (m.refs == 2 && m.keep)) && m.ctxRefs == 0
  }

  /** First listed object that satisfies `q`. */
  function FirstMatch(list: seq<MapId>, heap: map<MapId, Mapping>, q: Mapping -> bool): (r: Option<MapId>)
    ensures r.Some? ==> r.value in list && r.value in heap && q(heap[r.value])
  {
    if list == [] then None
    else if list[0] in heap && q(heap[list[0]]) then Some(list[0])
    else FirstMatch(list[1..], heap, q)
  }

  /** The search of `vfastrpc_mmap_find`. */
  function Lookup(t: Table, fd: int, va: nat, len: nat): (r: Option<MapId>)
    ensures r.Some? ==> r.value in t.list && r.value in t.heap && Covers(t.heap[r.value], fd, va, len)
  {
    FirstMatch(t.list, t.heap, m => Covers(m, fd, va, len))
  }

  /** `vfastrpc_mmap_free` on an existing object. */
  function Free(t: Table, id: MapId, force: bool): Table
    requires id in t.heap
  {
    var m := t.heap[id];
    if HeapFlags(m.flags) || m.refs <= 0 || m.ctxRefs < 0 then t
    else if force || (m.refs == 1 && m.ctxRefs == 0)
    then t.(list := Without(t.list, id), heap := t.heap - {id})
    else t.(heap := t.heap[id := m.(refs := m.refs - 1)])
  }

  /** Dropping a reference held by an invoke: context count first, then the object. */
  function FreeCtx(t: Table, id: MapId): Table
    requires id in t.heap
  {
    var m := t.heap[id];
    var m' := if m.ctxRefs != 0 then m.(ctxRefs := m.ctxRefs - 1) else m;
    Free(t.(heap := t.heap[id := m']), id, false)
  }

  /** `vfastrpc_mmap_add`. */
  function Add(t: Table, id: MapId): Table
    requires id in t.heap
  {
    if HeapFlags(t.heap[id].flags) then t else t.(list := [id] + t.list)
  }

  /** The part of `vfastrpc_mmap_create` that runs when no listed object is reused. */
  function CreateNew(t: Table, fd: int, keep: bool, va: nat, len: nat, flags: int, env: CreateEnv):
    (Table, Option<MapId>)
  {
    var id := t.next;
    var m := Mapping(fd, keep, flags, 0, 0, 0, 1, 0);
    if env.NoMemory? then (t, None)
    else if HeapFlags(flags) then
      (Free(t.(heap := t.heap[id := m], next := id + 1), id, false), None)
    else
      var m := if keep then m.(refs := 2) else m;
      if env.NoDmaBuf? then
        (Free(t.(heap := t.heap[id := m], next := id + 1), id, false), None)
      else
        (Add(t.(heap := t.heap[id := m.(va := va, len := len)], next := id + 1), id), Some(id))
  }

  /** The object that `vfastrpc_mmap_create` reuses: the first covering one, unless its
      count would reach INT_MAX or the range wraps around. */
  function Reused(t: Table, fd: int, va: nat, len: nat, flags: int): (r: Option<MapId>)
    ensures r.Some? ==> r.value in t.list && r.value in t.heap && t.heap[r.value].refs + 1 != INT_MAX
  {
    if Add64(va, len) < va || HeapFlags(flags) then None
    else match Lookup(t, fd, va, len)
         case Some(id) => if t.heap[id].refs + 1 == INT_MAX then None else Some(id)
         case None => None
  }

  /** `vfastrpc_mmap_create`. */
  function Create(t: Table, fd: int, keep: bool, va: nat, len: nat, flags: int, env: CreateEnv):
    (Table, Option<MapId>)
  {
    match Reused(t, fd, va, len, flags)
    case Some(id) =>
      (t.(heap := t.heap[id := t.heap[id].(refs := t.heap[id].refs + 1)]), Some(id))
    case None => CreateNew(t, fd, keep, va, len, flags, env)
  }

  /** `vfastrpc_mmap_remove`: takes the object off the list and drops the KEEP_MAP pin. */
  function Remove(t: Table, fd: int, va: nat, len: nat): (Table, Option<MapId>) {
    match FirstMatch(t.list, t.heap, m => Removable(m, fd, va, len))
    case Some(id) =>
      var m := t.heap[id];
      (t.(list := Without(t.list, id),
          heap := t.heap[id := if m.keep then m.(refs := m.refs - 1) else m]), Some(id))
    case None => (t, None)
  }

  predicate ForFd(m: Mapping, fd: int) { m.fd == fd && m.keep }

  /** `vfastrpc_mmap_remove_fd`, for the list entries `ids` still to be visited. */
  function RemoveFdFrom(t: Table, ids: seq<MapId>, fd: int): Table
    decreases |ids|
  {
    if ids == [] then t
    else if ids[0] in t.heap && ForFd(t.heap[ids[0]], fd)
    then RemoveFdFrom(Free(t, ids[0], false), ids[1..], fd)
    else RemoveFdFrom(t, ids[1..], fd)
  }

  function RemoveFd(t: Table, fd: int): Table { RemoveFdFrom(t, t.list, fd) }

  // ---------------------------------------------------------------- list facts

  /** A search returns the first object that satisfies the test, and fails only when
      there is none. */
  lemma {:induction false} FirstMatchAt(list: seq<MapId>, heap: map<MapId, Mapping>, q: Mapping -> bool, i: nat)
    requires forall j :: 0 <= j < i <= |list| ==> list[j] !in heap || !q(heap[list[j]])
    requires i <= |list|
    ensures FirstMatch(list, heap, q) ==
            if i == |list| then None
            else if list[i] in heap && q(heap[list[i]]) then Some(list[i])
            else FirstMatch(list[i + 1..], heap, q)
  {
    if i > 0 {
      assert forall j :: 0 <= j < i - 1 ==> list[1..][j] == list[j + 1];
      FirstMatchAt(list[1..], heap, q, i - 1);
      if i < |list| { assert list[1..][i..] == list[i + 1..]; }
    }
  }
}
