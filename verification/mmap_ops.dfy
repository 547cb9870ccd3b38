/** The mapping table as the driver changes it: a file's list of mappings, updated in place
    by the `vfastrpc_mmap_*` calls and by the loops of their callers. */
module MmapOps {
  import opened Lists
  import opened Wrappers
  import opened MapTable
  import opened MapLedger
  import opened MapRuns
  import opened Slots
  import MapSearch

  datatype Errno = EOVERFLOW | ENOTTY | ETOOMANYREFS | EINVAL

  // ---------------------------------------------------------------- the driver's code

  class FileMaps {
    var list: seq<MapId>
    var heap: map<MapId, Mapping>
    var next: MapId

    function St(): Table
      reads this
    {
      Table(list, heap, next)
    }

    ghost predicate Valid()
      reads this
    {
      Shaped(St()) && forall k :: k in heap ==> k < next
    }

    constructor ()
      ensures Valid() && St() == Init().t
    {
      list, heap, next := [], map[], 0;
    }

    /** `vfastrpc_mmap_find`. */
    method Find(fd: int, va: nat, len: nat, mflags: int, take: bool) returns (r: Result<MapId, Errno>)
      requires Valid()
      modifies this`heap
      ensures r == if Add64(va, len) < va then Err(EOVERFLOW)
                   else if HeapFlags(mflags) then Err(ENOTTY)
                   else match old(Lookup(St(), fd, va, len))
                        case None => Err(ENOTTY)
                        case Some(id) => if take && old(heap)[id].refs + 1 == INT_MAX then Err(ETOOMANYREFS) else Ok(id)
      ensures heap == if r.Ok? && take && r.value in old(heap)
                      then old(heap)[r.value := old(heap)[r.value].(refs := old(heap)[r.value].refs + 1)]
                      else old(heap)
      ensures r.Ok? ==> MapSearch.FirstFor(old(St()), fd, va, len, r.value)
      ensures r == Err(ENOTTY) && !HeapFlags(mflags) ==>
                forall k :: k in list ==> !MapSearch.Fits(old(heap)[k], fd, va, len)
    {
      if Add64(va, len) < va { return Err(EOVERFLOW); }
      if HeapFlags(mflags) { return Err(ENOTTY); }
      ghost var q := (m: Mapping) => Covers(m, fd, va, len);
      var i := 0;
      while i < |list|
        invariant 0 <= i <= |list|
        invariant heap == old(heap)
        invariant forall j :: 0 <= j < i ==> list[j] in heap && !q(heap[list[j]])
      {
        var m := heap[list[i]];
        if va >= m.va && Add64(va, len) <= Add64(m.va, m.len) && m.fd == fd {
          LookupIs(St(), fd, va, len, i);
          MapSearch.LookupExact(St(), fd, va, len, list[i]);
          if take {
            if m.refs + 1 == INT_MAX { return Err(ETOOMANYREFS); }
            heap := heap[list[i] := m.(refs := m.refs + 1)];
          }
          return Ok(list[i]);
        }
        i := i + 1;
      }
      LookupIs(St(), fd, va, len, i);
      MapSearch.LookupExact(St(), fd, va, len, 0);
      r := Err(ENOTTY);
    }

    /** `vfastrpc_mmap_free`; `None` is the null pointer. */
    method Free(target: Option<MapId>, force: bool)
      requires target.Some? ==> target.value in heap
      modifies this`list, this`heap
      ensures St() == if target.Some? then MapTable.Free(old(St()), target.value, force) else old(St())
    {
      if target.None? { return; }
      var id := target.value;
      var m := heap[id];
      if HeapFlags(m.flags) { return; }
      if m.refs <= 0 || m.ctxRefs < 0 { return; }
      m := m.(refs := m.refs - 1);
      if (m.refs != 0 || m.ctxRefs != 0) && force {
        m := m.(refs := 0, ctxRefs := 0);
      }
      heap := heap[id := m];
      if m.refs == 0 && m.ctxRefs == 0 {
        list := Without(list, id);
        heap := heap - {id};
        assert heap == old(heap) - {id};
      }
    }

    /** `vfastrpc_mmap_add`. */
    method Add(id: MapId)
      requires id in heap
      modifies this`list
      ensures St() == MapTable.Add(old(St()), id)
    {
      if HeapFlags(heap[id].flags) { return; }
      list := [id] + list;
    }

    /** `vfastrpc_mmap_create`. */
    method Create(fd: int, keep: bool, va: nat, len: nat, mflags: int, env: CreateEnv) returns (r: Option<MapId>)
      requires Valid()
      modifies this
      ensures (St(), r) == MapTable.Create(old(St()), fd, keep, va, len, mflags, env)
      ensures r.Some? ==> r.value in list && r.value in heap && heap[r.value].fd == fd
    {
      MapSearch.CreatedForFd(St(), fd, keep, va, len, mflags, env);
      hide MapSearch.FirstFor, MapSearch.Fits;
      var found := Find(fd, va, len, mflags, true);
      if found.Ok? { return Some(found.value); }
      assert heap == old(heap);
      if env.NoMemory? { return None; }
      var id := next;
      var m := Mapping(fd, keep, mflags, 0, 0, 0, 1, 0);
      next := next + 1;
      if HeapFlags(mflags) {
        heap := heap[id := m];
        Free(Some(id), false);
        return None;
      }
      if keep { m := m.(refs := 2); }
      heap := heap[id := m];
      if env.NoDmaBuf? {
        Free(Some(id), false);
        return None;
      }
      heap := heap[id := m.(va := va, len := len)];
      assert heap == old(heap)[id := m.(va := va, len := len)];
      Add(id);
      r := Some(id);
    }

    /** `vfastrpc_mmap_remove`. */
    method Remove(fd: int, va: nat, len: nat) returns (r: Option<MapId>)
      requires Valid()
      modifies this`list, this`heap
      ensures (St(), r) == MapTable.Remove(old(St()), fd, va, len)
      ensures r.Some? ==> r.value in old(heap) && MapSearch.Takeable(old(heap)[r.value], fd, va, len)
      ensures r.None? ==> forall k :: k in list ==> !MapSearch.Takeable(heap[k], fd, va, len)
    {
      MapSearch.RemoveExact(St(), fd, va, len, 0);
      ghost var q := (m: Mapping) => Removable(m, fd, va, len);
      var i := 0;
      while i < |list|
        invariant 0 <= i <= |list|
        invariant St() == old(St())
        invariant forall j :: 0 <= j < i ==> list[j] in heap && !q(heap[list[j]])
      {
        var id := list[i];
        var m := heap[id];
        if (fd < 0 || m.fd == fd) && m.raddr == va && Add64(m.raddr, m.len) == Add64(va, len)
           && (m.refs == 1 || (m.refs == 2 && m.keep)) && m.ctxRefs == 0
        {
          RemovesAt(St(), fd, va, len, i);
          if m.keep { heap := heap[id := m.(refs := m.refs - 1)]; }
          assert !m.keep ==> heap[id := m] == heap;
          list := Without(list, id);
          return Some(id);
        }
        i := i + 1;
      }
      RemovesAt(St(), fd, va, len, i);
      r := None;
    }

    /** `vfastrpc_mmap_remove_fd`: frees every matching object, also when it reports that a
        count is abnormal. */
    method RemoveFd(fd: int) returns (entries: nat, tooMany: bool)
      requires Valid()
      modifies this`list, this`heap
      ensures St() == MapTable.RemoveFd(old(St()), fd)
      ensures entries == CountForFd(old(list), old(heap), fd)
      ensures tooMany <==> exists i :: 0 <= i < |old(list)| && ForFd(old(heap)[old(list)[i]], fd)
                                       && (old(heap)[old(list)[i]].refs > 1 || old(heap)[old(list)[i]].ctxRefs != 0)
    {
      hide Without;
      var ids := list;
      entries, tooMany := 0, false;
      var i := 0;
      while i < |ids|
        invariant 0 <= i <= |ids| && Shaped(St())
        invariant RemoveFdFrom(St(), ids[i..], fd) == old(MapTable.RemoveFd(St(), fd))
        invariant forall j :: i <= j < |ids| ==> ids[j] in heap && heap[ids[j]] == old(heap)[ids[j]]
        invariant entries + CountForFd(ids[i..], old(heap), fd) == CountForFd(ids, old(heap), fd)
        invariant tooMany <==> exists j :: 0 <= j < i && ForFd(old(heap)[ids[j]], fd)
                                           && (old(heap)[ids[j]].refs > 1 || old(heap)[ids[j]].ctxRefs != 0)
      {
        assert ids[i..][1..] == ids[i + 1..];
        var m := heap[ids[i]];
        if m.fd == fd && m.keep {
          entries := entries + 1;
          if m.refs > 1 || m.ctxRefs != 0 { tooMany := true; }
          hide MapTable.Free;
          FreeTouchesOne(St(), ids[i], false);
          Free(Some(ids[i]), false);
        }
        i := i + 1;
      }
    }

    /** One reference of an invoke: the context count, then the object. */
    method ReleaseOne(id: MapId)
      requires id in heap
      modifies this`list, this`heap
      ensures St() == FreeCtx(old(St()), id)
    {
      assert heap[id := heap[id]] == heap;
      if heap[id].ctxRefs != 0 {
        heap := heap[id := heap[id].(ctxRefs := heap[id].ctxRefs - 1)];
      }
      Free(Some(id), false);
    }

    /** The handle pass of `get_args`, with its roll-back. */
    method MapHandles(reqs: seq<Option<HandleRequest>>) returns (maps: Option<seq<Option<MapId>>>)
      requires Valid()
      modifies this
      ensures (St(), maps) == TakeHandles(old(St()), reqs, [])
    {
      var taken: seq<Option<MapId>> := [];
      var i := 0;
      while i < |reqs|
        invariant 0 <= i <= |reqs| && Valid()
        invariant TakeHandles(St(), reqs[i..], taken) == old(TakeHandles(St(), reqs, []))
      {
        assert reqs[i..][1..] == reqs[i + 1..];
        if reqs[i].Some? {
          var q := reqs[i].value;
          CreateShapes(St(), q.fd, false, 0, 0, q.flags, q.env);
          var r := Create(q.fd, false, 0, 0, q.flags, q.env);
          if r.None? || r.value !in heap {
            ReleaseSlots(taken);
            return None;
          }
          heap := heap[r.value := heap[r.value].(ctxRefs := heap[r.value].ctxRefs + 1)];
          taken := taken + [r];
        } else {
          taken := taken + [None];
        }
        i := i + 1;
      }
      maps := Some(taken);
    }

    /** The fdlist loop of `put_args`. */
    method ReleaseFdlist(fds: seq<int>)
      requires Valid()
      modifies this`list, this`heap
      ensures St() == ReleaseFds(old(St()), fds)
    {
      var i := 0;
      while i < |fds|
        invariant 0 <= i <= |fds| && Valid()
        invariant ReleaseFds(St(), fds[i..]) == old(ReleaseFds(St(), fds))
      {
        assert fds[i..][1..] == fds[i + 1..];
        if fds[i] == 0 { return; }
        var found := Find(fds[i], 0, 0, 0, false);
        if found.Ok? {
          FreeCtxShapes(St(), found.value);
          ReleaseOne(found.value);
        }
        i := i + 1;
      }
    }

    /** The reference drops of `context_free` and of `put_args`. */
    method ReleaseSlots(maps: seq<Option<MapId>>)
      modifies this`list, this`heap
      ensures St() == ReleaseAll(old(St()), maps)
    {
      var i := 0;
      while i < |maps|
        invariant 0 <= i <= |maps|
        invariant ReleaseAll(St(), maps[i..]) == old(ReleaseAll(St(), maps))
      {
        assert maps[i..][1..] == maps[i + 1..];
        if maps[i].Some? && maps[i].value in heap { ReleaseOne(maps[i].value); }
        i := i + 1;
      }
    }

    /** The sizing pass of `get_args` over the buffers with descriptors. */
    method MapBuffers(reqs: seq<Option<BufRequest>>, maps: array<Option<MapId>>) returns (ok: bool)
      requires Valid() && maps.Length == |reqs| && forall i :: 0 <= i < maps.Length ==> maps[i].None?
      modifies this, maps
      ensures (St(), maps[..], ok) == TakeSlots(old(St()), reqs, [])
    {
      hide MapTable.Create, Without;
      var i := 0;
      while i < |reqs|
        invariant 0 <= i <= |reqs| && Valid()
        invariant forall j :: i <= j < maps.Length ==> maps[j].None?
        invariant TakeSlots(St(), reqs[i..], maps[..i]) == old(TakeSlots(St(), reqs, []))
      {
        assert reqs[i..][1..] == reqs[i + 1..];
        if reqs[i].Some? {
          var q := reqs[i].value;
          CreateShapes(St(), q.fd, q.keep, q.va, q.len, 0, q.env);
          var r := Create(q.fd, q.keep, q.va, q.len, 0, q.env);
          if r.None? || r.value !in heap {
            assert maps[..] == maps[..i] + NoMaps(|reqs| - i);
            return false;
          }
          heap := heap[r.value := heap[r.value].(ctxRefs := heap[r.value].ctxRefs + 1)];
          maps[i] := r;
        }
        assert maps[..i + 1] == maps[..i] + [maps[i]];
        i := i + 1;
      }
      assert maps[..i] == maps[..];
      ok := true;
    }

    /** The output loop of `put_args` up to where it stops: a mapped output is dropped and its
        entry cleared, so that `context_free` does not drop it again. */
    method PutOutputs(maps: array<Option<MapId>>, inbufs: nat, stop: nat)
      requires inbufs <= stop <= maps.Length
      modifies this`list, this`heap, maps
      ensures St() == ReleaseAll(old(St()), old(maps[inbufs..stop]))
      ensures maps[..] == Cleared(old(maps[..]), inbufs, stop)
    {
      var i := inbufs;
      while i < stop
        invariant inbufs <= i <= stop
        invariant forall j :: 0 <= j < maps.Length ==> maps[j] == if inbufs <= j < i then None else old(maps[j])
        invariant ReleaseAll(St(), maps[i..stop]) == old(ReleaseAll(St(), maps[inbufs..stop]))
      {
        assert maps[i..stop][1..] == maps[i + 1..stop] && maps[i..stop][0] == maps[i];
        ghost var rest := maps[i + 1..stop];
        if maps[i].Some? {
          if maps[i].value in heap { ReleaseOne(maps[i].value); }
          maps[i] := None;
        }
        assert maps[i + 1..stop] == rest;
        i := i + 1;
      }
      assert maps[..] == Cleared(old(maps[..]), inbufs, stop);
    }

    /** The map loop of `vfastrpc_file_free`. It ends because every count is positive. */
    method FreeAll() returns (freed: seq<MapId>)
      requires Shaped(St()) && forall k :: k in list ==> Freeable(heap[k])
      modifies this`list, this`heap
      ensures freed == old(list)
      ensures St() == ForceRounds(old(St()), |old(list)|) && list == []
    {
      hide Without;
      freed := [];
      while list != []
        invariant Shaped(St()) && forall k :: k in list ==> Freeable(heap[k])
        invariant |freed| <= |old(list)|
        invariant freed == old(list)[..|freed|] && list == old(list)[|freed|..]
        invariant ForceRounds(St(), |list|) == old(ForceRounds(St(), |list|))
        decreases |list|
      {
        hide ForceRounds;
        var lmap := list[0];
        ghost var t' := FirstIsFreed(St());
        Free(Some(lmap), true);
        assert St() == t';
        freed := freed + [lmap];
      }
    }
  }

  lemma CreateShapes(t: Table, fd: int, keep: bool, va: nat, len: nat, flags: int, env: CreateEnv)
    requires Shaped(t) && forall k :: k in t.heap ==> k < t.next
    ensures var t' := Create(t, fd, keep, va, len, flags, env).0;
            Shaped(t') && forall k :: k in t'.heap ==> k < t'.next
  {
    hide FirstMatch, Without;
    assert t.next !in t.heap;
    CreateCases(t, fd, keep, va, len, flags, env);
    var t' := Create(t, fd, keep, va, len, flags, env).0;
    hide Create;
    forall k ensures k in t'.heap <==> (k in t'.heap - {t.next} || (k == t.next && k in t'.heap)) { }
  }

  lemma FreeCtxShapes(t: Table, id: MapId)
    requires Shaped(t) && id in t.heap && forall k :: k in t.heap ==> k < t.next
    ensures var t' := FreeCtx(t, id); Shaped(t') && forall k :: k in t'.heap ==> k < t'.next
  {
    hide Without;
    var m := t.heap[id];
    var m' := if m.ctxRefs != 0 then m.(ctxRefs := m.ctxRefs - 1) else m;
    FreeTouchesOne(t.(heap := t.heap[id := m']), id, false);
  }

  lemma LookupIs(t: Table, fd: int, va: nat, len: nat, i: nat)
    requires i <= |t.list|
    requires forall j :: 0 <= j < i ==> t.list[j] in t.heap && !Covers(t.heap[t.list[j]], fd, va, len)
    requires i < |t.list| ==> t.list[i] in t.heap && Covers(t.heap[t.list[i]], fd, va, len)
    ensures Lookup(t, fd, va, len) == if i < |t.list| then Some(t.list[i]) else None
  {
    FirstMatchAt(t.list, t.heap, m => Covers(m, fd, va, len), i);
  }

  lemma RemovesAt(t: Table, fd: int, va: nat, len: nat, i: nat)
    requires i <= |t.list|
    requires forall j :: 0 <= j < i ==> t.list[j] in t.heap && !Removable(t.heap[t.list[j]], fd, va, len)
    requires i < |t.list| ==> t.list[i] in t.heap && Removable(t.heap[t.list[i]], fd, va, len)
    ensures Remove(t, fd, va, len) ==
            if i == |t.list| then (t, None)
            else
              var m := t.heap[t.list[i]];
              (t.(list := Without(t.list, t.list[i]),
                  heap := t.heap[t.list[i] := if m.keep then m.(refs := m.refs - 1) else m]), Some(t.list[i]))
  {
    FirstMatchAt(t.list, t.heap, m => Removable(m, fd, va, len), i);
  }
}
