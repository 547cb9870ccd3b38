/** What the searches of the mapping table find, in terms of the fields of the objects: which
    mapping is reused, created, taken off the list, or released for a descriptor. */
module MapSearch {
  import opened Lists
  import opened Wrappers
  import opened MapTable
  import opened MapLedger
  import opened MapRuns
  import opened Slots

  /** Every listed object exists, once, and ids from the next one on are unused. */
  ghost predicate WellFormed(t: Table) { Shaped(t) && forall k :: k in t.heap ==> k < t.next }

  // ---------------------------------------------------------------- finding and creating

  /** The object maps the descriptor and, on unsigned sums, the whole range. */
  predicate Fits(m: Mapping, fd: int, va: nat, len: nat) {
    && m.fd == fd && m.va <= va
    && (va + len) % 0x1_0000_0000_0000_0000 <= (m.va + m.len) % 0x1_0000_0000_0000_0000
  }

  /** `id` is the first listed object that maps descriptor and range. */
  ghost predicate FirstFor(t: Table, fd: int, va: nat, len: nat, id: MapId) {
    id in t.heap && Fits(t.heap[id], fd, va, len) &&
    exists i :: 0 <= i < |t.list| && t.list[i] == id &&
      forall j :: 0 <= j < i ==> t.list[j] in t.heap && !Fits(t.heap[t.list[j]], fd, va, len)
  }

  /** The search returns this object, and nothing only when there is none. */
  lemma LookupExact(t: Table, fd: int, va: nat, len: nat, id: MapId)
    requires Shaped(t)
    ensures Lookup(t, fd, va, len) == Some(id) <==> FirstFor(t, fd, va, len, id)
    ensures Lookup(t, fd, va, len).None? ==> forall k :: k in t.list ==> !Fits(t.heap[k], fd, va, len)
  {
    var i := WhereFirst(t, fd, va, len);
    hide FirstMatch, Covers, Fits, FirstFor;
    forall k | k in t.heap ensures Covers(t.heap[k], fd, va, len) <==> Fits(t.heap[k], fd, va, len) {
      CoversMeans(t.heap[k], fd, va, len);
    }
    FirstMatchAt(t.list, t.heap, m => Covers(m, fd, va, len), i);
    assert Lookup(t, fd, va, len) == if i == |t.list| then None else Some(t.list[i]);
    hide Lookup;
    FirstAt(t, fd, va, len, i, id);
  }

  lemma CoversMeans(m: Mapping, fd: int, va: nat, len: nat)
    ensures Covers(m, fd, va, len) <==> Fits(m, fd, va, len)
  {
  }

  lemma FirstAt(t: Table, fd: int, va: nat, len: nat, i: nat, id: MapId)
    requires Shaped(t) && i <= |t.list|
    requires forall j :: 0 <= j < i ==> t.list[j] in t.heap && !Fits(t.heap[t.list[j]], fd, va, len)
    requires i < |t.list| ==> t.list[i] in t.heap && Fits(t.heap[t.list[i]], fd, va, len)
    ensures FirstFor(t, fd, va, len, id) <==> i < |t.list| && t.list[i] == id
    ensures i == |t.list| ==> forall k :: k in t.list ==> !Fits(t.heap[k], fd, va, len)
  {
    hide Fits;
    if FirstFor(t, fd, va, len, id) {
      var k :| 0 <= k < |t.list| && t.list[k] == id
               && forall j :: 0 <= j < k ==> t.list[j] in t.heap && !Fits(t.heap[t.list[j]], fd, va, len);
      assert k == i;
    }
  }

  lemma WhereFirst(t: Table, fd: int, va: nat, len: nat) returns (i: nat)
    requires Shaped(t)
    ensures i <= |t.list| && forall j :: 0 <= j < i ==> t.list[j] in t.heap && !Fits(t.heap[t.list[j]], fd, va, len)
    ensures i < |t.list| ==> t.list[i] in t.heap && Fits(t.heap[t.list[i]], fd, va, len)
  {
    i := 0;
    while i < |t.list| && !Fits(t.heap[t.list[i]], fd, va, len)
      invariant i <= |t.list| && forall j :: 0 <= j < i ==> t.list[j] in t.heap && !Fits(t.heap[t.list[j]], fd, va, len)
    {
      i := i + 1;
    }
  }

  /** The range of the request does not wrap around and is not for a heap. */
  predicate Searched(va: nat, len: nat, flags: int) {
    (va + len) % 0x1_0000_0000_0000_0000 >= va && flags != 4 && flags != 8
  }

  /** An object is reused exactly if it is the first listed one that maps descriptor and range and
      its count has room. */
  lemma ReusedExact(t: Table, fd: int, va: nat, len: nat, flags: int, id: MapId)
    requires Shaped(t)
    ensures Reused(t, fd, va, len, flags) == Some(id) <==>
              Searched(va, len, flags) && FirstFor(t, fd, va, len, id) && t.heap[id].refs + 1 != 0x7fff_ffff
  {
    hide Lookup, FirstFor;
    LookupExact(t, fd, va, len, id);
  }

  /** Creating: the object to be reused gets one more reference; if there is none, a new object with
      exactly this descriptor and range goes to the head of the list, unless it cannot be made. */
  lemma CreateExact(t: Table, fd: int, keep: bool, va: nat, len: nat, flags: int, env: CreateEnv, id: MapId)
    requires WellFormed(t)
    ensures var (t', r) := Create(t, fd, keep, va, len, flags, env);
            Searched(va, len, flags) && FirstFor(t, fd, va, len, id) && t.heap[id].refs + 1 != 0x7fff_ffff ==>
              r == Some(id) && t' == Table(t.list, t.heap[id := t.heap[id].(refs := t.heap[id].refs + 1)], t.next)
    ensures var (t', r) := Create(t, fd, keep, va, len, flags, env);
            (forall k :: !(Searched(va, len, flags) && FirstFor(t, fd, va, len, k) && t.heap[k].refs + 1 != 0x7fff_ffff)) ==>
              if flags != 4 && flags != 8 && env.Usable? then
                && r == Some(t.next)
                && t' == Table([t.next] + t.list,
                               t.heap[t.next := Mapping(fd, keep, flags, va, len, 0, if keep then 2 else 1, 0)], t.next + 1)
              else r.None? && t'.list == t.list && forall k :: k in t.heap ==> k in t'.heap && t'.heap[k] == t.heap[k]
  {
    hide Reused, FirstFor, Searched, CreateNew, Shaped;
    ReusedExact(t, fd, va, len, flags, id);
    if Reused(t, fd, va, len, flags).None? {
      NewExact(t, fd, keep, va, len, flags, env);
    } else {
      ReusedExact(t, fd, va, len, flags, Reused(t, fd, va, len, flags).value);
    }
  }

  lemma NewExact(t: Table, fd: int, keep: bool, va: nat, len: nat, flags: int, env: CreateEnv)
    requires WellFormed(t)
    ensures var (t', r) := CreateNew(t, fd, keep, va, len, flags, env);
            var m := Mapping(fd, keep, flags, va, len, 0, if keep then 2 else 1, 0);
            if flags != 4 && flags != 8 && env.Usable? then
              r == Some(t.next) && t' == Table([t.next] + t.list, t.heap[t.next := m], t.next + 1)
            else r.None? && t'.list == t.list && forall k :: k in t.heap ==> k in t'.heap && t'.heap[k] == t.heap[k]
  {
    WithoutAbsent(t.list, t.next);
  }

  /** Whatever is returned maps the descriptor that was asked for, and, if no range wraps around,
      all of the range. */
  lemma CreatedForFd(t: Table, fd: int, keep: bool, va: nat, len: nat, flags: int, env: CreateEnv)
    requires WellFormed(t)
    ensures var (t', r) := Create(t, fd, keep, va, len, flags, env);
            r.Some? ==>
              && r.value in t'.list && r.value in t'.heap
              && var m := t'.heap[r.value];
              && m.fd == fd && Fits(m, fd, va, len)
              && (va < TWO_TO_THE_64 && len < TWO_TO_THE_64 && m.va + m.len < TWO_TO_THE_64 ==>
                    m.va <= va && va + len <= m.va + m.len)
  {
    var reused := Reused(t, fd, va, len, flags);
    if reused.Some? {
      ReusedExact(t, fd, va, len, flags, reused.value);
      hide Reused;
      InRange(va, len, t.heap[reused.value].va, t.heap[reused.value].len);
    } else {
      hide Reused, CreateNew;
      NewExact(t, fd, keep, va, len, flags, env);
    }
  }

  lemma InRange(va: nat, len: nat, mva: nat, mlen: nat)
    requires va <= (va + len) % TWO_TO_THE_64 <= (mva + mlen) % TWO_TO_THE_64
    ensures va < TWO_TO_THE_64 && len < TWO_TO_THE_64 && mva + mlen < TWO_TO_THE_64 ==> va + len <= mva + mlen
  {
  }

  // ---------------------------------------------------------------- the passes of get_args

  /** All objects of `t` are still there and map what they mapped. */
  ghost predicate KeepsMappings(t: Table, t': Table) {
    forall k :: k in t.heap ==>
      && k in t'.heap && t'.heap[k].fd == t.heap[k].fd && t'.heap[k].va == t.heap[k].va && t'.heap[k].len == t.heap[k].len
  }

  lemma CreateKeepsMappings(t: Table, fd: int, keep: bool, va: nat, len: nat, flags: int, env: CreateEnv)
    requires WellFormed(t)
    ensures var (t', r) := Create(t, fd, keep, va, len, flags, env);
            r.Some? ==> WellFormed(t') && KeepsMappings(t, t')
  {
    hide Reused, CreateNew;
    var (t', r) := Create(t, fd, keep, va, len, flags, env);
    if Reused(t, fd, va, len, flags).None? {
      NewExact(t, fd, keep, va, len, flags, env);
      if r.Some? {
        assert t.next !in t.list;
        forall k | k in t'.list ensures k in t'.heap { assert k == t.next || k in t.list; }
      }
    } else {
      assert t'.list == t.list;
    }
  }

  lemma CountedKeepsMappings(t: Table, id: MapId)
    requires WellFormed(t) && id in t.heap
    ensures WellFormed(TakeCtx(t, id)) && KeepsMappings(t, TakeCtx(t, id)) && id in TakeCtx(t, id).heap
  {
  }

  lemma TakenOne(t: Table, fd: int, keep: bool, va: nat, len: nat, flags: int, env: CreateEnv)
    requires WellFormed(t)
    ensures var (t', r) := Create(t, fd, keep, va, len, flags, env);
            r.Some? ==>
              && r.value in t'.heap && r.value in TakeCtx(t', r.value).heap && WellFormed(TakeCtx(t', r.value))
              && KeepsMappings(t, TakeCtx(t', r.value)) && Fits(TakeCtx(t', r.value).heap[r.value], fd, va, len)
  {
    hide Create, Fits, WellFormed, TakeCtx;
    CreatedForFd(t, fd, keep, va, len, flags, env);
    CreateKeepsMappings(t, fd, keep, va, len, flags, env);
    var (t', r) := Create(t, fd, keep, va, len, flags, env);
    if r.Some? {
      CountedKeepsMappings(t', r.value);
      FitsAlso(t'.heap[r.value], TakeCtx(t', r.value).heap[r.value], fd, va, len);
    }
  }

  /** After a successful handle pass each handle with a descriptor has an object of that
      descriptor, and the others have none. */
  lemma {:induction false} HandlePassMapsFds(t: Table, reqs: seq<Option<HandleRequest>>, taken: Row)
    requires WellFormed(t)
    ensures var (t', r) := TakeHandles(t, reqs, taken);
            r.Some? ==>
              && KeepsMappings(t, t') && |r.value| == |taken| + |reqs| && r.value[..|taken|] == taken
              && forall i :: 0 <= i < |reqs| ==>
                   var x := r.value[|taken| + i];
                   if reqs[i].None? then x.None?
                   else x.Some? && x.value in t'.heap && t'.heap[x.value].fd == reqs[i].value.fd && t'.heap[x.value].va == 0
    decreases |reqs|
  {
    hide Create, TakeCtx, ReleaseAll;
    if reqs != [] {
      var rest := reqs[1..];
      assert forall i :: 0 <= i < |rest| ==> rest[i] == reqs[i + 1];
      if reqs[0].None? {
        HandlePassMapsFds(t, rest, taken + [None]);
      } else {
        var q := reqs[0].value;
        var (t1, r) := Create(t, q.fd, false, 0, 0, q.flags, q.env);
        TakenOne(t, q.fd, false, 0, 0, q.flags, q.env);
        if r.Some? { HandlePassMapsFds(TakeCtx(t1, r.value), rest, taken + [r]); }
      }
    }
  }

  /** After a successful sizing pass each buffer passed with a descriptor has an object that maps
      this descriptor and the whole buffer, and the others have none. */
  lemma {:induction false} SizePassMapsBuffers(t: Table, reqs: seq<Option<BufRequest>>, taken: Row)
    requires WellFormed(t)
    ensures var (t', row, ok) := TakeSlots(t, reqs, taken);
            ok ==>
              && KeepsMappings(t, t') && |row| == |taken| + |reqs| && row[..|taken|] == taken
              && forall i :: 0 <= i < |reqs| ==>
                   var x := row[|taken| + i];
                   if reqs[i].None? then x.None?
                   else x.Some? && x.value in t'.heap && Fits(t'.heap[x.value], reqs[i].value.fd, reqs[i].value.va, reqs[i].value.len)
    decreases |reqs|
  {
    hide Create, TakeCtx, Fits;
    if reqs != [] {
      var rest := reqs[1..];
      assert forall i :: 0 <= i < |rest| ==> rest[i] == reqs[i + 1];
      if reqs[0].None? {
        SizePassMapsBuffers(t, rest, taken + [None]);
      } else {
        var q := reqs[0].value;
        var (t1, r) := Create(t, q.fd, q.keep, q.va, q.len, 0, q.env);
        TakenOne(t, q.fd, q.keep, q.va, q.len, 0, q.env);
        if r.Some? {
          SizePassMapsBuffers(TakeCtx(t1, r.value), rest, taken + [r]);
          StillFits(TakeCtx(t1, r.value), TakeSlots(t, reqs, taken).0, r.value, q);
        }
      }
    }
  }

  lemma StillFits(t: Table, t': Table, id: MapId, q: BufRequest)
    requires id in t.heap && Fits(t.heap[id], q.fd, q.va, q.len)
    ensures KeepsMappings(t, t') ==> Fits(t'.heap[id], q.fd, q.va, q.len)
  {
    if KeepsMappings(t, t') { FitsAlso(t.heap[id], t'.heap[id], q.fd, q.va, q.len); }
  }

  // ---------------------------------------------------------------- fdlists

  /** One fdlist entry: it touches no object but the first listed one that maps the descriptor at
      address 0; in particular none of another descriptor. */
  lemma FdEntryExact(s: State, fd: int, k: MapId)
    requires Shaped(s.t)
    ensures var t' := DoReleaseFd(s, fd).t;
            !FirstFor(s.t, fd, 0, 0, k) || s.t.heap[k].fd != fd ==>
              (k in t'.list <==> k in s.t.list) && (k in t'.heap <==> k in s.t.heap) && (k in s.t.heap ==> t'.heap[k] == s.t.heap[k])
    ensures FirstFor(s.t, fd, 0, 0, k) ==> DoReleaseFd(s, fd).t == FreeCtx(s.t, k)
  {
    hide Lookup;
    var r := Lookup(s.t, fd, 0, 0);
    LookupExact(s.t, fd, 0, 0, k);
    if r.Some? {
      LookupExact(s.t, fd, 0, 0, r.value);
      assert s.t.heap[r.value].fd == fd;
      hide FirstFor, FreeCtx;
      CtxDropExact(s.t, r.value, k);
    }
  }

  /** Dropping a reference of an invoke touches one object, which loses one of each count and goes
      with its last; an object whose counts are out of order keeps its references. */
  lemma CtxDropExact(t: Table, id: MapId, k: MapId)
    requires Shaped(t) && id in t.heap
    ensures var t' := FreeCtx(t, id);
            var m := t.heap[id];
            && Shaped(t') && t'.next == t.next
            && (k != id ==> (k in t'.list <==> k in t.list) && (k in t'.heap <==> k in t.heap) && (k in t.heap ==> t'.heap[k] == t.heap[k]))
            && (m.flags != 4 && m.flags != 8 && m.refs > 0 && m.ctxRefs > 0 ==>
                  if m.refs == 1 && m.ctxRefs == 1 then id !in t'.list && id !in t'.heap
                  else (id in t'.list <==> id in t.list) && id in t'.heap
                       && t'.heap[id] == m.(refs := m.refs - 1, ctxRefs := m.ctxRefs - 1))
  {
    hide Without;
    var m := t.heap[id];
    var t1 := t.(heap := t.heap[id := if m.ctxRefs != 0 then m.(ctxRefs := m.ctxRefs - 1) else m]);
    FreeTouchesOne(t1, id, false);
    assert FreeCtx(t, id) == Free(t1, id, false);
    assert forall x :: x in t1.heap <==> x in t.heap;
  }

  /** A whole fdlist changes no object of a descriptor it does not name. */
  lemma {:induction false} FdlistLeavesOthers(t: Table, fds: seq<int>, k: MapId)
    requires Shaped(t) && k in t.heap && t.heap[k].fd !in fds
    ensures var t' := ReleaseFds(t, fds);
            (k in t'.list <==> k in t.list) && k in t'.heap && t'.heap[k] == t.heap[k]
    decreases |fds|
  {
    if fds != [] && fds[0] != 0 {
      hide Lookup, FreeCtx;
      var r := Lookup(t, fds[0], 0, 0);
      if r.Some? {
        LookupExact(t, fds[0], 0, 0, r.value);
        assert FirstFor(t, fds[0], 0, 0, r.value) && r.value != k;
        CtxDropExact(t, r.value, k);
        FdlistLeavesOthers(FreeCtx(t, r.value), fds[1..], k);
      } else {
        FdlistLeavesOthers(t, fds[1..], k);
      }
    }
  }

  /** Nothing behind the first zero entry is looked at. */
  lemma {:induction false} FdlistStopsAtZero(t: Table, fds: seq<int>, rest: seq<int>)
    ensures ReleaseFds(t, fds + [0] + rest) == ReleaseFds(t, fds)
    decreases |fds|
  {
    hide Lookup, FreeCtx;
    var all := fds + [0] + rest;
    if fds != [] && fds[0] != 0 {
      assert all[1..] == fds[1..] + [0] + rest;
      match Lookup(t, fds[0], 0, 0)
      case Some(id) => FdlistStopsAtZero(FreeCtx(t, id), fds[1..], rest);
      case None => FdlistStopsAtZero(t, fds[1..], rest);
    }
  }

  // ---------------------------------------------------------------- unmapping

  /** What an unmap of this remote range may take: an object of the descriptor, if one is named,
      with this remote address and, on unsigned sums, this end; referenced once, or twice with
      KEEP_MAP; and used by no invoke. */
  predicate Takeable(m: Mapping, fd: int, va: nat, len: nat) {
    && (fd < 0 || m.fd == fd) && m.raddr == va
    && (va + m.len) % 0x1_0000_0000_0000_0000 == (va + len) % 0x1_0000_0000_0000_0000
    && (m.refs == 1 || (m.refs == 2 && m.keep)) && m.ctxRefs == 0
  }

  lemma WhereTakeable(t: Table, fd: int, va: nat, len: nat) returns (i: nat)
    requires Shaped(t)
    ensures i <= |t.list| && forall j :: 0 <= j < i ==> t.list[j] in t.heap && !Takeable(t.heap[t.list[j]], fd, va, len)
    ensures i < |t.list| ==> t.list[i] in t.heap && Takeable(t.heap[t.list[i]], fd, va, len)
  {
    i := 0;
    while i < |t.list| && !Takeable(t.heap[t.list[i]], fd, va, len)
      invariant i <= |t.list| && forall j :: 0 <= j < i ==> t.list[j] in t.heap && !Takeable(t.heap[t.list[j]], fd, va, len)
    {
      i := i + 1;
    }
  }

  /** Unmapping takes the first such object off the list, drops its pin if it has KEEP_MAP, and
      leaves everything else; without one it changes nothing. A range of the same remote address
      but another length takes nothing. */
  lemma RemoveExact(t: Table, fd: int, va: nat, len: nat, k: MapId)
    requires Shaped(t)
    ensures var (t', r) := Remove(t, fd, va, len);
            && t'.next == t.next
            && (r.None? <==> forall id :: id in t.list ==> !Takeable(t.heap[id], fd, va, len))
            && (r.None? ==> t' == t)
            && (r.Some? ==> Unlinked(t, t', fd, va, len, r.value, k))
  {
    var i := WhereTakeable(t, fd, va, len);
    FirstMatchAt(t.list, t.heap, m => Removable(m, fd, va, len), i);
    hide FirstMatch;
    if i < |t.list| {
      var id := t.list[i];
      WithoutMembers(t.list, id, id);
      WithoutMembers(t.list, id, k);
      SameLength(va, t.heap[id].len, len);
    }
  }

  ghost predicate Unlinked(t: Table, t': Table, fd: int, va: nat, len: nat, id: MapId, k: MapId) {
    && id in t.heap && id in t'.heap && Takeable(t.heap[id], fd, va, len)
    && (len < TWO_TO_THE_64 && t.heap[id].len < TWO_TO_THE_64 ==> t.heap[id].len == len)
    && (exists i :: 0 <= i < |t.list| && t.list[i] == id &&
          forall j :: 0 <= j < i ==> t.list[j] in t.heap && !Takeable(t.heap[t.list[j]], fd, va, len))
    && id !in t'.list
    && t'.heap[id] == t.heap[id].(refs := if t.heap[id].keep then t.heap[id].refs - 1 else t.heap[id].refs)
    && (k != id ==> (k in t'.list <==> k in t.list) && (k in t'.heap <==> k in t.heap) && (k in t.heap ==> t'.heap[k] == t.heap[k]))
  }

  lemma SameLength(va: nat, a: nat, b: nat)
    requires (va + a) % TWO_TO_THE_64 == (va + b) % TWO_TO_THE_64
    ensures a < TWO_TO_THE_64 && b < TWO_TO_THE_64 ==> a == b
  {
  }

  // ---------------------------------------------------------------- munmap_fd

  /** munmap_fd drops one reference of each listed KEEP_MAP object of the descriptor and frees
      it with its last, and changes no other object. */
  lemma {:induction false} RemoveFdExact(t: Table, ids: seq<MapId>, fd: int, k: MapId)
    requires Shaped(t) && NoDuplicates(ids) && forall i :: 0 <= i < |ids| ==> ids[i] in t.heap
    ensures var t' := RemoveFdFrom(t, ids, fd);
            if k in ids && t.heap[k].fd == fd && t.heap[k].keep
            then
              var m := t.heap[k];
              m.flags != 4 && m.flags != 8 && m.refs > 0 && m.ctxRefs >= 0 ==>
                if m.refs == 1 && m.ctxRefs == 0 then k !in t'.list && k !in t'.heap
                else (k in t'.list <==> k in t.list) && k in t'.heap && t'.heap[k] == m.(refs := m.refs - 1)
            else (k in t'.list <==> k in t.list) && (k in t'.heap <==> k in t.heap) && (k in t.heap ==> t'.heap[k] == t.heap[k])
    decreases |ids|
  {
    if ids != [] {
      var id, rest := ids[0], ids[1..];
      assert forall i :: 0 <= i < |rest| ==> rest[i] == ids[i + 1];
      assert id !in rest && forall x :: x in ids <==> x == id || x in rest;
      if t.heap[id].fd == fd && t.heap[id].keep {
        FreeTouchesOne(t, id, false);
        WithoutMembers(t.list, id, id);
        var t1 := Free(t, id, false);
        hide Free, Without;
        assert forall i :: 0 <= i < |rest| ==> rest[i] in t1.heap && t1.heap[rest[i]] == t.heap[rest[i]];
        RemoveFdExact(t1, rest, fd, k);
      } else {
        RemoveFdExact(t, rest, fd, k);
      }
    }
  }

  function Matching(t: Table, ids: seq<MapId>, fd: int): set<MapId> {
    set k | k in ids && k in t.heap && t.heap[k].fd == fd && t.heap[k].keep
  }

  /** The number reported is the number of these objects. */
  lemma {:induction false} CountExact(t: Table, ids: seq<MapId>, fd: int)
    requires NoDuplicates(ids)
    ensures CountForFd(ids, t.heap, fd) == |Matching(t, ids, fd)|
    decreases |ids|
  {
    if ids != [] {
      MatchingCons(t, ids, fd);
      CountExact(t, ids[1..], fd);
    } else {
      assert Matching(t, ids, fd) == {};
    }
  }

  lemma MatchingCons(t: Table, ids: seq<MapId>, fd: int)
    requires ids != [] && NoDuplicates(ids)
    ensures NoDuplicates(ids[1..]) && ids[0] !in Matching(t, ids[1..], fd)
    ensures var here := ids[0] in t.heap && t.heap[ids[0]].fd == fd && t.heap[ids[0]].keep;
            Matching(t, ids, fd) == if here then Matching(t, ids[1..], fd) + {ids[0]} else Matching(t, ids[1..], fd)
  {
    forall k ensures k in ids <==> k == ids[0] || k in ids[1..] { TailNoDuplicates(ids, k); }
    TailNoDuplicates(ids, ids[0]);
    hide NoDuplicates;
  }

  // ---------------------------------------------------------------- the ledger steps

  lemma InvWellFormed(s: State)
    requires Inv(s)
    ensures WellFormed(s.t)
  {
    forall k: MapId ensures (k in s.t.list ==> k in s.t.heap) && (k in s.t.heap ==> k < s.t.next) { assert Local(s, k); }
  }

  /** A new holder of an object that maps descriptor and range. */
  ghost predicate HeldFor(s: State, id: MapId, fd: int, va: nat, len: nat) {
    id in s.t.list && id in s.t.heap && Fits(s.t.heap[id], fd, va, len)
  }

  /** Each step that maps something enters one holder of an object that maps what the step names, if
      the object can be made, and none otherwise. */
  lemma AcquiringMaps(s: State, step: Step)
    requires Inv(s) && Enabled(s, step)
    ensures var s' := Apply(s, step);
            match step
            case MapBuf(fd, _, va, len, env) =>
              (s'.g.slots == s.g.slots && !env.Usable?) ||
              (exists id: MapId :: HeldFor(s', id, fd, va, len) && s'.g.slots == s.g.slots + multiset{id})
            case MapHandle(fd, _, env) =>
              (s'.g.handles == s.g.handles && !env.Usable?) ||
              (exists id: MapId :: HeldFor(s', id, fd, 0, 0) && s'.g.handles == s.g.handles + multiset{id})
            case MapBegin(fd, _, va, len, flags, env) =>
              (s'.g.users == s.g.users && (!env.Usable? || HeapFlags(flags))) ||
              (exists id: MapId ::
                 HeldFor(s', id, fd, va, len) && s'.g.users == s.g.users + multiset{id} && s'.g.pending == MapOp(id))
            case _ => true
  {
    match step
    case MapBuf(fd, keep, va, len, env) => AcquiredHeld(s, fd, keep, va, len, 0, env, Slot);
    case MapHandle(fd, flags, env) => AcquiredHeld(s, fd, false, 0, 0, flags, env, Handle);
    case MapBegin(fd, keep, va, len, flags, env) => AcquiredHeld(s, fd, keep, va, len, flags, env, User);
    case _ =>
  }

  lemma AcquiredHeld(s: State, fd: int, keep: bool, va: nat, len: nat, flags: int, env: CreateEnv, kind: Kind)
    requires Inv(s)
    ensures var s' := Acquire(s, fd, keep, va, len, flags, env, kind);
            var r := Create(s.t, fd, keep, va, len, flags, env).1;
            if r.Some? then
              && HeldFor(s', r.value, fd, va, len)
              && s'.g.slots == (if kind.Slot? then s.g.slots + multiset{r.value} else s.g.slots)
              && s'.g.handles == (if kind.Handle? then s.g.handles + multiset{r.value} else s.g.handles)
              && s'.g.users == (if kind.User? then s.g.users + multiset{r.value} else s.g.users)
              && (kind.User? ==> s'.g.pending == MapOp(r.value))
            else
              && s'.g.slots == s.g.slots && s'.g.handles == s.g.handles && s'.g.users == s.g.users
              && (!env.Usable? || HeapFlags(flags))
  {
    hide Inv, Create, Fits, WellFormed, Enter;
    InvWellFormed(s);
    CreatedForFd(s.t, fd, keep, va, len, flags, env);
    CreateFails(s.t, fd, keep, va, len, flags, env);
    var (s', r) := Creating(s, fd, keep, va, len, flags, env);
    if r.Some? { EnteredHeld(s', r.value, kind, fd, va, len); }
  }

  lemma EnteredHeld(s: State, id: MapId, kind: Kind, fd: int, va: nat, len: nat)
    requires HeldFor(s, id, fd, va, len)
    ensures var s' := Enter(s, id, kind);
            && HeldFor(s', id, fd, va, len)
            && s'.g.slots == (if kind.Slot? then s.g.slots + multiset{id} else s.g.slots)
            && s'.g.handles == (if kind.Handle? then s.g.handles + multiset{id} else s.g.handles)
            && s'.g.users == (if kind.User? then s.g.users + multiset{id} else s.g.users)
            && (kind.User? ==> s'.g.pending == MapOp(id))
  {
    hide Fits;
    FitsAlso(s.t.heap[id], Enter(s, id, kind).t.heap[id], fd, va, len);
  }

  lemma CreateFails(t: Table, fd: int, keep: bool, va: nat, len: nat, flags: int, env: CreateEnv)
    requires WellFormed(t)
    ensures Create(t, fd, keep, va, len, flags, env).1.None? ==> !env.Usable? || HeapFlags(flags)
  {
    hide Reused, CreateNew;
    NewExact(t, fd, keep, va, len, flags, env);
  }

  lemma FitsAlso(m: Mapping, m': Mapping, fd: int, va: nat, len: nat)
    requires Fits(m, fd, va, len) && m'.fd == m.fd && m'.va == m.va && m'.len == m.len
    ensures Fits(m', fd, va, len)
  {
  }

  /** Taking off: what is then being unmapped was the first listed object for the remote range; if
      there is none, nothing happens. */
  lemma UnmappingTakes(s: State, fd: int, va: nat, len: nat)
    requires Inv(s) && Enabled(s, UnmapBegin(fd, va, len))
    ensures var s' := Apply(s, UnmapBegin(fd, va, len));
            if exists id :: id in s.t.list && id in s.t.heap && Takeable(s.t.heap[id], fd, va, len)
            then s'.g.pending.UnmapOp? && Unlinked(s.t, s'.t, fd, va, len, s'.g.pending.id, 0)
            else s' == s
  {
    InvWellFormed(s);
    hide Inv, Takeable, Remove;
    RemoveExact(s.t, fd, va, len, 0);
  }

  /** What a finished mapping reported is what unmaps it: once the remote address is stored, the
      object, if it has no other holder than this request and its pin, can be taken off by that
      address and its length, by descriptor or without. */
  lemma MappedCanBeUnmapped(s: State, raddr: nat, fd: int)
    requires Inv(s) && Enabled(s, MapDone(raddr)) && (fd < 0 || fd == s.t.heap[s.g.pending.id].fd)
    requires var id := s.g.pending.id; Holders(s.g, id) == if id in s.g.pins then 2 else 1
    ensures var id, s' := s.g.pending.id, Apply(s, MapDone(raddr));
            && id in s'.t.list && id in s'.t.heap && s'.t.heap[id].raddr == raddr && s'.t.heap[id].len == s.t.heap[id].len
            && Takeable(s'.t.heap[id], fd, raddr, s.t.heap[id].len)
            && Enabled(s', UnmapBegin(fd, raddr, s.t.heap[id].len))
            && Remove(s'.t, fd, raddr, s.t.heap[id].len).1.Some?
  {
    var id, s' := s.g.pending.id, Apply(s, MapDone(raddr));
    assert Local(s, id);
    MapDoneKeeps(s, raddr);
    InvWellFormed(s');
    hide Inv, Remove;
    RemoveExact(s'.t, fd, raddr, s.t.heap[id].len, 0);
  }

  /** munmap_fd touches only listed KEEP_MAP objects of the descriptor. */
  lemma RemoveFdsTouches(s: State, fd: int, k: MapId)
    requires Inv(s) && Enabled(s, RemoveFds(fd))
    ensures var s' := Apply(s, RemoveFds(fd));
            k in s.t.heap && !(k in s.t.list && s.t.heap[k].fd == fd && s.t.heap[k].keep) ==>
              (k in s'.t.list <==> k in s.t.list) && k in s'.t.heap && s'.t.heap[k] == s.t.heap[k]
  {
    InvWellFormed(s);
    hide Inv, RemoveFdFrom, DropPins;
    RemoveFdIsAStep(s, s.t.list, fd);
    RemoveFdExact(s.t, s.t.list, fd, k);
  }

  /** What the other steps do to the holders: each drops one reference of its own kind, and requests
      that are done leave room for the next. */
  lemma StepDoes(s: State, step: Step)
    requires Inv(s) && Enabled(s, step)
    ensures var s' := Apply(s, step);
            match step
            case UnmapBuf(id) => s'.g == s.g.(slots := s.g.slots - multiset{id})
            case UnmapHandle(id) => s'.g == s.g.(handles := s.g.handles - multiset{id})
            case MapDone(_) => s'.g == s.g.(pending := Idle)
            case MapFail => s'.g == s.g.(users := s.g.users - multiset{s.g.pending.id}, pending := Idle)
            case UnmapDone =>
              && s'.g == s.g.(users := s.g.users - multiset{s.g.pending.id}, pending := Idle)
              && s.g.pending.id !in s'.t.heap && s.g.pending.id !in s'.t.list
            case UnmapFail(_) => s'.g.pending.Idle? && s'.t.list == [s.g.pending.id] + s.t.list
            case _ => true
  {
    match step
    case UnmapDone => UnmapFrees(s);
    case UnmapFail(_) => assert Local(s, s.g.pending.id); hide Inv;
    case _ => hide Inv, FreeCtx, Free;
  }

  lemma UnmapFrees(s: State)
    requires Inv(s) && Enabled(s, UnmapDone)
    ensures var t' := Apply(s, UnmapDone).t; s.g.pending.id !in t'.heap && s.g.pending.id !in t'.list
  {
    assert Local(s, s.g.pending.id);
    hide Inv;
    WithoutMembers(s.t.list, s.g.pending.id, s.g.pending.id);
  }
}
