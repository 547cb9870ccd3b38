/** `vfastrpc_file_free`: the contexts on both lists, the cached and remote buffers, the
    interrupted commands and the mappings, in that order, until nothing is left. */
module FileRelease {
  import opened Lists
  import opened Wrappers
  import opened MapTable
  import opened Slots
  import L = MapLedger
  import R = MapRuns
  import B = BufCache
  import T = Transport
  import N = TransportRuns
  import I = Invoke
  import F = FileState
  import opened MmapOps
  import opened BufOps
  import opened MsgOps

  type CtxId = I.CtxId

  /** What file release works on. `maps` and `keys` are the table and the message of each
      context; `list` are the contexts in the order in which they are freed, the interrupted
      ones first. */
  datatype View = View(
    m: L.State, b: B.Pool, t: T.State, maps: map<CtxId, Row>, keys: map<CtxId, T.MsgKey>,
    list: seq<CtxId>, cmds: seq<T.MsgKey>)

  function KeysOf(keys: map<CtxId, T.MsgKey>, list: seq<CtxId>): (r: seq<T.MsgKey>)
    ensures |r| == |list| && forall i :: 0 <= i < |list| && list[i] in keys ==> r[i] == keys[list[i]]
  {
    seq(|list|, i requires 0 <= i < |list| => if list[i] in keys then keys[list[i]] else 0)
  }

  /** All messages of the file. */
  function Messages(v: View): seq<T.MsgKey> { KeysOf(v.keys, v.list) + v.cmds }

  /** What is left of the message layer when all of them are released. */
  ghost function AfterMessages(v: View): T.State { N.ReleaseMsgs(v.t, Messages(v)) }

  ghost predicate Held(b: B.Pool, maps: map<CtxId, Row>) {
    forall sl :: sl in b.held ==> sl.ctx in maps && sl.index < |maps[sl.ctx]|
  }

  ghost predicate Keyed<X>(m: map<CtxId, X>, list: seq<CtxId>) { forall c :: c in m <==> c in list }

  ghost predicate Tables(v: View) {
    NoDuplicates(v.list) && Keyed(v.maps, v.list) && Keyed(v.keys, v.list) && Held(v.b, v.maps)
  }

  /** The state in which file release finds the file and its parts. */
  ghost predicate Ready(v: View) {
    && L.Inv(v.m) && v.m.g.pending.Idle? && B.Inv(v.b) && Tables(v)
    && v.m.g.slots == SlotsOf(v.maps, v.list)
    && N.SentKeys(v.t, Messages(v))
  }

  // ---------------------------------------------------------------- after any run

  /** No call is running any more. */
  ghost predicate Quiet(s: F.State) { s.i.p.at == map[] && s.m.g.pending.Idle? }

  ghost function ViewOf(s: F.State): View {
    View(s.m, s.b, s.i.t, s.maps,
         map c | c in s.i.ctxs && s.i.ctxs[c].msg.Some? :: s.i.ctxs[c].msg.value,
         s.interrupted + s.pending, s.cmds)
  }

  /** A context without a thread has been sent: it has a message of its own that waits. */
  lemma QuietContext(s: F.State, c: CtxId)
    requires I.Inv(s.i) && s.i.p.at == map[] && c in s.i.ctxs
    ensures s.i.ctxs[c].msg.Some?
    ensures var k := s.i.ctxs[c].msg.value;
            k in s.i.t.w.msgs && s.i.t.w.msgs[k].pc.Waiting? && k in s.i.owner && s.i.owner[k] == c
  {
    assert I.CtxAt(s.i, c);
  }

  lemma QuietTables(s: F.State)
    requires I.Inv(s.i) && F.Linked(s) && Quiet(s)
    ensures Tables(ViewOf(s))
  {
    var v := ViewOf(s);
    forall c ensures c in v.list <==> c in s.i.ctxs { assert F.ListedAt(s, c); }
    forall c ensures (c in v.maps <==> c in s.i.ctxs) && (c in v.keys <==> c in s.i.ctxs) {
      assert F.ListedAt(s, c);
      if c in s.i.ctxs { QuietContext(s, c); }
    }
    forall c | c in s.interrupted ensures c !in s.pending { assert F.ListedAt(s, c); }
    ConcatNoDuplicates(s.interrupted, s.pending);
    forall sl | sl in v.b.held ensures sl.ctx in v.maps && sl.index < |v.maps[sl.ctx]| { assert F.HeldAt(s, sl); }
    hide I.Inv;
  }

  /** The context a message belongs to. */
  function MessageOf(s: F.State, k: T.MsgKey): Option<CtxId> {
    if k in s.i.owner then Some(s.i.owner[k]) else None
  }

  ghost predicate WaitsFor(s: F.State, k: T.MsgKey, c: Option<CtxId>) {
    k in s.i.t.w.msgs && s.i.t.w.msgs[k].pc.Waiting? && MessageOf(s, k) == c
  }

  lemma QuietMessages(s: F.State)
    requires I.Inv(s.i) && F.Linked(s) && Quiet(s) && Tables(ViewOf(s))
    ensures N.SentKeys(s.i.t, Messages(ViewOf(s)))
  {
    var v := ViewOf(s);
    var msgs, n := Messages(v), |v.list|;
    forall i | 0 <= i < n ensures WaitsFor(s, msgs[i], Some(v.list[i])) {
      assert v.list[i] in v.list && v.list[i] in v.keys;
      QuietContext(s, v.list[i]);
    }
    forall i | n <= i < |msgs| ensures WaitsFor(s, msgs[i], None) && msgs[i] == s.cmds[i - n] {
      assert F.CmdAt(s, s.cmds[i - n]);
    }
    hide I.Inv;
  }

  /** A state in which all calls have ended is ready for release. */
  lemma QuietIsReady(s: F.State)
    requires F.Inv(s) && Quiet(s)
    ensures Ready(ViewOf(s)) && T.Inv(ViewOf(s).t)
  {
    SlotsOfConcat(s.maps, s.interrupted, s.pending);
    QuietTables(s);
    QuietMessages(s);
    hide L.Inv, B.Inv, T.Inv, F.Linked, Tables, Messages, N.SentKeys, SlotsOf;
  }

  /** In particular after every run from the opening of the file, in terms of what the callers do
      and how unmapping goes, whatever the remote side puts into its fdlists. */
  lemma RunsEndReady(numBufs: nat, steps: seq<F.Step>)
    requires F.Legal(F.Init(numBufs), steps) && F.VisibleRun(F.Init(numBufs), steps)
    requires Quiet(F.Run(F.Init(numBufs), steps))
    ensures var v := ViewOf(F.Run(F.Init(numBufs), steps)); Ready(v) && T.Inv(v.t)
  {
    hide F.Legal, F.Run, F.VisibleRun, F.RegularRun, F.Inv, L.Clean, Ready, T.Inv;
    F.InitGood(numBufs);
    F.VisibleRunKeeps(F.Init(numBufs), steps);
    QuietIsReady(F.Run(F.Init(numBufs), steps));
  }

  /** A message that could not be saved is not among those released: it keeps its place in the
      shared table, its id, and a response that it may have got. */
  lemma LeakedSurvivesRelease(s: F.State, k: T.MsgKey)
    requires F.Inv(s) && Quiet(s) && k in s.leaked
    ensures k in s.i.t.w.msgs && k !in Messages(ViewOf(s)) && k in AfterMessages(ViewOf(s)).w.msgs
    ensures AfterMessages(ViewOf(s)).w.msgs[k] == s.i.t.w.msgs[k]
  {
    QuietIsReady(s);
    var v := ViewOf(s);
    assert F.CmdAt(s, k);
    if k in Messages(v) {
      var i :| 0 <= i < |Messages(v)| && Messages(v)[i] == k;
      if i < |v.list| {
        assert v.list[i] in v.list;
        QuietContext(s, v.list[i]);
      }
    }
    hide F.Inv, T.Inv, Ready, N.ReleaseMsgs;
    N.ReleaseMsgsExact(v.t, Messages(v));
  }

  // ---------------------------------------------------------------- freeing one context

  /** `context_free` of the first listed context: slots, message, descriptors. */
  ghost function FreeFirst(v: View): View
    requires v.list != [] && v.list[0] in v.maps && v.list[0] in v.keys && v.keys[v.list[0]] in v.t.w.msgs
  {
    var c := v.list[0];
    View(ReleasedRow(v.m, v.maps[c]), B.PutRow(v.b, c, |v.maps[c]|), N.ReleaseMsg(v.t, v.keys[c]),
         v.maps - {c}, v.keys - {c}, v.list[1..], v.cmds)
  }

  lemma KeyedTail<X>(m: map<CtxId, X>, list: seq<CtxId>)
    requires NoDuplicates(list) && Keyed(m, list) && list != []
    ensures Keyed(m - {list[0]}, list[1..])
  {
    forall c ensures c in m - {list[0]} <==> c in list[1..] { TailNoDuplicates(list, c); }
  }

  lemma HeldTail(b: B.Pool, maps: map<CtxId, Row>, c: CtxId)
    requires B.Inv(b) && Held(b, maps) && c in maps
    ensures Held(B.PutRow(b, c, |maps[c]|), maps - {c}) && B.Inv(B.PutRow(b, c, |maps[c]|))
  {
    hide B.Inv, B.PutRow;
    B.PutRowKeeps(b, c, |maps[c]|);
  }

  lemma KeysTail(keys: map<CtxId, T.MsgKey>, list: seq<CtxId>, cmds: seq<T.MsgKey>)
    requires list != [] && NoDuplicates(list) && forall i :: 0 <= i < |list| ==> list[i] in keys
    ensures forall i :: 0 <= i < |list[1..]| ==> list[1..][i] in keys - {list[0]}
    ensures (KeysOf(keys, list) + cmds)[1..] == KeysOf(keys - {list[0]}, list[1..]) + cmds
  {
    var rest := list[1..];
    forall i | 0 <= i < |rest| ensures rest[i] in keys - {list[0]} && (keys - {list[0]})[rest[i]] == keys[list[i + 1]] {
      assert rest[i] == list[i + 1];
    }
    assert KeysOf(keys, list)[1..] == KeysOf(keys - {list[0]}, rest);
    assert (KeysOf(keys, list) + cmds)[1..] == KeysOf(keys, list)[1..] + cmds;
  }

  lemma MessagesTail(v: View)
    requires Tables(v) && v.list != [] && v.keys[v.list[0]] in v.t.w.msgs && Tables(FreeFirst(v))
    ensures Messages(v)[0] == v.keys[v.list[0]] && Messages(FreeFirst(v)) == Messages(v)[1..]
  {
    hide B.PutRow, ReleasedRow, N.ReleaseMsg, Held, KeysOf;
    KeysTail(v.keys, v.list, v.cmds);
  }

  lemma FirstThere(v: View)
    requires Ready(v) && v.list != []
    ensures v.list[0] in v.maps && v.list[0] in v.keys && v.keys[v.list[0]] in v.t.w.msgs
    ensures Messages(v)[0] == v.keys[v.list[0]] && NoDuplicates(v.list) && v.list[0] !in v.list[1..]
  {
    assert v.list[0] in v.list;
    assert Messages(v)[0] == v.keys[v.list[0]];
    hide L.Inv, B.Inv, SlotsOf;
  }

  lemma FreeFirstReady(v: View)
    requires Ready(v) && v.list != []
    ensures v.list[0] in v.maps && v.list[0] in v.keys && v.keys[v.list[0]] in v.t.w.msgs
    ensures Ready(FreeFirst(v)) && Messages(v)[0] == v.keys[v.list[0]]
    ensures Messages(FreeFirst(v)) == Messages(v)[1..]
  {
    FirstThere(v);
    var v', c := FreeFirst(v), v.list[0];
    hide L.Inv, B.Inv, B.PutRow, ReleaseAll, N.ReleaseMsg, SlotsOf, Ids, NoDuplicates, Keyed, Held, N.SentKeys;
    assert NoDuplicates(v.list[1..]) by { TailNoDuplicates(v.list, c); }
    KeyedTail(v.maps, v.list);
    KeyedTail(v.keys, v.list);
    HeldTail(v.b, v.maps, c);
    MessagesTail(v);
    SlotsOfFirst(v.maps, v.list);
    SlotsOfOthers(v.maps, v.list[1..], c, []);
    TakeFirst(Ids(v.maps[c]), SlotsOf(v.maps, v.list[1..]));
    ReleaseAllKeeps(v.m, v.maps[c], L.Kind.Slot);
    N.ReleaseKeepsLoc(v.t, v.keys[c]);
    SentRest(v.t, v'.t, Messages(v));
  }

  lemma SlotsOfFirst(maps: map<nat, Row>, list: seq<nat>)
    requires list != [] && list[0] in maps
    ensures SlotsOf(maps, list) == Ids(maps[list[0]]) + SlotsOf(maps, list[1..])
  {
  }

  lemma TakeFirst<X>(a: multiset<X>, b: multiset<X>)
    ensures a + b - a == b && a <= a + b
  {
  }

  lemma SentRest(t: T.State, t': T.State, keys: seq<T.MsgKey>)
    requires keys != [] && N.SentKeys(t, keys) && t'.w.msgs == t.w.msgs - {keys[0]}
    ensures N.SentKeys(t', keys[1..])
  {
    forall i | 0 <= i < |keys[1..]| ensures keys[1..][i] in t'.w.msgs && t'.w.msgs[keys[1..][i]].pc.Waiting? {
      assert keys[1..][i] == keys[i + 1];
    }
  }

  // ---------------------------------------------------------------- the whole release

  /** With no context left, no slot reference is left either. */
  lemma NoContextsLeft(v: View)
    requires Ready(v) && v.list == []
    ensures v.m.g.slots == multiset{} && v.maps == map[] && v.keys == map[] && v.b.held == map[] && Messages(v) == v.cmds
  {
    assert KeysOf(v.keys, []) == [];
    assert forall sl :: sl !in v.b.held;
  }

  /** The object has a holder other than the contexts: a DMA handle that the remote side has not
      given back, an mmap or mem_map that was not undone, or a KEEP_MAP pin. */
  predicate StillHeld(g: L.Ledger, k: MapId) { k in g.handles || k in g.users || k in g.pins }

  /** The listed mappings are those that something other than a context still holds. Every
      listed mapping can be freed, and only objects that were never listed stay. */
  lemma MapsCanBeFreed(m: L.State)
    requires L.Inv(m) && m.g.pending.Idle?
    ensures R.Shaped(m.t) && forall k :: k in m.t.list ==> R.Freeable(m.t.heap[k])
    ensures m.g.slots == multiset{} ==> forall k :: k in m.t.list <==> StillHeld(m.g, k)
    ensures R.ForceRounds(m.t, |m.t.list|).list == []
    ensures forall k :: k in R.ForceRounds(m.t, |m.t.list|).heap <==> k in m.g.lost
  {
    forall k | k in m.t.list ensures k in m.t.heap && R.Freeable(m.t.heap[k]) { assert L.Local(m, k); }
    if m.g.slots == multiset{} {
      forall k ensures k in m.t.list <==> StillHeld(m.g, k) { assert L.Local(m, k); }
    }
    R.TeardownAfterRegularRun(m);
  }

  class OpenFile {
    const maps: FileMaps
    const bufs: FileBufs
    const apps: Apps
    var ctxMaps: map<CtxId, Row>
    var ctxMsg: map<CtxId, T.MsgKey>
    var interrupted: seq<CtxId>
    var pending: seq<CtxId>
    var cmds: seq<T.MsgKey>
    ghost var ledger: L.Ledger

    constructor (maps: FileMaps, bufs: FileBufs, apps: Apps)
      ensures this.maps == maps && this.bufs == bufs && this.apps == apps
      ensures ctxMaps == map[] && ctxMsg == map[] && interrupted == [] && pending == [] && cmds == []
    {
      this.maps, this.bufs, this.apps := maps, bufs, apps;
      ctxMaps, ctxMsg, interrupted, pending, cmds := map[], map[], [], [], [];
      ledger := L.Init().g;
    }

    ghost function V(): View
      reads this, maps, bufs, apps, apps.msgtable
    {
      View(L.State(maps.St(), ledger), bufs.St(), apps.St(), ctxMaps, ctxMsg, interrupted + pending, cmds)
    }

    ghost predicate Valid()
      reads this, maps, bufs, apps, apps.msgtable
    {
      Ready(V()) && apps.Shaped()
    }

    /** `context_free`: the slots under the map lock, the message, the descriptors. */
    method ContextFree(c: CtxId)
      requires c in ctxMaps && c in ctxMsg && ctxMsg[c] in apps.msgs && apps.Shaped() && B.Inv(bufs.St())
      modifies this`ctxMaps, this`ctxMsg, this`ledger, maps, bufs, apps`msgs, apps`rxPosted, apps`books, apps.msgtable
      ensures L.State(maps.St(), ledger) == ReleasedRow(L.State(old(maps.St()), old(ledger)), old(ctxMaps)[c])
      ensures bufs.St() == B.PutRow(old(bufs.St()), c, |old(ctxMaps)[c]|)
      ensures apps.St() == N.ReleaseMsg(old(apps.St()), old(ctxMsg)[c]) && apps.Shaped()
      ensures ctxMaps == old(ctxMaps) - {c} && ctxMsg == old(ctxMsg) - {c}
    {
      hide B.Inv, T.Inv, N.ReleaseMsg, B.PutRow, ReleaseAll;
      maps.ReleaseSlots(ctxMaps[c]);
      ledger := Less(ledger, L.Kind.Slot, Ids(ctxMaps[c]));
      apps.ReleaseMsg(ctxMsg[c]);
      bufs.FreeDesc(c, |ctxMaps[c]|);
      ctxMaps, ctxMsg := ctxMaps - {c}, ctxMsg - {c};
    }

    /** Takes the first interrupted context, or the first pending one, off its list and frees
        it. */
    method FreeNext() returns (c: CtxId)
      requires Valid() && interrupted + pending != []
      modifies this`ctxMaps, this`ctxMsg, this`ledger, this`interrupted, this`pending
      modifies maps, bufs, apps`msgs, apps`rxPosted, apps`books, apps.msgtable
      ensures Valid() && [c] + (interrupted + pending) == old(interrupted + pending) && cmds == old(cmds)
      ensures old(interrupted) == [] ==> interrupted == []
      ensures AfterMessages(V()) == old(AfterMessages(V()))
      ensures ledger == old(ledger).(slots := ledger.slots)
    {
      hide Ready, FreeFirst, N.ReleaseMsg, Messages, AfterMessages;
      ghost var v := V();
      FreeFirstReady(v);
      assert B.Inv(bufs.St()) by { PoolInOrder(v); }
      if interrupted != [] {
        c, interrupted := interrupted[0], interrupted[1..];
      } else {
        c, pending := pending[0], pending[1..];
      }
      assert interrupted + pending == v.list[1..] && c == v.list[0];
      ContextFree(c);
      FreeFirstIs(v, V());
    }

    /** `vfastrpc_context_list_dtor`: first the interrupted contexts, then the pending ones. */
    method ContextListDtor() returns (freed: seq<CtxId>)
      requires Valid()
      modifies this`ctxMaps, this`ctxMsg, this`ledger, this`interrupted, this`pending
      modifies maps, bufs, apps`msgs, apps`rxPosted, apps`books, apps.msgtable
      ensures Valid() && interrupted == [] && pending == [] && cmds == old(cmds) && freed == old(interrupted + pending)
      ensures AfterMessages(V()) == old(AfterMessages(V()))
      ensures ledger == old(ledger).(slots := ledger.slots)
    {
      hide Ready, AfterMessages;
      freed := [];
      while interrupted != []
        invariant Valid() && cmds == old(cmds) && freed + (interrupted + pending) == old(interrupted + pending)
        invariant AfterMessages(V()) == old(AfterMessages(V()))
        invariant ledger == old(ledger).(slots := ledger.slots)
        decreases |interrupted + pending|
      {
        var c := FreeNext();
        OneFreed(freed, c, interrupted + pending);
        freed := freed + [c];
      }
      while pending != []
        invariant interrupted == []
        invariant Valid() && cmds == old(cmds) && freed + (interrupted + pending) == old(interrupted + pending)
        invariant AfterMessages(V()) == old(AfterMessages(V()))
        invariant ledger == old(ledger).(slots := ledger.slots)
        decreases |interrupted + pending|
      {
        var c := FreeNext();
        OneFreed(freed, c, interrupted + pending);
        freed := freed + [c];
      }
    }

    /** `vfastrpc_file_free` after the channel is closed. All five lists end empty; every
        context is freed once; no slot reference, buffer or page is left, and no message on a list;
        the mappings freed last are those that a handle, an mmap or a pin still holds; mappings
        that stay allocated were never listed; and the shared message tables stay in order
        exactly when all requests had been answered. */
    method Release() returns (freed: seq<CtxId>, freedMaps: seq<MapId>)
      requires Valid()
      modifies this`ctxMaps, this`ctxMsg, this`ledger, this`interrupted, this`pending, this`cmds
      modifies maps, bufs, apps`msgs, apps`rxPosted, apps`books, apps.msgtable
      ensures interrupted == [] && pending == [] && cmds == [] && bufs.cached == [] && bufs.remote == [] && maps.list == []
      ensures freed == old(interrupted + pending) && ctxMaps == map[] && ledger.slots == multiset{}
      ensures bufs.bufs == map[] && bufs.taken == bufs.returned && forall id: nat :: id in bufs.released <==> id < bufs.next
      ensures forall k :: k in maps.heap <==> k in old(ledger.lost)
      ensures NoDuplicates(freedMaps) && forall k :: k in freedMaps <==> StillHeld(old(ledger), k)
      ensures apps.St() == old(AfterMessages(V()))
      ensures forall k :: k in apps.msgs <==> k in old(apps.msgs) && k !in old(Messages(V()))
      ensures old(T.Inv(apps.St())) ==>
                (T.Inv(apps.St()) <==> N.AllAnswered(old(apps.St()), old(Messages(V()))))
    {
      hide B.Inv, T.Inv, Tables, SlotsOf, N.ReleaseMsgs, N.AllAnswered, L.Inv, Messages;
      N.ReleaseMsgsExact(apps.St(), Messages(V()));
      freed := ContextListDtor();
      NoContextsLeft(V());
      bufs.CachedListFree();
      bufs.RemoteListFree();
      apps.ListFree(cmds);
      cmds := [];
      NothingLeft(bufs.St());
      MapsCanBeFreed(L.State(maps.St(), ledger));
      freedMaps := maps.FreeAll();
    }
  }

  lemma OneFreed(freed: seq<CtxId>, c: CtxId, rest: seq<CtxId>)
    ensures freed + ([c] + rest) == freed + [c] + rest
  {
  }

  lemma PoolInOrder(v: View)
    requires Ready(v)
    ensures B.Inv(v.b)
  {
  }

  /** What `context_free` left is the next state of the release. */
  lemma FreeFirstIs(v: View, v': View)
    requires Ready(v) && v.list != []
    requires v.list[0] in v.maps && v.list[0] in v.keys && v.keys[v.list[0]] in v.t.w.msgs
    requires Ready(FreeFirst(v)) && Messages(v)[0] == v.keys[v.list[0]] && Messages(FreeFirst(v)) == Messages(v)[1..]
    requires v'.m == ReleasedRow(v.m, v.maps[v.list[0]]) && v'.b == B.PutRow(v.b, v.list[0], |v.maps[v.list[0]]|)
    requires v'.t == N.ReleaseMsg(v.t, v.keys[v.list[0]]) && v'.maps == v.maps - {v.list[0]}
    requires v'.keys == v.keys - {v.list[0]} && v'.list == v.list[1..] && v'.cmds == v.cmds
    ensures Ready(v') && AfterMessages(v') == AfterMessages(v)
    ensures v'.m.g == v.m.g.(slots := v'.m.g.slots)
  {
    hide L.Inv, B.Inv, N.ReleaseMsg, B.PutRow, ReleaseAll, Tables, SlotsOf, N.SentKeys;
    assert v' == FreeFirst(v);
  }
}
