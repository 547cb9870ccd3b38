/** The message layer as the driver changes it: the message table, the buffer pools and the
    two virtqueues of `struct vfastrpc_apps`, updated in place. */
module MsgOps {
  import opened Lists
  import opened Wrappers
  import opened Transport
  import opened TransportRuns

  /** The occupied entries of the message table. */
  function TableOf(t: seq<Option<MsgKey>>): map<nat, MsgKey> {
    map i: nat | i < |t| && t[i].Some? :: t[i].value
  }

  class Apps {
    const numBufs: nat
    const bufSize: nat
    const msgtable: array<Option<MsgKey>>
    var msgs: map<MsgKey, Msg>
    var nextKey: MsgKey
    var lastSbuf: nat
    var txAvail: map<Buf, Packet>
    var txTaken: set<Buf>
    var txUsed: set<Buf>
    var atBackend: set<Packet>
    var rxPosted: set<Buf>
    var rxUsed: map<Buf, Packet>
    var handler: Option<Rx>
    ghost var books: Books

    ghost function St(): State
      reads this, msgtable
    {
      State(World(numBufs, TableOf(msgtable[..]), msgs, nextKey, lastSbuf, txAvail, txTaken, txUsed,
                  atBackend, rxPosted, rxUsed, handler), books)
    }

    ghost predicate Valid()
      reads this, msgtable
    {
      msgtable.Length == FASTRPC_MSG_MAX && Inv(St())
    }

    /** All that the table code relies on. */
    ghost predicate Shaped()
      reads this, msgtable
    {
      msgtable.Length == FASTRPC_MSG_MAX && forall k :: k in msgs ==> msgs[k].msgid < FASTRPC_MSG_MAX
    }

    lemma ValidIsShaped()
      requires Valid()
      ensures Shaped()
    {
      forall k | k in msgs ensures msgs[k].msgid < FASTRPC_MSG_MAX {
        assert KeyAt(St(), k) && TableAt(St(), msgs[k].msgid);
      }
    }

    /** The state when all receive buffers have been posted. */
    constructor (numBufs: nat, bufSize: nat)
      ensures Valid() && St() == Init(numBufs) && this.bufSize == bufSize
      ensures fresh(msgtable)
    {
      this.numBufs, this.bufSize := numBufs, bufSize;
      msgtable := new Option<MsgKey>[FASTRPC_MSG_MAX](_ => None);
      msgs, nextKey, lastSbuf := map[], 0, 0;
      txAvail, txTaken, txUsed, atBackend := map[], {}, {}, {};
      rxPosted, rxUsed, handler := Range(numBufs), map[], None;
      books := Books(map[], map[], map[], {}, {});
      new;
      assert TableOf(msgtable[..]) == map[];
      InitInv(numBufs);
    }

    /** The table search of `virt_alloc_msg`: the first free entry, or none. */
    method NewMsg() returns (k: Option<MsgKey>, ghost id: nat)
      requires Valid()
      modifies this`msgs, this`nextKey, msgtable
      ensures Valid()
      ensures k.Some? ==> k.value == old(nextKey)
      ensures k.Some? ==> Enabled(old(St()), Step.AllocMsg(id)) && St() == Apply(old(St()), Step.AllocMsg(id))
      ensures k.None? ==> St() == old(St())
      ensures k.Some? <==> exists i :: 0 <= i < FASTRPC_MSG_MAX && old(msgtable[..])[i].None?
    {
      ghost var s := St();
      var i := 0;
      while i < FASTRPC_MSG_MAX
        invariant 0 <= i <= FASTRPC_MSG_MAX && St() == s
        invariant msgtable[..] == old(msgtable[..])
        invariant forall j: nat :: j < i ==> msgtable[j].Some?
      {
        if msgtable[i].None? {
          assert FirstFree(s.w.table, i);
          assert old(msgtable[..])[i].None?;
          StepKeeps(s, Step.AllocMsg(i));
          msgtable[i] := Some(nextKey);
          assert TableOf(msgtable[..]) == s.w.table[i := nextKey];
          msgs := msgs[nextKey := Msg(i, None, None, false, Filling)];
          k, id := Some(nextKey), i;
          nextKey := nextKey + 1;
          assert St() == Apply(s, Step.AllocMsg(i)) by { hide Inv; }
          return;
        }
        i := i + 1;
      }
      k, id := None, 0;
    }

    /** `get_a_tx_buf`: the next unused buffer, or a recycled one. */
    method GetTxBuf(k: MsgKey) returns (r: Option<Buf>)
      requires Valid() && k in msgs && msgs[k].pc.Filling? && msgs[k].txbuf.None?
      modifies this`msgs, this`lastSbuf, this`txUsed, this`books
      ensures Valid()
      ensures r.Some? ==> Enabled(old(St()), GetTx(k, r.value)) && St() == Apply(old(St()), GetTx(k, r.value))
      ensures r.None? ==> St() == old(St())
      ensures r.Some? <==> old(lastSbuf) < numBufs || old(txUsed) != {}
    {
      ghost var s := St();
      assert Rest(s);
      var buf;
      if lastSbuf < numBufs {
        buf := lastSbuf;
        lastSbuf := lastSbuf + 1;
      } else if txUsed != {} {
        buf :| buf in txUsed;
        txUsed := txUsed - {buf};
      } else {
        return None;
      }
      StepKeeps(s, GetTx(k, buf));
      books := books.(filling := books.filling[buf := k]);
      msgs := msgs[k := msgs[k].(txbuf := Some(buf))];
      assert St() == Apply(s, GetTx(k, buf)) by { hide Inv; }
      r := Some(buf);
    }

    /** `virt_free_msg`, whatever the state of the message. */
    method DeleteMsg(k: MsgKey)
      requires Shaped() && k in msgs
      modifies this`msgs, msgtable, this`books
      ensures Shaped() && St() == DoFree(old(St()), k)
      ensures old(Valid()) ==> (Valid() <==> MayFree(old(msgs)[k]))
    {
      ghost var s := St();
      hide Inv;
      FreeFacts(s, k);
      var m := msgs[k];
      ghost var was := msgtable[..];
      if msgtable[m.msgid] == Some(k) { msgtable[m.msgid] := None; }
      TableCleared(was, msgtable[..], m.msgid, k);
      msgs := msgs - {k};
      if m.pc.Filling? && m.txbuf.Some? {
        books := books.(filling := books.filling - {m.txbuf.value}, txLost := books.txLost + {m.txbuf.value});
      }
      assert St() == DoFree(s, k);
    }

    /** `vfastrpc_txbuf_send`: it cannot fail for lack of room. */
    method SendTxBuf(k: MsgKey) returns (ok: bool)
      requires Valid() && k in msgs && msgs[k].pc.Filling? && msgs[k].txbuf.Some?
      modifies this`msgs, this`txAvail, this`books
      ensures Valid() && ok && St() == Apply(old(St()), SendTx(k))
      ensures k in msgs && msgs[k] == old(msgs)[k].(pc := Waiting)
      ensures txAvail == old(txAvail)[msgs[k].txbuf.value := Packet(k, msgs[k].msgid)]
    {
      ghost var s := St();
      TxHasRoom(s, k);
      StepKeeps(s, SendTx(k));
      if |txAvail.Keys| + |txTaken| + |txUsed| >= numBufs { return false; }
      var m := msgs[k];
      var buf := m.txbuf.value;
      txAvail := txAvail[buf := Packet(k, m.msgid)];
      msgs := msgs[k := m.(pc := Waiting)];
      books := books.(loc := books.loc[k := AtRing(buf)], filling := books.filling - {buf});
      ok := true;
      assert St() == Apply(s, SendTx(k)) by { hide Inv; }
    }

    /** Adds a buffer to the receive ring, or drops it if the ring is full. */
    method AddInbuf(buf: Buf) returns (ok: bool)
      modifies this`rxPosted
      ensures ok <==> RxRoom(old(St()).w)
      ensures rxPosted == if ok then old(rxPosted) + {buf} else old(rxPosted)
    {
      ok := |rxPosted| + |rxUsed.Keys| < numBufs;
      if ok { rxPosted := rxPosted + {buf}; }
    }

    /** `vfastrpc_rxbuf_send`: in a valid state it cannot fail for lack of room. */
    method RepostRxBuf(k: MsgKey)
      requires Shaped() && k in msgs && msgs[k].rxbuf.Some?
      modifies this`msgs, this`rxPosted, this`books
      ensures Shaped() && St() == DoRepost(old(St()), k)
      ensures old(Valid()) && !old(msgs)[k].pc.Reposted? ==> rxPosted == old(rxPosted) + {old(msgs)[k].rxbuf.value.buf}
      ensures old(Valid()) && old(msgs)[k].pc.Passed? ==> Valid()
    {
      hide Inv, RxRoom;
      ghost var s := St();
      RepostFacts(s, k);
      var buf := msgs[k].rxbuf.value.buf;
      var ok := AddInbuf(buf);
      books := books.(holding := books.holding - {buf}, rxLost := if ok then books.rxLost else books.rxLost + {buf});
      msgs := msgs[k := msgs[k].(pc := Reposted)];
      assert St() == DoRepost(s, k);
    }

    /** `virt_alloc_msg`: it fails exactly when the message is too big, memory is short, the table
        is full or no send buffer is left, and then nothing is kept. */
    method AllocMsg(size: nat, memOk: bool) returns (r: Option<MsgKey>)
      requires Valid()
      modifies this`msgs, this`nextKey, this`lastSbuf, this`txUsed, this`books, msgtable
      ensures Valid()
      ensures r.Some? <==> && size <= bufSize && memOk
                           && (exists i :: 0 <= i < FASTRPC_MSG_MAX && old(msgtable[..])[i].None?)
                           && (old(lastSbuf) < numBufs || old(txUsed) != {})
      ensures r.Some? ==> r.value == old(nextKey)
      ensures r.Some? ==> exists id, buf :: Allocates(old(St()), St(), id, buf)
      ensures r.None? ==> St() == OnlyNextKey(old(St()), nextKey)
    {
      ghost var s := St();
      FreshIsUnused(s);
      hide Inv, FirstFree;
      if size > bufSize { return None; }
      if !memOk { return None; }
      var k;
      ghost var id;
      k, id := NewMsg();
      if k.None? { return None; }
      ghost var s1 := St();
      AllocatedIs(s, id);
      var buf := GetTxBuf(k.value);
      hide Apply, Enabled, DoFree;
      if buf.None? {
        ValidIsShaped();
        DeleteMsg(k.value);
        UndoAlloc(s, id);
        return None;
      }
      r := k;
      assert Allocates(s, St(), id, buf.value);
    }

    /** `recv_single` for the response taken by the handler. */
    method ReceiveOne() returns (ok: bool)
      requires Valid() && handler.Some?
      modifies this`msgs, this`handler, this`books
      ensures Valid() && ok && St() == Apply(old(St()), RecvSingle)
    {
      ghost var s := St();
      FlightIsOwned(s, s.w.handler.value.rsp);
      StepKeeps(s, RecvSingle);
      var h := handler.value;
      assert TableAt(s, h.rsp.msgid) && KeyAt(s, h.rsp.key);
      var entry := msgtable[h.rsp.msgid];
      handler := None;
      if entry.None? { return false; }
      msgs := msgs[entry.value := msgs[entry.value].(rxbuf := Some(h), done := true)];
      books := books.(loc := books.loc - {h.rsp.key}, holding := books.holding[h.buf := entry.value]);
      ok := true;
      assert St() == Apply(s, RecvSingle) by { hide Inv; }
    }

    /** One round of `recv_done`: take a used buffer and deliver it. */
    method ReceiveNext(buf: Buf)
      requires Valid() && handler.None? && buf in rxUsed
      modifies this`msgs, this`rxUsed, this`handler, this`books
      ensures Valid() && handler.None? && rxUsed == old(rxUsed) - {buf}
      ensures var p := old(rxUsed)[buf];
              && p.key in old(msgs) && Unanswered(old(msgs)[p.key])
              && msgs == old(msgs)[p.key := old(msgs)[p.key].(rxbuf := Some(Rx(buf, p)), done := true)]
    {
      ghost var s := St();
      StepKeeps(s, RecvGet(buf));
      FlightIsOwned(s, rxUsed[buf]);
      handler := Some(Rx(buf, rxUsed[buf]));
      books := books.(loc := books.loc[rxUsed[buf].key := AtHandler]);
      rxUsed := rxUsed - {buf};
      assert St() == Apply(s, RecvGet(buf)) by { hide Inv; }
      hide Inv;
      var ok := ReceiveOne();
    }

    /** `recv_done`: works off all used buffers; each response reaches its message. */
    method ReceiveAll()
      requires Valid() && handler.None?
      modifies this`msgs, this`rxUsed, this`handler, this`books
      ensures Valid() && handler.None? && rxUsed == map[]
      ensures forall buf :: buf in old(rxUsed) ==>
                var p := old(rxUsed)[buf];
                p.key in msgs && msgs[p.key].done && msgs[p.key].rxbuf == Some(Rx(buf, p))
      ensures forall k :: k in old(msgs) && !Unanswered(old(msgs)[k]) ==> k in msgs && msgs[k] == old(msgs)[k]
    {
      hide Inv;
      while rxUsed.Keys != {}
        invariant Valid() && handler.None?
        invariant forall buf :: buf in rxUsed ==> buf in old(rxUsed) && rxUsed[buf] == old(rxUsed)[buf]
        invariant forall buf :: buf in old(rxUsed) && buf !in rxUsed ==> Delivered(msgs, buf, old(rxUsed)[buf])
        invariant forall k :: k in old(msgs) && !Unanswered(old(msgs)[k]) ==> k in msgs && msgs[k] == old(msgs)[k]
        decreases rxUsed.Keys
      {
        var buf :| buf in rxUsed.Keys;
        ReceiveNext(buf);
      }
      assert rxUsed == map[];
    }

    /** What `context_free` and `vfastrpc_interrupted_cmd_list_free` do with a message: repost
        its response buffer if there is one, then free it. */
    method ReleaseMsg(k: MsgKey)
      requires Shaped() && k in msgs
      modifies this`msgs, this`rxPosted, this`books, msgtable
      ensures Shaped() && St() == TransportRuns.ReleaseMsg(old(St()), k)
      ensures old(Valid()) && !old(msgs)[k].pc.Reposted? ==> (Valid() <==> !Unanswered(old(msgs)[k]))
    {
      hide Inv;
      FreeFacts(St(), k);
      if msgs[k].rxbuf.Some? { RepostRxBuf(k); }
      DeleteMsg(k);
    }

    /** The teardown loop over the interrupted commands. */
    method ListFree(keys: seq<MsgKey>)
      requires Shaped() && forall i :: 0 <= i < |keys| ==> keys[i] in msgs
      requires NoDuplicates(keys)
      modifies this`msgs, this`rxPosted, this`books, msgtable
      ensures Shaped() && St() == ReleaseMsgs(old(St()), keys)
      ensures old(Valid()) && SentKeys(old(St()), keys) ==> (Valid() <==> AllAnswered(old(St()), keys))
    {
      hide Inv, DoFree, DoRepost, TransportRuns.ReleaseMsg, SentKeys, AllAnswered;
      if SentKeys(St(), keys) { ReleaseMsgsExact(St(), keys); }
      var i := 0;
      while i < |keys|
        invariant 0 <= i <= |keys| && Shaped()
        invariant forall j :: i <= j < |keys| ==> keys[j] in msgs
        invariant ReleaseMsgs(St(), keys[i..]) == old(ReleaseMsgs(St(), keys))
      {
        assert keys[i..][1..] == keys[i + 1..];
        ReleaseKeepsLoc(St(), keys[i]);
        ReleaseMsg(keys[i]);
        i := i + 1;
      }
    }
  }

  /** Clearing the entry of a message, if it is its own. */
  lemma TableCleared(was: seq<Option<MsgKey>>, now: seq<Option<MsgKey>>, id: nat, k: MsgKey)
    requires id < |was| && now == if was[id] == Some(k) then was[id := None] else was
    ensures TableOf(now) == if id in TableOf(was) && TableOf(was)[id] == k then TableOf(was) - {id} else TableOf(was)
  {
  }

  predicate Delivered(msgs: map<MsgKey, Msg>, buf: Buf, p: Packet) {
    p.key in msgs && msgs[p.key].done && msgs[p.key].rxbuf == Some(Rx(buf, p))
  }

  /** The state but for the numbering of message objects. */
  function OnlyNextKey(s: State, next: MsgKey): State { s.(w := s.w.(nextKey := next)) }

  /** `s'` is `s` with a new message in table entry `id` that fills `buf`. */
  ghost predicate Allocates(s: State, s': State, id: nat, buf: Buf) {
    && Enabled(s, Step.AllocMsg(id))
    && var s1 := Apply(s, Step.AllocMsg(id));
    Enabled(s1, GetTx(s.w.nextKey, buf)) && s' == Apply(s1, GetTx(s.w.nextKey, buf))
  }

  /** A new message has its entry and its buffer to itself and leaves all others alone. */
  lemma AllocatesMeans(s: State, s': State, id: nat, buf: Buf, j: MsgKey)
    requires Inv(s) && Allocates(s, s', id, buf)
    ensures var k := s.w.nextKey;
            && k !in s.w.msgs && k in s'.w.msgs && s'.w.msgs[k] == Msg(id, Some(buf), None, false, Filling)
            && id !in s.w.table && s'.w.table == s.w.table[id := k]
            && (j in s.w.msgs ==> j in s'.w.msgs && s'.w.msgs[j] == s.w.msgs[j])
            && (j in s'.w.msgs && j != k && s'.w.msgs[j].pc.Filling? ==> s'.w.msgs[j].txbuf != Some(buf))
  {
    FreshIsUnused(s);
    var s1 := Apply(s, Step.AllocMsg(id));
    StepKeeps(s, Step.AllocMsg(id));
    StepKeeps(s1, GetTx(s.w.nextKey, buf));
    TxBuffersAreExclusive(s', s.w.nextKey, j);
    hide Inv;
  }

  lemma FreshIsUnused(s: State)
    requires Inv(s)
    ensures s.w.nextKey !in s.w.msgs
  {
    assert KeyAt(s, s.w.nextKey);
  }

  lemma AllocatedIs(s: State, id: nat)
    requires Enabled(s, Step.AllocMsg(id))
    ensures var s1 := Apply(s, Step.AllocMsg(id));
            s.w.nextKey in s1.w.msgs && s1.w.msgs[s.w.nextKey] == Msg(id, None, None, false, Filling)
  {
  }

  /** Allocating an entry and freeing it again restores everything. */
  lemma UndoAlloc(s: State, id: nat)
    requires Enabled(s, Step.AllocMsg(id)) && s.w.nextKey !in s.w.msgs
    ensures var s1 := Apply(s, Step.AllocMsg(id));
            s.w.nextKey in s1.w.msgs && DoFree(s1, s.w.nextKey) == OnlyNextKey(s, s.w.nextKey + 1)
  {
    var m := Msg(id, None, None, false, Filling);
    DropUpdated(s.w.msgs, s.w.nextKey, m);
    DropUpdated(s.w.table, id, s.w.nextKey);
    assert s.w.msgs - {s.w.nextKey} == s.w.msgs && s.w.table - {id} == s.w.table;
  }
}
