/** What the message layer guarantees over whole runs. */
module TransportRuns {
  import opened Lists
  import opened Wrappers
  import opened Transport

  predicate Legal(s: State, steps: seq<Step>)
    decreases |steps|
  {
    steps == [] || (Enabled(s, steps[0]) && Legal(Apply(s, steps[0]), steps[1..]))
  }

  function Run(s: State, steps: seq<Step>): State
    requires Legal(s, steps)
    decreases |steps|
  {
    if steps == [] then s else Run(Apply(s, steps[0]), steps[1..])
  }

  lemma NumBufsStay(s: State, step: Step)
    requires Enabled(s, step)
    ensures Apply(s, step).w.numBufs == s.w.numBufs
  {
    hide TxRoom, RxRoom, FirstFree;
  }

  lemma {:induction false} RunKeeps(s: State, steps: seq<Step>)
    requires Inv(s) && Legal(s, steps)
    ensures Inv(Run(s, steps)) && Run(s, steps).w.numBufs == s.w.numBufs
    decreases |steps|
  {
    if steps != [] {
      hide Inv, Apply, Enabled;
      NumBufsStay(s, steps[0]);
      StepKeeps(s, steps[0]);
      RunKeeps(Apply(s, steps[0]), steps[1..]);
    }
  }

  /** A thread that gets past its wait finds a response, and it answers its own request. */
  lemma WaiterSeesItsOwnResponse(numBufs: nat, steps: seq<Step>, k: MsgKey)
    requires Legal(Init(numBufs), steps)
    ensures var w := Run(Init(numBufs), steps).w;
            k in w.msgs && (w.msgs[k].done || w.msgs[k].pc.Passed?) ==>
              w.msgs[k].rxbuf.Some? && w.msgs[k].rxbuf.value.rsp == Packet(k, w.msgs[k].msgid)
  {
    InitInv(numBufs);
    RunKeeps(Init(numBufs), steps);
    assert KeyAt(Run(Init(numBufs), steps), k);
  }

  /** A packet that is on its way: in a ring, at the remote side or in the handler. */
  ghost predicate InFlight(w: World, p: Packet) {
    || (exists buf :: buf in w.txAvail && w.txAvail[buf] == p)
    || p in w.atBackend
    || (exists buf :: buf in w.rxUsed && w.rxUsed[buf] == p)
    || (w.handler.Some? && w.handler.value.rsp == p)
  }

  lemma FlightIsOwned(s: State, p: Packet)
    requires Inv(s) && InFlight(s.w, p)
    ensures p.key in s.w.msgs && Unanswered(s.w.msgs[p.key]) && s.w.msgs[p.key].msgid == p.msgid
    ensures p.msgid in s.w.table && s.w.table[p.msgid] == p.key
  {
    assert KeyAt(s, p.key);
    if p in s.w.atBackend {
      assert BackendAt(s, p);
    } else if buf :| buf in s.w.txAvail && s.w.txAvail[buf] == p {
      assert TxAt(s, buf);
    } else if buf :| buf in s.w.rxUsed && s.w.rxUsed[buf] == p {
      assert RxAt(s, buf);
    }
  }

  /** An id whose request is in flight is never given to another message, and two packets
      in flight never share an id. */
  lemma IdsAreNotReissued(s: State, p: Packet, q: Packet, id: nat)
    requires Inv(s) && InFlight(s.w, p)
    ensures Enabled(s, AllocMsg(id)) ==> id != p.msgid
    ensures InFlight(s.w, q) && q.msgid == p.msgid ==> q == p
  {
    FlightIsOwned(s, p);
    if InFlight(s.w, q) { FlightIsOwned(s, q); }
  }

  /** The handler always finds the waiting message that the response answers: no response
      is rejected, and no earlier response is overwritten. */
  lemma ResponseIsDelivered(s: State)
    requires Inv(s) && s.w.handler.Some?
    ensures var h := s.w.handler.value;
            var w' := Apply(s, RecvSingle).w;
            && h.rsp.key in s.w.msgs && s.w.msgs[h.rsp.key].rxbuf.None? && !s.w.msgs[h.rsp.key].done
            && h.rsp.key in w'.msgs && w'.msgs[h.rsp.key].rxbuf == Some(h) && w'.msgs[h.rsp.key].done
  {
    FlightIsOwned(s, s.w.handler.value.rsp);
    assert KeyAt(s, s.w.handler.value.rsp.key);
  }

  /** Two messages never write the same send buffer, and a buffer being written is neither
      in the ring nor waiting to be recycled. */
  lemma TxBuffersAreExclusive(s: State, k: MsgKey, j: MsgKey)
    requires Inv(s) && k in s.w.msgs && s.w.msgs[k].pc.Filling? && s.w.msgs[k].txbuf.Some?
    ensures var buf := s.w.msgs[k].txbuf.value;
            && buf < s.w.numBufs
            && buf !in s.w.txAvail && buf !in s.w.txTaken && buf !in s.w.txUsed && buf < s.w.lastSbuf
            && (j in s.w.msgs && s.w.msgs[j].pc.Filling? && s.w.msgs[j].txbuf == Some(buf) ==> j == k)
  {
    assert KeyAt(s, k) && KeyAt(s, j) && TxAt(s, s.w.msgs[k].txbuf.value);
  }

  /** Sending and reposting succeed whenever the code calls them. */
  lemma RingsNeverFull(s: State, k: MsgKey)
    requires Inv(s)
    ensures Enabled(s, SendTx(k)) ==> k in Apply(s, SendTx(k)).w.msgs && Apply(s, SendTx(k)).w.msgs[k].pc.Waiting?
    ensures Enabled(s, Repost(k)) ==>
              s.w.msgs[k].rxbuf.value.buf in Apply(s, Repost(k)).w.rxPosted
  {
    if Enabled(s, SendTx(k)) { TxHasRoom(s, k); }
    if Enabled(s, Repost(k)) { RxHasRoom(s, k); }
  }

  /** Receive buffers are conserved: posted, used, in the handler or held by a message. */
  lemma RxConservation(s: State)
    requires Inv(s)
    ensures |s.w.rxPosted| + |s.w.rxUsed.Keys| + (if s.w.handler.Some? then 1 else 0) + |s.b.holding.Keys|
            == s.w.numBufs
    ensures s.b.rxLost == {}
  {
    var a, b, d := s.w.rxPosted, s.w.rxUsed.Keys, s.b.holding.Keys;
    var c := if s.w.handler.Some? then {s.w.handler.value.buf} else {};
    forall x: Buf
      ensures Bit(x in a) + Bit(x in b) + Bit(x in c) + Bit(x in d) == Bit(x < s.w.numBufs)
    {
      assert RxAt(s, x);
    }
    hide Inv, RxAt;
    Partition(a, b, c, d, s.w.numBufs);
  }

  lemma Partition(a: set<nat>, b: set<nat>, c: set<nat>, d: set<nat>, n: nat)
    requires forall x: nat :: Bit(x in a) + Bit(x in b) + Bit(x in c) + Bit(x in d) == Bit(x < n)
    ensures |a| + |b| + |c| + |d| == n
  {
    forall x: nat ensures x in a + b + c + d <==> x in Range(n) {
      assert Bit(x in a) + Bit(x in b) + Bit(x in c) + Bit(x in d) == Bit(x < n);
    }
    assert a + b + c + d == Range(n);
    assert a !! b && (a + b) !! c && (a + b + c) !! d by {
      forall x: nat ensures !(x in a && x in b) && !(x in a + b && x in c) && !(x in a + b + c && x in d) {
        assert Bit(x in a) + Bit(x in b) + Bit(x in c) + Bit(x in d) == Bit(x < n);
      }
    }
  }

  /** Send buffers are conserved as well; the only ones out of circulation are those whose
      request failed before it was sent. */
  lemma TxConservation(s: State, buf: Buf)
    requires Inv(s) && buf < s.w.numBufs
    ensures TxPlaces(s, buf) == 1
    ensures buf in s.b.txLost ==> buf !in s.b.filling && buf !in s.w.txAvail && buf !in s.w.txTaken && buf !in s.w.txUsed
  {
    assert TxAt(s, buf);
  }

  // ---------------------------------------------------------------- releasing messages

  /** `virt_free_msg` does not look at the state of the message. The invariants survive it
      exactly when the message was never sent or its response buffer has been reposted. */
  lemma FreeExact(s: State, k: MsgKey)
    requires Inv(s) && k in s.w.msgs
    ensures Inv(DoFree(s, k)) <==> MayFree(s.w.msgs[k])
  {
    var m := s.w.msgs[k];
    assert KeyAt(s, k);
    if MayFree(m) {
      StepKeeps(s, FreeMsg(k));
    } else {
      if Unanswered(m) {
        assert !KeyAt(DoFree(s, k), k);
      } else {
        assert !RxAt(DoFree(s, k), m.rxbuf.value.buf);
      }
    }
  }

  /** The end of every command and of every context: repost the response if there is one, free
      the message. */
  function ReleaseMsg(s: State, k: MsgKey): State
    requires k in s.w.msgs
  {
    DoFree(if s.w.msgs[k].rxbuf.Some? then DoRepost(s, k) else s, k)
  }

  /** The end of every command, at whatever stage it is reached before the response buffer has
      been reposted: it is safe exactly when the message is not waiting unanswered, and a
      response buffer, which was not posted, is posted. */
  lemma ReleaseExact(s: State, k: MsgKey)
    requires Inv(s) && k in s.w.msgs && !s.w.msgs[k].pc.Reposted?
    ensures Inv(ReleaseMsg(s, k)) <==> !Unanswered(s.w.msgs[k])
    ensures s.w.msgs[k].rxbuf.Some? ==>
              && s.w.msgs[k].rxbuf.value.buf !in s.w.rxPosted
              && ReleaseMsg(s, k).w.rxPosted == s.w.rxPosted + {s.w.msgs[k].rxbuf.value.buf}
  {
    assert KeyAt(s, k);
    hide Inv, DoFree, DoRepost, RxRoom;
    FreeExact(s, k);
    if s.w.msgs[k].rxbuf.Some? { ReleaseAnswered(s, k); }
  }

  lemma ReleaseAnswered(s: State, k: MsgKey)
    requires Inv(s) && k in s.w.msgs && !s.w.msgs[k].pc.Reposted? && s.w.msgs[k].rxbuf.Some?
    ensures Inv(ReleaseMsg(s, k)) && s.w.msgs[k].rxbuf.value.buf !in s.w.rxPosted
    ensures ReleaseMsg(s, k).w.rxPosted == s.w.rxPosted + {s.w.msgs[k].rxbuf.value.buf}
  {
    hide Inv, RxRoom, DoRepost, DoFree, DoPass;
    AnsweredFacts(s, k);
    PassIsInvisible(s, k);
    if s.w.msgs[k].pc.Passed? {
      RepostAndFree(s, k);
    } else {
      PassKeeps(s, k);
      hide ReleaseMsg;
      RepostAndFree(DoPass(s, k), k);
    }
  }

  lemma PassKeeps(s: State, k: MsgKey)
    requires Inv(s) && k in s.w.msgs && s.w.msgs[k].pc.Waiting? && s.w.msgs[k].done && s.w.msgs[k].rxbuf.Some?
    ensures Inv(DoPass(s, k)) && k in DoPass(s, k).w.msgs
    ensures DoPass(s, k).w.msgs[k].pc.Passed? && DoPass(s, k).w.msgs[k].rxbuf.Some?
  {
    hide Inv;
    StepKeeps(s, Pass(k));
  }

  lemma AnsweredFacts(s: State, k: MsgKey)
    requires Inv(s) && k in s.w.msgs && !s.w.msgs[k].pc.Reposted? && s.w.msgs[k].rxbuf.Some?
    ensures RxRoom(s.w) && s.w.msgs[k].rxbuf.value.buf !in s.w.rxPosted
    ensures s.w.msgs[k].pc.Passed? || (s.w.msgs[k].pc.Waiting? && s.w.msgs[k].done)
  {
    assert KeyAt(s, k) && RxAt(s, s.w.msgs[k].rxbuf.value.buf);
    RxHasRoom(s, k);
  }

  /** A message past its wait cannot be freed before its response buffer is reposted, can be
      reposted, and cannot be reposted twice. */
  lemma RepostedOnce(s: State, k: MsgKey)
    requires Inv(s) && k in s.w.msgs && s.w.msgs[k].pc.Passed?
    ensures !Enabled(s, FreeMsg(k)) && Enabled(s, Repost(k))
    ensures var s' := Apply(s, Repost(k));
            && Enabled(s', FreeMsg(k)) && !Enabled(s', Repost(k))
            && s.w.msgs[k].rxbuf.value.buf !in s.w.rxPosted
            && s'.w.rxPosted == s.w.rxPosted + {s.w.msgs[k].rxbuf.value.buf}
  {
    assert s.w.msgs[k].rxbuf.Some? by { assert KeyAt(s, k); }
    hide Inv, RxRoom;
    AnsweredFacts(s, k);
  }

  lemma RepostAndFree(s: State, k: MsgKey)
    requires Inv(s) && k in s.w.msgs && s.w.msgs[k].pc.Passed? && s.w.msgs[k].rxbuf.Some?
    ensures Inv(DoFree(DoRepost(s, k), k))
  {
    hide Inv, RxRoom;
    StepKeeps(s, Repost(k));
    StepKeeps(DoRepost(s, k), FreeMsg(k));
  }

  lemma DropUpdated<K, V>(m: map<K, V>, k: K, v: V)
    ensures m[k := v] - {k} == m - {k}
  {
  }

  /** Whether the wait was formally ended makes no difference once the message is gone. */
  lemma PassIsInvisible(s: State, k: MsgKey)
    requires k in s.w.msgs && s.w.msgs[k].rxbuf.Some? && !s.w.msgs[k].pc.Filling? && RxRoom(s.w)
    ensures DoFree(DoRepost(DoPass(s, k), k), k) == ReleaseMsg(s, k)
    ensures ReleaseMsg(s, k).w.rxPosted == s.w.rxPosted + {s.w.msgs[k].rxbuf.value.buf}
  {
    hide RxRoom;
    var m := s.w.msgs[k];
    assert RxRoom(DoPass(s, k).w) by { RoomOf(s.w, DoPass(s, k).w); }
    DropUpdated(s.w.msgs, k, m.(pc := Reposted));
    var m1 := m.(pc := Passed, done := false);
    DropUpdated(s.w.msgs[k := m1], k, m1.(pc := Reposted));
    DropUpdated(s.w.msgs, k, m1);
    var a, b := DoRepost(s, k), DoRepost(DoPass(s, k), k);
    assert a.b == b.b && a.w == b.w.(msgs := a.w.msgs);
    assert a.w.msgs - {k} == b.w.msgs - {k};
  }

  lemma RoomOf(w: World, w': World)
    requires w.rxPosted == w'.rxPosted && w.rxUsed == w'.rxUsed && w.numBufs == w'.numBufs
    ensures RxRoom(w) == RxRoom(w')
  {
  }

  /** Releasing never takes a message out of the record of unanswered requests, so a
      message that was freed unanswered breaks the invariants for good. */
  lemma ReleaseKeepsLoc(s: State, k: MsgKey)
    requires k in s.w.msgs
    ensures ReleaseMsg(s, k).b.loc == s.b.loc && ReleaseMsg(s, k).w.msgs == s.w.msgs - {k}
  {
    hide RxRoom;
    DropUpdated(s.w.msgs, k, s.w.msgs[k].(pc := Reposted));
  }

  lemma RepostFacts(s: State, k: MsgKey)
    requires k in s.w.msgs && s.w.msgs[k].rxbuf.Some?
    ensures Inv(s) && !s.w.msgs[k].pc.Reposted? ==> RxRoom(s.w)
    ensures Inv(s) && s.w.msgs[k].pc.Passed? ==> Inv(DoRepost(s, k))
  {
    if Inv(s) && !s.w.msgs[k].pc.Reposted? { RxHasRoom(s, k); }
    if Inv(s) && s.w.msgs[k].pc.Passed? { StepKeeps(s, Repost(k)); }
  }

  lemma FreeFacts(s: State, k: MsgKey)
    requires k in s.w.msgs
    ensures Inv(s) ==> (Inv(DoFree(s, k)) <==> MayFree(s.w.msgs[k]))
    ensures Inv(s) && !s.w.msgs[k].pc.Reposted? ==> (Inv(ReleaseMsg(s, k)) <==> !Unanswered(s.w.msgs[k]))
  {
    if Inv(s) {
      FreeExact(s, k);
      if !s.w.msgs[k].pc.Reposted? { ReleaseExact(s, k); }
    }
  }

  lemma FreedUnanswered(s: State, k: MsgKey)
    requires k in s.b.loc && k !in s.w.msgs
    ensures !Inv(s)
  {
    assert !KeyAt(s, k);
  }

  /** Releasing a list of messages one by one. */
  function ReleaseMsgs(s: State, keys: seq<MsgKey>): State
    decreases |keys|
  {
    if keys == [] then s
    else ReleaseMsgs(if keys[0] in s.w.msgs then ReleaseMsg(s, keys[0]) else s, keys[1..])
  }

  ghost predicate SentKeys(s: State, keys: seq<MsgKey>) {
    NoDuplicates(keys) && forall i :: 0 <= i < |keys| ==> keys[i] in s.w.msgs && s.w.msgs[keys[i]].pc.Waiting?
  }

  ghost predicate AllAnswered(s: State, keys: seq<MsgKey>) {
    forall i :: 0 <= i < |keys| && keys[i] in s.w.msgs ==> !Unanswered(s.w.msgs[keys[i]])
  }

  /** The messages on the list are gone, all others are as before; and the shared tables are
      in order afterwards if and only if every one of them had been answered. */
  lemma {:induction false} ReleaseMsgsExact(s: State, keys: seq<MsgKey>)
    requires SentKeys(s, keys)
    ensures forall k :: k in ReleaseMsgs(s, keys).w.msgs <==> k in s.w.msgs && k !in keys
    ensures forall k :: k in ReleaseMsgs(s, keys).w.msgs ==> ReleaseMsgs(s, keys).w.msgs[k] == s.w.msgs[k]
    ensures ReleaseMsgs(s, keys).b.loc == s.b.loc
    ensures Inv(s) ==> (Inv(ReleaseMsgs(s, keys)) <==> AllAnswered(s, keys))
    decreases |keys|
  {
    hide Inv, ReleaseMsg;
    if keys != [] {
      var k, rest := keys[0], keys[1..];
      assert forall i :: 0 <= i < |rest| ==> rest[i] == keys[i + 1];
      assert k !in rest && forall x :: x in keys <==> x == k || x in rest;
      var s1 := ReleaseMsg(s, k);
      ReleaseKeepsLoc(s, k);
      ReleaseMsgsExact(s1, rest);
      FreeFacts(s, k);
      AnsweredCons(s, s1, keys);
      if Inv(s) && Unanswered(s.w.msgs[k]) {
        UnansweredIsBooked(s, k);
        FreedUnanswered(ReleaseMsgs(s1, rest), k);
      }
    }
  }

  lemma AnsweredCons(s: State, s1: State, keys: seq<MsgKey>)
    requires keys != [] && SentKeys(s, keys) && s1.w.msgs == s.w.msgs - {keys[0]}
    ensures AllAnswered(s, keys) <==> !Unanswered(s.w.msgs[keys[0]]) && AllAnswered(s1, keys[1..])
  {
    var rest := keys[1..];
    assert forall i :: 0 <= i < |rest| ==> rest[i] == keys[i + 1];
    forall i | 0 <= i < |rest| ensures rest[i] in s1.w.msgs && s1.w.msgs[rest[i]] == s.w.msgs[keys[i + 1]] { }
    if AllAnswered(s1, rest) && !Unanswered(s.w.msgs[keys[0]]) {
      forall i | 0 <= i < |keys| ensures !Unanswered(s.w.msgs[keys[i]]) {
        if i > 0 { assert rest[i - 1] == keys[i]; }
      }
    }
  }

  lemma UnansweredIsBooked(s: State, k: MsgKey)
    requires Inv(s) && k in s.w.msgs && Unanswered(s.w.msgs[k])
    ensures k in s.b.loc
  {
    assert KeyAt(s, k);
  }

  /** Why it matters: when the answer to a request that was freed unanswered is in the
      handler's hands and its id has been given out again, the new message gets it. */
  lemma StaleAnswerIsMisdelivered(s: State, k: MsgKey)
    requires Inv(s) && k in s.w.msgs && Unanswered(s.w.msgs[k])
    requires s.w.handler.Some? && s.w.handler.value.rsp.key == k
    requires FirstFree(DoFree(s, k).w.table, s.w.msgs[k].msgid)
    ensures var s1 := DoAlloc(DoFree(s, k), s.w.msgs[k].msgid);
            var s2 := DoRecvSingle(s1);
            && s.w.nextKey != k && s.w.nextKey in s2.w.msgs
            && s2.w.msgs[s.w.nextKey].rxbuf.Some? && s2.w.msgs[s.w.nextKey].rxbuf.value.rsp.key == k
  {
    assert KeyAt(s, k) && Rest(s);
    hide Inv;
  }
}
