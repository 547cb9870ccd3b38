/** Runs of the message layer that take one message from its allocation to its answer, from any
    reachable state with a free send buffer and a posted receive buffer. */
module Exchange {
  import opened Wrappers
  import opened Transport
  import opened TransportRuns

  /** `run` leads from `s` to `s'`, and what every run keeps holds there. */
  ghost predicate Leads(s: State, run: seq<Step>, s': State) {
    Legal(s, run) && Run(s, run) == s' && Inv(s')
  }

  lemma {:induction false} RunSplit(s: State, a: seq<Step>, b: seq<Step>)
    requires Legal(s, a) && Legal(Run(s, a), b)
    ensures Legal(s, a + b) && Run(s, a + b) == Run(Run(s, a), b)
    decreases |a|
  {
    hide Apply, Enabled;
    if a == [] {
      assert a + b == b;
    } else {
      RunSplit(Apply(s, a[0]), a[1..], b);
      assert (a + b)[1..] == a[1..] + b;
    }
  }

  lemma Both(s: State, a: seq<Step>, s1: State, b: seq<Step>, s2: State)
    requires Leads(s, a, s1) && Leads(s1, b, s2)
    ensures Leads(s, a + b, s2)
  {
    hide Inv, Legal, Run;
    RunSplit(s, a, b);
  }

  lemma Start(s: State)
    requires Inv(s)
    ensures Leads(s, [], s)
  {
    hide Inv;
  }

  lemma Then(s: State, run: seq<Step>, s1: State, step: Step)
    requires Leads(s, run, s1) && Enabled(s1, step)
    ensures Leads(s, run + [step], Apply(s1, step))
  {
    StepKeeps(s1, step);
    hide Inv, Apply, Enabled;
    assert Run(s1, [step]) == Apply(s1, step) by { assert [step][1..] == []; }
    RunSplit(s, run, [step]);
  }

  // ---------------------------------------------------------------- a message and its buffer

  function Prepared(s: State, id: nat): State { DoGetTx(DoAlloc(s, id), s.w.nextKey, s.w.lastSbuf) }

  lemma Prepare(s: State, id: nat)
    requires Inv(s) && FirstFree(s.w.table, id) && s.w.lastSbuf < s.w.numBufs
    ensures Leads(s, [AllocMsg(id), GetTx(s.w.nextKey, s.w.lastSbuf)], Prepared(s, id))
  {
    hide Inv, Leads;
    var k, buf := s.w.nextKey, s.w.lastSbuf;
    Start(s);
    Then(s, [], s, AllocMsg(id));
    assert [] + [AllocMsg(id)] == [AllocMsg(id)];
    Then(s, [AllocMsg(id)], DoAlloc(s, id), GetTx(k, buf));
    assert [AllocMsg(id)] + [GetTx(k, buf)] == [AllocMsg(id), GetTx(k, buf)];
  }

  // ---------------------------------------------------------------- the request and its answer

  /** Message `k` is ready to be sent, the handler is idle and a receive buffer is posted. */
  ghost predicate Ready(s: State, k: MsgKey, rx: Buf) {
    && Inv(s) && k in s.w.msgs && s.w.msgs[k].pc.Filling? && s.w.msgs[k].txbuf.Some?
    && s.w.handler.None? && rx in s.w.rxPosted
  }

  function Request(s: State, k: MsgKey): Packet
    requires k in s.w.msgs
  {
    Packet(k, s.w.msgs[k].msgid)
  }

  lemma Send(s: State, k: MsgKey, rx: Buf)
    requires Ready(s, k, rx)
    ensures Leads(s, [SendTx(k)], DoSend(s, k))
    ensures DoSend(s, k).w == s.w.(msgs := s.w.msgs[k := s.w.msgs[k].(pc := Waiting)],
                                   txAvail := s.w.txAvail[s.w.msgs[k].txbuf.value := Request(s, k)])
  {
    TxHasRoom(s, k);
    hide Inv, Leads, TxRoom;
    Start(s);
    Then(s, [], s, SendTx(k));
    assert [] + [SendTx(k)] == [SendTx(k)];
  }

  /** The remote side reads the request at `tx` and answers it into `rx`; the handler takes it. */
  lemma Serve(s: State, p: Packet, tx: Buf, rx: Buf) returns (s': State)
    requires Inv(s) && tx in s.w.txAvail && s.w.txAvail[tx] == p && s.w.handler.None? && rx in s.w.rxPosted
    ensures Leads(s, [Take(tx), Answer(p, rx), RecvGet(rx)], s')
    ensures s'.w.handler == Some(Rx(rx, p)) && s'.w.msgs == s.w.msgs && s'.w.table == s.w.table
    ensures s'.w.nextKey == s.w.nextKey && s'.w.rxPosted == s.w.rxPosted - {rx}
    ensures s'.w.lastSbuf == s.w.lastSbuf && s'.w.numBufs == s.w.numBufs
  {
    hide Inv, Leads;
    var s1 := DoTake(s, tx);
    var s2 := DoAnswer(s1, p, rx);
    s' := DoRecvGet(s2, rx);
    Start(s);
    Then(s, [], s, Take(tx));
    assert [] + [Take(tx)] == [Take(tx)];
    Then(s, [Take(tx)], s1, Answer(p, rx));
    assert [Take(tx)] + [Answer(p, rx)] == [Take(tx), Answer(p, rx)];
    Then(s, [Take(tx), Answer(p, rx)], s2, RecvGet(rx));
    assert [Take(tx), Answer(p, rx)] + [RecvGet(rx)] == [Take(tx), Answer(p, rx), RecvGet(rx)];
  }

  /** What is left when the answer to message `k` has been taken by the handler. */
  ghost predicate PickedUp(s: State, s': State, k: MsgKey, rx: Buf)
    requires k in s.w.msgs
  {
    && s'.w.handler == Some(Rx(rx, Request(s, k)))
    && s'.w.msgs == s.w.msgs[k := s.w.msgs[k].(pc := Waiting)] && s'.w.table == s.w.table
    && s'.w.nextKey == s.w.nextKey && s'.w.rxPosted == s.w.rxPosted - {rx}
    && s'.w.lastSbuf == s.w.lastSbuf && s'.w.numBufs == s.w.numBufs
  }

  function Delivery(s: State, k: MsgKey, rx: Buf): seq<Step>
    requires k in s.w.msgs && s.w.msgs[k].txbuf.Some?
  {
    [SendTx(k)] + [Take(s.w.msgs[k].txbuf.value), Answer(Request(s, k), rx), RecvGet(rx)]
  }

  lemma Deliver(s: State, k: MsgKey, rx: Buf) returns (s': State)
    requires Ready(s, k, rx)
    ensures Leads(s, Delivery(s, k, rx), s') && PickedUp(s, s', k, rx)
  {
    Send(s, k, rx);
    var s1 := DoSend(s, k);
    assert Inv(s1);
    hide Inv, Leads, DoSend;
    var tx := s.w.msgs[k].txbuf.value;
    s' := Serve(s1, Request(s, k), tx, rx);
    Both(s, [SendTx(k)], s1, [Take(tx), Answer(Request(s, k), rx), RecvGet(rx)], s');
  }

  /** The message has its answer and its waiter is past the wait. */
  ghost predicate Answered(s: State, s': State, k: MsgKey, rx: Buf)
    requires k in s.w.msgs
  {
    && s'.w.handler.None? && s'.w.table == s.w.table && s'.w.nextKey == s.w.nextKey
    && s'.w.rxPosted == s.w.rxPosted - {rx}
    && s'.w.lastSbuf == s.w.lastSbuf && s'.w.numBufs == s.w.numBufs
    && s'.w.msgs == s.w.msgs[k := s.w.msgs[k].(pc := Passed, rxbuf := Some(Rx(rx, Request(s, k))), done := false)]
  }

  function WholeExchange(s: State, k: MsgKey, rx: Buf): seq<Step>
    requires k in s.w.msgs && s.w.msgs[k].txbuf.Some?
  {
    Delivery(s, k, rx) + [RecvSingle] + [Pass(k)]
  }

  /** From the request being filled to the end of the wait. */
  lemma Complete(s: State, k: MsgKey, rx: Buf) returns (s': State)
    requires Ready(s, k, rx)
    ensures Leads(s, WholeExchange(s, k, rx), s') && Answered(s, s', k, rx)
  {
    var s1 := Deliver(s, k, rx);
    var id := s.w.msgs[k].msgid;
    assert !s.w.msgs[k].done && id in s.w.table && s.w.table[id] == k by { assert KeyAt(s, k); }
    hide Inv, Leads, Delivery;
    s' := Finish(s, Delivery(s, k, rx), s1, k);
    var m := s.w.msgs[k];
    UpdatedTwice(s.w.msgs, k, m.(pc := Waiting), m.(pc := Passed, rxbuf := s1.w.handler, done := false));
  }

  lemma Finish(s: State, run: seq<Step>, s1: State, k: MsgKey) returns (s': State)
    requires Leads(s, run, s1) && k in s1.w.msgs && s1.w.msgs[k].pc.Waiting? && s1.w.handler.Some?
    requires s1.w.handler.value.rsp == Request(s1, k)
    requires s1.w.msgs[k].msgid in s1.w.table && s1.w.table[s1.w.msgs[k].msgid] == k
    ensures Leads(s, run + [RecvSingle] + [Pass(k)], s')
    ensures s'.w == s1.w.(
                      handler := None,
                      msgs := s1.w.msgs[k := s1.w.msgs[k].(pc := Passed, rxbuf := s1.w.handler, done := false)])
  {
    hide Inv, Leads;
    var s2 := DoRecvSingle(s1);
    Then(s, run, s1, RecvSingle);
    s' := DoPass(s2, k);
    Then(s, run + [RecvSingle], s2, Pass(k));
    var m := s1.w.msgs[k];
    UpdatedTwice(s1.w.msgs, k, m.(rxbuf := s1.w.handler, done := true),
                 m.(pc := Passed, rxbuf := s1.w.handler, done := false));
  }

  lemma UpdatedTwice<K, V>(m: map<K, V>, k: K, v: V, v': V)
    ensures m[k := v][k := v'] == m[k := v']
  {
  }

  /** Two messages are answered one after the other. */
  lemma CompleteBoth(s: State, k: MsgKey, rx: Buf, j: MsgKey, rx': Buf) returns (run: seq<Step>, s': State)
    requires Ready(s, k, rx) && Ready(s, j, rx') && k != j && rx != rx'
    ensures Leads(s, run, s')
    ensures k in s'.w.msgs && s'.w.msgs[k].pc.Passed? && j in s'.w.msgs && s'.w.msgs[j].pc.Passed?
  {
    var s1 := Complete(s, k, rx);
    assert Inv(s1);
    hide Inv, Leads, WholeExchange;
    s' := Complete(s1, j, rx');
    run := WholeExchange(s, k, rx) + WholeExchange(s1, j, rx');
    Both(s, WholeExchange(s, k, rx), s1, WholeExchange(s1, j, rx'), s');
  }

  /** Two messages are prepared on a device with two buffers each way. */
  lemma TwoMessages() returns (run: seq<Step>, s: State)
    ensures Leads(Init(2), run, s) && Ready(s, 0, 0) && Ready(s, 1, 1)
  {
    InitInv(2);
    var s1 := Prepared(Init(2), 0);
    Prepare(Init(2), 0);
    assert Inv(s1);
    hide Inv, Leads;
    assert s1.w.table == map[0 := 0] && s1.w.nextKey == 1 && s1.w.lastSbuf == 1 && s1.w.rxPosted == Range(2);
    Prepare(s1, 1);
    s := Prepared(s1, 1);
    run := [AllocMsg(0), GetTx(0, 0)] + [AllocMsg(1), GetTx(1, 1)];
    Both(Init(2), [AllocMsg(0), GetTx(0, 0)], s1, [AllocMsg(1), GetTx(1, 1)], s);
    LeadsInv(s1, [AllocMsg(1), GetTx(1, 1)], s);
  }

  lemma LeadsInv(s: State, run: seq<Step>, s': State)
    requires Leads(s, run, s')
    ensures Inv(s')
  {
    hide Inv;
  }

  /** A send buffer that the remote side has read and given back is used again: when no fresh one
      is left, a message that needs one can take it. */
  lemma ReadBufferIsReused(s: State, tx: Buf, k: MsgKey)
    requires Inv(s) && tx in s.w.txAvail && s.w.lastSbuf == s.w.numBufs
    requires k in s.w.msgs && s.w.msgs[k].pc.Filling? && s.w.msgs[k].txbuf.None?
    ensures Enabled(s, Take(tx)) && Enabled(DoTake(s, tx), GiveBack(tx))
    ensures var s' := Apply(DoTake(s, tx), GiveBack(tx));
            && Enabled(s', GetTx(k, tx)) && tx !in s'.w.txAvail && tx !in s'.w.txTaken
            && Apply(s', GetTx(k, tx)).w.msgs[k].txbuf == Some(tx)
  {
    hide Inv;
  }

  // ---------------------------------------------------------------- the stale answer is reached

  /** The state from which a stale answer is misdelivered is reached: on a device with one buffer
      each way a message is sent, taken, answered and picked up; then it is freed unanswered,
      as file release does, its id is given out again, and the new message gets the answer. */
  lemma StaleAnswerIsReached() returns (s: State)
    ensures Leads(Init(1), [AllocMsg(0), GetTx(0, 0), SendTx(0), Take(0), Answer(Packet(0, 0), 0), RecvGet(0)], s)
    ensures 0 in s.w.msgs && Unanswered(s.w.msgs[0]) && s.w.handler.Some?
    ensures var s' := DoRecvSingle(DoAlloc(DoFree(s, 0), 0));
            1 in s'.w.msgs && s'.w.msgs[1].rxbuf.Some? && s'.w.msgs[1].rxbuf.value.rsp.key == 0
  {
    FirstMessage();
    var s0 := Prepared(Init(1), 0);
    hide Inv, Leads, Prepared;
    s := Deliver(s0, 0, 0);
    LeadsInv(s0, Delivery(s0, 0, 0), s);
    Both(Init(1), [AllocMsg(0), GetTx(0, 0)], s0, Delivery(s0, 0, 0), s);
    assert [AllocMsg(0), GetTx(0, 0)] + Delivery(s0, 0, 0)
        == [AllocMsg(0), GetTx(0, 0), SendTx(0), Take(0), Answer(Packet(0, 0), 0), RecvGet(0)];
    IdIsFree(s);
    StaleAnswerIsMisdelivered(s, 0);
  }

  lemma FirstMessage()
    ensures var s := Prepared(Init(1), 0);
            && Leads(Init(1), [AllocMsg(0), GetTx(0, 0)], s) && Ready(s, 0, 0) && s.w.nextKey == 1
            && s.w.msgs == map[0 := Msg(0, Some(0), None, false, Filling)] && s.w.table == map[0 := 0]
  {
    InitInv(1);
    Prepare(Init(1), 0);
    assert Inv(Prepared(Init(1), 0));
    hide Inv, Leads;
  }

  lemma IdIsFree(s: State)
    requires 0 in s.w.msgs && s.w.msgs[0].msgid == 0 && s.w.table == map[0 := 0]
    ensures FirstFree(DoFree(s, 0).w.table, 0)
  {
    assert DoFree(s, 0).w.table == map[];
  }
}
