/** The message layer shared by all files: the 256-entry message table, the send and receive
    virtqueues with their buffers, and the remote side. Every lock-protected section of any
    thread, of the receive interrupt and of the remote side is one step, so a run is an
    arbitrary interleaving. */
module Transport {
  import opened Wrappers

  const FASTRPC_MSG_MAX := 256

  /** Identity of a `struct virt_fastrpc_msg`; never reused. */
  type MsgKey = nat
  type Buf = nat

  /** A request or response as it lies in a buffer: the id in its header, and the message
      object it belongs to (known to the proof, not to the code). */
  datatype Packet = Packet(key: MsgKey, msgid: nat)

  /** Where the thread that owns the message stands: writing the request, waiting for the
      completion (also while interrupted and resumed), past the wait, or done with the
      receive buffer. */
  datatype Pc = Filling | Waiting | Passed | Reposted

  datatype Rx = Rx(buf: Buf, rsp: Packet)

  datatype Msg = Msg(msgid: nat, txbuf: Option<Buf>, rxbuf: Option<Rx>, done: bool, pc: Pc)

  /** The driver's tables, the rings and the remote side. In the send ring a buffer is
      available to the remote side, taken by it, or used and waiting to be recycled; in the
      receive ring it is posted, or used and waiting for the interrupt handler. */
  datatype World = World(
    numBufs: nat,
    table: map<nat, MsgKey>, msgs: map<MsgKey, Msg>, nextKey: MsgKey,
    lastSbuf: nat, txAvail: map<Buf, Packet>, txTaken: set<Buf>, txUsed: set<Buf>,
    atBackend: set<Packet>,
    rxPosted: set<Buf>, rxUsed: map<Buf, Packet>, handler: Option<Rx>)

  /** Where an unanswered request is. */
  datatype Loc = AtRing(buf: Buf) | AtBackend | AtUsed(buf: Buf) | AtHandler

  /** Bookkeeping for the proof: the place of each unanswered request, the message that
      fills a send buffer, the message that holds a receive buffer, and the buffers that a
      failed request or a rejected response never gave back. */
  datatype Books = Books(
    loc: map<MsgKey, Loc>, filling: map<Buf, MsgKey>, holding: map<Buf, MsgKey>,
    txLost: set<Buf>, rxLost: set<Buf>)

  datatype State = State(w: World, b: Books)

  function Range(n: nat): (r: set<nat>)
    ensures forall i: nat :: i in r <==> i < n
    ensures |r| == n
  {
    if n == 0 then {} else Range(n - 1) + {n - 1}
  }

  function Init(numBufs: nat): State {
    State(World(numBufs, map[], map[], 0, 0, map[], {}, {}, {}, Range(numBufs), map[], None),
          Books(map[], map[], map[], {}, {}))
  }

  datatype Step =
    | AllocMsg(id: nat)                    // virt_alloc_msg, the table search
    | GetTx(k: MsgKey, buf: Buf)           // get_a_tx_buf
    | SendTx(k: MsgKey)                    // vfastrpc_txbuf_send
    | FreeMsg(k: MsgKey)                   // virt_free_msg
    | Take(buf: Buf)                       // remote side reads a request
    | GiveBack(buf: Buf)                   // remote side returns its send buffer
    | Answer(req: Packet, buf: Buf)        // remote side writes a response
    | RecvGet(buf: Buf)                    // recv_done takes a used buffer
    | RecvSingle                           // recv_single
    | Pass(k: MsgKey)                      // the wait for the completion returns
    | Repost(k: MsgKey)                    // vfastrpc_rxbuf_send

  /** The first free entry, as the search in `virt_alloc_msg` finds it. */
  predicate FirstFree(table: map<nat, MsgKey>, id: nat) {
    id < FASTRPC_MSG_MAX && id !in table && forall j: nat :: j < id ==> j in table
  }

  /** Room in a ring of `n` descriptors: buffers count until the driver takes them back. */
  predicate TxRoom(w: World) { |w.txAvail.Keys| + |w.txTaken| + |w.txUsed| < w.numBufs }

  predicate RxRoom(w: World) { |w.rxPosted| + |w.rxUsed.Keys| < w.numBufs }

  /** Every command ends with "repost the response if there is one, free the message": so its
      owner gets to the free without having sent, after reposting, or when the test for a
      response fails. (Freeing a message whose request is unanswered happens only when a file
      is released.) */
  predicate MayFree(m: Msg) { m.pc.Filling? || m.pc.Reposted? || (m.pc.Passed? && m.rxbuf.None?) }

  predicate Enabled(s: State, step: Step) {
    var w := s.w;
    match step
    case AllocMsg(id) => FirstFree(w.table, id)
    case GetTx(k, buf) =>
      && k in w.msgs && w.msgs[k].pc.Filling? && w.msgs[k].txbuf.None?
      && if w.lastSbuf < w.numBufs then buf == w.lastSbuf else buf in w.txUsed
    case SendTx(k) => k in w.msgs && w.msgs[k].pc.Filling? && w.msgs[k].txbuf.Some?
    case FreeMsg(k) => k in w.msgs && MayFree(w.msgs[k])
    case Take(buf) => buf in w.txAvail
    case GiveBack(buf) => buf in w.txTaken
    case Answer(req, buf) => req in w.atBackend && buf in w.rxPosted
    case RecvGet(buf) => w.handler.None? && buf in w.rxUsed
    case RecvSingle => w.handler.Some?
    case Pass(k) => k in w.msgs && w.msgs[k].pc.Waiting? && w.msgs[k].done
    case Repost(k) => k in w.msgs && w.msgs[k].pc.Passed? && w.msgs[k].rxbuf.Some?
  }

  function SetMsg(w: World, k: MsgKey, m: Msg): World { w.(msgs := w.msgs[k := m]) }

  function DoAlloc(s: State, id: nat): State {
    var w := s.w;
    s.(w := w.(table := w.table[id := w.nextKey], nextKey := w.nextKey + 1,
               msgs := w.msgs[w.nextKey := Msg(id, None, None, false, Filling)]))
  }

  function DoGetTx(s: State, k: MsgKey, buf: Buf): State
    requires k in s.w.msgs
  {
    var w := SetMsg(s.w, k, s.w.msgs[k].(txbuf := Some(buf)));
    State(if w.lastSbuf < w.numBufs then w.(lastSbuf := w.lastSbuf + 1) else w.(txUsed := w.txUsed - {buf}),
          s.b.(filling := s.b.filling[buf := k]))
  }

  /** A full ring makes `vfastrpc_txbuf_send` fail and changes nothing. */
  function DoSend(s: State, k: MsgKey): State
    requires k in s.w.msgs && s.w.msgs[k].txbuf.Some?
  {
    var m := s.w.msgs[k];
    var buf := m.txbuf.value;
    if !TxRoom(s.w) then s
    else State(SetMsg(s.w, k, m.(pc := Waiting)).(txAvail := s.w.txAvail[buf := Packet(k, m.msgid)]),
               s.b.(loc := s.b.loc[k := AtRing(buf)], filling := s.b.filling - {buf}))
  }

  function DoFree(s: State, k: MsgKey): State
    requires k in s.w.msgs
  {
    var m := s.w.msgs[k];
    var table := if m.msgid in s.w.table && s.w.table[m.msgid] == k then s.w.table - {m.msgid} else s.w.table;
    State(s.w.(table := table, msgs := s.w.msgs - {k}),
          if m.pc.Filling? && m.txbuf.Some?
          then s.b.(filling := s.b.filling - {m.txbuf.value}, txLost := s.b.txLost + {m.txbuf.value})
          else s.b)
  }

  function DoTake(s: State, buf: Buf): State
    requires buf in s.w.txAvail
  {
    var p := s.w.txAvail[buf];
    State(s.w.(txAvail := s.w.txAvail - {buf}, txTaken := s.w.txTaken + {buf}, atBackend := s.w.atBackend + {p}),
          s.b.(loc := s.b.loc[p.key := AtBackend]))
  }

  function DoGiveBack(s: State, buf: Buf): State {
    s.(w := s.w.(txTaken := s.w.txTaken - {buf}, txUsed := s.w.txUsed + {buf}))
  }

  function DoAnswer(s: State, req: Packet, buf: Buf): State {
    State(s.w.(atBackend := s.w.atBackend - {req}, rxPosted := s.w.rxPosted - {buf},
               rxUsed := s.w.rxUsed[buf := req]),
          s.b.(loc := s.b.loc[req.key := AtUsed(buf)]))
  }

  function DoRecvGet(s: State, buf: Buf): State
    requires buf in s.w.rxUsed
  {
    var p := s.w.rxUsed[buf];
    State(s.w.(rxUsed := s.w.rxUsed - {buf}, handler := Some(Rx(buf, p))),
          s.b.(loc := s.b.loc[p.key := AtHandler]))
  }

  /** The handler looks the id up in the table; a response for a free entry is rejected and
      its buffer is not reposted. */
  function DoRecvSingle(s: State): State
    requires s.w.handler.Some?
  {
    var h := s.w.handler.value;
    var id := h.rsp.msgid;
    var w := s.w.(handler := None);
    if id in w.table && w.table[id] in w.msgs then
      var k := w.table[id];
      State(SetMsg(w, k, w.msgs[k].(rxbuf := Some(h), done := true)),
            s.b.(loc := s.b.loc - {h.rsp.key}, holding := s.b.holding[h.buf := k]))
    else State(w, s.b.(loc := s.b.loc - {h.rsp.key}, rxLost := s.b.rxLost + {h.buf}))
  }

  function DoPass(s: State, k: MsgKey): State
    requires k in s.w.msgs
  {
    s.(w := SetMsg(s.w, k, s.w.msgs[k].(pc := Passed, done := false)))
  }

  /** A full ring makes `vfastrpc_rxbuf_send` drop the buffer. */
  function DoRepost(s: State, k: MsgKey): State
    requires k in s.w.msgs && s.w.msgs[k].rxbuf.Some?
  {
    var buf := s.w.msgs[k].rxbuf.value.buf;
    var w := SetMsg(s.w, k, s.w.msgs[k].(pc := Reposted));
    var b := s.b.(holding := s.b.holding - {buf});
    if RxRoom(s.w) then State(w.(rxPosted := w.rxPosted + {buf}), b)
    else State(w, b.(rxLost := b.rxLost + {buf}))
  }

  function Apply(s: State, step: Step): State
    requires Enabled(s, step)
  {
    match step
    case AllocMsg(id) => DoAlloc(s, id)
    case GetTx(k, buf) => DoGetTx(s, k, buf)
    case SendTx(k) => DoSend(s, k)
    case FreeMsg(k) => DoFree(s, k)
    case Take(buf) => DoTake(s, buf)
    case GiveBack(buf) => DoGiveBack(s, buf)
    case Answer(req, buf) => DoAnswer(s, req, buf)
    case RecvGet(buf) => DoRecvGet(s, buf)
    case RecvSingle => DoRecvSingle(s)
    case Pass(k) => DoPass(s, k)
    case Repost(k) => DoRepost(s, k)
  }

  // ---------------------------------------------------------------- invariants

  predicate Unanswered(m: Msg) { m.pc.Waiting? && m.rxbuf.None? }

  /** The packet lies where the books say. */
  ghost predicate LiesAt(w: World, p: Packet, l: Loc) {
    match l
    case AtRing(buf) => buf in w.txAvail && w.txAvail[buf] == p
    case AtBackend => p in w.atBackend
    case AtUsed(buf) => buf in w.rxUsed && w.rxUsed[buf] == p
    case AtHandler => w.handler.Some? && w.handler.value.rsp == p
  }

  /** The fields of a message fit the place where its owner stands; a stored response
      answers this very message. */
  ghost predicate MsgOk(k: MsgKey, m: Msg) {
    && (m.rxbuf.Some? ==> m.rxbuf.value.rsp == Packet(k, m.msgid))
    && (m.pc.Filling? ==> m.rxbuf.None?)
    && (m.pc.Waiting? ==> m.txbuf.Some? && (m.done <==> m.rxbuf.Some?))
    && (!m.pc.Waiting? ==> !m.done)
    && (m.pc.Passed? || m.pc.Reposted? ==> m.rxbuf.Some?)
  }

  /** A message: listed in the table under its id; an unanswered one has its request in
      exactly the place recorded; its send buffer while filling and its receive buffer
      while holding are booked to it. */
  ghost predicate KeyAt(s: State, k: MsgKey) {
    && (k in s.w.msgs ==>
          var m := s.w.msgs[k];
          && k < s.w.nextKey && m.msgid in s.w.table && s.w.table[m.msgid] == k && MsgOk(k, m)
          && (Unanswered(m) ==> k in s.b.loc && LiesAt(s.w, Packet(k, m.msgid), s.b.loc[k]))
          && (m.pc.Filling? && m.txbuf.Some? ==>
                m.txbuf.value in s.b.filling && s.b.filling[m.txbuf.value] == k)
          && (m.rxbuf.Some? && !m.pc.Reposted? ==>
                m.rxbuf.value.buf in s.b.holding && s.b.holding[m.rxbuf.value.buf] == k))
    && (k in s.b.loc ==> k in s.w.msgs && Unanswered(s.w.msgs[k]))
  }

  ghost predicate TableAt(s: State, i: nat) {
    i in s.w.table ==>
      i < FASTRPC_MSG_MAX && s.w.table[i] in s.w.msgs && s.w.msgs[s.w.table[i]].msgid == i
  }

  /** The packet belongs to an unanswered message, bears its id, and lies only there. */
  ghost predicate Owned(s: State, p: Packet, l: Loc) {
    && p.key in s.b.loc && s.b.loc[p.key] == l
    && p.key in s.w.msgs && s.w.msgs[p.key].msgid == p.msgid
  }

  function Bit(b: bool): nat { if b then 1 else 0 }

  /** In how many of its possible places a send buffer is. */
  function TxPlaces(s: State, buf: Buf): nat {
    Bit(s.w.lastSbuf <= buf < s.w.numBufs) + Bit(buf in s.b.filling) + Bit(buf in s.w.txAvail)
    + Bit(buf in s.w.txTaken) + Bit(buf in s.w.txUsed) + Bit(buf in s.b.txLost)
  }

  /** A send buffer has exactly one place; a filled one is filled by the booked message. */
  ghost predicate TxAt(s: State, buf: Buf) {
    && TxPlaces(s, buf) == Bit(buf < s.w.numBufs)
    && (buf in s.b.filling ==>
          && s.b.filling[buf] in s.w.msgs
          && s.w.msgs[s.b.filling[buf]].pc.Filling? && s.w.msgs[s.b.filling[buf]].txbuf == Some(buf))
    && (buf in s.w.txAvail ==> Owned(s, s.w.txAvail[buf], AtRing(buf)))
  }

  /** In how many of its possible places a receive buffer is. */
  function RxPlaces(s: State, buf: Buf): nat {
    Bit(buf in s.w.rxPosted) + Bit(buf in s.w.rxUsed)
    + Bit(s.w.handler.Some? && s.w.handler.value.buf == buf) + Bit(buf in s.b.holding)
  }

  /** A receive buffer has exactly one place; a held one is held by the booked message. */
  ghost predicate RxAt(s: State, buf: Buf) {
    && RxPlaces(s, buf) == Bit(buf < s.w.numBufs)
    && (buf in s.b.holding ==>
          && s.b.holding[buf] in s.w.msgs && !s.w.msgs[s.b.holding[buf]].pc.Reposted?
          && s.w.msgs[s.b.holding[buf]].rxbuf.Some?
          && s.w.msgs[s.b.holding[buf]].rxbuf.value.buf == buf)
    && (buf in s.w.rxUsed ==> Owned(s, s.w.rxUsed[buf], AtUsed(buf)))
  }

  ghost predicate BackendAt(s: State, p: Packet) {
    p in s.w.atBackend ==> Owned(s, p, AtBackend)
  }

  ghost predicate Rest(s: State) {
    && s.w.lastSbuf <= s.w.numBufs && s.b.rxLost == {}
    && (s.w.handler.Some? ==> Owned(s, s.w.handler.value.rsp, AtHandler))
  }

  ghost predicate Inv(s: State) {
    && Rest(s)
    && (forall k: MsgKey :: KeyAt(s, k)) && (forall i: nat :: TableAt(s, i))
    && (forall buf: Buf :: TxAt(s, buf)) && (forall buf: Buf :: RxAt(s, buf))
    && (forall p: Packet :: BackendAt(s, p))
  }

  lemma InitInv(numBufs: nat)
    ensures Inv(Init(numBufs))
  {
  }

  // ---------------------------------------------------------------- room in the rings

  lemma {:induction false} SubsetSize(a: set<nat>, n: nat)
    requires forall x :: x in a ==> x < n
    ensures |a| <= n
  {
    if n == 0 {
      assert a == {};
    } else {
      SubsetSize(a - {n - 1}, n - 1);
    }
  }

  /** Pairwise disjoint sets of buffers, and one buffer in none of them, leave room. */
  lemma LeavesRoom(a: set<nat>, b: set<nat>, c: set<nat>, x: nat, n: nat)
    requires a !! b && a !! c && b !! c && x !in a && x !in b && x !in c && x < n
    requires forall y :: y in a + b + c ==> y < n
    ensures |a| + |b| + |c| < n
  {
    assert |a + b + c| == |a| + |b| + |c|;
    SubsetSize(a + b + c + {x}, n);
  }

  /** Sending never fails for lack of room. */
  lemma TxHasRoom(s: State, k: MsgKey)
    requires Inv(s) && k in s.w.msgs && s.w.msgs[k].pc.Filling? && s.w.msgs[k].txbuf.Some?
    ensures TxRoom(s.w)
  {
    var buf := s.w.msgs[k].txbuf.value;
    var a, b, c := s.w.txAvail.Keys, s.w.txTaken, s.w.txUsed;
    forall y: Buf ensures Bit(y in a) + Bit(y in b) + Bit(y in c) + Bit(y in s.b.filling) <= Bit(y < s.w.numBufs) {
      assert TxAt(s, y);
    }
    assert KeyAt(s, k);
    hide Inv, TxAt, KeyAt;
    LeavesRoom(a, b, c, buf, s.w.numBufs);
  }

  /** Reposting never fails for lack of room. */
  lemma RxHasRoom(s: State, k: MsgKey)
    requires Inv(s) && k in s.w.msgs && s.w.msgs[k].rxbuf.Some? && !s.w.msgs[k].pc.Reposted?
    ensures RxRoom(s.w)
  {
    var buf := s.w.msgs[k].rxbuf.value.buf;
    var a, b := s.w.rxPosted, s.w.rxUsed.Keys;
    forall y: Buf ensures Bit(y in a) + Bit(y in b) + Bit(y in s.b.holding) <= Bit(y < s.w.numBufs) {
      assert RxAt(s, y);
    }
    assert KeyAt(s, k);
    hide Inv, RxAt, KeyAt;
    LeavesRoom(a, b, {}, buf, s.w.numBufs);
  }

  // ---------------------------------------------------------------- preservation

  /** What a step uses of the invariant besides the place that is looked at. */
  ghost predicate Support(s: State, step: Step) {
    && Rest(s) && KeyAt(s, s.w.nextKey)
    && match step
       case AllocMsg(id) => id !in s.w.table && id < FASTRPC_MSG_MAX
       case GetTx(k, buf) => KeyAt(s, k) && TxAt(s, buf)
       case SendTx(k) => KeyAt(s, k) && (k in s.w.msgs && s.w.msgs[k].txbuf.Some? ==> TxAt(s, s.w.msgs[k].txbuf.value))
       case FreeMsg(k) => KeyAt(s, k)
       case Take(buf) => TxAt(s, buf) && (buf in s.w.txAvail ==> KeyAt(s, s.w.txAvail[buf].key))
       case GiveBack(buf) => TxAt(s, buf)
       case Answer(req, buf) => BackendAt(s, req) && KeyAt(s, req.key) && RxAt(s, buf)
       case RecvGet(buf) => RxAt(s, buf) && (buf in s.w.rxUsed ==> KeyAt(s, s.w.rxUsed[buf].key))
       case RecvSingle => s.w.handler.Some? ==> KeyAt(s, s.w.handler.value.rsp.key) && RxAt(s, s.w.handler.value.buf)
       case Pass(k) => KeyAt(s, k)
       case Repost(k) => KeyAt(s, k) && RxRoom(s.w)
  }

  predicate ByOwner(step: Step) { Preparing(step) || Handing(step) }

  predicate Preparing(step: Step) { step.AllocMsg? || step.GetTx? }

  predicate Handing(step: Step) { step.SendTx? || step.FreeMsg? }

  predicate ByDevice(step: Step) { step.Take? || step.GiveBack? || step.Answer? }

  predicate OnReturn(step: Step) { step.RecvGet? || step.RecvSingle? || step.Pass? || step.Repost? }

  lemma KeyKeptPreparing(s: State, step: Step, k: MsgKey)
    requires Enabled(s, step) && Support(s, step) && KeyAt(s, k)
    requires Preparing(step)
    ensures KeyAt(Apply(s, step), k)
  {
    hide TxRoom, RxRoom, FirstFree;
  }

  lemma KeyKeptHanding(s: State, step: Step, k: MsgKey)
    requires Enabled(s, step) && Support(s, step) && KeyAt(s, k)
    requires Handing(step)
    ensures KeyAt(Apply(s, step), k)
  {
    hide TxRoom, RxRoom, FirstFree;
  }

  lemma KeyKeptByDevice(s: State, step: Step, k: MsgKey)
    requires Enabled(s, step) && Support(s, step) && KeyAt(s, k)
    requires ByDevice(step)
    ensures KeyAt(Apply(s, step), k)
  {
    hide TxRoom, RxRoom, FirstFree;
  }

  lemma KeyKeptOnReturn(s: State, step: Step, k: MsgKey)
    requires Enabled(s, step) && Support(s, step) && KeyAt(s, k)
    requires OnReturn(step)
    ensures KeyAt(Apply(s, step), k)
  {
    hide TxRoom, RxRoom, FirstFree;
  }

  lemma KeyKept(s: State, step: Step, k: MsgKey)
    requires Enabled(s, step) && Support(s, step) && KeyAt(s, k)
    ensures KeyAt(Apply(s, step), k)
  {
    hide Apply, Enabled, Support, KeyAt, TxAt, RxAt;
    if Preparing(step) { KeyKeptPreparing(s, step, k); }
    else if Handing(step) { KeyKeptHanding(s, step, k); }
    else if ByDevice(step) { KeyKeptByDevice(s, step, k); }
    else { KeyKeptOnReturn(s, step, k); }
  }

  lemma TableKept(s: State, step: Step, i: nat)
    requires Enabled(s, step) && Support(s, step) && TableAt(s, i)
    ensures TableAt(Apply(s, step), i)
  {
    hide TxRoom, RxRoom, FirstFree, TxPlaces, RxPlaces;
  }

  lemma TxKeptPreparing(s: State, step: Step, buf: Buf)
    requires Enabled(s, step) && Support(s, step) && TxAt(s, buf)
    requires buf in s.w.txAvail ==> KeyAt(s, s.w.txAvail[buf].key)
    requires Preparing(step)
    ensures TxAt(Apply(s, step), buf)
  {
    hide TxRoom, RxRoom, FirstFree, RxPlaces;
  }

  lemma TxKeptHanding(s: State, step: Step, buf: Buf)
    requires Enabled(s, step) && Support(s, step) && TxAt(s, buf)
    requires buf in s.w.txAvail ==> KeyAt(s, s.w.txAvail[buf].key)
    requires Handing(step)
    ensures TxAt(Apply(s, step), buf)
  {
    hide TxRoom, RxRoom, FirstFree, RxPlaces;
  }

  lemma TxKeptByDevice(s: State, step: Step, buf: Buf)
    requires Enabled(s, step) && Support(s, step) && TxAt(s, buf)
    requires buf in s.w.txAvail ==> KeyAt(s, s.w.txAvail[buf].key)
    requires ByDevice(step)
    ensures TxAt(Apply(s, step), buf)
  {
    hide TxRoom, RxRoom, FirstFree, RxPlaces;
  }

  lemma TxKeptOnReturn(s: State, step: Step, buf: Buf)
    requires Enabled(s, step) && Support(s, step) && TxAt(s, buf)
    requires buf in s.w.txAvail ==> KeyAt(s, s.w.txAvail[buf].key)
    requires OnReturn(step)
    ensures TxAt(Apply(s, step), buf)
  {
    hide TxRoom, RxRoom, FirstFree, RxPlaces;
  }

  lemma TxKept(s: State, step: Step, buf: Buf)
    requires Enabled(s, step) && Support(s, step) && TxAt(s, buf)
    requires buf in s.w.txAvail ==> KeyAt(s, s.w.txAvail[buf].key)
    ensures TxAt(Apply(s, step), buf)
  {
    hide Apply, Enabled, Support, KeyAt, TxAt, RxAt;
    if Preparing(step) { TxKeptPreparing(s, step, buf); }
    else if Handing(step) { TxKeptHanding(s, step, buf); }
    else if ByDevice(step) { TxKeptByDevice(s, step, buf); }
    else { TxKeptOnReturn(s, step, buf); }
  }

  lemma RxKeptByOwner(s: State, step: Step, buf: Buf)
    requires Enabled(s, step) && Support(s, step) && RxAt(s, buf)
    requires buf in s.w.rxUsed ==> KeyAt(s, s.w.rxUsed[buf].key)
    requires ByOwner(step)
    ensures RxAt(Apply(s, step), buf)
  {
    hide TxRoom, RxRoom, FirstFree, TxPlaces;
  }

  lemma RxKeptByDevice(s: State, step: Step, buf: Buf)
    requires Enabled(s, step) && Support(s, step) && RxAt(s, buf)
    requires buf in s.w.rxUsed ==> KeyAt(s, s.w.rxUsed[buf].key)
    requires ByDevice(step)
    ensures RxAt(Apply(s, step), buf)
  {
    hide TxRoom, RxRoom, FirstFree, TxPlaces;
  }

  lemma RxKeptOnReturn(s: State, step: Step, buf: Buf)
    requires Enabled(s, step) && Support(s, step) && RxAt(s, buf)
    requires buf in s.w.rxUsed ==> KeyAt(s, s.w.rxUsed[buf].key)
    requires OnReturn(step)
    ensures RxAt(Apply(s, step), buf)
  {
    hide TxRoom, RxRoom, FirstFree, TxPlaces;
  }

  lemma RxKept(s: State, step: Step, buf: Buf)
    requires Enabled(s, step) && Support(s, step) && RxAt(s, buf)
    requires buf in s.w.rxUsed ==> KeyAt(s, s.w.rxUsed[buf].key)
    ensures RxAt(Apply(s, step), buf)
  {
    hide Apply, Enabled, Support, KeyAt, TxAt, RxAt;
    if ByOwner(step) { RxKeptByOwner(s, step, buf); }
    else if ByDevice(step) { RxKeptByDevice(s, step, buf); }
    else { RxKeptOnReturn(s, step, buf); }
  }

  lemma BackendKept(s: State, step: Step, p: Packet)
    requires Enabled(s, step) && Support(s, step) && BackendAt(s, p)
    requires p in s.w.atBackend ==> KeyAt(s, p.key)
    ensures BackendAt(Apply(s, step), p)
  {
    hide TxRoom, RxRoom, FirstFree, TxPlaces, RxPlaces;
  }

  lemma RestKept(s: State, step: Step)
    requires Enabled(s, step) && Support(s, step)
    requires s.w.handler.Some? ==> KeyAt(s, s.w.handler.value.rsp.key)
    ensures Rest(Apply(s, step))
  {
    hide TxRoom, RxRoom, FirstFree, TxPlaces, RxPlaces;
  }

  lemma HasSupport(s: State, step: Step)
    requires Inv(s) && Enabled(s, step)
    ensures Support(s, step)
  {
    if step.Repost? { RxHasRoom(s, step.k); }
    hide KeyAt, TxAt, RxAt, TableAt, BackendAt, RxRoom;
  }

  lemma StepKeeps(s: State, step: Step)
    requires Inv(s) && Enabled(s, step)
    ensures Inv(Apply(s, step))
  {
    HasSupport(s, step);
    var s' := Apply(s, step);
    hide Apply, Enabled, Support, KeyAt, TxAt, RxAt, TableAt, BackendAt, Rest;
    RestKept(s, step);
    forall k: MsgKey ensures KeyAt(s', k) { KeyKept(s, step, k); }
    forall i: nat ensures TableAt(s', i) { TableKept(s, step, i); }
    forall buf: Buf ensures TxAt(s', buf) { TxKept(s, step, buf); }
    forall buf: Buf ensures RxAt(s', buf) { RxKept(s, step, buf); }
    forall p: Packet ensures BackendAt(s', p) { BackendKept(s, step, p); }
  }
}
