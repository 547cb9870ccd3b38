/** Invocations of one file on top of the message layer: contexts, interrupted waits and
    their resumption, and the queue of completed asynchronous jobs. Other files and other
    commands share the message layer and may take any step on messages of their own. */
module Invoke {
  import opened Lists
  import opened Wrappers
  import T = Transport

  type CtxId = nat
  type Pid = nat

  /** Where an invocation stands: before its request is sent, sent and not past its wait, or
      past it (`put_args` and `context_free`). */
  datatype Stage = Setup | Sent | Ending

  /** `struct vfastrpc_invoke_ctx`: `pid` is the thread that created it, `worker` the thread
      that works on it now, `interrupted` its membership in the interrupted list. */
  datatype Ctx = Ctx(
    pid: Pid, sc: nat, seqNum: nat, isAsync: bool, msg: Option<T.MsgKey>,
    stage: Stage, interrupted: bool, worker: Option<Pid>)

  /** Sequence numbers: the next one, the context each was given to, and those sent. */
  datatype Numbers = Numbers(next: nat, owner: map<nat, CtxId>, sent: multiset<nat>)

  /** The async queue and its job count; the jobs completed and delivered so far are known to
      the proof only. */
  datatype Async = Async(queue: seq<CtxId>, jobs: int, completed: seq<CtxId>, delivered: seq<CtxId>)

  /** What the threads do: the context each works on, the live synchronous context of each,
      the threads that sleep on the job count (`waiters`), and those that have seen it
      positive and have not yet taken `aqlock` (`woken`). */
  datatype Threads = Threads(at: map<Pid, CtxId>, syncOf: map<Pid, CtxId>, waiters: set<Pid>, woken: set<Pid>)

  /** `owner` is the context of each message (`msg->ctx`). */
  datatype State = State(
    t: T.State, ctxs: map<CtxId, Ctx>, nextCtx: CtxId, owner: map<T.MsgKey, CtxId>,
    n: Numbers, a: Async, p: Threads)

  function Init(numBufs: nat): State {
    State(T.Init(numBufs), map[], 0, map[], Numbers(0, map[], multiset{}), Async([], 0, [], []),
          Threads(map[], map[], {}, {}))
  }

  datatype Step =
    | Begin(pid: Pid, sc: nat, isAsync: bool)       // a new context is allocated
    | Resume(pid: Pid, sc: nat, c: CtxId)           // context_restore_interrupted finds it
    | Refuse(pid: Pid, sc: nat, c: CtxId)           // ... but the scalars differ
    | AttachMsg(c: CtxId, id: nat)                  // get_args allocates the message
    | AttachTx(c: CtxId, buf: T.Buf)
    | Send(c: CtxId)                                // virt_fastrpc_invoke
    | Abort(c: CtxId)                               // failure before sending
    | Interrupt(c: CtxId)                           // context_save_interrupted
    | Receive                                       // recv_single
    | Wake(c: CtxId)                                // the completion is taken
    | WaitJob(pid: Pid)                             // vfastrpc_wait_on_async_queue: sleep
    | WakeJob(pid: Pid)                             // ... the count is read, without the lock
    | SignalJob(pid: Pid)                           // ... the sleep is interrupted
    | Dequeue(pid: Pid)                             // ... under the lock; may find nothing
    | Repost(c: CtxId)                              // context_free: receive buffer
    | Finish(c: CtxId)                              // context_free: message and context
    | Other(step: T.Step)                           // other files and commands, remote side

  predicate Has(s: State, c: CtxId, stage: Stage) { c in s.ctxs && s.ctxs[c].stage == stage }

  predicate HasMsg(s: State, c: CtxId, stage: Stage) { Has(s, c, stage) && s.ctxs[c].msg.Some? }

  /** A thread that is in no call. */
  predicate Idle(s: State, pid: Pid) { pid !in s.p.at && pid !in s.p.waiters && pid !in s.p.woken }

  /** Steps of others do not touch messages of this file, except through the receive
      handler, which is `Receive`. */
  predicate Foreign(s: State, step: T.Step) {
    match step
    case GetTx(k, _) => k !in s.owner
    case SendTx(k) => k !in s.owner
    case FreeMsg(k) => k !in s.owner
    case Pass(k) => k !in s.owner
    case Repost(k) => k !in s.owner
    case RecvSingle => false
    case _ => true
  }

  /** The step of the message layer that a step takes, if any. */
  function Inner(s: State, step: Step): Option<T.Step> {
    match step
    case AttachMsg(c, id) => Some(T.AllocMsg(id))
    case AttachTx(c, buf) => if c in s.ctxs && s.ctxs[c].msg.Some? then Some(T.GetTx(s.ctxs[c].msg.value, buf)) else None
    case Send(c) => if c in s.ctxs && s.ctxs[c].msg.Some? then Some(T.SendTx(s.ctxs[c].msg.value)) else None
    case Abort(c) => if c in s.ctxs && s.ctxs[c].msg.Some? then Some(T.FreeMsg(s.ctxs[c].msg.value)) else None
    case Receive => Some(T.RecvSingle)
    case Wake(c) => if c in s.ctxs && s.ctxs[c].msg.Some? then Some(T.Pass(s.ctxs[c].msg.value)) else None
    case Dequeue(_) =>
      if s.a.queue != [] && s.a.queue[0] in s.ctxs && s.ctxs[s.a.queue[0]].msg.Some?
      then Some(T.Pass(s.ctxs[s.a.queue[0]].msg.value)) else None
    case Repost(c) => if c in s.ctxs && s.ctxs[c].msg.Some? then Some(T.Repost(s.ctxs[c].msg.value)) else None
    case Finish(c) => if c in s.ctxs && s.ctxs[c].msg.Some? then Some(T.FreeMsg(s.ctxs[c].msg.value)) else None
    case Other(step) => Some(step)
    case _ => None
  }

  /** When a step can be taken, apart from the message layer. */
  ghost predicate Guard(s: State, step: Step) {
    match step
    case Begin(pid, _, _) =>
      Idle(s, pid) && forall c :: c in s.ctxs ==> !(s.ctxs[c].interrupted && s.ctxs[c].pid == pid)
    case Resume(pid, sc, c) =>
      Idle(s, pid) && c in s.ctxs && s.ctxs[c].interrupted && s.ctxs[c].pid == pid && s.ctxs[c].sc == sc
    case Refuse(pid, sc, c) =>
      Idle(s, pid) && c in s.ctxs && s.ctxs[c].interrupted && s.ctxs[c].pid == pid && s.ctxs[c].sc != sc
    case AttachMsg(c, _) => Has(s, c, Setup) && s.ctxs[c].msg.None?
    case AttachTx(c, _) => HasMsg(s, c, Setup)
    case Send(c) => HasMsg(s, c, Setup) && T.TxRoom(s.t.w)
    case Abort(c) => Has(s, c, Setup)
    case Interrupt(c) => Has(s, c, Sent) && s.ctxs[c].worker.Some?
    case Receive => true
    case Wake(c) => HasMsg(s, c, Sent) && s.ctxs[c].worker.Some?
    case WaitJob(pid) => Idle(s, pid)
    case WakeJob(pid) => pid in s.p.waiters && s.a.jobs != 0
    case SignalJob(pid) => pid in s.p.waiters
    case Dequeue(pid) => pid in s.p.woken && (s.a.queue != [] ==> HasMsg(s, s.a.queue[0], Sent))
    case Repost(c) => HasMsg(s, c, Ending)
    case Finish(c) => HasMsg(s, c, Ending)
    case Other(step) => Foreign(s, step)
  }

  ghost predicate Enabled(s: State, step: Step) {
    Guard(s, step) && (Inner(s, step).Some? ==> T.Enabled(s.t, Inner(s, step).value))
  }

  // ---------------------------------------------------------------- what a step changes, part by part

  function NewNet(s: State, step: Step): T.State
    requires Enabled(s, step)
  {
    match Inner(s, step)
    case None => s.t
    case Some(inner) => T.Apply(s.t, inner)
  }

  /** An asynchronous invocation loses its thread as soon as it is sent. */
  function NewCtxs(s: State, step: Step): map<CtxId, Ctx>
    requires Guard(s, step)
  {
    var m := s.ctxs;
    match step
    case Begin(pid, sc, isAsync) => m[s.nextCtx := Ctx(pid, sc, s.n.next, isAsync, None, Setup, false, Some(pid))]
    case Resume(pid, _, c) => m[c := m[c].(interrupted := false, worker := Some(pid))]
    case AttachMsg(c, _) => m[c := m[c].(msg := Some(s.t.w.nextKey))]
    case Send(c) => m[c := m[c].(stage := Sent, worker := if m[c].isAsync then None else m[c].worker)]
    case Abort(c) => m - {c}
    case Interrupt(c) => m[c := m[c].(interrupted := true, worker := None)]
    case Wake(c) => m[c := m[c].(stage := Ending)]
    case Dequeue(pid) =>
      if s.a.queue == [] then m else m[s.a.queue[0] := m[s.a.queue[0]].(stage := Ending, worker := Some(pid))]
    case Finish(c) => m - {c}
    case _ => m
  }

  function NewOwner(s: State, step: Step): map<T.MsgKey, CtxId>
    requires Guard(s, step)
  {
    match step
    case AttachMsg(c, _) => s.owner[s.t.w.nextKey := c]
    case Abort(c) => if s.ctxs[c].msg.Some? then s.owner - {s.ctxs[c].msg.value} else s.owner
    case Finish(c) => s.owner - {s.ctxs[c].msg.value}
    case _ => s.owner
  }

  /** Every invocation, also a resumed or refused one, takes a number. */
  function NewNumbers(s: State, step: Step): Numbers
    requires Guard(s, step)
  {
    match step
    case Begin(_, _, _) => s.n.(next := s.n.next + 1, owner := s.n.owner[s.n.next := s.nextCtx])
    case Resume(_, _, _) => s.n.(next := s.n.next + 1)
    case Refuse(_, _, _) => s.n.(next := s.n.next + 1)
    case Send(c) => s.n.(sent := s.n.sent + multiset{s.ctxs[c].seqNum})
    case _ => s.n
  }

  /** The handler queues a completed asynchronous job; a woken thread takes the first one, or
      none if another was faster. */
  function NewAsync(s: State, step: Step): Async
    requires Enabled(s, step)
  {
    match step
    case Receive =>
      var k := s.t.w.handler.value.rsp.key;
      if k in s.owner && s.owner[k] in s.ctxs && s.ctxs[s.owner[k]].isAsync then
        var c := s.owner[k];
        s.a.(queue := s.a.queue + [c], jobs := s.a.jobs + 1, completed := s.a.completed + [c])
      else s.a
    case Dequeue(_) =>
      if s.a.queue == [] then s.a
      else s.a.(queue := s.a.queue[1..], jobs := s.a.jobs - 1, delivered := s.a.delivered + [s.a.queue[0]])
    case _ => s.a
  }

  function Leave(p: Threads, x: Ctx): Threads {
    p.(at := if x.worker.Some? then p.at - {x.worker.value} else p.at)
  }

  /** A woken thread that finds the queue empty goes back to sleep. */
  function NewThreads(s: State, step: Step): Threads
    requires Guard(s, step)
  {
    var p := s.p;
    match step
    case Begin(pid, _, isAsync) =>
      p.(at := p.at[pid := s.nextCtx], syncOf := if isAsync then p.syncOf else p.syncOf[pid := s.nextCtx])
    case Resume(pid, _, c) => p.(at := p.at[pid := c])
    case Send(c) => if s.ctxs[c].isAsync then Leave(p, s.ctxs[c]) else p
    case Abort(c) => Gone(p, s.ctxs[c])
    case Interrupt(c) => Leave(p, s.ctxs[c])
    case WaitJob(pid) => p.(waiters := p.waiters + {pid})
    case WakeJob(pid) => p.(waiters := p.waiters - {pid}, woken := p.woken + {pid})
    case SignalJob(pid) => p.(waiters := p.waiters - {pid})
    case Dequeue(pid) =>
      if s.a.queue == [] then p.(woken := p.woken - {pid}, waiters := p.waiters + {pid})
      else p.(woken := p.woken - {pid}, at := p.at[pid := s.a.queue[0]])
    case Finish(c) => Gone(p, s.ctxs[c])
    case _ => p
  }

  function Gone(p: Threads, x: Ctx): Threads {
    Leave(p, x).(syncOf := if x.isAsync then p.syncOf else p.syncOf - {x.pid})
  }

  function Apply(s: State, step: Step): State
    requires Enabled(s, step)
  {
    State(NewNet(s, step), NewCtxs(s, step), if step.Begin? then s.nextCtx + 1 else s.nextCtx, NewOwner(s, step),
          NewNumbers(s, step), NewAsync(s, step), NewThreads(s, step))
  }

  // ---------------------------------------------------------------- invariants

  ghost predicate Owns(s: State, c: CtxId, k: T.MsgKey) { k in s.t.w.msgs && k in s.owner && s.owner[k] == c }

  /** What holds of one context at each stage. */
  ghost predicate CtxAt(s: State, c: CtxId) {
    && (c in s.a.queue ==> c in s.ctxs && s.ctxs[c].stage.Sent?)
    && (c in s.a.completed ==> c < s.nextCtx)
    && (c in s.ctxs ==> LiveCtx(s, c))
  }

  ghost predicate LiveCtx(s: State, c: CtxId)
    requires c in s.ctxs
  {
    var x := s.ctxs[c];
    && c < s.nextCtx && x.seqNum in s.n.owner && s.n.owner[x.seqNum] == c
    && (!x.isAsync ==> x.pid in s.p.syncOf && s.p.syncOf[x.pid] == c)
    && (x.worker.Some? ==> x.worker.value in s.p.at && s.p.at[x.worker.value] == c)
    && (x.interrupted ==> !x.isAsync && x.stage.Sent? && x.worker.None?)
    && (x.msg.Some? ==> Owns(s, c, x.msg.value))
    && match x.stage
       case Setup =>
         && x.worker == Some(x.pid) && c !in s.a.queue && c !in s.a.completed && s.n.sent[x.seqNum] == 0
         && (x.msg.Some? ==> s.t.w.msgs[x.msg.value].pc.Filling? && !s.t.w.msgs[x.msg.value].done)
       case Sent =>
         && x.msg.Some? && s.t.w.msgs[x.msg.value].pc.Waiting?
         && (if x.isAsync then x.worker.None? else x.worker == if x.interrupted then None else Some(x.pid))
         && (c in s.a.queue <==> x.isAsync && s.t.w.msgs[x.msg.value].done)
         && (c in s.a.completed <==> x.isAsync && s.t.w.msgs[x.msg.value].done)
       case Ending =>
         && x.msg.Some? && (s.t.w.msgs[x.msg.value].pc.Passed? || s.t.w.msgs[x.msg.value].pc.Reposted?)
         && x.worker.Some? && c !in s.a.queue && (!x.isAsync ==> x.worker == Some(x.pid))
  }

  ghost predicate OwnerAt(s: State, k: T.MsgKey) {
    k in s.owner ==> k in s.t.w.msgs && s.owner[k] in s.ctxs && s.ctxs[s.owner[k]].msg == Some(k)
  }

  /** A thread works on one context, sleeps, or is woken; its synchronous context is its own. */
  ghost predicate ThreadAt(s: State, p: Pid) {
    && !(p in s.p.waiters && p in s.p.woken) && (p in s.p.waiters || p in s.p.woken ==> p !in s.p.at)
    && (p in s.p.at ==> s.p.at[p] in s.ctxs && s.ctxs[s.p.at[p]].worker == Some(p))
    && (p in s.p.syncOf ==>
          s.p.syncOf[p] in s.ctxs && !s.ctxs[s.p.syncOf[p]].isAsync && s.ctxs[s.p.syncOf[p]].pid == p)
  }

  ghost predicate SeqAt(n: Numbers, i: nat) {
    n.sent[i] <= 1 && (i in n.owner ==> i < n.next) && (i >= n.next ==> n.sent[i] == 0)
  }

  /** The async queue: its count is its length, and it holds exactly the jobs completed and
      not yet delivered, in completion order. */
  ghost predicate QueueOk(a: Async) {
    a.jobs == |a.queue| && a.completed == a.delivered + a.queue && NoDuplicates(a.completed)
  }

  ghost predicate Inv(s: State) {
    && T.Inv(s.t) && QueueOk(s.a)
    && (forall c: CtxId :: CtxAt(s, c)) && (forall k: T.MsgKey :: OwnerAt(s, k))
    && (forall p: Pid :: ThreadAt(s, p)) && (forall i: nat :: SeqAt(s.n, i))
  }

  lemma InitInv(numBufs: nat)
    ensures Inv(Init(numBufs))
  {
    T.InitInv(numBufs);
    hide T.Inv;
  }

  // ---------------------------------------------------------------- the message layer's part

  /** The messages after a step of the message layer. */
  function NewMsgs(t: T.State, step: T.Step): map<T.MsgKey, T.Msg> {
    var msgs := t.w.msgs;
    match step
    case AllocMsg(id) => msgs[t.w.nextKey := T.Msg(id, None, None, false, T.Filling)]
    case GetTx(k, buf) => if k in msgs then msgs[k := msgs[k].(txbuf := Some(buf))] else msgs
    case SendTx(k) => if k in msgs && T.TxRoom(t.w) then msgs[k := msgs[k].(pc := T.Waiting)] else msgs
    case FreeMsg(k) => msgs - {k}
    case RecvSingle =>
      if t.w.handler.Some? && t.w.handler.value.rsp.key in msgs then
        var h := t.w.handler.value;
        msgs[h.rsp.key := msgs[h.rsp.key].(rxbuf := Some(h), done := true)]
      else msgs
    case Pass(k) => if k in msgs then msgs[k := msgs[k].(pc := T.Passed, done := false)] else msgs
    case Repost(k) => if k in msgs then msgs[k := msgs[k].(pc := T.Reposted)] else msgs
    case _ => msgs
  }

  lemma MsgsChange(t: T.State, step: T.Step)
    requires T.Inv(t) && T.Enabled(t, step)
    ensures T.Inv(T.Apply(t, step)) && T.Apply(t, step).w.msgs == NewMsgs(t, step)
    ensures t.w.nextKey !in t.w.msgs
    ensures step.RecvSingle? ==>
              && t.w.handler.Some?
              && var k := t.w.handler.value.rsp.key;
              k in t.w.msgs && t.w.msgs[k].pc.Waiting? && !t.w.msgs[k].done
  {
    assert T.KeyAt(t, t.w.nextKey) && T.Rest(t);
    if step.RecvSingle? { assert T.KeyAt(t, t.w.handler.value.rsp.key); }
    hide T.Inv;
    T.StepKeeps(t, step);
    MsgsChangeIs(t, step);
  }

  lemma MsgsChangeIs(t: T.State, step: T.Step)
    requires T.Enabled(t, step)
    requires step.RecvSingle? ==> T.Rest(t) && T.KeyAt(t, t.w.handler.value.rsp.key)
    ensures T.Apply(t, step).w.msgs == NewMsgs(t, step)
  {
    hide T.TxRoom, T.RxRoom, T.FirstFree;
  }

  // ---------------------------------------------------------------- preservation

  /** What a step uses of the message layer besides the place that is looked at. */
  ghost predicate NetSupport(s: State, step: Step)
    requires Enabled(s, step)
  {
    && (match Inner(s, step)
        case None => NewNet(s, step) == s.t
        case Some(inner) =>
          && NewNet(s, step).w.msgs == NewMsgs(s.t, inner)
          && (inner.RecvSingle? ==> s.t.w.handler.Some?)
          && (inner.RecvSingle? ==>
                var k := s.t.w.handler.value.rsp.key;
                k in s.t.w.msgs && s.t.w.msgs[k].pc.Waiting? && !s.t.w.msgs[k].done
                && OwnerAt(s, k) && (k in s.owner ==> CtxAt(s, s.owner[k]))))
    && s.t.w.nextKey !in s.t.w.msgs && OwnerAt(s, s.t.w.nextKey)
  }

  /** The context a step is about, if there is one. */
  function Subject(s: State, step: Step): Option<CtxId> {
    match step
    case Resume(_, _, c) => Some(c)
    case AttachMsg(c, _) => Some(c)
    case AttachTx(c, _) => Some(c)
    case Send(c) => Some(c)
    case Abort(c) => Some(c)
    case Interrupt(c) => Some(c)
    case Wake(c) => Some(c)
    case Repost(c) => Some(c)
    case Finish(c) => Some(c)
    case Dequeue(_) => if s.a.queue != [] then Some(s.a.queue[0]) else None
    case _ => None
  }

  ghost predicate Support(s: State, step: Step)
    requires Enabled(s, step)
  {
    && NetSupport(s, step)
    && (Subject(s, step).Some? ==> CtxAt(s, Subject(s, step).value))
    && CtxAt(s, s.nextCtx)
    && (step.Begin? ==> SeqAt(s.n, s.n.next) && (!step.isAsync ==> step.pid !in s.p.syncOf))
    && (step.Dequeue? && s.a.queue != [] ==> s.a.queue[0] !in s.a.queue[1..])
    && (step.Dequeue? ==> ThreadAt(s, step.pid))
  }

  predicate Starting(step: Step) { step.Begin? || step.Resume? || step.Refuse? }

  predicate Attaching(step: Step) { step.AttachMsg? || step.AttachTx? }

  predicate Dropping(step: Step) { step.Abort? || step.Finish? }

  /** Steps of async waiters that do not take a job. */
  predicate Sleeping(step: Step) { step.WaitJob? || step.WakeJob? || step.SignalJob? }

  lemma CtxKeptStarting(s: State, step: Step, c: CtxId)
    requires Enabled(s, step) && Support(s, step) && Starting(step)
    requires CtxAt(s, c) && (c in s.ctxs ==> SeqAt(s.n, s.ctxs[c].seqNum))
    requires c in s.ctxs && s.ctxs[c].msg.Some? ==> OwnerAt(s, s.ctxs[c].msg.value)
    ensures CtxAt(Apply(s, step), c)
  {
    hide T.Apply, T.Enabled, NewNet, ThreadAt, NewMsgs;
  }

  lemma CtxKeptAttaching(s: State, step: Step, c: CtxId)
    requires Enabled(s, step) && Support(s, step) && Attaching(step)
    requires CtxAt(s, c) && (c in s.ctxs ==> SeqAt(s.n, s.ctxs[c].seqNum))
    requires c in s.ctxs && s.ctxs[c].msg.Some? ==> OwnerAt(s, s.ctxs[c].msg.value)
    ensures CtxAt(Apply(s, step), c)
  {
    hide T.Apply, T.Enabled, NewNet, ThreadAt;
  }

  lemma CtxKeptSending(s: State, step: Step, c: CtxId)
    requires Enabled(s, step) && Support(s, step) && step.Send?
    requires CtxAt(s, c) && (c in s.ctxs ==> SeqAt(s.n, s.ctxs[c].seqNum))
    requires c in s.ctxs && s.ctxs[c].msg.Some? ==> OwnerAt(s, s.ctxs[c].msg.value)
    ensures CtxAt(Apply(s, step), c)
  {
    hide T.Apply, T.Enabled, NewNet, ThreadAt;
  }

  lemma CtxKeptWaiting(s: State, step: Step, c: CtxId)
    requires Enabled(s, step) && Support(s, step) && (step.Interrupt? || step.Wake?)
    requires CtxAt(s, c) && (c in s.ctxs ==> SeqAt(s.n, s.ctxs[c].seqNum))
    requires c in s.ctxs && s.ctxs[c].msg.Some? ==> OwnerAt(s, s.ctxs[c].msg.value)
    ensures CtxAt(Apply(s, step), c)
  {
    hide T.Apply, T.Enabled, NewNet, ThreadAt;
  }

  lemma CtxKeptReceiving(s: State, step: Step, c: CtxId)
    requires Enabled(s, step) && Support(s, step) && step.Receive?
    requires CtxAt(s, c) && (c in s.ctxs ==> SeqAt(s.n, s.ctxs[c].seqNum))
    requires c in s.ctxs && s.ctxs[c].msg.Some? ==> OwnerAt(s, s.ctxs[c].msg.value)
    ensures CtxAt(Apply(s, step), c)
  {
    hide T.Apply, T.Enabled, NewNet, ThreadAt;
    var k := s.t.w.handler.value.rsp.key;
    if k in s.owner {
      var c0 := s.owner[k];
      assert s.ctxs[c0].stage.Sent?;
      assert c in s.a.queue + [c0] <==> c in s.a.queue || c == c0;
      assert c in s.a.completed + [c0] <==> c in s.a.completed || c == c0;
    }
  }

  lemma CtxKeptTaking(s: State, step: Step, c: CtxId)
    requires Enabled(s, step) && Support(s, step) && step.Dequeue?
    requires CtxAt(s, c) && (c in s.ctxs ==> SeqAt(s.n, s.ctxs[c].seqNum))
    requires c in s.ctxs && s.ctxs[c].msg.Some? ==> OwnerAt(s, s.ctxs[c].msg.value)
    ensures CtxAt(Apply(s, step), c)
  {
    hide T.Apply, T.Enabled, NewNet;
    if s.a.queue != [] { assert c in s.a.queue <==> c in s.a.queue[1..] || c == s.a.queue[0]; }
  }

  lemma CtxKeptDropping(s: State, step: Step, c: CtxId)
    requires Enabled(s, step) && Support(s, step) && Dropping(step)
    requires CtxAt(s, c) && (c in s.ctxs ==> SeqAt(s.n, s.ctxs[c].seqNum))
    requires c in s.ctxs && s.ctxs[c].msg.Some? ==> OwnerAt(s, s.ctxs[c].msg.value)
    ensures CtxAt(Apply(s, step), c)
  {
    hide T.Apply, T.Enabled, NewNet, ThreadAt;
  }

  lemma CtxKeptReposting(s: State, step: Step, c: CtxId)
    requires Enabled(s, step) && Support(s, step) && step.Repost?
    requires CtxAt(s, c) && (c in s.ctxs ==> SeqAt(s.n, s.ctxs[c].seqNum))
    requires c in s.ctxs && s.ctxs[c].msg.Some? ==> OwnerAt(s, s.ctxs[c].msg.value)
    ensures CtxAt(Apply(s, step), c)
  {
    hide T.Apply, T.Enabled, NewNet, ThreadAt;
  }

  lemma CtxKeptSleeping(s: State, step: Step, c: CtxId)
    requires Enabled(s, step) && Sleeping(step) && CtxAt(s, c)
    ensures CtxAt(Apply(s, step), c)
  {
    hide T.Apply, T.Enabled;
  }

  lemma OthersTouchNothing(s: State, step: Step)
    requires Enabled(s, step) && step.Other?
    ensures Apply(s, step) == s.(t := NewNet(s, step))
  {
    hide T.Apply, T.Enabled, NewNet;
  }

  lemma CtxKeptByOthers(s: State, step: Step, c: CtxId)
    requires Enabled(s, step) && Support(s, step) && step.Other?
    requires CtxAt(s, c) && (c in s.ctxs ==> SeqAt(s.n, s.ctxs[c].seqNum))
    requires c in s.ctxs && s.ctxs[c].msg.Some? ==> OwnerAt(s, s.ctxs[c].msg.value)
    ensures CtxAt(Apply(s, step), c)
  {
    OthersTouchNothing(s, step);
    hide T.Apply, T.Enabled, NewNet, ThreadAt, T.TxRoom, NewOwner, NewNumbers, NewAsync, NewThreads, NewCtxs;
  }

  lemma CtxKept(s: State, step: Step, c: CtxId)
    requires Enabled(s, step) && Support(s, step)
    requires CtxAt(s, c) && (c in s.ctxs ==> SeqAt(s.n, s.ctxs[c].seqNum))
    requires c in s.ctxs && s.ctxs[c].msg.Some? ==> OwnerAt(s, s.ctxs[c].msg.value)
    ensures CtxAt(Apply(s, step), c)
  {
    hide Enabled, Support, Apply, CtxAt, OwnerAt, ThreadAt, SeqAt, QueueOk;
    if Starting(step) { CtxKeptStarting(s, step, c); }
    else if Attaching(step) { CtxKeptAttaching(s, step, c); }
    else if step.Send? { CtxKeptSending(s, step, c); }
    else if step.Interrupt? || step.Wake? { CtxKeptWaiting(s, step, c); }
    else if step.Receive? { CtxKeptReceiving(s, step, c); }
    else if step.Dequeue? { CtxKeptTaking(s, step, c); }
    else if Dropping(step) { CtxKeptDropping(s, step, c); }
    else if step.Repost? { CtxKeptReposting(s, step, c); }
    else if Sleeping(step) { CtxKeptSleeping(s, step, c); }
    else { CtxKeptByOthers(s, step, c); }
  }

  /** Attaching a message and dropping a context change who owns messages. */
  lemma OwnerKeptByOwner(s: State, step: Step, k: T.MsgKey)
    requires Enabled(s, step) && Support(s, step) && (Attaching(step) || Dropping(step))
    requires OwnerAt(s, k) && (k in s.owner ==> CtxAt(s, s.owner[k]))
    ensures OwnerAt(Apply(s, step), k)
  {
    hide T.Apply, T.Enabled, NewNet, SeqAt, ThreadAt, NewNumbers, NewAsync, NewThreads;
  }

  /** All other steps leave the message of every context alone. */
  lemma MessagesStay(s: State, step: Step, c: CtxId)
    requires Guard(s, step) && !Attaching(step) && !Dropping(step) && c in s.ctxs && s.nextCtx !in s.ctxs
    ensures NewOwner(s, step) == s.owner && c in NewCtxs(s, step) && NewCtxs(s, step)[c].msg == s.ctxs[c].msg
  {
    hide T.Apply, T.Enabled;
  }

  lemma OwnerKeptByOthers(s: State, step: Step, k: T.MsgKey)
    requires Enabled(s, step) && NetSupport(s, step) && !Attaching(step) && !Dropping(step)
    requires OwnerAt(s, k) && s.nextCtx !in s.ctxs && k in s.owner
    ensures OwnerAt(Apply(s, step), k)
  {
    MessagesStay(s, step, s.owner[k]);
    hide T.Apply, T.Enabled, NewNet, NewCtxs, NewOwner, NewNumbers, NewAsync, NewThreads, CtxAt;
  }

  lemma OwnerKept(s: State, step: Step, k: T.MsgKey)
    requires Enabled(s, step) && Support(s, step)
    requires OwnerAt(s, k) && (k in s.owner ==> CtxAt(s, s.owner[k]))
    ensures OwnerAt(Apply(s, step), k)
  {
    assert s.nextCtx !in s.ctxs;
    hide Enabled, CtxAt, ThreadAt, SeqAt, NetSupport, NewNet, NewCtxs, NewNumbers, NewAsync, NewThreads;
    if Attaching(step) || Dropping(step) { OwnerKeptByOwner(s, step, k); }
    else if k in s.owner { OwnerKeptByOthers(s, step, k); }
  }

  lemma ThreadKeptStarting(s: State, step: Step, p: Pid)
    requires Enabled(s, step) && Support(s, step) && (Starting(step) || Sleeping(step))
    requires ThreadAt(s, p) && (p in s.p.at ==> CtxAt(s, s.p.at[p]))
    requires p in s.p.syncOf ==> CtxAt(s, s.p.syncOf[p])
    ensures ThreadAt(Apply(s, step), p)
  {
    hide T.Apply, T.Enabled, NewNet, NetSupport, SeqAt, NewNumbers, NewAsync, NewOwner;
  }

  lemma ThreadKeptLeaving(s: State, step: Step, p: Pid)
    requires Enabled(s, step) && Support(s, step)
    requires step.Send? || step.Interrupt? || step.Dequeue?
    requires ThreadAt(s, p) && (p in s.p.at ==> CtxAt(s, s.p.at[p]))
    requires p in s.p.syncOf ==> CtxAt(s, s.p.syncOf[p])
    ensures ThreadAt(Apply(s, step), p)
  {
    hide T.Apply, T.Enabled, NewNet, NetSupport, SeqAt, NewNumbers, NewAsync, NewOwner, Inner;
  }

  lemma ThreadKeptDropping(s: State, step: Step, p: Pid)
    requires Enabled(s, step) && Support(s, step)
    requires Dropping(step)
    requires ThreadAt(s, p) && (p in s.p.at ==> CtxAt(s, s.p.at[p]))
    requires p in s.p.syncOf ==> CtxAt(s, s.p.syncOf[p])
    ensures ThreadAt(Apply(s, step), p)
  {
    hide T.Apply, T.Enabled, NewNet, NetSupport, SeqAt, NewNumbers, NewAsync, NewOwner, Inner;
  }

  lemma ThreadKeptWorking(s: State, step: Step, p: Pid)
    requires Enabled(s, step) && ThreadAt(s, p)
    requires Attaching(step) || step.Wake? || step.Receive? || step.Repost? || step.Other?
    ensures ThreadAt(Apply(s, step), p)
  {
    hide T.Apply, T.Enabled, NewNet, NewNumbers, NewAsync, NewOwner, Inner;
  }

  lemma ThreadKept(s: State, step: Step, p: Pid)
    requires Enabled(s, step) && Support(s, step)
    requires ThreadAt(s, p) && (p in s.p.at ==> CtxAt(s, s.p.at[p]))
    requires p in s.p.syncOf ==> CtxAt(s, s.p.syncOf[p])
    ensures ThreadAt(Apply(s, step), p)
  {
    hide Enabled, Support, Apply, CtxAt, OwnerAt, ThreadAt, SeqAt, QueueOk;
    if Starting(step) || Sleeping(step) { ThreadKeptStarting(s, step, p); }
    else if step.Send? || step.Interrupt? || step.Dequeue? { ThreadKeptLeaving(s, step, p); }
    else if Dropping(step) { ThreadKeptDropping(s, step, p); }
    else { ThreadKeptWorking(s, step, p); }
  }

  lemma SeqKept(s: State, step: Step, i: nat)
    requires Enabled(s, step) && Support(s, step) && SeqAt(s.n, i)
    ensures SeqAt(NewNumbers(s, step), i)
  {
    hide T.Apply, T.Enabled, NetSupport, NewNet, ThreadAt, Inner;
  }

  /** A completed job joins the end of the queue, for the first time. */
  lemma QueueKeptReceiving(s: State)
    requires Enabled(s, Receive) && Support(s, Receive) && QueueOk(s.a)
    ensures QueueOk(NewAsync(s, Receive))
  {
    hide T.Apply, T.Enabled, NewMsgs, NewNet;
    var k := s.t.w.handler.value.rsp.key;
    if k in s.owner {
      var c := s.owner[k];
      assert s.ctxs[c].stage.Sent? && (s.ctxs[c].isAsync ==> c !in s.a.completed);
      assert s.a.completed + [c] == s.a.delivered + (s.a.queue + [c]);
    }
  }

  /** Whether it finds a job or not, a woken thread keeps the queue in order. */
  lemma QueueKept(s: State, step: Step)
    requires Enabled(s, step) && Support(s, step) && QueueOk(s.a)
    ensures QueueOk(NewAsync(s, step))
  {
    hide T.Apply, T.Enabled, NetSupport, CtxAt, Inner;
    if step.Receive? {
      QueueKeptReceiving(s);
    } else if step.Dequeue? && s.a.queue != [] {
      assert s.a.delivered + [s.a.queue[0]] + s.a.queue[1..] == s.a.delivered + s.a.queue;
    }
  }

  /** A thread that may start a new invocation has no synchronous context left. */
  lemma NoSyncLeft(s: State, pid: Pid, sc: nat, isAsync: bool)
    requires Guard(s, Begin(pid, sc, isAsync)) && ThreadAt(s, pid)
    requires pid in s.p.syncOf ==> CtxAt(s, s.p.syncOf[pid])
    ensures pid !in s.p.syncOf
  {
  }

  lemma HeadNotInTail(d: seq<CtxId>, q: seq<CtxId>)
    requires NoDuplicates(d + q) && q != []
    ensures q[0] !in q[1..]
  {
    forall i | 0 <= i < |q[1..]| ensures q[1..][i] != q[0] {
      assert (d + q)[|d| + 1 + i] == q[1..][i] && (d + q)[|d|] == q[0];
    }
  }

  lemma FreshKey(t: T.State)
    requires T.Inv(t)
    ensures t.w.nextKey !in t.w.msgs
  {
    assert T.KeyAt(t, t.w.nextKey);
  }

  lemma HasNetSupport(s: State, step: Step)
    requires T.Inv(s.t) && Enabled(s, step)
    requires forall c: CtxId :: CtxAt(s, c)
    requires forall k: T.MsgKey :: OwnerAt(s, k)
    ensures NetSupport(s, step) && T.Inv(NewNet(s, step))
  {
    hide CtxAt, OwnerAt, T.Apply, T.Enabled, NewMsgs, Inner, Guard, T.Inv;
    FreshKey(s.t);
    if Inner(s, step).Some? { MsgsChange(s.t, Inner(s, step).value); }
  }

  lemma HasSupport(s: State, step: Step)
    requires Inv(s) && Enabled(s, step)
    ensures Support(s, step) && T.Inv(NewNet(s, step))
  {
    HasNetSupport(s, step);
    if step.Begin? { NoSyncLeft(s, step.pid, step.sc, step.isAsync); }
    if step.Dequeue? && s.a.queue != [] { HeadNotInTail(s.a.delivered, s.a.queue); }
    hide T.Inv, Enabled, CtxAt, OwnerAt, ThreadAt, SeqAt, NetSupport, NewNet, Subject;
  }

  /** Every step keeps all invariants. */
  lemma StepKeeps(s: State, step: Step)
    requires Inv(s) && Enabled(s, step)
    ensures Inv(Apply(s, step))
  {
    HasSupport(s, step);
    var s' := Apply(s, step);
    QueueKept(s, step);
    forall i: nat ensures SeqAt(s'.n, i) { SeqKept(s, step, i); }
    hide Enabled, Support, CtxAt, OwnerAt, ThreadAt, SeqAt, QueueOk, T.Inv, NewNet, NewCtxs, NewOwner, NewNumbers, NewAsync, NewThreads;
    forall c: CtxId ensures CtxAt(s', c) { CtxKept(s, step, c); }
    forall k: T.MsgKey ensures OwnerAt(s', k) { OwnerKept(s, step, k); }
    forall p: Pid ensures ThreadAt(s', p) { ThreadKept(s, step, p); }
  }
}
