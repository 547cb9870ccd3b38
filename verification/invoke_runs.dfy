/** What invocations guarantee over whole runs, for every interleaving of threads, signals,
    the receive interrupt, other files and the remote side. */
module InvokeRuns {
  import opened Lists
  import opened Wrappers
  import opened Invoke
  import T = Transport

  ghost predicate Legal(s: State, steps: seq<Step>)
    decreases |steps|
  {
    steps == [] || (Enabled(s, steps[0]) && Legal(Apply(s, steps[0]), steps[1..]))
  }

  ghost function Run(s: State, steps: seq<Step>): State
    requires Legal(s, steps)
    decreases |steps|
  {
    if steps == [] then s else Run(Apply(s, steps[0]), steps[1..])
  }

  lemma {:induction false} RunKeeps(s: State, steps: seq<Step>)
    requires Inv(s) && Legal(s, steps)
    ensures Inv(Run(s, steps))
    decreases |steps|
  {
    if steps != [] {
      hide Inv, Apply, Enabled;
      StepKeeps(s, steps[0]);
      RunKeeps(Apply(s, steps[0]), steps[1..]);
    }
  }

  lemma Reached(numBufs: nat, steps: seq<Step>)
    requires Legal(Init(numBufs), steps)
    ensures Inv(Run(Init(numBufs), steps))
  {
    InitInv(numBufs);
    RunKeeps(Init(numBufs), steps);
  }

  /** No sequence number is sent twice, whatever is interrupted and restarted. */
  lemma SequenceNumbersAreDistinct(numBufs: nat, steps: seq<Step>, n: nat)
    requires Legal(Init(numBufs), steps)
    ensures Run(Init(numBufs), steps).n.sent[n] <= 1
  {
    Reached(numBufs, steps);
    assert SeqAt(Run(Init(numBufs), steps).n, n);
  }

  /** A context past its set-up keeps its message and never returns to it. */
  ghost predicate StaysSent(s: State, s': State, c: CtxId)
    requires c in s.ctxs
  {
    c in s'.ctxs ==>
      && !s'.ctxs[c].stage.Setup? && s'.ctxs[c].msg == s.ctxs[c].msg && s'.ctxs[c].seqNum == s.ctxs[c].seqNum
      && (s.ctxs[c].stage.Ending? ==> s'.ctxs[c].stage.Ending?)
  }

  /** Once sent, a context is never sent again and keeps its message until it ends, also
      when it is interrupted and resumed. */
  lemma SentOnlyOnce(s: State, step: Step, c: CtxId)
    requires Inv(s) && Enabled(s, step) && c in s.ctxs && !s.ctxs[c].stage.Setup?
    ensures step != Send(c) && StaysSent(s, Apply(s, step), c)
  {
    assert CtxAt(s, c);
    hide Inv, T.Enabled, NewNet, NewOwner, NewNumbers, NewAsync, NewThreads;
  }

  /** A context that is not being set up has been sent, or ran into no send at all: sending
      is the only way out of the set-up that keeps it alive. */
  lemma OnlySendingLeavesSetup(s: State, step: Step, c: CtxId)
    requires Inv(s) && Enabled(s, step) && c in s.ctxs && s.ctxs[c].stage.Setup?
    ensures var s' := Apply(s, step);
            c in s'.ctxs && !s'.ctxs[c].stage.Setup? ==>
              step == Send(c) && s'.n.sent[s.ctxs[c].seqNum] == 1
  {
    assert CtxAt(s, c);
    if step.Dequeue? && s.a.queue != [] { assert CtxAt(s, s.a.queue[0]); }
    hide Inv, T.Enabled, NewNet, NewOwner, NewAsync, NewThreads;
  }

  /** A context that does not exist yet or is being set up. */
  predicate MaySend(s: State, c: CtxId) { c >= s.nextCtx || Has(s, c, Setup) }

  /** Contexts are numbered once: one that is gone does not come back. */
  lemma NoRebirth(s: State, step: Step, c: CtxId)
    requires Enabled(s, step) && c < s.nextCtx && c !in s.ctxs
    ensures c < Apply(s, step).nextCtx && c !in Apply(s, step).ctxs
  {
    hide T.Enabled, NewNet, NewOwner, NewNumbers, NewAsync, NewThreads;
  }

  lemma NextCtxGrows(s: State, step: Step)
    requires Enabled(s, step)
    ensures Apply(s, step).nextCtx >= s.nextCtx
    ensures step.Send? ==> Has(s, step.c, Setup) && !Has(Apply(s, step), step.c, Setup)
  {
    hide T.Enabled, NewNet, NewOwner, NewNumbers, NewAsync, NewThreads;
  }

  lemma SendUsesUp(s: State, step: Step, c: CtxId)
    requires Inv(s) && Enabled(s, step)
    ensures step == Send(c) ==> MaySend(s, c)
    ensures step == Send(c) || !MaySend(s, c) ==> !MaySend(Apply(s, step), c)
  {
    assert CtxAt(s, c);
    hide Inv, Apply, Enabled;
    NextCtxGrows(s, step);
    if c in s.ctxs && !s.ctxs[c].stage.Setup? { SentOnlyOnce(s, step, c); }
    if c < s.nextCtx && c !in s.ctxs { NoRebirth(s, step, c); }
  }

  function CountSends(steps: seq<Step>, c: CtxId): nat {
    if steps == [] then 0 else (if steps[0] == Send(c) then 1 else 0) + CountSends(steps[1..], c)
  }

  /** In every run a context's request is sent at most once, for every sequence of
      interruptions and restarts. */
  lemma {:induction false} SentAtMostOnceInRun(s: State, steps: seq<Step>, c: CtxId)
    requires Inv(s) && Legal(s, steps)
    ensures CountSends(steps, c) <= if MaySend(s, c) then 1 else 0
    decreases |steps|
  {
    if steps != [] {
      hide Inv, Apply, Enabled, MaySend;
      StepKeeps(s, steps[0]);
      SendUsesUp(s, steps[0], c);
      SentAtMostOnceInRun(Apply(s, steps[0]), steps[1..], c);
    }
  }

  /** Asynchronous contexts never enter the interrupted list, and each thread has at most
      one context there. */
  lemma InterruptedContexts(s: State, c: CtxId, d: CtxId)
    requires Inv(s) && c in s.ctxs && s.ctxs[c].interrupted
    ensures !s.ctxs[c].isAsync
    ensures d in s.ctxs && s.ctxs[d].interrupted && s.ctxs[d].pid == s.ctxs[c].pid ==> d == c
  {
    assert CtxAt(s, c) && CtxAt(s, d);
  }

  /** An interrupted context waits for the response to its own, already sent request, so a
      resumed wait ends with that response. */
  lemma InterruptedIsStillWaiting(s: State, c: CtxId)
    requires Inv(s) && c in s.ctxs && s.ctxs[c].interrupted
    ensures s.ctxs[c].msg.Some? && s.ctxs[c].msg.value in s.t.w.msgs
    ensures var m := s.t.w.msgs[s.ctxs[c].msg.value];
            && m.pc.Waiting?
            && (m.done ==> m.rxbuf.Some? && m.rxbuf.value.rsp == T.Packet(s.ctxs[c].msg.value, m.msgid))
            && (!m.done ==> s.ctxs[c].msg.value in s.t.b.loc)
  {
    assert CtxAt(s, c);
    assert T.KeyAt(s.t, s.ctxs[c].msg.value);
  }

  // ---------------------------------------------------------------- the async queue

  /** A job at the head of the async queue has its message, and the message has the response
      that the waiter reads without checking: a woken thread can always take the lock. */
  lemma HeadOfQueueIsReady(s: State, pid: Pid)
    requires Inv(s) && s.a.queue != []
    ensures HasMsg(s, s.a.queue[0], Sent) && s.ctxs[s.a.queue[0]].isAsync
    ensures var k := s.ctxs[s.a.queue[0]].msg.value;
            k in s.t.w.msgs && s.t.w.msgs[k].rxbuf.Some? && s.t.w.msgs[k].rxbuf.value.rsp.key == k
    ensures pid in s.p.woken ==> Enabled(s, Dequeue(pid))
  {
    assert s.a.queue[0] in s.a.queue;
    assert CtxAt(s, s.a.queue[0]);
    assert T.KeyAt(s.t, s.ctxs[s.a.queue[0]].msg.value);
    hide T.Inv;
  }

  /** Outside the lock sections the job count is the queue length. */
  lemma CountIsLength(numBufs: nat, steps: seq<Step>)
    requires Legal(Init(numBufs), steps)
    ensures var a := Run(Init(numBufs), steps).a;
            a.jobs == |a.queue| && (a.jobs != 0 <==> a.queue != [])
  {
    Reached(numBufs, steps);
  }

  /** Whatever the interleaving of completions, wake-ups, signals and lock sections: completed
      jobs are delivered in completion order, each at most once, and whatever is not
      delivered yet is still in the queue. */
  lemma JobsAreDeliveredInOrder(numBufs: nat, steps: seq<Step>)
    requires Legal(Init(numBufs), steps)
    ensures var a := Run(Init(numBufs), steps).a;
            && a.completed == a.delivered + a.queue
            && (forall i, j :: 0 <= i < j < |a.delivered| ==> a.delivered[i] != a.delivered[j])
            && (forall i, j :: 0 <= i < |a.delivered| && 0 <= j < |a.queue| ==> a.delivered[i] != a.queue[j])
  {
    Reached(numBufs, steps);
    var a := Run(Init(numBufs), steps).a;
    assert NoDuplicates(a.completed);
    hide Inv, Run, Legal;
    forall i, j | 0 <= i < |a.delivered| && 0 <= j < |a.queue| ensures a.delivered[i] != a.queue[j] {
      assert a.completed[i] == a.delivered[i] && a.completed[|a.delivered| + j] == a.queue[j];
    }
    forall i, j | 0 <= i < j < |a.delivered| ensures a.delivered[i] != a.delivered[j] {
      assert a.completed[i] == a.delivered[i] && a.completed[j] == a.delivered[j];
    }
  }

  /** The waiters that a thread's steps can take: none of them is in two places, and a
      sleeping or woken thread works on no context. */
  lemma WaitersAreApart(numBufs: nat, steps: seq<Step>, pid: Pid)
    requires Legal(Init(numBufs), steps)
    ensures var p := Run(Init(numBufs), steps).p;
            && !(pid in p.waiters && pid in p.woken)
            && (pid in p.waiters || pid in p.woken ==> pid !in p.at)
  {
    Reached(numBufs, steps);
    assert ThreadAt(Run(Init(numBufs), steps), pid);
  }

  /** A signal ends a wait and nothing else: no job is lost or delivered. */
  lemma SignalLosesNothing(s: State, pid: Pid)
    requires Inv(s) && Enabled(s, SignalJob(pid))
    ensures var s' := Apply(s, SignalJob(pid));
            s'.a == s.a && s'.ctxs == s.ctxs && s'.t == s.t && Idle(s', pid) && s'.p.woken == s.p.woken
  {
    assert ThreadAt(s, pid);
    hide Inv;
  }

  /** Two sleepers wake for the same single job: the first to take the lock gets it, the
      second finds the queue empty and sleeps again. */
  lemma RaceForOneJob(s: State, p: Pid, q: Pid)
    requires Inv(s) && |s.a.queue| == 1 && p != q && p in s.p.waiters && q in s.p.waiters
    ensures var run := [WakeJob(p), WakeJob(q), Dequeue(p), Dequeue(q)];
            && Legal(s, run)
            && var s' := Run(s, run);
            && s'.a.queue == [] && s'.a.delivered == s.a.delivered + s.a.queue
            && p in s'.p.at && s'.p.at[p] == s.a.queue[0] && q in s'.p.waiters && q !in s'.p.at
  {
    var s1 := Woken(s, p);
    var s2 := Woken(s1, q);
    var s3 := Served(s2, p);
    var s4 := SleepsAgain(s3, q);
    hide Inv, Apply, Enabled, Legal, Run;
    OneStep(s3, Dequeue(q));
    Then(s2, Dequeue(p), [Dequeue(q)]);
    Then(s1, WakeJob(q), [Dequeue(p), Dequeue(q)]);
    Then(s, WakeJob(p), [WakeJob(q), Dequeue(p), Dequeue(q)]);
  }

  lemma OneStep(s: State, step: Step)
    requires Enabled(s, step)
    ensures Legal(s, [step]) && Run(s, [step]) == Apply(s, step)
  {
    hide Apply, Enabled;
    assert [step][1..] == [];
  }

  lemma Then(s: State, step: Step, rest: seq<Step>)
    requires Enabled(s, step) && Legal(Apply(s, step), rest)
    ensures Legal(s, [step] + rest) && Run(s, [step] + rest) == Run(Apply(s, step), rest)
  {
    hide Apply, Enabled;
    assert ([step] + rest)[1..] == rest;
  }

  /** A woken thread that finds nothing. */
  lemma SleepsAgain(s: State, q: Pid) returns (s': State)
    requires Inv(s) && q in s.p.woken && s.a.queue == []
    ensures Enabled(s, Dequeue(q)) && s' == Apply(s, Dequeue(q)) && s'.a == s.a
    ensures q in s'.p.waiters && q !in s'.p.at && s'.p.at == s.p.at
  {
    assert ThreadAt(s, q);
    s' := Apply(s, Dequeue(q));
    hide Inv;
  }

  lemma Woken(s: State, p: Pid) returns (s': State)
    requires Inv(s) && p in s.p.waiters && s.a.queue != []
    ensures Enabled(s, WakeJob(p)) && s' == Apply(s, WakeJob(p)) && Inv(s') && s'.a == s.a
    ensures s'.p == s.p.(waiters := s.p.waiters - {p}, woken := s.p.woken + {p})
  {
    s' := Apply(s, WakeJob(p));
    StepKeeps(s, WakeJob(p));
  }

  /** A woken thread that finds a job: this thread and no other gets it. */
  lemma Served(s: State, p: Pid) returns (s': State)
    requires Inv(s) && p in s.p.woken && s.a.queue != []
    ensures Enabled(s, Dequeue(p)) && s' == Apply(s, Dequeue(p)) && Inv(s')
    ensures s'.a.queue == s.a.queue[1..] && s'.a.delivered == s.a.delivered + [s.a.queue[0]]
    ensures s'.p == s.p.(woken := s.p.woken - {p}, at := s.p.at[p := s.a.queue[0]])
    ensures s.a.queue[0] in s'.ctxs && s'.ctxs[s.a.queue[0]].worker == Some(p)
  {
    HeadOfQueueIsReady(s, p);
    s' := Apply(s, Dequeue(p));
    StepKeeps(s, Dequeue(p));
    hide Inv, T.Enabled, NewNet;
  }

  /** Every response to an asynchronous job of this file completes it: the context joins
      the queue in the same step. */
  lemma AsyncResponseIsQueued(s: State)
    requires Inv(s) && Enabled(s, Receive)
    ensures var k := s.t.w.handler.value.rsp.key;
            k in s.owner && s.owner[k] in s.ctxs && s.ctxs[s.owner[k]].isAsync ==>
              var a := Apply(s, Receive).a;
              a.queue == s.a.queue + [s.owner[k]] && a.jobs == s.a.jobs + 1 && s.owner[k] !in s.a.completed
  {
    var k := s.t.w.handler.value.rsp.key;
    assert OwnerAt(s, k);
    MsgsChange(s.t, T.RecvSingle);
    if k in s.owner { assert CtxAt(s, s.owner[k]); }
    hide Inv, T.Apply;
  }
}
