/** No invocation gets stuck: what each live context can do next, stage by stage, and what is left
    when it has ended. */
module InvokeProgress {
  import opened Wrappers
  import opened Invoke
  import T = Transport

  /** A thread that is in no call and has no interrupted one can start a call. */
  lemma CallsStart(s: State, pid: Pid, sc: nat, isAsync: bool)
    requires Inv(s)
    ensures Enabled(s, Begin(pid, sc, isAsync)) <==>
              && pid !in s.p.at && pid !in s.p.waiters && pid !in s.p.woken
              && forall c :: c in s.ctxs && s.ctxs[c].pid == pid ==> !s.ctxs[c].interrupted
  {
    hide Inv;
  }

  /** Before sending: a context without a message can get one while the table has a free entry; one
      without a send buffer can get the next unused one or a recycled one; one with both can be
      sent; and all can be given up. */
  lemma SetupGoesOn(s: State, c: CtxId, id: nat, buf: T.Buf)
    requires Inv(s) && c in s.ctxs && s.ctxs[c].stage.Setup?
    ensures Enabled(s, Abort(c))
    ensures s.ctxs[c].msg.None? ==>
              (Enabled(s, AttachMsg(c, id)) <==> id < 256 && id !in s.t.w.table && forall j: nat :: j < id ==> j in s.t.w.table)
    ensures s.ctxs[c].msg.Some? ==>
              var k := s.ctxs[c].msg.value;
              && k in s.t.w.msgs
              && (s.t.w.msgs[k].txbuf.None? ==>
                    (Enabled(s, AttachTx(c, buf)) <==> if s.t.w.lastSbuf < s.t.w.numBufs then buf == s.t.w.lastSbuf else buf in s.t.w.txUsed))
              && (s.t.w.msgs[k].txbuf.Some? ==> Enabled(s, Send(c)))
  {
    assert CtxAt(s, c);
    if s.ctxs[c].msg.Some? && s.ctxs[c].msg.value in s.t.w.msgs && s.t.w.msgs[s.ctxs[c].msg.value].txbuf.Some? {
      T.TxHasRoom(s.t, s.ctxs[c].msg.value);
    }
    hide Inv, T.TxRoom;
  }

  /** A synchronous call that has been sent can be interrupted until it takes its completion, and can
      take it exactly when its own response is there. */
  lemma WaitGoesOn(s: State, c: CtxId)
    requires Inv(s) && c in s.ctxs && s.ctxs[c].stage.Sent? && !s.ctxs[c].isAsync && !s.ctxs[c].interrupted
    ensures Enabled(s, Interrupt(c)) && s.ctxs[c].msg.Some? && s.ctxs[c].msg.value in s.t.w.msgs
    ensures var m := s.t.w.msgs[s.ctxs[c].msg.value];
            Enabled(s, Wake(c)) <==> m.rxbuf.Some? && m.rxbuf.value.rsp == T.Packet(s.ctxs[c].msg.value, m.msgid)
  {
    assert CtxAt(s, c);
    assert T.KeyAt(s.t, s.ctxs[c].msg.value);
    hide Inv;
  }

  /** Interrupting leaves the thread free and the context, with its message, for it to come back to. */
  lemma InterruptLeaves(s: State, c: CtxId)
    requires Inv(s) && Enabled(s, Interrupt(c))
    ensures var s' := Apply(s, Interrupt(c));
            && s'.ctxs == s.ctxs[c := s.ctxs[c].(interrupted := true, worker := None)]
            && Idle(s', s.ctxs[c].pid) && s'.t == s.t && s'.a == s.a && s'.owner == s.owner
  {
    assert CtxAt(s, c);
    assert ThreadAt(s, s.ctxs[c].pid);
    hide Inv;
  }

  /** After the wait the response buffer is reposted, and then message and context are freed. */
  lemma EndingGoesOn(s: State, c: CtxId)
    requires Inv(s) && c in s.ctxs && s.ctxs[c].stage.Ending?
    ensures s.ctxs[c].msg.Some? && s.ctxs[c].msg.value in s.t.w.msgs
    ensures var reposted := s.t.w.msgs[s.ctxs[c].msg.value].pc.Reposted?;
            (Enabled(s, Repost(c)) <==> !reposted) && (Enabled(s, Finish(c)) <==> reposted)
  {
    assert CtxAt(s, c);
    assert T.KeyAt(s.t, s.ctxs[c].msg.value);
    hide Inv;
  }

  /** A call that ends, finished or given up, leaves nothing: context, message and table entry are
      gone and its thread is in no call. */
  lemma EndLeavesNothing(s: State, step: Step)
    requires Inv(s) && Enabled(s, step) && (step.Finish? || step.Abort?)
    ensures var x := s.ctxs[step.c];
            var s' := Apply(s, step);
            && step.c !in s'.ctxs && x.worker.Some? && Idle(s', x.worker.value)
            && (x.msg.Some? ==>
                  && x.msg.value in s.t.w.msgs && x.msg.value !in s'.t.w.msgs && x.msg.value !in s'.owner
                  && s'.t.w.table == s.t.w.table - {s.t.w.msgs[x.msg.value].msgid})
  {
    assert CtxAt(s, step.c);
    var x := s.ctxs[step.c];
    if x.worker.Some? { assert ThreadAt(s, x.worker.value); }
    if x.msg.Some? { assert T.KeyAt(s.t, x.msg.value); }
    hide Inv, NewNumbers, NewAsync;
  }

  /** What the steps before and around the wait leave: the message a context gets is a new one of its
      own, the send buffer is entered in it, sending puts the request into the ring, and a thread
      that waits for a job sleeps. */
  lemma StepDoes(s: State, step: Step)
    requires Inv(s) && Enabled(s, step)
    ensures var s' := Apply(s, step);
            match step
            case AttachMsg(c, id) =>
              var k := s.t.w.nextKey;
              && k !in s.t.w.msgs && c in s'.ctxs && s'.ctxs[c] == s.ctxs[c].(msg := Some(k)) && k in s'.owner && s'.owner[k] == c
              && k in s'.t.w.msgs && s'.t.w.msgs[k].msgid == id && s'.t.w.msgs[k].txbuf.None?
            case AttachTx(c, buf) =>
              && s.ctxs[c].msg.Some? && s'.ctxs == s.ctxs
              && var k := s.ctxs[c].msg.value; k in s'.t.w.msgs && s'.t.w.msgs[k].txbuf == Some(buf)
            case Send(c) =>
              && s.ctxs[c].msg.Some? && c in s'.ctxs && s'.ctxs[c].stage.Sent?
              && var k := s.ctxs[c].msg.value;
              && k in s.t.w.msgs && s.t.w.msgs[k].txbuf.Some? && s.t.w.msgs[k].txbuf.value in s'.t.w.txAvail
              && s'.t.w.txAvail[s.t.w.msgs[k].txbuf.value] == T.Packet(k, s.t.w.msgs[k].msgid)
            case WaitJob(pid) => s'.p.waiters == s.p.waiters + {pid} && s'.ctxs == s.ctxs && s'.a == s.a && s'.t == s.t
            case _ => true
  {
    match step
    case AttachMsg(c, id) => assert T.KeyAt(s.t, s.t.w.nextKey); hide Inv, NewNumbers, NewAsync, NewThreads;
    case AttachTx(c, buf) => hide Inv, NewNumbers, NewAsync, NewThreads, NewOwner;
    case Send(c) => assert CtxAt(s, c); hide Inv, NewNumbers, NewAsync, NewThreads, NewOwner, T.TxRoom;
    case _ => hide Inv;
  }
}
