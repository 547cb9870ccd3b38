/** A call that a signal interrupts and that its thread restarts: which context it gets back, from
    the steps of the run alone. */
module InvokeRestart {
  import opened Wrappers
  import opened Invoke
  import opened InvokeRuns
  import T = Transport

  /** How a context came to be: the thread and the scalars of the call, and the number it drew. */
  datatype Birth = Birth(pid: Pid, sc: nat, isAsync: bool, number: nat)

  /** The call that created context `c` in the run, taken from its step. */
  ghost function BirthOf(s: State, steps: seq<Step>, c: CtxId): Option<Birth>
    requires Legal(s, steps)
    decreases |steps|
  {
    if steps == [] then None
    else if steps[0].Begin? && s.nextCtx == c then Some(Birth(steps[0].pid, steps[0].sc, steps[0].isAsync, s.n.next))
    else BirthOf(Apply(s, steps[0]), steps[1..], c)
  }

  /** The message with which context `c` was sent in the run. */
  ghost function SentAs(s: State, steps: seq<Step>, c: CtxId): Option<T.MsgKey>
    requires Legal(s, steps)
    decreases |steps|
  {
    if steps == [] then None
    else if steps[0] == Send(c) then s.ctxs[c].msg
    else SentAs(Apply(s, steps[0]), steps[1..], c)
  }

  ghost predicate IsFrom(x: Ctx, b: Birth) {
    x.pid == b.pid && x.sc == b.sc && x.isAsync == b.isAsync && x.seqNum == b.number
  }

  /** A step leaves thread, scalars, kind and number of a context as they are. */
  lemma CallStays(s: State, step: Step, c: CtxId)
    requires Inv(s) && Enabled(s, step)
    ensures var s' := Apply(s, step);
            && (c in s.ctxs && c in s'.ctxs ==> IsFrom(s'.ctxs[c], Birth(s.ctxs[c].pid, s.ctxs[c].sc, s.ctxs[c].isAsync, s.ctxs[c].seqNum)))
            && (c !in s.ctxs && c in s'.ctxs ==>
                  step.Begin? && c == s.nextCtx && IsFrom(s'.ctxs[c], Birth(step.pid, step.sc, step.isAsync, s.n.next)))
            && (step.Begin? ==> s.nextCtx !in s.ctxs && s.nextCtx in s'.ctxs)
  {
    assert s.nextCtx !in s.ctxs by { assert CtxAt(s, s.nextCtx); }
    hide Inv, T.Enabled, NewNet, NewOwner, NewNumbers, NewAsync, NewThreads;
  }

  /** A context that is alive after a run belongs to the call that created it. */
  lemma {:induction false} ContextIsFromItsCall(s: State, steps: seq<Step>, c: CtxId)
    requires Inv(s) && Legal(s, steps) && c in Run(s, steps).ctxs
    ensures c in s.ctxs ==> IsFrom(Run(s, steps).ctxs[c], Birth(s.ctxs[c].pid, s.ctxs[c].sc, s.ctxs[c].isAsync, s.ctxs[c].seqNum))
    ensures c !in s.ctxs ==> BirthOf(s, steps, c).Some? && IsFrom(Run(s, steps).ctxs[c], BirthOf(s, steps, c).value)
    decreases |steps|
  {
    if steps != [] {
      assert CtxAt(s, c);
      hide Inv, Apply, Enabled;
      StepKeeps(s, steps[0]);
      CallStays(s, steps[0], c);
      NextCtxGrows(s, steps[0]);
      StillAlive(Apply(s, steps[0]), steps[1..], c);
      ContextIsFromItsCall(Apply(s, steps[0]), steps[1..], c);
    }
  }

  function CountCalls(steps: seq<Step>): nat {
    if steps == [] then 0
    else (if steps[0].Begin? || steps[0].Resume? || steps[0].Refuse? then 1 else 0) + CountCalls(steps[1..])
  }

  /** Every call draws a number, restarted and refused ones too: the next number is the number of
      calls made so far. */
  lemma {:induction false} NumbersCountCalls(s: State, steps: seq<Step>)
    requires Legal(s, steps)
    ensures Run(s, steps).n.next == s.n.next + CountCalls(steps)
    decreases |steps|
  {
    hide Enabled, NewNet, NewCtxs, NewOwner, NewAsync, NewThreads;
    if steps != [] { NumbersCountCalls(Apply(s, steps[0]), steps[1..]); }
  }

  /** A context past its set-up after a run still has the message it was sent with. */
  lemma {:induction false} MessageIsTheOneSent(s: State, steps: seq<Step>, c: CtxId)
    requires Inv(s) && Legal(s, steps) && c in Run(s, steps).ctxs && !Run(s, steps).ctxs[c].stage.Setup?
    requires c in s.ctxs || MaySend(s, c)
    ensures c in s.ctxs && !s.ctxs[c].stage.Setup? ==> Run(s, steps).ctxs[c].msg == s.ctxs[c].msg
    ensures MaySend(s, c) ==> SentAs(s, steps, c).Some? && Run(s, steps).ctxs[c].msg == SentAs(s, steps, c)
    decreases |steps|
  {
    assert CtxAt(s, c);
    hide Inv, Apply, Enabled;
    if steps != [] {
      var s' := Apply(s, steps[0]);
      StepKeeps(s, steps[0]);
      NextCtxGrows(s, steps[0]);
      StillAlive(s', steps[1..], c);
      if MaySend(s, c) { StillBefore(s, steps[0], c); } else { SentOnlyOnce(s, steps[0], c); }
      MessageIsTheOneSent(s', steps[1..], c);
    }
  }

  /** A context that has not been sent is still so after any step that does not send it, unless
      it is gone; sending it leaves it with its message. */
  lemma StillBefore(s: State, step: Step, c: CtxId)
    requires Inv(s) && Enabled(s, step) && MaySend(s, c)
    ensures var s' := Apply(s, step);
            if step == Send(c) then
              c in s.ctxs && s.ctxs[c].msg.Some? && c in s'.ctxs && s'.ctxs[c].stage.Sent? && s'.ctxs[c].msg == s.ctxs[c].msg
            else MaySend(s', c) || (c < s'.nextCtx && c !in s'.ctxs)
  {
    assert CtxAt(s, c);
    if step.Dequeue? && s.a.queue != [] { assert CtxAt(s, s.a.queue[0]); }
    hide Inv, T.Enabled, NewNet, NewOwner, NewNumbers, NewAsync, NewThreads;
  }

  lemma {:induction false} StillAlive(s: State, steps: seq<Step>, c: CtxId)
    requires Legal(s, steps) && c in Run(s, steps).ctxs
    ensures !(c < s.nextCtx && c !in s.ctxs)
    decreases |steps|
  {
    if steps != [] {
      hide Apply, Enabled;
      if c < s.nextCtx && c !in s.ctxs { NoRebirth(s, steps[0], c); }
      StillAlive(Apply(s, steps[0]), steps[1..], c);
    }
  }

  /** A restarted call gets its context back. In every run: if the call of thread `pid` with scalars
      `sc` created `c`, a signal interrupted its wait, and the thread is back, then it can resume
      `c` with exactly the scalars of that call and is refused with any other; it can start no
      new context and resume no other; and after resuming it waits on the message the call
      was sent with, for its own response. */
  lemma RestartedCallResumes(numBufs: nat, steps: seq<Step>, c: CtxId, b: Birth, sc: nat, d: CtxId, isAsync: bool)
    requires Legal(Init(numBufs), steps) && BirthOf(Init(numBufs), steps, c) == Some(b)
    requires c in Run(Init(numBufs), steps).ctxs && Run(Init(numBufs), steps).ctxs[c].interrupted
    requires Idle(Run(Init(numBufs), steps), b.pid)
    ensures var s := Run(Init(numBufs), steps);
            && (Enabled(s, Resume(b.pid, sc, d)) <==> d == c && sc == b.sc)
            && (Enabled(s, Refuse(b.pid, sc, d)) <==> d == c && sc != b.sc)
            && !Enabled(s, Begin(b.pid, sc, isAsync))
    ensures var s := Run(Init(numBufs), steps);
            var k := SentAs(Init(numBufs), steps, c);
            && k.Some? && Enabled(s, Resume(b.pid, b.sc, c))
            && var s' := Apply(s, Resume(b.pid, b.sc, c));
            && s'.p.at == s.p.at[b.pid := c] && c in s'.ctxs && s'.ctxs[c].stage.Sent? && !s'.ctxs[c].interrupted
            && s'.ctxs[c].worker == Some(b.pid) && s'.ctxs[c].msg == k && s'.t == s.t
            && k.value in s'.t.w.msgs && s'.t.w.msgs[k.value].pc.Waiting?
            && (Enabled(s', Wake(c)) <==> s'.t.w.msgs[k.value].done)
  {
    Reached(numBufs, steps);
    InitInv(numBufs);
    var s := Run(Init(numBufs), steps);
    assert CtxAt(s, c);
    ContextIsFromItsCall(Init(numBufs), steps, c);
    MessageIsTheOneSent(Init(numBufs), steps, c);
    InterruptedIsStillWaiting(s, c);
    InterruptedContexts(s, c, d);
    hide Inv, Run, Legal, BirthOf, SentAs, T.Init;
    ResumedAt(s, c);
  }

  lemma ResumedAt(s: State, c: CtxId)
    requires Inv(s) && c in s.ctxs && s.ctxs[c].interrupted && Idle(s, s.ctxs[c].pid)
    requires s.ctxs[c].stage.Sent? && s.ctxs[c].msg.Some? && s.ctxs[c].msg.value in s.t.w.msgs
    requires s.t.w.msgs[s.ctxs[c].msg.value].pc.Waiting?
    ensures var x := s.ctxs[c];
            && Enabled(s, Resume(x.pid, x.sc, c))
            && var s' := Apply(s, Resume(x.pid, x.sc, c));
            && s'.p.at == s.p.at[x.pid := c] && s'.t == s.t
            && s'.ctxs == s.ctxs[c := x.(interrupted := false, worker := Some(x.pid))]
            && (Enabled(s', Wake(c)) <==> s.t.w.msgs[x.msg.value].done)
  {
    hide Inv;
  }
}
