/** A session on the real message layer: the answer to an OPEN is what its waiter finds in its
    own message. Any number of threads may open and ask for the domain, and everybody else may
    do anything the message layer allows. The domain, the channel id and the initialised mark
    are tested and written without a lock, so each test and each write is a step of its own. */
module SessionNet {
  import opened Wrappers
  import S = Session
  import T = Transport

  type Pid = nat

  /** The channel record has been read and the request admitted; the OPEN has been written into
      its message, with the domain of that moment; it was answered and the id is stored. */
  datatype Stage = Tested | Named(key: T.MsgKey, domain: int) | Accepted

  /** A process creation on its way, with the domain whose channel record it read. */
  datatype OpenCall = OpenCall(request: S.Create, chan: S.Channel, tested: int, stage: Stage)

  /** `checks` holds the GETINFO calls that found no domain and have yet to store theirs. */
  datatype State = State(
    s: S.State, t: T.State, checks: map<Pid, nat>, opens: map<Pid, OpenCall>, channels: seq<S.Channel>)

  /** What the remote side writes into the response to each message: result and channel id.
      Each request is answered once, so its answers can be fixed beforehand. */
  type Answers = T.MsgKey -> (int, int)

  datatype Step =
    | Net(step: T.Step)                                            // any thread, the interrupt, the remote side
    | CheckInfo(pid: Pid, infoOk: bool, domain: nat, nonSecureNode: bool) // GETINFO finds no domain
    | StoreInfo(pid: Pid)                                          // ... and stores its own
    | BeginOpen(pid: Pid, request: S.Create, chan: S.Channel)      // the request is admitted
    | FillOpen(pid: Pid, key: T.MsgKey)                            // the OPEN is written
    | AbandonOpen(pid: Pid)                                        // no message, or not sent
    | ReadOpen(pid: Pid)                                           // after the wait
    | FinishOpen(pid: Pid)                                         // the file is marked initialised
    | Request(kind: S.Command, reaches: bool)
    | CloseFile(reply: S.Reply)
    | Channels(channels: seq<S.Channel>)                           // a capability query updates a record

  function Init(numBufs: nat, channels: seq<S.Channel>): State {
    State(S.START, T.Init(numBufs), map[], map[], channels)
  }

  ghost predicate Enabled(c: State, step: Step) {
    match step
    case Net(st) => T.Enabled(c.t, st)
    case CheckInfo(pid, infoOk, d, node) =>
      pid !in c.checks && c.s.domain == -1 && S.DomainAllowed(S.GetInfo(infoOk, d, c.channels, node))
    case StoreInfo(pid) => pid in c.checks
    case BeginOpen(pid, r, chan) =>
      pid !in c.opens && S.ReadsChannel(c.channels, c.s.domain, chan) && S.Admitted(r, chan)
    case FillOpen(pid, k) =>
      && pid in c.opens && c.opens[pid].stage.Tested? && k in c.t.w.msgs && c.t.w.msgs[k].pc.Filling?
      && forall p :: p in c.opens && c.opens[p].stage.Named? ==> c.opens[p].stage.key != k
    case AbandonOpen(pid) =>
      && pid in c.opens && !c.opens[pid].stage.Accepted?
      && (c.opens[pid].stage.Named? ==>
            c.opens[pid].stage.key in c.t.w.msgs && c.t.w.msgs[c.opens[pid].stage.key].pc.Filling?)
    case ReadOpen(pid) =>
      && pid in c.opens && c.opens[pid].stage.Named?
      && c.opens[pid].stage.key in c.t.w.msgs && c.t.w.msgs[c.opens[pid].stage.key].pc.Passed?
    case FinishOpen(pid) => pid in c.opens && c.opens[pid].stage.Accepted?
    case Request(_, _) => true
    case CloseFile(_) => true
    case Channels(chs) => |chs| == |c.channels|
  }

  /** What the waiter finds: the code tests the pointer, then reads the response behind it. */
  function ReplyIn(t: T.State, k: T.MsgKey, answers: Answers): S.Reply
    requires k in t.w.msgs
  {
    match t.w.msgs[k].rxbuf
    case None => S.NoResponse
    case Some(rx) => S.Answer(answers(rx.rsp.key).0, answers(rx.rsp.key).1)
  }

  /** `virt_fastrpc_open` returns 0. */
  predicate Succeeds(reply: S.Reply) {
    reply.NoResponse? || (reply.Answer? && reply.result == 0 && reply.cid >= 0)
  }

  /** The session after the answer to an OPEN that named `domain`: an id that was granted is
      stored, and the file is not yet marked. */
  function Opened(s: S.State, call: OpenCall, domain: int, reply: S.Reply): S.State {
    S.Apply(s.(domain := domain), S.Init(call.request, call.chan, reply)).(domain := s.domain, procInit := s.procInit)
  }

  function SetStage(c: State, pid: Pid, stage: Stage): State
    requires pid in c.opens
  {
    c.(opens := c.opens[pid := c.opens[pid].(stage := stage)])
  }

  function Apply(c: State, step: Step, answers: Answers): State
    requires Enabled(c, step)
  {
    match step
    case Net(st) => c.(t := T.Apply(c.t, st))
    case CheckInfo(pid, _, d, _) => c.(checks := c.checks[pid := d])
    case StoreInfo(pid) => c.(s := c.s.(domain := c.checks[pid]), checks := c.checks - {pid})
    case BeginOpen(pid, r, chan) => c.(opens := c.opens[pid := OpenCall(r, chan, c.s.domain, Tested)])
    case FillOpen(pid, k) => SetStage(c, pid, Named(k, c.s.domain))
    case AbandonOpen(pid) => c.(opens := c.opens - {pid})
    case ReadOpen(pid) =>
      var call := c.opens[pid];
      var reply := ReplyIn(c.t, call.stage.key, answers);
      var c' := c.(s := Opened(c.s, call, call.stage.domain, reply));
      if Succeeds(reply) then SetStage(c', pid, Accepted) else c'.(opens := c.opens - {pid})
    case FinishOpen(pid) => c.(s := c.s.(procInit := true), opens := c.opens - {pid})
    case Request(kind, reaches) => c.(s := S.Apply(c.s, S.Request(kind, reaches)))
    case CloseFile(reply) => c.(s := S.Apply(c.s, S.CloseFile(reply)))
    case Channels(chs) => c.(channels := chs)
  }

  /** Whoever is about to mark the file has stored an id. */
  ghost predicate OpensOk(c: State) {
    forall p :: p in c.opens ==>
      S.Admitted(c.opens[p].request, c.opens[p].chan) && (c.opens[p].stage.Accepted? ==> c.s.cid >= 0)
  }

  /** The domain is -1 or a channel, and so is every domain about to be stored. */
  ghost predicate Ranged(c: State) {
    -1 <= c.s.domain < |c.channels| && forall p :: p in c.checks ==> c.checks[p] < |c.channels|
  }

  ghost predicate Inv(c: State) { T.Inv(c.t) && S.Inv(c.s) && OpensOk(c) && Ranged(c) }

  /** The message layer never ends a wait without a response, and the response answers the
      request that was sent. */
  lemma ReplyIsOwnAnswer(t: T.State, k: T.MsgKey, answers: Answers)
    requires T.Inv(t) && k in t.w.msgs && t.w.msgs[k].pc.Passed?
    ensures ReplyIn(t, k, answers) == S.Answer(answers(k).0, answers(k).1)
  {
    assert T.KeyAt(t, k);
  }

  lemma OpenedKeeps(s: S.State, call: OpenCall, domain: int, reply: S.Reply)
    requires S.Inv(s) && reply.Answer? && S.Admitted(call.request, call.chan)
    ensures var s' := Opened(s, call, domain, reply);
            && S.Inv(s') && s'.domain == s.domain && (Succeeds(reply) ==> s'.cid >= 0) && (s.cid >= 0 ==> s'.cid >= 0)
  {
    hide S.Granted, S.SentRight;
    S.StepExact(s.(domain := domain), S.Init(call.request, call.chan, reply));
  }

  lemma FieldsKeep(s: S.State, s': S.State)
    requires S.Inv(s) && s'.cid == s.cid && s'.log == s.log && (s'.procInit ==> s.procInit || s.cid >= 0)
    ensures S.Inv(s')
  {
    hide S.Granted, S.SentRight;
  }

  lemma CommandKeeps(s: S.State, step: S.Step)
    requires S.Inv(s) && (step.Request? || step.CloseFile?)
    ensures S.Inv(S.Apply(s, step)) && S.Apply(s, step).domain == s.domain && S.Apply(s, step).cid == s.cid
  {
    hide S.Inv;
    S.StepExact(s, step);
  }

  lemma StepKeeps(c: State, step: Step, answers: Answers)
    requires Inv(c) && Enabled(c, step)
    ensures Inv(Apply(c, step, answers))
  {
    hide T.Inv, S.Inv, T.Apply, T.Enabled, S.Apply, S.Admitted, Opened, Succeeds;
    match step
    case Net(st) => T.StepKeeps(c.t, st);
    case CheckInfo(pid, infoOk, d, node) =>
    case StoreInfo(pid) => FieldsKeep(c.s, Apply(c, step, answers).s);
    case BeginOpen(pid, r, chan) =>
    case FillOpen(pid, k) =>
    case AbandonOpen(pid) =>
    case ReadOpen(pid) =>
      var call := c.opens[pid];
      var reply := ReplyIn(c.t, call.stage.key, answers);
      ReplyIsOwnAnswer(c.t, call.stage.key, answers);
      OpenedKeeps(c.s, call, call.stage.domain, reply);
    case FinishOpen(pid) => FieldsKeep(c.s, Apply(c, step, answers).s);
    case Request(kind, reaches) => CommandKeeps(c.s, S.Request(kind, reaches));
    case CloseFile(reply) => CommandKeeps(c.s, S.CloseFile(reply));
    case Channels(chs) =>
  }

  ghost predicate Legal(c: State, run: seq<Step>, answers: Answers)
    decreases |run|
  {
    run == [] || (Enabled(c, run[0]) && Legal(Apply(c, run[0], answers), run[1..], answers))
  }

  ghost function Run(c: State, run: seq<Step>, answers: Answers): State
    requires Legal(c, run, answers)
    decreases |run|
  {
    if run == [] then c else Run(Apply(c, run[0], answers), run[1..], answers)
  }

  lemma {:induction false} RunKeeps(c: State, run: seq<Step>, answers: Answers)
    requires Inv(c) && Legal(c, run, answers)
    ensures Inv(Run(c, run, answers))
    decreases |run|
  {
    hide Inv, Apply, Enabled;
    if run != [] {
      StepKeeps(c, run[0], answers);
      RunKeeps(Apply(c, run[0], answers), run[1..], answers);
    }
  }

  lemma InitInv(numBufs: nat, channels: seq<S.Channel>)
    ensures Inv(Init(numBufs, channels))
  {
    T.InitInv(numBufs);
    hide T.Inv, T.Init;
  }

  /** Which process creations go on to an OPEN: all except those of an untrusted caller that wants a
      signed process, of a non-secure node that wants a signed process on a secure channel with
      unsigned support, of an unsigned process on a channel without unsigned support, and any
      that does not create a process. */
  lemma WhoMayOpen(c: State, pid: Pid, r: S.Create, chan: S.Channel)
    requires pid !in c.opens && (0 <= c.s.domain < |c.channels| ==> chan == c.channels[c.s.domain])
    ensures Enabled(c, BeginOpen(pid, r, chan)) <==>
              && (r.untrusted ==> r.unsignedModule)
              && (r.nonSecureNode && chan.secure && chan.unsignedSupport ==> r.unsignedModule)
              && (r.unsignedModule ==> chan.unsignedSupport)
              && r.dynamic
  {
  }

  /** In every run, whoever is on the way to an OPEN, has written it or waits for its answer was let
      through by the record it read. */
  lemma RefusedNeverOpens(numBufs: nat, channels: seq<S.Channel>, run: seq<Step>, answers: Answers, p: Pid)
    requires Legal(Init(numBufs, channels), run, answers) && p in Run(Init(numBufs, channels), run, answers).opens
    ensures var call := Run(Init(numBufs, channels), run, answers).opens[p];
            && (call.request.untrusted ==> call.request.unsignedModule)
            && (call.request.nonSecureNode && call.chan.secure && call.chan.unsignedSupport ==> call.request.unsignedModule)
            && (call.request.unsignedModule ==> call.chan.unsignedSupport)
            && call.request.dynamic
  {
    hide Legal, Run, T.Inv, S.Inv;
    InitInv(numBufs, channels);
    RunKeeps(Init(numBufs, channels), run, answers);
  }

  /** What commands leave: a map or unmap command goes out with the current id exactly when the file
      is initialised and the command gets that far, a CLOSE exactly when there is an id to close
      and the send succeeds; neither changes the session. */
  lemma CommandsGoOut(c: State, kind: S.Command, reaches: bool, reply: S.Reply, answers: Answers)
    ensures var s' := Apply(c, Request(kind, reaches), answers).s;
            && s'.log == c.s.log + (if c.s.procInit && reaches then [S.Cmd(kind, c.s.cid)] else [])
            && s' == c.s.(log := s'.log)
    ensures var s' := Apply(c, CloseFile(reply), answers).s;
            && s'.log == c.s.log + (if c.s.procInit && c.s.cid >= 0 && (reply.NoResponse? || reply.Answer?) then [S.Close(c.s.cid)] else [])
            && s' == c.s.(log := s'.log)
  {
  }

  /** An OPEN that cannot be sent leaves the session as it was and its thread free to try again, and
      the next try reads the record as the last capability query left it. */
  lemma FailedOpenCanRetry(c: State, pid: Pid, chs: seq<S.Channel>, r: S.Create, answers: Answers)
    requires Enabled(c, AbandonOpen(pid)) && Enabled(c, Channels(chs))
    requires 0 <= c.s.domain < |chs| && S.Admitted(r, chs[c.s.domain])
    ensures var c' := Apply(c, AbandonOpen(pid), answers);
            && c'.s == c.s && c'.checks == c.checks && Enabled(c', Channels(chs))
            && Enabled(Apply(c', Channels(chs), answers), BeginOpen(pid, r, chs[c.s.domain]))
  {
  }

  /** Which domains a GETINFO may set. */
  lemma WhichDomain(c: State, pid: Pid, infoOk: bool, d: nat, node: bool)
    requires pid !in c.checks && c.s.domain == -1
    ensures Enabled(c, CheckInfo(pid, infoOk, d, node)) <==>
              infoOk && d < |c.channels| && (node && c.channels[d].secure ==> c.channels[d].unsignedSupport)
  {
  }

  /** In every run on the message layer, whatever the remote side answers: every MMAP, MUNMAP,
      MUNMAP_FD, MEM_MAP, MEM_UNMAP and CLOSE carries a non-negative channel id that an
      earlier OPEN was granted. */
  lemma CommandsCarryGrantedIds(numBufs: nat, channels: seq<S.Channel>, run: seq<Step>, answers: Answers, i: nat)
    requires Legal(Init(numBufs, channels), run, answers)
    requires i < |Run(Init(numBufs, channels), run, answers).s.log|
    ensures S.SentRight(Run(Init(numBufs, channels), run, answers).s.log, i)
  {
    hide Legal, Run, T.Inv;
    InitInv(numBufs, channels);
    RunKeeps(Init(numBufs, channels), run, answers);
  }

  /** The id a thread is granted is the one in the answer to its own OPEN, and only a thread
      that was granted one goes on to mark the file. */
  lemma GrantIsOwn(c: State, pid: Pid, answers: Answers)
    requires Inv(c) && Enabled(c, ReadOpen(pid))
    ensures var Named(k, d) := c.opens[pid].stage;
            var c' := Apply(c, ReadOpen(pid), answers);
            if answers(k).0 == 0 && answers(k).1 >= 0 then
              && c'.s.cid == answers(k).1 && c'.s.log == c.s.log + [S.Open(d, Some(answers(k).1))]
              && Enabled(c', FinishOpen(pid)) && Apply(c', FinishOpen(pid), answers).s.procInit
            else c'.s.procInit == c.s.procInit && c'.s.cid == c.s.cid && pid !in c'.opens
  {
    hide T.Inv;
    ReplyIsOwnAnswer(c.t, c.opens[pid].stage.key, answers);
  }
}
