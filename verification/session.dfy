/** The session of an open file: its domain, its channel id, and the commands it sends. */
module Session {
  import opened Wrappers

  /** How the wait for a command ends. A response can be missing only when a waiter is woken
      without one. */
  datatype Reply = NoMessage | SendFailed | NoResponse | Answer(result: int, cid: int)

  datatype Channel = Channel(secure: bool, unsignedSupport: bool)

  datatype Command = Mmap | Munmap | MunmapFd | MemMap | MemUnmap

  /** What went out: an OPEN with the channel id its successful answer gave, or a command
      with the channel id it carried. */
  datatype Sent = Open(domain: int, granted: Option<int>) | Cmd(kind: Command, cid: int) | Close(cid: int)

  datatype State = State(domain: int, cid: int, procInit: bool, log: seq<Sent>)

  /** Flags of the process creation request that decide whether it is refused. */
  datatype Create = Create(dynamic: bool, unsignedModule: bool, nonSecureNode: bool, untrusted: bool)

  datatype Step =
    | GetInfo(infoOk: bool, domain: nat, channels: seq<Channel>, nonSecureNode: bool)
    | Init(request: Create, chan: Channel, reply: Reply)   // `chan`: the record read at the domain
    | Request(kind: Command, reaches: bool)   // `reaches`: the command gets as far as being sent
    | CloseFile(reply: Reply)

  const START := State(-1, -1, false, [])

  /** `vfastrpc_internal_init_process` lets the request through to the backend. */
  predicate Admitted(r: Create, chan: Channel) {
    && !(chan.unsignedSupport && r.nonSecureNode && chan.secure && !r.unsignedModule)
    && !(!(chan.unsignedSupport && r.nonSecureNode) && !chan.unsignedSupport && r.unsignedModule)
    && r.dynamic
    && !(r.untrusted && !r.unsignedModule)
  }

  /** The channel record at a domain. Before the domain is set the code looks in front of the
      array, where anything may be. */
  predicate ReadsChannel(channels: seq<Channel>, domain: int, chan: Channel) {
    0 <= domain < |channels| ==> chan == channels[domain]
  }

  predicate DomainAllowed(step: Step)
    requires step.GetInfo?
  {
    && step.infoOk && step.domain < |step.channels|
    && !(step.nonSecureNode && step.channels[step.domain].secure && !step.channels[step.domain].unsignedSupport)
  }

  function Apply(s: State, step: Step): State {
    match step
    case GetInfo(_, d, _, _) => if s.domain == -1 && DomainAllowed(step) then s.(domain := d) else s
    case Init(r, chan, reply) =>
      if !Admitted(r, chan) then s
      else (match reply
            case NoMessage => s
            case SendFailed => s
            case NoResponse => s.(procInit := true, log := s.log + [Open(s.domain, None)])
            case Answer(result, cid) =>
              if result == 0 && cid >= 0 then
                s.(cid := cid, procInit := true, log := s.log + [Open(s.domain, Some(cid))])
              else s.(log := s.log + [Open(s.domain, None)]))
    case Request(kind, reaches) =>
      if s.procInit && reaches then s.(log := s.log + [Cmd(kind, s.cid)]) else s
    case CloseFile(reply) =>
      if s.procInit && s.cid >= 0 && !reply.NoMessage? && !reply.SendFailed? then s.(log := s.log + [Close(s.cid)]) else s
  }

  function Run(s: State, run: seq<Step>): State
    decreases |run|
  {
    if run == [] then s else Run(Apply(s, run[0]), run[1..])
  }

  // ---------------------------------------------------------------- channel ids

  /** `cid` was granted by an OPEN among the first `n` messages. */
  ghost predicate Granted(log: seq<Sent>, n: nat, cid: int)
    requires n <= |log|
  {
    cid >= 0 && exists j :: 0 <= j < n && log[j].Open? && log[j].granted == Some(cid)
  }

  /** Message `i` carries a channel id from an earlier successful OPEN. */
  ghost predicate SentRight(log: seq<Sent>, i: nat)
    requires i < |log|
  {
    match log[i]
    case Open(_, _) => true
    case Cmd(_, cid) => Granted(log, i, cid)
    case Close(cid) => Granted(log, i, cid)
  }

  ghost predicate Inv(s: State) {
    && (s.procInit ==> Granted(s.log, |s.log|, s.cid))
    && (s.cid >= 0 ==> Granted(s.log, |s.log|, s.cid))
    && forall i :: 0 <= i < |s.log| ==> SentRight(s.log, i)
  }

  /** The one way out: the first OPEN is let through and its waiter finds no response, which
      leaves the error code at 0. */
  predicate Loses(s: State, step: Step) {
    step.Init? && Admitted(step.request, step.chan) && step.reply.NoResponse? && s.cid < 0
  }

  lemma GrantedLonger(a: seq<Sent>, b: seq<Sent>, n: nat, m: nat, cid: int)
    requires n <= |a| && n <= m <= |b| && a[..n] == b[..n] && Granted(a, n, cid)
    ensures Granted(b, m, cid)
  {
    var j :| 0 <= j < n && a[j].Open? && a[j].granted == Some(cid);
    assert b[j] == b[..n][j] == a[..n][j];
  }

  lemma LogGrows(s: State, x: Sent)
    requires Inv(s)
    requires match x case Open(_, _) => true case Cmd(_, c) => Granted(s.log, |s.log|, c) case Close(c) => Granted(s.log, |s.log|, c)
    ensures forall i :: 0 <= i < |s.log| + 1 ==> SentRight(s.log + [x], i)
    ensures s.cid >= 0 ==> Granted(s.log + [x], |s.log| + 1, s.cid)
  {
    var log := s.log + [x];
    hide Granted;
    forall i | 0 <= i < |log| ensures SentRight(log, i) {
      if i < |s.log| {
        assert SentRight(s.log, i);
        if !log[i].Open? { GrantedLonger(s.log, log, i, i, log[i].cid); }
      } else if !x.Open? {
        GrantedLonger(s.log, log, i, i, x.cid);
      }
    }
    if s.cid >= 0 { GrantedLonger(s.log, log, |s.log|, |log|, s.cid); }
  }

  /** The session stays right exactly when the step is not such an OPEN. */
  lemma StepExact(s: State, step: Step)
    requires Inv(s)
    ensures Inv(Apply(s, step)) <==> !Loses(s, step)
  {
    var s' := Apply(s, step);
    match step
    case GetInfo(_, _, _, _) =>
    case Init(r, chan, reply) =>
      if Admitted(r, chan) && (reply.NoResponse? || reply.Answer?) {
        var x := s'.log[|s.log|];
        LogGrows(s, x);
        if x.granted.Some? {
          assert s'.log[|s.log|].granted == Some(s'.cid);
          assert Granted(s'.log, |s'.log|, s'.cid);
        }
      }
    case Request(kind, reaches) => if s.procInit && reaches { LogGrows(s, Cmd(kind, s.cid)); }
    case CloseFile(reply) => if s' != s { LogGrows(s, Close(s.cid)); }
  }

  /** Why a waiter must find its response: otherwise the next command goes out with the
      negative id the file had before. */
  lemma LostResponseLeaks(s: State, open: Step, kind: Command)
    requires Loses(s, open)
    ensures var s' := Apply(Apply(s, open), Request(kind, true));
            s'.log == s.log + [Open(s.domain, None), Cmd(kind, s.cid)] && s.cid < 0
  {
    assert s.log + [Open(s.domain, None)] + [Cmd(kind, s.cid)] == s.log + [Open(s.domain, None), Cmd(kind, s.cid)];
  }

  /** CLOSE never carries a negative id, lost responses or not. */
  lemma {:induction false} CloseIsNeverNegative(s: State, run: seq<Step>)
    requires forall i :: 0 <= i < |s.log| && s.log[i].Close? ==> s.log[i].cid >= 0
    ensures forall i :: 0 <= i < |Run(s, run).log| && Run(s, run).log[i].Close? ==> Run(s, run).log[i].cid >= 0
    decreases |run|
  {
    if run != [] { CloseIsNeverNegative(Apply(s, run[0]), run[1..]); }
  }

  // ---------------------------------------------------------------- the domain

  ghost predicate Channels(run: seq<Step>, n: nat) {
    forall i :: 0 <= i < |run| && run[i].GetInfo? ==> |run[i].channels| == n
  }

  ghost predicate SomeGetInfo(run: seq<Step>) {
    exists i :: 0 <= i < |run| && run[i].GetInfo? && DomainAllowed(run[i])
  }

  /** The domain is a channel if and only if some GetInfo succeeded, and -1 otherwise. */
  lemma {:induction false} DomainSetExactly(s: State, run: seq<Step>, n: nat)
    requires Channels(run, n) && -1 <= s.domain < n
    ensures -1 <= Run(s, run).domain < n
    ensures Run(s, run).domain != -1 <==> s.domain != -1 || SomeGetInfo(run)
    decreases |run|
  {
    hide Admitted, DomainAllowed;
    if run != [] {
      var rest := run[1..];
      assert forall i :: 0 <= i < |rest| ==> rest[i] == run[i + 1];
      assert Channels(rest, n) by {
        forall i | 0 <= i < |rest| && rest[i].GetInfo? ensures |rest[i].channels| == n { assert run[i + 1].GetInfo?; }
      }
      AllowedIsChannel(run[0], n);
      DomainSetExactly(Apply(s, run[0]), rest, n);
      GetInfoCons(run);
    }
  }

  lemma AllowedIsChannel(step: Step, n: nat)
    requires step.GetInfo? ==> |step.channels| == n
    ensures step.GetInfo? && DomainAllowed(step) ==> step.domain < n
  {
  }

  lemma GetInfoCons(run: seq<Step>)
    requires run != []
    ensures SomeGetInfo(run) <==> (run[0].GetInfo? && DomainAllowed(run[0])) || SomeGetInfo(run[1..])
  {
    hide DomainAllowed;
    var rest := run[1..];
    assert forall i :: 0 <= i < |rest| ==> rest[i] == run[i + 1];
    if SomeGetInfo(rest) {
      var i :| 0 <= i < |rest| && rest[i].GetInfo? && DomainAllowed(rest[i]);
      assert run[i + 1].GetInfo? && DomainAllowed(run[i + 1]);
    }
    if SomeGetInfo(run) && !(run[0].GetInfo? && DomainAllowed(run[0])) {
      var i :| 0 <= i < |run| && run[i].GetInfo? && DomainAllowed(run[i]);
      assert rest[i - 1] == run[i];
    }
  }

  /** An OPEN names an existing channel if and only if some GetInfo succeeded before it. */
  lemma OpenNamesAChannel(run: seq<Step>, open: Step, n: nat)
    requires Channels(run, n) && open.Init? && |Apply(Run(START, run), open).log| > |Run(START, run).log|
    ensures var s := Run(START, run);
            var x := Apply(s, open).log[|s.log|];
            x.Open? && (0 <= x.domain < n <==> SomeGetInfo(run))
  {
    hide Run, SomeGetInfo, Channels, Admitted;
    DomainSetExactly(START, run, n);
  }

  // ---------------------------------------------------------------- the file's fields

  class File {
    var domain: int
    var cid: int
    var procInit: bool
    ghost var log: seq<Sent>

    ghost function St(): State
      reads this
    {
      State(domain, cid, procInit, log)
    }

    constructor ()
      ensures St() == START && Inv(St())
    {
      domain, cid, procInit, log := -1, -1, false, [];
    }

    /** `vfastrpc_internal_get_info`. */
    method GetDomain(infoOk: bool, info: nat, channels: seq<Channel>, nonSecureNode: bool) returns (ok: bool)
      modifies this
      ensures St() == Apply(old(St()), GetInfo(infoOk, info, channels, nonSecureNode))
      ensures ok <==> infoOk && (old(domain) != -1 || DomainAllowed(GetInfo(infoOk, info, channels, nonSecureNode)))
      ensures old(domain) == -1 ==>
                if infoOk && info < |channels| && !(nonSecureNode && channels[info].secure && !channels[info].unsignedSupport)
                then ok && domain == info
                else !ok && domain == -1
      ensures old(domain) != -1 ==> (ok <==> infoOk) && domain == old(domain)
    {
      if !infoOk { return false; }
      if domain == -1 {
        if info >= |channels| { return false; }
        if nonSecureNode {
          if channels[info].secure && !channels[info].unsignedSupport { return false; }
        }
        domain := info;
      }
      ok := true;
    }

    /** `virt_fastrpc_open`: the error code is that of the send when no response is found. */
    method OpenChannel(reply: Reply) returns (ok: bool)
      modifies this
      ensures ok <==> reply.NoResponse? || (reply.Answer? && reply.result == 0 && reply.cid >= 0)
      ensures St() == old(St()).(cid := if ok && reply.Answer? then reply.cid else old(cid),
                                 log := if reply.NoMessage? || reply.SendFailed? then old(log)
                                        else old(log) + [Open(old(domain), if ok && reply.Answer? then Some(reply.cid) else None)])
    {
      if reply.NoMessage? || reply.SendFailed? { return false; }
      if reply.Answer? {
        if reply.result != 0 || reply.cid < 0 {
          log := log + [Open(domain, None)];
          return false;
        }
        cid := reply.cid;
        log := log + [Open(domain, Some(cid))];
      } else {
        log := log + [Open(domain, None)];
      }
      ok := true;
    }

    /** `vfastrpc_internal_init_process`; `outside` is what stands in front of the channels. */
    method InitProcess(channels: seq<Channel>, outside: Channel, r: Create, reply: Reply) returns (ok: bool)
      requires -1 <= domain < |channels|
      modifies this
      ensures var chan := if old(domain) >= 0 then channels[old(domain)] else outside;
              && ReadsChannel(channels, old(domain), chan)
              && St() == Apply(old(St()), Init(r, chan, reply))
              && (old(Inv(St())) ==> (Inv(St()) <==> !Loses(old(St()), Init(r, chan, reply))))
              && (|| (r.untrusted && !r.unsignedModule)
                  || (r.nonSecureNode && chan.secure && chan.unsignedSupport && !r.unsignedModule)
                  || (r.unsignedModule && !chan.unsignedSupport)
                  || !r.dynamic
                  ==> !ok && St() == old(St()))
              && (&& (r.untrusted ==> r.unsignedModule)
                  && (r.nonSecureNode && chan.secure && chan.unsignedSupport ==> r.unsignedModule)
                  && (r.unsignedModule ==> chan.unsignedSupport)
                  && r.dynamic
                  ==> && (ok <==> reply.NoResponse? || (reply.Answer? && reply.result == 0 && reply.cid >= 0))
                      && domain == old(domain) && procInit == (old(procInit) || ok)
                      && cid == (if ok && reply.Answer? then reply.cid else old(cid))
                      && |log| == |old(log)| + (if reply.NoMessage? || reply.SendFailed? then 0 else 1))
    {
      var chan := if domain >= 0 then channels[domain] else outside;
      ghost var was := St();
      if Inv(was) { StepExact(was, Init(r, chan, reply)); }
      if chan.unsignedSupport && r.nonSecureNode {
        if chan.secure && !r.unsignedModule { return false; }
      } else if !chan.unsignedSupport && r.unsignedModule {
        return false;
      }
      if !r.dynamic { return false; }
      if r.untrusted && !r.unsignedModule { return false; }
      ok := OpenChannel(reply);
      if ok { procInit := true; }
    }

    /** The entry test of the map and unmap commands, and the id they then send. */
    method SendCommand(kind: Command, reaches: bool) returns (refused: bool)
      modifies this
      ensures St() == Apply(old(St()), Request(kind, reaches)) && (refused <==> !old(procInit))
      ensures log == old(log) + if old(procInit) && reaches then [Cmd(kind, old(cid))] else []
      ensures domain == old(domain) && cid == old(cid) && procInit == old(procInit)
      ensures old(Inv(St())) ==> Inv(St())
    {
      ghost var was := St();
      if Inv(was) { StepExact(was, Request(kind, reaches)); }
      if !procInit { return true; }
      if reaches { log := log + [Cmd(kind, cid)]; }
      refused := false;
    }

    /** The part of `vfastrpc_file_free` that closes the channel. */
    method CloseChannel(reply: Reply)
      modifies this
      ensures St() == Apply(old(St()), CloseFile(reply))
      ensures log == old(log) + if old(procInit) && old(cid) >= 0 && (reply.NoResponse? || reply.Answer?) then [Close(old(cid))] else []
      ensures domain == old(domain) && cid == old(cid) && procInit == old(procInit)
      ensures old(Inv(St())) ==> Inv(St())
    {
      ghost var was := St();
      if Inv(was) { StepExact(was, CloseFile(reply)); }
      if procInit {
        if cid < 0 { return; }
        if reply.NoMessage? || reply.SendFailed? { return; }
        log := log + [Close(cid)];
      }
    }
  }
}
