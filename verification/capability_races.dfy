/** Two queries about one channel that overlap: the cache that one has filled is overwritten by the
    other, and a third caller reads the entry before it is forced again. */
module CapabilityRaces {
  import opened Wrappers
  import C = Capability
  import T = Transport
  import TR = TransportRuns
  import X = Exchange
  import opened CapabilityNet

  /** `run` leads from `s` to `s'`. */
  ghost predicate Leads(e: Env, s: State, run: seq<Step>, s': State) {
    EnvOk(e) && C.Shaped(e.cfg, s.chans) && Legal(e, s, run) && Run(e, s, run) == s'
  }

  lemma Start(e: Env, s: State)
    requires EnvOk(e) && C.Shaped(e.cfg, s.chans)
    ensures Leads(e, s, [], s)
  {
  }

  lemma {:induction false} RunSplit(e: Env, s: State, a: seq<Step>, s1: State, b: seq<Step>, s2: State)
    requires Leads(e, s, a, s1) && Leads(e, s1, b, s2)
    ensures Leads(e, s, a + b, s2)
    decreases |a|
  {
    hide Apply, Enabled, EnvOk, C.Shaped;
    if a == [] {
      assert a + b == b;
    } else {
      RunSplit(e, Apply(e, s, a[0]), a[1..], s1, b, s2);
      assert (a + b)[1..] == a[1..] + b;
    }
  }

  lemma Then(e: Env, s: State, run: seq<Step>, s1: State, step: Step)
    requires Leads(e, s, run, s1) && C.Shaped(e.cfg, s1.chans) && Enabled(e, s1, step) && Own(step)
    ensures Leads(e, s, run + [step], Apply(e, s1, step)) && C.Shaped(e.cfg, Apply(e, s1, step).chans)
  {
    hide Apply, Enabled, EnvOk, C.Shaped;
    Start(e, Apply(e, s1, step));
    assert Leads(e, s1, [step], Apply(e, s1, step)) by { assert [step][1..] == []; }
    RunSplit(e, s, run, s1, [step], Apply(e, s1, step));
  }

  // ---------------------------------------------------------------- steps of the message layer

  function Nets(steps: seq<T.Step>): seq<Step> { seq(|steps|, i requires 0 <= i < |steps| => Net(steps[i])) }

  lemma {:induction false} NetRun(e: Env, s: State, steps: seq<T.Step>)
    requires EnvOk(e) && C.Shaped(e.cfg, s.chans) && TR.Legal(s.t, steps)
    ensures Leads(e, s, Nets(steps), s.(t := TR.Run(s.t, steps)))
    decreases |steps|
  {
    hide T.Apply, T.Enabled, EnvOk;
    if steps != [] {
      assert Nets(steps)[0] == Net(steps[0]) && Nets(steps)[1..] == Nets(steps[1..]);
      NetRun(e, s.(t := T.Apply(s.t, steps[0])), steps[1..]);
    }
  }

  lemma ThenNets(e: Env, s: State, run: seq<Step>, s1: State, steps: seq<T.Step>, t: T.State)
    requires Leads(e, s, run, s1) && C.Shaped(e.cfg, s1.chans) && X.Leads(s1.t, steps, t)
    ensures Leads(e, s, run + Nets(steps), s1.(t := t))
  {
    hide EnvOk, C.Shaped, T.Inv, Legal, Run, TR.Legal, TR.Run;
    NetRun(e, s1, steps);
    RunSplit(e, s, run, s1, Nets(steps), s1.(t := t));
  }

  // ---------------------------------------------------------------- one query from end to end

  /** The answer to the query is in and it is a table. */
  ghost predicate AnswerIn(e: Env, s: State, pid: Pid) {
    At(s, pid, Sent) && Enabled(e, s, CopyAsk(pid)) && e.answers(s.asks[pid].key).0 == 0
    && s.asks[pid].attribute < e.cfg.dspAttributes
  }

  function Finishing(p: Pid): seq<Step> { [CopyAsk(p)] + [NoteAsk(p)] + [ForceAsk(p)] + [TellAsk(p)] + [MarkAsk(p)] }

  lemma CopyStep(e: Env, s: State, pid: Pid) returns (s': State)
    requires EnvOk(e) && T.Inv(s.t) && C.Shaped(e.cfg, s.chans) && AnswerIn(e, s, pid)
    ensures s' == Apply(e, s, CopyAsk(pid)) && Leads(e, s, [CopyAsk(pid)], s')
    ensures var d := s.asks[pid].domain;
            s' == MoveOn(s, pid, s.chans[d].(attrs := e.answers(s.asks[pid].key).1), Copied)
  {
    CopyFinds(e, s, pid);
    hide T.Inv, Copy, EnvOk, HonestTo, Legal, Run;
    s' := Apply(e, s, CopyAsk(pid));
    Start(e, s);
    Then(e, s, [], s, CopyAsk(pid));
    assert [] + [CopyAsk(pid)] == [CopyAsk(pid)];
  }

  /** A query whose answer is in runs to its end and leaves the channel cached. */
  lemma Finishes(e: Env, s: State, p: Pid) returns (s': State)
    requires EnvOk(e) && T.Inv(s.t) && C.Shaped(e.cfg, s.chans) && AnswerIn(e, s, p)
    ensures Leads(e, s, Finishing(p), s') && s'.t == s.t && C.Shaped(e.cfg, s'.chans)
    ensures s'.asks == s.asks - {p}
    ensures s'.chans == C.Stored(e.cfg, s.chans, s.asks[p].domain, e.answers(s.asks[p].key).1)
  {
    var s1 := CopyStep(e, s, p);
    hide T.Inv, Copy, HonestTo, Leads, T.Enabled, T.Apply;
    Then(e, s, [CopyAsk(p)], s1, NoteAsk(p));
    var s2 := Apply(e, s1, NoteAsk(p));
    Then(e, s, [CopyAsk(p)] + [NoteAsk(p)], s2, ForceAsk(p));
    var s3 := Apply(e, s2, ForceAsk(p));
    Then(e, s, [CopyAsk(p)] + [NoteAsk(p)] + [ForceAsk(p)], s3, TellAsk(p));
    var s4 := Apply(e, s3, TellAsk(p));
    Then(e, s, [CopyAsk(p)] + [NoteAsk(p)] + [ForceAsk(p)] + [TellAsk(p)], s4, MarkAsk(p));
    s' := Apply(e, s4, MarkAsk(p));
    assert s'.asks == s.asks - {p};
    var d := s.asks[p].domain;
    assert s'.chans[d] == C.Stored(e.cfg, s.chans, d, e.answers(s.asks[p].key).1)[d];
  }

  /** What is stored is right exactly when the two channels agree in the table. */
  lemma StoredExact(cfg: C.Config, chans: seq<C.Chan>, backend: seq<seq<nat>>, d: nat, e: nat)
    requires C.ConfigOk(cfg) && C.BackendOk(cfg, backend) && C.CacheRight(cfg, chans, backend) && d < |chans| && e < |backend|
    ensures C.CacheRight(cfg, C.Stored(cfg, chans, d, backend[e]), backend) <==> C.SameCaps(cfg, backend, e, d)
  {
    var ch := C.Stored(cfg, chans, d, backend[e])[d];
    assert forall a :: 0 <= a < cfg.dspAttributes && a != cfg.asyncId ==> ch.attrs[a] == backend[e][a];
    if C.SameCaps(cfg, backend, e, d) { assert C.ChanRight(cfg, ch, backend, d); }
  }

  /** Reading an answer with nothing in between: the waiter finds the one to its own query, so
      the cache stays right exactly when the session's channel looks like the queried one. */
  lemma ReadExact(e: Env, s: State, p: Pid) returns (s': State)
    requires EnvOk(e) && T.Inv(s.t) && C.CacheRight(e.cfg, s.chans, e.backend) && AnswerIn(e, s, p)
    requires HonestTo(e, s.asks[p])
    ensures Leads(e, s, Finishing(p), s')
    ensures C.CacheRight(e.cfg, s'.chans, e.backend) <==> C.SameCaps(e.cfg, e.backend, s.asks[p].session, s.asks[p].domain)
  {
    C.CacheShape(e.cfg, s.chans, e.backend);
    hide T.Inv, Leads, C.CacheRight, C.SameCaps, C.Stored, Finishing;
    s' := Finishes(e, s, p);
    StoredExact(e.cfg, s.chans, e.backend, s.asks[p].domain, s.asks[p].session);
  }

  // ---------------------------------------------------------------- overlapping queries

  function RaceRun(p: Pid, q: Pid, d: nat, a: nat): seq<Step> {
    Finishing(p) + [CopyAsk(q)] + [ReadCached(d, a)]
  }

  /** Whenever two queries about one channel are on their way together and the channel's async
      attribute is not 1, there is a way to go on in which a cached read hands out that value
      instead of 1, and the cache is wrong: so not overlapping is needed, not just enough. */
  lemma OverlapFails(e: Env, s: State, p: Pid, q: Pid) returns (s': State)
    requires EnvOk(e) && Inv(e, s) && p != q && AnswerIn(e, s, p) && AnswerIn(e, s, q)
    requires s.asks[p].domain == s.asks[q].domain
    requires e.backend[s.asks[p].domain][e.cfg.asyncId] != 1
    ensures var d := s.asks[p].domain;
            && Leads(e, s, RaceRun(p, q, d, e.cfg.asyncId), s')
            && !C.CacheRight(e.cfg, s'.chans, e.backend)
            && |s'.told| > 0
            && s'.told[|s'.told| - 1] == Reading(d, e.cfg.asyncId, e.backend[d][e.cfg.asyncId])
            && e.backend[d][e.cfg.asyncId] != C.Truth(e.cfg, e.backend, d, e.cfg.asyncId)
  {
    var d := s.asks[p].domain;
    assert AskAt(e, s, q);
    var s1 := Finishes(e, s, p);
    assert s1.asks[q] == s.asks[q];
    hide Inv, T.Inv, Leads, Finishing;
    var s2 := CopyStep(e, s1, q);
    RunSplit(e, s, Finishing(p), s1, [CopyAsk(q)], s2);
    assert s2.chans[d].isCached && s2.chans[d].attrs == e.backend[d];
    Then(e, s, Finishing(p) + [CopyAsk(q)], s2, ReadCached(d, e.cfg.asyncId));
    s' := Apply(e, s2, ReadCached(d, e.cfg.asyncId));
    assert !C.ChanRight(e.cfg, s'.chans[d], e.backend, d);
  }

  lemma ThenStart(e: Env, s: State, run: seq<Step>, s1: State, pid: Pid, ask: Ask) returns (s2: State)
    requires Leads(e, s, run, s1) && C.Shaped(e.cfg, s1.chans) && Enabled(e, s1, StartAsk(pid, ask))
    requires ask.session == ask.domain
    ensures s2 == s1.(asks := s1.asks[pid := ask]) && Leads(e, s, run + [StartAsk(pid, ask)], s2)
  {
    hide EnvOk, HonestTo, Legal, Run;
    s2 := Apply(e, s1, StartAsk(pid, ask));
    Then(e, s, run, s1, StartAsk(pid, ask));
  }

  lemma Reached(e: Env, s: State, run: seq<Step>, s': State)
    requires Leads(e, s, run, s') && Inv(e, s)
    ensures Inv(e, s')
  {
    hide Inv;
    RunKeeps(e, s, run);
  }

  /** Two queries that both find the table not cached send their requests and get answers. */
  lemma BothAsk(e: Env, s: State, before: seq<Step>, s1: State, q: Ask, q': Ask, rx: T.Buf, rx': T.Buf)
    returns (run: seq<Step>, s': State)
    requires Leads(e, s, before, s1) && Inv(e, s) && s1.asks == map[] && C.Shaped(e.cfg, s1.chans)
    requires Enabled(e, s1, StartAsk(0, q)) && Enabled(e, s1, StartAsk(1, q'))
    requires Own(StartAsk(0, q)) && Own(StartAsk(1, q')) && e.answers(q.key).0 == 0 && e.answers(q'.key).0 == 0
    requires q.key != q'.key && rx != rx' && X.Ready(s1.t, q.key, rx) && X.Ready(s1.t, q'.key, rx')
    ensures Leads(e, s, run, s') && Inv(e, s') && AnswerIn(e, s', 0) && AnswerIn(e, s', 1)
    ensures s'.asks == map[0 := q, 1 := q']
  {
    var b, t := X.CompleteBoth(s1.t, q.key, rx, q'.key, rx');
    hide T.Inv, X.Leads, X.Ready, Leads, Inv, EnvOk, HonestTo, C.Shaped;
    var s2 := ThenStart(e, s, before, s1, 0, q);
    var s3 := ThenStart(e, s, before + [StartAsk(0, q)], s2, 1, q');
    run := before + [StartAsk(0, q)] + [StartAsk(1, q')] + Nets(b);
    s' := s3.(t := t);
    ThenNets(e, s, before + [StartAsk(0, q)] + [StartAsk(1, q')], s3, b, t);
    Reached(e, s, run, s');
  }

  /** The concrete case: one channel without the async attribute, two callers. */
  function OneChannel(): Env { Env(C.Config(2, [], 0), [[0, 0]], _ => (0, [0, 0])) }

  function Query(key: T.MsgKey): Ask { Ask(key, 0, 0, 0, Sent) }

  lemma OneChannelOk()
    ensures EnvOk(OneChannel())
  {
  }

  /** Both callers find the table not cached, send their queries and get their answers. */
  lemma TwoQueries() returns (run: seq<Step>, s: State)
    ensures Leads(OneChannel(), Init(OneChannel().cfg, 1, 2), run, s)
    ensures Inv(OneChannel(), s) && AnswerIn(OneChannel(), s, 0) && AnswerIn(OneChannel(), s, 1)
    ensures s.asks == map[0 := Query(0), 1 := Query(1)]
  {
    var e := OneChannel();
    var s0 := Init(e.cfg, 1, 2);
    OneChannelOk();
    InitGood(e, 2);
    assert Inv(e, s0) && C.Shaped(e.cfg, s0.chans);
    Start(e, s0);
    var a, t := X.TwoMessages();
    hide T.Inv, X.Leads, Leads, Inv, T.Init, EnvOk, AnswerIn, C.Shaped;
    ThenNets(e, s0, [], s0, a, t);
    var s1 := s0.(t := t);
    run, s := BothAsk(e, s0, [] + Nets(a), s1, Query(0), Query(1), 0, 1);
  }

  lemma OverlapIsReached() returns (run: seq<Step>, s: State)
    ensures var e := OneChannel();
            && EnvOk(e) && Leads(e, Init(e.cfg, 1, 2), run, s)
            && !C.CacheRight(e.cfg, s.chans, e.backend)
            && |s.told| > 0 && s.told[|s.told| - 1] == Reading(0, 0, 0) && C.Truth(e.cfg, e.backend, 0, 0) == 1
  {
    var e := OneChannel();
    OneChannelOk();
    var before, s1 := TwoQueries();
    hide Inv, Leads, AnswerIn;
    s := OverlapFails(e, s1, 0, 1);
    run := before + RaceRun(0, 1, 0, 0);
    RunSplit(e, Init(e.cfg, 1, 2), before, s1, RaceRun(0, 1, 0, 0), s);
  }
}
