/** Capability queries on the real message layer, from any number of threads at once. No lock is
    taken around the shared table, so every write to it is a step of its own. */
module CapabilityNet {
  import opened Wrappers
  import C = Capability
  import T = Transport

  type Pid = nat

  /** How far a query that found no cached table has come: its request is out, the response has
      been copied into the table, the unsigned support has been noted, the async entry has been
      forced, the value has been handed to the caller. Marking the table as cached ends it. */
  datatype Stage = Sent | Copied | Noted | Forced | Told

  /** A query on its way: its message, the channel it was sent for and the one it is about. */
  datatype Ask = Ask(key: T.MsgKey, session: int, domain: nat, attribute: nat, stage: Stage)

  /** A value that a caller got. */
  datatype Reading = Reading(domain: nat, attribute: nat, value: nat)

  datatype State = State(chans: seq<C.Chan>, t: T.State, asks: map<Pid, Ask>, told: seq<Reading>)

  /** `answers` gives result and table in the response to each message. */
  datatype Env = Env(cfg: C.Config, backend: seq<seq<nat>>, answers: T.MsgKey -> (int, seq<nat>))

  /** Tables in messages have a fixed length, and the two attributes the driver looks at differ. */
  ghost predicate EnvOk(e: Env) {
    && C.ConfigOk(e.cfg) && C.BackendOk(e.cfg, e.backend) && e.cfg.asyncId != C.UNSIGNED_PD_SUPPORT
    && forall k :: |e.answers(k).1| == e.cfg.dspAttributes
  }

  /** The remote side answers with the attributes of the channel the request names. */
  ghost predicate HonestTo(e: Env, ask: Ask) {
    e.answers(ask.key).0 == 0 ==> 0 <= ask.session < |e.backend| && e.answers(ask.key).1 == e.backend[ask.session]
  }

  datatype Step =
    | Net(step: T.Step)
    | StartAsk(pid: Pid, ask: Ask)              // the table is not cached
    | CopyAsk(pid: Pid)                         // the wait is over: the response is copied
    | NoteAsk(pid: Pid)                         // unsigned_support is set
    | ForceAsk(pid: Pid)                        // the async entry is set to 1
    | TellAsk(pid: Pid)                         // the entry asked for is handed out
    | MarkAsk(pid: Pid)                         // is_cached is set
    | ReadCached(domain: nat, attribute: nat)   // a query that finds the table cached

  predicate At(s: State, pid: Pid, stage: Stage) {
    pid in s.asks && s.asks[pid].stage == stage && s.asks[pid].domain < |s.chans|
  }

  ghost predicate Enabled(e: Env, s: State, step: Step) {
    match step
    case Net(st) => T.Enabled(s.t, st)
    case StartAsk(pid, ask) =>
      && pid !in s.asks && ask.stage.Sent? && ask.domain < |s.chans| && ask.attribute < e.cfg.dspAttributes
      && !s.chans[ask.domain].isCached
      && ask.key in s.t.w.msgs && s.t.w.msgs[ask.key].pc.Filling? && HonestTo(e, ask)
    case CopyAsk(pid) => At(s, pid, Sent) && s.asks[pid].key in s.t.w.msgs && s.t.w.msgs[s.asks[pid].key].pc.Passed?
    case NoteAsk(pid) => At(s, pid, Copied)
    case ForceAsk(pid) => At(s, pid, Noted)
    case TellAsk(pid) => At(s, pid, Forced) && s.asks[pid].attribute < e.cfg.dspAttributes
    case MarkAsk(pid) => At(s, pid, Told)
    case ReadCached(d, a) => d < |s.chans| && a < e.cfg.dspAttributes && s.chans[d].isCached
  }

  function MoveOn(s: State, pid: Pid, ch: C.Chan, stage: Stage): State
    requires pid in s.asks && s.asks[pid].domain < |s.chans|
  {
    s.(chans := s.chans[s.asks[pid].domain := ch], asks := s.asks[pid := s.asks[pid].(stage := stage)])
  }

  /** A missing response leaves the error code at 0 and the table as it was; an error ends the
      query. */
  function Copy(e: Env, s: State, pid: Pid): State
    requires pid in s.asks && s.asks[pid].domain < |s.chans| && s.asks[pid].key in s.t.w.msgs
  {
    var ch := s.chans[s.asks[pid].domain];
    match s.t.w.msgs[s.asks[pid].key].rxbuf
    case None => MoveOn(s, pid, ch, Copied)
    case Some(rx) =>
      if e.answers(rx.rsp.key).0 != 0 then s.(asks := s.asks - {pid})
      else MoveOn(s, pid, ch.(attrs := e.answers(rx.rsp.key).1), Copied)
  }

  function Apply(e: Env, s: State, step: Step): (s': State)
    requires EnvOk(e) && C.Shaped(e.cfg, s.chans) && Enabled(e, s, step)
    ensures C.Shaped(e.cfg, s'.chans) && |s'.chans| == |s.chans|
  {
    match step
    case Net(st) => s.(t := T.Apply(s.t, st))
    case StartAsk(pid, ask) => s.(asks := s.asks[pid := ask])
    case CopyAsk(pid) => Copy(e, s, pid)
    case NoteAsk(pid) =>
      var ch := s.chans[s.asks[pid].domain];
      MoveOn(s, pid, ch.(unsignedSupport := ch.attrs[C.UNSIGNED_PD_SUPPORT] != 0), Noted)
    case ForceAsk(pid) =>
      var ch := s.chans[s.asks[pid].domain];
      MoveOn(s, pid, ch.(attrs := C.Forced(e.cfg, ch.attrs)), Forced)
    case TellAsk(pid) =>
      var ask := s.asks[pid];
      MoveOn(s, pid, s.chans[ask.domain], Told).(
        told := s.told + [Reading(ask.domain, ask.attribute, s.chans[ask.domain].attrs[ask.attribute])])
    case MarkAsk(pid) =>
      MoveOn(s, pid, s.chans[s.asks[pid].domain].(isCached := true), Told).(asks := s.asks - {pid})
    case ReadCached(d, a) => s.(told := s.told + [Reading(d, a, s.chans[d].attrs[a])])
  }

  // ---------------------------------------------------------------- what holds in every run

  /** The table is the backend's, but for the async entry, which is the backend's or forced. */
  ghost predicate Filled(e: Env, ch: C.Chan, d: nat)
    requires d < |e.backend|
  {
    && |ch.attrs| == |e.backend[d]|
    && forall a :: 0 <= a < |ch.attrs| ==>
         ch.attrs[a] == e.backend[d][a] || (a == e.cfg.asyncId && ch.attrs[a] == 1)
  }

  ghost predicate Supported(e: Env, ch: C.Chan, d: nat)
    requires d < |e.backend|
  {
    C.UNSIGNED_PD_SUPPORT < |e.backend[d]| ==>
      (ch.unsignedSupport <==> e.backend[d][C.UNSIGNED_PD_SUPPORT] != 0)
  }

  ghost predicate AskAt(e: Env, s: State, p: Pid) {
    p in s.asks ==>
      var ask := s.asks[p];
      && ask.session == ask.domain < |s.chans| && |s.chans| == |e.backend|
      && ask.attribute < e.cfg.dspAttributes && HonestTo(e, ask)
      && (!ask.stage.Sent? ==> Filled(e, s.chans[ask.domain], ask.domain))
      && (!ask.stage.Sent? && !ask.stage.Copied? ==> Supported(e, s.chans[ask.domain], ask.domain))
  }

  ghost predicate ChanAt(e: Env, s: State, d: nat) {
    d < |s.chans| && d < |e.backend| && s.chans[d].isCached ==>
      Filled(e, s.chans[d], d) && Supported(e, s.chans[d], d)
  }

  /** A caller got the backend's value; of the async attribute, that or 1. */
  ghost predicate Sound(e: Env, r: Reading) {
    && r.domain < |e.backend| && r.attribute < |e.backend[r.domain]|
    && (r.value == e.backend[r.domain][r.attribute] || (r.attribute == e.cfg.asyncId && r.value == 1))
  }

  ghost predicate Inv(e: Env, s: State) {
    && T.Inv(s.t) && |s.chans| == |e.backend| && C.Shaped(e.cfg, s.chans)
    && (forall p: Pid :: AskAt(e, s, p)) && (forall d: nat :: ChanAt(e, s, d))
    && forall i :: 0 <= i < |s.told| ==> Sound(e, s.told[i])
  }

  predicate Own(step: Step) { step.StartAsk? ==> step.ask.session == step.ask.domain }

  /** The waiter finds the response to its own query. */
  lemma CopyFinds(e: Env, s: State, pid: Pid)
    requires EnvOk(e) && T.Inv(s.t) && Enabled(e, s, CopyAsk(pid))
    ensures var ask := s.asks[pid];
            Copy(e, s, pid) == if e.answers(ask.key).0 != 0 then s.(asks := s.asks - {pid})
                               else MoveOn(s, pid, s.chans[ask.domain].(attrs := e.answers(ask.key).1), Copied)
  {
    assert T.KeyAt(s.t, s.asks[pid].key);
  }

  /** What one thread does to a channel does not unsettle the others: an own response can only
      fill it again, forcing keeps it filled, and noting reads it. */
  lemma OthersKept(e: Env, s: State, pid: Pid, ch: C.Chan, stage: Stage)
    requires EnvOk(e) && Inv(e, s) && pid in s.asks && s.asks[pid].domain < |s.chans|
    requires var d := s.asks[pid].domain;
             var was := s.chans[d];
             && |ch.attrs| == e.cfg.dspAttributes && ch.isCached == was.isCached
             && ((!stage.Sent? || Filled(e, was, d)) ==> Filled(e, ch, d))
             && (((!stage.Sent? && !stage.Copied?) || Supported(e, was, d)) ==> Supported(e, ch, d))
    ensures Inv(e, MoveOn(s, pid, ch, stage))
  {
    var s' := MoveOn(s, pid, ch, stage);
    hide T.Inv, Filled, Supported, HonestTo;
    forall p: Pid ensures AskAt(e, s', p) { assert AskAt(e, s, p) && AskAt(e, s, pid); }
    forall d: nat ensures ChanAt(e, s', d) { assert ChanAt(e, s, d) && AskAt(e, s, pid); }
  }

  lemma StepKeeps(e: Env, s: State, step: Step)
    requires EnvOk(e) && Inv(e, s) && Enabled(e, s, step) && Own(step)
    ensures Inv(e, Apply(e, s, step))
  {
    match step
    case Net(st) => NetKeeps(e, s, st);
    case StartAsk(pid, ask) => StartKeeps(e, s, pid, ask);
    case CopyAsk(pid) => CopyKeeps(e, s, pid);
    case NoteAsk(pid) => NoteKeeps(e, s, pid);
    case ForceAsk(pid) => ForceKeeps(e, s, pid);
    case TellAsk(pid) => TellKeeps(e, s, pid);
    case MarkAsk(pid) => MarkKeeps(e, s, pid);
    case ReadCached(d, a) => ReadKeeps(e, s, d, a);
  }

  lemma NetKeeps(e: Env, s: State, st: T.Step)
    requires EnvOk(e) && Inv(e, s) && T.Enabled(s.t, st)
    ensures Inv(e, s.(t := T.Apply(s.t, st)))
  {
    T.StepKeeps(s.t, st);
    var s' := s.(t := T.Apply(s.t, st));
    hide T.Inv, T.Enabled, T.Apply, Filled, Supported, HonestTo;
    forall p: Pid ensures AskAt(e, s', p) { assert AskAt(e, s, p); }
    forall d: nat ensures ChanAt(e, s', d) { assert ChanAt(e, s, d); }
  }

  lemma StartKeeps(e: Env, s: State, pid: Pid, ask: Ask)
    requires EnvOk(e) && Inv(e, s) && Enabled(e, s, StartAsk(pid, ask)) && ask.session == ask.domain
    ensures Inv(e, s.(asks := s.asks[pid := ask]))
  {
    var s' := s.(asks := s.asks[pid := ask]);
    hide T.Inv, Filled, Supported, HonestTo;
    forall p: Pid ensures AskAt(e, s', p) { assert AskAt(e, s, p); }
    forall d: nat ensures ChanAt(e, s', d) { assert ChanAt(e, s, d); }
  }

  lemma CopyKeeps(e: Env, s: State, pid: Pid)
    requires EnvOk(e) && Inv(e, s) && Enabled(e, s, CopyAsk(pid))
    ensures Inv(e, Copy(e, s, pid))
  {
    CopyFinds(e, s, pid);
    var ask := s.asks[pid];
    assert AskAt(e, s, pid);
    hide T.Inv, Copy;
    if e.answers(ask.key).0 == 0 {
      OthersKept(e, s, pid, s.chans[ask.domain].(attrs := e.answers(ask.key).1), Copied);
    } else {
      Ended(e, s, pid);
    }
  }

  lemma Ended(e: Env, s: State, pid: Pid)
    requires Inv(e, s)
    ensures Inv(e, s.(asks := s.asks - {pid}))
  {
    var s' := s.(asks := s.asks - {pid});
    hide T.Inv, Filled, Supported, HonestTo;
    forall p: Pid ensures AskAt(e, s', p) { assert AskAt(e, s, p); }
    forall d: nat ensures ChanAt(e, s', d) { assert ChanAt(e, s, d); }
  }

  lemma NoteKeeps(e: Env, s: State, pid: Pid)
    requires EnvOk(e) && Inv(e, s) && Enabled(e, s, NoteAsk(pid))
    ensures Inv(e, Apply(e, s, NoteAsk(pid)))
  {
    var ch := s.chans[s.asks[pid].domain];
    assert AskAt(e, s, pid);
    hide T.Inv;
    OthersKept(e, s, pid, ch.(unsignedSupport := ch.attrs[C.UNSIGNED_PD_SUPPORT] != 0), Noted);
  }

  lemma ForceKeeps(e: Env, s: State, pid: Pid)
    requires EnvOk(e) && Inv(e, s) && Enabled(e, s, ForceAsk(pid))
    ensures Inv(e, Apply(e, s, ForceAsk(pid)))
  {
    var ch := s.chans[s.asks[pid].domain];
    assert AskAt(e, s, pid);
    hide T.Inv;
    OthersKept(e, s, pid, ch.(attrs := C.Forced(e.cfg, ch.attrs)), Forced);
  }

  lemma TellKeeps(e: Env, s: State, pid: Pid)
    requires EnvOk(e) && Inv(e, s) && Enabled(e, s, TellAsk(pid))
    ensures Inv(e, Apply(e, s, TellAsk(pid)))
  {
    var ask := s.asks[pid];
    assert AskAt(e, s, pid);
    hide T.Inv;
    OthersKept(e, s, pid, s.chans[ask.domain], Told);
    HandedOut(e, MoveOn(s, pid, s.chans[ask.domain], Told), ask.domain, ask.attribute);
  }

  lemma HandedOut(e: Env, s: State, d: nat, a: nat)
    requires EnvOk(e) && Inv(e, s) && d < |s.chans| && a < e.cfg.dspAttributes && Filled(e, s.chans[d], d)
    ensures Inv(e, s.(told := s.told + [Reading(d, a, s.chans[d].attrs[a])]))
  {
    var s' := s.(told := s.told + [Reading(d, a, s.chans[d].attrs[a])]);
    assert Sound(e, Reading(d, a, s.chans[d].attrs[a]));
    hide T.Inv, Filled, Supported, HonestTo, Sound;
    forall p: Pid ensures AskAt(e, s', p) { assert AskAt(e, s, p); }
    forall c: nat ensures ChanAt(e, s', c) { assert ChanAt(e, s, c); }
  }

  lemma MarkKeeps(e: Env, s: State, pid: Pid)
    requires EnvOk(e) && Inv(e, s) && Enabled(e, s, MarkAsk(pid))
    ensures Inv(e, Apply(e, s, MarkAsk(pid)))
  {
    var s' := Apply(e, s, MarkAsk(pid));
    assert AskAt(e, s, pid);
    hide T.Inv, HonestTo;
    forall p: Pid ensures AskAt(e, s', p) { assert AskAt(e, s, p); }
    forall d: nat ensures ChanAt(e, s', d) { assert ChanAt(e, s, d); }
  }

  lemma ReadKeeps(e: Env, s: State, d: nat, a: nat)
    requires EnvOk(e) && Inv(e, s) && Enabled(e, s, ReadCached(d, a))
    ensures Inv(e, Apply(e, s, ReadCached(d, a)))
  {
    assert ChanAt(e, s, d);
    hide T.Inv, Filled;
    HandedOut(e, s, d, a);
  }

  // ---------------------------------------------------------------- when the cache is right

  /** Copying a response onto a channel, whichever it is about: the cache is right afterwards
      exactly when the query failed, the channel was not yet cached, or the response already
      has 1 as async attribute and is otherwise that channel's own. */
  lemma CopyExact(e: Env, s: State, pid: Pid)
    requires EnvOk(e) && T.Inv(s.t) && C.CacheRight(e.cfg, s.chans, e.backend) && Enabled(e, s, CopyAsk(pid))
    requires HonestTo(e, s.asks[pid])
    ensures var ask := s.asks[pid];
            C.CacheRight(e.cfg, Copy(e, s, pid).chans, e.backend) <==>
              (e.answers(ask.key).0 == 0 && s.chans[ask.domain].isCached ==>
                 && e.backend[ask.session][e.cfg.asyncId] == 1
                 && forall a :: 0 <= a < e.cfg.dspAttributes && a != e.cfg.asyncId ==>
                      e.backend[ask.session][a] == e.backend[ask.domain][a])
  {
    CopyFinds(e, s, pid);
    var ask := s.asks[pid];
    var d := ask.domain;
    hide T.Inv, Copy;
    if e.answers(ask.key).0 == 0 {
      var got := e.backend[ask.session];
      var chans := s.chans[d := s.chans[d].(attrs := got)];
      assert C.ChanRight(e.cfg, s.chans[d], e.backend, d);
      CopiedRight(e, s.chans, d, got);
    }
  }

  lemma CopiedRight(e: Env, chans: seq<C.Chan>, d: nat, got: seq<nat>)
    requires EnvOk(e) && C.CacheRight(e.cfg, chans, e.backend) && d < |chans| && |got| == e.cfg.dspAttributes
    ensures C.CacheRight(e.cfg, chans[d := chans[d].(attrs := got)], e.backend) <==>
              (chans[d].isCached ==>
                 && got[e.cfg.asyncId] == 1
                 && forall a :: 0 <= a < e.cfg.dspAttributes && a != e.cfg.asyncId ==> got[a] == e.backend[d][a])
  {
    var after := chans[d := chans[d].(attrs := got)];
    assert C.ChanRight(e.cfg, chans[d], e.backend, d);
    if chans[d].isCached {
      assert C.ChanRight(e.cfg, after[d], e.backend, d) <==>
             forall a :: 0 <= a < |got| ==> got[a] == C.Truth(e.cfg, e.backend, d, a);
      if forall a :: 0 <= a < |got| ==> got[a] == C.Truth(e.cfg, e.backend, d, a) {
        assert got[e.cfg.asyncId] == C.Truth(e.cfg, e.backend, d, e.cfg.asyncId);
        forall a | 0 <= a < e.cfg.dspAttributes && a != e.cfg.asyncId ensures got[a] == e.backend[d][a] {
          assert got[a] == C.Truth(e.cfg, e.backend, d, a);
        }
      }
    }
    forall c | 0 <= c < |chans| && c != d ensures C.ChanRight(e.cfg, after[c], e.backend, c) {
      assert C.ChanRight(e.cfg, chans[c], e.backend, c);
    }
  }

  ghost predicate AsyncRight(e: Env, s: State)
    requires EnvOk(e) && C.Shaped(e.cfg, s.chans)
  {
    forall d :: 0 <= d < |s.chans| && s.chans[d].isCached ==> s.chans[d].attrs[e.cfg.asyncId] == 1
  }

  /** In every run of queries about the files' own channels the async entry is all that can be
      wrong in the cache. */
  lemma RightIff(e: Env, s: State)
    requires EnvOk(e) && Inv(e, s)
    ensures C.CacheRight(e.cfg, s.chans, e.backend) <==> AsyncRight(e, s)
  {
    hide T.Inv, Supported;
    forall d | 0 <= d < |s.chans| && s.chans[d].isCached
      ensures C.ChanRight(e.cfg, s.chans[d], e.backend, d) <==> s.chans[d].attrs[e.cfg.asyncId] == 1
    {
      ChanRightIff(e, s, d);
    }
  }

  lemma ChanRightIff(e: Env, s: State, d: nat)
    requires EnvOk(e) && Inv(e, s) && d < |s.chans| && s.chans[d].isCached
    ensures C.ChanRight(e.cfg, s.chans[d], e.backend, d) <==> s.chans[d].attrs[e.cfg.asyncId] == 1
  {
    assert ChanAt(e, s, d);
    hide T.Inv, Inv;
    var ch := s.chans[d];
    if ch.attrs[e.cfg.asyncId] != 1 {
      assert ch.attrs[e.cfg.asyncId] != C.Truth(e.cfg, e.backend, d, e.cfg.asyncId);
    }
  }

  /** The steps that make a right cache wrong. */
  ghost predicate Spoils(e: Env, s: State, step: Step)
    requires EnvOk(e) && Inv(e, s) && Enabled(e, s, step)
  {
    match step
    case CopyAsk(pid) =>
      var ask := s.asks[pid];
      e.answers(ask.key).0 == 0 && s.chans[ask.domain].isCached && e.answers(ask.key).1[e.cfg.asyncId] != 1
    case MarkAsk(pid) => s.chans[s.asks[pid].domain].attrs[e.cfg.asyncId] != 1
    case _ => false
  }

  /** Which steps make a right cache wrong: copying a table without the async attribute over a
      cached one, and marking a table that such a copy has reset since it was forced. */
  lemma StepExact(e: Env, s: State, step: Step)
    requires EnvOk(e) && Inv(e, s) && Enabled(e, s, step) && Own(step) && C.CacheRight(e.cfg, s.chans, e.backend)
    ensures C.CacheRight(e.cfg, Apply(e, s, step).chans, e.backend) <==> !Spoils(e, s, step)
  {
    StepKeeps(e, s, step);
    RightIff(e, s);
    RightIff(e, Apply(e, s, step));
    if step.CopyAsk? { CopyFinds(e, s, step.pid); }
    hide Inv, C.CacheRight, Copy;
    AsyncExact(e, s, step);
  }

  lemma AsyncExact(e: Env, s: State, step: Step)
    requires EnvOk(e) && Inv(e, s) && Enabled(e, s, step) && AsyncRight(e, s)
    ensures AsyncRight(e, Apply(e, s, step)) <==> !Spoils(e, s, step)
  {
    if step.CopyAsk? { CopyFinds(e, s, step.pid); }
    hide Inv, Copy, HonestTo, T.Enabled, T.Apply;
    var s' := Apply(e, s, step);
    if step.CopyAsk? || step.MarkAsk? || step.NoteAsk? || step.ForceAsk? || step.TellAsk? {
      var d := s.asks[step.pid].domain;
      assert forall c :: 0 <= c < |s.chans| && c != d ==> s'.chans[c] == s.chans[c];
      assert Spoils(e, s, step) <==> s'.chans[d].isCached && s'.chans[d].attrs[e.cfg.asyncId] != 1;
    }
  }

  // ---------------------------------------------------------------- runs

  ghost predicate Legal(e: Env, s: State, run: seq<Step>)
    requires EnvOk(e) && C.Shaped(e.cfg, s.chans)
    decreases |run|
  {
    run == [] || (Enabled(e, s, run[0]) && Own(run[0]) && Legal(e, Apply(e, s, run[0]), run[1..]))
  }

  ghost function Run(e: Env, s: State, run: seq<Step>): (s': State)
    requires EnvOk(e) && C.Shaped(e.cfg, s.chans) && Legal(e, s, run)
    ensures C.Shaped(e.cfg, s'.chans) && |s'.chans| == |s.chans|
    decreases |run|
  {
    if run == [] then s else Run(e, Apply(e, s, run[0]), run[1..])
  }

  /** Over every interleaving of queries about the files' own channels, overlapping or not,
      every cached table and every value handed out is the backend's, except that of the async
      attribute it may be either the backend's or 1. */
  lemma {:induction false} RunKeeps(e: Env, s: State, run: seq<Step>)
    requires EnvOk(e) && Inv(e, s) && Legal(e, s, run)
    ensures Inv(e, Run(e, s, run))
    decreases |run|
  {
    assert C.Shaped(e.cfg, s.chans);
    hide Inv, Apply, Enabled, EnvOk;
    if run != [] {
      StepKeeps(e, s, run[0]);
      RunKeeps(e, Apply(e, s, run[0]), run[1..]);
    }
  }

  /** No query about a channel is started while another about it is on its way. */
  predicate Solo(s: State, step: Step) {
    step.StartAsk? ==> forall p :: p in s.asks ==> s.asks[p].domain != step.ask.domain
  }

  ghost predicate SoloRun(e: Env, s: State, run: seq<Step>)
    requires EnvOk(e) && C.Shaped(e.cfg, s.chans) && Legal(e, s, run)
    decreases |run|
  {
    run == [] || (Solo(s, run[0]) && SoloRun(e, Apply(e, s, run[0]), run[1..]))
  }

  ghost predicate AloneAt(e: Env, s: State, p: Pid)
    requires EnvOk(e) && C.Shaped(e.cfg, s.chans)
  {
    p in s.asks ==>
      var ask := s.asks[p];
      && ask.domain < |s.chans| && !s.chans[ask.domain].isCached
      && (ask.stage.Forced? || ask.stage.Told? ==> s.chans[ask.domain].attrs[e.cfg.asyncId] == 1)
  }

  ghost predicate Alone(e: Env, s: State)
    requires EnvOk(e) && C.Shaped(e.cfg, s.chans)
  {
    && (forall p: Pid :: AloneAt(e, s, p))
    && forall p, q :: p in s.asks && q in s.asks && p != q ==> s.asks[p].domain != s.asks[q].domain
  }

  /** Callers got what a fresh query of the channel would say. */
  ghost predicate ToldRight(e: Env, s: State) {
    forall i :: 0 <= i < |s.told| ==>
      var r := s.told[i];
      r.domain < |e.backend| && r.attribute < |e.backend[r.domain]|
      && r.value == C.Truth(e.cfg, e.backend, r.domain, r.attribute)
  }

  ghost predicate Good(e: Env, s: State)
    requires EnvOk(e)
  {
    Inv(e, s) && AsyncRight(e, s) && Alone(e, s) && ToldRight(e, s)
  }

  lemma AloneKept(e: Env, s: State, step: Step)
    requires EnvOk(e) && Inv(e, s) && Alone(e, s) && Enabled(e, s, step) && Solo(s, step)
    ensures Alone(e, Apply(e, s, step)) && !Spoils(e, s, step)
  {
    assert C.Shaped(e.cfg, s.chans);
    hide Inv, HonestTo, T.Enabled, T.Apply;
    if step.Net? || step.StartAsk? || step.ReadCached? {
      var s' := Apply(e, s, step);
      forall p: Pid ensures AloneAt(e, s', p) { assert AloneAt(e, s, p); }
    } else {
      assert AloneAt(e, s, step.pid);
      OwnStepAlone(e, s, step);
    }
  }

  lemma OwnStepAlone(e: Env, s: State, step: Step)
    requires EnvOk(e) && Inv(e, s) && Alone(e, s) && Enabled(e, s, step)
    requires !step.Net? && !step.StartAsk? && !step.ReadCached?
    ensures Alone(e, Apply(e, s, step))
  {
    if step.CopyAsk? { CopyFinds(e, s, step.pid); }
    hide Inv, Copy, HonestTo, T.Enabled, T.Apply;
    var s' := Apply(e, s, step);
    assert AloneAt(e, s, step.pid);
    forall p: Pid ensures AloneAt(e, s', p) { assert AloneAt(e, s, p); }
  }

  lemma ToldKept(e: Env, s: State, step: Step)
    requires EnvOk(e) && Good(e, s) && Enabled(e, s, step)
    ensures ToldRight(e, Apply(e, s, step))
  {
    match step
    case TellAsk(pid) =>
      assert AskAt(e, s, pid) && AloneAt(e, s, pid);
      hide Inv;
      ToldMore(e, s, s.asks[pid].domain, s.asks[pid].attribute);
    case ReadCached(d, a) =>
      assert ChanAt(e, s, d);
      hide Inv;
      ToldMore(e, s, d, a);
    case CopyAsk(pid) => CopyFinds(e, s, pid);
    case _ =>
  }

  lemma ToldMore(e: Env, s: State, d: nat, a: nat)
    requires EnvOk(e) && ToldRight(e, s) && d < |s.chans| && d < |e.backend| && a < e.cfg.dspAttributes
    requires Filled(e, s.chans[d], d) && s.chans[d].attrs[e.cfg.asyncId] == 1
    ensures ToldRight(e, s.(told := s.told + [Reading(d, a, s.chans[d].attrs[a])]))
  {
  }

  lemma GoodKept(e: Env, s: State, step: Step)
    requires EnvOk(e) && Good(e, s) && Enabled(e, s, step) && Own(step) && Solo(s, step)
    ensures Good(e, Apply(e, s, step))
  {
    hide Inv, Alone, ToldRight, Apply, Enabled, AsyncRight;
    StepKeeps(e, s, step);
    AloneKept(e, s, step);
    AsyncExact(e, s, step);
    ToldKept(e, s, step);
  }

  /** How often channel `d` is marked as cached. */
  ghost function Marks(e: Env, s: State, run: seq<Step>, d: nat): nat
    requires EnvOk(e) && C.Shaped(e.cfg, s.chans) && Legal(e, s, run)
    decreases |run|
  {
    if run == [] then 0
    else (if run[0].MarkAsk? && s.asks[run[0].pid].domain == d then 1 else 0)
         + Marks(e, Apply(e, s, run[0]), run[1..], d)
  }

  lemma MarkedNow(e: Env, s: State, step: Step, d: nat)
    requires EnvOk(e) && Good(e, s) && Enabled(e, s, step) && d < |s.chans|
    ensures var s' := Apply(e, s, step);
            var now := step.MarkAsk? && s.asks[step.pid].domain == d;
            && (now ==> !s.chans[d].isCached) && s'.chans[d].isCached == (s.chans[d].isCached || now)
  {
    if step.MarkAsk? { assert AloneAt(e, s, step.pid); }
    if step.CopyAsk? { CopyFinds(e, s, step.pid); }
    hide Inv, T.Enabled, T.Apply;
  }

  /** Over every interleaving of queries about the files' own channels in which no two about the
      same channel overlap: the cache is right throughout, every caller got what a fresh query
      would say, and each channel is fetched at most once, not at all if it is cached. */
  lemma {:induction false} CacheInRuns(e: Env, s: State, run: seq<Step>, d: nat)
    requires EnvOk(e) && Good(e, s) && Legal(e, s, run) && SoloRun(e, s, run) && d < |s.chans|
    ensures Good(e, Run(e, s, run)) && C.CacheRight(e.cfg, Run(e, s, run).chans, e.backend)
    ensures Marks(e, s, run, d) <= if s.chans[d].isCached then 0 else 1
    decreases |run|
  {
    assert C.Shaped(e.cfg, s.chans);
    hide Inv, Apply, Enabled, EnvOk, Alone, ToldRight, C.CacheRight, AsyncRight;
    if run == [] {
      RightIff(e, s);
    } else {
      GoodKept(e, s, run[0]);
      MarkedNow(e, s, run[0], d);
      CacheInRuns(e, Apply(e, s, run[0]), run[1..], d);
    }
  }

  /** A fresh driver. */
  function Init(cfg: C.Config, n: nat, numBufs: nat): State {
    State(seq(n, _ => C.Chan(false, seq(cfg.dspAttributes, _ => 0), false)), T.Init(numBufs), map[], [])
  }

  lemma InitGood(e: Env, numBufs: nat)
    requires EnvOk(e)
    ensures Good(e, Init(e.cfg, |e.backend|, numBufs))
  {
    T.InitInv(numBufs);
    hide T.Inv, T.Init;
  }
}
