/** The domain of a session. It is tested and stored without a lock, so that it is set once holds
    exactly for the runs in which GETINFO calls that overlap agree. */
module SessionDomain {
  import opened Wrappers
  import S = Session
  import T = Transport
  import opened SessionNet

  /** A store that replaces a domain that was set. */
  predicate Overwrites(c: State, step: Step) {
    step.StoreInfo? && step.pid in c.checks && c.s.domain != -1 && c.checks[step.pid] != c.s.domain
  }

  /** Some step of the run replaces a domain that was set. */
  ghost predicate Overwritten(c: State, run: seq<Step>, answers: Answers)
    requires Legal(c, run, answers)
    decreases |run|
  {
    run != [] && (Overwrites(c, run[0]) || Overwritten(Apply(c, run[0], answers), run[1..], answers))
  }

  /** Nothing but a store changes the domain. */
  lemma StepDomain(c: State, step: Step, answers: Answers)
    requires Enabled(c, step)
    ensures Apply(c, step, answers).s.domain == if step.StoreInfo? then c.checks[step.pid] else c.s.domain
  {
    hide T.Enabled, T.Apply, S.Admitted, S.ReadsChannel;
  }

  /** A domain that is set stays the same through a run in which no store replaces one. */
  lemma {:induction false} DomainStays(c: State, run: seq<Step>, answers: Answers)
    requires c.s.domain != -1 && Legal(c, run, answers) && !Overwritten(c, run, answers)
    ensures Run(c, run, answers).s.domain == c.s.domain
    decreases |run|
  {
    hide Apply, Enabled;
    if run != [] {
      StepDomain(c, run[0], answers);
      assert Enabled(c, run[0]) && (run[0].StoreInfo? ==> run[0].pid in c.checks) by { ChecksOf(c, run[0]); }
      DomainStays(Apply(c, run[0], answers), run[1..], answers);
    }
  }

  lemma ChecksOf(c: State, step: Step)
    requires Enabled(c, step)
    ensures step.StoreInfo? ==> step.pid in c.checks
  {
  }

  // ---------------------------------------------------------------- when it is set once

  /** All GETINFO calls under way would store the same domain, the one that is set if it is. */
  ghost predicate Safe(c: State) {
    && (forall p, q :: p in c.checks && q in c.checks ==> c.checks[p] == c.checks[q])
    && forall p :: p in c.checks && c.s.domain != -1 ==> c.checks[p] == c.s.domain
  }

  /** A GETINFO that starts while another is under way names the same domain. */
  predicate Agrees(c: State, step: Step) {
    step.CheckInfo? ==> forall p :: p in c.checks ==> c.checks[p] == step.domain
  }

  ghost predicate Agreeing(c: State, run: seq<Step>, answers: Answers)
    requires Legal(c, run, answers)
    decreases |run|
  {
    run == [] || (Agrees(c, run[0]) && Agreeing(Apply(c, run[0], answers), run[1..], answers))
  }

  lemma StepChecks(c: State, step: Step, answers: Answers)
    requires Enabled(c, step)
    ensures Apply(c, step, answers).checks ==
            match step
            case CheckInfo(pid, _, d, _) => c.checks[pid := d]
            case StoreInfo(pid) => c.checks - {pid}
            case _ => c.checks
    ensures step.CheckInfo? ==> step.pid !in c.checks && c.s.domain == -1
    ensures step.StoreInfo? ==> step.pid in c.checks
  {
    hide T.Enabled, T.Apply, S.Apply, S.Admitted, S.ReadsChannel, S.DomainAllowed;
  }

  /** From a safe state a step leads to a safe one exactly when it agrees. */
  lemma SafeExact(c: State, step: Step, answers: Answers)
    requires Enabled(c, step) && Safe(c)
    ensures Safe(Apply(c, step, answers)) <==> Agrees(c, step)
    ensures !Overwrites(c, step)
  {
    StepDomain(c, step, answers);
    StepChecks(c, step, answers);
    hide Apply, Enabled;
    var c' := Apply(c, step, answers);
    match step
    case CheckInfo(pid, _, d, _) =>
      if !Agrees(c, step) {
        var p :| p in c.checks && c.checks[p] != d;
        assert c'.checks[p] != c'.checks[pid];
      }
    case StoreInfo(pid) => assert forall p :: p in c'.checks ==> c'.checks[p] == c.checks[pid];
    case _ =>
  }

  /** A state that is not safe can lose its domain: one or two of the stores under way do it. */
  lemma UnsafeFails(c: State, answers: Answers) returns (run: seq<Step>)
    requires !Safe(c)
    ensures Legal(c, run, answers) && Overwritten(c, run, answers)
    ensures |run| <= 2 && forall i :: 0 <= i < |run| ==> run[i].StoreInfo?
  {
    if c.s.domain != -1 && exists p :: p in c.checks && c.checks[p] != c.s.domain {
      var p :| p in c.checks && c.checks[p] != c.s.domain;
      run := [StoreInfo(p)];
    } else {
      var p, q :| p in c.checks && q in c.checks && c.checks[p] != c.checks[q];
      run := [StoreInfo(p), StoreInfo(q)];
      var c1 := Apply(c, run[0], answers);
      assert run[1..] == [StoreInfo(q)] && Overwrites(c1, StoreInfo(q));
      assert Overwritten(c1, run[1..], answers) by { assert [StoreInfo(q)][1..] == []; }
    }
  }

  /** Set at most once: in a run whose overlapping GETINFO calls agree no store replaces a
      domain, and once set it stays. */
  lemma {:induction false} DomainIsSetOnce(c: State, run: seq<Step>, answers: Answers)
    requires Safe(c) && Legal(c, run, answers) && Agreeing(c, run, answers)
    ensures Safe(Run(c, run, answers)) && !Overwritten(c, run, answers)
    ensures c.s.domain != -1 ==> Run(c, run, answers).s.domain == c.s.domain
    decreases |run|
  {
    hide Apply, Enabled, Safe;
    if run != [] {
      SafeExact(c, run[0], answers);
      DomainIsSetOnce(Apply(c, run[0], answers), run[1..], answers);
    }
    if c.s.domain != -1 { DomainStays(c, run, answers); }
  }

  /** Two threads of one file ask with different domains at once: both find none, the first
      stores 1, the second replaces it with 2. */
  lemma DomainCanChange(answers: Answers)
    ensures var open := S.Channel(false, false);
            var run := [CheckInfo(0, true, 1, false), CheckInfo(1, true, 2, false), StoreInfo(0)];
            var c := Init(1, [open, open, open]);
            && Legal(c, run, answers) && Run(c, run, answers).s.domain == 1
            && Enabled(Run(c, run, answers), StoreInfo(1))
            && Apply(Run(c, run, answers), StoreInfo(1), answers).s.domain == 2
  {
    var open := S.Channel(false, false);
    var c := Init(1, [open, open, open]);
    hide T.Init;
    var c1 := Apply(c, CheckInfo(0, true, 1, false), answers);
    var c2 := Apply(c1, CheckInfo(1, true, 2, false), answers);
    var c3 := Apply(c2, StoreInfo(0), answers);
    Three(c, CheckInfo(0, true, 1, false), CheckInfo(1, true, 2, false), StoreInfo(0), answers);
  }

  lemma One(c: State, step: Step, rest: seq<Step>, c': State, answers: Answers)
    requires Enabled(c, step)
    requires Legal(Apply(c, step, answers), rest, answers) && Run(Apply(c, step, answers), rest, answers) == c'
    ensures Legal(c, [step] + rest, answers) && Run(c, [step] + rest, answers) == c'
  {
    hide Apply, Enabled;
    assert ([step] + rest)[1..] == rest;
  }

  // ---------------------------------------------------------------- what OPENs name

  /** The domain `d` was the session's at some time: none yet, or the one it has. */
  predicate Known(c: State, d: int) { d == -1 || d == c.s.domain }

  /** Every OPEN names the session's domain or none; one that tested the record of a channel
      names that channel. */
  ghost predicate OpensFit(c: State) {
    && (forall p :: p in c.opens ==>
          && Known(c, c.opens[p].tested)
          && (c.opens[p].stage.Named? ==>
                Known(c, c.opens[p].stage.domain)
                && (c.opens[p].tested != -1 ==> c.opens[p].stage.domain == c.opens[p].tested)))
    && forall i :: 0 <= i < |c.s.log| && c.s.log[i].Open? ==> Known(c, c.s.log[i].domain)
  }

  lemma OpensFitKept(c: State, step: Step, answers: Answers)
    requires Enabled(c, step) && OpensFit(c) && !Overwrites(c, step)
    ensures OpensFit(Apply(c, step, answers))
  {
    hide T.Enabled, T.Apply, S.Admitted, S.ReadsChannel, S.DomainAllowed;
  }

  /** In a run whose overlapping GETINFO calls agree, every OPEN ever sent names the domain the
      session ends with, or none if it was written before one was set; and an OPEN names the
      channel whose record was tested, unless none was set then. */
  lemma {:induction false} OpensNameTheDomain(c: State, run: seq<Step>, answers: Answers)
    requires Safe(c) && OpensFit(c) && Legal(c, run, answers) && Agreeing(c, run, answers)
    ensures OpensFit(Run(c, run, answers))
    decreases |run|
  {
    hide Apply, Enabled, Safe, OpensFit;
    if run != [] {
      SafeExact(c, run[0], answers);
      OpensFitKept(c, run[0], answers);
      OpensNameTheDomain(Apply(c, run[0], answers), run[1..], answers);
    }
  }

  /** No OPEN under way was written before the domain `d` was set. */
  ghost predicate NoEarlyOpen(c: State, d: int) {
    forall p :: p in c.opens && c.opens[p].stage.Named? ==> c.opens[p].stage.domain == d
  }

  /** ... and every OPEN written after the domain is set names it. */
  lemma {:induction false} LaterOpensNameIt(c: State, run: seq<Step>, answers: Answers, i: nat)
    requires c.s.domain != -1 && NoEarlyOpen(c, c.s.domain) && Legal(c, run, answers) && !Overwritten(c, run, answers)
    requires |c.s.log| <= i < |Run(c, run, answers).s.log| && Run(c, run, answers).s.log[i].Open?
    ensures Run(c, run, answers).s.log[i].domain == c.s.domain
    decreases |run|
  {
    hide Apply, Enabled, NoEarlyOpen;
    if run != [] {
      var c' := Apply(c, run[0], answers);
      LaterStep(c, run[0], answers);
      if i < |c'.s.log| { LogIsKept(c', run[1..], answers, i); } else { LaterOpensNameIt(c', run[1..], answers, i); }
    }
  }

  lemma LaterStep(c: State, step: Step, answers: Answers)
    requires Enabled(c, step) && NoEarlyOpen(c, c.s.domain) && !Overwrites(c, step) && c.s.domain != -1
    ensures var c' := Apply(c, step, answers);
            && c'.s.domain == c.s.domain && NoEarlyOpen(c', c.s.domain)
            && forall i :: |c.s.log| <= i < |c'.s.log| && c'.s.log[i].Open? ==> c'.s.log[i].domain == c.s.domain
  {
    hide T.Enabled, T.Apply, S.Admitted, S.ReadsChannel, S.DomainAllowed;
  }

  lemma LogStep(c: State, step: Step, answers: Answers)
    requires Enabled(c, step)
    ensures c.s.log <= Apply(c, step, answers).s.log
  {
    hide T.Enabled, T.Apply, S.Admitted, S.ReadsChannel, S.DomainAllowed;
  }

  lemma {:induction false} LogIsKept(c: State, run: seq<Step>, answers: Answers, i: nat)
    requires Legal(c, run, answers) && i < |c.s.log|
    ensures i < |Run(c, run, answers).s.log| && Run(c, run, answers).s.log[i] == c.s.log[i]
    decreases |run|
  {
    hide Apply, Enabled;
    if run != [] {
      LogStep(c, run[0], answers);
      LogIsKept(Apply(c, run[0], answers), run[1..], answers, i);
    }
  }

  /** The record that is tested need not be that of the channel the OPEN names: a process is
      created before the domain is set, the domain is stored, and then the OPEN is written. It
      goes to a channel whose record would have refused the request. */
  lemma TestedNeedNotBeNamed(answers: Answers)
    ensures var refusing := S.Channel(false, false);
            var r := S.Create(true, true, false, false);
            var run := [BeginOpen(0, r, S.Channel(false, true)), CheckInfo(1, true, 0, false), StoreInfo(1),
                        Net(T.AllocMsg(0)), FillOpen(0, 0)];
            var c := Init(1, [refusing]);
            && Legal(c, run, answers) && 0 in Run(c, run, answers).opens && !S.Admitted(r, refusing)
            && Run(c, run, answers).opens[0] == OpenCall(r, S.Channel(false, true), -1, Named(0, 0))
  {
    var r := S.Create(true, true, false, false);
    var c := Init(1, [S.Channel(false, false)]);
    var begin, check, store := BeginOpen(0, r, S.Channel(false, true)), CheckInfo(1, true, 0, false), StoreInfo(1);
    hide T.Init;
    Three(c, begin, check, store, answers);
    var c3 := Run(c, [begin, check, store], answers);
    assert c3.t == T.Init(1) && c3.s.domain == 0 && c3.opens == map[0 := OpenCall(r, S.Channel(false, true), -1, Tested)];
    hide Apply, Enabled, Legal, Run;
    var c5 := AllocAndFill(c3, answers);
    One(Apply(Apply(c, begin, answers), check, answers), store, [Net(T.AllocMsg(0))] + [FillOpen(0, 0)], c5, answers);
    One(Apply(c, begin, answers), check, [store] + ([Net(T.AllocMsg(0))] + [FillOpen(0, 0)]), c5, answers);
    One(c, begin, [check] + ([store] + ([Net(T.AllocMsg(0))] + [FillOpen(0, 0)])), c5, answers);
    assert [begin, check, store, Net(T.AllocMsg(0)), FillOpen(0, 0)]
        == [begin] + ([check] + ([store] + ([Net(T.AllocMsg(0))] + [FillOpen(0, 0)])));
  }

  lemma AllocAndFill(c: State, answers: Answers) returns (c': State)
    requires c.t == T.Init(1) && c.opens.Keys == {0} && c.opens[0].stage.Tested?
    ensures Legal(c, [Net(T.AllocMsg(0))] + [FillOpen(0, 0)], answers)
    ensures Run(c, [Net(T.AllocMsg(0))] + [FillOpen(0, 0)], answers) == c'
    ensures c'.opens == c.opens[0 := c.opens[0].(stage := Named(0, c.s.domain))]
  {
    var c1 := Apply(c, Net(T.AllocMsg(0)), answers);
    c' := Apply(c1, FillOpen(0, 0), answers);
    hide Apply, Enabled;
    One(c1, FillOpen(0, 0), [], c', answers);
    assert [FillOpen(0, 0)] + [] == [FillOpen(0, 0)];
    One(c, Net(T.AllocMsg(0)), [FillOpen(0, 0)], c', answers);
  }

  lemma Three(c: State, a: Step, b: Step, d: Step, answers: Answers)
    requires Enabled(c, a) && Enabled(Apply(c, a, answers), b)
    requires Enabled(Apply(Apply(c, a, answers), b, answers), d)
    ensures Legal(c, [a, b, d], answers)
    ensures Run(c, [a, b, d], answers) == Apply(Apply(Apply(c, a, answers), b, answers), d, answers)
  {
    hide Apply, Enabled;
    var c1 := Apply(c, a, answers);
    var c2 := Apply(c1, b, answers);
    One(c2, d, [], Apply(c2, d, answers), answers);
    assert [d] + [] == [d];
    One(c1, b, [d], Apply(c2, d, answers), answers);
    One(c, a, [b] + [d], Apply(c2, d, answers), answers);
    assert [a, b, d] == [a] + ([b] + [d]);
  }
}
