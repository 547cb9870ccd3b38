/** The capability cache shared by all files: one table of attributes per channel. */
module Capability {
  import opened Wrappers

  /** The numbers of attributes and the id of the async attribute come from a shared header. */
  datatype Config = Config(dspAttributes: nat, kernelCaps: seq<nat>, asyncId: nat)

  const UNSIGNED_PD_SUPPORT := 1

  datatype Chan = Chan(isCached: bool, attrs: seq<nat>, unsignedSupport: bool)

  datatype Reply = NoMessage | SendFailed | NoResponse | Answer(result: int, caps: seq<nat>)

  datatype Errno = EOVERFLOW | ECHRNG | ENOMEM | SendError | Remote(result: int)

  /** A query by a file whose session is on channel `session`. */
  datatype Query = Query(session: int, domain: nat, attribute: nat, reply: Reply)

  ghost predicate ConfigOk(cfg: Config) {
    cfg.asyncId < cfg.dspAttributes && UNSIGNED_PD_SUPPORT < cfg.dspAttributes
  }

  /** Tables have their full length, and so do the answers of the backend. */
  ghost predicate Shaped(cfg: Config, chans: seq<Chan>) {
    forall d :: 0 <= d < |chans| ==> |chans[d].attrs| == cfg.dspAttributes
  }

  predicate ReplyOk(cfg: Config, reply: Reply) { reply.Answer? ==> |reply.caps| == cfg.dspAttributes }

  function NumAttributes(cfg: Config): nat { cfg.dspAttributes + |cfg.kernelCaps| }

  /** The query goes to the backend. */
  predicate Asks(cfg: Config, chans: seq<Chan>, q: Query) {
    q.domain < |chans| && q.attribute < cfg.dspAttributes && !chans[q.domain].isCached
  }

  /** ... and comes back without an error code, which includes a missing response. */
  predicate Fetches(cfg: Config, chans: seq<Chan>, q: Query) {
    Asks(cfg, chans, q) && (q.reply.NoResponse? || (q.reply.Answer? && q.reply.result == 0))
  }

  function Forced(cfg: Config, caps: seq<nat>): seq<nat>
    requires cfg.asyncId < |caps|
  {
    caps[cfg.asyncId := 1]
  }

  /** A fetched table goes into the cache. */
  function Stored(cfg: Config, chans: seq<Chan>, d: nat, got: seq<nat>): seq<Chan>
    requires ConfigOk(cfg) && d < |chans| && |got| == cfg.dspAttributes
  {
    chans[d := Chan(true, Forced(cfg, got), got[UNSIGNED_PD_SUPPORT] != 0)]
  }

  function Apply(cfg: Config, chans: seq<Chan>, q: Query): seq<Chan>
    requires ConfigOk(cfg) && Shaped(cfg, chans) && ReplyOk(cfg, q.reply)
  {
    if !Fetches(cfg, chans, q) then chans
    else Stored(cfg, chans, q.domain, if q.reply.Answer? then q.reply.caps else chans[q.domain].attrs)
  }

  // ---------------------------------------------------------------- a backend with fixed attributes

  ghost predicate BackendOk(cfg: Config, backend: seq<seq<nat>>) {
    forall d :: 0 <= d < |backend| ==> |backend[d]| == cfg.dspAttributes
  }

  /** The backend answers for the channel of the asking file's session, and the waiter finds
      the answer. */
  predicate Honest(backend: seq<seq<nat>>, q: Query) {
    && !q.reply.NoResponse?
    && (q.reply.Answer? && q.reply.result == 0 ==>
          0 <= q.session < |backend| && q.reply.caps == backend[q.session])
  }

  /** What a fresh query of channel `d` would say. */
  function Truth(cfg: Config, backend: seq<seq<nat>>, d: nat, a: nat): nat
    requires d < |backend| && a < |backend[d]|
  {
    if a == cfg.asyncId then 1 else backend[d][a]
  }

  ghost predicate ChanRight(cfg: Config, ch: Chan, backend: seq<seq<nat>>, d: nat)
    requires d < |backend|
  {
    ch.isCached ==>
      && |ch.attrs| == |backend[d]|
      && (forall a :: 0 <= a < |ch.attrs| ==> ch.attrs[a] == Truth(cfg, backend, d, a))
      && (UNSIGNED_PD_SUPPORT < |backend[d]| ==> (ch.unsignedSupport <==> backend[d][UNSIGNED_PD_SUPPORT] != 0))
  }

  ghost predicate CacheRight(cfg: Config, chans: seq<Chan>, backend: seq<seq<nat>>) {
    && |chans| == |backend| && Shaped(cfg, chans)
    && forall d :: 0 <= d < |chans| ==> ChanRight(cfg, chans[d], backend, d)
  }

  /** The two channels cannot be told apart by what is cached about them. */
  ghost predicate SameCaps(cfg: Config, backend: seq<seq<nat>>, d: nat, e: nat)
    requires d < |backend| && e < |backend|
  {
    && (forall a :: 0 <= a < cfg.dspAttributes && a < |backend[d]| && a < |backend[e]| && a != cfg.asyncId ==>
          backend[d][a] == backend[e][a])
    && (UNSIGNED_PD_SUPPORT < |backend[d]| && UNSIGNED_PD_SUPPORT < |backend[e]| ==>
          (backend[d][UNSIGNED_PD_SUPPORT] != 0 <==> backend[e][UNSIGNED_PD_SUPPORT] != 0))
  }

  /** The cache stays right exactly when the query does not fetch, or the session's channel is
      the queried one as far as the table can tell. */
  lemma QueryExact(cfg: Config, chans: seq<Chan>, backend: seq<seq<nat>>, q: Query)
    requires ConfigOk(cfg) && BackendOk(cfg, backend) && CacheRight(cfg, chans, backend)
    requires Honest(backend, q) && ReplyOk(cfg, q.reply)
    ensures CacheRight(cfg, Apply(cfg, chans, q), backend) <==>
              (Fetches(cfg, chans, q) ==> SameCaps(cfg, backend, q.session, q.domain))
  {
    var after := Apply(cfg, chans, q);
    if Fetches(cfg, chans, q) {
      var ch := after[q.domain];
      assert forall a :: 0 <= a < cfg.dspAttributes && a != cfg.asyncId ==> ch.attrs[a] == backend[q.session][a];
      if SameCaps(cfg, backend, q.session, q.domain) {
        assert ChanRight(cfg, ch, backend, q.domain);
      }
    }
  }

  predicate OwnDomain(q: Query) { q.session == q.domain }

  ghost predicate GoodRun(cfg: Config, backend: seq<seq<nat>>, run: seq<Query>) {
    forall i :: 0 <= i < |run| ==> Honest(backend, run[i]) && ReplyOk(cfg, run[i].reply) && OwnDomain(run[i])
  }

  ghost function Run(cfg: Config, chans: seq<Chan>, backend: seq<seq<nat>>, run: seq<Query>): seq<Chan>
    requires ConfigOk(cfg) && Shaped(cfg, chans) && GoodRun(cfg, backend, run)
    decreases |run|
  {
    if run == [] then chans
    else
      assert ReplyOk(cfg, run[0].reply);
      Run(cfg, Apply(cfg, chans, run[0]), backend, run[1..])
  }

  /** How often channel `d` is successfully queried. */
  ghost function Fetched(cfg: Config, chans: seq<Chan>, backend: seq<seq<nat>>, run: seq<Query>, d: nat): nat
    requires ConfigOk(cfg) && Shaped(cfg, chans) && GoodRun(cfg, backend, run)
    decreases |run|
  {
    if run == [] then 0
    else
      assert ReplyOk(cfg, run[0].reply);
      (if Fetches(cfg, chans, run[0]) && run[0].domain == d then 1 else 0)
      + Fetched(cfg, Apply(cfg, chans, run[0]), backend, run[1..], d)
  }

  /** Queries about the files' own channels: the cache stays right, and each channel is
      fetched at most once, not at all if it is cached. */
  lemma {:induction false} CacheInRuns(cfg: Config, chans: seq<Chan>, backend: seq<seq<nat>>, run: seq<Query>, d: nat)
    requires ConfigOk(cfg) && BackendOk(cfg, backend) && CacheRight(cfg, chans, backend)
    requires GoodRun(cfg, backend, run) && d < |chans|
    ensures CacheRight(cfg, Run(cfg, chans, backend, run), backend)
    ensures Fetched(cfg, chans, backend, run, d) <= if chans[d].isCached then 0 else 1
    decreases |run|
  {
    hide CacheRight, SameCaps, Forced;
    if run != [] {
      var q := run[0];
      assert Honest(backend, q) && ReplyOk(cfg, q.reply) && OwnDomain(q);
      CacheShape(cfg, chans, backend);
      QueryExact(cfg, chans, backend, q);
      if Fetches(cfg, chans, q) { SameAsItself(cfg, backend, q.domain); }
      CacheInRuns(cfg, Apply(cfg, chans, q), backend, run[1..], d);
    }
  }

  lemma CacheShape(cfg: Config, chans: seq<Chan>, backend: seq<seq<nat>>)
    requires CacheRight(cfg, chans, backend)
    ensures |chans| == |backend| && Shaped(cfg, chans)
  {
  }

  lemma SameAsItself(cfg: Config, backend: seq<seq<nat>>, d: nat)
    requires d < |backend|
    ensures SameCaps(cfg, backend, d, d)
  {
  }

  /** A query about another channel caches the session's own table under it. */
  lemma ForeignDomainIsWrong()
    ensures var cfg := Config(3, [2], 0);
            var backend := [[0, 0, 5], [0, 0, 7]];
            var blank := Chan(false, [0, 0, 0], false);
            var q := Query(0, 1, 2, Answer(0, [0, 0, 5]));
            && ConfigOk(cfg) && Shaped(cfg, [blank, blank]) && CacheRight(cfg, [blank, blank], backend)
            && Honest(backend, q) && ReplyOk(cfg, q.reply)
            && Apply(cfg, [blank, blank], q)[1].attrs[2] == 5 != Truth(cfg, backend, 1, 2)
  {
  }

  // ---------------------------------------------------------------- the driver's table

  class Channels {
    const cfg: Config
    var chans: seq<Chan>

    ghost predicate Valid()
      reads this
    {
      ConfigOk(cfg) && Shaped(cfg, chans)
    }

    constructor (cfg: Config, n: nat)
      requires ConfigOk(cfg)
      ensures this.cfg == cfg && Valid() && |chans| == n
      ensures forall d :: 0 <= d < n ==> !chans[d].isCached
    {
      this.cfg := cfg;
      chans := seq(n, _ => Chan(false, seq(cfg.dspAttributes, _ => 0), false));
    }

    /** `vfastrpc_internal_get_dsp_info` and `vfastrpc_get_info_from_kernel`. */
    method GetInfo(q: Query) returns (r: Result<nat, Errno>)
      requires Valid() && ReplyOk(cfg, q.reply)
      modifies this
      ensures Valid() && chans == Apply(cfg, old(chans), q)
      ensures q.domain >= |chans| ==> r == Err(ECHRNG)
      ensures q.domain < |chans| && q.attribute >= NumAttributes(cfg) ==> r == Err(EOVERFLOW)
      ensures q.domain < |chans| && cfg.dspAttributes <= q.attribute < NumAttributes(cfg) ==>
                r == Ok(cfg.kernelCaps[q.attribute - cfg.dspAttributes])
      ensures q.domain < |chans| && q.attribute < cfg.dspAttributes ==>
                if Asks(cfg, old(chans), q) && !Fetches(cfg, old(chans), q) then
                  r == Err(if q.reply.NoMessage? then ENOMEM else if q.reply.Answer? then Remote(q.reply.result) else SendError)
                else chans[q.domain].isCached && r == Ok(chans[q.domain].attrs[q.attribute])
    {
      if q.domain >= |chans| { return Err(ECHRNG); }
      if q.attribute >= cfg.dspAttributes + |cfg.kernelCaps| { return Err(EOVERFLOW); }
      if q.attribute >= cfg.dspAttributes { return Ok(cfg.kernelCaps[q.attribute - cfg.dspAttributes]); }
      var ch := chans[q.domain];
      if !ch.isCached {
        var attrs := ch.attrs;
        match q.reply {
          case NoMessage => return Err(ENOMEM);
          case SendFailed => return Err(SendError);
          case NoResponse =>
          case Answer(result, caps) =>
            if result != 0 { return Err(Remote(result)); }
            attrs := caps;
        }
        var unsignedSupport := attrs[UNSIGNED_PD_SUPPORT] != 0;
        attrs := attrs[cfg.asyncId := 1];
        chans := chans[q.domain := Chan(true, attrs, unsignedSupport)];
      }
      r := Ok(chans[q.domain].attrs[q.attribute]);
    }

    /** On a right cache, a query about the file's own channel answers what a fresh query
        would. */
    method GetOwnInfo(q: Query, ghost backend: seq<seq<nat>>) returns (r: Result<nat, Errno>)
      requires Valid() && ReplyOk(cfg, q.reply) && BackendOk(cfg, backend) && CacheRight(cfg, chans, backend)
      requires Honest(backend, q) && OwnDomain(q)
      modifies this
      ensures Valid() && CacheRight(cfg, chans, backend)
      ensures r.Ok? && q.attribute < cfg.dspAttributes ==>
                q.domain < |backend| && r.value == Truth(cfg, backend, q.domain, q.attribute)
    {
      hide SameCaps, Forced;
      QueryExact(cfg, chans, backend, q);
      if Fetches(cfg, chans, q) { SameAsItself(cfg, backend, q.domain); }
      r := GetInfo(q);
      if q.domain < |chans| { assert ChanRight(cfg, chans[q.domain], backend, q.domain); }
    }
  }
}
