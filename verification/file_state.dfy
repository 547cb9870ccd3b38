/** One open file: its invoke contexts with the mappings and internal buffers they hold, the
    two context lists, the interrupted commands, its mapping table and its buffer pool, on top
    of the shared message layer. Who drops which reference follows from what each context has
    in its own table. */
module FileState {
  import opened Lists
  import opened Wrappers
  import opened MapTable
  import opened Slots
  import MapRuns
  import MapSearch
  import I = Invoke
  import T = Transport
  import L = MapLedger
  import B = BufCache

  type CtxId = I.CtxId

  /** `maps` is `ctx->maps` of each context, for its buffer arguments; `pending` and
      `interrupted` are the context lists; `cmds` are the messages of interrupted commands, and
      `leaked` those that could not be saved: no list has them, and no thread. */
  datatype State = State(
    i: I.State, m: L.State, b: B.Pool, maps: map<CtxId, Row>,
    pending: seq<CtxId>, interrupted: seq<CtxId>, cmds: seq<T.MsgKey>, leaked: set<T.MsgKey>)

  function Init(numBufs: nat): State {
    State(I.Init(numBufs), L.Init(), B.EMPTY, map[], [], [], [], {})
  }

  datatype Step =
    | Call(call: I.Step, nbufs: nat)             // an invocation, or anybody on the message layer
    | MapSlot(c: CtxId, n: nat, fd: int, keep: bool, va: nat, len: nat, env: CreateEnv)   // sizing pass
    | HandlePass(reqs: seq<Option<HandleRequest>>)
    | PutOutput(c: CtxId, n: nat)                // put_args: one output buffer
    | FreeSlots(c: CtxId)                        // context_free: the slots
    | MapStep(op: L.Step)                        // mmap, munmap, mem_map, mem_unmap, munmap_fd, fdlist
    | TakeBuf(c: CtxId, n: nat, size: nat)
    | MakeBuf(c: CtxId, n: nat, size: nat)
    | FreeBufs(c: CtxId)                         // context_free: the descriptors
    | RemoteBuf(bufOp: B.Step)
    | SaveCmd(k: T.MsgKey)                       // save_interrupted_cmds
    | LoseCmd(k: T.MsgKey)                       // ... without memory for the entry
    | ResumeCmd(k: T.MsgKey)

  predicate HasSlot(s: State, c: CtxId, n: nat) { c in s.maps && n < |s.maps[c]| }

  /** `context_free` frees the context itself last. */
  ghost predicate Emptied(s: State, c: CtxId) {
    c in s.maps && Ids(s.maps[c]) == multiset{} && forall sl :: sl in s.b.held ==> sl.ctx != c
  }

  /** The message has no thread at the moment. */
  predicate Parked(s: State, k: T.MsgKey) { k in s.cmds || k in s.leaked }

  /** Messages of interrupted commands wait for their thread to come back. */
  predicate LeavesCmds(s: State, step: I.Step) {
    match step
    case Other(inner) =>
      (match inner
       case GetTx(k, _) => !Parked(s, k)
       case SendTx(k) => !Parked(s, k)
       case FreeMsg(k) => !Parked(s, k)
       case Pass(k) => !Parked(s, k)
       case Repost(k) => !Parked(s, k)
       case _ => true)
    case _ => true
  }

  ghost predicate Enabled(s: State, step: Step) {
    match step
    case Call(st, _) => I.Enabled(s.i, st) && LeavesCmds(s, st) && (I.Dropping(st) ==> Emptied(s, st.c))
    case MapSlot(c, n, _, _, _, _, _) => HasSlot(s, c, n) && s.maps[c][n].None?
    case HandlePass(reqs) => PlainHandles(reqs)
    case PutOutput(c, n) => HasSlot(s, c, n)
    case FreeSlots(c) => c in s.maps
    case MapStep(st) => L.Enabled(s.m, st) && !st.MapBuf? && !st.UnmapBuf? && !st.MapHandle? && !st.UnmapHandle?
    case TakeBuf(c, n, size) => HasSlot(s, c, n) && B.Enabled(s.b, B.Take(B.Slot(c, n), size))
    case MakeBuf(c, n, size) => HasSlot(s, c, n) && B.Enabled(s.b, B.Make(B.Slot(c, n), size))
    case FreeBufs(c) => c in s.maps
    case RemoteBuf(st) => (st.MakeRemote? || st.DropRemote?) && B.Enabled(s.b, st)
    case SaveCmd(k) => k in s.i.t.w.msgs && s.i.t.w.msgs[k].pc.Waiting? && k !in s.i.owner && !Parked(s, k)
    case LoseCmd(k) => k in s.i.t.w.msgs && s.i.t.w.msgs[k].pc.Waiting? && k !in s.i.owner && !Parked(s, k)
    case ResumeCmd(k) => k in s.cmds
  }

  // ---------------------------------------------------------------- effects

  /** The lists and tables after a step of an invocation. */
  function NewPending(s: State, step: I.Step): seq<CtxId> {
    match step
    case Begin(_, _, _) => [s.i.nextCtx] + s.pending
    case Resume(_, _, c) => [c] + s.pending
    case Interrupt(c) => Without(s.pending, c)
    case Abort(c) => Without(s.pending, c)
    case Finish(c) => Without(s.pending, c)
    case _ => s.pending
  }

  function NewInterrupted(s: State, step: I.Step): seq<CtxId> {
    match step
    case Resume(_, _, c) => Without(s.interrupted, c)
    case Interrupt(c) => [c] + s.interrupted
    case _ => s.interrupted
  }

  function NewMaps(s: State, step: I.Step, nbufs: nat): map<CtxId, Row> {
    match step
    case Begin(_, _, _) => s.maps[s.i.nextCtx := NoMaps(nbufs)]
    case Abort(c) => s.maps - {c}
    case Finish(c) => s.maps - {c}
    case _ => s.maps
  }

  /** One buffer of the sizing pass: a failed create leaves the slot empty. */
  function DoMapSlot(s: State, c: CtxId, n: nat, fd: int, keep: bool, va: nat, len: nat, env: CreateEnv): State
    requires HasSlot(s, c, n)
  {
    var r := Create(s.m.t, fd, keep, va, len, 0, env).1;
    s.(m := L.Acquire(s.m, fd, keep, va, len, 0, env, L.Kind.Slot), maps := s.maps[c := s.maps[c][n := r]])
  }

  /** One output of `put_args`: a mapped one is dropped and its entry cleared. */
  function DoPutOutput(s: State, c: CtxId, n: nat): State
    requires HasSlot(s, c, n)
  {
    s.(m := ReleasedRow(s.m, [s.maps[c][n]]), maps := s.maps[c := s.maps[c][n := None]])
  }

  function DoFreeSlots(s: State, c: CtxId): State
    requires c in s.maps
  {
    s.(m := ReleasedRow(s.m, s.maps[c]), maps := s.maps[c := NoMaps(|s.maps[c]|)])
  }

  function Apply(s: State, step: Step): State
    requires Enabled(s, step)
  {
    match step
    case Call(st, nbufs) =>
      s.(i := I.Apply(s.i, st), maps := NewMaps(s, st, nbufs), pending := NewPending(s, st),
         interrupted := NewInterrupted(s, st))
    case MapSlot(c, n, fd, keep, va, len, env) => DoMapSlot(s, c, n, fd, keep, va, len, env)
    case HandlePass(reqs) => s.(m := AfterHandlePass(s.m, reqs))
    case PutOutput(c, n) => DoPutOutput(s, c, n)
    case FreeSlots(c) => DoFreeSlots(s, c)
    case MapStep(st) => s.(m := L.Apply(s.m, st))
    case TakeBuf(c, n, size) => s.(b := B.Apply(s.b, B.Take(B.Slot(c, n), size)))
    case MakeBuf(c, n, size) => s.(b := B.Apply(s.b, B.Make(B.Slot(c, n), size)))
    case FreeBufs(c) => s.(b := B.PutRow(s.b, c, |s.maps[c]|))
    case RemoteBuf(st) => s.(b := B.Apply(s.b, st))
    case SaveCmd(k) => s.(cmds := [k] + s.cmds)
    case LoseCmd(k) => s.(leaked := s.leaked + {k})
    case ResumeCmd(k) => s.(cmds := Without(s.cmds, k))
  }

  // ---------------------------------------------------------------- invariant

  /** A context is on exactly one list, the one its state says. */
  ghost predicate ListedAt(s: State, c: CtxId) {
    && (c in s.pending <==> c in s.i.ctxs && !s.i.ctxs[c].interrupted)
    && (c in s.interrupted <==> c in s.i.ctxs && s.i.ctxs[c].interrupted)
    && (c in s.maps <==> c in s.i.ctxs)
  }

  ghost predicate CmdAt(s: State, k: T.MsgKey) {
    && (Parked(s, k) ==> k in s.i.t.w.msgs && s.i.t.w.msgs[k].pc.Waiting? && k !in s.i.owner)
    && !(k in s.cmds && k in s.leaked)
  }

  ghost predicate HeldAt(s: State, sl: B.Slot) {
    sl in s.b.held ==> sl.ctx in s.maps && sl.index < |s.maps[sl.ctx]|
  }

  ghost predicate Linked(s: State) {
    && NoDuplicates(s.pending) && NoDuplicates(s.interrupted) && NoDuplicates(s.cmds)
    && (forall c: CtxId :: ListedAt(s, c)) && (forall k: T.MsgKey :: CmdAt(s, k)) && (forall sl: B.Slot :: HeldAt(s, sl))
  }

  /** The slot references in the ledger are exactly those in the tables of the contexts. */
  ghost predicate SlotsMatch(s: State) {
    s.m.g.slots == SlotsOf(s.maps, s.interrupted) + SlotsOf(s.maps, s.pending)
  }

  ghost predicate Inv(s: State) {
    I.Inv(s.i) && L.Inv(s.m) && B.Inv(s.b) && Linked(s) && SlotsMatch(s)
  }

  /** Only the calls that drop references without a table of their own can go wrong. */
  ghost predicate Regular(s: State, step: Step) { step.MapStep? ==> L.Regular(s.m, step.op) }

  lemma InitInv(numBufs: nat)
    ensures Inv(Init(numBufs))
  {
    I.InitInv(numBufs);
    B.EmptyInv();
    hide I.Inv, B.Inv;
  }

  // ---------------------------------------------------------------- invocations

  /** What a step of an invocation does to the set of contexts and to their flag. */
  lemma ContextsChange(i: I.State, step: I.Step, c: CtxId)
    requires I.Enabled(i, step)
    ensures var i' := I.Apply(i, step);
            && (c in i'.ctxs <==> (c in i.ctxs && !(I.Dropping(step) && step.c == c)) || (step.Begin? && c == i.nextCtx))
            && (c in i.ctxs && c in i'.ctxs && !(step.Begin? && c == i.nextCtx) ==>
                  i'.ctxs[c].interrupted ==
                  if step.Resume? && step.c == c then false
                  else if step.Interrupt? && step.c == c then true
                  else i.ctxs[c].interrupted)
            && (step.Begin? ==> !i'.ctxs[i.nextCtx].interrupted)
  {
    hide T.Enabled, I.NewNet, I.NewOwner, I.NewNumbers, I.NewAsync, I.NewThreads;
  }

  /** A context that ends is not interrupted, and a new one is new. */
  lemma SubjectFacts(i: I.State, step: I.Step)
    requires I.Inv(i) && I.Enabled(i, step)
    ensures i.nextCtx !in i.ctxs
    ensures I.Dropping(step) ==> step.c in i.ctxs && !i.ctxs[step.c].interrupted
    ensures step.Resume? ==> step.c in i.ctxs && i.ctxs[step.c].interrupted
    ensures step.Interrupt? ==> step.c in i.ctxs && !i.ctxs[step.c].interrupted
  {
    assert I.CtxAt(i, i.nextCtx);
    if I.Dropping(step) { assert I.CtxAt(i, step.c); }
    if step.Interrupt? { assert I.CtxAt(i, step.c); }
    hide I.Inv;
  }

  lemma CallListed(s: State, st: I.Step, nbufs: nat, c: CtxId)
    requires I.Inv(s.i) && Linked(s) && Enabled(s, Call(st, nbufs))
    ensures ListedAt(Apply(s, Call(st, nbufs)), c)
  {
    hide I.Inv, I.Enabled, I.Apply, T.Enabled, Without;
    ContextsChange(s.i, st, c);
    SubjectFacts(s.i, st);
    assert ListedAt(s, c) && ListedAt(s, s.i.nextCtx);
    if st.Interrupt? || I.Dropping(st) { WithoutMembers(s.pending, st.c, c); }
    if st.Resume? { WithoutMembers(s.interrupted, st.c, c); }
  }

  lemma CallLists(s: State, st: I.Step, nbufs: nat)
    requires I.Inv(s.i) && Linked(s) && Enabled(s, Call(st, nbufs))
    ensures NoDuplicates(NewPending(s, st)) && NoDuplicates(NewInterrupted(s, st))
  {
    hide I.Inv, I.Enabled, Without;
    SubjectFacts(s.i, st);
    if st.Begin? { assert ListedAt(s, s.i.nextCtx); }
    if st.Resume? { assert ListedAt(s, st.c); WithoutNoDuplicates(s.interrupted, st.c); }
    if st.Interrupt? { assert ListedAt(s, st.c); WithoutNoDuplicates(s.pending, st.c); }
    if I.Dropping(st) { WithoutNoDuplicates(s.pending, st.c); }
  }

  /** Messages of interrupted commands are out of reach of all other steps. */
  lemma CallCmds(s: State, st: I.Step, nbufs: nat, k: T.MsgKey)
    requires I.Inv(s.i) && CmdAt(s, k) && Enabled(s, Call(st, nbufs))
    ensures CmdAt(Apply(s, Call(st, nbufs)), k)
  {
    if Parked(s, k) {
      I.HasSupport(s.i, st);
      if I.Subject(s.i, st).Some? && I.Subject(s.i, st).value in s.i.ctxs && s.i.ctxs[I.Subject(s.i, st).value].msg.Some? {
        assert I.CtxAt(s.i, I.Subject(s.i, st).value);
      }
      CmdsUntouched(s, st, k);
      hide I.Inv, I.Enabled, I.Apply, I.NewNet;
    }
  }

  lemma CmdsUntouched(s: State, st: I.Step, k: T.MsgKey)
    requires I.Enabled(s.i, st) && I.Support(s.i, st) && LeavesCmds(s, st) && Parked(s, k) && CmdAt(s, k)
    ensures var i' := I.Apply(s.i, st); k in i'.t.w.msgs && i'.t.w.msgs[k].pc.Waiting? && k !in i'.owner
  {
    hide T.Enabled, I.NewNet, I.NewCtxs, I.NewNumbers, I.NewAsync, I.NewThreads, T.TxRoom, I.SeqAt, I.ThreadAt;
  }

  lemma CallHeld(s: State, st: I.Step, nbufs: nat, sl: B.Slot)
    requires I.Inv(s.i) && Linked(s) && Enabled(s, Call(st, nbufs))
    ensures HeldAt(Apply(s, Call(st, nbufs)), sl)
  {
    hide I.Inv, I.Enabled, I.Apply;
    SubjectFacts(s.i, st);
    assert HeldAt(s, sl) && ListedAt(s, s.i.nextCtx);
  }

  lemma CallLinked(s: State, st: I.Step, nbufs: nat)
    requires I.Inv(s.i) && Linked(s) && Enabled(s, Call(st, nbufs))
    ensures Linked(Apply(s, Call(st, nbufs)))
  {
    var s' := Apply(s, Call(st, nbufs));
    CallLists(s, st, nbufs);
    forall c: CtxId ensures ListedAt(s', c) { CallListed(s, st, nbufs, c); }
    forall k: T.MsgKey ensures CmdAt(s', k) { assert CmdAt(s, k); CallCmds(s, st, nbufs, k); }
    forall sl: B.Slot ensures HeldAt(s', sl) { CallHeld(s, st, nbufs, sl); }
    hide I.Inv, I.Enabled, I.Apply, Enabled;
  }

  /** Contexts move between the lists with their tables, start with an empty one, and end
      with an empty one. */
  lemma CallSlots(s: State, st: I.Step, nbufs: nat)
    requires I.Inv(s.i) && Linked(s) && SlotsMatch(s) && Enabled(s, Call(st, nbufs))
    ensures SlotsMatch(Apply(s, Call(st, nbufs)))
  {
    hide I.Inv, I.Enabled, I.Apply, Without, SlotsOf, Ids;
    SubjectFacts(s.i, st);
    match st
    case Begin(_, _, _) =>
      var c := s.i.nextCtx;
      assert ListedAt(s, c);
      IdsOfNoMaps(nbufs);
      SlotsOfOthers(s.maps, s.pending, c, NoMaps(nbufs));
      SlotsOfOthers(s.maps, s.interrupted, c, NoMaps(nbufs));
      SlotsOfFront(s.maps[c := NoMaps(nbufs)], c, s.pending);
    case Resume(_, _, c) =>
      assert ListedAt(s, c);
      SlotsOfWithout(s.maps, s.interrupted, c);
      SlotsOfFront(s.maps, c, s.pending);
    case Interrupt(c) =>
      assert ListedAt(s, c);
      SlotsOfWithout(s.maps, s.pending, c);
      SlotsOfFront(s.maps, c, s.interrupted);
    case Abort(c) => DropSlots(s, c);
    case Finish(c) => DropSlots(s, c);
    case _ =>
  }

  lemma SlotsOfFront(maps: map<nat, Row>, c: nat, list: seq<nat>)
    requires c in maps
    ensures SlotsOf(maps, [c] + list) == Ids(maps[c]) + SlotsOf(maps, list)
  {
    assert ([c] + list)[1..] == list;
  }

  lemma DropSlots(s: State, c: CtxId)
    requires Linked(s) && c in s.i.ctxs && !s.i.ctxs[c].interrupted && Emptied(s, c)
    ensures SlotsOf(s.maps - {c}, Without(s.pending, c)) == SlotsOf(s.maps, s.pending)
    ensures SlotsOf(s.maps - {c}, s.interrupted) == SlotsOf(s.maps, s.interrupted)
  {
    hide SlotsOf, Ids, Without;
    assert ListedAt(s, c);
    SlotsOfWithout(s.maps, s.pending, c);
    WithoutMembers(s.pending, c, c);
    SlotsOfOthers(s.maps, Without(s.pending, c), c, []);
    SlotsOfOthers(s.maps, s.interrupted, c, []);
  }

  // ---------------------------------------------------------------- tables of contexts

  /** A new row for a context with its slots accounted for. */
  lemma RowChanges(s: State, c: CtxId, row: Row)
    requires Linked(s) && c in s.maps
    ensures SlotsOf(s.maps[c := row], s.interrupted) + SlotsOf(s.maps[c := row], s.pending) + Ids(s.maps[c])
         == SlotsOf(s.maps, s.interrupted) + SlotsOf(s.maps, s.pending) + Ids(row)
    ensures Ids(s.maps[c]) <= SlotsOf(s.maps, s.interrupted) + SlotsOf(s.maps, s.pending)
  {
    hide SlotsOf, Ids;
    assert ListedAt(s, c);
    if c in s.pending {
      SlotsOfUpdate(s.maps, s.pending, c, row);
      SlotsOfOthers(s.maps, s.interrupted, c, row);
      SlotsOfMember(s.maps, s.pending, c);
      AddFront(SlotsOf(s.maps, s.interrupted), SlotsOf(s.maps[c := row], s.pending), Ids(s.maps[c]),
               SlotsOf(s.maps, s.pending), Ids(row));
    } else {
      SlotsOfUpdate(s.maps, s.interrupted, c, row);
      SlotsOfOthers(s.maps, s.pending, c, row);
      SlotsOfMember(s.maps, s.interrupted, c);
      var i', i, p := SlotsOf(s.maps[c := row], s.interrupted), SlotsOf(s.maps, s.interrupted), SlotsOf(s.maps, s.pending);
      AddFront(p, i', Ids(s.maps[c]), i, Ids(row));
      assert i' + p == p + i' && i + p == p + i;
    }
  }

  lemma RowLinked(s: State, m: L.State, c: CtxId, row: Row)
    requires Linked(s) && c in s.maps && |row| == |s.maps[c]|
    ensures Linked(s.(m := m, maps := s.maps[c := row]))
  {
    var s' := s.(m := m, maps := s.maps[c := row]);
    forall x: CtxId ensures ListedAt(s', x) { assert ListedAt(s, x); }
    forall k: T.MsgKey ensures CmdAt(s', k) { assert CmdAt(s, k); }
    forall sl: B.Slot ensures HeldAt(s', sl) { assert HeldAt(s, sl); }
  }

  /** The sizing pass enters a reference exactly when it fills the slot. */
  lemma AcquiredSlot(m: L.State, fd: int, keep: bool, va: nat, len: nat, env: CreateEnv)
    requires L.Inv(m)
    ensures var r := Create(m.t, fd, keep, va, len, 0, env).1;
            L.Acquire(m, fd, keep, va, len, 0, env, L.Kind.Slot).g.slots == m.g.slots + Ids([r])
  {
    var r := Create(m.t, fd, keep, va, len, 0, env).1;
    IdsOne(r);
    assert L.Local(m, m.t.next);
    hide L.Inv, L.Local, Create;
    L.CreateCases(m.t, fd, keep, va, len, 0, env);
  }

  lemma MapSlotKeeps(s: State, c: CtxId, n: nat, fd: int, keep: bool, va: nat, len: nat, env: CreateEnv)
    requires Inv(s) && Enabled(s, MapSlot(c, n, fd, keep, va, len, env))
    ensures Inv(DoMapSlot(s, c, n, fd, keep, va, len, env))
  {
    hide I.Inv, L.Inv, B.Inv, Linked, Create, L.Acquire, SlotsOf, Ids;
    var r := Create(s.m.t, fd, keep, va, len, 0, env).1;
    var row := s.maps[c][n := r];
    L.AcquireKeeps(s.m, fd, keep, va, len, 0, env, L.Kind.Slot);
    AcquiredSlot(s.m, fd, keep, va, len, env);
    RowLinked(s, L.Acquire(s.m, fd, keep, va, len, 0, env, L.Kind.Slot), c, row);
    RowChanges(s, c, row);
    IdsUpdate(s.maps[c], n, r);
    IdsOne(None);
    Balance(SlotsOf(s.maps[c := row], s.interrupted) + SlotsOf(s.maps[c := row], s.pending), Ids(s.maps[c]),
            SlotsOf(s.maps, s.interrupted) + SlotsOf(s.maps, s.pending), Ids(row), Ids([r]), multiset{});
  }

  /** The slot then holds a mapping of the buffer's own descriptor that covers the buffer, unless
      none can be made; no other slot changes. */
  lemma SlotMapsBuffer(s: State, c: CtxId, n: nat, fd: int, keep: bool, va: nat, len: nat, env: CreateEnv)
    requires Inv(s) && Enabled(s, MapSlot(c, n, fd, keep, va, len, env))
    ensures var s' := Apply(s, MapSlot(c, n, fd, keep, va, len, env));
            && HasSlot(s', c, n) && s'.maps == s.maps[c := s.maps[c][n := s'.maps[c][n]]]
            && (env.Usable? ==> s'.maps[c][n].Some?)
            && (s'.maps[c][n].Some? ==> MapSearch.HeldFor(s'.m, s'.maps[c][n].value, fd, va, len))
  {
    hide I.Inv, L.Inv, B.Inv, Linked, Create, L.Acquire, SlotsMatch, MapSearch.HeldFor;
    MapSearch.AcquiredHeld(s.m, fd, keep, va, len, 0, env, L.Kind.Slot);
  }

  /** New and resumed contexts go to the head of the pending list, interrupted ones to the head of
      theirs. */
  lemma NewestFirst(s: State, st: I.Step, nbufs: nat)
    requires Enabled(s, Call(st, nbufs))
    ensures var s' := Apply(s, Call(st, nbufs));
            && (st.Begin? ==> s'.pending == [s.i.nextCtx] + s.pending)
            && (st.Resume? ==> s'.pending == [st.c] + s.pending && st.c !in s'.interrupted)
            && (st.Interrupt? ==> s'.interrupted == [st.c] + s.interrupted && st.c !in s'.pending)
  {
    hide I.Enabled, I.Apply, Without;
    if st.Resume? { WithoutMembers(s.interrupted, st.c, st.c); }
    if st.Interrupt? { WithoutMembers(s.pending, st.c, st.c); }
  }

  /** From the change of one row to the change of the whole. */
  lemma Balance<X>(after: multiset<X>, rowWas: multiset<X>, before: multiset<X>, row: multiset<X>,
                   more: multiset<X>, less: multiset<X>)
    requires after + rowWas == before + row && row + less == rowWas + more
    ensures after + less == before + more
  {
    assert after + less + rowWas == before + more + rowWas by {
      assert after + less + rowWas == after + rowWas + less == before + row + less == before + (row + less);
      assert before + (rowWas + more) == before + more + rowWas;
    }
    forall x ensures (after + less)[x] == (before + more)[x] {
      assert (after + less + rowWas)[x] == (before + more + rowWas)[x];
    }
  }

  lemma TakeAway<X>(rest: multiset<X>, part: multiset<X>, whole: multiset<X>)
    requires rest + part == whole + multiset{}
    ensures whole - part == rest
  {
    assert whole + multiset{} == whole;
    assert rest + part - part == rest;
  }

  /** Dropping what a row gives up: `rest` stays in the row. */
  lemma RowReleased(s: State, c: CtxId, given: Row, rest: Row)
    requires Inv(s) && c in s.maps && |rest| == |s.maps[c]| && Ids(rest) + Ids(given) == Ids(s.maps[c])
    ensures Inv(s.(m := ReleasedRow(s.m, given), maps := s.maps[c := rest]))
  {
    hide I.Inv, L.Inv, B.Inv, Linked, ReleaseAll, SlotsOf, Ids;
    RowChanges(s, c, rest);
    assert Ids(given) <= s.m.g.slots;
    ReleaseAllKeeps(s.m, given, L.Kind.Slot);
    RowLinked(s, ReleasedRow(s.m, given), c, rest);
    var after := SlotsOf(s.maps[c := rest], s.interrupted) + SlotsOf(s.maps[c := rest], s.pending);
    Balance(after, Ids(s.maps[c]), s.m.g.slots, Ids(rest), multiset{}, Ids(given));
    TakeAway(after, Ids(given), s.m.g.slots);
  }

  /** `put_args` drops an output once: afterwards its entry is empty. */
  lemma PutOutputKeeps(s: State, c: CtxId, n: nat)
    requires Inv(s) && HasSlot(s, c, n)
    ensures Inv(DoPutOutput(s, c, n))
  {
    hide I.Inv, L.Inv, B.Inv, Linked, ReleaseAll, SlotsOf, Ids, SlotsMatch, Inv;
    IdsUpdate(s.maps[c], n, None);
    IdsOne(None);
    RowReleased(s, c, [s.maps[c][n]], s.maps[c][n := None]);
  }

  /** `context_free` drops what is left, whatever `put_args` has dropped before. */
  lemma FreeSlotsKeeps(s: State, c: CtxId)
    requires Inv(s) && c in s.maps
    ensures Inv(DoFreeSlots(s, c)) && Ids(DoFreeSlots(s, c).maps[c]) == multiset{}
  {
    hide I.Inv, L.Inv, B.Inv, Linked, ReleaseAll, SlotsOf, Ids, SlotsMatch, Inv;
    IdsOfNoMaps(|s.maps[c]|);
    RowReleased(s, c, s.maps[c], NoMaps(|s.maps[c]|));
  }

  // ---------------------------------------------------------------- everything else

  lemma OtherMapStepsKeepSlots(m: L.State, st: L.Step)
    requires L.Enabled(m, st) && !st.MapBuf? && !st.UnmapBuf? && !st.MapHandle? && !st.UnmapHandle?
    ensures L.Apply(m, st).g.slots == m.g.slots
  {
    hide Create, FreeCtx, Free, Remove, Lookup;
    if st.RemoveFds? { DropPinsKeepSlots(m, m.t.list, st.fd); }
  }

  lemma {:induction false} DropPinsKeepSlots(m: L.State, ids: seq<MapId>, fd: int)
    ensures L.DropPins(m, ids, fd).g.slots == m.g.slots
    decreases |ids|
  {
    hide Free;
    if ids != [] {
      DropPinsKeepSlots(if ids[0] in m.t.heap && ForFd(m.t.heap[ids[0]], fd) then L.DropPin(m, ids[0]) else m, ids[1..], fd);
    }
  }

  lemma MapStepExact(s: State, st: L.Step)
    requires Inv(s) && Enabled(s, MapStep(st))
    ensures Inv(Apply(s, MapStep(st))) <==> L.Regular(s.m, st)
  {
    hide I.Inv, L.Inv, B.Inv, L.Apply, L.Enabled, L.Regular, SlotsOf;
    L.StepExact(s.m, st);
    OtherMapStepsKeepSlots(s.m, st);
    MapLinked(s, L.Apply(s.m, st));
  }

  lemma MapLinked(s: State, m: L.State)
    requires Linked(s)
    ensures Linked(s.(m := m))
  {
    var s' := s.(m := m);
    forall x: CtxId ensures ListedAt(s', x) { assert ListedAt(s, x); }
    forall k: T.MsgKey ensures CmdAt(s', k) { assert CmdAt(s, k); }
    forall sl: B.Slot ensures HeldAt(s', sl) { assert HeldAt(s, sl); }
  }

  lemma PoolLinked(s: State, b: B.Pool)
    requires Linked(s) && forall sl :: sl in b.held && sl !in s.b.held ==> HasSlot(s, sl.ctx, sl.index)
    ensures Linked(s.(b := b))
  {
    var s' := s.(b := b);
    forall x: CtxId ensures ListedAt(s', x) { assert ListedAt(s, x); }
    forall k: T.MsgKey ensures CmdAt(s', k) { assert CmdAt(s, k); }
    forall sl: B.Slot ensures HeldAt(s', sl) { assert HeldAt(s, sl); }
  }

  lemma BufKeeps(s: State, op: B.Step)
    requires Inv(s) && B.Enabled(s.b, op) && !op.DropCached?
    requires op.Take? || op.Make? ==> HasSlot(s, op.slot.ctx, op.slot.index)
    ensures Inv(s.(b := B.Apply(s.b, op)))
  {
    hide I.Inv, L.Inv, B.Inv, Linked, SlotsOf, B.Hit, B.Known;
    B.StepKeeps(s.b, op);
    PoolLinked(s, B.Apply(s.b, op));
  }

  lemma CmdsKeep(s: State, step: Step)
    requires Inv(s) && Enabled(s, step) && (step.SaveCmd? || step.LoseCmd? || step.ResumeCmd?)
    ensures Inv(Apply(s, step))
  {
    hide I.Inv, L.Inv, B.Inv, SlotsOf, Without;
    var s' := Apply(s, step);
    if step.ResumeCmd? { WithoutNoDuplicates(s.cmds, step.k); }
    forall x: CtxId ensures ListedAt(s', x) { assert ListedAt(s, x); }
    forall k: T.MsgKey ensures CmdAt(s', k) {
      assert CmdAt(s, k);
      if step.ResumeCmd? { WithoutMembers(s.cmds, step.k, k); }
    }
    forall sl: B.Slot ensures HeldAt(s', sl) { assert HeldAt(s, sl); }
  }

  /** The whole file: every step of every thread keeps all invariants, except that calls which
      drop references they have not recorded do so exactly when they are regular. That slots
      are dropped by their holder, once, is part of the result. */
  lemma StepExact(s: State, step: Step)
    requires Inv(s) && Enabled(s, step)
    ensures Inv(Apply(s, step)) <==> Regular(s, step)
  {
    match step
    case Call(st, nbufs) =>
      CallLinked(s, st, nbufs);
      CallSlots(s, st, nbufs);
      I.StepKeeps(s.i, st);
      hide I.Inv, L.Inv, B.Inv, Linked, SlotsMatch, I.Apply, I.Enabled;
    case MapSlot(c, n, fd, keep, va, len, env) =>
      MapSlotKeeps(s, c, n, fd, keep, va, len, env);
      hide Inv, DoMapSlot;
    case HandlePass(reqs) =>
      hide I.Inv, L.Inv, B.Inv, Linked, AfterHandlePass, SlotsOf;
      HandlePassKeeps(s.m, reqs);
      MapLinked(s, AfterHandlePass(s.m, reqs));
    case PutOutput(c, n) => PutOutputKeeps(s, c, n); hide Inv, DoPutOutput;
    case FreeSlots(c) => FreeSlotsKeeps(s, c); hide Inv, DoFreeSlots;
    case MapStep(st) => MapStepExact(s, st); hide Inv;
    case TakeBuf(c, n, size) => BufKeeps(s, B.Take(B.Slot(c, n), size)); hide Inv;
    case MakeBuf(c, n, size) => BufKeeps(s, B.Make(B.Slot(c, n), size)); hide Inv;
    case FreeBufs(c) =>
      hide I.Inv, L.Inv, B.Inv, Linked, B.PutRow, SlotsOf;
      B.PutRowKeeps(s.b, c, |s.maps[c]|);
      PoolLinked(s, B.PutRow(s.b, c, |s.maps[c]|));
    case RemoteBuf(st) => BufKeeps(s, st); hide Inv;
    case SaveCmd(_) => CmdsKeep(s, step); hide Inv;
    case LoseCmd(_) => CmdsKeep(s, step); hide Inv;
    case ResumeCmd(_) => CmdsKeep(s, step); hide Inv;
  }

  /** What the steps of a context do to its own things: an output that is put is empty and its
      reference gone, a buffer that is taken or made is held, a handle pass that succeeds enters
      one reference per handle, a saved command is on its list and a resumed one is not. */
  lemma StepDoes(s: State, step: Step)
    requires Inv(s) && Enabled(s, step)
    ensures var s' := Apply(s, step);
            match step
            case PutOutput(c, n) =>
              s'.maps == s.maps[c := s.maps[c][n := None]] && s'.m.g.slots == s.m.g.slots - Ids([s.maps[c][n]])
            case HandlePass(reqs) =>
              var r := TakeHandles(s.m.t, reqs, []).1;
              s'.m.g.handles == s.m.g.handles + (if r.Some? then Ids(r.value) else multiset{})
            case TakeBuf(c, n, _) => B.Slot(c, n) in s'.b.held && s'.b.bufs == s.b.bufs
            case MakeBuf(c, n, size) =>
              B.Slot(c, n) in s'.b.held && s'.b.held[B.Slot(c, n)] == s.b.next && s'.b.bufs == s.b.bufs[s.b.next := B.Buf(size, false)]
            case SaveCmd(k) => s'.cmds == [k] + s.cmds
            case LoseCmd(k) => k in s'.leaked && s'.cmds == s.cmds
            case ResumeCmd(k) => k !in s'.cmds && forall j :: j in s.cmds && j != k ==> j in s'.cmds
            case _ => true
  {
    hide Inv, TakeHandles, ReleaseAll, B.Hit, Ids, Without;
    match step
    case HandlePass(reqs) => assert Ids([]) == multiset{} by { IdsOfNoMaps(0); assert NoMaps(0) == []; }
    case ResumeCmd(k) => forall j ensures j in Without(s.cmds, k) <==> j in s.cmds && j != k { WithoutMembers(s.cmds, k, j); }
    case _ =>
  }

  /** `context_free` leads to its end: after the slots and the descriptors nothing is left that would
      keep the context itself from being freed. */
  lemma ContextFreeEmpties(s: State, c: CtxId)
    requires Inv(s) && c in s.maps
    ensures Enabled(s, FreeSlots(c))
    ensures var s1 := Apply(s, FreeSlots(c));
            && Inv(s1) && Enabled(s1, FreeBufs(c))
            && var s2 := Apply(s1, FreeBufs(c)); Inv(s2) && Emptied(s2, c)
  {
    hide Inv, DoFreeSlots;
    FreeSlotsKeeps(s, c);
    var s1 := DoFreeSlots(s, c);
    KeepsContext(s, c);
    StepExact(s1, FreeBufs(c));
    BufsReturned(s1, c);
  }

  lemma KeepsContext(s: State, c: CtxId)
    requires c in s.maps
    ensures c in DoFreeSlots(s, c).maps
  {
  }

  lemma BufsReturned(s: State, c: CtxId)
    requires Inv(s) && c in s.maps
    ensures forall sl :: sl in B.PutRow(s.b, c, |s.maps[c]|).held ==> sl.ctx != c
  {
    hide B.Inv, B.PutRow, L.Inv, I.Inv, SlotsMatch;
    B.PutRowKeeps(s.b, c, |s.maps[c]|);
    forall sl | sl in s.b.held && sl.ctx == c ensures sl.index < |s.maps[c]| { assert HeldAt(s, sl); }
  }

  // ---------------------------------------------------------------- runs

  ghost predicate Legal(s: State, steps: seq<Step>)
    decreases |steps|
  {
    steps == [] || (Enabled(s, steps[0]) && Legal(Apply(s, steps[0]), steps[1..]))
  }

  ghost function Run(s: State, steps: seq<Step>): State
    requires Legal(s, steps)
    decreases |steps|
  {
    if steps == [] then s else Run(Apply(s, steps[0]), steps[1..])
  }

  ghost predicate RegularRun(s: State, steps: seq<Step>)
    requires Legal(s, steps)
    decreases |steps|
  {
    steps == [] || (Regular(s, steps[0]) && RegularRun(Apply(s, steps[0]), steps[1..]))
  }

  /** The invariants hold after every regular run. */
  lemma {:induction false} RunKeeps(s: State, steps: seq<Step>)
    requires Inv(s) && Legal(s, steps) && RegularRun(s, steps)
    ensures Inv(Run(s, steps))
    decreases |steps|
  {
    hide Inv, Apply, Enabled, Regular;
    if steps != [] {
      StepExact(s, steps[0]);
      RunKeeps(Apply(s, steps[0]), steps[1..]);
    }
  }

  // ------------------------------------------------ runs restricted by their calls

  /** Restrictions on the calls and on how unmapping goes; fdlists are arbitrary. */
  ghost predicate Visible(s: State, step: Step) {
    match step
    case MapSlot(_, _, _, _, va, _, _) => va != 0
    case MapStep(op) => L.Visible(s.m, op)
    case _ => true
  }

  ghost predicate Good(s: State) { Inv(s) && L.Clean(s.m) }

  lemma InitGood(numBufs: nat)
    ensures Good(Init(numBufs))
  {
    InitInv(numBufs);
    hide Inv;
    MapRuns.InitIsGood();
  }

  /** The slots of a context are among those in the ledger. */
  lemma RowHeld(s: State, c: CtxId, n: nat)
    requires Inv(s) && c in s.maps
    ensures Ids(s.maps[c]) <= s.m.g.slots
    ensures n < |s.maps[c]| ==> Ids([s.maps[c][n]]) <= s.m.g.slots
  {
    hide I.Inv, L.Inv, B.Inv, Linked, SlotsOf, Ids;
    RowChanges(s, c, s.maps[c]);
    if n < |s.maps[c]| {
      IdsUpdate(s.maps[c], n, None);
      IdsOne(None);
      PartOf(Ids(s.maps[c][n := None]), Ids([s.maps[c][n]]), Ids(s.maps[c]), s.m.g.slots);
    }
  }

  lemma PartOf<X>(rest: multiset<X>, part: multiset<X>, row: multiset<X>, whole: multiset<X>)
    requires rest + part == row + multiset{} && row <= whole
    ensures part <= whole
  {
    assert row + multiset{} == row;
    assert part <= rest + part;
  }

  /** A step within the restrictions is regular and leaves a clean state. */
  lemma VisibleIsRegular(s: State, step: Step)
    requires Good(s) && Enabled(s, step) && Visible(s, step)
    ensures Regular(s, step) && Good(Apply(s, step))
  {
    assert L.Inv(s.m);
    assert Regular(s, step) && L.Clean(Apply(s, step).m) by {
      hide I.Inv, L.Inv, B.Inv, Linked, SlotsMatch, L.Clean, L.Visible, L.Regular, ReleaseAll, L.Acquire, L.Apply, L.Enabled, I.Apply, I.Enabled;
      match step
      case MapSlot(c, n, fd, keep, va, len, env) => L.AcquireClean(s.m, fd, keep, va, len, 0, env, L.Kind.Slot);
      case HandlePass(reqs) => HandlePassKeeps(s.m, reqs);
      case PutOutput(c, n) => RowHeld(s, c, n); ReleaseAllKeeps(s.m, [s.maps[c][n]], L.Kind.Slot);
      case FreeSlots(c) => RowHeld(s, c, 0); ReleaseAllKeeps(s.m, s.maps[c], L.Kind.Slot);
      case MapStep(op) => MapRuns.VisibleIsRegular(s.m, op);
      case _ =>
    }
    hide Inv, L.Clean, Apply, Enabled, Regular;
    StepExact(s, step);
  }

  ghost predicate VisibleRun(s: State, steps: seq<Step>)
    requires Legal(s, steps)
    decreases |steps|
  {
    steps == [] || (Visible(s, steps[0]) && VisibleRun(Apply(s, steps[0]), steps[1..]))
  }

  /** The invariants hold after every run in terms of what the callers do and how unmapping
      goes, whatever the remote side puts into its fdlists. */
  lemma {:induction false} VisibleRunKeeps(s: State, steps: seq<Step>)
    requires Good(s) && Legal(s, steps) && VisibleRun(s, steps)
    ensures RegularRun(s, steps) && Good(Run(s, steps))
    decreases |steps|
  {
    hide Good, Apply, Enabled, Regular, Visible;
    if steps != [] {
      VisibleIsRegular(s, steps[0]);
      VisibleRunKeeps(Apply(s, steps[0]), steps[1..]);
    }
  }

  /** A message that could not be saved is out of reach for good. */
  lemma {:induction false} LeakedStays(s: State, steps: seq<Step>, k: T.MsgKey)
    requires Legal(s, steps) && k in s.leaked
    ensures k in Run(s, steps).leaked
    decreases |steps|
  {
    hide Apply, Enabled;
    if steps != [] {
      LeakedStep(s, steps[0]);
      LeakedStays(Apply(s, steps[0]), steps[1..], k);
    }
  }

  lemma LeakedStep(s: State, step: Step)
    requires Enabled(s, step)
    ensures s.leaked <= Apply(s, step).leaked
  {
    hide I.Apply, I.Enabled, L.Apply, L.Enabled, B.Apply, B.Enabled, B.PutRow, ReleaseAll, L.Acquire, AfterHandlePass, Create;
  }
}
