/** The promises of the asynchronous IV generator, for every run. */
module ChainIvTheorems {
  import opened Options
  import opened ChainIv
  import opened ChainIvSafety

  // Every request is in one place

  /** The request that a thread is responsible for. */
  function Held(t: Thread): Option<nat> {
    var pc := t.pc;
    if pc.F0? || pc.F1? || pc.F2? || pc.F3? || pc.G0? || pc.G1? || pc.G2? || pc.P0? || pc.T0? || pc.T1? then Some(t.req)
    else None
  }

  function AllHeld(threads: seq<Thread>): seq<Option<nat>> {
    seq(|threads|, i requires 0 <= i < |threads| => Held(threads[i]))
  }

  /** The requests that no thread holds: queued, refused or encrypted. */
  ghost function Settled(m: Shared): multiset<nat> {
    multiset(m.queue) + multiset(m.past.dropped) + multiset(Reqs(m.past.log))
  }

  /** Each of the first `n` requests is settled once or held once, and nothing else is. */
  ghost predicate Parted(n: nat, settled: multiset<nat>, held: seq<Option<nat>>) {
    && (forall r :: r in settled ==> r < n && settled[r] == 1)
    && (forall i :: 0 <= i < |held| && held[i].Some? ==> held[i].value < n && held[i].value !in settled)
    && (forall i, j :: 0 <= i < j < |held| && held[i].Some? ==> held[i] != held[j])
    && (forall r :: 0 <= r < n ==> r in settled || Some(r) in held)
  }

  ghost predicate Conserved(s: State) {
    Parted(s.m.past.calls, Settled(s.m), AllHeld(s.threads))
  }

  lemma PartedSettle(n: nat, settled: multiset<nat>, held: seq<Option<nat>>, i: nat)
    requires Parted(n, settled, held) && i < |held| && held[i].Some?
    ensures Parted(n, settled + multiset{held[i].value}, held[i := None])
  {
    var held' := held[i := None];
    forall r | 0 <= r < n && r !in settled && r != held[i].value ensures Some(r) in held' {
      var j :| 0 <= j < |held| && held[j] == Some(r);
      assert held'[j] == Some(r);
    }
  }

  lemma PartedTake(n: nat, settled: multiset<nat>, held: seq<Option<nat>>, i: nat, r: nat)
    requires Parted(n, settled + multiset{r}, held) && i < |held| && held[i] == None
    ensures Parted(n, settled, held[i := Some(r)])
  {
    var held' := held[i := Some(r)];
    assert forall x :: x in settled ==> x in settled + multiset{r};
    assert r in settled + multiset{r};
    forall x | 0 <= x < n && x !in settled ensures Some(x) in held' {
      if x == r {
        assert held'[i] == Some(x);
      } else {
        var j :| 0 <= j < |held| && held[j] == Some(x);
        assert held'[j] == Some(x);
      }
    }
  }

  lemma PartedGrow(n: nat, settled: multiset<nat>, held: seq<Option<nat>>)
    requires Parted(n, settled, held)
    ensures Parted(n, settled, held + [None]) && Parted(n + 1, settled, held + [Some(n)])
  {}

  ghost predicate Same(m: Shared, m': Shared) { Settled(m') == Settled(m) }

  ghost predicate Adds(m: Shared, m': Shared, r: nat) { Settled(m') == Settled(m) + multiset{r} }

  /** A step moves at most the thread's own request. */
  ghost predicate Moves(m: Shared, t: Thread, m': Shared, t': Thread) {
    && m'.past.calls == m.past.calls
    && match (Held(t), Held(t'))
       case (None, Some(r)) => Adds(m', m, r)
       case (Some(r), None) => Adds(m, m', r)
       case (h, h') => h == h' && Same(m, m')
  }

  lemma SettledTake(m: Shared)
    requires m.queue != []
    ensures Adds(m.(queue := m.queue[1..]), m, m.queue[0])
  {
    assert m.queue == [m.queue[0]] + m.queue[1..];
  }

  lemma SettledLog(m: Shared, e: Entry, m': Shared)
    requires m'.queue == m.queue && m'.past.dropped == m.past.dropped && m'.past.log == m.past.log + [e]
    ensures Adds(m, m', e.req)
  {
    ReqsSnoc(m.past.log, e);
  }

  lemma SettledSame(m: Shared, m': Shared)
    requires m'.queue == m.queue && m'.past.dropped == m.past.dropped && m'.past.log == m.past.log
    ensures Same(m, m')
  {}

  lemma SettledOne(m: Shared, m': Shared, r: nat)
    requires m'.past.log == m.past.log
    requires
      || (m'.queue == m.queue + [r] && m'.past.dropped == m.past.dropped)
      || (m'.queue == m.queue && m'.past.dropped == m.past.dropped + [r])
    ensures Adds(m, m', r)
  {}

  predicate Shifts(m: Shared, t: Thread) {
    t.pc.T1? || t.pc.P0? || (t.pc.W0? && m.queue != []) || (t.pc.F3? && t.err != 0)
  }

  lemma AdvanceShifts(env: Env, m: Shared, t: Thread, rng: Outcome)
    requires Shifts(m, t)
    ensures var (m', t') := Advance(env, m, t, rng); Moves(m, t, m', t')
  {
    hide Settled; hide Same; hide Adds;
    var (m', t') := Advance(env, m, t, rng);
    if t.pc.T1? {
      SettledLog(m, Entry(t.req, t.giv, env.cipher(t.req, t.info)), m');
    } else if t.pc.W0? {
      SettledTake(m);
    } else {
      SettledOne(m, m', t.req);
    }
  }

  lemma AdvanceQuiet(env: Env, m: Shared, t: Thread, rng: Outcome)
    requires !t.pc.Done? && !Shifts(m, t)
    ensures var (m', t') := Advance(env, m, t, rng);
      m'.queue == m.queue && m'.past.dropped == m.past.dropped && m'.past.log == m.past.log
      && m'.past.calls == m.past.calls && Held(t') == Held(t)
  {}

  lemma AdvanceMoves(env: Env, m: Shared, t: Thread, rng: Outcome)
    requires !t.pc.Done?
    ensures var (m', t') := Advance(env, m, t, rng); Moves(m, t, m', t')
  {
    hide Settled; hide Same; hide Adds; hide Advance; hide Held;
    if Shifts(m, t) {
      AdvanceShifts(env, m, t, rng);
    } else {
      AdvanceQuiet(env, m, t, rng);
      SettledSame(m, Advance(env, m, t, rng).0);
    }
  }

  lemma ReqsSnoc(log: seq<Entry>, e: Entry)
    ensures Reqs(log + [e]) == Reqs(log) + [e.req]
  {
    assert (log + [e])[..|log|] == log;
  }

  lemma ConservedRun(env: Env, s: State, i: nat, m': Shared, t': Thread)
    requires Conserved(s) && i < |s.threads| && Moves(s.m, s.threads[i], m', t')
    ensures Conserved(State(m', s.threads[i := t']))
  {
    hide Settled; hide Held; hide Parted;
    var n, held := s.m.past.calls, AllHeld(s.threads);
    assert AllHeld(s.threads[i := t']) == held[i := Held(t')];
    if held[i].Some? {
      PartedSettle(n, Settled(s.m), held, i);
    } else if Held(t').Some? {
      PartedTake(n, Settled(m'), held, i, Held(t').value);
    }
    assert held[i := held[i]] == held;
  }

  lemma ConservedGrow(s: State, t: Thread)
    requires Conserved(s)
    ensures Held(t) == None ==> Conserved(State(s.m, s.threads + [t]))
    ensures Held(t) == Some(s.m.past.calls) ==>
      Conserved(State(s.m.(past := s.m.past.(calls := s.m.past.calls + 1)), s.threads + [t]))
  {
    SettledSame(s.m, s.m.(past := s.m.past.(calls := s.m.past.calls + 1)));
    hide Settled; hide Held; hide Parted;
    PartedGrow(s.m.past.calls, Settled(s.m), AllHeld(s.threads));
    assert AllHeld(s.threads + [t]) == AllHeld(s.threads) + [Held(t)];
  }

  lemma ConservedStep(env: Env, s: State, op: Op)
    requires Conserved(s) && Enabled(s, op)
    ensures Conserved(Step(env, s, op))
  {
    hide Advance; hide Conserved; hide Moves;
    match op {
      case Call(first) =>
        ConservedGrow(s, NewCall(s, first));
      case StartWork =>
        ConservedGrow(s, NEW_WORK);
        ConservedPending(State(s.m, s.threads + [NEW_WORK]));
      case Run(i, rng) =>
        AdvanceMoves(env, s.m, s.threads[i], rng);
        var (m', t') := Advance(env, s.m, s.threads[i], rng);
        ConservedRun(env, s, i, m', t');
    }
  }

  lemma ConservedPending(s: State)
    requires Conserved(s)
    ensures Conserved(s.(m := s.m.(pending := false)))
  {}

  // Every run

  ghost predicate Good(env: Env, s: State, o: Owner) {
    OwnedBy(s, o) && Hope(s) && Stock(s, o) && Statuses(s) && Chain(env, s, o) && Conserved(s)
  }

  lemma GoodStep(env: Env, s: State, op: Op, o: Owner)
    requires Good(env, s, o) && Enabled(s, op)
    ensures Good(env, Step(env, s, op), NextOwner(s, op, o, Step(env, s, op)))
  {
    OwnedStep(env, s, op, o);
    HopeStep(env, s, op, o);
    StockStep(env, s, op, o);
    StatusStep(env, s, op, o);
    if s.m.past.seed == None {
      UnseededStep(env, s, op, o);
    } else {
      SeededStep(env, s, op, o);
      SeededSome(env, Step(env, s, op), NextOwner(s, op, o, Step(env, s, op)));
    }
    ConservedStep(env, s, op);
    hide *;
    GoodIs(env, Step(env, s, op), NextOwner(s, op, o, Step(env, s, op)));
  }

  lemma SeededSome(env: Env, s: State, o: Owner)
    requires Seeded(env, s, o)
    ensures s.m.past.seed.Some?
  {}

  lemma GoodIs(env: Env, s: State, o: Owner)
    requires OwnedBy(s, o) && Hope(s) && Stock(s, o) && Statuses(s) && Conserved(s)
    requires Chain(env, s, o) || (s.m.past.seed.Some? && Seeded(env, s, o))
    ensures Good(env, s, o)
  {}

  ghost predicate Reachable(env: Env, s: State) {
    exists s0, ops :: Initial(s0) && Runs(env, s0, ops) && End(env, s0, ops) == s
  }

  lemma GoodInitial(env: Env, s: State)
    requires Initial(s)
    ensures Good(env, s, Nobody)
  {}

  lemma {:induction false} GoodRuns(env: Env, s: State, ops: seq<Op>, o: Owner)
    requires Runs(env, s, ops) && Good(env, s, o)
    ensures exists o' :: Good(env, End(env, s, ops), o')
    decreases |ops|
  {
    hide Good; hide Step; hide Enabled;
    if ops == [] {
      assert Good(env, End(env, s, ops), o);
    } else {
      GoodStep(env, s, ops[0], o);
      var s' := Step(env, s, ops[0]);
      GoodRuns(env, s', ops[1..], NextOwner(s, ops[0], o, s'));
      var o' :| Good(env, End(env, s', ops[1..]), o');
      assert Good(env, End(env, s, ops), o');
    }
  }

  lemma ReachableGood(env: Env, s: State) returns (o: Owner)
    requires Reachable(env, s)
    ensures Good(env, s, o)
  {
    hide Good; hide Initial; hide Runs;
    var s0, ops :| Initial(s0) && Runs(env, s0, ops) && End(env, s0, ops) == s;
    GoodInitial(env, s0);
    GoodRuns(env, s0, ops, Nobody);
    o :| Good(env, s, o);
  }

  /** At most one thread owns the IV, never while the work item is pending, and the bit says whether somebody does. */
  lemma OneOwner(env: Env, s: State)
    requires Reachable(env, s)
    ensures forall i, j ::
      0 <= i < |s.threads| && 0 <= j < |s.threads| && Owns(s.threads[i].pc) && Owns(s.threads[j].pc) ==> i == j
    ensures forall i :: 0 <= i < |s.threads| && Owns(s.threads[i].pc) ==> !s.m.pending
    ensures s.m.inuse <==> s.m.pending || exists i :: 0 <= i < |s.threads| && Owns(s.threads[i].pc)
  {
    hide Reachable; hide Owns;
    var o := ReachableGood(env, s);
    assert o.Thr? ==> Owns(s.threads[o.i].pc);
  }

  /** queue_work never finds its work pending: BUG_ON(!queued) is unreachable. */
  lemma QueueWorkSucceeds(env: Env, s: State, i: nat)
    requires Reachable(env, s) && i < |s.threads| && s.threads[i].pc.S5?
    ensures !s.m.pending
  {
    hide Reachable;
    OneOwner(env, s);
  }

  ghost predicate Quiescent(s: State) {
    !s.m.pending && forall i :: 0 <= i < |s.threads| ==> s.threads[i].pc.Done?
  }

  /** When everything has come to rest the bit is clear, and requests are left behind exactly if they are stranded. */
  lemma QuiescentQueue(env: Env, s: State)
    requires Reachable(env, s) && Quiescent(s)
    ensures !s.m.inuse && (s.m.queue != [] <==> s.m.past.stranded)
  {
    OneOwner(env, s);
    hide Reachable;
    var o := ReachableGood(env, s);
  }

  /** No call is encrypted twice or also refused, and at rest every call was one or the other. */
  lemma EachRequestOnce(env: Env, s: State, r: nat)
    requires Reachable(env, s)
    ensures multiset(Reqs(s.m.past.log))[r] + multiset(s.m.past.dropped)[r] <= 1
    ensures Quiescent(s) && !s.m.past.stranded && r < s.m.past.calls ==>
      multiset(Reqs(s.m.past.log))[r] + multiset(s.m.past.dropped)[r] == 1
  {
    hide Reachable; hide Reqs;
    var o := ReachableGood(env, s);
    assert r in Settled(s.m) ==> Settled(s.m)[r] == 1;
    if Quiescent(s) && !s.m.past.stranded && r < s.m.past.calls {
      QuiescentQueue(env, s);
      assert Some(r) !in AllHeld(s.threads);
    }
  }

  /** The requests were encrypted as the locked version encrypts them one after the other: one chain of IVs. */
  lemma IvsFormOneChain(env: Env, s: State)
    requires Reachable(env, s)
    ensures s.m.past.log == [] || OneChain(env, s.m)
    ensures s.m.past.seed.Some? && !s.m.inuse ==> s.m.iv == Current(s.m)
  {
    hide Reachable; hide OneChain; hide Current;
    var o := ReachableGood(env, s);
  }

  /** A call, when it has ended, returns the status of its own enqueueing or encryption. */
  lemma ReturnsOwnStatus(env: Env, s: State, i: nat)
    requires Reachable(env, s) && i < |s.threads| && s.threads[i].pc.Done?
    ensures s.threads[i].err == s.threads[i].own
  {
    hide Reachable;
    var o := ReachableGood(env, s);
    assert Status(s.m, s.threads[i]);
  }

  /** The worker finds a request exactly if the queue was filled when the work was queued, or was filled since. */
  lemma WorkerFindsRequest(env: Env, s: State, i: nat)
    requires Reachable(env, s) && i < |s.threads| && s.threads[i].pc.W0?
    ensures s.m.queue != [] <==> s.m.past.stocked
  {
    hide Reachable;
    var o := ReachableGood(env, s);
  }

  // What the code does not promise

  lemma RunsSnoc(env: Env, s: State, ops: seq<Op>, op: Op)
    requires Runs(env, s, ops) && Enabled(End(env, s, ops), op)
    ensures Runs(env, s, ops + [op]) && End(env, s, ops + [op]) == Step(env, End(env, s, ops), op)
    decreases |ops|
  {
    hide Step; hide Enabled;
    if ops == [] {
      assert ops + [op] == [op] && [op][1..] == [];
    } else {
      assert (ops + [op])[1..] == ops[1..] + [op];
      RunsSnoc(env, Step(env, s, ops[0]), ops[1..], op);
    }
  }

  lemma ReachStep(env: Env, s: State, op: Op)
    requires Reachable(env, s) && Enabled(s, op)
    ensures Reachable(env, Step(env, s, op))
  {
    hide Initial; hide Runs; hide End; hide Step; hide Enabled;
    var s0, ops :| Initial(s0) && Runs(env, s0, ops) && End(env, s0, ops) == s;
    RunsSnoc(env, s0, ops, op);
  }

  /** Thread `i` takes one step. */
  lemma ReachRun(env: Env, s: State, i: nat, rng: Outcome, m': Shared, t': Thread)
    requires Reachable(env, s) && i < |s.threads| && !s.threads[i].pc.Done?
    requires (m', t') == Advance(env, s.m, s.threads[i], rng)
    ensures Reachable(env, State(m', s.threads[i := t']))
  {
    hide Reachable; hide Advance;
    ReachStep(env, s, Run(i, rng));
  }
}
