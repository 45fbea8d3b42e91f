/** Two interleavings of the asynchronous IV generator that show the limits of its promises. */
module ChainIvRaces {
  import opened Options
  import opened ChainIv
  import opened ChainIvTheorems

  const ENV: Env := Env((req: nat, iv: nat) => Ok(iv + 1), (req: nat) => true, 100)

  const NONE: Outcome := Fail(-5)

  function Mem(inuse: bool, queue: seq<nat>, switched: bool, past: Past): Shared {
    Shared(inuse, queue, false, 0, 0, switched, past)
  }

  lemma ReachStart()
    ensures Reachable(ENV, State(Mem(false, [], false, Past(0, [], [], None, false, false)), []))
  {
    var s := State(Mem(false, [], false, Past(0, [], [], None, false, false)), []);
    assert Initial(s) && Runs(ENV, s, []) && End(ENV, s, []) == s;
  }

  /** One step of a thread. */
  lemma Go(s: State, i: nat, rng: Outcome, s': State)
    requires Reachable(ENV, s) && i < |s.threads| == |s'.threads| && !s.threads[i].pc.Done?
    requires (s'.m, s'.threads[i]) == Advance(ENV, s.m, s.threads[i], rng)
    requires s'.threads == s.threads[i := s'.threads[i]]
    ensures Reachable(ENV, s')
  {
    hide Reachable; hide Advance;
    ReachRun(ENV, s, i, rng, s'.m, s'.threads[i]);
  }

  lemma GoCall(s: State, first: bool, s': State)
    requires Reachable(ENV, s) && (first || s.m.switched)
    requires s' == State(s.m.(past := s.m.past.(calls := s.m.past.calls + 1)), s.threads + [NewCall(s, first)])
    ensures Reachable(ENV, s')
  {
    hide Reachable;
    ReachStep(ENV, s, Call(first));
  }

  /**
    The first caller installs the second entry point before it asks for random bytes. A call that
    comes in between is queued and relies on the owner, but after a failure the owner just leaves.
   */
  lemma StuckAfterRngFailure()
    ensures exists s :: Reachable(ENV, s) && Quiescent(s) && s.m.queue != []
  {
    hide Reachable;
    ReachStart();
    var p0 := Past(0, [], [], None, false, false);
    var p1, p2 := p0.(calls := 1), p0.(calls := 2);
    var p3 := p2.(stocked := true);
    var a, b := Thread(F0, 0, 0, 0, 0, 0), Thread(G0, 1, 0, 0, 0, 0);
    var b' := b.(err := EINPROGRESS, own := EINPROGRESS);
    var s0 := State(Mem(false, [], false, p0), []);
    var s1 := State(Mem(false, [], false, p1), [a]);
    var s2 := State(Mem(true, [], false, p1), [a.(pc := F1)]);
    var s3 := State(Mem(true, [], true, p1), [a.(pc := F2)]);
    var s4 := State(Mem(true, [], true, p2), [a.(pc := F2), b]);
    var s5 := State(Mem(true, [], true, p2), [a.(pc := F2), b.(pc := P0)]);
    var s6 := State(Mem(true, [1], true, p3), [a.(pc := F2), b'.(pc := P1)]);
    var s7 := State(Mem(true, [1], true, p3), [a.(pc := F2), b'.(pc := Done)]);
    GoCall(s0, true, s1);
    Go(s1, 0, NONE, s2);
    Go(s2, 0, NONE, s3);
    GoCall(s3, false, s4);
    Go(s4, 1, NONE, s5);
    assert [] + [1] == [1];
    Go(s5, 1, NONE, s6);
    Go(s6, 1, NONE, s7);
    OwnerLeaves(s7, a, b'.(pc := Done), p3);
  }

  lemma OwnerLeaves(s: State, a: Thread, b: Thread, p: Past)
    requires Reachable(ENV, s) && s == State(Mem(true, [1], true, p), [a.(pc := F2), b]) && b.pc.Done? && p.seed == None
    ensures exists s' :: Reachable(ENV, s') && Quiescent(s') && s'.m.queue != []
  {
    hide Reachable;
    var p1 := p.(seed := Some(0));
    var s1 := State(Mem(true, [1], true, p1), [a.(pc := F3, err := -5, own := -5), b]);
    var p2 := p1.(stranded := true, dropped := p.dropped + [a.req]);
    var s2 := State(Mem(false, [1], true, p2), [a.(pc := Done, err := -5, own := -5), b]);
    Go(s, 0, NONE, s1);
    Go(s1, 0, NONE, s2);
    assert Quiescent(s2);
  }

  lemma GoWork(s: State, s': State)
    requires Reachable(ENV, s) && s.m.pending
    requires s' == State(s.m.(pending := false), s.threads + [NEW_WORK])
    ensures Reachable(ENV, s')
  {
    hide Reachable;
    ReachStep(ENV, s, StartWork);
  }

  /** Steps of thread `i` that leave the others alone, from `t` to `t'`. */
  lemma GoOn(s: State, i: nat, m': Shared, t': Thread) returns (s': State)
    requires Reachable(ENV, s) && i < |s.threads| && !s.threads[i].pc.Done?
    requires (m', t') == Advance(ENV, s.m, s.threads[i], NONE)
    ensures s' == State(m', s.threads[i := t']) && Reachable(ENV, s')
  {
    hide Reachable; hide Advance;
    s' := State(m', s.threads[i := t']);
    Go(s, i, NONE, s');
  }

  /** An owner with an empty queue encrypts and gives the IV up. */
  lemma Encrypts(s: State, i: nat) returns (s': State)
    requires Reachable(ENV, s) && i < |s.threads| && s.threads[i].pc.T0? && s.m.queue == []
    ensures Reachable(ENV, s') && |s'.threads| == |s.threads| && s'.threads[i].pc.S3?
    ensures forall j :: 0 <= j < |s.threads| && j != i ==> s'.threads[j] == s.threads[j]
    ensures s'.m.queue == [] && !s'.m.inuse && s'.m.pending == s.m.pending && s'.m.switched == s.m.switched
    ensures s'.m.past.calls == s.m.past.calls
  {
    hide Reachable;
    var m, t := s.m, s.threads[i];
    t := t.(pc := T1, giv := m.iv, info := m.iv);
    s' := GoOn(s, i, m, t);
    m := m.(err := 0, past := m.past.(log := m.past.log + [Entry(t.req, t.giv, Ok(t.info + 1))]));
    t := t.(pc := T2, info := t.info + 1, own := 0);
    s' := GoOn(s', i, m, t);
    m, t := m.(iv := t.info), t.(pc := S0);
    s' := GoOn(s', i, m, t);
    s' := GivesUp(s', i);
  }

  lemma GivesUp(s: State, i: nat) returns (s': State)
    requires Reachable(ENV, s) && i < |s.threads| && s.threads[i].pc.S0? && s.m.queue == []
    ensures Reachable(ENV, s') && |s'.threads| == |s.threads| && s'.threads[i].pc.S3?
    ensures forall j :: 0 <= j < |s.threads| && j != i ==> s'.threads[j] == s.threads[j]
    ensures s'.m == s.m.(inuse := false)
  {
    hide Reachable;
    var t := s.threads[i].(pc := S1, err := s.m.err);
    s' := GoOn(s, i, s.m, t);
    s' := GoOn(s', i, s.m, t.(pc := S2));
    s' := GoOn(s', i, s.m.(inuse := false), t.(pc := S3));
  }

  /** The first call has the IV, a second one is about to be queued. */
  lemma TwoCalls() returns (s: State)
    ensures Reachable(ENV, s) && |s.threads| == 2 && s.threads[0].pc.T0? && s.threads[1].pc.P0?
    ensures s.m.queue == [] && s.m.inuse && !s.m.pending
  {
    hide Reachable;
    ReachStart();
    var p1, p2 := Past(1, [], [], None, false, false), Past(1, [], [], Some(7), false, false);
    var a := Thread(F0, 0, 0, 0, 0, 0);
    var m := Shared(true, [], false, 0, 7, true, p2);
    var s1 := State(Mem(false, [], false, p1), [a]);
    GoCall(State(Mem(false, [], false, Past(0, [], [], None, false, false)), []), true, s1);
    var s2 := State(Mem(true, [], false, p1), [a.(pc := F1)]);
    Go(s1, 0, NONE, s2);
    var s3 := State(Mem(true, [], true, p1), [a.(pc := F2)]);
    Go(s2, 0, NONE, s3);
    s := Seeded(s3, a, m);
  }

  lemma Seeded(s3: State, a: Thread, m: Shared) returns (s: State)
    requires m == Shared(true, [], false, 0, 7, true, Past(1, [], [], Some(7), false, false))
    requires a == Thread(F0, 0, 0, 0, 0, 0)
    requires s3 == State(Mem(true, [], true, m.past.(seed := None)), [a.(pc := F2)]) && Reachable(ENV, s3)
    ensures Reachable(ENV, s) && |s.threads| == 2 && s.threads[0].pc.T0? && s.threads[1].pc.P0?
    ensures s.m.queue == [] && s.m.inuse && !s.m.pending
  {
    hide Reachable;
    var s4 := State(m, [a.(pc := F3)]);
    Go(s3, 0, Ok(7), s4);
    s := SecondCall(s4, a, m);
  }

  lemma SecondCall(s4: State, a: Thread, m: Shared) returns (s: State)
    requires m == Shared(true, [], false, 0, 7, true, Past(1, [], [], Some(7), false, false))
    requires a == Thread(F0, 0, 0, 0, 0, 0)
    requires s4 == State(m, [a.(pc := F3)]) && Reachable(ENV, s4)
    ensures Reachable(ENV, s) && |s.threads| == 2 && s.threads[0].pc.T0? && s.threads[1].pc.P0?
    ensures s.m.queue == [] && s.m.inuse && !s.m.pending
  {
    hide Reachable;
    var free := m.(inuse := false);
    var s5 := State(free, [a.(pc := G0)]);
    Go(s4, 0, NONE, s5);
    var s6 := State(m, [a.(pc := G1)]);
    Go(s5, 0, NONE, s6);
    var s7 := State(m, [a.(pc := T0)]);
    Go(s6, 0, NONE, s7);
    var b := Thread(G0, 1, 0, 0, 0, 0);
    var m' := m.(past := m.past.(calls := 2));
    var s8 := State(m', [a.(pc := T0), b]);
    GoCall(s7, false, s8);
    s := State(m', [a.(pc := T0), b.(pc := P0)]);
    Go(s8, 1, NONE, s);
  }

  /** The second call queues its request and schedules the work, after the first has looked at the queue again. */
  lemma LooksAgain(s: State) returns (s': State)
    requires Reachable(ENV, s) && |s.threads| == 2 && s.threads[0].pc.S3? && s.threads[1].pc.P0?
    requires s.m.queue == [] && !s.m.inuse && !s.m.pending
    ensures Reachable(ENV, s') && |s'.threads| == 2 && s'.threads[0].pc.S4? && s'.threads[1].pc.Done?
    ensures |s'.m.queue| == 1 && s'.m.inuse && s'.m.pending
  {
    hide Reachable;
    var a, b, m := s.threads[0], s.threads[1], s.m;
    b := b.(pc := P1, err := EINPROGRESS, own := EINPROGRESS);
    m := m.(queue := m.queue + [b.req], past := m.past.(stocked := true));
    s' := GoOn(s, 1, m, b);
    s' := GoOn(s', 0, m, a.(pc := S4));
    m, b := Claim(m), b.(pc := P2);
    s' := GoOn(s', 1, m, b);
    m, b := m.(err := b.err), b.(pc := S0);
    s' := GoOn(s', 1, m, b);
    s' := Schedules(s', 1);
  }

  lemma Schedules(s: State, i: nat) returns (s': State)
    requires Reachable(ENV, s) && i < |s.threads| && s.threads[i].pc.S0? && s.m.queue != []
    ensures Reachable(ENV, s') && |s'.threads| == |s.threads| && s'.threads[i].pc.Done?
    ensures forall j :: 0 <= j < |s.threads| && j != i ==> s'.threads[j] == s.threads[j]
    ensures s'.m == s.m.(pending := true, past := s.m.past.(stocked := true))
  {
    hide Reachable;
    var t := s.threads[i].(pc := S1, err := s.m.err);
    s' := GoOn(s, i, s.m, t);
    s' := GoOn(s', i, s.m, t.(pc := S5));
    s' := GoOn(s', i, s.m.(pending := true, past := s.m.past.(stocked := true)), t.(pc := Done));
  }

  /** The work item takes the only request; then the first call queues the work for nothing. */
  lemma QueuesForNothing(s: State) returns (s': State)
    requires Reachable(ENV, s) && |s.threads| == 2 && s.threads[0].pc.S4? && |s.m.queue| == 1 && s.m.pending
    ensures Reachable(ENV, s') && |s'.threads| == 4 && s'.threads[3].pc.W0? && s'.m.queue == []
  {
    hide Reachable;
    s' := State(s.m.(pending := false), s.threads + [NEW_WORK]);
    GoWork(s, s');
    s' := GoOn(s', 2, s'.m.(queue := s'.m.queue[1..]), NEW_WORK.(pc := T0, req := s'.m.queue[0]));
    s' := Encrypts(s', 2);
    s' := GoOn(s', 2, s'.m, s'.threads[2].(pc := Done));
    var t := s'.threads[0];
    s' := GoOn(s', 0, Claim(s'.m), t.(pc := S5));
    s' := GoOn(s', 0, s'.m.(pending := true, past := s'.m.past.(stocked := false)), t.(pc := Done));
    var s3 := s';
    s' := State(s3.m.(pending := false), s3.threads + [NEW_WORK]);
    GoWork(s3, s');
  }

  /** A work item can find the queue empty: between the second look and the second claim the request may be gone. */
  lemma EmptyHandedWorker()
    ensures exists s, i :: Reachable(ENV, s) && 0 <= i < |s.threads| && s.threads[i].pc.W0? && s.m.queue == []
  {
    hide Reachable;
    var s := TwoCalls();
    s := Encrypts(s, 0);
    s := LooksAgain(s);
    s := QueuesForNothing(s);
    assert Reachable(ENV, s) && s.threads[3].pc.W0? && s.m.queue == [];
  }
}
