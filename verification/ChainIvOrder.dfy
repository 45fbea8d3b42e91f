/** Requests are encrypted in the order in which they were accepted. */
module ChainIvOrder {
  import opened ChainIv
  import opened ChainIvSafety
  import opened ChainIvTheorems

  /** The places where a thread has a request that it is to encrypt. */
  predicate Serves(pc: Pc) { pc.T0? || pc.T1? }

  /** The requests that threads are to encrypt. */
  function Hands(threads: seq<Thread>): seq<nat> {
    if threads == [] then []
    else
      var t := threads[|threads| - 1];
      Hands(threads[..|threads| - 1]) + if Serves(t.pc) then [t.req] else []
  }

  /** The requests in the order of their encryption: those that are encrypted, the one in hand and the queue. */
  function Line(s: State): seq<nat> { Reqs(s.m.past.log) + Hands(s.threads) + s.m.queue }

  lemma {:induction false} NoHands(threads: seq<Thread>)
    requires forall i :: 0 <= i < |threads| ==> !Serves(threads[i].pc)
    ensures Hands(threads) == []
    decreases |threads|
  {
    if threads != [] {
      NoHands(threads[..|threads| - 1]);
    }
  }

  lemma {:induction false} OneHand(threads: seq<Thread>, i: nat)
    requires i < |threads| && forall j :: 0 <= j < |threads| && j != i ==> !Serves(threads[j].pc)
    ensures Hands(threads) == if Serves(threads[i].pc) then [threads[i].req] else []
    decreases |threads|
  {
    var n := |threads| - 1;
    if i == n {
      NoHands(threads[..n]);
    } else {
      OneHand(threads[..n], i);
    }
  }

  /** What one step of a thread does to the log, to what the thread has in hand and to the queue. */
  function Part(m: Shared, t: Thread): seq<nat> {
    Reqs(m.past.log) + (if Serves(t.pc) then [t.req] else []) + m.queue
  }

  /** The steps of a thread that has nothing in hand, before or after, at most add to the queue. */
  lemma AdvanceIdle(env: Env, m: Shared, t: Thread, rng: Outcome)
    requires !t.pc.Done?
    ensures var (m', t') := Advance(env, m, t, rng);
      !Serves(t.pc) && !Serves(t'.pc) ==> m'.past.log == m.past.log && m.queue <= m'.queue
  {}

  lemma AdvanceServes(env: Env, m: Shared, t: Thread, rng: Outcome)
    requires !t.pc.Done?
    ensures var (m', t') := Advance(env, m, t, rng);
      Serves(t.pc) || Serves(t'.pc) ==> Owns(t.pc) && Part(m, t) <= Part(m', t')
  {
    if t.pc.T1? {
      TailPart(env, m, t, rng);
    } else if t.pc.W0? && m.queue != [] {
      WorkPart(env, m, t, rng);
    } else if t.pc.G1? {
      GivePart(env, m, t, rng);
    } else if t.pc.T0? {
      assert Advance(env, m, t, rng) == (m, t.(pc := T1, giv := m.iv, info := m.iv));
    } else {
      hide Reqs; hide Part;
      assert !Serves(Advance(env, m, t, rng).1.pc);
    }
  }

  lemma TailPart(env: Env, m: Shared, t: Thread, rng: Outcome)
    requires t.pc.T1?
    ensures var (m', t') := Advance(env, m, t, rng); Part(m', t') == Part(m, t)
  {
    ReqsSnoc(m.past.log, Entry(t.req, t.giv, env.cipher(t.req, t.info)));
    hide Reqs;
  }

  lemma WorkPart(env: Env, m: Shared, t: Thread, rng: Outcome)
    requires t.pc.W0? && m.queue != []
    ensures var (m', t') := Advance(env, m, t, rng); Part(m', t') == Part(m, t)
  {
    hide Reqs;
    assert m.queue == [m.queue[0]] + m.queue[1..];
  }

  lemma GivePart(env: Env, m: Shared, t: Thread, rng: Outcome)
    requires t.pc.G1?
    ensures var (m', t') := Advance(env, m, t, rng); Part(m, t) <= Part(m', t')
  {
    hide Reqs;
  }

  lemma RunServes(env: Env, s: State, i: nat, rng: Outcome, o: Owner)
    requires OwnedBy(s, o) && Enabled(s, Run(i, rng))
    requires Serves(s.threads[i].pc) || Serves(Step(env, s, Run(i, rng)).threads[i].pc)
    ensures Line(s) <= Line(Step(env, s, Run(i, rng)))
  {
    var s' := Step(env, s, Run(i, rng));
    AdvanceServes(env, s.m, s.threads[i], rng);
    hide Advance; hide Hands; hide Reqs;
    assert o == Thr(i);
    OneHand(s.threads, i);
    OneHand(s'.threads, i);
  }

  lemma {:induction false} HandsFrame(threads: seq<Thread>, i: nat, t: Thread)
    requires i < |threads| && !Serves(threads[i].pc) && !Serves(t.pc)
    ensures Hands(threads[i := t]) == Hands(threads)
    decreases |threads|
  {
    var n := |threads| - 1;
    if i == n {
      assert threads[i := t][..n] == threads[..n];
    } else {
      HandsFrame(threads[..n], i, t);
      assert threads[i := t][..n] == threads[..n][i := t];
    }
  }

  lemma RunIdle(env: Env, s: State, i: nat, rng: Outcome)
    requires Enabled(s, Run(i, rng))
    requires !Serves(s.threads[i].pc) && !Serves(Step(env, s, Run(i, rng)).threads[i].pc)
    ensures Line(s) <= Line(Step(env, s, Run(i, rng)))
  {
    AdvanceIdle(env, s.m, s.threads[i], rng);
    hide Advance; hide Hands; hide Reqs;
    HandsFrame(s.threads, i, Advance(env, s.m, s.threads[i], rng).1);
  }

  lemma StepLine(env: Env, s: State, op: Op, o: Owner)
    requires OwnedBy(s, o) && Enabled(s, op)
    ensures Line(s) <= Line(Step(env, s, op))
  {
    hide Advance; hide Reqs; hide OwnedBy;
    if op.Run? {
      hide Hands;
      var t' := Step(env, s, op).threads[op.i];
      if Serves(s.threads[op.i].pc) || Serves(t'.pc) {
        RunServes(env, s, op.i, op.rng, o);
      } else {
        RunIdle(env, s, op.i, op.rng);
      }
    } else {
      var s' := Step(env, s, op);
      assert s'.threads[..|s.threads|] == s.threads;
    }
  }

  /** The line only grows at its end: whoever was accepted first is encrypted first, in every run. */
  lemma {:induction false} FirstComeFirstServed(env: Env, s: State, ops: seq<Op>)
    requires Reachable(env, s) && Runs(env, s, ops)
    ensures Line(s) <= Line(End(env, s, ops))
    ensures forall k :: 0 <= k < |Line(s)| && k < |Reqs(End(env, s, ops).m.past.log)| ==>
      Reqs(End(env, s, ops).m.past.log)[k] == Line(s)[k]
    decreases |ops|
  {
    hide Reachable; hide Step; hide Enabled; hide Good;
    if ops != [] {
      var o := ReachableGood(env, s);
      GoodOwned(env, s, o);
      StepLine(env, s, ops[0], o);
      ReachStep(env, s, ops[0]);
      FirstComeFirstServed(env, Step(env, s, ops[0]), ops[1..]);
    }
    hide Hands; hide Reqs;
    var t := End(env, s, ops);
    assert Reqs(t.m.past.log) <= Line(t);
  }

  lemma GoodOwned(env: Env, s: State, o: Owner)
    requires Good(env, s, o)
    ensures OwnedBy(s, o)
  {}
}
