/** What holds in every interleaving of the asynchronous IV generator. */
module ChainIvSafety {
  import opened Options
  import opened ChainIv

  // Ownership

  datatype Owner = Nobody | Work | Thr(i: nat)

  /** The places where a thread has the IV to itself. */
  predicate Owns(pc: Pc) {
    !(pc.F0? || pc.G0? || pc.P0? || pc.P1? || pc.S3? || pc.S4? || pc.Done?)
  }

  /** The bit is set exactly when one thread or the pending work item owns the IV. */
  ghost predicate OwnedBy(s: State, o: Owner) {
    && s.m.inuse == (o != Nobody)
    && s.m.pending == (o == Work)
    && (o.Thr? ==> o.i < |s.threads|)
    && forall i :: 0 <= i < |s.threads| ==> Owns(s.threads[i].pc) == (o == Thr(i))
  }

  ghost function NextOwner(s: State, op: Op, o: Owner, s': State): Owner {
    if s'.m.pending then Work
    else if !s'.m.inuse then Nobody
    else if op.StartWork? then Thr(|s.threads|)
    else if op.Run? && !s.m.inuse then Thr(op.i)
    else o
  }

  /** What one step of a thread may do to the bit, the work item and its own place. */
  ghost predicate Handover(m: Shared, t: Thread, m': Shared, t': Thread) {
    var before, after := Owns(t.pc), Owns(t'.pc);
    if m'.pending != m.pending then m'.pending && before && !after && m'.inuse == m.inuse
    else if m'.inuse == m.inuse then before == after
    else after == m'.inuse && before == m.inuse
  }

  lemma AdvanceHandsOver(env: Env, m: Shared, t: Thread, rng: Outcome)
    requires !t.pc.Done? && (Owns(t.pc) ==> m.inuse && !m.pending)
    ensures var (m', t') := Advance(env, m, t, rng); Handover(m, t, m', t')
  {}

  lemma OwnedStep(env: Env, s: State, op: Op, o: Owner)
    requires OwnedBy(s, o) && Enabled(s, op)
    ensures OwnedBy(Step(env, s, op), NextOwner(s, op, o, Step(env, s, op)))
  {
    if op.Run? {
      AdvanceHandsOver(env, s.m, s.threads[op.i], op.rng);
      hide Advance; hide Owns;
      assert o == Thr(op.i) || !Owns(s.threads[op.i].pc);
    }
  }

  // No request is forgotten

  /** A thread that will still look at the bit or the queue before it ends. */
  predicate Hopeful(pc: Pc) {
    pc.G0? || pc.P0? || pc.P1? || pc.S3? || pc.S4?
  }

  /**
    A filled queue has an owner, or somebody who will yet look at it, unless it is stranded: the last owner left it
    filled when the RNG failed, and nobody has taken the bit since.
   */
  ghost predicate Hope(s: State) {
    && (s.m.past.stranded ==> s.m.queue != [] && !s.m.inuse)
    && (s.m.queue == [] || s.m.inuse || s.m.past.stranded
        || exists i :: 0 <= i < |s.threads| && Hopeful(s.threads[i].pc))
  }

  lemma AdvanceHopes(env: Env, m: Shared, t: Thread, rng: Outcome)
    requires !t.pc.Done? && (Owns(t.pc) ==> m.inuse) && (m.past.stranded ==> m.queue != [] && !m.inuse)
    ensures var (m', t') := Advance(env, m, t, rng);
      && (m'.past.stranded ==> m'.queue != [] && !m'.inuse)
      && (m'.queue == [] || m'.inuse || m'.past.stranded || Hopeful(t'.pc) ||
        (m.queue != [] && !m.inuse && !m.past.stranded && !Hopeful(t.pc)))
  {}

  lemma HopeStep(env: Env, s: State, op: Op, o: Owner)
    requires OwnedBy(s, o) && Hope(s) && Enabled(s, op)
    ensures Hope(Step(env, s, op))
  {
    var s' := Step(env, s, op);
    if op.Run? {
      AdvanceHopes(env, s.m, s.threads[op.i], op.rng);
      hide Advance; hide Owns; hide Hopeful;
      if Hopeful(s'.threads[op.i].pc) {
      } else if exists j :: 0 <= j < |s.threads| && Hopeful(s.threads[j].pc) {
        var j :| 0 <= j < |s.threads| && Hopeful(s.threads[j].pc);
        assert j == op.i || s'.threads[j] == s.threads[j];
      }
    } else if exists j :: 0 <= j < |s.threads| && Hopeful(s.threads[j].pc) {
      var j :| 0 <= j < |s.threads| && Hopeful(s.threads[j].pc);
      assert s'.threads[j] == s.threads[j];
    }
  }

  // The queue of a pending work item

  ghost predicate AtWork(s: State, o: Owner) {
    o == Work || (o.Thr? && o.i < |s.threads| && s.threads[o.i].pc.W0?)
  }

  /** Until the worker looks, the queue is filled exactly if it was when the work was queued or has been since. */
  ghost predicate Stock(s: State, o: Owner) {
    AtWork(s, o) ==> (s.m.queue != []) == s.m.past.stocked
  }

  lemma AdvanceStocks(env: Env, m: Shared, t: Thread, rng: Outcome)
    requires !t.pc.Done?
    ensures var (m', t') := Advance(env, m, t, rng);
      && !t'.pc.W0?
      && (m'.pending && !m.pending ==> (m'.queue != []) == m'.past.stocked)
      && (!Owns(t.pc) && (m.queue != []) == m.past.stocked ==> (m'.queue != []) == m'.past.stocked)
  {}

  lemma StockStep(env: Env, s: State, op: Op, o: Owner)
    requires OwnedBy(s, o) && Stock(s, o) && Enabled(s, op)
    ensures Stock(Step(env, s, op), NextOwner(s, op, o, Step(env, s, op)))
  {
    if op.Run? {
      AdvanceStocks(env, s.m, s.threads[op.i], op.rng);
      AdvanceHandsOver(env, s.m, s.threads[op.i], op.rng);
      hide Advance; hide Owns;
      assert o == Thr(op.i) || !Owns(s.threads[op.i].pc);
    }
  }

  // Every call returns its own status

  ghost predicate Status(m: Shared, t: Thread) {
    && (t.pc.P1? || t.pc.P2? || t.pc.S1? || t.pc.S2? || t.pc.S3? || t.pc.S4? || t.pc.S5? || t.pc.Done? ==>
          t.err == t.own)
    && (t.pc.F3? && t.err != 0 ==> t.err == t.own)
    && (t.pc.T2? || t.pc.S0? ==> m.err == t.own)
  }

  ghost predicate Statuses(s: State) {
    forall i :: 0 <= i < |s.threads| ==> Status(s.m, s.threads[i])
  }

  lemma AdvanceReports(env: Env, m: Shared, t: Thread, rng: Outcome)
    requires !t.pc.Done? && Status(m, t)
    ensures var (m', t') := Advance(env, m, t, rng); Status(m', t') && (Owns(t.pc) || m'.err == m.err)
  {
    hide RunFirst; hide RunTail;
    if t.pc.F0? || t.pc.F1? || t.pc.F2? || t.pc.F3? {
      FirstReports(m, t, rng);
    } else if t.pc.T0? || t.pc.T1? || t.pc.T2? {
      TailReports(env, m, t);
    }
  }

  lemma FirstReports(m: Shared, t: Thread, rng: Outcome)
    requires (t.pc.F0? || t.pc.F1? || t.pc.F2? || t.pc.F3?) && Status(m, t)
    ensures var (m', t') := RunFirst(m, t, rng); Status(m', t') && (Owns(t.pc) || m'.err == m.err)
  {}

  lemma TailReports(env: Env, m: Shared, t: Thread)
    requires (t.pc.T0? || t.pc.T1? || t.pc.T2?) && Status(m, t)
    ensures var (m', t') := RunTail(env, m, t); Status(m', t') && (Owns(t.pc) || m'.err == m.err)
  {}

  lemma StatusStep(env: Env, s: State, op: Op, o: Owner)
    requires OwnedBy(s, o) && Statuses(s) && Enabled(s, op)
    ensures Statuses(Step(env, s, op))
  {
    if op.Run? {
      AdvanceReports(env, s.m, s.threads[op.i], op.rng);
      hide Advance;
      assert o == Thr(op.i) || !Owns(s.threads[op.i].pc);
      var s' := Step(env, s, op);
      forall j | 0 <= j < |s'.threads| && j != op.i ensures Status(s'.m, s'.threads[j]) {
        assert Owns(s.threads[j].pc) ==> !Owns(s.threads[op.i].pc);
      }
    }
  }

  // One chain of IVs

  function Reqs(log: seq<Entry>): seq<nat> {
    if log == [] then [] else Reqs(log[..|log| - 1]) + [log[|log| - 1].req]
  }

  /** The IV after the encryptions: the last one that succeeded has set it. */
  function ChainEnd(seed: nat, log: seq<Entry>): nat {
    if log == [] then seed
    else match log[|log| - 1].out
      case Ok(iv) => iv
      case Fail(_) => ChainEnd(seed, log[..|log| - 1])
  }

  /** chainiv_givencrypt: the requests one after the other under the lock. */
  function Locked(env: Env, seed: nat, reqs: seq<nat>): seq<Entry> {
    if reqs == [] then []
    else
      var before := Locked(env, seed, reqs[..|reqs| - 1]);
      var req, iv := reqs[|reqs| - 1], ChainEnd(seed, before);
      before + [Entry(req, iv, env.cipher(req, iv))]
  }

  ghost predicate OneChain(env: Env, m: Shared) {
    m.past.seed.Some? && m.past.log == Locked(env, m.past.seed.value, Reqs(m.past.log))
  }

  ghost function Current(m: Shared): nat
    requires m.past.seed.Some?
  {
    ChainEnd(m.past.seed.value, m.past.log)
  }

  lemma LogNext(env: Env, m: Shared, e: Entry)
    requires OneChain(env, m) && e == Entry(e.req, Current(m), env.cipher(e.req, Current(m)))
    ensures var m' := m.(past := m.past.(log := m.past.log + [e]));
      OneChain(env, m') && Current(m') == match e.out { case Ok(iv) => iv case Fail(_) => Current(m) }
  {
    var log := m.past.log;
    assert (log + [e])[..|log|] == log;
    assert Reqs(log + [e]) == Reqs(log) + [e.req];
    assert (Reqs(log) + [e.req])[..|Reqs(log)|] == Reqs(log);
  }

  /** Where the newest IV is while the owner works with it. */
  ghost predicate OwnerIv(m: Shared, t: Thread) {
    m.past.seed.Some? &&
    if t.pc.T1? then t.giv == t.info == m.iv == Current(m)
    else if t.pc.T2? then t.info == Current(m)
    else m.iv == Current(m)
  }

  /** Before the IV is seeded nobody gets past the first caller. */
  ghost predicate Unseeded(s: State, o: Owner) {
    && s.m.past.log == [] && o != Work
    && s.m.switched == (o.Thr? && o.i < |s.threads| && s.threads[o.i].pc.F2?)
    && forall i :: 0 <= i < |s.threads| ==>
      var pc := s.threads[i].pc;
      if o == Nobody then pc.F0? else if o == Thr(i) then pc.F1? || pc.F2? else pc.F0? || Early(pc)
  }

  ghost predicate Seeded(env: Env, s: State, o: Owner) {
    && OneChain(env, s.m) && s.m.switched
    && (forall i :: 0 <= i < |s.threads| ==> !s.threads[i].pc.F2?)
    && if o.Thr? then o.i < |s.threads| && OwnerIv(s.m, s.threads[o.i]) else s.m.iv == Current(s.m)
  }

  ghost predicate Chain(env: Env, s: State, o: Owner) {
    if s.m.past.seed == None then Unseeded(s, o) else Seeded(env, s, o)
  }

  /** What a step does to a seeded IV: only owners use it, and they hand it on in order. */
  lemma AdvanceChains(env: Env, m: Shared, t: Thread, rng: Outcome)
    requires !t.pc.Done? && !t.pc.F2? && OneChain(env, m) && m.switched
    requires if Owns(t.pc) then OwnerIv(m, t) else !m.inuse ==> m.iv == Current(m)
    ensures var (m', t') := Advance(env, m, t, rng);
      && OneChain(env, m') && m'.switched && !t'.pc.F2?
      && (Owns(t.pc) ==> if Owns(t'.pc) then OwnerIv(m', t') else m'.iv == Current(m'))
      && (!Owns(t.pc) && Owns(t'.pc) ==> OwnerIv(m', t'))
      && (!Owns(t.pc) ==> m'.iv == m.iv && m'.past.log == m.past.log && m'.past.seed == m.past.seed)
  {
    hide OneChain; hide Current;
    if t.pc.T1? {
      var e := Entry(t.req, t.giv, env.cipher(t.req, t.info));
      LogNext(env, m, e);
      SamePast(env, m.(past := m.past.(log := m.past.log + [e])), Advance(env, m, t, rng).0);
    } else {
      SamePast(env, m, Advance(env, m, t, rng).0);
    }
  }

  lemma SamePast(env: Env, m: Shared, m': Shared)
    requires OneChain(env, m) && m'.past.seed == m.past.seed && m'.past.log == m.past.log
    ensures OneChain(env, m') && Current(m') == Current(m)
  {}

  lemma SeededStep(env: Env, s: State, op: Op, o: Owner)
    requires OwnedBy(s, o) && Seeded(env, s, o) && Enabled(s, op)
    ensures Seeded(env, Step(env, s, op), NextOwner(s, op, o, Step(env, s, op)))
  {
    if op.Run? {
      AdvanceChains(env, s.m, s.threads[op.i], op.rng);
      AdvanceHandsOver(env, s.m, s.threads[op.i], op.rng);
      hide Advance; hide Owns; hide OneChain; hide ChainEnd;
      assert o == Thr(op.i) || !Owns(s.threads[op.i].pc);
    }
  }

  /** The places of threads that wait for the first caller. */
  predicate Early(pc: Pc) { pc.G0? || pc.P0? || pc.P1? || pc.Done? }

  lemma AdvanceUnseeded(env: Env, m: Shared, t: Thread, rng: Outcome)
    requires m.past.seed == None && m.past.log == []
    requires if Owns(t.pc) then m.inuse && ((t.pc.F1? && !m.switched) || (t.pc.F2? && m.switched))
      else t.pc.F0? || (m.inuse && !t.pc.Done? && Early(t.pc))
    ensures var (m', t') := Advance(env, m, t, rng);
      && m'.pending == m.pending
      && (t.pc.F2? ==> OneChain(env, m') && m'.switched && t'.pc.F3? && OwnerIv(m', t'))
      && (!t.pc.F2? ==> m'.past.seed == None && m'.past.log == [])
      && (t.pc.F1? ==> t'.pc.F2? && m'.switched)
      && (!Owns(t.pc) ==> m'.switched == m.switched && if m.inuse then Early(t'.pc) else t'.pc.F1?)
  {}

  lemma UnseededStep(env: Env, s: State, op: Op, o: Owner)
    requires OwnedBy(s, o) && s.m.past.seed == None && Unseeded(s, o) && Enabled(s, op)
    ensures Chain(env, Step(env, s, op), NextOwner(s, op, o, Step(env, s, op)))
  {
    if op.Run? {
      AdvanceUnseeded(env, s.m, s.threads[op.i], op.rng);
      AdvanceHandsOver(env, s.m, s.threads[op.i], op.rng);
      hide Advance; hide OneChain; hide ChainEnd;
      assert o == Thr(op.i) || !Owns(s.threads[op.i].pc);
    }
  }
}
