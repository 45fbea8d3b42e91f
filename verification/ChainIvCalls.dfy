/** What a call returns says what became of its request. */
module ChainIvCalls {
  import opened Options
  import opened ChainIv
  import opened ChainIvSafety
  import opened ChainIvTheorems
  import opened ChainIvOrder

  function StatusOf(out: Outcome): int { match out case Ok(_) => 0 case Fail(e) => e }

  /** The request was encrypted, with this status. */
  ghost predicate Encrypted(m: Shared, r: nat, e: int) {
    exists k :: 0 <= k < |m.past.log| && m.past.log[k].req == r && StatusOf(m.past.log[k].out) == e
  }

  /**
    What became of a request whose call returns `e`; `said` is the error of the random number generator, if the call
    asked it and it failed.
   */
  ghost predicate Fate(env: Env, s: State, r: nat, said: Option<int>, e: int) {
    match said
    case Some(e') => e == e' && r in s.m.past.dropped
    case None =>
      || (e == EBUSY && !env.mayBacklog(r) && r in s.m.past.dropped)
      || (e == EBUSY && env.mayBacklog(r) && r in Line(s))
      || (e == EINPROGRESS && r in Line(s))
      || Encrypted(s.m, r, e)
  }

  /** Nothing that was settled is taken back. */
  ghost predicate Later(s: State, s': State) {
    Line(s) <= Line(s') && s.m.past.dropped <= s'.m.past.dropped && s.m.past.log <= s'.m.past.log
  }

  lemma FateStays(env: Env, s: State, s': State, r: nat, said: Option<int>, e: int)
    requires Fate(env, s, r, said, e) && Later(s, s')
    ensures Fate(env, s', r, said, e)
  {
    hide Line;
    if Encrypted(s.m, r, e) {
      var k :| 0 <= k < |s.m.past.log| && s.m.past.log[k].req == r && StatusOf(s.m.past.log[k].out) == e;
      assert s'.m.past.log[k] == s.m.past.log[k];
    }
  }

  lemma ShiftsLater(env: Env, m: Shared, t: Thread, rng: Outcome)
    requires Shifts(m, t)
    ensures var (m', t') := Advance(env, m, t, rng);
      m.past.dropped <= m'.past.dropped && m.past.log <= m'.past.log
  {
    if t.pc.T1? {
      assert Advance(env, m, t, rng) == RunTail(env, m, t);
    } else if t.pc.P0? {
      assert Advance(env, m, t, rng) == RunPostpone(env, m, t);
    } else if t.pc.F3? {
      assert Advance(env, m, t, rng) == RunFirst(m, t, rng);
    }
  }

  lemma AdvanceLater(env: Env, m: Shared, t: Thread, rng: Outcome)
    requires !t.pc.Done?
    ensures var (m', t') := Advance(env, m, t, rng);
      m.past.dropped <= m'.past.dropped && m.past.log <= m'.past.log
  {
    if Shifts(m, t) {
      ShiftsLater(env, m, t, rng);
    } else {
      hide Advance;
      AdvanceQuiet(env, m, t, rng);
    }
  }

  lemma StepLater(env: Env, s: State, op: Op, o: Owner)
    requires OwnedBy(s, o) && Enabled(s, op)
    ensures Later(s, Step(env, s, op))
  {
    StepLine(env, s, op, o);
    hide OwnedBy; hide Line; hide Advance;
    if op.Run? {
      AdvanceLater(env, s.m, s.threads[op.i], op.rng);
    }
  }

  /** Where a call stands that has request `r`, and what is known about the request there. */
  ghost predicate Told(env: Env, s: State, t: Thread, r: nat, said: Option<int>) {
    && t.req == r
    && match t.pc
       case F0 | F1 | F2 | G0 | G1 | G2 | P0 | T0 | T1 => said == None
       case F3 => if t.err == 0 then said == None else said == Some(t.err) && t.own == t.err
       case W0 => false
       case _ => (said.Some? ==> t.pc.Done?) && Fate(env, s, r, said, t.own)
  }

  /** The error that the random number generator gives in a step. */
  function SaidNow(t: Thread, rng: Outcome): Option<int> {
    if t.pc.F2? && rng.Fail? then Some(rng.err) else None
  }

  function Or(a: Option<int>, b: Option<int>): Option<int> { if a.Some? then a else b }

  lemma FirstTells(env: Env, s: State, i: nat, rng: Outcome, r: nat, said: Option<int>, s': State)
    requires i < |s.threads| && var pc := s.threads[i].pc; pc.F0? || pc.F1? || pc.F2? || pc.F3?
    requires Told(env, s, s.threads[i], r, said) && s' == Step(env, s, Run(i, rng))
    ensures Told(env, s', s'.threads[i], r, Or(said, SaidNow(s.threads[i], rng)))
  {
    hide Line;
    if s.threads[i].pc.F3? && s.threads[i].err != 0 {
      assert s'.m.past.dropped[|s.m.past.dropped|] == r;
    }
  }

  lemma PostponeTells(env: Env, s: State, i: nat, rng: Outcome, r: nat, said: Option<int>, s': State)
    requires i < |s.threads| && s.threads[i].pc.P0?
    requires Told(env, s, s.threads[i], r, said) && s' == Step(env, s, Run(i, rng))
    ensures Told(env, s', s'.threads[i], r, said)
  {
    hide Reqs; hide Hands;
    if |s.m.queue| >= env.maxQlen && !env.mayBacklog(r) {
      assert s'.m.past.dropped[|s.m.past.dropped|] == r;
    } else {
      assert s'.m.queue[|s.m.queue|] == r;
    }
  }

  lemma TailTells(env: Env, s: State, i: nat, rng: Outcome, r: nat, said: Option<int>, s': State)
    requires i < |s.threads| && s.threads[i].pc.T1?
    requires Told(env, s, s.threads[i], r, said) && s' == Step(env, s, Run(i, rng))
    ensures Told(env, s', s'.threads[i], r, said)
  {
    hide Line;
    var k := |s.m.past.log|;
    assert s'.m.past.log[k].req == r && StatusOf(s'.m.past.log[k].out) == s'.threads[i].own;
  }

  /** Places that change nothing about the request. */
  predicate Passes(pc: Pc) {
    pc.G0? || pc.G1? || pc.G2? || pc.T0? || pc.P1? || pc.P2? || pc.T2?
    || pc.S0? || pc.S1? || pc.S2? || pc.S3? || pc.S4? || pc.S5?
  }

  lemma AdvancePasses(env: Env, m: Shared, t: Thread, rng: Outcome)
    requires Passes(t.pc)
    ensures var (m', t') := Advance(env, m, t, rng);
      && t'.req == t.req && t'.own == t.own && !t'.pc.W0?
      && (t.pc.G0? || t.pc.G1? || t.pc.G2? || t.pc.T0? <==>
            t'.pc.G1? || t'.pc.G2? || t'.pc.P0? || t'.pc.T0? || t'.pc.T1?)
      && !(t'.pc.F0? || t'.pc.F1? || t'.pc.F2? || t'.pc.F3? || t'.pc.G0?)
  {}

  lemma PassTells(env: Env, s: State, i: nat, rng: Outcome, r: nat, said: Option<int>, s': State, o: Owner)
    requires OwnedBy(s, o) && i < |s.threads| && Passes(s.threads[i].pc)
    requires Told(env, s, s.threads[i], r, said) && s' == Step(env, s, Run(i, rng))
    ensures Told(env, s', s'.threads[i], r, said)
  {
    AdvancePasses(env, s.m, s.threads[i], rng);
    StepLater(env, s, Run(i, rng), o);
    hide Advance; hide OwnedBy; hide Fate; hide Later;
    if Fate(env, s, r, said, s.threads[i].own) {
      FateStays(env, s, s', r, said, s.threads[i].own);
    }
  }

  lemma OwnTells(env: Env, s: State, i: nat, rng: Outcome, r: nat, said: Option<int>, o: Owner)
    requires OwnedBy(s, o) && Enabled(s, Run(i, rng)) && Told(env, s, s.threads[i], r, said)
    ensures var s' := Step(env, s, Run(i, rng));
      Told(env, s', s'.threads[i], r, Or(said, SaidNow(s.threads[i], rng)))
  {
    var s' := Step(env, s, Run(i, rng));
    hide Step; hide OwnedBy; hide Fate;
    var pc := s.threads[i].pc;
    if pc.F0? || pc.F1? || pc.F2? || pc.F3? {
      FirstTells(env, s, i, rng, r, said, s');
    } else if pc.P0? {
      PostponeTells(env, s, i, rng, r, said, s');
    } else if pc.T1? {
      TailTells(env, s, i, rng, r, said, s');
    } else {
      PassTells(env, s, i, rng, r, said, s', o);
    }
  }

  /** The error that thread `i` gets from the random number generator in a run. */
  ghost function Said(env: Env, s: State, ops: seq<Op>, i: nat): Option<int>
    requires Runs(env, s, ops)
    decreases |ops|
  {
    if ops == [] then None
    else
      var now := if ops[0].Run? && ops[0].i == i then SaidNow(s.threads[i], ops[0].rng) else None;
      Or(now, Said(env, Step(env, s, ops[0]), ops[1..], i))
  }

  lemma OtherKeeps(env: Env, s: State, op: Op, i: nat)
    requires Enabled(s, op) && i < |s.threads| && !(op.Run? && op.i == i)
    ensures i < |Step(env, s, op).threads| && Step(env, s, op).threads[i] == s.threads[i]
  {
    hide Advance;
  }

  lemma ToldStays(env: Env, s: State, s': State, t: Thread, r: nat, said: Option<int>)
    requires Told(env, s, t, r, said) && Later(s, s')
    ensures Told(env, s', t, r, said)
  {
    hide Fate; hide Later;
    if Fate(env, s, r, said, t.own) {
      FateStays(env, s, s', r, said, t.own);
    }
  }

  lemma StepTells(env: Env, s: State, op: Op, i: nat, r: nat, said: Option<int>, o: Owner)
    requires OwnedBy(s, o) && Enabled(s, op) && i < |s.threads| && Told(env, s, s.threads[i], r, said)
    ensures var now := if op.Run? && op.i == i then SaidNow(s.threads[i], op.rng) else None;
      var s' := Step(env, s, op);
      i < |s'.threads| && Told(env, s', s'.threads[i], r, Or(said, now))
  {
    if op.Run? && op.i == i {
      assert |Step(env, s, op).threads| == |s.threads| by { hide Advance; }
      hide Told; hide Step; hide OwnedBy;
      OwnTells(env, s, i, op.rng, r, said, o);
    } else {
      OtherKeeps(env, s, op, i);
      hide Told; hide Step; hide OwnedBy; hide Later;
      StepLater(env, s, op, o);
      ToldStays(env, s, Step(env, s, op), s.threads[i], r, said);
    }
  }

  lemma {:induction false} RunTells(env: Env, s: State, ops: seq<Op>, i: nat, r: nat, said: Option<int>)
    requires Reachable(env, s) && Runs(env, s, ops) && i < |s.threads| && Told(env, s, s.threads[i], r, said)
    ensures var s' := End(env, s, ops);
      i < |s'.threads| && Told(env, s', s'.threads[i], r, Or(said, Said(env, s, ops, i)))
    decreases |ops|
  {
    hide Reachable; hide Step; hide Enabled; hide Good; hide Told;
    if ops != [] {
      var o := ReachableGood(env, s);
      GoodOwned(env, s, o);
      StepTells(env, s, ops[0], i, r, said, o);
      ReachStep(env, s, ops[0]);
      var now := if ops[0].Run? && ops[0].i == i then SaidNow(s.threads[i], ops[0].rng) else None;
      RunTells(env, Step(env, s, ops[0]), ops[1..], i, r, Or(said, now));
    }
  }

  /** What a call returns when it has ended says what became of its request. */
  lemma CallReturns(env: Env, s: State, first: bool, ops: seq<Op>)
    requires Reachable(env, s) && Enabled(s, Call(first)) && Runs(env, Step(env, s, Call(first)), ops)
    ensures var s1 := Step(env, s, Call(first)); var s' := End(env, s1, ops); var i := |s.threads|;
      i < |s'.threads|
      && (s'.threads[i].pc.Done? ==> Fate(env, s', s.m.past.calls, Said(env, s1, ops, i), s'.threads[i].err))
  {
    var s1, i := Step(env, s, Call(first)), |s.threads|;
    assert Told(env, s1, s1.threads[i], s.m.past.calls, None);
    ReachStep(env, s, Call(first));
    RunTells(env, s1, ops, i, s.m.past.calls, None);
    ReachEnd(env, s1, ops);
    hide Reachable; hide Step; hide Fate;
    if End(env, s1, ops).threads[i].pc.Done? {
      ReturnsOwnStatus(env, End(env, s1, ops), i);
    }
  }

  lemma {:induction false} ReachEnd(env: Env, s: State, ops: seq<Op>)
    requires Reachable(env, s) && Runs(env, s, ops)
    ensures Reachable(env, End(env, s, ops))
    decreases |ops|
  {
    hide Reachable; hide Step; hide Enabled;
    if ops != [] {
      ReachStep(env, s, ops[0]);
      ReachEnd(env, Step(env, s, ops[0]), ops[1..]);
    }
  }

  lemma {:induction false} InHands(threads: seq<Thread>, r: nat)
    requires r in Hands(threads)
    ensures exists i :: 0 <= i < |threads| && Held(threads[i]) == Some(r)
    decreases |threads|
  {
    var n := |threads| - 1;
    if r in Hands(threads[..n]) {
      InHands(threads[..n], r);
      var i :| 0 <= i < n && Held(threads[..n][i]) == Some(r);
      assert Held(threads[i]) == Some(r);
    } else {
      assert Held(threads[n]) == Some(r);
    }
  }

  /** A request in the line was not refused. */
  lemma LineNotDropped(env: Env, s: State, r: nat)
    requires Reachable(env, s) && r in Line(s)
    ensures r !in s.m.past.dropped
  {
    hide Reachable; hide Reqs; hide Held;
    var o := ReachableGood(env, s);
    if r in Hands(s.threads) {
      InHands(s.threads, r);
      var i :| 0 <= i < |s.threads| && Held(s.threads[i]) == Some(r);
      assert AllHeld(s.threads)[i] == Some(r);
      assert r !in Settled(s.m);
    } else {
      assert r in Settled(s.m) && Settled(s.m)[r] == 1;
    }
  }

  lemma {:induction false} ReqsHas(log: seq<Entry>, k: nat)
    requires k < |log|
    ensures log[k].req in Reqs(log)
    decreases |log|
  {
    if k < |log| - 1 {
      ReqsHas(log[..|log| - 1], k);
    }
  }

  lemma EncryptedInLine(s: State, r: nat, e: int)
    requires Encrypted(s.m, r, e)
    ensures r in Line(s)
  {
    var k :| 0 <= k < |s.m.past.log| && s.m.past.log[k].req == r && StatusOf(s.m.past.log[k].out) == e;
    ReqsHas(s.m.past.log, k);
  }

  /**
    A call that is told its request is in progress has not lost it, and one whose request was refused is told EBUSY,
    unless the random number generator failed with the status that the call returns.
   */
  lemma InProgressIsQueued(env: Env, s: State, first: bool, ops: seq<Op>)
    requires Reachable(env, s) && Enabled(s, Call(first)) && Runs(env, Step(env, s, Call(first)), ops)
    requires var s1 := Step(env, s, Call(first)); var i := |s.threads|; var s' := End(env, s1, ops);
      i < |s'.threads| && s'.threads[i].pc.Done? && Said(env, s1, ops, i) != Some(s'.threads[i].err)
    ensures var r := s.m.past.calls; var s' := End(env, Step(env, s, Call(first)), ops);
      var e := s'.threads[|s.threads|].err;
      && (e == EINPROGRESS ==> r in Line(s') && r !in s'.m.past.dropped)
      && (r in s'.m.past.dropped ==> e == EBUSY && !env.mayBacklog(r))
      && (r in s'.m.past.dropped || r in Line(s'))
  {
    var s1, i, r := Step(env, s, Call(first)), |s.threads|, s.m.past.calls;
    var s' := End(env, s1, ops);
    CallReturns(env, s, first, ops);
    ReachStep(env, s, Call(first));
    ReachEnd(env, s1, ops);
    hide Reachable; hide Step; hide Line; hide Encrypted;
    if Encrypted(s'.m, r, s'.threads[i].err) {
      EncryptedInLine(s', r, s'.threads[i].err);
    }
    if r in Line(s') {
      LineNotDropped(env, s', r);
    }
  }

  // Enqueueing

  /** A thread that is through with its request and has `e` to report. */
  predicate Reports(t: Thread, e: int) {
    && t.own == e
    && (t.pc.Done? || (Passes(t.pc) && !t.pc.G0? && !t.pc.G1? && !t.pc.G2? && !t.pc.T0?))
  }

  lemma {:induction false} ReportStays(env: Env, s: State, ops: seq<Op>, i: nat, e: int)
    requires Runs(env, s, ops) && i < |s.threads| && Reports(s.threads[i], e)
    ensures i < |End(env, s, ops).threads| && Reports(End(env, s, ops).threads[i], e)
    decreases |ops|
  {
    if ops != [] {
      if ops[0].Run? && ops[0].i == i {
        AdvancePasses(env, s.m, s.threads[i], ops[0].rng);
      }
      hide Advance;
      ReportStays(env, Step(env, s, ops[0]), ops[1..], i, e);
    }
  }

  lemma {:induction false} RunLater(env: Env, s: State, ops: seq<Op>)
    requires Reachable(env, s) && Runs(env, s, ops)
    ensures Later(s, End(env, s, ops))
    decreases |ops|
  {
    hide Reachable; hide Step; hide Enabled; hide Good; hide Line;
    if ops != [] {
      var o := ReachableGood(env, s);
      GoodOwned(env, s, o);
      StepLater(env, s, ops[0], o);
      ReachStep(env, s, ops[0]);
      RunLater(env, Step(env, s, ops[0]), ops[1..]);
    }
  }

  /** The enqueueing step itself. */
  lemma EnqueueReports(env: Env, s: State, i: nat, rng: Outcome, s1: State)
    requires Enabled(s, Run(i, rng)) && s.threads[i].pc.P0? && s1 == Step(env, s, Run(i, rng))
    ensures var full := |s.m.queue| >= env.maxQlen; var r := s.threads[i].req;
      && Reports(s1.threads[i], if full then EBUSY else EINPROGRESS)
      && if full && !env.mayBacklog(r) then r in s1.m.past.dropped else r in Line(s1)
  {
    hide Reqs; hide Hands;
    var r := s.threads[i].req;
    if |s.m.queue| >= env.maxQlen && !env.mayBacklog(r) {
      assert s1.m.past.dropped[|s.m.past.dropped|] == r;
    } else {
      assert s1.m.queue[|s.m.queue|] == r;
    }
  }

  /**
    A call that enqueues its request returns EBUSY exactly if the queue was full, and the request is lost exactly if,
    besides, it may not be backlogged.
   */
  lemma PostponedReturns(env: Env, s: State, i: nat, rng: Outcome, ops: seq<Op>)
    requires Reachable(env, s) && Enabled(s, Run(i, rng)) && s.threads[i].pc.P0?
    requires Runs(env, Step(env, s, Run(i, rng)), ops)
    ensures var s' := End(env, Step(env, s, Run(i, rng)), ops);
      var full := |s.m.queue| >= env.maxQlen; var r := s.threads[i].req;
      && i < |s'.threads|
      && (s'.threads[i].pc.Done? ==> s'.threads[i].err == if full then EBUSY else EINPROGRESS)
      && (r in s'.m.past.dropped <==> full && !env.mayBacklog(r))
      && (r !in s'.m.past.dropped ==> r in Line(s'))
  {
    var s1, r, full := Step(env, s, Run(i, rng)), s.threads[i].req, |s.m.queue| >= env.maxQlen;
    var s' := End(env, s1, ops);
    EnqueueReports(env, s, i, rng, s1);
    hide Line; hide Reachable;
    ReachStep(env, s, Run(i, rng));
    hide Step;
    ReportStays(env, s1, ops, i, if full then EBUSY else EINPROGRESS);
    RunLater(env, s1, ops);
    ReachEnd(env, s1, ops);
    if s'.threads[i].pc.Done? {
      ReturnsOwnStatus(env, s', i);
    }
    if !(full && !env.mayBacklog(r)) {
      LineNotDropped(env, s', r);
    }
  }
}
