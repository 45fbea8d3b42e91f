/**
  The asynchronous IV generator: callers and work items share one IV under an ownership
  bit, an unlocked queue length and a work item. Every atomic access is a step, and the
  steps of all threads interleave freely.
 */
module ChainIv {
  import opened Options

  const EBUSY: int := -16
  const EINPROGRESS: int := -115

  /**
    Where a thread stands. F: async_chainiv_givencrypt_first, G: async_chainiv_givencrypt,
    P: async_chainiv_postpone_request, T: async_chainiv_givencrypt_tail,
    S: async_chainiv_schedule_work, W: async_chainiv_do_postponed.
   */
  datatype Pc =
    | F0 | F1 | F2 | F3
    | G0 | G1 | G2
    | P0 | P1 | P2
    | T0 | T1 | T2
    | S0 | S1 | S2 | S3 | S4 | S5
    | W0 | Done

  /** A call or a work item. `own` remembers the status that is its own, `err` is what it returns. */
  datatype Thread = Thread(pc: Pc, req: nat, err: int, giv: nat, info: nat, own: int)

  type Errno = e: int | e != 0 witness -1

  /** The result of the child cipher or of the random number generator: an IV, or an error. */
  datatype Outcome = Ok(iv: nat) | Fail(err: Errno)

  /** One encryption: the request, the IV it was given and what came of it. */
  datatype Entry = Entry(req: nat, giv: nat, out: Outcome)

  /**
    What the past was like; no step reads it. `stranded`: a caller whose RNG failed released the bit
    with a filled queue, and nobody has taken it since. `stocked`: the queue was filled when the work
    item was queued, or has been since.
   */
  datatype Past = Past(calls: nat, log: seq<Entry>, dropped: seq<nat>, seed: Option<nat>, stranded: bool, stocked: bool)

  /** The context that all threads share. */
  datatype Shared = Shared(inuse: bool, queue: seq<nat>, pending: bool, err: int, iv: nat, switched: bool, past: Past)

  datatype State = State(m: Shared, threads: seq<Thread>)

  /** The child cipher, the requests that may be backlogged and the queue's size. */
  datatype Env = Env(cipher: (nat, nat) -> Outcome, mayBacklog: nat -> bool, maxQlen: nat)

  /** The bit is taken, and with it the care for the queue. */
  function Claim(m: Shared): Shared { m.(inuse := true, past := m.past.(stranded := false)) }

  // Steps of one thread

  /** The first call seeds the IV. */
  function RunFirst(m: Shared, t: Thread, rng: Outcome): (Shared, Thread) {
    match t.pc
    case F0 => if m.inuse then (m, t.(pc := G0)) else (Claim(m), t.(pc := F1))
    case F1 => if m.switched then (m, t.(pc := F3, err := 0)) else (m.(switched := true), t.(pc := F2))
    case F2 =>
      (match rng
       case Ok(iv) => (m.(iv := iv, past := m.past.(seed := Some(iv))), t.(pc := F3, err := 0))
       case Fail(e) => (m.(past := m.past.(seed := Some(m.iv))), t.(pc := F3, err := e, own := e)))
    case _ =>
      if t.err != 0 then
        (m.(inuse := false, past := m.past.(stranded := m.queue != [], dropped := m.past.dropped + [t.req])),
         t.(pc := Done))
      else (m.(inuse := false), t.(pc := G0))
  }

  function RunGive(m: Shared, t: Thread): (Shared, Thread) {
    match t.pc
    case G0 => if m.inuse then (m, t.(pc := P0)) else (Claim(m), t.(pc := G1))
    case G1 => (m, t.(pc := if m.queue != [] then G2 else T0))
    case _ => (m.(inuse := false), t.(pc := P0))
  }

  /** crypto_enqueue_request under the lock, then the attempt to become the owner. */
  function RunPostpone(env: Env, m: Shared, t: Thread): (Shared, Thread) {
    match t.pc
    case P0 =>
      if |m.queue| >= env.maxQlen && !env.mayBacklog(t.req) then
        (m.(past := m.past.(dropped := m.past.dropped + [t.req])), t.(pc := P1, err := EBUSY, own := EBUSY))
      else
        var err := if |m.queue| >= env.maxQlen then EBUSY else EINPROGRESS;
        (m.(queue := m.queue + [t.req], past := m.past.(stocked := true)), t.(pc := P1, err := err, own := err))
    case P1 => if m.inuse then (m, t.(pc := Done)) else (Claim(m), t.(pc := P2))
    case _ => (m.(err := t.err), t.(pc := S0))
  }

  /** Hands out the IV, encrypts, and takes the chained IV back. */
  function RunTail(env: Env, m: Shared, t: Thread): (Shared, Thread) {
    match t.pc
    case T0 => (m, t.(pc := T1, giv := m.iv, info := m.iv))
    case T1 =>
      var out := env.cipher(t.req, t.info);
      var past := m.past.(log := m.past.log + [Entry(t.req, t.giv, out)]);
      (match out
       case Ok(iv) => (m.(err := 0, past := past), t.(pc := T2, info := iv, own := 0))
       case Fail(e) => (m.(err := e, past := past), t.(pc := S0, own := e)))
    case _ => (m.(iv := t.info), t.(pc := S0))
  }

  function RunSchedule(m: Shared, t: Thread): (Shared, Thread) {
    match t.pc
    case S0 => (m, t.(pc := S1, err := m.err))
    case S1 => (m, t.(pc := if m.queue == [] then S2 else S5))
    case S2 => (m.(inuse := false), t.(pc := S3))
    case S3 => (m, t.(pc := if m.queue == [] then Done else S4))
    case S4 => if m.inuse then (m, t.(pc := Done)) else (Claim(m), t.(pc := S5))
    case _ => (m.(pending := true, past := m.past.(stocked := m.queue != [])), t.(pc := Done))
  }

  /** The worker takes one request; without one it only tries to give the IV up. */
  function RunWork(m: Shared, t: Thread): (Shared, Thread) {
    if m.queue == [] then (m, t.(pc := S0, own := m.err))
    else (m.(queue := m.queue[1..]), t.(pc := T0, req := m.queue[0]))
  }

  function Advance(env: Env, m: Shared, t: Thread, rng: Outcome): (Shared, Thread) {
    var pc := t.pc;
    if pc.F0? || pc.F1? || pc.F2? || pc.F3? then RunFirst(m, t, rng)
    else if pc.G0? || pc.G1? || pc.G2? then RunGive(m, t)
    else if pc.P0? || pc.P1? || pc.P2? then RunPostpone(env, m, t)
    else if pc.T0? || pc.T1? || pc.T2? then RunTail(env, m, t)
    else if pc.W0? then RunWork(m, t)
    else RunSchedule(m, t)
  }

  // Steps of the system

  datatype Op = Call(first: bool) | StartWork | Run(i: nat, rng: Outcome)

  /** A caller sees the second entry point only once it was installed. */
  predicate Enabled(s: State, op: Op) {
    match op
    case Call(first) => first || s.m.switched
    case StartWork => s.m.pending
    case Run(i, _) => i < |s.threads| && s.threads[i].pc != Done
  }

  /** A call through the entry point that the caller read, with a request of its own. */
  function NewCall(s: State, first: bool): Thread {
    Thread(if first then F0 else G0, s.m.past.calls, 0, 0, 0, 0)
  }

  const NEW_WORK: Thread := Thread(W0, 0, 0, 0, 0, 0)

  /** The work queue starts the pending item, which may be queued again from then on. */
  function Step(env: Env, s: State, op: Op): State
    requires Enabled(s, op)
  {
    match op
    case Call(first) => State(s.m.(past := s.m.past.(calls := s.m.past.calls + 1)), s.threads + [NewCall(s, first)])
    case StartWork => State(s.m.(pending := false), s.threads + [NEW_WORK])
    case Run(i, rng) =>
      var (m, t) := Advance(env, s.m, s.threads[i], rng);
      State(m, s.threads[i := t])
  }

  predicate Initial(s: State) {
    s == State(Shared(false, [], false, 0, s.m.iv, false, Past(0, [], [], None, false, false)), [])
  }

  predicate Runs(env: Env, s: State, ops: seq<Op>)
    decreases |ops|
  {
    ops != [] ==> Enabled(s, ops[0]) && Runs(env, Step(env, s, ops[0]), ops[1..])
  }

  function End(env: Env, s: State, ops: seq<Op>): State
    requires Runs(env, s, ops)
    decreases |ops|
  {
    if ops == [] then s else End(env, Step(env, s, ops[0]), ops[1..])
  }
}
