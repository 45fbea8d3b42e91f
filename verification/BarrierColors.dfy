/**
  For every set of templates that the submitters use: exactly when barriers are taken in turn, in every mode,
  and when the order by draining holds.
 */
module BarrierColors {
  import opened Barrier
  import opened BarrierBooks
  import opened BarrierTurns
  import opened BarrierOrder
  import opened BarrierSafety
  import opened BarrierProgress
  import opened BarrierMixed

  // Sets of templates that keep the order

  /** Every request added is like one of the templates. */
  ghost predicate FromTemplates(q: Queue, T: set<Template>) {
    forall x :: x in q.added ==> exists t :: t in T && Like(x, t)
  }

  predicate Like(x: Rq, t: Template) {
    x.kind == t.kind && x.barrier == t.barrier && x.sectors == t.sectors && (t.kind == Fs || t.kind == NonFs)
  }

  lemma {:induction false} RunsFrom(T: set<Template>, q: Queue, ops: seq<Op>, q': Queue)
    requires FromTemplates(q, T) && Runs(q, ops, q') && Uses(ops, T)
    ensures FromTemplates(q', T) && q'.nextOrdered == q.nextOrdered
    decreases |ops|
  {
    if ops != [] {
      StepFrom(T, q, ops[0]);
      assert Uses(ops[1..], T);
      RunsFrom(T, Step(q, ops[0]), ops[1..], q');
    }
  }

  lemma StepFrom(T: set<Template>, q: Queue, op: Op)
    requires FromTemplates(q, T) && Enabled(q, op) && Allowed(op, T)
    ensures FromTemplates(Step(q, op), T) && Step(q, op).nextOrdered == q.nextOrdered
  {
    hide Next; hide Complete;
    match op
    case OpAdd(t, where) => assert Like(NewRq(q, t), t);
    case OpFetch => ScanUnread(q);
    case OpPeek => ScanUnread(q);
    case OpComplete(i, error) => CompleteUnread(q, i, error); CompleteMode(q, i, error);
    case _ =>
  }

  lemma CompleteMode(q: Queue, i: nat, error: int)
    requires i < |q.flying|
    ensures Complete(q, i, error).nextOrdered == q.nextOrdered
  {
    hide CurSeq; hide DrainEnds; hide RemoveAt;
  }

  /** What holds in every state that can be reached. */
  ghost predicate Known(mode: Ordered, T: set<Template>, q: Queue) {
    Books(q) && Conserved(q) && FromTemplates(q, T) && q.nextOrdered == mode
  }

  lemma Reached(mode: Ordered, T: set<Template>, q: Queue)
    requires ValidMode(mode) && Reach(mode, T, q)
    ensures Known(mode, T, q)
  {
    hide Books; hide Conserved; hide FromTemplates; hide Runs;
    var ops :| Runs(Initial(mode), ops, q) && Uses(ops, T);
    BooksInitial(mode);
    BooksRuns(Initial(mode), ops, q);
    NothingLost(mode, ops, q);
    assert FromTemplates(Initial(mode), T) by { NothingAdded(mode, T); }
    RunsFrom(T, Initial(mode), ops, q);
  }

  lemma NothingAdded(mode: Ordered, T: set<Template>)
    ensures FromTemplates(Initial(mode), T)
  {}

  /** A request of the file system or another one, wherever it waits, is like a template. */
  lemma PendingLike(q: Queue, T: set<Template>, x: Rq) returns (t: Template)
    requires Conserved(q) && FromTemplates(q, T) && Real(x) && Pending(q, x)
    ensures t in T && Like(x, t) && x in q.added
  {
    hide Pending;
    t :| t in T && Like(x, t);
  }

  lemma KnownDoOrdered(mode: Ordered, T: set<Template>, q: Queue)
    requires Known(mode, T, q) && q.list != []
    ensures Known(mode, T, DoOrdered(q).0)
  {
    hide Books; hide Conserved; hide Moves;
    BooksDoOrdered(q);
    IdleHead(q);
    MovesDoOrdered(q);
    MovesConserve(q, DoOrdered(q).0);
    LogUnread(q);
  }

  /** The head of the list, if it is no proxy, is like a template. */
  lemma HeadLike(mode: Ordered, T: set<Template>, q: Queue) returns (t: Template)
    requires Known(mode, T, q) && q.list != [] && Real(q.list[0].rq)
    ensures t in T && Like(q.list[0].rq, t) && q.list[0].rq in q.added
  {
    hide Books; hide Conserved; hide FromTemplates;
    assert Rqs(q.list)[0] == q.list[0].rq;
    t := PendingLike(q, T, q.list[0].rq);
  }

  // Without another hard barrier

  lemma {:induction false} RunsPlain(T: set<Template>, q: Queue, ops: seq<Op>, q': Queue)
    requires Runs(q, ops, q') && Uses(ops, T) && forall t :: t in T ==> !OtherBarrier(t)
    ensures forall i :: 0 <= i < |ops| ==> DrainOp(ops[i])
    decreases |ops|
  {
    hide Step;
    if ops != [] {
      assert Uses(ops[1..], T) && Allowed(ops[0], T);
      RunsPlain(T, Step(q, ops[0]), ops[1..], q');
      assert forall i :: 0 < i < |ops| ==> ops[i] == ops[1..][i - 1];
    }
  }

  lemma PlainKeepsOrder(mode: Ordered, T: set<Template>, q: Queue)
    requires DrainMode(mode) && Reach(mode, T, q) && forall t :: t in T ==> !OtherBarrier(t)
    ensures RequestInOrder(q) && ProxyInOrder(q) && Serves(q)
  {
    hide RequestInOrder; hide ProxyInOrder; hide Serves; hide Runs;
    var ops :| Runs(Initial(mode), ops, q) && Uses(ops, T);
    RunsPlain(T, Initial(mode), ops, q);
    RequestAfterEarlierBarriers(mode, ops, q);
    ProxyAfterEarlierRequests(mode, ops, q);
    NeverStuck(mode, ops, q);
  }

  lemma PlainKeepsTurns(mode: Ordered, T: set<Template>, q: Queue)
    requires ValidMode(mode) && Reach(mode, T, q) && forall t :: t in T ==> !OtherBarrier(t)
    ensures BarrierInTurn(q)
  {
    hide BarrierInTurn; hide Runs;
    var ops :| Runs(Initial(mode), ops, q) && Uses(ops, T);
    RunsPlain(T, Initial(mode), ops, q);
    BarriersEndOnce(mode, ops, q);
  }

  // With barriers that end at once or are ordered by tags

  /** There is no barrier, or every request of the file system is an empty one for which nothing is to be done. */
  predicate Immediate(mode: Ordered, T: set<Template>) {
    || (forall t :: t in T ==> !FsBarrier(t))
    || (!mode.preflush && forall t :: t in T && t.kind == Fs ==> t.barrier && t.sectors == 0)
  }

  /** No barrier waits for the requests in flight: then the colour is of no account for the turns. */
  predicate NeverDrains(mode: Ordered, T: set<Template>) {
    || mode == ORDERED_NONE
    || (DrainMode(mode) && Immediate(mode, T))
    || (TagMode(mode) && (mode.preflush || (forall t :: t in T && FsBarrier(t) ==> t.sectors != 0)
                          || (forall t :: t in T && t.kind == Fs ==> t.barrier)))
  }

  /** A sequence in progress is ordered by tags, and the barriers are in turn. */
  ghost predicate Steady(mode: Ordered, q: Queue) {
    BarriersInOrder(q) && (Active(q) ==> q.ordered.byTag && mode.byTag)
  }

  lemma {:induction false} KindsNone(rs: seq<Rq>, k: Kind)
    requires forall i :: 0 <= i < |rs| ==> rs[i].kind != k
    ensures Kinds(rs)[k] == 0
  {
    if rs != [] { KindsNone(rs[1..], k); }
  }

  lemma NoneFlying(mode: Ordered, T: set<Template>, q: Queue)
    requires Known(mode, T, q) && BarriersInOrder(q) && !Active(q) && forall t :: t in T && t.kind == Fs ==> t.barrier
    ensures q.inFlight == 0
  {
    hide Conserved; hide FromTemplates; hide Kinds;
    forall i | 0 <= i < |q.flying| ensures q.flying[i].kind != Fs && q.flying[i].kind != Bar {
      LeftBooks(q, i);
      if q.flying[i].kind == Fs {
        assert Pending(q, q.flying[i]);
        var t := PendingLike(q, T, q.flying[i]);
      }
    }
    KindsNone(q.flying, Fs);
    KindsNone(q.flying, Bar);
  }

  lemma KnownParts(mode: Ordered, T: set<Template>, q: Queue)
    requires Known(mode, T, q)
    ensures Books(q) && Conserved(q) && FromTemplates(q, T) && q.nextOrdered == mode
  {}

  lemma SteadyDoOrdered(mode: Ordered, T: set<Template>, q: Queue)
    requires ValidMode(mode) && NeverDrains(mode, T) && Known(mode, T, q) && Steady(mode, q) && q.list != []
    ensures var (q', v) := DoOrdered(q); Steady(mode, q') && (v == Give ==> !IsBarrier(q'.list[0].rq))
  {
    hide Known; hide BarriersInOrder; hide Books;
    KnownParts(mode, T, q);
    if !Active(q) {
      InOrderIdle(q);
      IdleHead(q);
      if IsBarrier(q.list[0].rq) {
        var t := HeadLike(mode, T, q);
        if forall t :: t in T && t.kind == Fs ==> t.barrier { NoneFlying(mode, T, q); }
        StartsByTag(q);
      }
    }
  }

  /** The sequence of a barrier is ordered by tags, unless it is drained or ends at once. */
  lemma StartsByTag(q: Queue)
    requires !Active(q) && ValidMode(q.nextOrdered) && q.list != [] && IsBarrier(q.list[0].rq)
    requires var o := q.nextOrdered; var n := q.list[0].rq.sectors;
      o == ORDERED_NONE || (TagMode(o) && (o.preflush || n != 0)) || (!o.preflush && n == 0 && q.inFlight == 0)
    ensures var q' := DoOrdered(q).0; Active(q') ==> q'.ordered.byTag && q.nextOrdered.byTag
  {}

  lemma {:induction false} SteadyNext(mode: Ordered, T: set<Template>, q: Queue)
    requires ValidMode(mode) && NeverDrains(mode, T) && Known(mode, T, q) && Steady(mode, q)
    ensures var (q', s) := Next(q);
      Known(mode, T, q') && Steady(mode, q') && (s == Ready ==> !IsBarrier(q'.list[0].rq))
    decreases |q.list|
  {
    hide Known; hide Steady; hide DoOrdered; hide IsBarrier; hide NeverDrains;
    if q.list != [] {
      KnownDoOrdered(mode, T, q);
      SteadyDoOrdered(mode, T, q);
      var (q', v) := DoOrdered(q);
      DoOrderedShrinks(q);
      if v == Gone { SteadyNext(mode, T, q'); }
    }
  }

  lemma SteadyStep(mode: Ordered, T: set<Template>, q: Queue, op: Op)
    requires ValidMode(mode) && NeverDrains(mode, T) && Known(mode, T, q) && Steady(mode, q)
    requires Enabled(q, op) && !op.OpSetOrdered?
    ensures Steady(mode, Step(q, op))
  {
    hide NeverDrains; hide BarriersInOrder; hide Next; hide Known; hide IsBarrier; hide Books; hide Complete;
    KnownParts(mode, T, q);
    match op
    case OpAdd(t, where) => InOrderAdd(q, t, where);
    case OpDispatch(i, sorted, boundary) => ElevatorPlain(q, i); InOrderDispatch(q, i, sorted, boundary);
    case OpPeek => SteadyNext(mode, T, q); if Next(q).1 == Ready { InOrderMark(Next(q).0); }
    case OpFetch => SteadyNext(mode, T, q); if Next(q).1 == Ready { InOrderStart(Next(q).0); }
    case OpComplete(i, error) => InOrderComplete(q, i, error); StaysIdle(q, i, error);
    case OpBarProgress(error) => InOrderSame(q, Step(q, op));
    case OpRequeue(i) => InOrderRequeue(q, i);
  }

  lemma ElevatorPlain(q: Queue, i: nat)
    requires Books(q) && i < |q.elevator|
    ensures !q.elevator[i].barrier
  {}

  lemma StaysIdle(q: Queue, i: nat, error: int)
    requires Books(q) && i < |q.flying|
    ensures var q' := Complete(q, i, error); q'.ordered == q.ordered && (Active(q') ==> Active(q))
  {
    hide Books; hide RemoveAt; hide CurSeq; hide OccurAs; hide OneSequence; hide CountKept; hide ErrorKept;
    LeftBooks(q, i);
  }

  lemma {:induction false} SteadyRuns(mode: Ordered, T: set<Template>, q: Queue, ops: seq<Op>, q': Queue)
    requires ValidMode(mode) && NeverDrains(mode, T) && Reach(mode, T, q) && Steady(mode, q)
    requires Runs(q, ops, q') && Uses(ops, T)
    ensures Steady(mode, q')
    decreases |ops|
  {
    hide Known; hide Steady; hide Step; hide Enabled; hide Reach; hide NeverDrains;
    if ops != [] {
      assert Allowed(ops[0], T) && Uses(ops[1..], T);
      Reached(mode, T, q);
      SteadyStep(mode, T, q, ops[0]);
      ReachStep(mode, T, q, ops[0]);
      SteadyRuns(mode, T, Step(q, ops[0]), ops[1..], q');
    }
  }

  lemma SteadyReach(mode: Ordered, T: set<Template>, q: Queue)
    requires ValidMode(mode) && Reach(mode, T, q) && NeverDrains(mode, T)
    ensures Steady(mode, q) && BarrierInTurn(q)
  {
    hide Known; hide Steady; hide Runs; hide NeverDrains;
    var ops :| Runs(Initial(mode), ops, q) && Uses(ops, T);
    ReachInitial(mode, T);
    SteadyInitial(mode);
    SteadyRuns(mode, T, Initial(mode), ops, q);
    SteadyInTurn(mode, q);
  }

  lemma SteadyInitial(mode: Ordered)
    ensures Steady(mode, Initial(mode))
  {}

  lemma SteadyInTurn(mode: Ordered, q: Queue)
    requires Steady(mode, q)
    ensures BarrierInTurn(q)
  {
    hide Barriers;
    var before := Firsts(q.ended);
    assert before <= Barriers(q.added);
    assert Active(q) ==> Barriers(q.added)[|before|] == (before + [q.orig])[|before|];
  }

  lemma ImmediateKeepsOrder(mode: Ordered, T: set<Template>, q: Queue)
    requires DrainMode(mode) && Reach(mode, T, q) && Immediate(mode, T)
    ensures RequestInOrder(q)
  {
    hide Known; hide Steady; hide Next; hide Reach; hide BarrierInTurn;
    SteadyReach(mode, T, q);
    Reached(mode, T, q);
    SteadyNext(mode, T, q);
    var (p, s) := Next(q);
    if s == Ready && p.list[0].rq.kind == Fs {
      NextReady(q);
      var t := HeadLike(mode, T, p);
      forall b | b in p.added ensures !IsBarrier(b) {
        KnownParts(mode, T, p);
        var u :| u in T && Like(b, u);
      }
    }
  }

  lemma {:induction false} SteadyServes(mode: Ordered, T: set<Template>, q: Queue)
    requires DrainMode(mode) && Immediate(mode, T) && Known(mode, T, q) && Steady(mode, q)
    ensures var (p, s) := Next(q); s == Ready || (s == Empty && p.list == [] && !Active(p))
    decreases |q.list|
  {
    hide Known; hide BarriersInOrder; hide DoOrdered; hide IsBarrier; hide Immediate;
    if q.list != [] {
      KnownDoOrdered(mode, T, q);
      assert NeverDrains(mode, T);
      SteadyDoOrdered(mode, T, q);
      DoOrderedShrinks(q);
      WaitsOnlyActive(q);
      if DoOrdered(q).1 == Gone { SteadyServes(mode, T, DoOrdered(q).0); }
    }
  }

  lemma WaitsOnlyActive(q: Queue)
    requires q.list != []
    ensures DoOrdered(q).1 == Wait ==> Active(DoOrdered(q).0)
  {}

  lemma ImmediateServes(mode: Ordered, T: set<Template>, q: Queue)
    requires DrainMode(mode) && Reach(mode, T, q) && Immediate(mode, T)
    ensures Serves(q)
  {
    hide Known; hide Steady; hide Next; hide Reach; hide BarrierInTurn; hide Immediate;
    assert NeverDrains(mode, T);
    SteadyReach(mode, T, q);
    Reached(mode, T, q);
    SteadyServes(mode, T, q);
  }

  // With barriers that have no proxies

  predicate NoProxies(mode: Ordered, T: set<Template>) {
    forall t :: t in T && FsBarrier(t) ==> t.sectors == 0 && !mode.preflush
  }

  /** A sequence in progress has only requests to wait for. */
  predicate Waits(q: Queue) { Active(q) ==> q.ordseq.preflush && q.ordseq.bar && q.ordseq.postflush }

  lemma WaitsDoOrdered(mode: Ordered, T: set<Template>, q: Queue)
    requires DrainMode(mode) && NoProxies(mode, T) && Known(mode, T, q) && Waits(q) && q.list != []
    ensures Waits(DoOrdered(q).0)
  {
    hide Known;
    KnownParts(mode, T, q);
    if !Active(q) {
      hide Books;
      IdleHead(q);
      if IsBarrier(q.list[0].rq) { var t := HeadLike(mode, T, q); }
    }
  }

  lemma {:induction false} WaitsNext(mode: Ordered, T: set<Template>, q: Queue)
    requires DrainMode(mode) && NoProxies(mode, T) && Known(mode, T, q) && Waits(q)
    ensures Known(mode, T, Next(q).0) && Waits(Next(q).0)
    decreases |q.list|
  {
    hide Known; hide Waits; hide DoOrdered; hide NoProxies;
    if q.list != [] {
      KnownDoOrdered(mode, T, q);
      WaitsDoOrdered(mode, T, q);
      DoOrderedShrinks(q);
      if DoOrdered(q).1 == Gone { WaitsNext(mode, T, DoOrdered(q).0); }
    }
  }

  lemma WaitsStep(mode: Ordered, T: set<Template>, q: Queue, op: Op)
    requires DrainMode(mode) && NoProxies(mode, T) && Known(mode, T, q) && Waits(q) && Enabled(q, op)
    ensures Waits(Step(q, op))
  {
    hide NoProxies; hide Next; hide Known; hide Books; hide Complete;
    match op
    case OpPeek => WaitsNext(mode, T, q);
    case OpFetch => WaitsNext(mode, T, q);
    case OpComplete(i, error) => KnownParts(mode, T, q); WaitsComplete(q, i, error);
    case _ =>
  }

  lemma WaitsComplete(q: Queue, i: nat, error: int)
    requires Books(q) && Waits(q) && i < |q.flying|
    ensures Waits(Complete(q, i, error))
  {
    hide Books; hide RemoveAt; hide Completed; hide CompleteSeq; hide OccurAs; hide OneSequence;
    var r := q.flying[i];
    var p := q.(flying := RemoveAt(q.flying, i));
    if r.kind == Fs || r.kind == NonFs {
      WaitsCompleted(p.(completed := p.completed + {r}), r);
    } else {
      ProxyCompletes(q, i);
      WaitsCompleted(p, r);
      WaitsCompleteSeq(Completed(p, r), PhaseBit(r.kind), error);
    }
  }

  lemma WaitsCompleteSeq(q: Queue, bits: Phases, error: int)
    requires Waits(q) && Active(q)
    ensures Waits(CompleteSeq(q, bits, error))
  {}

  lemma WaitsCompleted(q: Queue, r: Rq)
    requires Waits(q)
    ensures Waits(Completed(q, r))
  {
    hide ReqSeq;
  }

  lemma {:induction false} WaitsRuns(mode: Ordered, T: set<Template>, q: Queue, ops: seq<Op>, q': Queue)
    requires DrainMode(mode) && NoProxies(mode, T) && Reach(mode, T, q) && Waits(q) && Runs(q, ops, q') && Uses(ops, T)
    ensures Waits(q')
    decreases |ops|
  {
    hide Known; hide Waits; hide Step; hide Enabled; hide Reach; hide NoProxies;
    if ops != [] {
      assert Allowed(ops[0], T) && Uses(ops[1..], T);
      Reached(mode, T, q);
      WaitsStep(mode, T, q, ops[0]);
      ReachStep(mode, T, q, ops[0]);
      WaitsRuns(mode, T, Step(q, ops[0]), ops[1..], q');
    }
  }

  lemma NoProxiesKeepOrder(mode: Ordered, T: set<Template>, q: Queue)
    requires DrainMode(mode) && Reach(mode, T, q) && NoProxies(mode, T)
    ensures ProxyInOrder(q)
  {
    hide Known; hide Runs; hide Next; hide Waits;
    var ops :| Runs(Initial(mode), ops, q) && Uses(ops, T);
    ReachInitial(mode, T);
    assert Waits(Initial(mode)) by { WaitsInitial(mode); }
    WaitsRuns(mode, T, Initial(mode), ops, q);
    Reached(mode, T, q);
    WaitsNext(mode, T, q);
    if Next(q).1 == Ready {
      NextReady(q);
      KnownParts(mode, T, Next(q).0);
      NoProxyHead(Next(q).0);
    }
  }

  lemma WaitsInitial(mode: Ordered)
    ensures Waits(Initial(mode))
  {}

  lemma NoProxyHead(q: Queue)
    requires Books(q) && Waits(q) && q.list != []
    ensures !IsProxy(q.list[0].rq)
  {
    hide Occurrences; hide CountKept; hide ErrorKept; hide OneSequence;
    KindPresent(q);
  }

  // The exact conditions

  predicate Mixes(T: set<Template>) { exists p :: p in T && OtherBarrier(p) }

  /**
    For every mode and every set of templates that the submitters use: barriers are in turn in every run exactly
    if no other hard barrier is used, or no barrier waits for the requests in flight.
   */
  lemma TurnsExactly(mode: Ordered, T: set<Template>)
    requires ValidMode(mode)
    ensures (forall q :: Reach(mode, T, q) ==> BarrierInTurn(q)) <==> !Mixes(T) || NeverDrains(mode, T)
  {
    hide Reach; hide BarrierInTurn; hide RequestInOrder;
    if Mixes(T) && !NeverDrains(mode, T) {
      if DrainMode(mode) {
        Disordered(mode, T);
      } else {
        var p :| p in T && OtherBarrier(p);
        var b :| b in T && FsBarrier(b) && b.sectors == 0;
        var x :| x in T && x.kind == Fs && !x.barrier;
        var q := PassesDraining(mode, T, b, p, b, x);
        OvertakesBreaks(q, q.list[0].rq);
        TakeNext(mode, T, q);
      }
    } else {
      forall q | Reach(mode, T, q) ensures BarrierInTurn(q) {
        if NeverDrains(mode, T) { SteadyReach(mode, T, q); } else { PlainKeepsTurns(mode, T, q); }
      }
    }
  }

  /**
    For every drain mode: a request of the file system never passes a barrier added before it, in every run, exactly
    if no other hard barrier is used, or all barriers end at once.
   */
  lemma OrderExactly(mode: Ordered, T: set<Template>)
    requires DrainMode(mode)
    ensures (forall q :: Reach(mode, T, q) ==> RequestInOrder(q)) <==> !Mixes(T) || Immediate(mode, T)
  {
    hide Reach; hide RequestInOrder; hide BarrierInTurn;
    if Mixes(T) && !Immediate(mode, T) {
      Disordered(mode, T);
    } else {
      forall q | Reach(mode, T, q) ensures RequestInOrder(q) {
        if Immediate(mode, T) { ImmediateKeepsOrder(mode, T, q); } else { PlainKeepsOrder(mode, T, q); }
      }
    }
  }

  lemma Disordered(mode: Ordered, T: set<Template>)
    requires DrainMode(mode) && Mixes(T) && !Immediate(mode, T)
    ensures exists q :: Reach(mode, T, q) && !RequestInOrder(q)
    ensures exists q :: Reach(mode, T, q) && !BarrierInTurn(q)
  {
    hide Reach; hide RequestInOrder; hide BarrierInTurn; hide Fetch;
    var p :| p in T && OtherBarrier(p);
    var b :| b in T && FsBarrier(b);
    var q;
    if mode.preflush || b.sectors != 0 {
      var l;
      l, q := PassesProxies(mode, T, b, p, b);
    } else {
      var t :| t in T && t.kind == Fs && !(t.barrier && t.sectors == 0);
      if t.barrier {
        var l;
        l, q := PassesProxies(mode, T, t, p, t);
      } else {
        q := PassesDraining(mode, T, b, p, b, t);
      }
    }
    OvertakesBreaks(q, q.list[0].rq);
    TakeNext(mode, T, q);
  }

  /** And a proxy never passes a request added before its barrier exactly if none is used, or no barrier has proxies. */
  lemma ProxyOrderExactly(mode: Ordered, T: set<Template>)
    requires DrainMode(mode)
    ensures (forall q :: Reach(mode, T, q) ==> ProxyInOrder(q)) <==> !Mixes(T) || NoProxies(mode, T)
  {
    hide Reach; hide ProxyInOrder; hide RequestInOrder;
    if Mixes(T) && !NoProxies(mode, T) {
      var p :| p in T && OtherBarrier(p);
      var b :| b in T && FsBarrier(b) && !(b.sectors == 0 && !mode.preflush);
      var q, x := PassesRequest(mode, T, b, p);
      ProxyBreaks(q, x);
    } else {
      forall q | Reach(mode, T, q) ensures ProxyInOrder(q) {
        if NoProxies(mode, T) { NoProxiesKeepOrder(mode, T, q); } else { PlainKeepsOrder(mode, T, q); }
      }
    }
  }

  /** The queue serves the driver in every run exactly if requests do not pass barriers; else it can get stuck. */
  lemma ProgressExactly(mode: Ordered, T: set<Template>)
    requires DrainMode(mode)
    ensures (forall q :: Reach(mode, T, q) ==> Serves(q)) <==> !Mixes(T) || Immediate(mode, T)
  {
    hide Reach; hide Serves; hide RequestInOrder; hide ProxyInOrder;
    if Mixes(T) && !Immediate(mode, T) {
      var p :| p in T && OtherBarrier(p);
      var b :| b in T && FsBarrier(b);
      var q;
      if x :| x in T && x.kind == Fs && !x.barrier {
        q := SticksOrdinary(mode, T, b, p, x);
      } else if mode.preflush {
        q := SticksBarrier(mode, T, b, p);
      } else {
        var t :| t in T && t.kind == Fs && !(t.barrier && t.sectors == 0);
        q := SticksBarrier(mode, T, t, p);
      }
    } else {
      forall q | Reach(mode, T, q) ensures Serves(q) {
        if Immediate(mode, T) { ImmediateServes(mode, T, q); } else { PlainKeepsOrder(mode, T, q); }
      }
    }
  }
}
