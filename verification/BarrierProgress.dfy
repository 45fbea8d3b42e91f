/**
  Ordering by draining never gets stuck: while the driver holds nothing, a fetch gives it a request unless
  there is none left; and from every state the queue can work off everything that was added.
 */
module BarrierProgress {
  import opened Barrier
  import opened BarrierBooks
  import opened BarrierTurns
  import opened BarrierOrder
  import opened BarrierSafety

  // Draining does not go to sleep

  /** If nothing is left to drain, the driver still holds a request whose completion will end the drain phase. */
  predicate Awake(q: Queue) { DrainEnds(q) ==> q.flying != [] }

  /** The head of the list while the drain phase goes on with nothing in flight. */
  lemma HeadStops(q: Queue)
    requires Flow(q) && Active(q) && !q.ordseq.drain && q.list != [] && ReqSeq(q.orig, q.list[0].rq) <= DRAIN
    ensures q.list[0].stop
  {
    hide Books; hide Turns; hide Sorted;
    assert Listed(q, q.list[0]);
    if q.list[0].rq.kind != NonFs { FirstRanked(q, 0); }
  }

  lemma AwakeAdd(q: Queue, t: Template, where: Where)
    requires Awake(q) && CanAdd(q, t, where)
    ensures Awake(Add(q, t, where))
  {}

  lemma AwakeDispatch(q: Queue, i: nat, sorted: bool, boundary: nat)
    requires Flow(q) && Awake(q) && i < |q.elevator|
    ensures Awake(Dispatch(q, i, sorted, boundary))
  {
    hide Flow; hide ReqSeq; hide SortPos; hide CurSeq;
    var q', r := Dispatch(q, i, sorted, boundary), q.elevator[i];
    var at := if sorted then SortPos(q.list, r, boundary, |q.list|) else |q.list|;
    if Active(q) && !q.ordseq.drain && q.list != [] && ReqSeq(q.orig, q.list[0].rq) <= DRAIN {
      HeadStops(q);
      SortPosStops(q.list, r, boundary);
      assert at > 0 && q'.list[0] == q.list[0];
    }
    Draining(q');
  }

  lemma Draining(q: Queue)
    ensures DrainEnds(q) ==> Active(q) && q.ordseq.started && !q.ordseq.drain
  {}

  lemma {:induction false} AwakeIdle(q: Queue)
    requires !Active(q)
    ensures !DrainEnds(Next(q).0)
    decreases |q.list|
  {
    if q.list != [] {
      AwakeHead(q);
      if DoOrdered(q).1 == Gone { AwakeIdle(DoOrdered(q).0); }
    }
  }

  lemma AwakeHead(q: Queue)
    requires !Active(q) && q.list != []
    ensures var (q', v) := DoOrdered(q); !DrainEnds(q') && (v == Gone ==> !Active(q'))
  {
    hide ReqSeq;
  }

  lemma AwakeScan(q: Queue)
    requires Awake(q)
    ensures Awake(Next(q).0)
  {
    if Active(q) { StaysActive(q); } else { AwakeIdle(q); }
  }

  lemma AwakeFetch(q: Queue)
    requires Awake(q)
    ensures Awake(Fetch(q).0) && Awake(Peek(q))
  {
    hide Next; hide ReqSeq; hide CurSeq;
    AwakeScan(q);
  }

  lemma AwakeComplete(q: Queue, i: nat, error: int)
    requires Flow(q) && i < |q.flying|
    ensures Awake(Complete(q, i, error))
  {
    hide Books; hide Turns; hide Sorted; hide ReqSeq;
    assert Held(q, q.flying[i]);
  }

  lemma AwakeRequeue(q: Queue, i: nat)
    requires Flow(q) && i < |q.flying|
    ensures Awake(Requeue(q, i))
  {
    hide Books; hide Turns; hide Sorted; hide RequeuePos;
    var q', r := Requeue(q, i), q.flying[i];
    assert Held(q, r);
    if Active(q) && !q.ordseq.drain {
      RequeueFront(q.orig, q.list);
      assert q'.list[0].rq == r;
    }
  }

  lemma AwakeStep(q: Queue, op: Op)
    requires Flow(q) && Awake(q) && Enabled(q, op)
    ensures Awake(Step(q, op))
  {
    hide Flow; hide Add; hide Dispatch; hide Peek; hide Fetch; hide Complete; hide Requeue; hide ReqSeq; hide CurSeq;
    match op
    case OpAdd(t, where) => AwakeAdd(q, t, where);
    case OpDispatch(i, sorted, boundary) => AwakeDispatch(q, i, sorted, boundary);
    case OpPeek => AwakeFetch(q);
    case OpFetch => AwakeFetch(q);
    case OpComplete(i, error) => AwakeComplete(q, i, error);
    case OpBarProgress(error) =>
    case OpRequeue(i) => AwakeRequeue(q, i);
    case OpSetOrdered(mode) =>
  }

  lemma {:induction false} AwakeRuns(q: Queue, ops: seq<Op>, q': Queue)
    requires Flow(q) && Awake(q) && Runs(q, ops, q') && forall i :: 0 <= i < |ops| ==> DrainOp(ops[i])
    ensures Awake(q')
    decreases |ops|
  {
    hide Flow; hide Awake; hide Step; hide Enabled; hide DrainOp;
    if ops != [] {
      FlowStep(q, ops[0]);
      AwakeStep(q, ops[0]);
      AwakeRuns(Step(q, ops[0]), ops[1..], q');
    }
  }

  // The driver holds nothing

  lemma NoneInFlight(q: Queue)
    requires Books(q) && q.flying == []
    ensures q.inFlight == 0
  {}

  /** The request of the current phase waits on the list. */
  lemma PhaseQueued(q: Queue) returns (i: nat)
    requires Books(q) && Active(q) && q.ordseq.drain && q.flying == []
    ensures i < |q.list| && IsProxy(q.list[i].rq) && Phase(q.list[i].rq) == CurSeq(q.ordseq)
  {
    hide ErrorKept; hide CountKept; hide OneSequence;
    var k := if !q.ordseq.preflush then PreFlush else if !q.ordseq.bar then Bar else PostFlush;
    KindsEmpty();
    i := KindFound(Rqs(q.list), k);
  }

  lemma KindsEmpty()
    ensures Kinds([]) == multiset{}
  {}

  lemma {:induction false} KindFound(rs: seq<Rq>, k: Kind) returns (i: nat)
    requires k in Kinds(rs)
    ensures i < |rs| && rs[i].kind == k
  {
    if rs[0].kind == k {
      i := 0;
    } else {
      var j := KindFound(rs[1..], k);
      i := j + 1;
    }
  }

  /** In a sequence with nothing at the driver, the head of the list may go. */
  lemma ActiveGives(q: Queue)
    requires Flow(q) && Awake(q) && Active(q) && q.flying == []
    ensures q.list != [] && DoOrdered(q) == (q, Give)
  {
    hide Books; hide Turns; hide Sorted;
    NoneInFlight(q);
    BooksCur(q);
    if q.ordseq.drain {
      var i := PhaseQueued(q);
      CurrentFirst(q, i);
    }
  }

  lemma CurrentFirst(q: Queue, i: nat)
    requires Flow(q) && Active(q) && q.ordseq.drain
    requires i < |q.list| && IsProxy(q.list[i].rq) && Phase(q.list[i].rq) == CurSeq(q.ordseq)
    ensures q.list[0].rq.kind == NonFs || ReqSeq(q.orig, q.list[0].rq) == CurSeq(q.ordseq)
  {
    hide Books; hide Turns;
    var r := q.list[0].rq;
    assert Listed(q, q.list[0]) && Listed(q, q.list[i]);
    assert i > 0 ==> Before(r, q.list[i].rq);
    if IsProxy(r) { ListedPhase(q, 0); }
  }

  /** Outside a sequence nothing has to wait. */
  lemma IdleNeverWaits(q: Queue)
    requires !Active(q) && DrainMode(q.nextOrdered) && q.inFlight == 0 && q.list != []
    ensures DoOrdered(q).1 != Wait
    ensures DoOrdered(q).1 == Gone ==> !Active(DoOrdered(q).0) && DoOrdered(q).0.flying == q.flying
  {}

  lemma {:induction false} NotBlocked(q: Queue)
    requires Flow(q) && Awake(q) && q.flying == []
    ensures var (p, s) := Next(q); s == Ready || (s == Empty && p.list == [] && !Active(p))
    decreases |q.list|
  {
    hide Flow; hide DoOrdered; hide Held; hide IsBarrier;
    if Active(q) {
      ActiveGives(q);
    } else if q.list != [] {
      FlowParts(q);
      IdleNeverWaits(q);
      FlowDoOrdered(q);
      AwakeHead(q);
      DoOrderedShrinks(q);
      if DoOrdered(q).1 == Gone { NotBlocked(DoOrdered(q).0); }
    }
  }

  lemma FlowParts(q: Queue)
    requires Flow(q)
    ensures Books(q) && DrainMode(q.nextOrdered) && (q.flying == [] ==> q.inFlight == 0)
  {
    hide Turns;
    if q.flying == [] { NoneInFlight(q); }
  }

  /** While the driver holds nothing, a fetch gives it a request, or uses up the list and no sequence is in progress. */
  predicate Serves(q: Queue) {
    q.flying == [] ==> var (p, got) := Fetch(q); got.Some? || (p.list == [] && !Active(p))
  }

  /** In every run the queue serves the driver. */
  lemma NeverStuck(mode: Ordered, ops: seq<Op>, q: Queue)
    requires DrainMode(mode) && Runs(Initial(mode), ops, q) && forall i :: 0 <= i < |ops| ==> DrainOp(ops[i])
    ensures Serves(q)
  {
    hide Flow; hide Next; hide Awake;
    FlowInitial(mode);
    FlowRuns(Initial(mode), ops, q);
    assert Awake(Initial(mode)) by { AwakeInitial(mode); }
    AwakeRuns(Initial(mode), ops, q);
    if q.flying == [] { NotBlocked(q); }
  }

  lemma AwakeInitial(mode: Ordered)
    ensures Awake(Initial(mode))
  {}

  // Everything can be worked off

  function Weight(list: seq<Entry>): nat {
    if list == [] then 0 else (if IsBarrier(list[0].rq) then 8 else 2) + Weight(list[1..])
  }

  lemma {:induction false} WeightCat(a: seq<Entry>, b: seq<Entry>)
    ensures Weight(a + b) == Weight(a) + Weight(b)
  {
    if a == [] {
      assert a + b == b;
    } else {
      assert (a + b)[1..] == a[1..] + b;
      WeightCat(a[1..], b);
    }
  }

  /** What is left to do. */
  function Work(q: Queue): nat { Weight(q.list) + |q.flying| + 3 * |q.elevator| }

  lemma ProxiesWeigh(o: Ordered, orig: Rq)
    ensures Weight(Proxies(o, orig)) <= 6
  {
    var a, b, c := MaybeQueue(o.preflush, PreFlush, orig), MaybeQueue(o.bar, Bar, orig),
                   MaybeQueue(o.postflush, PostFlush, orig);
    WeightCat(a + b, c);
    WeightCat(a, b);
  }

  /** Only a barrier at the head of an idle queue leaves the list, perhaps for its proxies. */
  lemma HeadLists(q: Queue)
    requires q.list != [] && (!Active(q) ==> q.list[0].rq.kind == Fs || q.list[0].rq.kind == NonFs)
    ensures var (q', v) := DoOrdered(q); var r := q.list[0].rq;
      && q'.elevator == q.elevator && q'.flying == q.flying
      && if !Active(q) && IsBarrier(r) then
           || q'.list == q.list[1..]
           || q'.list == Proxies(EffectiveOrdered(q.nextOrdered, r.sectors), r) + q.list[1..]
         else v != Gone && q'.list == q.list
  {
    hide CurSeq; hide ReqSeq; hide Skip; hide EffectiveOrdered; hide Proxies;
  }

  lemma WorkHead(q: Queue)
    requires Flow(q) && q.list != []
    ensures var (q', v) := DoOrdered(q);
      && Work(q') <= Work(q) && (v == Gone ==> Work(q') < Work(q)) && q'.elevator == q.elevator && q'.flying == q.flying
  {
    hide Weight; hide Proxies; hide DoOrdered; hide EffectiveOrdered; hide Flow; hide Books;
    FlowParts(q);
    IdleHead(q);
    HeadLists(q);
    if !Active(q) && IsBarrier(q.list[0].rq) {
      var orig := q.list[0].rq;
      var o := EffectiveOrdered(q.nextOrdered, orig.sectors);
      WeightHead(q.list);
      ProxiesWeigh(o, orig);
      WeightCat(Proxies(o, orig), q.list[1..]);
    }
  }

  lemma WeightHead(list: seq<Entry>)
    requires list != []
    ensures Weight(list) == (if IsBarrier(list[0].rq) then 8 else 2) + Weight(list[1..])
  {}

  lemma {:induction false} WorkNext(q: Queue)
    requires Flow(q)
    ensures var (q', s) := Next(q);
      && Work(q') <= Work(q) && q'.elevator == q.elevator && q'.flying == q.flying
      && (s == Empty && q.list != [] ==> Work(q') < Work(q))
    decreases |q.list|
  {
    hide Flow; hide DoOrdered; hide Work; hide Held; hide IsBarrier;
    if q.list != [] {
      WorkHead(q);
      FlowDoOrdered(q);
      DoOrderedShrinks(q);
      if DoOrdered(q).1 == Gone { WorkNext(DoOrdered(q).0); }
    }
  }

  /** While something is left, some step of the driver or of the elevator makes it less. */
  lemma WorkLess(q: Queue) returns (op: Op)
    requires Flow(q) && Awake(q) && (q.flying != [] || q.elevator != [] || q.list != [] || Active(q))
    ensures Enabled(q, op) && DrainOp(op) && !op.OpAdd? && Work(Step(q, op)) < Work(q)
  {
    hide Flow; hide Weight; hide Next; hide Awake; hide Complete;
    if q.flying != [] {
      op := OpComplete(0, 0);
      WorkComplete(q);
    } else if q.elevator != [] {
      op := OpDispatch(0, false, 0);
      WorkDispatch(q);
    } else {
      op := OpFetch;
      NotBlocked(q);
      WorkNext(q);
      var (p, s) := Next(q);
      if s == Ready { NextReady(q); WeightHead(p.list); } else { ActiveNotEmpty(q); }
    }
  }

  lemma ActiveNotEmpty(q: Queue)
    ensures q.list == [] ==> Next(q).0 == q
  {}

  lemma WorkComplete(q: Queue)
    requires q.flying != []
    ensures Work(Complete(q, 0, 0)) < Work(q)
  {
    hide Weight; hide CurSeq; hide DrainEnds;
  }

  lemma WorkDispatch(q: Queue)
    requires Flow(q) && q.elevator != []
    ensures Work(Dispatch(q, 0, false, 0)) < Work(q)
  {
    hide Weight; hide Books; hide Turns;
    var e := Entry(q.elevator[0], false);
    assert Waiting(q, q.elevator[0]);
    InsertEnds(q.list, e);
    WeightCat(q.list, [e]);
    WeightHead([e]);
    assert [e][1..] == [];
    NoWeight();
  }

  lemma NoWeight()
    ensures Weight([]) == 0
  {}

  /** From every state that a run can reach, steps of driver and elevator alone complete everything that was added. */
  lemma AllCanComplete(mode: Ordered, ops: seq<Op>, q: Queue)
    requires DrainMode(mode) && Runs(Initial(mode), ops, q) && forall i :: 0 <= i < |ops| ==> DrainOp(ops[i])
    ensures exists more: seq<Op>, q' ::
      && Runs(q, more, q') && (forall i :: 0 <= i < |more| ==> !more[i].OpAdd?)
      && q'.added == q.added && forall x :: x in q'.added ==> x in q'.completed
  {
    hide Flow; hide Awake; hide Conserved; hide Books; hide Runs;
    DrainRuns(mode, ops, q);
    FlowInitial(mode);
    assert Awake(Initial(mode)) by { AwakeInitial(mode); }
    AwakeRuns(Initial(mode), ops, q);
    var more, q' := WorkOff(q);
  }

  lemma {:induction false} WorkOff(q: Queue) returns (more: seq<Op>, q': Queue)
    requires Flow(q) && Awake(q) && Books(q) && Conserved(q)
    ensures Runs(q, more, q') && forall i :: 0 <= i < |more| ==> !more[i].OpAdd?
    ensures q'.added == q.added && forall x :: x in q'.added ==> x in q'.completed
    decreases Work(q)
  {
    hide Flow; hide Awake; hide Conserved; hide Books; hide Step; hide Enabled; hide Work; hide Runs;
    if q.flying == [] && q.elevator == [] && q.list == [] && !Active(q) {
      more, q' := [], q;
      RunsNone(q);
      AllDone(q);
    } else {
      var op := WorkLess(q);
      FlowStep(q, op);
      AwakeStep(q, op);
      BooksStep(q, op);
      ConservedStep(q, op);
      AddsOnly(q, op);
      var rest;
      rest, q' := WorkOff(Step(q, op));
      RunsOne(q, op);
      RunsCat(q, [op], Step(q, op), rest, q');
      more := [op] + rest;
    }
  }

  lemma AllDone(q: Queue)
    requires Conserved(q) && q.flying == [] && q.elevator == [] && q.list == [] && !Active(q)
    ensures forall x :: x in q.added ==> x in q.completed
  {
    assert Rqs(q.list) == [];
  }

  lemma AddsOnly(q: Queue, op: Op)
    requires Enabled(q, op) && !op.OpAdd?
    ensures Step(q, op).added == q.added
  {
    hide Next; hide Complete;
    match op
    case OpFetch => ScanUnread(q);
    case OpPeek => ScanUnread(q);
    case OpComplete(i, error) => CompleteUnread(q, i, error);
    case _ =>
  }
}
