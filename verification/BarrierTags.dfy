/**
  Ordering by tags: a sequence goes to the driver without waiting, only the next barrier is held back, and
  what remains of a sequence is never behind a barrier.
 */
module BarrierTags {
  import opened Options
  import opened Barrier
  import opened BarrierBooks
  import opened BarrierTurns
  import opened BarrierOrder
  import opened BarrierProgress

  /** All are hard barriers; the proxy carries the barrier's data, a flush carries none. */
  predicate Carries(orig: Rq, r: Rq) {
    && (IsProxy(r) ==> r.barrier)
    && (r.kind == Bar ==> r.sectors == orig.sectors && r.write == orig.write)
    && (r.kind == PreFlush || r.kind == PostFlush ==> r.sectors == 0 && !r.write)
  }

  /** No proxy is behind a barrier of the file system. */
  ghost predicate Ahead(list: seq<Entry>) {
    forall i, j :: 0 <= i < j < |list| && IsBarrier(list[i].rq) ==> !IsProxy(list[j].rq)
  }

  ghost predicate AllCarry(q: Queue) {
    && (forall i :: 0 <= i < |q.list| ==> Carries(q.orig, q.list[i].rq))
    && (forall i :: 0 <= i < |q.flying| ==> Carries(q.orig, q.flying[i]))
  }

  ghost predicate Led(q: Queue) { Ahead(q.list) && AllCarry(q) }

  // The first barrier on the list is the next one

  lemma FirstBarrierColor(q: Queue, j: nat)
    requires Books(q) && Turns(q) && Active(q) && j < |q.list| && IsBarrier(q.list[j].rq)
    requires forall i :: 0 <= i < j ==> !IsBarrier(q.list[i].rq)
    ensures q.list[j].rq.color != q.orig.color
  {
    hide Barriers; hide PhasesTracked; hide CountKept; hide ErrorKept;
    var a, b := q.list[..j], q.list[j..];
    assert q.list == a + b;
    BarriersBehind(a, b);
    BarriersHead(b);
    var before := Firsts(q.ended) + [q.orig];
    var all := Barriers(q.added);
    assert all[|before|] == q.list[j].rq;
    assert all[|q.ended|] == q.orig;
    BarrierEpochs(q.added, |q.added|);
    assert q.added[..|q.added|] == q.added;
  }

  /** A requeued proxy goes in front of every barrier. */
  lemma ProxyBeforeBarriers(q: Queue, seq_: nat, j: nat)
    requires Books(q) && Turns(q) && Active(q) && seq_ <= POSTFLUSH && j < |q.list| && IsBarrier(q.list[j].rq)
    ensures RequeuePos(q.orig, q.list, seq_, 0) <= j
    decreases j
  {
    hide Books; hide Turns;
    if i :| 0 <= i < j && IsBarrier(q.list[i].rq) {
      ProxyBeforeBarriers(q, seq_, i);
    } else {
      FirstBarrierColor(q, j);
    }
  }

  // Every step

  lemma AheadInsert(list: seq<Entry>, at: nat, e: Entry)
    requires Ahead(list) && at <= |list| && !IsBarrier(e.rq)
    requires IsProxy(e.rq) ==> forall j :: 0 <= j < |list| && IsBarrier(list[j].rq) ==> at <= j
    ensures Ahead(Insert(list, at, e))
  {}

  lemma LedAdd(q: Queue, t: Template, where: Where)
    requires Led(q) && CanAdd(q, t, where)
    ensures Led(Add(q, t, where))
  {}

  lemma LedDispatch(q: Queue, i: nat, sorted: bool, boundary: nat)
    requires Books(q) && Led(q) && i < |q.elevator|
    ensures Led(Dispatch(q, i, sorted, boundary))
  {
    hide SortPos; hide PhasesTracked; hide CountKept; hide ErrorKept;
    var r := q.elevator[i];
    AheadInsert(q.list, if sorted then SortPos(q.list, r, boundary, |q.list|) else |q.list|, Entry(r, false));
    hide Ahead;
  }

  lemma AheadRequeue(q: Queue, i: nat)
    requires Books(q) && Turns(q) && Ahead(q.list) && i < |q.flying|
    ensures Ahead(Requeue(q, i).list)
  {
    hide RequeuePos; hide Books; hide Logged; hide Ahead; hide Insert;
    var r := q.flying[i];
    var at := if !Active(q) then 0 else RequeuePos(q.orig, q.list, ReqSeq(q.orig, r), 0);
    if Active(q) && IsProxy(r) {
      forall j | 0 <= j < |q.list| && IsBarrier(q.list[j].rq) ensures at <= j {
        ProxyBeforeBarriers(q, ReqSeq(q.orig, r), j);
      }
    }
    AheadInsert(q.list, at, Entry(r, true));
  }

  lemma CarryRequeue(q: Queue, i: nat)
    requires AllCarry(q) && i < |q.flying|
    ensures AllCarry(Requeue(q, i))
  {
    hide RequeuePos; hide Carries;
  }

  lemma SeqLists(q: Queue, bits: Phases, error: int)
    ensures var q' := CompleteSeq(q, bits, error); q'.list == q.list && q'.orig == q.orig && q'.flying == q.flying
  {
    hide CurSeq; hide Union;
  }

  lemma CompletedLists(q: Queue, r: Rq)
    ensures var q' := Completed(q, r); q'.list == q.list && q'.orig == q.orig && q'.flying == q.flying
  {
    hide CompleteSeq; hide DrainEnds;
    SeqLists(if Accounted(r) then q.(inFlight := q.inFlight - 1) else q, DRAIN_BIT, 0);
  }

  lemma CompleteLists(q: Queue, i: nat, error: int)
    requires i < |q.flying|
    ensures var q' := Complete(q, i, error);
      q'.list == q.list && q'.orig == q.orig && q'.flying == RemoveAt(q.flying, i)
  {
    hide CompleteSeq; hide Completed; hide RemoveAt;
    var r, p := q.flying[i], q.(flying := RemoveAt(q.flying, i));
    if r.kind == Fs || r.kind == NonFs {
      CompletedLists(p.(completed := p.completed + {r}), r);
    } else {
      CompletedLists(p, r);
      SeqLists(Completed(p, r), PhaseBit(r.kind), error);
    }
  }

  lemma LedLess(q: Queue, i: nat, p: Queue)
    requires Led(q) && i < |q.flying| && p.list == q.list && p.orig == q.orig && p.flying == RemoveAt(q.flying, i)
    ensures Led(p)
  {
    hide Carries;
  }

  lemma NoProxyFlying(q: Queue, i: nat)
    requires Books(q) && !Active(q) && i < |q.flying|
    ensures !IsProxy(q.flying[i])
  {
    hide Kinds; hide Rqs;
    KindAt(q.flying, i);
  }

  lemma BeginLed(q: Queue)
    requires Books(q) && Led(q) && !Active(q) && q.list != []
    ensures Led(Begin(q))
  {
    hide EffectiveOrdered; hide Books;
    forall i | 0 <= i < |q.list| ensures !IsProxy(q.list[i].rq) { NoProxyIdle(q, i); }
    forall i | 0 <= i < |q.flying| ensures !IsProxy(q.flying[i]) { NoProxyFlying(q, i); }
  }

  lemma LedSame(q: Queue, p: Queue)
    requires Led(q) && p.list == q.list && p.flying == q.flying && p.orig == q.orig
    ensures Led(p)
  {}

  lemma LedDoOrdered(q: Queue)
    requires Books(q) && Led(q) && q.list != []
    ensures Led(DoOrdered(q).0)
  {
    hide Books; hide Led; hide CurSeq; hide Skip;
    IdleHead(q);
    var r := q.list[0].rq;
    if !Active(q) && IsBarrier(r) {
      if q.nextOrdered != ORDERED_NONE {
        BeginLed(q);
        hide Begin;
        LedSame(Begin(q), StartOrdered(q).0);
      } else {
        LedTail(q);
        LedSame(q.(list := q.list[1..]), DoOrdered(q).0);
      }
    }
  }

  lemma LedTail(q: Queue)
    requires Led(q) && q.list != []
    ensures Led(q.(list := q.list[1..])) && Led(Start(q)) && Led(q.(list := [Entry(q.list[0].rq, true)] + q.list[1..]))
  {}

  lemma {:induction false} LedNext(q: Queue)
    requires Books(q) && Led(q)
    ensures Led(Next(q).0)
    decreases |q.list|
  {
    hide Books; hide Led; hide DoOrdered;
    if q.list != [] {
      BooksDoOrdered(q);
      LedDoOrdered(q);
      DoOrderedShrinks(q);
      if DoOrdered(q).1 == Gone { LedNext(DoOrdered(q).0); }
    }
  }

  lemma LedStep(q: Queue, op: Op)
    requires Books(q) && Turns(q) && Led(q) && Enabled(q, op)
    ensures Led(Step(q, op))
  {
    hide Books; hide Turns; hide Add; hide Dispatch; hide Next; hide Complete; hide Start;
    match op
    case OpAdd(t, where) => LedAdd(q, t, where);
    case OpDispatch(i, sorted, boundary) => LedDispatch(q, i, sorted, boundary);
    case OpPeek => LedFetch(q);
    case OpFetch => LedFetch(q);
    case OpComplete(i, error) =>
      CompleteLists(q, i, error);
      LedLess(q, i, Complete(q, i, error));
    case OpBarProgress(error) => LedSame(q, Step(q, op));
    case OpRequeue(i) =>
      AheadRequeue(q, i);
      CarryRequeue(q, i);
    case OpSetOrdered(mode) => LedSame(q, Step(q, op));
  }

  lemma LedFetch(q: Queue)
    requires Books(q) && Led(q)
    ensures Led(Fetch(q).0) && Led(Peek(q))
  {
    hide Books; hide Led; hide Next; hide Start;
    LedNext(q);
    if Next(q).1 == Ready {
      NextReady(q);
      LedTail(Next(q).0);
    }
  }

  lemma {:induction false} LedRuns(q: Queue, ops: seq<Op>, q': Queue)
    requires Books(q) && Turns(q) && Led(q) && Runs(q, ops, q') && forall i :: 0 <= i < |ops| ==> PlainOp(ops[i])
    ensures Books(q') && Turns(q') && Led(q')
    decreases |ops|
  {
    hide Books; hide Turns; hide Led; hide Step; hide Enabled; hide PlainOp;
    if ops != [] {
      LedStep(q, ops[0]);
      BooksStep(q, ops[0]);
      TurnsStep(q, ops[0]);
      LedRuns(Step(q, ops[0]), ops[1..], q');
    }
  }

  // What goes to the driver

  /** In every run a proxy on the list or at the driver carries what its barrier carries, and flushes are empty. */
  lemma ProxiesCarry(mode: Ordered, ops: seq<Op>, q: Queue)
    requires ValidMode(mode) && Runs(Initial(mode), ops, q) && forall i :: 0 <= i < |ops| ==> PlainOp(ops[i])
    ensures forall i :: 0 <= i < |q.list| && IsProxy(q.list[i].rq) ==> Carries(q.orig, q.list[i].rq)
    ensures forall i :: 0 <= i < |q.flying| && IsProxy(q.flying[i]) ==> Carries(q.orig, q.flying[i])
  {
    hide Books; hide Turns;
    BooksInitial(mode);
    TurnsInitial(mode);
    LedRuns(Initial(mode), ops, q);
  }

  /** With tags only the next barrier of the file system is held back during a sequence. */
  lemma TagGate(q: Queue)
    requires Books(q) && Active(q) && q.ordered.byTag && q.list != []
    ensures Fetch(q).1 == if IsBarrier(q.list[0].rq) then None else Some(q.list[0].rq)
  {
    hide Books; hide CurSeq; hide ReqSeq;
  }

  /** A barrier that is ordered by tags has its first request given out at once, whatever is in flight. */
  lemma TagStarts(q: Queue)
    requires !Active(q) && TagMode(q.nextOrdered) && q.list != [] && IsBarrier(q.list[0].rq)
    requires q.list[0].rq.sectors != 0 || q.nextOrdered.preflush
    ensures Fetch(q).1.Some? && Active(Fetch(q).0)
    ensures Fetch(q).1.value.kind == if q.nextOrdered.preflush then PreFlush else Bar
  {}

  /** A mode that is set takes effect at once, also on the sequence in progress. */
  lemma ModeTakesEffect(q: Queue, mode: Ordered)
    requires Books(q) && Active(q) && TagMode(mode) && q.list != []
    ensures Fetch(Step(q, OpSetOrdered(mode))).1 == if IsBarrier(q.list[0].rq) then None else Some(q.list[0].rq)
  {
    hide Books; hide Fetch;
    BooksStep(q, OpSetOrdered(mode));
    TagGate(Step(q, OpSetOrdered(mode)));
  }

  /** In every run, while a sequence is ordered by tags and the driver holds nothing, a fetch gives it a request. */
  lemma TagNeverStuck(mode: Ordered, ops: seq<Op>, q: Queue)
    requires ValidMode(mode) && Runs(Initial(mode), ops, q) && forall i :: 0 <= i < |ops| ==> PlainOp(ops[i])
    requires Active(q) && q.ordered.byTag && q.ordseq.drain && q.flying == []
    ensures Fetch(q).1.Some?
  {
    hide Books; hide Turns; hide Fetch; hide CurSeq;
    BooksInitial(mode);
    TurnsInitial(mode);
    LedRuns(Initial(mode), ops, q);
    var i := PhaseQueued(q);
    assert !IsBarrier(q.list[0].rq);
    TagGate(q);
  }
}
