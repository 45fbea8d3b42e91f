/**
  No request is lost, and the ordering theorem for every run of a queue that
  orders barriers by draining.
 */
module BarrierSafety {
  import opened Barrier
  import opened BarrierBooks
  import opened BarrierTurns
  import opened BarrierOrder

  // Every request added is somewhere

  predicate Real(x: Rq) { x.kind == Fs || x.kind == NonFs }

  ghost predicate Pending(q: Queue, x: Rq) { x in q.elevator || x in Rqs(q.list) || x in q.flying }

  ghost predicate Placed(q: Queue, x: Rq) { x in q.completed || Pending(q, x) || (Active(q) && x == q.orig) }

  /** Every request added is pending, being replaced by its sequence, or completed; and nothing else is pending. */
  ghost predicate Conserved(q: Queue) {
    && (forall x :: x in q.added ==> Placed(q, x))
    && (forall x :: Real(x) && Pending(q, x) ==> x in q.added)
    && (forall x :: x in q.added ==> Real(x))
    && (Active(q) ==> q.orig in q.added)
  }

  /** From `q` to `p` requests move but none appears or disappears. */
  ghost predicate Moves(q: Queue, p: Queue) {
    && p.added == q.added
    && (forall x :: Real(x) && Placed(q, x) ==> Placed(p, x))
    && (forall x :: Real(x) && Pending(p, x) ==> Pending(q, x))
    && (Active(p) ==> (Active(q) && p.orig == q.orig) || (Real(p.orig) && Pending(q, p.orig)))
  }

  lemma MovesConserve(q: Queue, p: Queue)
    requires Conserved(q) && Moves(q, p)
    ensures Conserved(p)
  {
    hide Placed; hide Pending;
  }

  lemma InsertMembers(list: seq<Entry>, at: nat, e: Entry)
    requires at <= |list|
    ensures forall x :: x in Rqs(Insert(list, at, e)) <==> x in Rqs(list) || x == e.rq
  {
    var a, b := Rqs(list)[..at], Rqs(list)[at..];
    assert Rqs(Insert(list, at, e)) == a + [e.rq] + b;
    assert Rqs(list) == a + b;
  }

  lemma RemoveMembers(rs: seq<Rq>, i: nat)
    requires i < |rs|
    ensures forall x :: x in rs <==> x in RemoveAt(rs, i) || x == rs[i]
  {
    assert rs == rs[..i] + [rs[i]] + rs[i + 1..];
  }

  lemma HeadMembers(list: seq<Entry>)
    requires list != []
    ensures forall x :: x in Rqs(list) <==> x == list[0].rq || x in Rqs(list[1..])
  {
    assert Rqs(list) == [list[0].rq] + Rqs(list[1..]);
  }

  lemma ConservedAdd(q: Queue, t: Template, where: Where)
    requires Conserved(q) && CanAdd(q, t, where)
    ensures Conserved(Add(q, t, where))
  {
    hide Insert;
    var e := Entry(NewRq(q, t), true);
    InsertEnds(q.list, e);
    InsertMembers(q.list, 0, e);
    InsertMembers(q.list, |q.list|, e);
  }

  lemma MovesDispatch(q: Queue, i: nat, sorted: bool, boundary: nat)
    requires i < |q.elevator|
    ensures Moves(q, Dispatch(q, i, sorted, boundary))
  {
    hide Insert; hide RemoveAt;
    var r := q.elevator[i];
    var at := if sorted then SortPos(q.list, r, boundary, |q.list|) else |q.list|;
    InsertMembers(q.list, at, Entry(r, false));
    RemoveMembers(q.elevator, i);
  }

  lemma MovesRequeue(q: Queue, i: nat)
    requires i < |q.flying|
    ensures Moves(q, Requeue(q, i))
  {
    hide Insert; hide RemoveAt;
    var r := q.flying[i];
    var at := if !Active(q) then 0 else RequeuePos(q.orig, q.list, ReqSeq(q.orig, r), 0);
    InsertMembers(q.list, at, Entry(r, true));
    RemoveMembers(q.flying, i);
  }

  lemma MovesCompleteSeq(q: Queue, bits: Phases, error: int)
    requires Active(q)
    ensures Moves(q, CompleteSeq(q, bits, error))
  {
    hide CurSeq;
  }

  lemma MovesLeave(q: Queue, i: nat)
    requires i < |q.flying|
    ensures var p := Left(q, i);
            && (IsProxy(q.flying[i]) ==> Moves(q, p))
            && Moves(q, p.(completed := q.completed + {q.flying[i]}))
  {
    hide RemoveAt;
    RemoveMembers(q.flying, i);
  }

  lemma MovesComplete(q: Queue, i: nat, error: int)
    requires i < |q.flying| && (IsProxy(q.flying[i]) ==> Active(q))
    requires IsProxy(q.flying[i]) ==> Active(Completed(q.(flying := RemoveAt(q.flying, i)), q.flying[i]))
    ensures Moves(q, Complete(q, i, error))
  {
    hide RemoveAt; hide CompleteSeq; hide Moves; hide CurSeq; hide ReqSeq;
    MovesLeave(q, i);
    var r := q.flying[i];
    var p := if IsProxy(r) then Left(q, i) else Left(q, i).(completed := q.completed + {r});
    var c := Completed(q.(flying := p.flying, completed := p.completed), r);
    if c != p {
      MovesCompleteSeq(p, DRAIN_BIT, 0);
      MovesTrans(q, p, c);
    }
    if IsProxy(r) {
      MovesCompleteSeq(c, PhaseBit(r.kind), error);
      MovesTrans(q, c, Complete(q, i, error));
    }
  }

  lemma MovesStart(q: Queue)
    requires q.list != []
    ensures Moves(q, Start(q))
  {
    HeadMembers(q.list);
  }

  lemma MovesDoOrdered(q: Queue)
    requires q.list != [] && (!Active(q) ==> !IsProxy(q.list[0].rq))
    ensures Moves(q, DoOrdered(q).0)
  {
    hide CurSeq; hide ReqSeq; hide Skip; hide EffectiveOrdered; hide Proxies;
    HeadMembers(q.list);
    var orig := q.list[0].rq;
    var o := EffectiveOrdered(q.nextOrdered, orig.sectors);
    ProxyMembers(o, orig, q.list[1..]);
  }

  lemma ProxyMembers(o: Ordered, orig: Rq, rest: seq<Entry>)
    ensures forall x :: Real(x) ==> (x in Rqs(Proxies(o, orig) + rest) <==> x in Rqs(rest))
  {
    hide Rank; hide Before;
    ProxiesInOrder(o, orig);
    var ps := Proxies(o, orig);
    assert Rqs(ps + rest) == Rqs(ps) + Rqs(rest);
    assert forall x :: x in Rqs(ps) ==> IsProxy(x);
  }

  lemma MovesTrans(q: Queue, p: Queue, s: Queue)
    requires Moves(q, p) && Moves(p, s)
    ensures Moves(q, s)
  {
    hide Pending;
  }

  lemma {:induction false} ConservedNext(q: Queue)
    requires Conserved(q) && Books(q)
    ensures Conserved(Next(q).0)
    decreases |q.list|
  {
    hide Books; hide Conserved; hide DoOrdered; hide Moves; hide IsBarrier;
    if q.list != [] {
      BooksDoOrdered(q);
      IdleHead(q);
      MovesDoOrdered(q);
      var (q', v) := DoOrdered(q);
      MovesConserve(q, q');
      DoOrderedShrinks(q);
      if v == Gone {
        ConservedNext(q');
      }
    }
  }

  lemma ConservedFetch(q: Queue)
    requires Conserved(q) && Books(q)
    ensures Conserved(Fetch(q).0) && Conserved(Peek(q))
  {
    hide Books; hide Conserved; hide Next; hide Moves;
    ConservedNext(q);
    var (q', s) := Next(q);
    if s == Ready {
      NextReady(q);
      MovesStart(q');
      MovesConserve(q', Start(q'));
      MovesMark(q');
      MovesConserve(q', Peek(q));
    }
  }

  lemma MovesMark(q: Queue)
    requires q.list != []
    ensures Moves(q, q.(list := [Entry(q.list[0].rq, true)] + q.list[1..]))
  {
    assert Rqs([Entry(q.list[0].rq, true)] + q.list[1..]) == Rqs(q.list);
  }

  lemma ConservedStep(q: Queue, op: Op)
    requires Conserved(q) && Books(q) && Enabled(q, op)
    ensures Conserved(Step(q, op))
  {
    hide Books; hide Conserved; hide Moves;
    match op
    case OpAdd(t, where) => ConservedAdd(q, t, where);
    case OpDispatch(i, sorted, boundary) => MovesDispatch(q, i, sorted, boundary); MovesConserve(q, Step(q, op));
    case OpPeek => ConservedFetch(q);
    case OpFetch => ConservedFetch(q);
    case OpComplete(i, error) => ProxyActive(q, i); MovesComplete(q, i, error); MovesConserve(q, Step(q, op));
    case OpBarProgress(error) => MovesSame(q, Step(q, op)); MovesConserve(q, Step(q, op));
    case OpRequeue(i) => MovesRequeue(q, i); MovesConserve(q, Step(q, op));
    case OpSetOrdered(mode) => MovesSame(q, Step(q, op)); MovesConserve(q, Step(q, op));
  }

  lemma MovesSame(q: Queue, p: Queue)
    requires p == q.(orderr := p.orderr, errors := p.errors, ordered := p.ordered, nextOrdered := p.nextOrdered)
    ensures Moves(q, p)
  {}

  lemma ProxyActive(q: Queue, i: nat)
    requires Books(q) && i < |q.flying|
    ensures IsProxy(q.flying[i]) ==>
              Active(q) && Active(Completed(q.(flying := RemoveAt(q.flying, i)), q.flying[i]))
  {
    hide Books; hide Completed; hide CountKept; hide ErrorKept; hide OneSequence; hide PhasesTracked;
    hide OccurAs;
    if IsProxy(q.flying[i]) {
      LeftBooks(q, i);
      ProxyCompletes(q, i);
    }
  }

  lemma {:induction false} ConservedRuns(q: Queue, ops: seq<Op>, q': Queue)
    requires Conserved(q) && Books(q) && Runs(q, ops, q')
    ensures Conserved(q')
    decreases |ops|
  {
    hide Books; hide Conserved; hide Step; hide Enabled;
    if ops != [] {
      BooksStep(q, ops[0]);
      ConservedStep(q, ops[0]);
      ConservedRuns(Step(q, ops[0]), ops[1..], q');
    }
  }

  // The order of addition and the epochs

  lemma {:induction false} FewerBarriers(added: seq<Rq>, i: nat, j: nat)
    requires i <= j <= |added|
    ensures |Barriers(added[..i])| <= |Barriers(added[..j])|
    ensures i < j && IsBarrier(added[i]) ==> |Barriers(added[..i])| < |Barriers(added[..j])|
  {
    hide Barriers;
    assert added[..j] == added[..i] + added[i..j];
    BarriersCat(added[..i], added[i..j]);
    if i < j {
      assert added[i..j] == [added[i]] + added[i + 1..j];
      BarriersCat([added[i]], added[i + 1..j]);
      BarriersOne(added[i]);
    }
  }

  /** The barrier of epoch `k` is the one that ends as number `k`. */
  lemma BarrierNumber(added: seq<Rq>, j: nat)
    requires j < |added| && LoggedAt(added, j) && IsBarrier(added[j])
    ensures var k := added[j].epoch;
            k < |Barriers(added)| && Barriers(added)[k] == added[j]
  {
    hide Barriers;
    assert added == added[..j] + ([added[j]] + added[j + 1..]);
    BarriersCat(added[..j], [added[j]] + added[j + 1..]);
    BarriersCat([added[j]], added[j + 1..]);
    BarriersOne(added[j]);
  }

  lemma AddedAt(q: Queue, x: Rq)
    requires Turns(q) && x in q.added
    ensures x.id < |q.added| && q.added[x.id] == x && LoggedAt(q.added, x.id)
  {
    hide LoggedAt;
    var i :| 0 <= i < |q.added| && q.added[i] == x;
    assert LoggedAt(q.added, i);
    assert x.id == i by { LoggedId(q.added, i); }
  }

  lemma LoggedId(added: seq<Rq>, i: nat)
    requires i < |added| && LoggedAt(added, i)
    ensures added[i].id == i && added[i].epoch == |Barriers(added[..i])|
  {}

  /** If the driver gets a proxy now, every request of the file system added before the barrier has completed. */
  ghost predicate ProxyInOrder(q: Queue) {
    var (q', got) := Fetch(q);
    got.Some? && IsProxy(got.value) ==>
      Active(q') && forall x :: x in q'.added && x.kind == Fs && x.id < q'.orig.id ==> x in q'.completed
  }

  /**
    In every run, when the pre-flush, the proxy or the post-flush of a barrier goes to
    the driver, every file system request added before the barrier has completed.
   */
  lemma ProxyAfterEarlierRequests(mode: Ordered, ops: seq<Op>, q: Queue)
    requires DrainMode(mode) && Runs(Initial(mode), ops, q) && forall i :: 0 <= i < |ops| ==> DrainOp(ops[i])
    ensures ProxyInOrder(q)
  {
    hide Flow; hide Conserved; hide Next; hide Held; hide Runs;
    DrainRuns(mode, ops, q);
    ConservedNext(q);
    FlowFetch(q);
    FlowNext(q);
    var p := Next(q).0;
    if Fetch(q).1.Some? && IsProxy(Fetch(q).1.value) {
      ProxyHeld(p, Fetch(q).1.value);
      forall x | x in p.added && x.kind == Fs && x.id < p.orig.id ensures x in p.completed {
        EarlierDone(p, x);
      }
    }
  }

  lemma ConservedInitial(mode: Ordered)
    ensures Conserved(Initial(mode))
  {}

  /** In every run of every ordering mode, each request added is pending, in progress or completed. */
  lemma NothingLost(mode: Ordered, ops: seq<Op>, q: Queue)
    requires ValidMode(mode) && Runs(Initial(mode), ops, q)
    ensures Conserved(q)
  {
    hide Conserved; hide Books;
    BooksInitial(mode);
    ConservedInitial(mode);
    ConservedRuns(Initial(mode), ops, q);
  }

  lemma DrainRuns(mode: Ordered, ops: seq<Op>, q: Queue)
    requires DrainMode(mode) && Runs(Initial(mode), ops, q) && forall i :: 0 <= i < |ops| ==> DrainOp(ops[i])
    ensures Flow(q) && Books(q) && Conserved(q)
  {
    hide Flow; hide Conserved; hide Books;
    FlowInitial(mode);
    FlowRuns(Initial(mode), ops, q);
    BooksInitial(mode);
    BooksRuns(Initial(mode), ops, q);
    NothingLost(mode, ops, q);
  }

  lemma ProxyHeld(p: Queue, r: Rq)
    requires IsProxy(r) && Held(p, r)
    ensures Active(p) && p.ordseq.drain
  {}

  /** Once draining is over, everything added before the barrier has completed. */
  lemma EarlierDone(p: Queue, x: Rq)
    requires Flow(p) && Conserved(p) && Active(p) && p.ordseq.drain
    requires x in p.added && x.kind == Fs && x.id < p.orig.id
    ensures x in p.completed
  {
    hide Books; hide Sorted; hide LoggedAt;
    AddedAt(p, x);
    AddedAt(p, p.orig);
    LoggedId(p.added, x.id); LoggedId(p.added, p.orig.id);
    FewerBarriers(p.added, x.id, p.orig.id);
    assert x.epoch < p.begun;
    assert Placed(p, x);
  }

  /** If the driver gets a request of the file system now, every barrier added before it has ended. */
  ghost predicate RequestInOrder(q: Queue) {
    var (q', got) := Fetch(q);
    got.Some? && got.value.kind == Fs ==>
      && got.value in q'.added
      && forall b :: b in q'.added && IsBarrier(b) && b.id < got.value.id ==> b in Firsts(q'.ended)
  }

  /**
    In every run, when a file system request goes to the driver, every barrier added
    before it has ended.
   */
  lemma RequestAfterEarlierBarriers(mode: Ordered, ops: seq<Op>, q: Queue)
    requires DrainMode(mode) && Runs(Initial(mode), ops, q) && forall i :: 0 <= i < |ops| ==> DrainOp(ops[i])
    ensures RequestInOrder(q)
  {
    hide Flow; hide Conserved; hide Next; hide Held; hide Runs; hide IsBarrier; hide Firsts;
    DrainRuns(mode, ops, q);
    ConservedNext(q);
    FlowFetch(q);
    FlowNext(q);
    var p := Next(q).0;
    if Fetch(q).1.Some? && Fetch(q).1.value.kind == Fs {
      var r := Fetch(q).1.value;
      assert r in p.added by { HeadAdded(p); }
      forall b | b in p.added && IsBarrier(b) && b.id < r.id ensures b in Firsts(p.ended) {
        BarrierEnded(p, r, b);
      }
    }
  }

  lemma HeadAdded(p: Queue)
    requires Conserved(p) && p.list != [] && p.list[0].rq.kind == Fs
    ensures p.list[0].rq in p.added
  {
    var r := p.list[0].rq;
    assert Rqs(p.list)[0] == r;
    assert Pending(p, r);
  }

  lemma BarrierEnded(p: Queue, r: Rq, b: Rq)
    requires Flow(p) && r in p.added && r.kind == Fs && Held(p, r) && b in p.added && IsBarrier(b) && b.id < r.id
    ensures b in Firsts(p.ended)
  {
    hide LoggedAt; hide Barriers; hide Sorted; hide Listed; hide Kinds;
    AddedAt(p, r);
    AddedAt(p, b);
    LoggedId(p.added, r.id); LoggedId(p.added, b.id);
    FewerBarriers(p.added, b.id, r.id);
    BarrierNumber(p.added, b.id);
    assert Barriers(p.added)[b.epoch] == Firsts(p.ended)[b.epoch];
  }
}
