/**
  The ordering guarantee of barriers by draining: earlier requests, pre-flush,
  proxy, post-flush, later requests - in every run, whatever the elevator,
  the driver's requeues and the number of queued barriers.
 */
module BarrierOrder {
  import opened Barrier
  import opened BarrierBooks
  import opened BarrierTurns

  predicate Ordinary(r: Rq) { r.kind == Fs && !r.barrier }

  predicate IsProxy(r: Rq) { r.kind == PreFlush || r.kind == Bar || r.kind == PostFlush }

  /** The place of a request in the order that barriers demand; other requests have none. */
  function Rank(r: Rq): int {
    8 * r.epoch + match r.kind
                  case PreFlush => 1
                  case Bar => 2
                  case PostFlush => 3
                  case Fs => if r.barrier then 4 else 0
                  case NonFs => 0
  }

  predicate Before(a: Rq, b: Rq) {
    a.kind == NonFs || b.kind == NonFs || Rank(a) < Rank(b) || (Rank(a) == Rank(b) && Ordinary(a) && Ordinary(b))
  }

  predicate Sorted(list: seq<Entry>) {
    forall i, j :: 0 <= i < j < |list| ==> Before(list[i].rq, list[j].rq)
  }

  function Phase(r: Rq): nat
    requires IsProxy(r)
  {
    if r.kind == PreFlush then PREFLUSH else if r.kind == Bar then BAR else POSTFLUSH
  }

  /** What the dispatch list may hold. */
  predicate Listed(q: Queue, e: Entry) {
    var r := e.rq;
    if r.kind == NonFs then e.stop
    else if IsProxy(r) then e.stop && Active(q) && r.epoch == q.begun - 1
    else
      && r.color == Odd(r.epoch) && r.epoch <= q.barriers
      && if r.barrier then e.stop && q.begun <= r.epoch < q.barriers
         else r.epoch < q.begun ==> Active(q) && r.epoch == q.begun - 1 && !q.ordseq.drain && e.stop
  }

  /** What the driver may hold. */
  predicate Held(q: Queue, r: Rq) {
    if r.kind == NonFs then true
    else if IsProxy(r) then Active(q) && r.epoch == q.begun - 1 && CurSeq(q.ordseq) == Phase(r)
    else
      && !r.barrier && r.color == Odd(r.epoch)
      && if Active(q) then r.epoch == q.begun - 1 && !q.ordseq.drain else r.epoch == q.begun
  }

  predicate Waiting(q: Queue, r: Rq) { Ordinary(r) && r.color == Odd(r.epoch) && r.epoch == q.barriers }

  predicate DrainSet(q: Queue) {
    && DrainMode(q.nextOrdered) && q.begun <= q.barriers
    && (Active(q) ==> !q.ordered.byTag && q.orig.epoch == q.begun - 1 && q.orig.color == Odd(q.orig.epoch))
  }

  /** The invariant of ordering by draining. */
  ghost predicate Flow(q: Queue) {
    && Books(q)
    && Turns(q)
    && DrainSet(q)
    && (forall i :: 0 <= i < |q.elevator| ==> Waiting(q, q.elevator[i]))
    && (forall i :: 0 <= i < |q.list| ==> Listed(q, q.list[i]))
    && Sorted(q.list)
    && (forall i :: 0 <= i < |q.flying| ==> Held(q, q.flying[i]))
  }

  // What the books contribute

  lemma {:induction false} KindAt(rs: seq<Rq>, i: nat)
    requires i < |rs|
    ensures rs[i].kind in Kinds(rs)
  {
    if i > 0 {
      KindAt(rs[1..], i - 1);
    }
  }

  lemma {:induction false} BarrierAt(rs: seq<Rq>, k: nat) returns (i: nat)
    requires k < |Barriers(rs)|
    ensures i < |rs| && rs[i] == Barriers(rs)[k]
  {
    if IsBarrier(rs[0]) && k == 0 {
      i := 0;
    } else {
      var j := BarrierAt(rs[1..], if IsBarrier(rs[0]) then k - 1 else k);
      i := j + 1;
    }
  }

  /** A barrier added but not begun is on the list. */
  lemma QueuedBarrier(q: Queue, e: nat) returns (i: nat)
    requires Books(q) && Turns(q) && q.begun <= e < q.barriers
    ensures i < |q.list| && IsBarrier(q.list[i].rq) && q.list[i].rq.epoch == e
  {
    hide Barriers; hide Kinds;
    var before := Firsts(q.ended) + (if Active(q) then [q.orig] else []);
    var bs := Barriers(Rqs(q.list));
    assert Barriers(q.added)[e] == bs[e - |before|];
    BarrierEpochs(q.added, |q.added|);
    assert q.added[..|q.added|] == q.added;
    i := BarrierAt(Rqs(q.list), e - |before|);
  }

  /** The first ranked entry belongs to the present epoch or to the one being drained. */
  lemma FirstRanked(q: Queue, i: nat)
    requires Flow(q) && i < |q.list| && q.list[i].rq.kind != NonFs
    requires forall j :: 0 <= j < i ==> q.list[j].rq.kind == NonFs
    ensures q.list[i].rq.epoch <= q.begun
  {
    hide Books; hide Turns;
    var r := q.list[i].rq;
    assert Listed(q, q.list[i]);
    if q.begun < q.barriers {
      var k := QueuedBarrier(q, q.begun);
      assert i < k ==> Before(q.list[i].rq, q.list[k].rq);
    }
  }

  /** An open phase is one that the current phase has not passed. */
  lemma OpenPhase(q: Queue, r: Rq)
    requires PhasesTracked(q) && IsProxy(r) && r.kind in Occurrences(q)
    ensures Active(q) && CurSeq(q.ordseq) <= Phase(r)
  {}

  lemma ListedPhase(q: Queue, i: nat)
    requires Flow(q) && i < |q.list| && IsProxy(q.list[i].rq)
    ensures Active(q) && CurSeq(q.ordseq) <= Phase(q.list[i].rq)
  {
    hide Kinds; hide Barriers;
    KindAt(Rqs(q.list), i);
    OpenPhase(q, q.list[i].rq);
  }

  // Every step keeps the order

  lemma InsertSorted(list: seq<Entry>, at: nat, e: Entry)
    requires Sorted(list) && at <= |list|
    requires forall i :: 0 <= i < at ==> Before(list[i].rq, e.rq)
    requires forall i :: at <= i < |list| ==> Before(e.rq, list[i].rq)
    ensures Sorted(Insert(list, at, e))
  {
    var l := Insert(list, at, e);
    forall i, j | 0 <= i < j < |l| ensures Before(l[i].rq, l[j].rq) {
      var i', j' := if i < at then i else i - 1, if j < at then j else j - 1;
      assert i != at ==> l[i] == list[i'];
      assert j != at ==> l[j] == list[j'];
    }
  }

  lemma FlowAdd(q: Queue, t: Template, where: Where)
    requires Flow(q) && CanAdd(q, t, where) && Plain(t)
    ensures Flow(Add(q, t, where))
  {
    hide Insert; hide Books; hide Turns; hide Sorted; hide Before;
    BooksAdd(q, t, where);
    TurnsAdd(q, t, where);
    var q', r := Add(q, t, where), NewRq(q, t);
    var e := Entry(r, true);
    InsertEnds(q.list, e);
    assert q.ordcolor == Odd(q.barriers) by { TurnsColor(q); }
    forall i | 0 <= i < |q.list| ensures Listed(q', q.list[i]) {
      assert Listed(q, q.list[i]);
    }
    forall i | 0 <= i < |q.list| ensures Before(q.list[i].rq, r) {
      NewestLast(q, q.list[i], r);
    }
    if r.kind == NonFs {
      OthersAnywhere(r);
    }
    match EffectiveWhere(t, where)
    case Front => InsertSorted(q.list, 0, e);
    case Back => InsertSorted(q.list, |q.list|, e);
    case Sort =>
      assert forall i :: 0 <= i < |q.elevator| ==> Waiting(q, q.elevator[i]);
  }

  /** A request of the present epoch may stand behind everything on the list. */
  lemma NewestLast(q: Queue, e: Entry, r: Rq)
    requires Listed(q, e) && r.epoch == q.barriers && q.begun <= q.barriers && !IsProxy(r)
    ensures Before(e.rq, r)
  {}

  lemma OthersAnywhere(r: Rq)
    requires r.kind == NonFs
    ensures forall x :: Before(r, x) && Before(x, r)
  {}

  lemma TurnsColor(q: Queue)
    requires Turns(q)
    ensures q.ordcolor == Odd(q.barriers)
  {}

  /** Nothing older stands behind the last stop entry. */
  lemma SuffixIsNew(q: Queue, at: nat, j: nat)
    requires Flow(q) && at <= j < |q.list| && q.list[j].rq.kind != NonFs
    requires forall k :: at <= k < |q.list| ==> !q.list[k].stop
    ensures Ordinary(q.list[j].rq) && q.list[j].rq.epoch == q.barriers
  {
    hide Books; hide Turns;
    var x := q.list[j].rq;
    assert Listed(q, q.list[j]);
    if x.epoch < q.barriers {
      var k := QueuedBarrier(q, x.epoch);
      assert k < j ==> Before(q.list[k].rq, x);
      BarrierStops(q, k);
    }
  }

  lemma BarrierStops(q: Queue, k: nat)
    requires Flow(q) && k < |q.list| && IsBarrier(q.list[k].rq)
    ensures q.list[k].stop
  {
    hide Books; hide Turns;
    assert Listed(q, q.list[k]);
  }

  lemma FlowDispatch(q: Queue, i: nat, sorted: bool, boundary: nat)
    requires Flow(q) && i < |q.elevator|
    ensures Flow(Dispatch(q, i, sorted, boundary))
  {
    hide Books; hide Turns; hide SortPos; hide Sorted;
    BooksDispatch(q, i, sorted, boundary);
    TurnsOther(q, OpDispatch(i, sorted, boundary));
    var r := q.elevator[i];
    var e := Entry(r, false);
    var at := if sorted then SortPos(q.list, r, boundary, |q.list|) else |q.list|;
    assert at <= |q.list| && forall k :: at <= k < |q.list| ==> !q.list[k].stop by {
      SortPosStops(q.list, r, boundary);
    }
    assert Waiting(q, r);
    forall j | 0 <= j < at ensures Before(q.list[j].rq, r) {
      NewestLast(q, q.list[j], r);
    }
    forall j | at <= j < |q.list| ensures Before(r, q.list[j].rq) {
      if q.list[j].rq.kind != NonFs {
        SuffixIsNew(q, at, j);
      }
    }
    InsertSorted(q.list, at, e);
    var q' := Dispatch(q, i, sorted, boundary);
    forall j | 0 <= j < |q'.list| ensures Listed(q', q'.list[j]) {
      assert j < at ==> q'.list[j] == q.list[j];
      assert j > at ==> q'.list[j] == q.list[j - 1];
    }
  }

  lemma SortPosStops(list: seq<Entry>, r: Rq, boundary: nat)
    ensures var at := SortPos(list, r, boundary, |list|);
            at <= |list| && forall k :: at <= k < |list| ==> !list[k].stop
  {}

  lemma FlowStart(q: Queue)
    requires Flow(q) && q.list != [] && !IsBarrier(q.list[0].rq) && Held(q, q.list[0].rq)
    ensures Flow(Start(q))
  {
    hide Books; hide Turns; hide Before;
    BooksStart(q);
    TurnsStart(q);
    var q' := Start(q);
    assert forall i :: 0 <= i < |q'.list| ==> q'.list[i] == q.list[i + 1];
  }

  /** A list entry once the phases `o` are complete. */
  predicate ListedFor(q: Queue, o: Phases, e: Entry) {
    Listed(q, e) && (o.drain && Ordinary(e.rq) ==> q.begun <= e.rq.epoch)
  }

  /** A request at the driver once the phases `o` are complete: no proxy, and nothing to drain when draining is over. */
  predicate HeldFor(q: Queue, o: Phases, r: Rq) {
    Held(q, r) && !IsProxy(r) && (o.drain ==> r.kind == NonFs)
  }

  lemma CompleteSeqFlow(q: Queue, bits: Phases, error: int)
    requires Active(q) && DrainSet(q) && Books(CompleteSeq(q, bits, error)) && Turns(CompleteSeq(q, bits, error))
    requires forall i :: 0 <= i < |q.elevator| ==> Waiting(q, q.elevator[i])
    requires forall i :: 0 <= i < |q.list| ==> ListedFor(q, Union(q.ordseq, bits), q.list[i])
    requires Sorted(q.list)
    requires forall i :: 0 <= i < |q.flying| ==> HeldFor(q, Union(q.ordseq, bits), q.flying[i])
    ensures Flow(CompleteSeq(q, bits, error))
  {
    hide Books; hide Turns; hide Before;
    var q', o := CompleteSeq(q, bits, error), Union(q.ordseq, bits);
    forall i | 0 <= i < |q.list| ensures Listed(q', q.list[i]) {
      assert ListedFor(q, o, q.list[i]);
      if !Active(q') && IsProxy(q.list[i].rq) {
        NoProxyIdle(q', i);
      }
    }
    forall i | 0 <= i < |q.flying| ensures Held(q', q.flying[i]) {
      assert HeldFor(q, o, q.flying[i]);
    }
  }

  lemma NoProxyIdle(q: Queue, i: nat)
    requires Books(q) && !Active(q) && i < |q.list|
    ensures !IsProxy(q.list[i].rq)
  {
    hide Kinds; hide Barriers;
    KindAt(Rqs(q.list), i);
  }

  /** Nothing of the file system is at the driver when the in-flight count is zero. */
  lemma NothingInFlight(q: Queue, i: nat)
    requires CountKept(q) && q.inFlight == 0 && i < |q.flying|
    ensures q.flying[i].kind != Fs && q.flying[i].kind != Bar
  {
    hide Kinds;
    KindAt(q.flying, i);
  }

  lemma BooksCount(q: Queue)
    requires Books(q)
    ensures CountKept(q)
  {}

  lemma FlowStartOrdered(q: Queue)
    requires Flow(q) && !Active(q) && q.list != [] && IsBarrier(q.list[0].rq)
    ensures Flow(StartOrdered(q).0)
  {
    hide Kinds; hide Barriers; hide Books; hide Turns; hide Proxies; hide CompleteSeq;
    BooksStartOrdered(q);
    TurnsDoOrdered(q);
    assert DoOrdered(q) == StartOrdered(q);
    NextBarrierColor(q);
    var orig := q.list[0].rq;
    var o := EffectiveOrdered(q.nextOrdered, orig.sectors);
    var skip := Skip(o, q.inFlight);
    var p := Begin(q);
    StartList(q, p, o, Union(p.ordseq, skip));
    assert Listed(q, q.list[0]);
    BooksCount(q);
    forall i | 0 <= i < |p.flying| ensures HeldFor(p, Union(p.ordseq, skip), p.flying[i]) {
      assert Held(q, q.flying[i]);
      if q.inFlight == 0 {
        NothingInFlight(q, i);
      }
    }
    CompleteSeqFlow(p, skip, 0);
  }

  lemma ProxiesInOrder(o: Ordered, orig: Rq)
    ensures var ps := Proxies(o, orig);
            && (forall i :: 0 <= i < |ps| ==> IsProxy(ps[i].rq) && ps[i].stop && ps[i].rq.epoch == orig.epoch)
            && Sorted(ps)
  {}

  /** Behind the barrier at the head there are only later requests. */
  lemma BehindBarrier(q: Queue, j: nat)
    requires Flow(q) && !Active(q) && 0 < j < |q.list| && IsBarrier(q.list[0].rq) && q.list[0].rq.epoch == q.begun
    ensures var r := q.list[j].rq;
            r.kind == NonFs || (!IsProxy(r) && r.epoch > q.begun)
  {
    hide Books; hide Turns;
    assert Listed(q, q.list[j]) && Before(q.list[0].rq, q.list[j].rq);
  }

  /** The proxies stand in front of everything that was behind the barrier. */
  lemma StartList(q: Queue, p: Queue, o: Ordered, x: Phases)
    requires Flow(q) && !Active(q) && q.list != [] && IsBarrier(q.list[0].rq) && q.list[0].rq.epoch == q.begun
    requires p.list == Proxies(o, q.list[0].rq) + q.list[1..]
    requires Active(p) && p.begun == q.begun + 1 && p.barriers == q.barriers
    ensures Sorted(p.list)
    ensures forall i :: 0 <= i < |p.list| ==> ListedFor(p, x, p.list[i])
  {
    hide Books; hide Turns; hide Proxies; hide Rank;
    var ps := Proxies(o, q.list[0].rq);
    ProxiesInOrder(o, q.list[0].rq);
    forall i | 0 <= i < |p.list| ensures ListedFor(p, x, p.list[i]) {
      if |ps| <= i {
        var j := i - |ps| + 1;
        assert p.list[i] == q.list[j] && Listed(q, q.list[j]);
        BehindBarrier(q, j);
      } else {
        assert p.list[i] == ps[i];
      }
    }
    forall i, j | 0 <= i < j < |p.list| ensures Before(p.list[i].rq, p.list[j].rq) {
      if |ps| <= i {
        assert p.list[i] == q.list[i - |ps| + 1] && p.list[j] == q.list[j - |ps| + 1];
      } else if |ps| <= j {
        assert p.list[i] == ps[i] && p.list[j] == q.list[j - |ps| + 1];
        BehindBarrier(q, j - |ps| + 1);
        LaterEpoch(p.list[i].rq, p.list[j].rq);
      } else {
        assert p.list[i] == ps[i] && p.list[j] == ps[j];
      }
    }
  }

  lemma LaterEpoch(a: Rq, b: Rq)
    requires b.kind == NonFs || a.epoch < b.epoch
    ensures Before(a, b)
  {}

  /** What blk_do_ordered lets through is what the driver may hold now; it never finds a request that is too late. */
  lemma FlowDoOrdered(q: Queue)
    requires Flow(q) && q.list != []
    ensures var (q', v) := DoOrdered(q);
            && Flow(q')
            && (v == Give ==> Held(q', q'.list[0].rq) && !IsBarrier(q'.list[0].rq))
    ensures Active(q) && q.list[0].rq.kind != NonFs ==> CurSeq(q.ordseq) <= ReqSeq(q.orig, q.list[0].rq)
  {
    hide Books; hide Turns; hide StartOrdered; hide Before;
    var r := q.list[0].rq;
    assert Listed(q, q.list[0]);
    assert q.nextOrdered != ORDERED_NONE;
    BooksDoOrdered(q);
    TurnsDoOrdered(q);
    if Active(q) {
      BooksCur(q);
    }
    if IsBarrier(r) {
      NextBarrierColor(q);
      if !Active(q) {
        FlowStartOrdered(q);
        StartGivesProxy(q);
      }
    } else if r.kind == Fs {
      FirstRanked(q, 0);
    } else if IsProxy(r) {
      ListedPhase(q, 0);
    }
  }

  lemma BooksCur(q: Queue)
    requires Books(q) && Active(q)
    ensures q.ordseq.started && CurSeq(q.ordseq) < DONE
  {}

  /** The proxy that start_ordered returns is the one whose phase is current. */
  lemma StartGivesProxy(q: Queue)
    requires Flow(q) && !Active(q) && q.list != [] && IsBarrier(q.list[0].rq)
    ensures var (q', v) := StartOrdered(q);
            v == Give ==> q'.list != [] && Held(q', q'.list[0].rq)
  {
    hide Books; hide Turns; hide Sorted; hide Listed;
    NextBarrierColor(q);
  }

  lemma {:induction false} FlowNext(q: Queue)
    requires Flow(q)
    ensures var (q', s) := Next(q);
            && Flow(q')
            && (s == Ready ==> q'.list != [] && Held(q', q'.list[0].rq) && !IsBarrier(q'.list[0].rq))
    decreases |q.list|
  {
    hide Flow; hide DoOrdered; hide IsBarrier; hide Held;
    if q.list != [] {
      FlowDoOrdered(q);
      var (q', v) := DoOrdered(q);
      DoOrderedShrinks(q);
      if v == Gone {
        FlowNext(q');
      }
    }
  }

  lemma FlowFetch(q: Queue)
    requires Flow(q)
    ensures Flow(Fetch(q).0)
    ensures Fetch(q).1.Some? ==> Held(Next(q).0, Fetch(q).1.value) && !IsBarrier(Fetch(q).1.value)
  {
    hide Flow; hide Next; hide IsBarrier; hide Start; hide Held;
    FlowNext(q);
    var (q', s) := Next(q);
    if s == Ready {
      FlowStart(q');
    }
  }

  lemma FlowPeek(q: Queue)
    requires Flow(q)
    ensures Flow(Peek(q))
  {
    hide Flow; hide Next;
    FlowNext(q);
    if Next(q).1 == Ready {
      NextReady(q);
      FlowMark(Next(q).0);
    }
  }

  lemma FlowMark(q: Queue)
    requires Flow(q) && q.list != []
    ensures Flow(q.(list := [Entry(q.list[0].rq, true)] + q.list[1..]))
  {
    hide Books; hide Turns; hide Before;
    BooksMark(q);
    TurnsMark(q);
    var list := [Entry(q.list[0].rq, true)] + q.list[1..];
    forall i | 0 <= i < |list| ensures Listed(q.(list := list), list[i]) {
      assert Listed(q, q.list[i]);
    }
  }

  lemma FlowSetOrdered(q: Queue, mode: Ordered)
    requires Flow(q) && DrainMode(mode)
    ensures Flow(SetOrdered(q, mode))
  {
    BooksSetOrdered(q, mode);
    TurnsSame(q, SetOrdered(q, mode));
  }

  lemma FlowBarProgress(q: Queue, error: int)
    requires Flow(q)
    ensures Flow(BarProgress(q, error))
  {
    hide Books; hide Turns; hide Before;
    BooksBarProgress(q, error);
    TurnsSame(q, BarProgress(q, error));
  }

  lemma FlowRequeue(q: Queue, i: nat)
    requires Flow(q) && i < |q.flying|
    ensures Flow(Requeue(q, i))
  {
    hide Books; hide Turns; hide RequeuePos; hide Sorted;
    BooksRequeue(q, i);
    TurnsOther(q, OpRequeue(i));
    var q', r := Requeue(q, i), q.flying[i];
    var e := Entry(r, true);
    var at := if !Active(q) then 0 else RequeuePos(q.orig, q.list, ReqSeq(q.orig, r), 0);
    assert Held(q, r);
    RequeueBounds(q, i);
    InsertSorted(q.list, at, e);
    forall j | 0 <= j < |q'.list| ensures Listed(q', q'.list[j]) {
      assert j < at ==> q'.list[j] == q.list[j];
      assert j > at ==> q'.list[j] == q.list[j - 1];
    }
    forall j | 0 <= j < |q'.flying| ensures Held(q', q'.flying[j]) {
      assert q'.flying[j] == q.flying[if j < i then j else j + 1];
    }
  }

  /** A proxy is not on the list while the driver holds it. */
  lemma NotBoth(q: Queue, i: nat, j: nat)
    requires PhasesTracked(q) && i < |q.flying| && j < |q.list| && IsProxy(q.flying[i])
    ensures q.flying[i].kind != q.list[j].rq.kind
  {
    hide Kinds;
    KindAt(q.flying, i);
    KindAt(Rqs(q.list), j);
  }

  lemma BooksPhases(q: Queue)
    requires Books(q)
    ensures PhasesTracked(q)
  {}

  /** While the driver holds the proxy of the current phase, a ranked entry belongs to a later phase. */
  lemma BehindProxy(q: Queue, i: nat, j: nat)
    requires Flow(q) && i < |q.flying| && IsProxy(q.flying[i]) && j < |q.list|
    ensures Before(q.flying[i], q.list[j].rq)
  {
    hide Books; hide Turns; hide Sorted;
    assert Held(q, q.flying[i]) && Listed(q, q.list[j]);
    if IsProxy(q.list[j].rq) {
      BooksPhases(q);
      NotBoth(q, i, j);
      ListedPhase(q, j);
    }
  }

  /** Scanning for its place, a requeued proxy passes only requests that have no place in the order. */
  lemma {:induction false} PassedByProxy(q: Queue, i: nat, at: nat, j: nat)
    requires Flow(q) && i < |q.flying| && IsProxy(q.flying[i]) && j < at <= |q.list|
    requires forall k :: 0 <= k < at ==> ReqSeq(q.orig, q.list[k].rq) < Phase(q.flying[i])
    ensures q.list[j].rq.kind == NonFs
    decreases j
  {
    hide Books; hide Turns; hide Sorted; hide Before;
    forall k | 0 <= k < j ensures q.list[k].rq.kind == NonFs {
      PassedByProxy(q, i, at, k);
    }
    assert Held(q, q.flying[i]) && Listed(q, q.list[j]) && ReqSeq(q.orig, q.list[j].rq) < Phase(q.flying[i]);
    if q.list[j].rq.kind == Fs {
      FirstRanked(q, j);
    } else if IsProxy(q.list[j].rq) {
      ListedPhase(q, j);
    }
  }

  /** Only requests without a place in the order stand in front of a requeued one. */
  lemma RequeueBounds(q: Queue, i: nat)
    requires Flow(q) && i < |q.flying|
    ensures var r := q.flying[i];
            var at := if !Active(q) then 0 else RequeuePos(q.orig, q.list, ReqSeq(q.orig, r), 0);
            && at <= |q.list|
            && (forall j :: 0 <= j < at ==> Before(q.list[j].rq, r))
            && (forall j :: at <= j < |q.list| ==> Before(r, q.list[j].rq))
  {
    hide Books; hide Turns; hide RequeuePos; hide Sorted;
    var r := q.flying[i];
    assert Held(q, r);
    if Active(q) {
      RequeueStops(q.orig, q.list, ReqSeq(q.orig, r));
    }
    var at := if !Active(q) then 0 else RequeuePos(q.orig, q.list, ReqSeq(q.orig, r), 0);
    if IsProxy(r) {
      forall j | 0 <= j < at ensures Before(q.list[j].rq, r) {
        PassedByProxy(q, i, at, j);
      }
      forall j | at <= j < |q.list| ensures Before(r, q.list[j].rq) {
        BehindProxy(q, i, j);
      }
    } else if r.kind == Fs {
      RequeueFront(q.orig, q.list);
      forall j | at <= j < |q.list| ensures Before(r, q.list[j].rq) {
        assert Listed(q, q.list[j]);
      }
    }
  }

  lemma RequeueFront(orig: Rq, list: seq<Entry>)
    ensures RequeuePos(orig, list, DRAIN, 0) == 0
  {}

  lemma RequeueStops(orig: Rq, list: seq<Entry>, s: nat)
    ensures var at := RequeuePos(orig, list, s, 0);
            at <= |list| && forall j :: 0 <= j < at ==> ReqSeq(orig, list[j].rq) < s
  {}

  /** The draining phase ends only when nothing of the drained epoch is left on the list. */
  lemma DrainedList(q: Queue, j: nat)
    requires Flow(q) && Active(q) && j < |q.list| && ReqSeq(q.orig, q.list[0].rq) > DRAIN
    ensures Ordinary(q.list[j].rq) ==> q.begun <= q.list[j].rq.epoch
  {
    hide Books; hide Turns;
    assert Listed(q, q.list[0]) && Listed(q, q.list[j]);
    assert j > 0 ==> Before(q.list[0].rq, q.list[j].rq);
  }

  lemma FlowCompleteRequest(q: Queue, i: nat, error: int)
    requires Flow(q) && i < |q.flying| && (q.flying[i].kind == Fs || q.flying[i].kind == NonFs)
    ensures Flow(Complete(q, i, error))
  {
    hide Books; hide Turns; hide CompleteSeq; hide Sorted; hide DrainEnds; hide OccurAs; hide OneSequence;
    hide ErrorKept; hide CountKept; hide PhasesTracked; hide ValidMode; hide Listed;
    BooksComplete(q, i, error);
    TurnsComplete(q, i, error);
    var r := q.flying[i];
    var p := Left(q, i).(completed := q.completed + {r});
    LeftHeld(q, i, p);
    if DrainEnds(p) {
      FlowDrained(q, i, p);
    } else {
      forall j | 0 <= j < |p.list| ensures Listed(p, p.list[j]) { ListedSame(q, p, q.list[j]); }
    }
  }

  lemma ListedSame(q: Queue, p: Queue, e: Entry)
    requires Listed(q, e) && p.begun == q.begun && p.barriers == q.barriers && p.ordseq == q.ordseq
    ensures Listed(p, e)
  {}

  lemma LeftHeld(q: Queue, i: nat, p: Queue)
    requires Flow(q) && i < |q.flying| && p == Left(q, i).(completed := p.completed)
    ensures forall j :: 0 <= j < |p.flying| ==> Held(p, p.flying[j])
  {
    hide Books; hide Turns; hide Sorted; hide Listed;
    forall j | 0 <= j < |p.flying| ensures Held(p, p.flying[j]) {
      assert p.flying[j] == q.flying[if j < i then j else j + 1];
      assert Held(q, p.flying[j]);
    }
  }

  /** The request that leaves was the last one in flight. */
  lemma FlowDrained(q: Queue, i: nat, p: Queue)
    requires Flow(q) && i < |q.flying| && (q.flying[i].kind == Fs || q.flying[i].kind == NonFs)
    requires p == Left(q, i).(completed := p.completed) && DrainEnds(p)
    requires Books(CompleteSeq(p, DRAIN_BIT, 0)) && Turns(CompleteSeq(p, DRAIN_BIT, 0))
    ensures Flow(CompleteSeq(p, DRAIN_BIT, 0))
  {
    hide Books; hide Turns; hide CompleteSeq; hide Sorted; hide Occurrences; hide CountKept; hide OneSequence;
    hide ErrorKept; hide ValidMode;
    LeftBooks(q, i);
    LeftHeld(q, i, p);
    forall j | 0 <= j < |p.list| ensures ListedFor(p, Union(p.ordseq, DRAIN_BIT), p.list[j]) {
      DrainedList(q, j);
      assert Listed(q, q.list[j]);
    }
    forall j | 0 <= j < |p.flying| ensures HeldFor(p, Union(p.ordseq, DRAIN_BIT), p.flying[j]) {
      NothingInFlight(Left(q, i), j);
    }
    CompleteSeqFlow(p, DRAIN_BIT, 0);
  }

  lemma FlowCompleteProxy(q: Queue, i: nat, error: int)
    requires Flow(q) && i < |q.flying| && IsProxy(q.flying[i])
    ensures Flow(Complete(q, i, error))
  {
    hide Books; hide Turns; hide CompleteSeq; hide Sorted;
    BooksComplete(q, i, error);
    TurnsComplete(q, i, error);
    var r := q.flying[i];
    assert Held(q, r);
    var p := Left(q, i);
    assert Completed(q.(flying := p.flying), r) == p;
    forall j | 0 <= j < |p.list| ensures ListedFor(p, Union(p.ordseq, PhaseBit(r.kind)), p.list[j]) {
      assert Listed(q, q.list[j]);
    }
    forall j | 0 <= j < |p.flying| ensures HeldFor(p, Union(p.ordseq, PhaseBit(r.kind)), p.flying[j]) {
      OnlyProxy(q, i, j);
    }
    CompleteSeqFlow(p, PhaseBit(r.kind), error);
  }

  /** Besides the proxy of the current phase the driver holds nothing that has a place in the order. */
  lemma OnlyProxy(q: Queue, i: nat, j: nat)
    requires Flow(q) && i < |q.flying| && IsProxy(q.flying[i]) && j < |RemoveAt(q.flying, i)|
    ensures RemoveAt(q.flying, i)[j].kind == NonFs
  {
    hide Books; hide Turns; hide Sorted;
    var rest := RemoveAt(q.flying, i);
    var x := q.flying[if j < i then j else j + 1];
    assert rest[j] == x && Held(q, q.flying[i]) && Held(q, x);
    if IsProxy(x) {
      assert x.kind == q.flying[i].kind;
      BooksPhases(q);
      Twice(q, i, j);
    }
  }

  lemma Twice(q: Queue, i: nat, j: nat)
    requires PhasesTracked(q) && i < |q.flying| && IsProxy(q.flying[i]) && j < |RemoveAt(q.flying, i)|
    ensures RemoveAt(q.flying, i)[j].kind != q.flying[i].kind
  {
    hide Kinds;
    RemoveKinds(q.flying, i);
    KindAt(RemoveAt(q.flying, i), j);
  }

  // Runs

  /** The queue goes on ordering by draining, and nothing but requests of the file system is a hard barrier. */
  predicate DrainOp(op: Op) { PlainOp(op) && (op.OpSetOrdered? ==> DrainMode(op.mode)) }

  lemma FlowStep(q: Queue, op: Op)
    requires Flow(q) && Enabled(q, op) && DrainOp(op)
    ensures Flow(Step(q, op))
  {
    hide Flow; hide Add; hide Dispatch; hide Peek; hide Fetch; hide Complete; hide BarProgress;
    hide Requeue; hide SetOrdered;
    match op
    case OpAdd(t, where) => FlowAdd(q, t, where);
    case OpDispatch(i, sorted, boundary) => FlowDispatch(q, i, sorted, boundary);
    case OpPeek => FlowPeek(q);
    case OpFetch => FlowFetch(q);
    case OpComplete(i, error) =>
      if IsProxy(q.flying[i]) {
        FlowCompleteProxy(q, i, error);
      } else {
        FlowCompleteRequest(q, i, error);
      }
    case OpBarProgress(error) => FlowBarProgress(q, error);
    case OpRequeue(i) => FlowRequeue(q, i);
    case OpSetOrdered(mode) => FlowSetOrdered(q, mode);
  }

  lemma FlowInitial(mode: Ordered)
    requires DrainMode(mode)
    ensures Flow(Initial(mode))
  {
    BooksInitial(mode);
    TurnsInitial(mode);
  }

  lemma {:induction false} FlowRuns(q: Queue, ops: seq<Op>, q': Queue)
    requires Flow(q) && Runs(q, ops, q') && forall i :: 0 <= i < |ops| ==> DrainOp(ops[i])
    ensures Flow(q')
    decreases |ops|
  {
    hide Flow; hide Step; hide Enabled; hide DrainOp;
    if ops != [] {
      FlowStep(q, ops[0]);
      FlowRuns(Step(q, ops[0]), ops[1..], q');
    }
  }
}
