/**
  Barriers of the file system are taken in turn, in every run in which nothing else is a hard barrier:
  then the colour of a request is the parity of its epoch, and tells it from the barrier in progress.
 */
module BarrierTurns {
  import opened Barrier
  import opened BarrierBooks

  // Barriers in order

  ghost function Barriers(rs: seq<Rq>): (bs: seq<Rq>)
    ensures |bs| <= |rs|
  {
    if rs == [] then []
    else (if IsBarrier(rs[0]) then [rs[0]] else []) + Barriers(rs[1..])
  }

  lemma {:induction false} BarriersCat(a: seq<Rq>, b: seq<Rq>)
    ensures Barriers(a + b) == Barriers(a) + Barriers(b)
  {
    hide Barriers;
    if a == [] {
      assert a + b == b;
      BarriersNone();
    } else {
      assert a == [a[0]] + a[1..] && a + b == [a[0]] + (a[1..] + b);
      BarriersCons(a[0], a[1..]);
      BarriersCons(a[0], a[1..] + b);
      BarriersCat(a[1..], b);
    }
  }

  lemma BarriersNone()
    ensures Barriers([]) == []
  {}

  lemma BarriersCons(r: Rq, s: seq<Rq>)
    ensures Barriers([r] + s) == if IsBarrier(r) then [r] + Barriers(s) else Barriers(s)
  {
    assert ([r] + s)[1..] == s;
  }

  lemma BarriersOne(r: Rq)
    ensures Barriers([r]) == if IsBarrier(r) then [r] else []
  {}

  lemma BarriersSplice(a: seq<Rq>, r: Rq, b: seq<Rq>)
    requires !IsBarrier(r)
    ensures Barriers(a + [r] + b) == Barriers(a + b)
  {
    hide Barriers;
    BarriersCat(a + [r], b);
    BarriersCat(a, [r]);
    BarriersCat(a, b);
    BarriersOne(r);
  }

  ghost function Firsts(ended: seq<(Rq, int)>): seq<Rq> {
    seq(|ended|, i requires 0 <= i < |ended| => ended[i].0)
  }

  // The barriers on the dispatch list

  lemma BarriersInsert(list: seq<Entry>, at: nat, e: Entry)
    requires at <= |list| && !IsBarrier(e.rq)
    ensures Barriers(Rqs(Insert(list, at, e))) == Barriers(Rqs(list))
  {
    hide Barriers;
    var a, b := Rqs(list)[..at], Rqs(list)[at..];
    assert Rqs(Insert(list, at, e)) == a + [e.rq] + b;
    assert Rqs(list) == a + b;
    BarriersSplice(a, e.rq, b);
  }

  lemma BarriersHead(list: seq<Entry>)
    requires list != []
    ensures Barriers(Rqs(list)) == (if IsBarrier(list[0].rq) then [list[0].rq] else []) + Barriers(Rqs(list[1..]))
  {
    hide Barriers;
    assert Rqs(list) == [list[0].rq] + Rqs(list[1..]);
    BarriersCons(list[0].rq, Rqs(list[1..]));
  }

  lemma {:induction false} BarriersBehind(a: seq<Entry>, b: seq<Entry>)
    requires forall i :: 0 <= i < |a| ==> !IsBarrier(a[i].rq)
    ensures Barriers(Rqs(a + b)) == Barriers(Rqs(b))
  {
    hide Barriers;
    if a == [] {
      assert a + b == b;
    } else {
      assert (a + b)[1..] == a[1..] + b;
      BarriersHead(a + b);
      BarriersBehind(a[1..], b);
    }
  }

  // The invariant

  /** The barriers added so far are those ended, the one in progress and those on the list, in this order. */
  ghost predicate BarriersInOrder(q: Queue) {
    && Firsts(q.ended) + (if Active(q) then [q.orig] else []) + Barriers(Rqs(q.list)) == Barriers(q.added)
    && (forall i :: 0 <= i < |q.flying| ==> !IsBarrier(q.flying[i]))
  }

  /** Every request knows how many barriers were added before it, and the colour is the parity of that number. */
  ghost predicate Logged(q: Queue) {
    && (forall i :: 0 <= i < |q.added| ==> LoggedAt(q.added, i))
    && q.barriers == |Barriers(q.added)|
    && q.ordcolor == Odd(q.barriers)
  }

  ghost predicate LoggedAt(added: seq<Rq>, i: nat)
    requires i < |added|
  {
    var r := added[i];
    r.id == i && r.epoch == |Barriers(added[..i])| && r.color == Odd(r.epoch) && (r.kind == Fs || r.kind == NonFs)
  }

  ghost predicate Turns(q: Queue) { BarriersInOrder(q) && Logged(q) }

  lemma {:induction false} BarrierEpochs(added: seq<Rq>, n: nat)
    requires n <= |added| && forall i :: 0 <= i < |added| ==> LoggedAt(added, i)
    ensures var bs := Barriers(added[..n]);
      forall k :: 0 <= k < |bs| ==> bs[k].epoch == k && bs[k].color == Odd(k) && IsBarrier(bs[k])
    decreases n
  {
    if n > 0 {
      BarrierEpochs(added, n - 1);
      assert added[..n] == added[..n - 1] + [added[n - 1]];
      BarriersCat(added[..n - 1], [added[n - 1]]);
      assert LoggedAt(added, n - 1);
    }
  }

  // Every step keeps the turns

  /** The request is no hard barrier, or one of the file system. */
  predicate Plain(t: Template) { t.barrier ==> t.kind == Fs }

  predicate PlainOp(op: Op) { op.OpAdd? ==> Plain(op.t) }

  lemma TurnsInitial(mode: Ordered)
    ensures Turns(Initial(mode))
  {}

  lemma LogGrows(added: seq<Rq>, r: Rq)
    requires forall i :: 0 <= i < |added| ==> LoggedAt(added, i)
    requires r.id == |added| && r.epoch == |Barriers(added)| && r.color == Odd(r.epoch)
    requires r.kind == Fs || r.kind == NonFs
    ensures forall i :: 0 <= i < |added| + 1 ==> LoggedAt(added + [r], i)
    ensures |Barriers(added + [r])| == |Barriers(added)| + (if IsBarrier(r) then 1 else 0)
  {
    hide Barriers;
    BarriersCat(added, [r]);
    BarriersOne(r);
    forall i | 0 <= i < |added| + 1 ensures LoggedAt(added + [r], i) {
      if i < |added| {
        assert LoggedAt(added, i);
        assert (added + [r])[..i] == added[..i];
      } else {
        assert (added + [r])[..i] == added;
      }
    }
  }

  lemma LoggedSame(q: Queue, q': Queue)
    requires Logged(q) && q'.added == q.added && q'.barriers == q.barriers && q'.ordcolor == q.ordcolor
    ensures Logged(q')
  {
    hide Barriers; hide LoggedAt;
  }

  lemma TurnsAdd(q: Queue, t: Template, where: Where)
    requires Turns(q) && CanAdd(q, t, where) && Plain(t)
    ensures Turns(Add(q, t, where))
  {
    hide Barriers; hide LoggedAt; hide BarriersInOrder;
    var r := NewRq(q, t);
    LogGrows(q.added, r);
    InOrderAdd(q, t, where);
  }

  // The order of barriers does not depend on what else is a hard barrier, but for the colour.

  lemma InOrderAdd(q: Queue, t: Template, where: Where)
    requires BarriersInOrder(q) && CanAdd(q, t, where)
    ensures BarriersInOrder(Add(q, t, where))
  {
    hide Barriers; hide Insert; hide Rqs;
    var q', r := Add(q, t, where), NewRq(q, t);
    BarriersCat(q.added, [r]);
    BarriersOne(r);
    InsertEnds(q.list, Entry(r, true));
    match EffectiveWhere(t, where)
    case Front => BarriersInsert(q.list, 0, Entry(r, true));
    case Back => InOrderAddBack(q, q', r);
    case Sort =>
  }

  lemma InOrderAddBack(q: Queue, q': Queue, r: Rq)
    requires BarriersInOrder(q) && q'.list == q.list + [Entry(r, true)] && q'.added == q.added + [r]
    requires q'.ended == q.ended && q'.ordseq == q.ordseq && q'.orig == q.orig && q'.flying == q.flying
    ensures BarriersInOrder(q')
  {
    hide Barriers;
    assert Rqs(q'.list) == Rqs(q.list) + [r];
    BarriersCat(Rqs(q.list), [r]);
    BarriersCat(q.added, [r]);
    var before := Firsts(q.ended) + (if Active(q) then [q.orig] else []);
    assert before + (Barriers(Rqs(q.list)) + Barriers([r])) == before + Barriers(Rqs(q.list)) + Barriers([r]);
  }

  lemma InOrderDispatch(q: Queue, i: nat, sorted: bool, boundary: nat)
    requires BarriersInOrder(q) && i < |q.elevator| && !q.elevator[i].barrier
    ensures BarriersInOrder(Dispatch(q, i, sorted, boundary))
  {
    hide Barriers; hide Insert; hide Rqs;
    var r := q.elevator[i];
    var at := if sorted then SortPos(q.list, r, boundary, |q.list|) else |q.list|;
    BarriersInsert(q.list, at, Entry(r, false));
  }

  lemma InOrderCompleteSeq(q: Queue, bits: Phases, error: int)
    requires BarriersInOrder(q) && Active(q) && q.ordseq.started
    ensures BarriersInOrder(CompleteSeq(q, bits, error))
  {
    hide Barriers; hide Rqs;
    var q' := CompleteSeq(q, bits, error);
    if !Active(q') {
      assert Firsts(q'.ended) == Firsts(q.ended) + [q.orig];
    }
  }

  lemma InOrderStartOrdered(q: Queue)
    requires BarriersInOrder(q) && !Active(q) && q.list != [] && IsBarrier(q.list[0].rq)
    ensures BarriersInOrder(StartOrdered(q).0)
    ensures StartOrdered(q).1 == Give ==> !IsBarrier(StartOrdered(q).0.list[0].rq)
  {
    hide Barriers; hide Rqs;
    var orig := q.list[0].rq;
    var o := EffectiveOrdered(q.nextOrdered, orig.sectors);
    BarriersHead(q.list);
    BarriersBehind(Proxies(o, orig), q.list[1..]);
    var p := Begin(q);
    assert Firsts(p.ended) + [orig] + Barriers(Rqs(p.list)) == Firsts(q.ended) + [] + Barriers(Rqs(q.list));
    InOrderCompleteSeq(p, Skip(o, q.inFlight), 0);
  }

  /** A barrier on a queue without ordering ends at once. */
  lemma InOrderRefuse(q: Queue)
    requires BarriersInOrder(q) && q.list != [] && IsBarrier(q.list[0].rq) && !Active(q)
    ensures var r := q.list[0].rq;
            BarriersInOrder(q.(list := q.list[1..], completed := q.completed + {r}, begun := q.begun + 1,
                               ended := q.ended + [(r, -EOPNOTSUPP)]))
  {
    hide Barriers;
    var r := q.list[0].rq;
    BarriersHead(q.list);
    assert Firsts(q.ended + [(r, -EOPNOTSUPP)]) == Firsts(q.ended) + [r];
    var rest := Barriers(Rqs(q.list[1..]));
    assert Firsts(q.ended) + [r] + [] + rest == Firsts(q.ended) + [] + ([r] + rest);
  }

  lemma InOrderIdle(q: Queue)
    requires Books(q) && BarriersInOrder(q) && !Active(q) && q.list != []
    ensures var (q', v) := DoOrdered(q);
            BarriersInOrder(q') && (v == Give ==> !IsBarrier(q'.list[0].rq))
  {
    hide BarriersInOrder; hide StartOrdered; hide Books;
    IdleHead(q);
    if IsBarrier(q.list[0].rq) {
      if q.nextOrdered != ORDERED_NONE {
        InOrderStartOrdered(q);
      } else {
        InOrderRefuse(q);
      }
    }
  }

  lemma InOrderStart(q: Queue)
    requires BarriersInOrder(q) && q.list != [] && !IsBarrier(q.list[0].rq)
    ensures BarriersInOrder(Start(q))
  {
    hide Barriers; hide Rqs;
    BarriersHead(q.list);
  }

  lemma InOrderMark(q: Queue)
    requires BarriersInOrder(q) && q.list != []
    ensures BarriersInOrder(q.(list := [Entry(q.list[0].rq, true)] + q.list[1..]))
  {
    hide Barriers;
    assert Rqs([Entry(q.list[0].rq, true)] + q.list[1..]) == Rqs(q.list);
  }

  lemma InOrderRequeue(q: Queue, i: nat)
    requires BarriersInOrder(q) && i < |q.flying|
    ensures BarriersInOrder(Requeue(q, i))
  {
    hide Barriers; hide Insert; hide Rqs;
    var r := q.flying[i];
    var at := if !Active(q) then 0 else RequeuePos(q.orig, q.list, ReqSeq(q.orig, r), 0);
    BarriersInsert(q.list, at, Entry(r, true));
  }

  lemma InOrderComplete(q: Queue, i: nat, error: int)
    requires Books(q) && BarriersInOrder(q) && i < |q.flying|
    ensures BarriersInOrder(Complete(q, i, error))
  {
    hide BarriersInOrder; hide CompleteSeq; hide DrainEnds; hide Books;
    var r := q.flying[i];
    var p := Left(q, i).(completed := if r.kind == Fs || r.kind == NonFs then q.completed + {r} else q.completed);
    InOrderLeft(q, i, p);
    if DrainEnds(p) { InOrderDrained(p); }
    if r.kind != Fs && r.kind != NonFs {
      ProxyCompletes(q, i);
      InOrderCompleteSeq(Completed(q.(flying := RemoveAt(q.flying, i)), r), PhaseBit(r.kind), error);
    }
  }

  lemma InOrderLeft(q: Queue, i: nat, p: Queue)
    requires BarriersInOrder(q) && i < |q.flying| && p == Left(q, i).(completed := p.completed)
    ensures BarriersInOrder(p)
  {
    hide Barriers; hide Rqs;
  }

  lemma InOrderDrained(q: Queue)
    requires BarriersInOrder(q) && DrainEnds(q)
    ensures BarriersInOrder(CompleteSeq(q, DRAIN_BIT, 0))
  {
    hide BarriersInOrder; hide CompleteSeq;
    InOrderCompleteSeq(q, DRAIN_BIT, 0);
  }

  lemma InOrderSame(q: Queue, p: Queue)
    requires BarriersInOrder(q)
    requires p == q.(orderr := p.orderr, errors := p.errors, ordered := p.ordered, nextOrdered := p.nextOrdered)
    ensures BarriersInOrder(p)
  {
    hide Barriers; hide Rqs;
  }

  // The colour

  /** The next barrier on the list has the other colour. */
  lemma NextBarrierColor(q: Queue)
    requires Books(q) && Turns(q) && q.list != [] && IsBarrier(q.list[0].rq)
    ensures q.list[0].rq.epoch == q.begun && q.list[0].rq.color == Odd(q.begun)
    ensures Active(q) ==> q.orig.epoch == q.begun - 1 && q.orig.color == Odd(q.begun - 1)
  {
    hide Barriers; hide PhasesTracked; hide CountKept; hide ErrorKept;
    BarriersHead(q.list);
    var before := Firsts(q.ended) + (if Active(q) then [q.orig] else []);
    var all := Barriers(q.added);
    assert all[|before|] == q.list[0].rq;
    assert Active(q) ==> all[|q.ended|] == q.orig;
    BarrierEpochs(q.added, |q.added|);
    assert q.added[..|q.added|] == q.added;
  }

  lemma TurnsDoOrdered(q: Queue)
    requires Books(q) && Turns(q) && q.list != []
    ensures var (q', v) := DoOrdered(q);
            Turns(q') && (v == Give ==> !IsBarrier(q'.list[0].rq))
  {
    hide BarriersInOrder; hide Logged; hide StartOrdered; hide Occurrences; hide CountKept; hide ErrorKept;
    if !Active(q) {
      InOrderIdle(q);
    } else if IsBarrier(q.list[0].rq) {
      NextBarrierColor(q);
    }
    LogUnread(q);
    LoggedSame(q, DoOrdered(q).0);
  }

  lemma LogUnread(q: Queue)
    requires q.list != []
    ensures var q' := DoOrdered(q).0; q'.added == q.added && q'.barriers == q.barriers && q'.ordcolor == q.ordcolor
  {}

  lemma {:induction false} ScanUnread(q: Queue)
    ensures Next(q).0.added == q.added && Next(q).0.nextOrdered == q.nextOrdered
    decreases |q.list|
  {
    if q.list != [] && DoOrdered(q).1 == Gone { ScanUnread(DoOrdered(q).0); }
  }

  lemma {:induction false} TurnsNext(q: Queue)
    requires Books(q) && Turns(q)
    ensures var (q', s) := Next(q);
            Turns(q') && (s == Ready ==> !IsBarrier(q'.list[0].rq))
    decreases |q.list|
  {
    hide Books; hide Turns; hide DoOrdered; hide IsBarrier;
    if q.list != [] {
      BooksDoOrdered(q);
      TurnsDoOrdered(q);
      var (q', v) := DoOrdered(q);
      DoOrderedShrinks(q);
      if v == Gone {
        TurnsNext(q');
      }
    }
  }

  lemma TurnsStart(q: Queue)
    requires Turns(q) && q.list != [] && !IsBarrier(q.list[0].rq)
    ensures Turns(Start(q))
  {
    hide BarriersInOrder; hide Logged;
    InOrderStart(q);
    LoggedSame(q, Start(q));
  }

  lemma TurnsMark(q: Queue)
    requires Turns(q) && q.list != []
    ensures Turns(q.(list := [Entry(q.list[0].rq, true)] + q.list[1..]))
  {
    hide BarriersInOrder; hide Logged;
    InOrderMark(q);
    LoggedSame(q, q.(list := [Entry(q.list[0].rq, true)] + q.list[1..]));
  }

  lemma TurnsFetch(q: Queue)
    requires Books(q) && Turns(q)
    ensures Turns(Fetch(q).0) && Turns(Peek(q))
  {
    hide Books; hide Turns; hide Next; hide IsBarrier; hide Start;
    TurnsNext(q);
    var (q', s) := Next(q);
    if s == Ready {
      NextReady(q);
      TurnsStart(q');
      TurnsMark(q');
    }
  }

  /** The remaining steps neither add nor fetch. */
  lemma TurnsOther(q: Queue, op: Op)
    requires Books(q) && Turns(q) && Enabled(q, op) && !op.OpAdd? && !op.OpFetch? && !op.OpPeek?
    ensures Turns(Step(q, op))
  {
    hide BarriersInOrder; hide Logged; hide Complete; hide PhasesTracked; hide CountKept; hide ErrorKept;
    var q' := Step(q, op);
    match op {
      case OpDispatch(i, sorted, boundary) => InOrderDispatch(q, i, sorted, boundary);
      case OpComplete(i, error) => TurnsComplete(q, i, error);
      case OpBarProgress(error) => TurnsSame(q, q');
      case OpRequeue(i) => InOrderRequeue(q, i);
      case OpSetOrdered(mode) => TurnsSame(q, q');
    }
    if !op.OpComplete? { LoggedSame(q, q'); }
  }

  lemma TurnsSame(q: Queue, p: Queue)
    requires Turns(q)
    requires p == q.(orderr := p.orderr, errors := p.errors, ordered := p.ordered, nextOrdered := p.nextOrdered)
    ensures Turns(p)
  {
    hide BarriersInOrder; hide Logged;
    InOrderSame(q, p);
    LoggedSame(q, p);
  }

  lemma TurnsComplete(q: Queue, i: nat, error: int)
    requires Books(q) && Turns(q) && i < |q.flying|
    ensures Turns(Complete(q, i, error))
  {
    hide BarriersInOrder; hide Logged; hide Complete; hide Books;
    InOrderComplete(q, i, error);
    CompleteUnread(q, i, error);
    LoggedSame(q, Complete(q, i, error));
  }

  lemma CompleteUnread(q: Queue, i: nat, error: int)
    requires i < |q.flying|
    ensures var q' := Complete(q, i, error);
      q'.added == q.added && q'.barriers == q.barriers && q'.ordcolor == q.ordcolor
  {
    hide CurSeq; hide DrainEnds; hide RemoveAt;
  }

  lemma TurnsStep(q: Queue, op: Op)
    requires Books(q) && Turns(q) && Enabled(q, op) && PlainOp(op)
    ensures Turns(Step(q, op))
  {
    hide Books; hide Turns; hide Add; hide Dispatch; hide Peek; hide Fetch; hide Complete; hide Requeue;
    match op
    case OpAdd(t, where) => TurnsAdd(q, t, where);
    case OpPeek => TurnsFetch(q);
    case OpFetch => TurnsFetch(q);
    case _ => TurnsOther(q, op);
  }

  lemma {:induction false} TurnsRuns(q: Queue, ops: seq<Op>, q': Queue)
    requires Books(q) && Turns(q) && Runs(q, ops, q') && forall i :: 0 <= i < |ops| ==> PlainOp(ops[i])
    ensures Turns(q')
    decreases |ops|
  {
    hide Books; hide Turns; hide Step; hide Enabled; hide PlainOp;
    if ops != [] {
      BooksStep(q, ops[0]);
      TurnsStep(q, ops[0]);
      TurnsRuns(Step(q, ops[0]), ops[1..], q');
    }
  }

  /**
    The barriers that have ended are the first of those added, in order and each once; the next one may be in
    progress, and none goes to the driver itself.
   */
  ghost predicate BarrierInTurn(q: Queue) {
    && Firsts(q.ended) <= Barriers(q.added)
    && (Active(q) ==> |q.ended| < |Barriers(q.added)| && q.orig == Barriers(q.added)[|q.ended|])
    && (forall i :: 0 <= i < |q.flying| ==> !IsBarrier(q.flying[i]))
  }

  lemma BarriersEndOnce(mode: Ordered, ops: seq<Op>, q: Queue)
    requires ValidMode(mode) && Runs(Initial(mode), ops, q) && forall i :: 0 <= i < |ops| ==> PlainOp(ops[i])
    ensures BarrierInTurn(q) && q.begun == |q.ended| + (if Active(q) then 1 else 0)
  {
    BooksInitial(mode);
    BooksRuns(Initial(mode), ops, q);
    TurnsInitial(mode);
    TurnsRuns(Initial(mode), ops, q);
  }
}
