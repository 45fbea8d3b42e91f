/**
  Bookkeeping of ordered sequences, for every ordering mode and whatever is added: which request
  of a sequence is where, which phases are complete, and how each sequence ends.
 */
module BarrierBooks {
  import opened Barrier

  // Kinds of requests

  ghost function Kinds(rs: seq<Rq>): multiset<Kind> {
    if rs == [] then multiset{} else multiset{rs[0].kind} + Kinds(rs[1..])
  }

  lemma {:induction false} KindsCat(a: seq<Rq>, b: seq<Rq>)
    ensures Kinds(a + b) == Kinds(a) + Kinds(b)
  {
    if a == [] {
      assert a + b == b;
    } else {
      assert (a + b)[1..] == a[1..] + b;
      KindsCat(a[1..], b);
    }
  }

  lemma KindsOne(r: Rq)
    ensures Kinds([r]) == multiset{r.kind}
  {}

  lemma KindsSplice(a: seq<Rq>, r: Rq, b: seq<Rq>)
    ensures Kinds(a + [r] + b) == Kinds(a + b) + multiset{r.kind}
  {
    hide Kinds;
    KindsCat(a + [r], b);
    KindsCat(a, [r]);
    KindsCat(a, b);
    KindsOne(r);
  }

  predicate IsBarrier(r: Rq) { r.kind == Fs && r.barrier }

  // The requests on the dispatch list

  ghost function Rqs(list: seq<Entry>): (rs: seq<Rq>)
    ensures |rs| == |list| && forall i :: 0 <= i < |list| ==> rs[i] == list[i].rq
  {
    seq(|list|, i requires 0 <= i < |list| => list[i].rq)
  }

  lemma RqsInsert(list: seq<Entry>, at: nat, e: Entry)
    requires at <= |list|
    ensures Kinds(Rqs(Insert(list, at, e))) == Kinds(Rqs(list)) + multiset{e.rq.kind}
  {
    hide Kinds;
    var a, b := Rqs(list)[..at], Rqs(list)[at..];
    assert Rqs(Insert(list, at, e)) == a + [e.rq] + b;
    assert Rqs(list) == a + b;
    KindsSplice(a, e.rq, b);
  }

  lemma RqsHead(list: seq<Entry>)
    requires list != []
    ensures Rqs(list) == [list[0].rq] + Rqs(list[1..])
    ensures Kinds(Rqs(list)) == multiset{list[0].rq.kind} + Kinds(Rqs(list[1..]))
  {
    assert Rqs(list)[1..] == Rqs(list[1..]);
  }

  lemma RemoveKinds(rs: seq<Rq>, i: nat)
    requires i < |rs|
    ensures Kinds(rs) == Kinds(RemoveAt(rs, i)) + multiset{rs[i].kind}
  {
    hide Kinds;
    assert rs == rs[..i] + [rs[i]] + rs[i + 1..];
    KindsSplice(rs[..i], rs[i], rs[i + 1..]);
  }

  lemma RqsMaybe(wanted: bool, k: Kind, orig: Rq, rest: seq<Entry>)
    requires k != Fs
    ensures forall j ::
      Kinds(Rqs(MaybeQueue(wanted, k, orig) + rest))[j] == (if wanted && j == k then 1 else 0) + Kinds(Rqs(rest))[j]
  {
    hide Kinds;
    var list := MaybeQueue(wanted, k, orig) + rest;
    if wanted {
      assert list[1..] == rest;
      RqsHead(list);
    } else {
      assert list == rest;
    }
  }

  lemma RqsProxies(o: Ordered, orig: Rq, rest: seq<Entry>)
    ensures var k, k' := Kinds(Rqs(Proxies(o, orig) + rest)), Kinds(Rqs(rest));
            && k[PreFlush] == (if o.preflush then 1 else 0) + k'[PreFlush]
            && k[Bar] == (if o.bar then 1 else 0) + k'[Bar]
            && k[PostFlush] == (if o.postflush then 1 else 0) + k'[PostFlush]
  {
    hide Kinds; hide MaybeQueue; hide Rqs;
    var c := MaybeQueue(o.postflush, PostFlush, orig) + rest;
    var b := MaybeQueue(o.bar, Bar, orig) + c;
    assert Proxies(o, orig) + rest == MaybeQueue(o.preflush, PreFlush, orig) + b;
    RqsMaybe(o.preflush, PreFlush, orig, b);
    RqsMaybe(o.bar, Bar, orig, c);
    RqsMaybe(o.postflush, PostFlush, orig, rest);
  }

  // The first error

  function FirstError(errors: seq<int>): int {
    if errors == [] then 0
    else if FirstError(errors[..|errors| - 1]) != 0 then FirstError(errors[..|errors| - 1])
    else errors[|errors| - 1]
  }

  lemma FirstErrorSnoc(errors: seq<int>, e: int)
    ensures FirstError(errors + [e]) == if FirstError(errors) != 0 then FirstError(errors) else e
  {
    assert (errors + [e])[..|errors|] == errors;
  }

  /** It is the earliest error that is not zero. */
  lemma {:induction false} FirstErrorIs(errors: seq<int>)
    ensures FirstError(errors) == 0 <==> forall i :: 0 <= i < |errors| ==> errors[i] == 0
    ensures FirstError(errors) != 0 ==> exists i ::
      0 <= i < |errors| && errors[i] == FirstError(errors) && forall j :: 0 <= j < i ==> errors[j] == 0
  {
    if errors != [] {
      var n := |errors| - 1;
      FirstErrorIs(errors[..n]);
      if FirstError(errors[..n]) != 0 {
        var i :|
          0 <= i < n && errors[..n][i] == FirstError(errors[..n]) && forall j :: 0 <= j < i ==> errors[..n][j] == 0;
        assert forall j :: 0 <= j < i ==> errors[j] == errors[..n][j];
        assert errors[i] == FirstError(errors);
      } else {
        assert forall j :: 0 <= j < n ==> errors[j] == errors[..n][j];
        assert errors[n] == FirstError(errors);
      }
    }
  }

  // The invariant

  ghost function Occurrences(q: Queue): multiset<Kind> { Kinds(Rqs(q.list)) + Kinds(q.flying) }

  /** Each phase missing in `o` has its request on the list or at the driver, exactly once. */
  ghost predicate OccurAs(q: Queue, o: Phases) {
    var occ := Occurrences(q);
    && occ[PreFlush] == (if o.preflush then 0 else 1)
    && occ[Bar] == (if o.bar then 0 else 1)
    && occ[PostFlush] == (if o.postflush then 0 else 1)
  }

  ghost predicate PhasesTracked(q: Queue) {
    if Active(q) then q.ordseq.started && CurSeq(q.ordseq) != DONE && OccurAs(q, q.ordseq)
    else OccurAs(q, Phases(true, true, true, true, true))
  }

  ghost predicate CountKept(q: Queue) {
    q.inFlight == Kinds(q.flying)[Fs] + Kinds(q.flying)[Bar]
  }

  ghost predicate ErrorKept(q: Queue) {
    Active(q) ==> q.orderr == FirstError(q.errors)
  }

  /** Sequences begin one after the other, each with a barrier; the elevator holds ordinary requests. */
  ghost predicate OneSequence(q: Queue) {
    && q.begun == |q.ended| + (if Active(q) then 1 else 0)
    && (Active(q) ==> IsBarrier(q.orig))
    && (forall i :: 0 <= i < |q.elevator| ==> q.elevator[i].kind == Fs && !q.elevator[i].barrier)
  }

  ghost predicate Books(q: Queue) {
    PhasesTracked(q) && CountKept(q) && ErrorKept(q) && OneSequence(q) && ValidMode(q.nextOrdered)
  }

  // Every step keeps the books

  lemma BooksInitial(mode: Ordered)
    requires ValidMode(mode)
    ensures Books(Initial(mode))
  {}

  lemma BooksAdd(q: Queue, t: Template, where: Where)
    requires Books(q) && CanAdd(q, t, where)
    ensures Books(Add(q, t, where))
  {
    hide Kinds; hide Insert; hide Rqs;
    var e := Entry(NewRq(q, t), true);
    InsertEnds(q.list, e);
    RqsInsert(q.list, 0, e);
    RqsInsert(q.list, |q.list|, e);
  }

  lemma InsertEnds(list: seq<Entry>, e: Entry)
    ensures Insert(list, 0, e) == [e] + list
    ensures Insert(list, |list|, e) == list + [e]
  {}

  lemma BooksDispatch(q: Queue, i: nat, sorted: bool, boundary: nat)
    requires Books(q) && i < |q.elevator|
    ensures Books(Dispatch(q, i, sorted, boundary))
  {
    hide Kinds; hide Insert; hide Rqs; hide StopsAt;
    var r := q.elevator[i];
    var at := if sorted then SortPos(q.list, r, boundary, |q.list|) else |q.list|;
    RqsInsert(q.list, at, Entry(r, false));
  }

  /** Setting bits that were clear; `q` already lacks the requests of these phases. */
  lemma CompleteSeqBooks(q: Queue, bits: Phases, error: int)
    requires Active(q) && q.ordseq.started && OccurAs(q, Union(q.ordseq, bits))
    requires CountKept(q) && ErrorKept(q) && OneSequence(q) && ValidMode(q.nextOrdered)
    ensures var q' := CompleteSeq(q, bits, error);
            && Books(q')
            && (!Active(q') ==> q'.ended == q.ended + [(q.orig, FirstError(q.errors + [error]))] && q'.begun == q.begun)
  {
    hide Kinds;
    FirstErrorSnoc(q.errors, error);
  }

  lemma BooksStartOrdered(q: Queue)
    requires Books(q) && !Active(q) && q.list != [] && IsBarrier(q.list[0].rq) && q.nextOrdered != ORDERED_NONE
    ensures Books(StartOrdered(q).0)
  {
    hide Kinds;
    var orig := q.list[0].rq;
    var o := EffectiveOrdered(q.nextOrdered, orig.sectors);
    var skip := Skip(o, q.inFlight);
    RqsHead(q.list);
    RqsProxies(o, orig, q.list[1..]);
    CompleteSeqBooks(Begin(q), skip, 0);
  }

  lemma BooksDoOrdered(q: Queue)
    requires Books(q) && q.list != []
    ensures Books(DoOrdered(q).0)
  {
    hide Kinds; hide StartOrdered; hide Occurrences;
    if !Active(q) {
      IdleHead(q);
      if IsBarrier(q.list[0].rq) {
        if q.nextOrdered != ORDERED_NONE {
          BooksStartOrdered(q);
        } else {
          BooksRefuse(q);
        }
      }
    }
  }

  lemma IdleHead(q: Queue)
    requires Books(q) && q.list != []
    ensures ValidMode(q.nextOrdered)
    ensures !Active(q) ==> q.list[0].rq.kind == Fs || q.list[0].rq.kind == NonFs
  {
    hide CountKept; hide ErrorKept; hide OneSequence; hide Occurrences;
    KindPresent(q);
  }

  lemma KindPresent(q: Queue)
    requires q.list != []
    ensures q.list[0].rq.kind in Occurrences(q)
  {
    hide Kinds;
    RqsHead(q.list);
  }

  /** A barrier on a queue without ordering ends at once. */
  lemma BooksRefuse(q: Queue)
    requires Books(q) && q.list != [] && IsBarrier(q.list[0].rq) && !Active(q)
    ensures var r := q.list[0].rq;
            Books(q.(list := q.list[1..], completed := q.completed + {r}, begun := q.begun + 1,
                     ended := q.ended + [(r, -EOPNOTSUPP)]))
  {
    hide Kinds;
    RqsHead(q.list);
  }

  lemma {:induction false} BooksNext(q: Queue)
    requires Books(q)
    ensures Books(Next(q).0)
    decreases |q.list|
  {
    hide Books; hide DoOrdered;
    if q.list != [] {
      BooksDoOrdered(q);
      var (q', v) := DoOrdered(q);
      DoOrderedShrinks(q);
      if v == Gone {
        BooksNext(q');
      }
    }
  }

  lemma DoOrderedShrinks(q: Queue)
    requires q.list != []
    ensures DoOrdered(q).1 == Give ==> DoOrdered(q).0.list != []
    ensures DoOrdered(q).1 == Gone ==> |DoOrdered(q).0.list| < |q.list|
  {}

  lemma BooksStart(q: Queue)
    requires Books(q) && q.list != []
    ensures Books(Start(q))
  {
    hide Kinds;
    RqsHead(q.list);
    KindsCat(q.flying, [q.list[0].rq]);
    KindsOne(q.list[0].rq);
  }

  lemma BooksFetch(q: Queue)
    requires Books(q)
    ensures Books(Fetch(q).0)
  {
    hide Books; hide Next; hide Start;
    BooksNext(q);
    var (q', s) := Next(q);
    if s == Ready {
      NextReady(q);
      BooksStart(q');
    }
  }

  lemma BooksPeek(q: Queue)
    requires Books(q)
    ensures Books(Peek(q))
  {
    hide Books; hide Next;
    BooksNext(q);
    var (q', s) := Next(q);
    if s == Ready {
      NextReady(q);
      BooksMark(q');
    }
  }

  lemma BooksMark(q: Queue)
    requires Books(q) && q.list != []
    ensures Books(q.(list := [Entry(q.list[0].rq, true)] + q.list[1..]))
  {
    hide Kinds;
    assert Rqs([Entry(q.list[0].rq, true)] + q.list[1..]) == Rqs(q.list);
  }

  lemma BooksRequeue(q: Queue, i: nat)
    requires Books(q) && i < |q.flying|
    ensures Books(Requeue(q, i))
  {
    hide Kinds;
    var r := q.flying[i];
    var at := if !Active(q) then 0 else RequeuePos(q.orig, q.list, ReqSeq(q.orig, r), 0);
    RemoveKinds(q.flying, i);
    RqsInsert(q.list, at, Entry(r, true));
  }

  lemma BooksBarProgress(q: Queue, error: int)
    requires Books(q)
    ensures Books(BarProgress(q, error))
  {
    hide Kinds;
    FirstErrorSnoc(q.errors, error);
  }

  /** A request leaves the driver's hands. */
  ghost function Left(q: Queue, i: nat): Queue
    requires i < |q.flying|
  {
    var r := q.flying[i];
    q.(flying := RemoveAt(q.flying, i), inFlight := if Accounted(r) then q.inFlight - 1 else q.inFlight)
  }

  lemma LeftBooks(q: Queue, i: nat)
    requires Books(q) && i < |q.flying|
    ensures var p, k := Left(q, i), q.flying[i].kind;
            && CountKept(p) && ErrorKept(p) && OneSequence(p) && ValidMode(p.nextOrdered)
            && (Active(q) ==> OccurAs(p, Union(q.ordseq, PhaseBit(k))) && Common(q.ordseq, PhaseBit(k)) == NO_PHASES)
            && (!Active(q) ==> k == Fs || k == NonFs)
            && (k == Fs || k == NonFs ==> PhasesTracked(p))
  {
    hide Kinds; hide Rqs;
    RemoveKinds(q.flying, i);
  }

  lemma BooksComplete(q: Queue, i: nat, error: int)
    requires Books(q) && i < |q.flying|
    ensures Books(Complete(q, i, error))
  {
    hide Kinds; hide CompleteSeq; hide CountKept; hide ErrorKept; hide OneSequence; hide Occurrences;
    hide ValidMode;
    var r := q.flying[i];
    LeftBooks(q, i);
    if r.kind == Fs || r.kind == NonFs {
      var p := Left(q, i).(completed := q.completed + {r});
      SameBooks(Left(q, i), p);
      if Active(p) {
        CompleteSeqBooks(p, DRAIN_BIT, 0);
      }
    } else {
      ProxyCompletes(q, i);
      CompleteSeqBooks(Completed(q.(flying := RemoveAt(q.flying, i)), r), PhaseBit(r.kind), error);
    }
  }

  lemma SameBooks(q: Queue, q': Queue)
    requires q' == q.(completed := q'.completed)
    ensures CountKept(q) ==> CountKept(q')
    ensures ErrorKept(q) ==> ErrorKept(q')
    ensures OneSequence(q) ==> OneSequence(q')
    ensures Occurrences(q) == Occurrences(q')
  {}

  /** A proxy completes: its phase is still open, so the bit about to be set is clear. */
  lemma ProxyCompletes(q: Queue, i: nat)
    requires Books(q) && i < |q.flying| && q.flying[i].kind != Fs && q.flying[i].kind != NonFs
    ensures var r := q.flying[i];
            var p := Completed(q.(flying := RemoveAt(q.flying, i)), r);
            && Active(p) && p.ordseq.started && Common(p.ordseq, PhaseBit(r.kind)) == NO_PHASES
            && OccurAs(p, Union(p.ordseq, PhaseBit(r.kind)))
            && CountKept(p) && ErrorKept(p) && OneSequence(p) && ValidMode(p.nextOrdered)
            && p.orig == q.orig && p.ended == q.ended && p.begun == q.begun
            && (p.errors == q.errors || p.errors == q.errors + [0])
  {
    hide Kinds; hide Rqs; hide ValidMode;
    LeftBooks(q, i);
    var p, r := Left(q, i), q.flying[i];
    if Completed(q.(flying := RemoveAt(q.flying, i)), r) != p {
      FirstErrorSnoc(q.errors, 0);
    }
  }

  lemma BooksStep(q: Queue, op: Op)
    requires Books(q) && Enabled(q, op)
    ensures Books(Step(q, op))
  {
    hide Books; hide Add; hide Dispatch; hide Peek; hide Fetch; hide Complete; hide BarProgress; hide Requeue;
    match op
    case OpAdd(t, where) => BooksAdd(q, t, where);
    case OpDispatch(i, sorted, boundary) => BooksDispatch(q, i, sorted, boundary);
    case OpPeek => BooksPeek(q);
    case OpFetch => BooksFetch(q);
    case OpComplete(i, error) => BooksComplete(q, i, error);
    case OpBarProgress(error) => BooksBarProgress(q, error);
    case OpRequeue(i) => BooksRequeue(q, i);
    case OpSetOrdered(mode) => BooksSetOrdered(q, mode);
  }

  lemma BooksSetOrdered(q: Queue, mode: Ordered)
    requires Books(q) && ValidMode(mode)
    ensures Books(SetOrdered(q, mode))
  {}

  lemma {:induction false} BooksRuns(q: Queue, ops: seq<Op>, q': Queue)
    requires Books(q) && Runs(q, ops, q')
    ensures Books(q')
    decreases |ops|
  {
    hide Books; hide Step; hide Enabled;
    if ops != [] {
      BooksStep(q, ops[0]);
      BooksRuns(Step(q, ops[0]), ops[1..], q');
    }
  }

  // What the books say about every run

  /**
    A phase is never completed twice: wherever blk_ordered_complete_seq is called - from a proxy's end_io
    function, at the end of draining, or for the phases that a new sequence skips - the bits are still clear.
   */
  lemma NoPhaseTwice(mode: Ordered, ops: seq<Op>, q: Queue)
    requires ValidMode(mode) && Runs(Initial(mode), ops, q)
    ensures forall i :: 0 <= i < |q.flying| && q.flying[i].kind != Fs && q.flying[i].kind != NonFs ==>
      var p := Completed(q.(flying := RemoveAt(q.flying, i)), q.flying[i]);
      Active(p) && Common(p.ordseq, PhaseBit(q.flying[i].kind)) == NO_PHASES
    ensures forall i :: 0 <= i < |q.flying| && DrainEnds(Left(q, i)) ==>
      Common(Left(q, i).ordseq, DRAIN_BIT) == NO_PHASES
    ensures q.list != [] ==> var p := Begin(q); Common(p.ordseq, Skip(p.ordered, p.inFlight)) == NO_PHASES
  {
    hide Books; hide Completed;
    BooksInitial(mode);
    BooksRuns(Initial(mode), ops, q);
    forall i | 0 <= i < |q.flying| && q.flying[i].kind != Fs && q.flying[i].kind != NonFs
      ensures var p := Completed(q.(flying := RemoveAt(q.flying, i)), q.flying[i]);
        Active(p) && Common(p.ordseq, PhaseBit(q.flying[i].kind)) == NO_PHASES
    {
      ProxyCompletes(q, i);
    }
  }

  /** Barriers that end as soon as they are met: refused, or empty with nothing to flush and nothing to wait for. */
  predicate EndsAtOnce(q: Queue, r: Rq) {
    IsBarrier(r) && (q.nextOrdered == ORDERED_NONE || (r.sectors == 0 && !q.nextOrdered.preflush && q.inFlight == 0))
  }

  /** The barriers at the head of the list that end at once, with their status. */
  function EndingAtOnce(q: Queue, list: seq<Entry>): seq<(Rq, int)> {
    if list == [] || !EndsAtOnce(q, list[0].rq) then []
    else
      [(list[0].rq, if q.nextOrdered == ORDERED_NONE then -EOPNOTSUPP else 0)] + EndingAtOnce(q, list[1..])
  }

  /** What one step adds to the barriers that have ended. */
  ghost function NewlyEnded(q: Queue, op: Op): seq<(Rq, int)>
    requires Enabled(q, op)
  {
    match op
    case OpPeek => if Active(q) then [] else EndingAtOnce(q, q.list)
    case OpFetch => if Active(q) then [] else EndingAtOnce(q, q.list)
    case OpComplete(i, error) =>
      var last := if q.flying[i].kind == Fs || q.flying[i].kind == NonFs then 0 else error;
      if Active(q) && !Active(Step(q, op)) then [(q.orig, FirstError(q.errors + [last]))] else []
    case _ => []
  }

  /**
    In every run, a sequence in progress ends only by a completion, and with the first error that any of its phases
    reported. A barrier that is met while no sequence is in progress ends at once exactly if nothing has to be done
    for it, then without error, or if the queue has no ordering, then as not supported.
   */
  lemma EndsWithFirstError(mode: Ordered, ops: seq<Op>, q: Queue, op: Op)
    requires ValidMode(mode) && Runs(Initial(mode), ops, q) && Enabled(q, op)
    ensures Step(q, op).ended == q.ended + NewlyEnded(q, op)
    ensures Active(q) && !Active(Step(q, op)) ==> op.OpComplete?
  {
    hide FirstError; hide Books; hide Complete; hide EndingAtOnce; hide Next;
    BooksInitial(mode);
    BooksRuns(Initial(mode), ops, q);
    match op
    case OpComplete(i, error) => CompletionEnds(q, i, error);
    case OpFetch => if Active(q) { StaysActive(q); } else { ScanEnds(q); }
    case OpPeek => if Active(q) { StaysActive(q); } else { ScanEnds(q); }
    case _ =>
  }

  /** The completion that ends a sequence ends the barrier with the first error. */
  lemma CompletionEnds(q: Queue, i: nat, error: int)
    requires Books(q) && i < |q.flying|
    ensures var last := if q.flying[i].kind == Fs || q.flying[i].kind == NonFs then 0 else error;
      Complete(q, i, error).ended == q.ended +
        if Active(q) && !Active(Complete(q, i, error)) then [(q.orig, FirstError(q.errors + [last]))] else []
  {
    hide FirstError; hide Books; hide Completed; hide CompleteSeq;
    if q.flying[i].kind == Fs || q.flying[i].kind == NonFs {
      RequestEnds(q, i);
    } else {
      ProxyEnds(q, i, error);
    }
  }

  /** The end of draining may be the end of the sequence. */
  lemma RequestEnds(q: Queue, i: nat)
    requires Books(q) && i < |q.flying| && (q.flying[i].kind == Fs || q.flying[i].kind == NonFs)
    ensures var r := q.flying[i];
      var c := Completed(q.(flying := RemoveAt(q.flying, i), completed := q.completed + {r}), r);
      c.ended == q.ended + if Active(q) && !Active(c) then [(q.orig, FirstError(q.errors + [0]))] else []
  {
    hide FirstError; hide RemoveAt; hide PhasesTracked; hide CountKept; hide OneSequence;
    FirstErrorSnoc(q.errors, 0);
  }

  lemma ProxyEnds(q: Queue, i: nat, error: int)
    requires Books(q) && i < |q.flying| && q.flying[i].kind != Fs && q.flying[i].kind != NonFs
    ensures var c := Completed(q.(flying := RemoveAt(q.flying, i)), q.flying[i]);
      var c := CompleteSeq(c, PhaseBit(q.flying[i].kind), error);
      c.ended == q.ended + if Active(q) && !Active(c) then [(q.orig, FirstError(q.errors + [error]))] else []
  {
    hide FirstError; hide RemoveAt; hide PhasesTracked; hide CountKept; hide OneSequence;
    hide Completed; hide OccurAs;
    LeftBooks(q, i);
    ProxyCompletes(q, i);
    var p := Completed(q.(flying := RemoveAt(q.flying, i)), q.flying[i]);
    FirstErrorSnoc(q.errors, 0);
    FirstErrorSnoc(q.errors, error);
    FirstErrorSnoc(p.errors, error);
  }

  lemma StaysActive(q: Queue)
    requires Active(q)
    ensures Next(q).0 == q
  {}

  /** A scan of the list ends exactly the barriers at its head that end at once. */
  lemma {:induction false} ScanEnds(q: Queue)
    requires Books(q) && !Active(q)
    ensures Next(q).0.ended == q.ended + EndingAtOnce(q, q.list)
    decreases |q.list|
  {
    hide Books; hide DoOrdered; hide EndsAtOnce; hide IsBarrier;
    if q.list != [] {
      IdleHead(q);
      HeadEnds(q);
      BooksDoOrdered(q);
      var (q', v) := DoOrdered(q);
      if v == Gone {
        SameAtOnce(q, q', q'.list);
        ScanEnds(q');
      }
    }
  }

  lemma HeadEnds(q: Queue)
    requires !Active(q) && ValidMode(q.nextOrdered) && q.list != [] && q.list[0].rq.kind != Bar
    ensures var (q', v) := DoOrdered(q); var r := q.list[0].rq;
      if EndsAtOnce(q, r) then
        && v == Gone && !Active(q') && q'.list == q.list[1..] && q'.nextOrdered == q.nextOrdered
        && q'.inFlight == q.inFlight
        && q'.ended == q.ended + [(r, if q.nextOrdered == ORDERED_NONE then -EOPNOTSUPP else 0)]
      else v != Gone && q'.ended == q.ended
  {}

  lemma {:induction false} SameAtOnce(q: Queue, q': Queue, list: seq<Entry>)
    requires q'.nextOrdered == q.nextOrdered && q'.inFlight == q.inFlight
    ensures EndingAtOnce(q', list) == EndingAtOnce(q, list)
  {
    if list != [] { SameAtOnce(q, q', list[1..]); }
  }
}
