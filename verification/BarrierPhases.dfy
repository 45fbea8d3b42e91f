/**
  What the driver sees of a barrier: which proxies it is given and has completed from the start of a
  sequence to its end, and which status the barrier gets of what the driver has reported.
 */
module BarrierPhases {
  import opened Barrier
  import opened BarrierBooks
  import opened BarrierTurns
  import opened BarrierOrder

  // What the steps of the driver do with proxies

  datatype Event = Gave(k: Kind) | Returned(k: Kind) | Done(k: Kind)

  function EventOf(q: Queue, op: Op): seq<Event>
    requires Enabled(q, op)
  {
    match op
    case OpFetch =>
      var got := Fetch(q).1;
      if got.Some? && IsProxy(got.value) then [Gave(got.value.kind)] else []
    case OpRequeue(i) => if IsProxy(q.flying[i]) then [Returned(q.flying[i].kind)] else []
    case OpComplete(i, _) => if IsProxy(q.flying[i]) then [Done(q.flying[i].kind)] else []
    case _ => []
  }

  function Events(q: Queue, ops: seq<Op>): seq<Event>
    decreases |ops|
  {
    if ops == [] || !Enabled(q, ops[0]) then [] else EventOf(q, ops[0]) + Events(Step(q, ops[0]), ops[1..])
  }

  /** The errors that the driver reports for a barrier in progress. */
  function Told(q: Queue, op: Op): seq<int>
    requires Enabled(q, op)
  {
    match op
    case OpComplete(i, error) => if IsProxy(q.flying[i]) then [error] else []
    case OpBarProgress(error) => [error]
    case _ => []
  }

  function AllTold(q: Queue, ops: seq<Op>): seq<int>
    decreases |ops|
  {
    if ops == [] || !Enabled(q, ops[0]) then [] else Told(q, ops[0]) + AllTold(Step(q, ops[0]), ops[1..])
  }

  /** What a barrier needs in a mode: a flush before it, its data if it has any, and a flush behind the data. */
  function Needed(m: Ordered, sectors: nat): seq<Kind> {
    (if m.preflush then [PreFlush] else []) + (if sectors != 0 then [Bar] else []) +
    (if m.postflush && sectors != 0 then [PostFlush] else [])
  }

  /** The steps `ops` lead from `q` to `q'`, and the last of them ends the sequence in progress. */
  predicate Until(q: Queue, ops: seq<Op>, q': Queue)
    decreases |ops|
  {
    && ops != [] && Active(q) && Enabled(q, ops[0])
    && var p := Step(q, ops[0]);
       if |ops| == 1 then p == q' && !Active(q') else Until(p, ops[1..], q')
  }

  // The status

  lemma {:induction false} FirstErrorCat(a: seq<int>, b: seq<int>)
    ensures FirstError(a + b) == if FirstError(a) != 0 then FirstError(a) else FirstError(b)
    decreases |b|
  {
    if b == [] {
      assert a + b == a;
    } else {
      var n := |b| - 1;
      FirstErrorCat(a, b[..n]);
      FirstErrorSnoc(a + b[..n], b[n]);
      FirstErrorSnoc(b[..n], b[n]);
      assert a + b == a + b[..n] + [b[n]] && b == b[..n] + [b[n]];
    }
  }

  /** While the sequence goes on, what is recorded is what the driver has told. */
  lemma ToldStep(q: Queue, op: Op)
    requires Books(q) && Enabled(q, op) && Active(q) && Active(Step(q, op))
    ensures FirstError(Step(q, op).errors) == FirstError(q.errors + Told(q, op))
    ensures Step(q, op).orig == q.orig && Step(q, op).ended == q.ended
  {
    hide FirstError; hide Books; hide Complete;
    if op.OpComplete? {
      ToldComplete(q, op.i, op.error);
    } else {
      hide Step; hide Told;
      ToldQuiet(q, op);
    }
  }

  /** A step that completes nothing records what it tells. */
  lemma ToldQuiet(q: Queue, op: Op)
    requires Active(q) && Enabled(q, op) && !op.OpComplete?
    ensures Step(q, op).errors == q.errors + Told(q, op) && Step(q, op).orig == q.orig && Step(q, op).ended == q.ended
  {
    hide Next; hide SortPos; hide RequeuePos; hide Insert; hide EffectiveWhere;
    assert q.errors + [] == q.errors;
    if op.OpFetch? || op.OpPeek? { StaysActive(q); }
  }

  lemma ToldComplete(q: Queue, i: nat, error: int)
    requires Books(q) && i < |q.flying| && Active(q) && Active(Complete(q, i, error))
    ensures var q' := Complete(q, i, error); var told := if IsProxy(q.flying[i]) then [error] else [];
      FirstError(q'.errors) == FirstError(q.errors + told) && q'.orig == q.orig && q'.ended == q.ended
  {
    hide FirstError; hide RemoveAt; hide PhasesTracked; hide CountKept; hide ErrorKept; hide OneSequence; hide OccurAs;
    hide Books; hide ReqSeq;
    FirstErrorSnoc(q.errors, 0);
    FirstErrorSnoc(q.errors, error);
    assert q.errors + [] == q.errors;
    if IsProxy(q.flying[i]) {
      ProxyCompletes(q, i);
      FirstErrorSnoc(Completed(q.(flying := RemoveAt(q.flying, i)), q.flying[i]).errors, error);
    }
  }

  lemma {:induction false} UntilStatus(q: Queue, ops: seq<Op>, q': Queue)
    requires Books(q) && Until(q, ops, q')
    ensures q'.ended == q.ended + [(q.orig, FirstError(q.errors + AllTold(q, ops)))]
    decreases |ops|
  {
    hide FirstError; hide Books; hide Step; hide Enabled; hide Told;
    var op := ops[0];
    var p := Step(q, op);
    if |ops| == 1 {
      LastTold(q, op);
      NoneTold(p);
      assert ops[1..] == [] && Told(q, op) + [] == Told(q, op);
    } else {
      ToldStep(q, op);
      BooksStep(q, op);
      UntilStatus(p, ops[1..], q');
      var rest := AllTold(p, ops[1..]);
      FirstErrorCat(p.errors, rest);
      FirstErrorCat(q.errors + Told(q, op), rest);
      assert q.errors + Told(q, op) + rest == q.errors + (Told(q, op) + rest);
    }
  }

  lemma NoneTold(q: Queue)
    ensures AllTold(q, []) == [] && Events(q, []) == []
  {}

  /** The step that ends the sequence is a completion. */
  lemma LastTold(q: Queue, op: Op)
    requires Books(q) && Enabled(q, op) && Active(q) && !Active(Step(q, op))
    ensures op.OpComplete? && Step(q, op).ended == q.ended + [(q.orig, FirstError(q.errors + Told(q, op)))]
  {
    hide FirstError; hide Books; hide Complete; hide Next;
    match op
    case OpComplete(i, error) =>
      CompletionEnds(q, i, error);
      FirstErrorSnoc(q.errors, 0);
      assert q.errors + [] == q.errors;
    case OpFetch => StaysActive(q);
    case OpPeek => StaysActive(q);
    case _ =>
  }

  /**
    In every run of every mode: when a sequence that the step `first` has begun ends, the barrier gets the first
    error that the driver has told since, and no other barrier has ended in between.
   */
  lemma SequenceStatus(mode: Ordered, ops: seq<Op>, q: Queue, first: Op, more: seq<Op>, q': Queue)
    requires ValidMode(mode) && Runs(Initial(mode), ops, q) && !Active(q) && Enabled(q, first)
    requires Until(Step(q, first), more, q')
    ensures var p := Step(q, first); q'.ended == p.ended + [(p.orig, FirstError(AllTold(p, more)))]
  {
    hide FirstError; hide Books; hide AllTold; hide Runs; hide Until;
    BooksInitial(mode);
    BooksRuns(Initial(mode), ops, q);
    BooksStep(q, first);
    var p := Step(q, first);
    UntilActive(p, more, q');
    UntilStatus(p, more, q');
    NoErrorYet(q, first);
    FirstErrorCat(p.errors, AllTold(p, more));
  }

  lemma UntilActive(q: Queue, ops: seq<Op>, q': Queue)
    requires Until(q, ops, q')
    ensures Active(q)
  {}

  lemma NoErrorYet(q: Queue, op: Op)
    requires Books(q) && !Active(q) && Enabled(q, op) && Active(Step(q, op))
    ensures FirstError(Step(q, op).errors) == 0
  {
    hide Books; hide Next; hide Complete;
    match op
    case OpFetch => StartsClean(q);
    case OpPeek => StartsClean(q);
    case OpComplete(i, error) => StaysIdle(q, i, error);
    case _ =>
  }

  lemma {:induction false} StartsClean(q: Queue)
    requires !Active(q)
    ensures Active(Next(q).0) ==> FirstError(Next(q).0.errors) == 0
    decreases |q.list|
  {
    if q.list != [] {
      HeadClean(q);
      if DoOrdered(q).1 == Gone { StartsClean(DoOrdered(q).0); }
    }
  }

  lemma HeadClean(q: Queue)
    requires !Active(q) && q.list != []
    ensures var (p, v) := DoOrdered(q); (Active(p) ==> FirstError(p.errors) == 0) && (v == Gone ==> !Active(p))
  {
    BeginClean(q);
    hide Begin; hide CompleteSeq; hide Skip; hide FirstError;
  }

  lemma BeginClean(q: Queue)
    requires q.list != []
    ensures forall skip :: FirstError(CompleteSeq(Begin(q), skip, 0).errors) == 0
  {
    hide CurSeq; hide Union; hide Proxies; hide EffectiveOrdered;
    assert [0][..0] == [] && FirstError([]) == 0;
    forall skip ensures CompleteSeq(Begin(q), skip, 0).errors == [0] {}
  }

  lemma StaysIdle(q: Queue, i: nat, error: int)
    requires Books(q) && i < |q.flying| && !Active(q)
    ensures !Active(Complete(q, i, error))
  {
    hide Books; hide RemoveAt; hide OccurAs; hide OneSequence; hide CountKept; hide ErrorKept; hide PhasesTracked;
    LeftBooks(q, i);
  }

  // The proxies, in every mode

  /** The phases with a request that are not complete, in their order. */
  function Remaining(o: Phases): seq<Kind> {
    (if o.preflush then [] else [PreFlush]) + (if o.bar then [] else [Bar]) + (if o.postflush then [] else [PostFlush])
  }

  lemma HeadNeeds(q: Queue)
    requires !Active(q) && ValidMode(q.nextOrdered) && q.list != [] && q.list[0].rq.kind != Bar
    ensures var (p, v) := DoOrdered(q);
      && (Active(p) ==> Remaining(p.ordseq) == Needed(q.nextOrdered, p.orig.sectors) && p.ordseq.started)
      && (v == Gone ==> !Active(p)) && p.flying == q.flying && p.nextOrdered == q.nextOrdered
  {}

  /** A sequence that begins lacks exactly what the barrier needs. */
  lemma {:induction false} ScanNeeds(q: Queue)
    requires Books(q) && !Active(q)
    ensures var p := Next(q).0;
      Active(p) ==> Remaining(p.ordseq) == Needed(q.nextOrdered, p.orig.sectors) && p.flying == q.flying
    decreases |q.list|
  {
    hide Books; hide DoOrdered; hide Needed; hide Remaining;
    if q.list != [] {
      IdleHead(q);
      HeadNeeds(q);
      BooksDoOrdered(q);
      if DoOrdered(q).1 == Gone { ScanNeeds(DoOrdered(q).0); }
    }
  }

  ghost function DoneKinds(es: seq<Event>): multiset<Kind> {
    if es == [] then multiset{} else (if es[0].Done? then multiset{es[0].k} else multiset{}) + DoneKinds(es[1..])
  }

  lemma {:induction false} DoneCat(a: seq<Event>, b: seq<Event>)
    ensures DoneKinds(a + b) == DoneKinds(a) + DoneKinds(b)
  {
    if a == [] {
      assert a + b == b;
    } else {
      assert (a + b)[1..] == a[1..] + b;
      DoneCat(a[1..], b);
    }
  }

  /** Only a completion completes phases. */
  lemma PhasesStay(q: Queue, op: Op)
    requires Active(q) && Enabled(q, op) && !op.OpComplete?
    ensures Step(q, op).ordseq == q.ordseq
    ensures |EventOf(q, op)| <= 1 && forall e :: e in EventOf(q, op) ==> !e.Done?
  {
    hide Next; hide SortPos; hide RequeuePos; hide Insert; hide EffectiveWhere; hide IsProxy;
    if op.OpFetch? || op.OpPeek? { StaysActive(q); }
  }

  /** What a step completes is what it takes off the phases that remain. */
  lemma DoneStep(q: Queue, op: Op)
    requires Books(q) && Active(q) && Enabled(q, op)
    ensures var q' := Step(q, op);
      multiset(Remaining(q.ordseq)) ==
        DoneKinds(EventOf(q, op)) + if Active(q') then multiset(Remaining(q'.ordseq)) else multiset{}
  {
    hide Books; hide Complete; hide Remaining;
    if op.OpComplete? {
      DoneComplete(q, op.i, op.error);
    } else {
      hide Step; hide EventOf;
      PhasesStay(q, op);
      DoneOne(EventOf(q, op));
    }
  }

  lemma DoneOne(es: seq<Event>)
    requires |es| <= 1
    ensures DoneKinds(es) == if es != [] && es[0].Done? then multiset{es[0].k} else multiset{}
  {
    if es != [] { assert es[1..] == []; }
  }

  lemma DoneComplete(q: Queue, i: nat, error: int)
    requires Books(q) && Active(q) && i < |q.flying|
    ensures var q' := Complete(q, i, error); var r := q.flying[i];
      multiset(Remaining(q.ordseq)) ==
        DoneKinds(if IsProxy(r) then [Done(r.kind)] else []) +
        if Active(q') then multiset(Remaining(q'.ordseq)) else multiset{}
  {
    hide Remaining; hide CompleteSeq; hide Books; hide RemoveAt; hide OccurAs; hide CountKept; hide OneSequence;
    hide DrainEnds;
    var r := q.flying[i];
    var p := q.(flying := RemoveAt(q.flying, i));
    BooksStarted(q);
    if IsProxy(r) {
      ProxyCompletes(q, i);
      SameRemaining(p, r);
      DoneOne([Done(r.kind)]);
      PhaseDone(Completed(p, r), r.kind, error);
    } else {
      SameRemaining(p.(completed := p.completed + {r}), r);
    }
  }

  lemma BooksStarted(q: Queue)
    requires Books(q) && Active(q)
    ensures q.ordseq.started
  {}

  /** The end of draining completes no proxy, and ends the sequence only if there is none left. */
  lemma SameRemaining(q: Queue, r: Rq)
    requires Active(q) && q.ordseq.started
    ensures var p := Completed(q, r);
      if Active(p) then Remaining(p.ordseq) == Remaining(q.ordseq) else Remaining(q.ordseq) == []
  {
    hide ReqSeq;
  }

  lemma PhaseDone(q: Queue, k: Kind, error: int)
    requires Active(q) && q.ordseq.started && Common(q.ordseq, PhaseBit(k)) == NO_PHASES
    requires k == PreFlush || k == Bar || k == PostFlush
    ensures var p := CompleteSeq(q, PhaseBit(k), error);
      multiset(Remaining(q.ordseq)) == multiset{k} + if Active(p) then multiset(Remaining(p.ordseq)) else multiset{}
  {}

  lemma {:induction false} UntilDone(q: Queue, ops: seq<Op>, q': Queue)
    requires Books(q) && Until(q, ops, q')
    ensures DoneKinds(Events(q, ops)) == multiset(Remaining(q.ordseq))
    decreases |ops|
  {
    hide Books; hide Step; hide Enabled; hide EventOf; hide Remaining; hide DoneKinds;
    var op := ops[0];
    DoneStep(q, op);
    DoneCat(EventOf(q, op), Events(Step(q, op), ops[1..]));
    if |ops| == 1 {
      assert ops[1..] == [];
      NoneTold(Step(q, op));
      DoneOne([]);
    } else {
      BooksStep(q, op);
      UntilDone(Step(q, op), ops[1..], q');
    }
  }

  /**
    In every run of every mode, whatever is added: from the start of a sequence to its end the driver completes
    exactly the proxies that the mode and the size of the barrier ask for, each once.
   */
  lemma SequenceCompletes(mode: Ordered, ops: seq<Op>, q: Queue, first: Op, more: seq<Op>, q': Queue)
    requires ValidMode(mode) && Runs(Initial(mode), ops, q) && !Active(q) && Enabled(q, first)
    requires Until(Step(q, first), more, q')
    ensures var p := Step(q, first); DoneKinds(Events(p, more)) == multiset(Needed(q.nextOrdered, p.orig.sectors))
  {
    hide Books; hide Events; hide Runs; hide Until; hide Needed; hide Remaining; hide DoneKinds; hide Step;
    hide Enabled;
    BooksInitial(mode);
    BooksRuns(Initial(mode), ops, q);
    BooksStep(q, first);
    UntilActive(Step(q, first), more, q');
    UntilDone(Step(q, first), more, q');
    FirstNeeds(q, first);
  }

  lemma FirstNeeds(q: Queue, op: Op)
    requires Books(q) && !Active(q) && Enabled(q, op) && Active(Step(q, op))
    ensures var p := Step(q, op);
      Remaining(p.ordseq) == Needed(q.nextOrdered, p.orig.sectors) && (op.OpFetch? || op.OpPeek?)
  {
    hide Books; hide Next; hide Complete; hide Needed; hide Remaining;
    match op
    case OpFetch => ScanNeeds(q);
    case OpPeek => ScanNeeds(q);
    case OpComplete(i, error) => StaysIdle(q, i, error);
    case _ =>
  }

  // One after the other, when ordered by draining

  /**
    The driver gets the proxies of these kinds one after the other: each is given, perhaps returned and given
    again, and completed before the next one is given. `out`: the first one is with the driver already.
   */
  predicate Served(es: seq<Event>, ks: seq<Kind>, out: bool)
    decreases |es|
  {
    if es == [] then ks == [] && !out
    else
      && ks != [] && es[0].k == ks[0]
      && match es[0]
         case Gave(_) => !out && Served(es[1..], ks, true)
         case Returned(_) => out && Served(es[1..], ks, false)
         case Done(_) => out && Served(es[1..], ks[1..], false)
  }

  /** A proxy is with the driver. */
  predicate Out(q: Queue) { exists i :: 0 <= i < |q.flying| && IsProxy(q.flying[i]) }

  /** What a step makes of the kinds that remain. */
  predicate Moves(es: seq<Event>, ks: seq<Kind>, out: bool, ks': seq<Kind>, out': bool) {
    if es == [] then ks' == ks && out' == out
    else
      && |es| == 1 && ks != [] && es[0].k == ks[0]
      && match es[0]
         case Gave(_) => !out && out' && ks' == ks
         case Returned(_) => out && !out' && ks' == ks
         case Done(_) => out && !out' && ks' == ks[1..]
  }

  lemma MovesServed(es: seq<Event>, ks: seq<Kind>, out: bool, ks': seq<Kind>, out': bool, rest: seq<Event>)
    requires Moves(es, ks, out, ks', out') && Served(rest, ks', out')
    ensures Served(es + rest, ks, out)
  {
    if es == [] {
      assert es + rest == rest;
    } else {
      assert (es + rest)[1..] == rest;
    }
  }

  /** A proxy with the driver is the first that remains, and there is no other. */
  lemma HeldFirst(q: Queue, i: nat)
    requires Flow(q) && i < |q.flying| && IsProxy(q.flying[i])
    ensures Active(q) && Remaining(q.ordseq) != [] && Remaining(q.ordseq)[0] == q.flying[i].kind
    ensures forall j :: 0 <= j < |RemoveAt(q.flying, i)| ==> RemoveAt(q.flying, i)[j].kind == NonFs
  {
    hide Books; hide Turns; hide Sorted; hide Listed;
    assert Held(q, q.flying[i]);
    BooksStarted(q);
    forall j | 0 <= j < |RemoveAt(q.flying, i)| ensures RemoveAt(q.flying, i)[j].kind == NonFs { OnlyProxy(q, i, j); }
  }

  lemma MovesFetch(q: Queue)
    requires Flow(q) && Active(q)
    ensures Moves(EventOf(q, OpFetch), Remaining(q.ordseq), Out(q), Remaining(Fetch(q).0.ordseq), Out(Fetch(q).0))
  {
    hide Flow; hide Next; hide Remaining; hide IsProxy; hide Held;
    StaysActive(q);
    FlowFetch(q);
    if Next(q).1 == Ready {
      NextReady(q);
      var r := q.list[0].rq;
      var q' := Start(q);
      assert q'.flying[|q.flying|] == r;
      if IsProxy(r) {
        HeldFirst(q', |q.flying|);
        assert RemoveAt(q'.flying, |q.flying|) == q.flying;
        NotOut(q);
      } else {
        SameOut(q, q', r);
      }
    }
  }

  lemma NotOut(q: Queue)
    requires forall j :: 0 <= j < |q.flying| ==> q.flying[j].kind == NonFs
    ensures !Out(q)
  {}

  lemma SameOut(q: Queue, q': Queue, r: Rq)
    requires !IsProxy(r) && q'.flying == q.flying + [r]
    ensures Out(q') <==> Out(q)
  {
    if Out(q) {
      var i :| 0 <= i < |q.flying| && IsProxy(q.flying[i]);
      assert q'.flying[i] == q.flying[i];
    }
  }

  lemma RemovedOut(q: Queue, i: nat, q': Queue)
    requires i < |q.flying| && q'.flying == RemoveAt(q.flying, i) && !IsProxy(q.flying[i])
    ensures Out(q') <==> Out(q)
  {
    if Out(q) {
      var j :| 0 <= j < |q.flying| && IsProxy(q.flying[j]);
      assert q'.flying[if j < i then j else j - 1] == q.flying[j];
    }
    if Out(q') {
      var j :| 0 <= j < |q'.flying| && IsProxy(q'.flying[j]);
      assert q.flying[if j < i then j else j + 1] == q'.flying[j];
    }
  }

  lemma MovesRequeue(q: Queue, i: nat)
    requires Flow(q) && Active(q) && i < |q.flying|
    ensures var q' := Requeue(q, i);
      Moves(EventOf(q, OpRequeue(i)), Remaining(q.ordseq), Out(q), Remaining(q'.ordseq), Out(q'))
  {
    hide Flow; hide Remaining; hide IsProxy; hide RemoveAt; hide ReqSeq;
    if IsProxy(q.flying[i]) {
      HeldFirst(q, i);
      NotOut(Requeue(q, i));
    } else {
      RemovedOut(q, i, Requeue(q, i));
    }
  }

  lemma MovesComplete(q: Queue, i: nat, error: int)
    requires Flow(q) && Active(q) && i < |q.flying|
    ensures var q' := Complete(q, i, error); var es := EventOf(q, OpComplete(i, error));
      if Active(q') then Moves(es, Remaining(q.ordseq), Out(q), Remaining(q'.ordseq), Out(q'))
      else Moves(es, Remaining(q.ordseq), Out(q), [], false)
  {
    hide Flow; hide Remaining; hide CompleteSeq; hide Books; hide RemoveAt; hide OccurAs; hide CountKept;
    hide OneSequence; hide DrainEnds; hide IsProxy;
    var r := q.flying[i];
    var p := q.(flying := RemoveAt(q.flying, i));
    FlowBooks(q);
    BooksStarted(q);
    if IsProxy(r) {
      HeldFirst(q, i);
      ProxyKinds(r);
      ProxyCompletes(q, i);
      SameRemaining(p, r);
      FirstDone(Completed(p, r), r.kind, error);
      FlyingComplete(q, i, error);
      NotOut(Complete(q, i, error));
    } else {
      ProxyKinds(r);
      SameRemaining(p.(completed := p.completed + {r}), r);
      FlyingComplete(q, i, error);
      RemovedOut(q, i, Complete(q, i, error));
      if !Active(Complete(q, i, error)) { NoneLeft(q); }
    }
  }

  lemma FlowBooks(q: Queue)
    requires Flow(q)
    ensures Books(q)
  {}

  lemma ProxyKinds(r: Rq)
    ensures IsProxy(r) <==> r.kind != Fs && r.kind != NonFs
  {}

  lemma FlyingComplete(q: Queue, i: nat, error: int)
    requires i < |q.flying|
    ensures Complete(q, i, error).flying == RemoveAt(q.flying, i)
  {
    hide CurSeq; hide DrainEnds; hide RemoveAt;
  }

  /** With nothing left to complete no proxy is with the driver. */
  lemma NoneLeft(q: Queue)
    requires Flow(q) && Active(q) && Remaining(q.ordseq) == []
    ensures !Out(q)
  {
    hide Flow; hide Remaining;
    forall i | 0 <= i < |q.flying| ensures !IsProxy(q.flying[i]) {
      if IsProxy(q.flying[i]) { HeldFirst(q, i); }
    }
  }

  lemma FirstDone(q: Queue, k: Kind, error: int)
    requires Active(q) && q.ordseq.started && Remaining(q.ordseq) != [] && Remaining(q.ordseq)[0] == k
    ensures var p := CompleteSeq(q, PhaseBit(k), error);
      if Active(p) then Remaining(p.ordseq) == Remaining(q.ordseq)[1..] else Remaining(q.ordseq)[1..] == []
  {}

  lemma MovesStep(q: Queue, op: Op)
    requires Flow(q) && Active(q) && Enabled(q, op)
    ensures var q' := Step(q, op);
      if Active(q') then Moves(EventOf(q, op), Remaining(q.ordseq), Out(q), Remaining(q'.ordseq), Out(q'))
      else Moves(EventOf(q, op), Remaining(q.ordseq), Out(q), [], false)
  {
    hide Flow; hide Remaining; hide Moves; hide Complete; hide Requeue; hide Next;
    match op
    case OpComplete(i, error) => MovesComplete(q, i, error);
    case OpFetch => MovesFetch(q); StaysActive(q);
    case OpPeek => StaysActive(q); MovesNot(q, Step(q, op));
    case OpRequeue(i) => MovesRequeue(q, i); RequeueActive(q, i);
    case _ => MovesNot(q, Step(q, op));
  }

  lemma MovesNot(q: Queue, q': Queue)
    requires q'.ordseq == q.ordseq && q'.flying == q.flying
    ensures Moves([], Remaining(q.ordseq), Out(q), Remaining(q'.ordseq), Out(q'))
  {}

  lemma RequeueActive(q: Queue, i: nat)
    requires i < |q.flying|
    ensures Requeue(q, i).ordseq == q.ordseq
  {}

  lemma {:induction false} UntilServed(q: Queue, ops: seq<Op>, q': Queue)
    requires Flow(q) && Until(q, ops, q') && forall i :: 0 <= i < |ops| ==> DrainOp(ops[i])
    ensures Served(Events(q, ops), Remaining(q.ordseq), Out(q))
    decreases |ops|
  {
    hide Flow; hide Step; hide Enabled; hide EventOf; hide Remaining; hide Served; hide Moves; hide Out; hide DrainOp;
    var op := ops[0];
    var p, es := Step(q, op), EventOf(q, op);
    MovesStep(q, op);
    if |ops| == 1 {
      assert ops[1..] == [];
      NoneTold(p);
      NothingServed();
      MovesServed(es, Remaining(q.ordseq), Out(q), [], false, []);
    } else {
      UntilActive(p, ops[1..], q');
      FlowStep(q, op);
      UntilServed(p, ops[1..], q');
      MovesServed(es, Remaining(q.ordseq), Out(q), Remaining(p.ordseq), Out(p), Events(p, ops[1..]));
    }
  }

  lemma NothingServed()
    ensures Served([], [], false)
  {}

  /**
    In every run of a drain mode: from the step that begins a sequence to the one that ends it the driver is
    given exactly the proxies that the mode and the size of the barrier ask for, in their order, and each is
    completed before the next one is given.
   */
  lemma SequenceServed(mode: Ordered, ops: seq<Op>, q: Queue, first: Op, more: seq<Op>, q': Queue)
    requires DrainMode(mode) && Runs(Initial(mode), ops, q) && !Active(q) && Enabled(q, first)
    requires Until(Step(q, first), more, q')
    requires forall i :: 0 <= i < |ops| ==> DrainOp(ops[i])
    requires DrainOp(first) && forall i :: 0 <= i < |more| ==> DrainOp(more[i])
    ensures var p := Step(q, first);
      Served(EventOf(q, first) + Events(p, more), Needed(q.nextOrdered, p.orig.sectors), false)
  {
    hide Flow; hide Events; hide Runs; hide Until; hide Needed; hide Remaining; hide Served; hide Step; hide Enabled;
    hide EventOf; hide Out; hide Moves; hide DrainOp; hide Books;
    FlowInitial(mode);
    FlowRuns(Initial(mode), ops, q);
    FlowStep(q, first);
    FlowBooks(q);
    var p := Step(q, first);
    UntilActive(p, more, q');
    UntilServed(p, more, q');
    FirstNeeds(q, first);
    FirstMoves(q, first);
    MovesServed(EventOf(q, first), Remaining(p.ordseq), false, Remaining(p.ordseq), Out(p), Events(p, more));
  }

  lemma FirstMoves(q: Queue, op: Op)
    requires Flow(q) && !Active(q) && Enabled(q, op) && Active(Step(q, op)) && (op.OpFetch? || op.OpPeek?)
    ensures var p := Step(q, op); Moves(EventOf(q, op), Remaining(p.ordseq), false, Remaining(p.ordseq), Out(p))
  {
    hide Flow; hide Next; hide Remaining; hide IsProxy; hide Held; hide Books;
    FlowBooks(q);
    IdleNotOut(q);
    ScanNeeds(q);
    FlowNext(q);
    FlowFetch(q);
    var n := Next(q).0;
    if op.OpFetch? && Next(q).1 == Ready {
      NextReady(q);
      var r := n.list[0].rq;
      assert Start(n).flying == q.flying + [r];
      assert Start(n).flying[|q.flying|] == r;
      if IsProxy(r) { HeldFirst(Start(n), |q.flying|); } else { SameOut(q, Start(n), r); }
    }
  }

  lemma IdleNotOut(q: Queue)
    requires Flow(q) && !Active(q)
    ensures !Out(q)
  {
    hide Books; hide Turns; hide Sorted; hide Listed;
    forall i | 0 <= i < |q.flying| ensures !IsProxy(q.flying[i]) { assert Held(q, q.flying[i]); }
  }
}
