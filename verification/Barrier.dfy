/**
  The block layer's barrier protocol: requests move from the elevator to the
  dispatch list, from there to the driver, and back on a requeue; a barrier is
  replaced by a sequence of pre-flush, proxy and post-flush requests.

  This module has the state and its steps. BarrierBooks.dfy proves the
  bookkeeping, BarrierPhases.dfy what the driver sees of a sequence, BarrierOrder.dfy
  and BarrierSafety.dfy the ordering, BarrierTags.dfy what differs with tags, and
  BarrierQueue.dfy is the queue object whose methods perform these steps in place.
 */
module Barrier {
  import opened Options

  /** A request of the file system, another request, or one of the queue's three own requests. */
  datatype Kind = Fs | NonFs | PreFlush | Bar | PostFlush

  /**
    A request. `id` is its place in the order of addition; `epoch` counts the
    barriers of the file system added before it and is not part of the source's request:
    the source keeps one bit, `color`, which every hard barrier changes.
   */
  datatype Rq = Rq(id: nat, kind: Kind, barrier: bool, sectors: nat, color: bool, write: bool, discard: bool,
                   pos: nat, epoch: nat)

  /** A place on the dispatch list; `stop` stands for any of the soft-barrier, hard-barrier and started flags. */
  datatype Entry = Entry(rq: Rq, stop: bool)

  /** The phases of an ordered sequence, as bits of `ordseq`. */
  datatype Phases = Phases(started: bool, drain: bool, preflush: bool, bar: bool, postflush: bool)

  const NO_PHASES := Phases(false, false, false, false, false)

  const DRAIN: nat := 2
  const PREFLUSH: nat := 4
  const BAR: nat := 8
  const POSTFLUSH: nat := 16
  const DONE: nat := 32

  /** The lowest clear bit, or 0 when no sequence is in progress. */
  function CurSeq(o: Phases): nat {
    if o == NO_PHASES then 0
    else if !o.started then 1
    else if !o.drain then DRAIN
    else if !o.preflush then PREFLUSH
    else if !o.bar then BAR
    else if !o.postflush then POSTFLUSH
    else DONE
  }

  function Union(a: Phases, b: Phases): Phases {
    Phases(a.started || b.started, a.drain || b.drain,
           a.preflush || b.preflush, a.bar || b.bar, a.postflush || b.postflush)
  }

  function Common(a: Phases, b: Phases): Phases {
    Phases(a.started && b.started, a.drain && b.drain,
           a.preflush && b.preflush, a.bar && b.bar, a.postflush && b.postflush)
  }

  const DRAIN_BIT := Phases(false, true, false, false, false)

  /** The bit of a phase that has its own request. */
  function PhaseBit(k: Kind): Phases {
    Phases(false, false, k == PreFlush, k == Bar, k == PostFlush)
  }

  /** How a queue orders barriers. */
  datatype Ordered = Ordered(byDrain: bool, byTag: bool, preflush: bool, bar: bool, postflush: bool, fua: bool)

  const ORDERED_NONE := Ordered(false, false, false, false, false, false)
  const ORDERED_DRAIN := Ordered(true, false, false, true, false, false)
  const ORDERED_DRAIN_FLUSH := Ordered(true, false, true, true, true, false)
  const ORDERED_DRAIN_FUA := Ordered(true, false, true, true, false, true)
  const ORDERED_TAG := Ordered(false, true, false, true, false, false)
  const ORDERED_TAG_FLUSH := Ordered(false, true, true, true, true, false)
  const ORDERED_TAG_FUA := Ordered(false, true, true, true, false, true)

  predicate DrainMode(m: Ordered) { m == ORDERED_DRAIN || m == ORDERED_DRAIN_FLUSH || m == ORDERED_DRAIN_FUA }

  predicate TagMode(m: Ordered) { m == ORDERED_TAG || m == ORDERED_TAG_FLUSH || m == ORDERED_TAG_FUA }

  predicate ValidMode(m: Ordered) { m == ORDERED_NONE || DrainMode(m) || TagMode(m) }

  const EOPNOTSUPP: int := 95

  /**
    The request queue. The fields from `flying` on record what has happened; the source
    has no counterpart for them and no step depends on them, except that
    `flying` says which requests the driver holds.
   */
  datatype Queue = Queue(
    list: seq<Entry>,
    elevator: seq<Rq>,
    inFlight: int,
    ordcolor: bool,
    ordseq: Phases,
    orderr: int,
    ordered: Ordered,
    nextOrdered: Ordered,
    orig: Rq,
    flying: seq<Rq>,
    added: seq<Rq>,
    completed: set<Rq>,
    barriers: nat,
    begun: nat,
    errors: seq<int>,
    ended: seq<(Rq, int)>)

  predicate Active(q: Queue) { q.ordseq != NO_PHASES }

  /** Requests that count as in flight: those of the file system, and the proxy. */
  predicate Accounted(r: Rq) { r.kind == Fs || r.kind == Bar }

  function Odd(n: nat): bool { n % 2 == 1 }

  // Positions on the dispatch list

  function Insert(list: seq<Entry>, at: nat, e: Entry): seq<Entry>
    requires at <= |list|
  {
    list[..at] + [e] + list[at..]
  }

  function RemoveAt<T>(s: seq<T>, i: nat): seq<T>
    requires i < |s|
  {
    s[..i] + s[i + 1..]
  }

  /** Whether the backward scan of elv_dispatch_sort ends at `p`. */
  predicate StopsAt(r: Rq, p: Entry, boundary: nat) {
    || r.discard != p.rq.discard
    || r.write != p.rq.write
    || p.stop
    || (if r.pos >= boundary then p.rq.pos >= boundary && r.pos >= p.rq.pos
        else p.rq.pos >= boundary || r.pos >= p.rq.pos)
  }

  /** Where elv_dispatch_sort puts `r`: behind the last of the first `k` entries that ends the scan. */
  function SortPos(list: seq<Entry>, r: Rq, boundary: nat, k: nat): (p: nat)
    requires k <= |list|
    ensures p <= k
    ensures p > 0 ==> StopsAt(r, list[p - 1], boundary)
    ensures forall i :: p <= i < k ==> !StopsAt(r, list[i], boundary)
  {
    if k == 0 || StopsAt(r, list[k - 1], boundary) then k else SortPos(list, r, boundary, k - 1)
  }

  /** The phase in which a request may go to the driver. */
  function ReqSeq(orig: Rq, r: Rq): nat {
    match r.kind
    case PreFlush => PREFLUSH
    case Bar => BAR
    case PostFlush => POSTFLUSH
    case NonFs => DRAIN
    case Fs => if r.color == orig.color then DRAIN else DONE
  }

  /** Where a requeued request goes during a sequence: in front of the first one whose phase is not smaller. */
  function RequeuePos(orig: Rq, list: seq<Entry>, seq_: nat, i: nat): (p: nat)
    requires i <= |list|
    ensures i <= p <= |list|
    ensures forall j :: i <= j < p ==> ReqSeq(orig, list[j].rq) < seq_
    ensures p < |list| ==> seq_ <= ReqSeq(orig, list[p].rq)
    decreases |list| - i
  {
    if i == |list| || seq_ <= ReqSeq(orig, list[i].rq) then i else RequeuePos(orig, list, seq_, i + 1)
  }

  // Steps

  /** What the submitter decides about a new request. */
  datatype Template = Template(kind: Kind, barrier: bool, soft: bool, elvpriv: bool, sectors: nat, write: bool,
                               discard: bool, pos: nat)

  datatype Where = Front | Back | Sort

  /** Barriers, soft barriers and requests without elevator data are inserted at the back. */
  function EffectiveWhere(t: Template, where: Where): Where {
    if where == Sort && (t.barrier || t.soft || !t.elvpriv) then Back else where
  }

  function NewRq(q: Queue, t: Template): Rq {
    Rq(|q.added|, t.kind, t.barrier, t.sectors, q.ordcolor, t.write, t.discard, t.pos, q.barriers)
  }

  /**
    The callers' obligations: only file system requests are sorted, none of them is
    inserted at the front, and a back insertion comes after the elevator has been
    emptied by forced dispatching.
   */
  predicate CanAdd(q: Queue, t: Template, where: Where) {
    && (t.kind == Fs || t.kind == NonFs)
    && match EffectiveWhere(t, where)
       case Front => t.kind == NonFs
       case Back => q.elevator == []
       case Sort => t.kind == Fs
  }

  /** __elv_add_request and the first three cases of elv_insert. */
  function Add(q: Queue, t: Template, where: Where): Queue {
    var r := NewRq(q, t);
    var q := q.(added := q.added + [r],
                ordcolor := if t.barrier then !q.ordcolor else q.ordcolor,
                barriers := if t.barrier && t.kind == Fs then q.barriers + 1 else q.barriers);
    match EffectiveWhere(t, where)
    case Front => q.(list := [Entry(r, true)] + q.list)
    case Back => q.(list := q.list + [Entry(r, true)])
    case Sort => q.(elevator := q.elevator + [r])
  }

  /** The elevator hands a request over, by elv_dispatch_sort or by elv_dispatch_add_tail. */
  function Dispatch(q: Queue, i: nat, sorted: bool, boundary: nat): Queue
    requires i < |q.elevator|
  {
    var r := q.elevator[i];
    var at := if sorted then SortPos(q.list, r, boundary, |q.list|) else |q.list|;
    q.(elevator := RemoveAt(q.elevator, i), list := Insert(q.list, at, Entry(r, false)))
  }

  function RecordError(q: Queue, error: int): Queue {
    q.(orderr := if error != 0 && q.orderr == 0 then error else q.orderr, errors := q.errors + [error])
  }

  /** blk_ordered_complete_seq. */
  function CompleteSeq(q: Queue, bits: Phases, error: int): Queue {
    var q := RecordError(q, error);
    var q := q.(ordseq := Union(q.ordseq, bits));
    if CurSeq(q.ordseq) != DONE then q
    else q.(ordseq := NO_PHASES, completed := q.completed + {q.orig}, ended := q.ended + [(q.orig, q.orderr)])
  }

  /** The proxies that a sequence queues, in dispatch order. */
  function Proxies(o: Ordered, orig: Rq): seq<Entry> {
    MaybeQueue(o.preflush, PreFlush, orig) + MaybeQueue(o.bar, Bar, orig) + MaybeQueue(o.postflush, PostFlush, orig)
  }

  function MaybeQueue(wanted: bool, k: Kind, orig: Rq): seq<Entry> {
    if wanted then [Entry(Proxy(k, orig), true)] else []
  }

  function Proxy(k: Kind, orig: Rq): Rq {
    Rq(0, k, true, if k == Bar then orig.sectors else 0, false, k == Bar && orig.write, false, 0, orig.epoch)
  }

  /** The ordering used for one barrier: an empty one has no proxy and no post-flush, and may have to drain. */
  function EffectiveOrdered(o: Ordered, sectors: nat): Ordered {
    if sectors != 0 then o
    else
      var o := o.(bar := false, postflush := false);
      if o.byTag && !o.preflush then o.(byTag := false, byDrain := true) else o
  }

  /** The phases that need no request or no waiting. */
  function Skip(o: Ordered, inFlight: int): Phases {
    Phases(false, !(o.byDrain && inFlight != 0), !o.preflush, !o.bar, !o.postflush)
  }

  /** What the head of the dispatch list leads to. */
  datatype Verdict = Give | Wait | Gone

  /** The first part of start_ordered: the barrier at the head is stashed away and its proxies take its place. */
  function Begin(q: Queue): Queue
    requires q.list != []
  {
    var orig := q.list[0].rq;
    var o := EffectiveOrdered(q.nextOrdered, orig.sectors);
    q.(orderr := 0, errors := [], ordered := o, ordseq := Phases(true, false, false, false, false), orig := orig,
       begun := q.begun + 1, list := Proxies(o, orig) + q.list[1..])
  }

  /** start_ordered, with the barrier at the head of the list. */
  function StartOrdered(q: Queue): (r: (Queue, Verdict))
    requires q.list != []
    ensures r.1 == Give ==> r.0.list != []
    ensures r.1 == Gone ==> |r.0.list| < |q.list|
  {
    var p := Begin(q);
    var skip := Skip(p.ordered, p.inFlight);
    var p := CompleteSeq(p, skip, 0);
    (p, if !Active(p) then Gone else if skip.drain then Give else Wait)
  }

  /** blk_do_ordered on the head of the dispatch list. */
  function DoOrdered(q: Queue): (r: (Queue, Verdict))
    requires q.list != []
    ensures r.1 == Give ==> r.0.list != []
    ensures r.1 == Gone ==> |r.0.list| < |q.list|
  {
    var r := q.list[0].rq;
    var isBarrier := (r.kind == Fs || r.kind == Bar) && r.barrier;
    if !Active(q) then
      if !isBarrier then (q, Give)
      else if q.nextOrdered != ORDERED_NONE then StartOrdered(q)
      else (q.(list := q.list[1..], completed := q.completed + {r}, begun := q.begun + 1,
               ended := q.ended + [(r, -EOPNOTSUPP)]), Gone)
    else if r.kind == NonFs then (q, Give)
    else if q.ordered.byTag then (q, if isBarrier && r.kind != Bar then Wait else Give)
    else (q, if ReqSeq(q.orig, r) > CurSeq(q.ordseq) then Wait else Give)
  }

  /** What one scan of the dispatch list comes to: the head may go, must wait, or the list is used up. */
  datatype Scan = Ready | Blocked | Empty

  /** The inner loop of __elv_next_request. */
  function Next(q: Queue): (r: (Queue, Scan))
    ensures r.1 == Ready ==> r.0.list != []
    decreases |q.list|
  {
    if q.list == [] then (q, Empty)
    else
      var (q', v) := DoOrdered(q);
      match v
      case Give => (q', Ready)
      case Wait => (q', Blocked)
      case Gone => Next(q')
  }

  lemma NextReady(q: Queue)
    ensures Next(q).1 == Ready ==> Next(q).0.list != []
  {}

  /** The head of the list goes to the driver. */
  function Start(q: Queue): Queue
    requires q.list != []
  {
    var r := q.list[0].rq;
    q.(list := q.list[1..], flying := q.flying + [r], inFlight := if Accounted(r) then q.inFlight + 1 else q.inFlight)
  }

  /** blk_fetch_request, up to the point where the dispatch list offers nothing. */
  function Fetch(q: Queue): (Queue, Option<Rq>) {
    var (q', s) := Next(q);
    if s == Ready then (Start(q'), Some(q'.list[0].rq)) else (q', None)
  }

  /** blk_peek_request on its own: the head stays on the list, and from now on nothing is sorted before it. */
  function Peek(q: Queue): Queue {
    var (q', s) := Next(q);
    if s == Ready then q'.(list := [Entry(q'.list[0].rq, true)] + q'.list[1..]) else q'
  }

  /** Nothing is in flight and nothing of the drained epoch is left. */
  predicate DrainEnds(q: Queue) {
    && Active(q) && q.inFlight == 0 && CurSeq(q.ordseq) == DRAIN
    && (q.list == [] || ReqSeq(q.orig, q.list[0].rq) > DRAIN)
  }

  /** elv_completed_request: the last request in flight ends the draining phase. */
  function Completed(q: Queue, r: Rq): Queue {
    var q := if Accounted(r) then q.(inFlight := q.inFlight - 1) else q;
    if DrainEnds(q) then CompleteSeq(q, DRAIN_BIT, 0) else q
  }

  /** The driver ends a request: through its end_io function, or by dropping its last reference. */
  function Complete(q: Queue, i: nat, error: int): Queue
    requires i < |q.flying|
  {
    var r := q.flying[i];
    var q := q.(flying := RemoveAt(q.flying, i));
    if r.kind == Fs || r.kind == NonFs then Completed(q.(completed := q.completed + {r}), r)
    else CompleteSeq(Completed(q, r), PhaseBit(r.kind), error)
  }

  /** req_bio_endio on a part of the proxy: the error is only recorded. */
  function BarProgress(q: Queue, error: int): Queue {
    RecordError(q, error)
  }

  /** elv_requeue_request and the last case of elv_insert. */
  function Requeue(q: Queue, i: nat): Queue
    requires i < |q.flying|
  {
    var r := q.flying[i];
    var at := if !Active(q) then 0 else RequeuePos(q.orig, q.list, ReqSeq(q.orig, r), 0);
    q.(flying := RemoveAt(q.flying, i), inFlight := if Accounted(r) then q.inFlight - 1 else q.inFlight,
       list := Insert(q.list, at, Entry(r, true)))
  }

  /** blk_queue_ordered. */
  function SetOrdered(q: Queue, mode: Ordered): Queue {
    q.(ordered := mode, nextOrdered := mode)
  }

  // Runs

  datatype Op =
    | OpAdd(t: Template, where: Where)
    | OpDispatch(i: nat, sorted: bool, boundary: nat)
    | OpPeek
    | OpFetch
    | OpComplete(i: nat, error: int)
    | OpBarProgress(error: int)
    | OpRequeue(i: nat)
    | OpSetOrdered(mode: Ordered)

  predicate Enabled(q: Queue, op: Op) {
    match op
    case OpAdd(t, where) => CanAdd(q, t, where)
    case OpDispatch(i, _, _) => i < |q.elevator|
    case OpPeek => true
    case OpFetch => true
    case OpComplete(i, _) => i < |q.flying|
    case OpBarProgress(_) => exists i :: 0 <= i < |q.flying| && q.flying[i].kind == Bar
    case OpRequeue(i) => i < |q.flying|
    case OpSetOrdered(mode) => ValidMode(mode)
  }

  function Step(q: Queue, op: Op): Queue
    requires Enabled(q, op)
  {
    match op
    case OpAdd(t, where) => Add(q, t, where)
    case OpDispatch(i, sorted, boundary) => Dispatch(q, i, sorted, boundary)
    case OpPeek => Peek(q)
    case OpFetch => Fetch(q).0
    case OpComplete(i, error) => Complete(q, i, error)
    case OpBarProgress(error) => BarProgress(q, error)
    case OpRequeue(i) => Requeue(q, i)
    case OpSetOrdered(mode) => SetOrdered(q, mode)
  }

  const NO_RQ := Rq(0, NonFs, false, 0, false, false, false, 0, 0)

  function Initial(mode: Ordered): Queue {
    Queue([], [], 0, false, NO_PHASES, 0, mode, mode, NO_RQ, [], [], {}, 0, 0, [], [])
  }

  /** The steps `ops` are possible one after the other from `q` and lead to `q'`. */
  predicate Runs(q: Queue, ops: seq<Op>, q': Queue)
    decreases |ops|
  {
    if ops == [] then q == q'
    else Enabled(q, ops[0]) && Runs(Step(q, ops[0]), ops[1..], q')
  }

  lemma RunsNone(q: Queue)
    ensures Runs(q, [], q)
  {}

  lemma {:induction false} RunsCat(q: Queue, a: seq<Op>, p: Queue, b: seq<Op>, r: Queue)
    requires Runs(q, a, p) && Runs(p, b, r)
    ensures Runs(q, a + b, r)
    decreases |a|
  {
    hide Step; hide Enabled;
    if a == [] {
      assert a + b == b;
    } else {
      assert (a + b)[1..] == a[1..] + b;
      RunsCat(Step(q, a[0]), a[1..], p, b, r);
    }
  }

  lemma RunsOne(q: Queue, op: Op)
    requires Enabled(q, op)
    ensures Runs(q, [op], Step(q, op))
  {
    hide Step; hide Enabled;
    assert [op][1..] == [];
  }

  lemma RunsThen(q: Queue, a: seq<Op>, p: Queue, op: Op)
    requires Runs(q, a, p) && Enabled(p, op)
    ensures Runs(q, a + [op], Step(p, op))
  {
    RunsOne(p, op);
    RunsCat(q, a, p, [op], Step(p, op));
  }
}
