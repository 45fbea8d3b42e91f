/**
  The request queue as the source has it: an object whose methods update the
  dispatch list, the counters and the ordering state in place.

  Every method performs steps of the transition system in Barrier.dfy, so what
  BarrierBooks.dfy and BarrierSafety.dfy prove about runs holds of every sequence of calls.
 */
module BarrierQueue {
  import opened Options
  import opened Barrier

  lemma DispatchKeeps(q: Queue, op: Op)
    requires op.OpDispatch? && Enabled(q, op)
    ensures var q' := Step(q, op); q'.added == q.added && q'.barriers == q.barriers && q'.ordcolor == q.ordcolor
  {}

  /** What has happened, kept for the specification only. */
  datatype Past = Past(flying: seq<Rq>, completed: set<Rq>, begun: nat, errors: seq<int>, ended: seq<(Rq, int)>)

  class RequestQueue {
    var list: seq<Entry>
    var elevator: seq<Rq>
    var inFlight: int
    var ordcolor: bool
    var ordseq: Phases
    var orderr: int
    var ordered: Ordered
    var nextOrdered: Ordered
    var orig: Rq
    // The history of the queue; it only serves to number new requests.
    var added: seq<Rq>
    var barriers: nat
    ghost var past: Past

    ghost function View(): Queue
      reads this
    {
      Queue(list, elevator, inFlight, ordcolor, ordseq, orderr, ordered, nextOrdered, orig,
            past.flying, added, past.completed, barriers, past.begun, past.errors, past.ended)
    }

    constructor (mode: Ordered)
      ensures View() == Initial(mode)
    {
      list, elevator, inFlight, ordcolor, ordseq, orderr, ordered, nextOrdered, orig :=
        [], [], 0, false, NO_PHASES, 0, mode, mode, NO_RQ;
      added, barriers, past := [], 0, Past([], {}, 0, [], []);
    }

    /** elv_dispatch_sort: a backward scan for the place of the request. */
    method DispatchSort(i: nat, boundary: nat)
      requires i < |elevator|
      modifies this
      ensures View() == Dispatch(old(View()), i, true, boundary)
    {
      var r := elevator[i];
      elevator := RemoveAt(elevator, i);
      var k := |list|;
      while k > 0
        invariant 0 <= k <= |list|
        invariant SortPos(list, r, boundary, |list|) == SortPos(list, r, boundary, k)
        invariant View() == old(View()).(elevator := RemoveAt(old(elevator), i))
      {
        var p := list[k - 1];
        if r.discard != p.rq.discard { break; }
        if r.write != p.rq.write { break; }
        if p.stop { break; }
        if r.pos >= boundary {
          if p.rq.pos < boundary {
            k := k - 1;
            continue;
          }
        } else {
          if p.rq.pos >= boundary { break; }
        }
        if r.pos >= p.rq.pos { break; }
        k := k - 1;
      }
      list := Insert(list, k, Entry(r, false));
    }

    /** elv_dispatch_add_tail. */
    method DispatchTail(i: nat)
      requires i < |elevator|
      modifies this
      ensures View() == Dispatch(old(View()), i, false, 0)
    {
      var r := elevator[i];
      elevator, list := RemoveAt(elevator, i), Insert(list, |list|, Entry(r, false));
    }

    /** The scheduler hands over one request of its choice, in one of the two ways. */
    method DispatchOne(i: nat, sorted: bool, boundary: nat) returns (ghost op: Op)
      requires i < |elevator|
      modifies this
      ensures op.OpDispatch? && Enabled(old(View()), op) && View() == Step(old(View()), op)
      ensures |elevator| == old(|elevator|) - 1 && past == old(past)
    {
      if sorted {
        DispatchSort(i, boundary);
        op := OpDispatch(i, true, boundary);
      } else {
        DispatchTail(i);
        op := OpDispatch(i, false, 0);
      }
    }

    /** elv_drain_elevator, with a scheduler that gives up everything when forced. */
    method DrainElevator() returns (ghost ops: seq<Op>)
      modifies this
      ensures Runs(old(View()), ops, View()) && elevator == []
      ensures added == old(added) && barriers == old(barriers) && ordcolor == old(ordcolor)
    {
      hide Step; hide Enabled;
      ops := [];
      while elevator != []
        invariant Runs(old(View()), ops, View())
        invariant added == old(added) && barriers == old(barriers) && ordcolor == old(ordcolor)
        decreases |elevator|
      {
        var i :| 0 <= i < |elevator|;
        var sorted: bool := *;
        var boundary: nat := *;
        ghost var before := View();
        ghost var op := DispatchOne(i, sorted, boundary);
        RunsThen(old(View()), ops, before, op);
        DispatchKeeps(before, op);
        ops := ops + [op];
      }
    }

    /** The colour, and the first three cases of elv_insert; `w` is where a barrier or a private request really goes. */
    method InsertRequest(t: Template, ghost where: Where, w: Where)
      requires w == EffectiveWhere(t, where)
      modifies this
      ensures View() == Add(old(View()), t, where)
    {
      var rq := Rq(|added|, t.kind, t.barrier, t.sectors, ordcolor, t.write, t.discard, t.pos, barriers);
      if t.barrier {
        ordcolor := !ordcolor;
        if t.kind == Fs { barriers := barriers + 1; }
      }
      added := added + [rq];
      match w {
        case Front => list := [Entry(rq, true)] + list;
        case Back => list := list + [Entry(rq, true)];
        case Sort => elevator := elevator + [rq];
      }
    }

    /** __elv_add_request. */
    method AddRequest(t: Template, where: Where) returns (ghost ops: seq<Op>)
      requires t.kind == Fs || t.kind == NonFs
      requires EffectiveWhere(t, where) == Front ==> t.kind == NonFs
      requires EffectiveWhere(t, where) == Sort ==> t.kind == Fs
      modifies this
      ensures Runs(old(View()), ops, View())
      ensures added == old(added) + [NewRq(old(View()), t)]
    {
      hide Step; hide Runs; hide Enabled;
      ops := [];
      RunsNone(View());
      var w := where;
      if t.barrier || t.soft {
        if w == Sort { w := Back; }
      } else if !t.elvpriv && w == Sort {
        w := Back;
      }
      if w == Back {
        ops := DrainElevator();
      }
      ghost var before := View();
      InsertRequest(t, where, w);
      StepAdd(before, t, where);
      RunsThen(old(View()), ops, before, OpAdd(t, where));
      ops := ops + [OpAdd(t, where)];
    }

    /** blk_ordered_complete_seq; says whether the sequence is over. */
    method CompletePhases(bits: Phases, error: int) returns (done: bool)
      modifies this
      ensures View() == CompleteSeq(old(View()), bits, error)
      ensures done == (CurSeq(Union(old(ordseq), bits)) == DONE)
    {
      if error != 0 && orderr == 0 {
        orderr := error;
      }
      past := past.(errors := past.errors + [error]);
      ordseq := Union(ordseq, bits);
      if CurSeq(ordseq) != DONE {
        return false;
      }
      ordseq := NO_PHASES;
      past := past.(completed := past.completed + {orig}, ended := past.ended + [(orig, orderr)]);
      done := true;
    }

    /** The middle of start_ordered: the proxies are stacked at the head, the last one first. */
    method QueueProxies() returns (skip: Phases, front: bool)
      modifies this`list
      ensures list == Proxies(ordered, orig) + old(list)
      ensures skip == Phases(false, false, !ordered.preflush, !ordered.bar, !ordered.postflush)
      ensures front == (ordered.preflush || ordered.bar || ordered.postflush)
    {
      hide Proxy;
      skip, front := NO_PHASES, false;
      if ordered.postflush {
        list := [Entry(Proxy(PostFlush, orig), true)] + list;
        front := true;
      } else {
        skip := skip.(postflush := true);
      }
      if ordered.bar {
        list := [Entry(Proxy(Bar, orig), true)] + list;
        front := true;
      } else {
        skip := skip.(bar := true);
      }
      if ordered.preflush {
        list := [Entry(Proxy(PreFlush, orig), true)] + list;
        front := true;
      } else {
        skip := skip.(preflush := true);
      }
    }

    /** An empty barrier has nothing to write, hence nothing to flush behind it. */
    method MaskEmpty(sectors: nat)
      modifies this`ordered
      ensures ordered == EffectiveOrdered(old(ordered), sectors)
    {
      if sectors == 0 {
        ordered := ordered.(bar := false, postflush := false);
        if ordered.byTag && !ordered.preflush {
          ordered := ordered.(byTag := false, byDrain := true);
        }
      }
    }

    /** The head of the list becomes the barrier in progress. */
    method Stash()
      requires list != []
      modifies this
      ensures View() == old(View()).(orderr := 0, errors := [], ordered := old(nextOrdered), orig := old(list)[0].rq,
                                     ordseq := Phases(true, false, false, false, false),
                                     begun := old(past.begun) + 1, list := old(list)[1..])
    {
      orderr, ordered, ordseq := 0, nextOrdered, Phases(true, false, false, false, false);
      orig, list := list[0].rq, list[1..];
      past := past.(errors := [], begun := past.begun + 1);
    }

    /** The first part of start_ordered. */
    method BeginSequence() returns (skip: Phases, front: bool)
      requires list != []
      modifies this
      ensures View() == Begin(old(View()))
      ensures skip == Phases(false, false, !ordered.preflush, !ordered.bar, !ordered.postflush)
      ensures front == (ordered.preflush || ordered.bar || ordered.postflush)
    {
      hide Proxies; hide EffectiveOrdered;
      Stash();
      MaskEmpty(orig.sectors);
      skip, front := QueueProxies();
    }

    /** start_ordered. */
    method StartSequence() returns (v: Verdict)
      requires list != []
      modifies this
      ensures (View(), v) == StartOrdered(old(View()))
    {
      hide Begin; hide CompleteSeq;
      var skip, front := BeginSequence();
      ghost var begin := View();
      assert begin.ordseq == Phases(true, false, false, false, false) by { BeginPhases(old(View())); }
      if ordered.byDrain && inFlight != 0 {
        front := false;
      } else {
        skip := skip.(drain := true);
      }
      var over := CompletePhases(skip, 0);
      SequenceOver(begin, skip);
      v := if over then Gone else if front then Give else Wait;
    }

    /** blk_do_ordered on the head of the dispatch list. */
    method CheckHead() returns (v: Verdict)
      requires list != []
      modifies this
      ensures (View(), v) == DoOrdered(old(View()))
    {
      hide StartOrdered;
      var rq := list[0].rq;
      var isBarrier := (rq.kind == Fs || rq.kind == Bar) && rq.barrier;
      if ordseq == NO_PHASES {
        if !isBarrier {
          return Give;
        }
        if nextOrdered != ORDERED_NONE {
          v := StartSequence();
          return;
        }
        list := list[1..];
        past := past.(completed := past.completed + {rq}, begun := past.begun + 1,
                      ended := past.ended + [(rq, -EOPNOTSUPP)]);
        return Gone;
      }
      if rq.kind == NonFs {
        return Give;
      }
      v := Give;
      if ordered.byTag {
        if isBarrier && rq.kind != Bar {
          v := Wait;
        }
      } else if ReqSeq(orig, rq) > CurSeq(ordseq) {
        v := Wait;
      }
    }

    /** The inner loop of __elv_next_request. */
    method ScanList() returns (s: Scan)
      modifies this
      ensures (View(), s) == Next(old(View()))
      ensures elevator == old(elevator)
    {
      hide DoOrdered;
      while list != []
        invariant Next(View()) == Next(old(View()))
        invariant elevator == old(elevator)
        decreases |list|
      {
        ghost var before := View();
        DoOrderedFrame(before);
        var v := CheckHead();
        if v == Give {
          return Ready;
        }
        if v == Wait {
          return Blocked;
        }
      }
      s := Empty;
    }

    /** The elevator refills the list by one request, unless it is empty or declines. */
    method Refill(ghost start: Queue, ghost ops: seq<Op>) returns (more: bool, ghost ops': seq<Op>)
      requires Runs(start, ops, View())
      modifies this
      ensures Runs(start, ops', View())
      ensures past == old(past) && if more then |elevator| < old(|elevator|) else elevator == old(elevator)
    {
      hide Step; hide Runs;
      more, ops' := *, ops;
      if elevator == [] || !more {
        return false, ops;
      }
      ghost var before := View();
      var i :| 0 <= i < |elevator|;
      var sorted: bool := *;
      var boundary: nat := *;
      ghost var op := DispatchOne(i, sorted, boundary);
      RunsThen(start, ops, before, op);
      ops' := ops + [op];
    }

    /** blk_peek_request: scan the list, and let the elevator refill it while it is empty; the head is marked. */
    method PeekRequest() returns (r: Option<Rq>, ghost ops: seq<Op>)
      modifies this
      ensures Runs(old(View()), ops, View())
      ensures past.flying == old(past.flying) && (r.Some? ==> list != [] && list[0] == Entry(r.value, true))
    {
      hide Step; hide Next; hide Runs;
      ops := [];
      RunsNone(View());
      var more := true;
      r := None;
      while more
        invariant Runs(old(View()), ops, View())
        invariant past.flying == old(past.flying) && r == None
        decreases |elevator|, more
      {
        ghost var before := View();
        var s := ScanList();
        FetchStep(before);
        NextReady(before);
        NextFlying(before);
        if s == Ready {
          list := [Entry(list[0].rq, true)] + list[1..];
          r := Some(list[0].rq);
        }
        RunsThen(old(View()), ops, before, OpPeek);
        ops := ops + [OpPeek];
        if s != Empty {
          return;
        }
        more, ops := Refill(old(View()), ops);
      }
    }

    /** blk_fetch_request: the request that a peek finds goes to the driver. */
    method FetchRequest() returns (r: Option<Rq>, ghost ops: seq<Op>)
      modifies this
      ensures Runs(old(View()), ops, View())
      ensures past.flying == old(past.flying) + if r.Some? then [r.value] else []
    {
      hide Step; hide Next; hide Runs;
      ops := [];
      RunsNone(View());
      var more := true;
      r := None;
      while more
        invariant Runs(old(View()), ops, View())
        invariant past.flying == old(past.flying) && r == None
        decreases |elevator|, more
      {
        ghost var before := View();
        var s := ScanList();
        FetchStep(before);
        NextReady(before);
        NextFlying(before);
        if s == Ready {
          r := Some(list[0].rq);
          list := list[1..];
          past := past.(flying := past.flying + [r.value]);
          if Accounted(r.value) {
            inFlight := inFlight + 1;
          }
        }
        RunsThen(old(View()), ops, before, OpFetch);
        ops := ops + [OpFetch];
        if s != Empty {
          return;
        }
        more, ops := Refill(old(View()), ops);
      }
    }

    /** elv_completed_request. */
    method CompletedRequest(rq: Rq)
      modifies this
      ensures View() == Completed(old(View()), rq)
    {
      hide CompleteSeq;
      if Accounted(rq) {
        inFlight := inFlight - 1;
      }
      if ordseq != NO_PHASES {
        if inFlight == 0 && CurSeq(ordseq) == DRAIN && (list == [] || ReqSeq(orig, list[0].rq) > DRAIN) {
          var _ := CompletePhases(DRAIN_BIT, 0);
        }
      }
    }

    /** The driver has finished a request: the end_io functions, or the drop of the last reference. */
    method EndRequest(rq: Rq, error: int, ghost i: nat) returns (ghost op: Op)
      requires i < |past.flying| && past.flying[i] == rq
      modifies this
      ensures op == OpComplete(i, error) && Enabled(old(View()), op) && View() == Step(old(View()), op)
    {
      hide CompleteSeq; hide Completed;
      op := OpComplete(i, error);
      past := past.(flying := RemoveAt(past.flying, i));
      if rq.kind == Fs || rq.kind == NonFs {
        past := past.(completed := past.completed + {rq});
        CompletedRequest(rq);
      } else {
        CompletedRequest(rq);
        var _ := CompletePhases(PhaseBit(rq.kind), error);
      }
    }

    /** elv_requeue_request and the last case of elv_insert: a scan for the first request of a phase not smaller. */
    method RequeueRequest(rq: Rq, ghost i: nat) returns (ghost op: Op)
      requires i < |past.flying| && past.flying[i] == rq
      modifies this
      ensures op == OpRequeue(i) && Enabled(old(View()), op) && View() == Step(old(View()), op)
    {
      hide Insert; hide RemoveAt; hide ReqSeq;
      op := OpRequeue(i);
      past := past.(flying := RemoveAt(past.flying, i));
      if Accounted(rq) {
        inFlight := inFlight - 1;
      }
      if ordseq == NO_PHASES {
        list := Insert(list, 0, Entry(rq, true));
        return;
      }
      var s := ReqSeq(orig, rq);
      var k := 0;
      while k < |list|
        invariant 0 <= k <= |list|
        invariant RequeuePos(orig, list, s, 0) == RequeuePos(orig, list, s, k)
      {
        if s <= ReqSeq(orig, list[k].rq) { break; }
        k := k + 1;
      }
      list := Insert(list, k, Entry(rq, true));
    }
  }

  lemma BeginPhases(q: Queue)
    requires q.list != []
    ensures Begin(q).ordseq == Phases(true, false, false, false, false)
  {}

  lemma SequenceOver(q: Queue, skip: Phases)
    requires q.ordseq.started
    ensures Active(CompleteSeq(q, skip, 0)) <==> CurSeq(Union(q.ordseq, skip)) != DONE
  {}

  lemma StepAdd(q: Queue, t: Template, where: Where)
    requires CanAdd(q, t, where)
    ensures Enabled(q, OpAdd(t, where)) && Step(q, OpAdd(t, where)) == Add(q, t, where)
  {}

  lemma DoOrderedFrame(q: Queue)
    requires q.list != []
    ensures DoOrdered(q).0.elevator == q.elevator
    ensures DoOrdered(q).1 == Give ==> DoOrdered(q).0.list != []
    ensures DoOrdered(q).1 == Gone ==> |DoOrdered(q).0.list| < |q.list|
  {}

  lemma FetchStep(q: Queue)
    ensures Enabled(q, OpFetch) && Step(q, OpFetch) == Fetch(q).0
    ensures Enabled(q, OpPeek) && Step(q, OpPeek) == Peek(q)
  {}

  lemma {:induction false} NextFlying(q: Queue)
    ensures Next(q).0.flying == q.flying
    decreases |q.list|
  {
    if q.list != [] && DoOrdered(q).1 == Gone { NextFlying(DoOrdered(q).0); }
  }
}
