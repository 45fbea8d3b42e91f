/**
  Hard barriers that are not requests of the file system. They change the colour like the others but start
  no sequence, so that a request behind two barriers has the colour of the first one again: runs in which
  it passes the barrier in progress, for all templates and all drain modes.
 */
module BarrierMixed {
  import opened Options
  import opened Barrier
  import opened BarrierBooks
  import opened BarrierTurns
  import opened BarrierOrder
  import opened BarrierSafety
  import opened BarrierProgress

  // Runs that only add requests of certain templates

  predicate Allowed(op: Op, T: set<Template>) { (op.OpAdd? ==> op.t in T) && !op.OpSetOrdered? }

  ghost predicate Uses(ops: seq<Op>, T: set<Template>) { forall i :: 0 <= i < |ops| ==> Allowed(ops[i], T) }

  /** A queue of this mode can come to `q` when only these templates are used. */
  ghost predicate Reach(mode: Ordered, T: set<Template>, q: Queue) {
    exists ops :: Runs(Initial(mode), ops, q) && Uses(ops, T)
  }

  lemma ReachInitial(mode: Ordered, T: set<Template>)
    ensures Reach(mode, T, Initial(mode))
  {
    RunsNone(Initial(mode));
    assert Uses([], T);
  }

  lemma ReachStep(mode: Ordered, T: set<Template>, q: Queue, op: Op)
    requires Reach(mode, T, q) && Enabled(q, op) && Allowed(op, T)
    ensures Reach(mode, T, Step(q, op))
  {
    hide Step; hide Enabled; hide Runs;
    var ops :| Runs(Initial(mode), ops, q) && Uses(ops, T);
    RunsThen(Initial(mode), ops, q, op);
    assert Uses(ops + [op], T);
  }

  /** What adding a request, and dispatching it if it is sorted, makes of a queue. */
  ghost predicate Submitted(q: Queue, t: Template, q': Queue) {
    && q' == q.(list := q'.list, added := q.added + [NewRq(q, t)],
                ordcolor := if t.barrier then !q.ordcolor else q.ordcolor,
                barriers := if t.barrier && t.kind == Fs then q.barriers + 1 else q.barriers)
    && |q'.list| == |q.list| + 1 && q'.list[..|q.list|] == q.list && q'.list[|q.list|].rq == NewRq(q, t)
  }

  lemma Submit(mode: Ordered, T: set<Template>, q: Queue, t: Template) returns (q': Queue)
    requires Reach(mode, T, q) && q.elevator == [] && t in T && (t.kind == Fs || t.kind == NonFs)
    ensures Reach(mode, T, q') && Submitted(q, t, q')
  {
    hide Reach;
    var where := if t.kind == Fs then Sort else Back;
    var add := OpAdd(t, where);
    ReachStep(mode, T, q, add);
    q' := Step(q, add);
    if EffectiveWhere(t, where) == Sort {
      var take := OpDispatch(0, false, 0);
      ReachStep(mode, T, q', take);
      q' := Step(q', take);
    }
  }

  lemma TakeNext(mode: Ordered, T: set<Template>, q: Queue)
    requires Reach(mode, T, q)
    ensures Reach(mode, T, Fetch(q).0)
  {
    hide Reach; hide Fetch;
    ReachStep(mode, T, q, OpFetch);
  }

  // What the next fetch gives

  lemma FetchHead(q: Queue)
    requires q.list != [] && DoOrdered(q).1 == Give
    ensures var p := DoOrdered(q).0; p.list != [] && Fetch(q) == (Start(p), Some(p.list[0].rq))
  {
    hide DoOrdered; hide Start;
  }

  /** During a sequence. */
  lemma FetchPasses(q: Queue)
    requires Active(q) && q.list != [] && !q.ordered.byTag
    requires q.list[0].rq.kind == NonFs || ReqSeq(q.orig, q.list[0].rq) <= CurSeq(q.ordseq)
    ensures Fetch(q) == (Start(q), Some(q.list[0].rq))
  {
    hide Start; hide StartOrdered; hide CurSeq; hide ReqSeq;
    assert DoOrdered(q) == (q, Give);
    FetchHead(q);
  }

  // A barrier in progress, one of its proxies at the driver

  /** The proxies that come after the one of kind `k`, if the phases `o` are complete. */
  function Queued(o: Phases, k: Kind, orig: Rq): seq<Entry> {
    MaybeQueue(k == PreFlush && !o.bar, Bar, orig) + MaybeQueue(k != PostFlush && !o.postflush, PostFlush, orig)
  }

  /** The proxy of the current phase is at the driver, those of later phases are on the list in front of `rest`. */
  predicate Open(q: Queue, rest: seq<Entry>) {
    && |q.flying| == 1 && IsProxy(q.flying[0])
    && q.ordseq.started && q.ordseq.drain && CurSeq(q.ordseq) == Phase(q.flying[0]) && !q.ordered.byTag
    && q.inFlight == (if q.flying[0].kind == Bar then 1 else 0)
    && q.list == Queued(q.ordseq, q.flying[0].kind, q.orig) + rest
  }

  /** What a sequence leaves alone. */
  predicate SameRun(q: Queue, q': Queue) {
    && q'.added == q.added && q'.ended == q.ended && q'.elevator == q.elevator && q'.ordcolor == q.ordcolor
    && q'.nextOrdered == q.nextOrdered && q'.barriers == q.barriers && q'.completed == q.completed
  }

  /** A barrier at the head of an idle queue with something to do for it. */
  predicate Starts(q: Queue) {
    && !Active(q) && DrainMode(q.nextOrdered) && q.list != [] && IsBarrier(q.list[0].rq)
    && (q.list[0].rq.sectors != 0 || q.nextOrdered.preflush)
  }

  lemma StartsSequence(q: Queue)
    requires Starts(q)
    ensures var (p, v) := DoOrdered(q); var orig := q.list[0].rq;
      var o := EffectiveOrdered(q.nextOrdered, orig.sectors);
      && p == Begin(q).(ordseq := Union(Phases(true, false, false, false, false), Skip(o, q.inFlight)), errors := [0])
      && !p.ordered.byTag && v == (if q.inFlight == 0 then Give else Wait)
      && p.list == Proxies(o, orig) + q.list[1..]
      && (o.preflush || o.bar)
  {}

  lemma Opens(q: Queue)
    requires Starts(q) && q.inFlight == 0 && q.flying == []
    ensures var q' := Fetch(q).0; Open(q', q.list[1..]) && q'.orig == q.list[0].rq && SameRun(q, q')
  {
    hide DoOrdered; hide Fetch; hide Open; hide Queued;
    StartsSequence(q);
    FetchHead(q);
    OpensFirst(DoOrdered(q).0, q.list[1..], EffectiveOrdered(q.nextOrdered, q.list[0].rq.sectors));
  }

  lemma OpensFirst(p: Queue, rest: seq<Entry>, o: Ordered)
    requires p.list == Proxies(o, p.orig) + rest && (o.preflush || o.bar) && p.flying == [] && p.inFlight == 0
    requires p.ordseq == Phases(true, true, !o.preflush, !o.bar, !o.postflush) && !p.ordered.byTag
    ensures p.list != [] && Open(Start(p), rest)
  {
    var k := if o.preflush then PreFlush else Bar;
    assert p.list == [Entry(Proxy(k, p.orig), true)] + (Queued(p.ordseq, k, p.orig) + rest);
  }

  lemma ProxyDone(q: Queue, rest: seq<Entry>)
    requires Open(q, rest)
    ensures var c := Complete(q, 0, 0); var o := Union(q.ordseq, PhaseBit(q.flying[0].kind));
      && c.flying == [] && c.inFlight == 0 && c.list == q.list && c.orig == q.orig && c.ordered == q.ordered
      && (if CurSeq(o) != DONE then c.ordseq == o && SameRun(q, c)
          else !Active(c))
  {
    hide Queued; hide ReqSeq;
  }

  lemma Advances(q: Queue, rest: seq<Entry>)
    requires Open(q, rest) && CurSeq(Union(q.ordseq, PhaseBit(q.flying[0].kind))) != DONE
    ensures var q' := Fetch(Complete(q, 0, 0)).0;
      Open(q', rest) && q'.orig == q.orig && SameRun(q, q') && CurSeq(q'.ordseq) > CurSeq(q.ordseq)
  {
    hide Complete; hide Fetch;
    ProxyDone(q, rest);
    var c := Complete(q, 0, 0);
    var k := if c.ordseq.bar then PostFlush else Bar;
    assert c.list == [Entry(Proxy(k, q.orig), true)] + (Queued(c.ordseq, k, q.orig) + rest);
    FetchPasses(c);
  }

  /** The last proxy of the sequence is at the driver. */
  predicate LastOpen(q: Queue, rest: seq<Entry>) {
    Open(q, rest) && q.list == rest && CurSeq(Union(q.ordseq, PhaseBit(q.flying[0].kind))) == DONE
  }

  lemma {:induction false} ToLast(mode: Ordered, T: set<Template>, q: Queue, rest: seq<Entry>) returns (q': Queue)
    requires Reach(mode, T, q) && Open(q, rest)
    ensures Reach(mode, T, q') && LastOpen(q', rest) && q'.orig == q.orig && SameRun(q, q')
    decreases DONE - CurSeq(q.ordseq)
  {
    hide Reach; hide Complete; hide Fetch;
    if CurSeq(Union(q.ordseq, PhaseBit(q.flying[0].kind))) == DONE {
      q' := q;
      assert Queued(q.ordseq, q.flying[0].kind, q.orig) == [];
    } else {
      Advances(q, rest);
      ReachStep(mode, T, q, OpComplete(0, 0));
      TakeNext(mode, T, Complete(q, 0, 0));
      q' := ToLast(mode, T, Fetch(Complete(q, 0, 0)).0, rest);
    }
  }

  // A request that passes the barrier in progress

  predicate FsBarrier(t: Template) { t.kind == Fs && t.barrier }

  predicate OtherBarrier(t: Template) { t.kind == NonFs && t.barrier }

  /** The list ends with a barrier of the file system, another hard barrier and a request of the file system. */
  ghost predicate Three(q0: Queue, b: Template, r: Template, q: Queue) {
    && |q.list| == 3 && q.list[0].rq == NewRq(q0, b)
    && q.list[1].rq.kind == NonFs && q.list[1].rq.id == |q0.added| + 1
    && q.list[2].rq.kind == Fs && q.list[2].rq.barrier == r.barrier && q.list[2].rq.color == q0.ordcolor
    && q.list[2].rq.id == |q0.added| + 2
    && q == q0.(list := q.list, added := q0.added + Rqs(q.list), ordcolor := q.ordcolor, barriers := q.barriers)
    && q.ordcolor == (q0.ordcolor != r.barrier)
  }

  lemma AddThree(mode: Ordered, T: set<Template>, q0: Queue, b: Template, p: Template, r: Template) returns (q: Queue)
    requires Reach(mode, T, q0) && q0.elevator == [] && q0.list == [] && {b, p, r} <= T
    requires FsBarrier(b) && OtherBarrier(p) && r.kind == Fs
    ensures Reach(mode, T, q) && Three(q0, b, r, q)
  {
    hide Reach;
    var q1 := Submit(mode, T, q0, b);
    var q2 := Submit(mode, T, q1, p);
    q := Submit(mode, T, q2, r);
    assert q.list[0] == q2.list[0] == q1.list[0] && q.list[1] == q2.list[1] by {
      assert q2.list[0] == q2.list[..1][0] && q.list[0] == q.list[..2][0] && q.list[1] == q.list[..2][1];
    }
    assert q.added == q0.added + [q.list[0].rq] + [q.list[1].rq] + [q.list[2].rq];
  }

  /** The next fetch gives the request `x` to the driver while an earlier barrier is in progress. */
  predicate Overtakes(q: Queue, x: Rq) {
    && Fetch(q).1 == Some(x) && x.kind == Fs
    && Active(q) && IsBarrier(q.orig) && q.orig in q.added && q.orig.id < x.id && q.ended == []
    && Fetch(q).0 == Start(q) && q.list != [] && q.list[0].rq == x
  }

  lemma OvertakesBreaks(q: Queue, x: Rq)
    requires Overtakes(q, x)
    ensures !RequestInOrder(q) && (x.barrier ==> !BarrierInTurn(Fetch(q).0))
  {
    var q' := Fetch(q).0;
    assert q'.flying[|q.flying|] == x;
    assert q.orig !in Firsts(q'.ended);
  }

  /** Two more fetches, during the sequence of a barrier, give both requests behind it to the driver. */
  lemma BothPass(mode: Ordered, T: set<Template>, q: Queue) returns (q': Queue)
    requires Reach(mode, T, q) && Active(q) && !q.ordered.byTag && CurSeq(q.ordseq) >= DRAIN
    requires |q.list| == 2 && q.list[0].rq.kind == NonFs && q.list[1].rq.kind == Fs
    requires q.list[1].rq.color == q.orig.color
    requires IsBarrier(q.orig) && q.orig in q.added && q.orig.id < q.list[1].rq.id && q.ended == []
    ensures Reach(mode, T, q') && q' == Start(q) && Overtakes(q', q.list[1].rq)
  {
    hide Reach; hide Fetch; hide CurSeq;
    FetchPasses(q);
    TakeNext(mode, T, q);
    q' := Fetch(q).0;
    FetchPasses(q');
  }

  /** Once the last proxy is at the driver, the request with the barrier's colour passes it. */
  lemma PassesProxies(mode: Ordered, T: set<Template>, b: Template, p: Template, r: Template)
    returns (l: Queue, q: Queue)
    requires DrainMode(mode) && {b, p, r} <= T && FsBarrier(b) && OtherBarrier(p) && r.kind == Fs
    requires b.sectors != 0 || mode.preflush
    ensures Reach(mode, T, q) && |q.list| == 1 && Overtakes(q, q.list[0].rq) && q.list[0].rq.barrier == r.barrier
    ensures ReqSeq(q.orig, q.list[0].rq) < CurSeq(q.ordseq)
    ensures LastOpen(l, l.list) && |l.list| == 2 && l.list[0].rq.kind == NonFs && q == Start(l)
    ensures l.elevator == [] && l.nextOrdered == mode && !l.list[1].rq.color && l.ordcolor == r.barrier
    ensures |l.added| == 3 && l.list[1].rq == l.added[2] && l.list[1].rq.id == 2 && l.completed == {}
    ensures l.orig.id == 0 && l.list[0].rq.id == 1
  {
    hide Reach; hide Fetch; hide CurSeq; hide Open;
    ReachInitial(mode, T);
    var i := Initial(mode);
    var three := AddThree(mode, T, i, b, p, r);
    Opens(three);
    TakeNext(mode, T, three);
    l := ToLast(mode, T, Fetch(three).0, three.list[1..]);
    LastIs(l, l.list);
    assert three.added[0] == three.list[0].rq && three.added[2] == three.list[2].rq;
    q := BothPass(mode, T, l);
  }

  lemma LastIs(q: Queue, rest: seq<Entry>)
    requires LastOpen(q, rest)
    ensures Active(q) && CurSeq(q.ordseq) > DRAIN && !q.ordered.byTag
  {}

  /** With an empty barrier that has no proxies the request passes while another one is drained. */
  lemma PassesDraining(mode: Ordered, T: set<Template>, b: Template, p: Template, r: Template, first: Template)
    returns (q: Queue)
    requires mode == ORDERED_DRAIN || mode == ORDERED_TAG
    requires {b, p, r, first} <= T && FsBarrier(b) && OtherBarrier(p) && r.kind == Fs
    requires first.kind == Fs && !first.barrier && b.sectors == 0
    ensures Reach(mode, T, q) && |q.list| == 1 && Overtakes(q, q.list[0].rq)
    ensures q.list[0].rq.barrier == r.barrier
  {
    hide Reach; hide CurSeq;
    ReachInitial(mode, T);
    var q1 := Submit(mode, T, Initial(mode), first);
    TakeNext(mode, T, q1);
    IdleGives(q1);
    var q2 := Start(q1);
    assert q2.list == [];
    var three := AddThree(mode, T, q2, b, p, r);
    TakeNext(mode, T, three);
    WaitsForDrain(three);
    var w := Fetch(three).0;
    assert three.added[1] == three.list[0].rq;
    q := BothPass(mode, T, w);
  }

  lemma IdleGives(q: Queue)
    requires !Active(q) && q.list != [] && q.list[0].rq.kind == Fs && !q.list[0].rq.barrier
    ensures Fetch(q) == (Start(q), Some(q.list[0].rq))
  {
    hide Start; hide StartOrdered;
    FetchHead(q);
  }

  /** An empty barrier without proxies waits for the requests in flight. */
  lemma WaitsForDrain(q: Queue)
    requires !Active(q) && (q.nextOrdered == ORDERED_DRAIN || q.nextOrdered == ORDERED_TAG) && q.inFlight != 0
    requires q.list != [] && IsBarrier(q.list[0].rq) && q.list[0].rq.sectors == 0
    ensures var w := Fetch(q).0;
      && Active(w) && !w.ordered.byTag && CurSeq(w.ordseq) == DRAIN && w.orig == q.list[0].rq
      && w.list == q.list[1..] && SameRun(q, w)
  {}

  // A proxy that passes a request

  /** The next fetch gives a proxy to the driver while the earlier request `x` is not complete. */
  predicate ProxyOvertakes(q: Queue, x: Rq) {
    && Fetch(q).1.Some? && IsProxy(Fetch(q).1.value) && Fetch(q).0 == Start(q) && q.list != []
    && x in q.added && x.kind == Fs && x.id < q.orig.id && x !in q.completed
  }

  lemma ProxyBreaks(q: Queue, x: Rq)
    requires ProxyOvertakes(q, x)
    ensures !ProxyInOrder(q)
  {}

  /** The completion of the last proxy ends the sequence, whatever else the driver holds. */
  lemma LastDone(q: Queue)
    requires Active(q) && q.flying != [] && IsProxy(q.flying[0]) && CurSeq(q.ordseq) > DRAIN
    requires CurSeq(Union(q.ordseq, PhaseBit(q.flying[0].kind))) == DONE
    ensures var c := Complete(q, 0, 0);
      && !Active(c) && c.flying == q.flying[1..] && c.list == q.list && c.added == q.added && c.elevator == q.elevator
      && c.inFlight == q.inFlight - (if q.flying[0].kind == Bar then 1 else 0) && c.nextOrdered == q.nextOrdered
      && c.completed == q.completed + {q.orig}
  {
    hide ReqSeq;
  }

  /** A requeued request of the other colour goes behind the proxies, and the drain phase ends without it. */
  lemma RequeuedBehind(q: Queue, orig: Rq, o: Ordered, i: nat)
    requires Active(q) && q.orig == orig && q.list == Proxies(o, orig) && i < |q.flying|
    requires q.flying[i].kind == Fs && q.flying[i].color != orig.color
    ensures Requeue(q, i) ==
      q.(list := q.list + [Entry(q.flying[i], true)], flying := RemoveAt(q.flying, i), inFlight := q.inFlight - 1)
  {
    hide CurSeq; hide Proxies;
    ProxiesAre(o, orig);
    RequeueLast(orig, q.list, ReqSeq(orig, q.flying[i]));
    assert q.list[|q.list|..] == [] && q.list[..|q.list|] == q.list;
  }

  lemma RequeueLast(orig: Rq, list: seq<Entry>, s: nat)
    requires forall i :: 0 <= i < |list| ==> ReqSeq(orig, list[i].rq) < s
    ensures RequeuePos(orig, list, s, 0) == |list|
  {}

  lemma ProxiesAre(o: Ordered, orig: Rq)
    ensures var ps := Proxies(o, orig);
      && (o.preflush || o.bar ==> ps != [] && ps[0].rq.kind == if o.preflush then PreFlush else Bar)
      && forall i :: 0 <= i < |ps| ==> IsProxy(ps[i].rq) && DRAIN < ReqSeq(orig, ps[i].rq) < DONE
  {}

  lemma DrainsWithout(q: Queue, o: Ordered)
    requires q.flying != [] && q.flying[0].kind == NonFs && q.inFlight == 0 && q.list != []
    requires q.ordseq == Union(Phases(true, false, false, false, false), Skip(o, 1)) && o.byDrain && !q.ordered.byTag
    requires (o.preflush || o.bar) && q.list[0].rq.kind == (if o.preflush then PreFlush else Bar)
    ensures var c := Complete(q, 0, 0);
      && Active(c) && c.list == q.list && c.orig == q.orig && c.added == q.added
      && c.completed == q.completed + {q.flying[0]} && !c.ordered.byTag
      && ReqSeq(c.orig, c.list[0].rq) <= CurSeq(c.ordseq)
  {}

  /** A barrier that has passed another one and a command are at the driver, and one more barrier waits. */
  lemma BothAtDriver(mode: Ordered, T: set<Template>, b: Template, p: Template) returns (q: Queue, y: Rq)
    requires DrainMode(mode) && {b, p} <= T && FsBarrier(b) && OtherBarrier(p) && (b.sectors != 0 || mode.preflush)
    ensures Reach(mode, T, q) && Starts(q) && q.inFlight == 1 && |q.list| == 1
    ensures |q.flying| == 2 && q.flying[0].kind == NonFs && q.flying[1] == y && y.kind == Fs && y in q.added
    ensures y.color != q.list[0].rq.color && y.id < q.list[0].rq.id && y !in q.completed
  {
    hide Reach; hide Fetch; hide CurSeq; hide Open; hide Complete;
    var l, q0 := PassesProxies(mode, T, b, p, b);
    TakeNext(mode, T, q0);
    var q1 := Start(q0);
    y := l.list[1].rq;
    assert q1.flying == l.flying + [l.list[0].rq, y] && q1.list == [];
    LastParts(l);
    var q2 := Submit(mode, T, q1, b);
    ReachStep(mode, T, q2, OpComplete(0, 0));
    LastDone(q2);
    q := Complete(q2, 0, 0);
  }

  /** With two kinds of hard barriers alone: a barrier that has passed another one is itself passed by a proxy. */
  lemma PassesRequest(mode: Ordered, T: set<Template>, b: Template, p: Template) returns (q: Queue, x: Rq)
    requires DrainMode(mode) && {b, p} <= T && FsBarrier(b) && OtherBarrier(p) && (b.sectors != 0 || mode.preflush)
    ensures Reach(mode, T, q) && ProxyOvertakes(q, x)
  {
    hide Reach; hide ProxyOvertakes; hide Starts;
    var q3, y := BothAtDriver(mode, T, b, p);
    q, x := ThenPasses(mode, T, q3, y);
  }

  lemma LastParts(q: Queue)
    requires LastOpen(q, q.list)
    ensures |q.flying| == 1 && IsProxy(q.flying[0]) && q.inFlight == (if q.flying[0].kind == Bar then 1 else 0)
    ensures Active(q) && CurSeq(q.ordseq) > DRAIN && CurSeq(Union(q.ordseq, PhaseBit(q.flying[0].kind))) == DONE
  {}

  lemma ThenPasses(mode: Ordered, T: set<Template>, q3: Queue, y: Rq) returns (q: Queue, x: Rq)
    requires Reach(mode, T, q3) && Starts(q3) && q3.inFlight == 1 && |q3.list| == 1
    requires |q3.flying| == 2 && q3.flying[0].kind == NonFs && q3.flying[1] == y && y.kind == Fs && y in q3.added
    requires y.color != q3.list[0].rq.color && y.id < q3.list[0].rq.id && y !in q3.completed
    ensures Reach(mode, T, q) && x == y && ProxyOvertakes(q, x)
  {
    hide Reach; hide CurSeq; hide Complete; hide Requeue; hide Proxies; hide DoOrdered;
    var orig := q3.list[0].rq;
    var o := EffectiveOrdered(q3.nextOrdered, orig.sectors);
    StartsSequence(q3);
    TakeNext(mode, T, q3);
    var q4 := Fetch(q3).0;
    ProxiesAre(o, orig);
    RequeuedBehind(q4, orig, o, 1);
    ReachStep(mode, T, q4, OpRequeue(1));
    var q5 := Requeue(q4, 1);
    DrainsWithout(q5, o);
    ReachStep(mode, T, q5, OpComplete(0, 0));
    q := Complete(q5, 0, 0);
    FetchPasses(q);
    x := y;
  }

  // A queue that is stuck

  /** A barrier waits for the one request in flight. */
  lemma StartsWaiting(q: Queue)
    requires !Active(q) && DrainMode(q.nextOrdered) && q.inFlight != 0 && |q.list| == 1 && IsBarrier(q.list[0].rq)
    ensures var w := Fetch(q).0; var orig := q.list[0].rq;
      && Active(w) && CurSeq(w.ordseq) == DRAIN && w.orig == orig && !w.ordered.byTag
      && w.list == Proxies(EffectiveOrdered(q.nextOrdered, orig.sectors), orig)
      && w.flying == q.flying && w.inFlight == q.inFlight
  {
    hide Proxies;
    assert q.list[1..] == [];
  }

  /** A requeued request of the other colour goes behind the proxies, and nobody ends the drain phase. */
  lemma Sticks(mode: Ordered, T: set<Template>, q: Queue) returns (q': Queue)
    requires Reach(mode, T, q) && !Active(q) && DrainMode(q.nextOrdered) && q.inFlight == 1
    requires |q.list| == 1 && IsBarrier(q.list[0].rq)
    requires |q.flying| == 1 && q.flying[0].kind == Fs && q.flying[0].color != q.list[0].rq.color
    ensures Reach(mode, T, q') && !Serves(q')
  {
    hide Reach; hide Fetch; hide CurSeq; hide Requeue; hide Proxies; hide Serves;
    StartsWaiting(q);
    TakeNext(mode, T, q);
    var w := Fetch(q).0;
    var o := EffectiveOrdered(q.nextOrdered, w.orig.sectors);
    RequeuedBehind(w, w.orig, o, 0);
    ReachStep(mode, T, w, OpRequeue(0));
    q' := Requeue(w, 0);
    ProxiesAre(o, w.orig);
    Blocks(q');
  }

  lemma Blocks(q: Queue)
    requires Active(q) && !q.ordered.byTag && CurSeq(q.ordseq) == DRAIN && q.flying == [] && q.list != []
    requires q.list[0].rq.kind != NonFs && ReqSeq(q.orig, q.list[0].rq) > DRAIN
    ensures !Serves(q)
  {
    hide CurSeq; hide ReqSeq;
  }

  /** An ordinary request, another hard barrier, and any barrier. */
  lemma SticksOrdinary(mode: Ordered, T: set<Template>, b: Template, p: Template, x: Template) returns (q: Queue)
    requires DrainMode(mode) && {b, p, x} <= T && FsBarrier(b) && OtherBarrier(p) && x.kind == Fs && !x.barrier
    ensures Reach(mode, T, q) && !Serves(q)
  {
    hide Reach; hide Serves; hide Fetch;
    ReachInitial(mode, T);
    var q1 := Submit(mode, T, Initial(mode), x);
    IdleGives(q1);
    TakeNext(mode, T, q1);
    var q2 := Start(q1);
    assert q2.list == [];
    var q3 := Submit(mode, T, q2, p);
    IdlePasses(q3);
    TakeNext(mode, T, q3);
    var q4 := Start(q3);
    assert q4.list == [];
    OtherDone(q4);
    ReachStep(mode, T, q4, OpComplete(1, 0));
    var q5 := Complete(q4, 1, 0);
    var q6 := Submit(mode, T, q5, b);
    q := Sticks(mode, T, q6);
  }

  lemma IdlePasses(q: Queue)
    requires !Active(q) && q.list != [] && q.list[0].rq.kind == NonFs
    ensures Fetch(q) == (Start(q), Some(q.list[0].rq))
  {
    hide Start; hide StartOrdered;
    FetchHead(q);
  }

  /** Outside a sequence a completion only takes the request from the driver. */
  lemma OtherDone(q: Queue)
    requires !Active(q) && |q.flying| == 2 && q.flying[1].kind == NonFs
    ensures Complete(q, 1, 0) == q.(flying := [q.flying[0]], completed := q.completed + {q.flying[1]})
  {}

  lemma FirstDone(q: Queue)
    requires !Active(q) && |q.flying| == 2 && q.flying[0].kind == NonFs
    ensures Complete(q, 0, 0) == q.(flying := [q.flying[1]], completed := q.completed + {q.flying[0]})
  {}

  /** Barriers alone: one that has passed another one is requeued. */
  lemma SticksBarrier(mode: Ordered, T: set<Template>, b: Template, p: Template) returns (q: Queue)
    requires DrainMode(mode) && {b, p} <= T && FsBarrier(b) && OtherBarrier(p) && (b.sectors != 0 || mode.preflush)
    ensures Reach(mode, T, q) && !Serves(q)
  {
    hide Reach; hide Serves; hide Fetch; hide Complete;
    var q3, y := BothAtDriver(mode, T, b, p);
    FirstDone(q3);
    ReachStep(mode, T, q3, OpComplete(0, 0));
    q := Sticks(mode, T, Complete(q3, 0, 0));
  }

  // Two runs

  const BARRIER := Template(Fs, true, false, true, 8, true, false, 0)
  const COMMAND := Template(NonFs, true, false, false, 0, true, false, 0)
  const WRITE := Template(Fs, false, false, true, 8, true, false, 0)

  /**
    A barrier, a hard barrier that is no request of the file system, and a write: the write has the colour of the
    barrier again and goes to the driver during its sequence, where blk_do_ordered warns of a request that is late.
   */
  lemma WritePassesBarrier()
    ensures exists q ::
      && Reach(ORDERED_DRAIN, {BARRIER, COMMAND, WRITE}, q) && !RequestInOrder(q)
      && Active(q) && q.list != [] && ReqSeq(q.orig, q.list[0].rq) < CurSeq(q.ordseq)
  {
    hide Reach; hide RequestInOrder; hide Overtakes; hide CurSeq;
    var l, q := PassesProxies(ORDERED_DRAIN, {BARRIER, COMMAND, WRITE}, BARRIER, COMMAND, WRITE);
    OvertakesBreaks(q, q.list[0].rq);
    OvertakesActive(q, q.list[0].rq);
  }

  lemma OvertakesActive(q: Queue, x: Rq)
    requires Overtakes(q, x)
    ensures Active(q)
  {}

  /** With a second barrier instead of the write: it goes to the driver itself, without a sequence of its own. */
  lemma BarrierPassesBarrier()
    ensures exists q ::
      && Reach(ORDERED_DRAIN, {BARRIER, COMMAND}, q) && !BarrierInTurn(q)
      && exists i :: 0 <= i < |q.flying| && IsBarrier(q.flying[i])
  {
    hide Reach; hide BarrierInTurn; hide Fetch; hide CurSeq;
    var l, q := PassesProxies(ORDERED_DRAIN, {BARRIER, COMMAND}, BARRIER, COMMAND, BARRIER);
    OvertakesBreaks(q, q.list[0].rq);
    TakeNext(ORDERED_DRAIN, {BARRIER, COMMAND}, q);
    assert IsBarrier(Start(q).flying[|q.flying|]);
  }
}
