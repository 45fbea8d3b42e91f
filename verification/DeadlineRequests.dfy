/**
  What becomes of each request: none is lost or sent twice, and its sector and its expiry are what the steps made them.
 */
module DeadlineRequests {
  import opened SortedSeq
  import opened Deadline
  import opened DeadlineIndexes
  import opened DeadlineStarvation

  /** The requests that wait, with their directions. */
  ghost function Waiting(s: State): set<Moved> {
    (set x | x in s.read.fifo :: Moved(x, false)) + (set x | x in s.write.fifo :: Moved(x, true))
  }

  /** The request that a step brings in. */
  function In(op: Op): multiset<Moved> { if op.Queue? then multiset{Moved(op.id, op.write)} else multiset{} }

  /** The request that a merge makes part of another one. */
  function Merged(op: Op): multiset<Moved> { if op.Merge? then multiset{Moved(op.next, op.write)} else multiset{} }

  /** All requests that were there: those that wait and those that went out. */
  ghost function All(s: State): multiset<Moved> { multiset(Waiting(s)) + multiset(s.out) }

  lemma WaitingHas(s: State, x: nat, write: bool)
    ensures Moved(x, write) in Waiting(s) <==> x in Get(s, write).fifo
  {}

  /** Nothing but `x` leaves the FIFOs, and it goes out. */
  lemma AllMoved(s: State, t: State, write: bool, x: nat)
    requires x in Get(s, write).fifo && t.out == s.out + [Moved(x, write)]
    requires forall y :: y in Get(t, write).fifo <==> y in Get(s, write).fifo && y != x
    requires Get(t, !write).fifo == Get(s, !write).fifo
    ensures All(t) == All(s)
  {
    assert Waiting(t) == Waiting(s) - {Moved(x, write)} by {
      forall m ensures m in Waiting(t) <==> m in Waiting(s) && m != Moved(x, write) {
        WaitingHas(s, m.id, m.write); WaitingHas(t, m.id, m.write);
      }
    }
    WaitingHas(s, x, write);
  }

  lemma MoveAll(s: State, write: bool, x: nat)
    requires x in Get(s, write).fifo
    ensures All(Move(s, write, x)) == All(s)
  {
    hide All; hide Without; hide Latter;
    WithoutHas(Get(s, write).fifo, x);
    AllMoved(s, Move(s, write, x), write, x);
  }

  /** What linking a request at a sector does to the others: only one that has the sector goes out. */
  ghost predicate Linked(s: State, t: State, write: bool, x: nat, p: int)
    requires Known(Get(s, write).sort, s.pos)
  {
    && All(t) == All(s) && t.expires == s.expires && t.pos == s.pos[x := p] && t.now == s.now
    && Get(t, !write).fifo == Get(s, !write).fifo
    && (forall y :: y in Get(t, write).fifo ==> y in Get(s, write).fifo)
    && if exists y :: y in Get(s, write).sort && s.pos[y] == p
       then exists y :: y in Get(s, write).sort && s.pos[y] == p && t.out == s.out + [Moved(y, write)]
       else t.out == s.out
  }

  lemma AddRbLinked(s: State, write: bool, x: nat, p: int)
    requires Known(Get(s, write).sort, s.pos)
    requires forall y :: y in Get(s, write).sort ==> y in Get(s, write).fifo
    ensures Linked(s, AddRb(s, write, x, p), write, x, p)
  {
    hide Without; hide Latter; hide Insert; hide Alias; hide All;
    var alias := Alias(Get(s, write).sort, s.pos, p);
    AliasIs(Get(s, write).sort, s.pos, p);
    WithoutHas(Get(s, write).sort, if alias.Some? then alias.value else 0);
    if alias.Some? {
      WithoutHas(Get(s, write).fifo, alias.value);
      MoveAll(s, write, alias.value);
      AllSame(Move(s, write, alias.value), AddRb(s, write, x, p));
    } else {
      AllSame(s, AddRb(s, write, x, p));
    }
  }

  lemma AllSame(s: State, t: State)
    requires t.read.fifo == s.read.fifo && t.write.fifo == s.write.fifo && t.out == s.out
    ensures All(t) == All(s)
  {}

  lemma AllQueued(s: State, t: State, write: bool, x: nat)
    requires x !in s.read.fifo && x !in s.write.fifo && t.out == s.out
    requires Get(t, write).fifo == Get(s, write).fifo + [x] && Get(t, !write).fifo == Get(s, !write).fifo
    ensures All(t) == All(s) + multiset{Moved(x, write)}
  {
    assert Waiting(t) == Waiting(s) + {Moved(x, write)} by {
      forall m ensures m in Waiting(t) <==> m in Waiting(s) || m == Moved(x, write) {
        WaitingHas(s, m.id, m.write); WaitingHas(t, m.id, m.write);
      }
    }
    WaitingHas(s, x, write);
  }

  lemma AllMerged(s: State, t: State, write: bool, y: nat)
    requires y in Get(s, write).fifo && t.out == s.out
    requires forall z :: z in Get(t, write).fifo <==> z in Get(s, write).fifo && z != y
    requires Get(t, !write).fifo == Get(s, !write).fifo
    ensures All(t) + multiset{Moved(y, write)} == All(s)
  {
    AllMoved(s, t.(out := s.out + [Moved(y, write)]), write, y);
    assert Waiting(t.(out := s.out + [Moved(y, write)])) == Waiting(t);
  }

  /** The sector and the expiry of a request are those it had before, but for the request that a step is about. */
  ghost predicate Kept(c: Settings, s: State, op: Op, t: State, y: nat, write: bool) {
    && y in t.pos && y in t.expires
    && if op.Queue? && op.id == y then
         op.write == write && t.pos[y] == op.sector && t.expires[y] == s.now + ExpireTime(c, write)
       else
         && y in Get(s, write).fifo && y in s.pos && y in s.expires
         && (t.pos[y] == if op.Front? && op.id == y then op.sector else s.pos[y])
         && if op.Merge? && op.id == y && op.next in s.expires && s.expires[op.next] < s.expires[y]
            then t.expires[y] == s.expires[op.next] else t.expires[y] == s.expires[y]
  }

  ghost predicate AllKept(c: Settings, s: State, op: Op, t: State) {
    forall y, write :: y in Get(t, write).fifo ==> Kept(c, s, op, t, y, write)
  }

  /** What a step does to the requests, all of them. */
  ghost predicate Accounts(c: Settings, s: State, op: Op, t: State) {
    && All(t) + Merged(op) == All(s) + In(op)
    && s.out <= t.out
    && AllKept(c, s, op, t)
  }

  lemma QueueKept(c: Settings, s: State, x: nat, write: bool, p: int, s1: State)
    requires Good(c, s) && x !in s.read.fifo && x !in s.write.fifo && Known(Get(s, write).sort, s.pos)
    requires Linked(s, s1, write, x, p)
    ensures AllKept(c, s, Queue(x, write, p), Enqueue(c, s1, write, x))
  {
    hide All; hide Shape;
    SideKnown(s.read, s.pos, s.expires); SideKnown(s.write, s.pos, s.expires);
  }

  lemma QueueAccounts(c: Settings, s: State, x: nat, write: bool, p: int)
    requires Good(c, s) && x !in s.read.fifo && x !in s.write.fifo
    ensures Known(Get(s, write).sort, s.pos) && Accounts(c, s, Queue(x, write, p), Add(c, s, write, x, p))
  {
    hide AddRb; hide All; hide Shape; hide AllKept;
    SideKnown(s.read, s.pos, s.expires); SideKnown(s.write, s.pos, s.expires);
    var s0 := s.(nrSorted := s.nrSorted + 1);
    var s1 := AddRb(s0, write, x, p);
    AddRbLinked(s0, write, x, p);
    AllSame(s, s0);
    QueueKept(c, s, x, write, p, s1);
    AllQueued(s1, Add(c, s, write, x, p), write, x);
  }

  lemma FrontAccounts(c: Settings, s: State, x: nat, write: bool, p: int)
    requires Good(c, s) && x in Get(s, write).fifo
    ensures Known(Get(s, write).sort, s.pos) && Accounts(c, s, Front(x, write, p), FrontMerge(s, write, x, p))
  {
    hide AddRb; hide All; hide Shape; hide Without;
    SideKnown(s.read, s.pos, s.expires); SideKnown(s.write, s.pos, s.expires);
    WithoutHas(Get(s, write).sort, x);
    var s0 := Set(s, write, Get(s, write).(sort := Without(Get(s, write).sort, x)));
    AddRbLinked(s0, write, x, p);
    AllSame(s, s0);
  }

  lemma MergeAccounts(c: Settings, s: State, x: nat, write: bool, y: nat)
    requires Good(c, s) && x in Get(s, write).fifo && y in Get(s, write).fifo && x != y
    ensures x in s.expires && y in s.expires && Accounts(c, s, Merge(x, write, y), MergeRequests(s, write, x, y))
  {
    hide All; hide Shape; hide Without; hide Latter; hide Replace;
    SideKnown(s.read, s.pos, s.expires); SideKnown(s.write, s.pos, s.expires);
    var t := MergeRequests(s, write, x, y);
    var fifo := Get(s, write).fifo;
    WithoutHas(fifo, y);
    if s.expires[y] < s.expires[x] {
      WithoutHas(fifo, x);
      WithoutShape(fifo, s.expires, x);
      ReplaceShape(Without(fifo, x), s.expires, y, x);
    }
    AllMerged(s, t, write, y);
  }

  lemma MoveAccounts(c: Settings, s: State, write: bool, x: nat)
    requires Good(c, s) && x in Get(s, write).fifo
    ensures Accounts(c, s, DispatchOne, Move(s, write, x))
  {
    hide All; hide Shape; hide Without; hide Latter;
    SideKnown(s.read, s.pos, s.expires); SideKnown(s.write, s.pos, s.expires);
    WithoutHas(Get(s, write).fifo, x);
    MoveAll(s, write, x);
  }

  /** Counters have no part in it. */
  lemma AccountsFrom(c: Settings, s: State, batching: nat, starved: nat, t: State)
    requires Accounts(c, s.(batching := batching, starved := starved), DispatchOne, t)
    ensures Accounts(c, s, DispatchOne, t)
  {
    AllSame(s, s.(batching := batching, starved := starved));
    hide All;
  }

  lemma DispatchAccounts(c: Settings, s: State)
    requires Good(c, s)
    ensures Known(s.read.fifo, s.expires) && Known(s.write.fifo, s.expires)
    ensures Accounts(c, s, DispatchOne, Dispatch(c, s).1)
  {
    hide All; hide Shape; hide Move; hide Accounts;
    SideKnown(s.read, s.pos, s.expires); SideKnown(s.write, s.pos, s.expires);
    var m := BatchNext(c, s);
    if m.Some? {
      MoveAccounts(c, s.(batching := s.batching + 1), m.value.write, m.value.id);
      AccountsFrom(c, s, s.batching + 1, s.starved, Dispatch(c, s).1);
    } else if s.read.fifo != [] || s.write.fifo != [] {
      var write := PickWrite(c, s);
      var starved := if write then 0 else if s.write.fifo != [] then s.starved + 1 else s.starved;
      MoveAccounts(c, s.(batching := 1, starved := starved), write, BatchStart(s, Get(s, write)));
      AccountsFrom(c, s, 1, starved, Dispatch(c, s).1);
    } else {
      assert Accounts(c, s, DispatchOne, s) by { StillAccounts(c, s, DispatchOne, s); }
    }
  }

  lemma StillAccounts(c: Settings, s: State, op: Op, t: State)
    requires Good(c, s) && (op == DispatchOne || op.Tick?) && t == s.(now := t.now)
    ensures Accounts(c, s, op, t)
  {
    SideKnown(s.read, s.pos, s.expires); SideKnown(s.write, s.pos, s.expires);
    AllSame(s, t);
    hide All;
  }

  /** Every step accounts for every request. */
  lemma StepAccounts(c: Settings, s: State, op: Op)
    requires Good(c, s) && Enabled(s, op)
    ensures Accounts(c, s, op, Step(c, s, op))
  {
    hide Accounts; hide Good; hide Add; hide FrontMerge; hide MergeRequests; hide Dispatch;
    match op {
      case Queue(x, write, p) => QueueAccounts(c, s, x, write, p);
      case Front(x, write, p) => FrontAccounts(c, s, x, write, p);
      case Merge(x, write, y) => MergeAccounts(c, s, x, write, y);
      case DispatchOne => DispatchAccounts(c, s);
      case Tick(dt) => StillAccounts(c, s, op, s.(now := s.now + dt));
    }
  }

  function AllIn(ops: seq<Op>): multiset<Moved> { if ops == [] then multiset{} else In(ops[0]) + AllIn(ops[1..]) }

  function AllOut(ops: seq<Op>): multiset<Moved> {
    if ops == [] then multiset{} else Merged(ops[0]) + AllOut(ops[1..])
  }

  /**
    Over every run the requests that came in are those that still wait, those that went out and those that became
    part of another one, each counted once.
   */
  lemma {:induction false} NoneLost(c: Settings, s: State, ops: seq<Op>)
    requires Good(c, s) && Runs(c, s, ops)
    ensures All(End(c, s, ops)) + AllOut(ops) == All(s) + AllIn(ops)
    decreases |ops|
  {
    hide Step; hide Good; hide Enabled; hide All; hide AllKept; hide In; hide Merged;
    if ops != [] {
      var t := Step(c, s, ops[0]);
      StepAccounts(c, s, ops[0]);
      NoneLost(c, t, ops[1..]);
      Balance(All(s), In(ops[0]), AllIn(ops[1..]), All(t), Merged(ops[0]), AllOut(ops[1..]), All(End(c, s, ops)));
    }
  }

  lemma Balance(a: multiset<Moved>, i: multiset<Moved>, i': multiset<Moved>, b: multiset<Moved>, o: multiset<Moved>,
                o': multiset<Moved>, z: multiset<Moved>)
    requires b + o == a + i && z + o' == b + i'
    ensures z + (o + o') == a + (i + i')
  {
    assert z + (o + o') == (z + o') + o;
    assert (b + i') + o == (b + o) + i';
  }
}
