/** Writes are not starved: a bound on the dispatch calls until one goes out. */
module DeadlineStarvation {
  import opened Options
  import opened SortedSeq
  import opened Deadline
  import opened DeadlineIndexes

  ghost predicate Runs(c: Settings, s: State, ops: seq<Op>)
    requires Good(c, s)
    decreases |ops|
  {
    ops != [] ==> Enabled(s, ops[0]) && Runs(c, Step(c, s, ops[0]), ops[1..])
  }

  ghost function End(c: Settings, s: State, ops: seq<Op>): State
    requires Good(c, s) && Runs(c, s, ops)
    decreases |ops|
  {
    if ops == [] then s else End(c, Step(c, s, ops[0]), ops[1..])
  }

  /** Every run keeps the indexes in agreement. */
  lemma {:induction false} RunsGood(c: Settings, s: State, ops: seq<Op>)
    requires Good(c, s) && Runs(c, s, ops)
    ensures Good(c, End(c, s, ops))
    decreases |ops|
  {
    if ops != [] {
      RunsGood(c, Step(c, s, ops[0]), ops[1..]);
    }
  }

  /** How many of the requests that were moved out are of one direction. */
  function Sent(out: seq<Moved>, write: bool): nat {
    if out == [] then 0 else Sent(out[..|out| - 1], write) + if out[|out| - 1].write == write then 1 else 0
  }

  function Dispatches(ops: seq<Op>): nat {
    if ops == [] then 0 else (if ops[0].DispatchOne? then 1 else 0) + Dispatches(ops[1..])
  }

  function Minus(a: nat, b: nat): nat { if a < b then 0 else a - b }

  function BatchLength(c: Settings): nat { if c.fifoBatch < 1 then 1 else c.fifoBatch }

  /** The rounds of reads that may still come first, and what is left of the present batch. */
  function Rank(c: Settings, s: State): nat {
    Minus(c.writesStarved, s.starved) * BatchLength(c) + Minus(c.fifoBatch, s.batching) + 1
  }

  lemma RankBounded(c: Settings, s: State)
    ensures Rank(c, s) <= (c.writesStarved + 1) * BatchLength(c) + 1
  {
    var m := BatchLength(c);
    Times(Minus(c.writesStarved, s.starved), c.writesStarved, m);
    assert (c.writesStarved + 1) * m == c.writesStarved * m + m;
  }

  lemma Times(a: nat, b: nat, m: nat)
    requires a <= b
    ensures a * m <= b * m
  {}

  lemma SentSnoc(out: seq<Moved>, m: Moved, write: bool)
    ensures Sent(out + [m], write) == Sent(out, write) + if m.write == write then 1 else 0
  {
    assert (out + [m])[..|out|] == out;
  }

  /** A write went out, or one is still waiting and its rank has dropped by `n`. */
  ghost predicate Closer(c: Settings, s: State, t: State, n: nat) {
    || Sent(t.out, true) > Sent(s.out, true)
    || (Sent(t.out, true) == Sent(s.out, true) && t.write.fifo != [] && Rank(c, t) + n <= Rank(c, s))
  }

  lemma ReadRank(c: Settings, s: State, batching: nat, starved: nat)
    requires (s.batching < c.fifoBatch && batching == s.batching + 1 && starved == s.starved)
      || (s.starved < c.writesStarved && batching == 1 && starved == s.starved + 1)
    ensures Rank(c, s.(batching := batching, starved := starved)) + 1 <= Rank(c, s)
  {
    var m := BatchLength(c);
    if !(s.batching < c.fifoBatch && batching == s.batching + 1 && starved == s.starved) {
      var k: nat := c.writesStarved - s.starved;
      assert (k - 1) * m == k * m - m;
    }
  }

  lemma DispatchCloser(c: Settings, s: State)
    requires Good(c, s) && s.write.fifo != []
    ensures Known(s.read.fifo, s.expires) && Known(s.write.fifo, s.expires) && Closer(c, s, Dispatch(c, s).1, 1)
  {
    SideKnown(s.read, s.pos, s.expires); SideKnown(s.write, s.pos, s.expires);
    hide Move; hide GoodSide; hide Closer; hide BatchNext; hide BatchStart;
    if BatchNext(c, s).Some? {
      BatchCloser(c, s);
    } else {
      StartCloser(c, s);
    }
  }

  lemma BatchCloser(c: Settings, s: State)
    requires s.write.fifo != [] && BatchNext(c, s).Some?
    ensures var m := BatchNext(c, s).value; Closer(c, s, Move(s.(batching := s.batching + 1), m.write, m.id), 1)
  {
    hide Move; hide Rank; hide Sent;
    var m := BatchNext(c, s).value;
    MoveOut(c, s.(batching := s.batching + 1), m.write, m.id);
    if !m.write { ReadRank(c, s, s.batching + 1, s.starved); }
  }

  lemma StartCloser(c: Settings, s: State)
    requires s.write.fifo != [] && BatchNext(c, s) == None && Known(s.read.fifo, s.expires)
    requires Known(s.write.fifo, s.expires) && Good(c, s)
    ensures var write := PickWrite(c, s); var starved := if write then 0 else s.starved + 1;
      Get(s, write).fifo != [] &&
      Closer(c, s, Move(s.(batching := 1, starved := starved), write, BatchStart(s, Get(s, write))), 1)
  {
    hide Move; hide GoodSide; hide Rank; hide Sent;
    var write := PickWrite(c, s);
    var starved := if write then 0 else s.starved + 1;
    MoveOut(c, s.(batching := 1, starved := starved), write, BatchStart(s, Get(s, write)));
    if !write { ReadRank(c, s, 1, starved); }
  }

  lemma MoveOut(c: Settings, s: State, write: bool, x: nat)
    ensures var t := Move(s, write, x);
      && Sent(t.out, true) == Sent(s.out, true) + (if write then 1 else 0) && Rank(c, t) == Rank(c, s)
      && (!write ==> t.write.fifo == s.write.fifo)
  {
    hide Without; hide Latter; hide Sent;
    SentSnoc(s.out, Moved(x, write), true);
  }

  lemma AddRbCloser(c: Settings, s: State, write: bool, x: nat, p: int)
    requires Known(Get(s, write).sort, s.pos) && s.write.fifo != []
    ensures Closer(c, s, AddRb(s, write, x, p), 0)
  {
    hide Without; hide Latter; hide Insert; hide Sent; hide Alias;
    var alias := Alias(Get(s, write).sort, s.pos, p);
    if alias.Some? {
      WithoutHas(Get(s, write).sort, alias.value);
      MoveOut(c, s, write, alias.value);
    }
  }

  lemma StepCloser(c: Settings, s: State, op: Op)
    requires Good(c, s) && Enabled(s, op) && s.write.fifo != []
    ensures Closer(c, s, Step(c, s, op), if op.DispatchOne? then 1 else 0)
  {
    hide AddRb; hide Without; hide Latter; hide Sent; hide Dispatch; hide Replace;
    SideKnown(s.read, s.pos, s.expires); SideKnown(s.write, s.pos, s.expires);
    match op {
      case Queue(x, write, p) =>
        AddRbCloser(c, s.(nrSorted := s.nrSorted + 1), write, x, p);
      case Front(x, write, p) =>
        WithoutHas(Get(s, write).sort, x);
        AddRbCloser(c, Set(s, write, Get(s, write).(sort := Without(Get(s, write).sort, x))), write, x, p);
      case Merge(x, write, y) =>
        MergeGood(c, s, write, x, y);
        if write { assert x in MergeRequests(s, write, x, y).write.fifo; }
      case DispatchOne =>
        DispatchCloser(c, s);
      case Tick(dt) =>
    }
  }

  /** No run takes back a request. */
  lemma {:induction false} SentGrows(c: Settings, s: State, ops: seq<Op>, write: bool)
    requires Good(c, s) && Runs(c, s, ops)
    ensures Sent(End(c, s, ops).out, write) >= Sent(s.out, write)
    decreases |ops|
  {
    if ops != [] {
      OutGrows(c, s, ops[0], write);
      SentGrows(c, Step(c, s, ops[0]), ops[1..], write);
    }
  }

  lemma OutGrows(c: Settings, s: State, op: Op, write: bool)
    requires Good(c, s) && Enabled(s, op)
    ensures Sent(Step(c, s, op).out, write) >= Sent(s.out, write)
  {
    hide Without; hide Latter; hide Sent; hide Replace; hide Insert; hide Alias; hide GoodSide;
    SideKnown(s.read, s.pos, s.expires); SideKnown(s.write, s.pos, s.expires);
    WithoutHas(if op.Front? then Get(s, op.write).sort else [], if op.Front? then op.id else 0);
    forall m ensures Sent(s.out + [m], write) >= Sent(s.out, write) { SentSnoc(s.out, m, write); }
  }

  lemma {:induction false} WriteWithinRank(c: Settings, s: State, ops: seq<Op>)
    requires Good(c, s) && Runs(c, s, ops) && s.write.fifo != [] && Dispatches(ops) >= Rank(c, s)
    ensures Sent(End(c, s, ops).out, true) > Sent(s.out, true)
    decreases |ops|
  {
    hide Rank; hide Step; hide Good; hide Enabled;
    RankPositive(c, s);
    var t := Step(c, s, ops[0]);
    StepCloser(c, s, ops[0]);
    if Sent(t.out, true) > Sent(s.out, true) {
      SentGrows(c, t, ops[1..], true);
    } else {
      WriteWithinRank(c, t, ops[1..]);
    }
  }

  lemma RankPositive(c: Settings, s: State)
    ensures Rank(c, s) >= 1
  {}

  /**
    While a write waits, one goes out within (writes_starved + 1) * max(1, fifo_batch) + 1 dispatch calls, whatever
    is added, merged or moved out of the way in between.
   */
  lemma WriteWithin(c: Settings, s: State, ops: seq<Op>)
    requires Good(c, s) && Runs(c, s, ops) && s.write.fifo != []
    requires Dispatches(ops) >= (c.writesStarved + 1) * BatchLength(c) + 1
    ensures Sent(End(c, s, ops).out, true) > Sent(s.out, true)
  {
    hide Rank; hide Runs;
    RankBounded(c, s);
    WriteWithinRank(c, s, ops);
  }
}
