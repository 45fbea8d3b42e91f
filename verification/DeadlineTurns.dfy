/**
  Which request a dispatch call takes, and how long a read may wait.
 */
module DeadlineTurns {
  import opened Options
  import opened SortedSeq
  import opened Deadline
  import opened DeadlineIndexes
  import opened DeadlineStarvation

  // The choice

  /** A batch goes on: it has room and a request to go on with. */
  ghost predicate GoesOn(c: Settings, s: State) {
    s.batching < c.fifoBatch && (s.read.next.Some? || s.write.next.Some?)
  }

  /** No request that waits in a direction lies between `x` and `y`, and `y` lies behind `x`. */
  ghost predicate NextAbove(waiting: seq<nat>, pos: map<nat, int>, x: nat, y: nat)
    requires Known(waiting, pos) && x in pos
  {
    y in waiting && pos[x] < pos[y] && forall z :: z in waiting ==> pos[z] <= pos[x] || pos[y] <= pos[z]
  }

  /** What a call that sends `m` leaves behind: the batch stands at the nearest request above, if there is one. */
  ghost predicate StandsBehind(t: State, m: Moved) {
    && m.id in t.pos && Known(Get(t, m.write).fifo, t.pos)
    && Get(t, !m.write).next == None
    && match Get(t, m.write).next
       case None => forall z :: z in Get(t, m.write).fifo ==> t.pos[z] <= t.pos[m.id]
       case Some(y) => NextAbove(Get(t, m.write).fifo, t.pos, m.id, y)
  }

  lemma MoveStands(c: Settings, s: State, write: bool, x: nat)
    requires Good(c, s) && x in Get(s, write).fifo
    ensures StandsBehind(Move(s, write, x), Moved(x, write))
  {
    hide Without; hide Latter; hide Shape;
    var side := Get(s, write);
    SideKnown(side, s.pos, s.expires);
    LatterIsNext(side.sort, s.pos, x);
    WithoutHas(side.fifo, x);
  }

  /** A batch that was to go on with a request that is merged away goes on with the nearest one above it. */
  lemma MergeStands(c: Settings, s: State, write: bool, x: nat, y: nat)
    requires Good(c, s) && Enabled(s, Merge(x, write, y))
    ensures x in s.expires && y in s.expires
    ensures var t := MergeRequests(s, write, x, y);
      && Get(t, !write).next == Get(s, !write).next
      && if Get(s, write).next == Some(y) then StandsBehind(t, Moved(y, write))
         else Get(t, write).next == Get(s, write).next
  {
    hide Without; hide Latter; hide Shape; hide Replace;
    var side := Get(s, write);
    SideKnown(side, s.pos, s.expires);
    LatterIsNext(side.sort, s.pos, y);
    WithoutHas(side.fifo, y);
    if s.expires[y] < s.expires[x] {
      WithoutHas(side.fifo, x);
      WithoutShape(side.fifo, s.expires, x);
      ReplaceShape(Without(side.fifo, x), s.expires, y, x);
    }
  }

  /** The direction of a new batch: reads, unless none waits or the writes have been passed over often enough. */
  ghost predicate Turn(c: Settings, s: State, write: bool) {
    if s.read.fifo == [] then write
    else if s.write.fifo == [] then !write
    else write <==> s.starved >= c.writesStarved
  }

  /** A new batch starts at the earliest expiry, or at the place of the last one if that goes on and nothing expired. */
  ghost predicate StartsAt(s: State, write: bool, x: nat)
    requires Known(Get(s, write).fifo, s.expires)
  {
    var side := Get(s, write);
    && x in side.fifo
    && if side.next.Some? && forall y :: y in side.fifo ==> s.now <= s.expires[y] then side.next == Some(x)
       else forall y :: y in side.fifo ==> s.expires[x] <= s.expires[y]
  }

  lemma InFifo(s: State, write: bool, x: nat)
    requires Known(Get(s, write).fifo, s.expires) && StartsAt(s, write, x)
    ensures x in Get(s, write).fifo
  {}

  /** The request that a call takes, and the counters behind it. */
  ghost predicate Chosen(c: Settings, s: State, t: State, m: Moved)
    requires Known(Get(s, m.write).fifo, s.expires)
  {
    && t.out == s.out + [m] && StandsBehind(t, m)
    && if GoesOn(c, s) then
         && Get(s, m.write).next == Some(m.id)
         && t.batching == s.batching + 1 && t.starved == s.starved
       else
         && Turn(c, s, m.write) && StartsAt(s, m.write, m.id)
         && t.batching == 1
         && t.starved == if m.write then 0 else if s.write.fifo != [] then s.starved + 1 else s.starved
  }

  lemma ChosenGoesOn(c: Settings, s: State, write: bool)
    requires Good(c, s) && GoesOn(c, s) && Get(s, write).next.Some?
    ensures Known(s.read.fifo, s.expires) && Known(s.write.fifo, s.expires)
    ensures Chosen(c, s, Dispatch(c, s).1, Moved(Get(s, write).next.value, write))
  {
    hide Move; hide Shape; hide StandsBehind;
    SideKnown(s.read, s.pos, s.expires); SideKnown(s.write, s.pos, s.expires);
    var x := Get(s, write).next.value;
    var t := s.(batching := s.batching + 1);
    MoveStands(c, t, write, x);
    MoveCounts(t, write, x);
  }

  lemma BatchStartsAt(c: Settings, s: State, write: bool)
    requires Good(c, s) && Get(s, write).fifo != []
    ensures Known(Get(s, write).fifo, s.expires) && StartsAt(s, write, BatchStart(s, Get(s, write)))
  {
    hide Shape;
    var side := Get(s, write);
    SideKnown(side, s.pos, s.expires);
    HeadDecides(c, s, write);
    TailShape(side.fifo, s.expires);
  }

  lemma ChosenStarts(c: Settings, s: State)
    requires Good(c, s) && !GoesOn(c, s) && s.nrSorted > 0
    ensures Known(s.read.fifo, s.expires) && Known(s.write.fifo, s.expires)
    ensures exists m :: Chosen(c, s, Dispatch(c, s).1, m)
  {
    hide Move; hide Shape; hide StandsBehind; hide BatchStart; hide StartsAt;
    SideKnown(s.read, s.pos, s.expires); SideKnown(s.write, s.pos, s.expires);
    var write := PickWrite(c, s);
    var starved := if write then 0 else if s.write.fifo != [] then s.starved + 1 else s.starved;
    var t := s.(batching := 1, starved := starved);
    BatchStartsAt(c, s, write);
    var x := BatchStart(s, Get(s, write));
    assert x in Get(s, write).fifo by { InFifo(s, write, x); }
    MoveStands(c, t, write, x);
    MoveCounts(t, write, x);
    assert Chosen(c, s, Dispatch(c, s).1, Moved(x, write));
  }

  /**
    A dispatch call sends exactly one request if any is queued: the one that the running batch goes on with, or the
    first of a new batch. With requests waiting in both directions a new batch is one of writes exactly if writes have
    been passed over writes_starved times; within the direction the earliest expiry is first, unless the last batch
    was of the same direction, has a request of a higher sector and nothing has expired.
   */
  lemma DispatchChooses(c: Settings, s: State)
    requires Good(c, s)
    ensures Known(s.read.fifo, s.expires) && Known(s.write.fifo, s.expires)
    ensures if s.nrSorted == 0 then Dispatch(c, s) == (false, s)
            else Dispatch(c, s).0 && exists m :: Chosen(c, s, Dispatch(c, s).1, m)
  {
    SideKnown(s.read, s.pos, s.expires); SideKnown(s.write, s.pos, s.expires);
    DispatchGood(c, s);
    hide Move; hide Chosen; hide GoodSide; hide BatchStart;
    if GoesOn(c, s) {
      ChosenGoesOn(c, s, s.write.next.Some?);
      assert Chosen(c, s, Dispatch(c, s).1, Moved(Get(s, s.write.next.Some?).next.value, s.write.next.Some?));
    } else if s.nrSorted > 0 {
      ChosenStarts(c, s);
    }
  }

  /** A request waits above the last one that was sent, in the same direction. */
  ghost predicate Above(t: State, m: Moved) {
    && m.id in t.pos && Known(Get(t, m.write).fifo, t.pos)
    && exists z :: z in Get(t, m.write).fifo && t.pos[m.id] < t.pos[z]
  }

  lemma StepChosen(c: Settings, s: State, m: Moved)
    requires Good(c, s) && s.nrSorted > 0 && Step(c, s, DispatchOne).out == s.out + [m]
    ensures Known(Get(s, m.write).fifo, s.expires) && Chosen(c, s, Step(c, s, DispatchOne), m)
  {
    DispatchChooses(c, s);
    hide Dispatch; hide Good; hide StandsBehind; hide GoesOn; hide StartsAt; hide Turn;
    var t := Step(c, s, DispatchOne);
    var m' :| Chosen(c, s, t, m');
    assert t.out[|s.out|] == m && t.out[|s.out|] == m';
  }

  lemma AboveGoesOn(c: Settings, t: State, m: Moved)
    requires Good(c, t) && StandsBehind(t, m) && Above(t, m) && t.batching < c.fifoBatch
    ensures GoesOn(c, t) && t.nrSorted > 0
  {}

  /** While a batch has room and a request waits above in its direction, the next call sends the nearest one. */
  lemma BatchSweeps(c: Settings, s: State, m: Moved, m': Moved)
    requires Good(c, s) && s.nrSorted > 0
    requires var t := Step(c, s, DispatchOne);
      && t.out == s.out + [m] && Above(t, m) && t.batching < c.fifoBatch
      && Step(c, t, DispatchOne).out == t.out + [m']
    ensures var t := Step(c, s, DispatchOne);
      m'.write == m.write && NextAbove(Get(t, m.write).fifo, t.pos, m.id, m'.id)
  {
    hide Step; hide Good; hide Above; hide GoesOn; hide NextAbove; hide StartsAt; hide Turn;
    var t := Step(c, s, DispatchOne);
    StepChosen(c, s, m);
    AboveGoesOn(c, t, m);
    StepChosen(c, t, m');
  }

  // Reads

  /** What is left of a batch of writes, and the batch of writes that may still come first. */
  function ReadRank(c: Settings, s: State): nat {
    Minus(c.fifoBatch, s.batching) + 1 + if s.starved < c.writesStarved then 0 else BatchLength(c)
  }

  /** A read went out, or one is still waiting and its rank has dropped by `n`. */
  ghost predicate ReadCloser(c: Settings, s: State, t: State, n: nat) {
    || Sent(t.out, false) > Sent(s.out, false)
    || (Sent(t.out, false) == Sent(s.out, false) && t.read.fifo != [] && ReadRank(c, t) + n <= ReadRank(c, s))
  }

  lemma MoveOutRead(c: Settings, s: State, write: bool, x: nat)
    ensures var t := Move(s, write, x);
      && Sent(t.out, false) == Sent(s.out, false) + (if write then 0 else 1)
      && ReadRank(c, t) == ReadRank(c, s) && (write ==> t.read.fifo == s.read.fifo)
  {
    hide Without; hide Latter; hide Sent;
    SentSnoc(s.out, Moved(x, write), false);
  }

  lemma DispatchReadCloser(c: Settings, s: State)
    requires Good(c, s) && s.read.fifo != [] && c.writesStarved >= 1
    ensures Known(s.read.fifo, s.expires) && Known(s.write.fifo, s.expires) && ReadCloser(c, s, Dispatch(c, s).1, 1)
  {
    SideKnown(s.read, s.pos, s.expires); SideKnown(s.write, s.pos, s.expires);
    hide Move; hide GoodSide; hide BatchStart; hide Sent;
    if BatchNext(c, s).Some? {
      var m := BatchNext(c, s).value;
      MoveOutRead(c, s.(batching := s.batching + 1), m.write, m.id);
    } else {
      var write := PickWrite(c, s);
      var starved := if write then 0 else if s.write.fifo != [] then s.starved + 1 else s.starved;
      MoveOutRead(c, s.(batching := 1, starved := starved), write, BatchStart(s, Get(s, write)));
    }
  }

  lemma AddRbReadCloser(c: Settings, s: State, write: bool, x: nat, p: int)
    requires Known(Get(s, write).sort, s.pos) && s.read.fifo != []
    ensures ReadCloser(c, s, AddRb(s, write, x, p), 0)
  {
    hide Without; hide Latter; hide Insert; hide Sent; hide Alias;
    var alias := Alias(Get(s, write).sort, s.pos, p);
    if alias.Some? {
      WithoutHas(Get(s, write).sort, alias.value);
      MoveOutRead(c, s, write, alias.value);
    }
  }

  lemma StepReadCloser(c: Settings, s: State, op: Op)
    requires Good(c, s) && Enabled(s, op) && s.read.fifo != [] && c.writesStarved >= 1
    ensures ReadCloser(c, s, Step(c, s, op), if op.DispatchOne? then 1 else 0)
  {
    hide AddRb; hide Without; hide Latter; hide Sent; hide Dispatch; hide Replace;
    SideKnown(s.read, s.pos, s.expires); SideKnown(s.write, s.pos, s.expires);
    match op {
      case Queue(x, write, p) =>
        AddRbReadCloser(c, s.(nrSorted := s.nrSorted + 1), write, x, p);
      case Front(x, write, p) =>
        WithoutHas(Get(s, write).sort, x);
        AddRbReadCloser(c, Set(s, write, Get(s, write).(sort := Without(Get(s, write).sort, x))), write, x, p);
      case Merge(x, write, y) =>
        MergeGood(c, s, write, x, y);
        if !write { assert x in MergeRequests(s, write, x, y).read.fifo; }
      case DispatchOne =>
        DispatchReadCloser(c, s);
      case Tick(dt) =>
    }
  }

  lemma {:induction false} ReadWithinRank(c: Settings, s: State, ops: seq<Op>)
    requires Good(c, s) && Runs(c, s, ops) && s.read.fifo != [] && c.writesStarved >= 1
    requires Dispatches(ops) >= ReadRank(c, s)
    ensures Sent(End(c, s, ops).out, false) > Sent(s.out, false)
    decreases |ops|
  {
    assert ReadRank(c, s) >= 1;
    hide ReadRank; hide Step; hide Good; hide Enabled;
    var t := Step(c, s, ops[0]);
    StepReadCloser(c, s, ops[0]);
    if Sent(t.out, false) > Sent(s.out, false) {
      SentGrows(c, t, ops[1..], false);
    } else {
      ReadWithinRank(c, t, ops[1..]);
    }
  }

  /** While a read waits, one goes out within 2 * max(1, fifo_batch) + 1 dispatch calls, if writes_starved is not 0. */
  lemma ReadWithin(c: Settings, s: State, ops: seq<Op>)
    requires Good(c, s) && Runs(c, s, ops) && s.read.fifo != [] && c.writesStarved >= 1
    requires Dispatches(ops) >= 2 * BatchLength(c) + 1
    ensures Sent(End(c, s, ops).out, false) > Sent(s.out, false)
  {
    ReadWithinRank(c, s, ops);
  }

  /** A write is queued and dispatched, `n` times over. */
  function Stream(x: nat, n: nat): seq<Op> {
    if n == 0 then [] else [Queue(x, true, 0), DispatchOne] + Stream(x, n - 1)
  }

  lemma QueueAndSend(c: Settings, s: State, x: nat)
    requires Good(c, s) && c.writesStarved == 0 && s.read.fifo != [] && s.write.fifo == []
    requires s.read.next == None && x !in s.read.fifo
    ensures var u := Step(c, Step(c, s, Queue(x, true, 0)), DispatchOne);
      u.read == s.read && u.write.fifo == [] && u.out == s.out + [Moved(x, true)]
  {
    var t := Step(c, s, Queue(x, true, 0));
    QueueAlone(c, s, x);
    var u := Step(c, t, DispatchOne);
    DispatchAlone(c, t, x);
  }

  lemma StreamRuns(c: Settings, s: State, x: nat, n: nat)
    requires n > 0 && Good(c, s) && x !in s.read.fifo && x !in s.write.fifo
    requires Runs(c, Step(c, Step(c, s, Queue(x, true, 0)), DispatchOne), Stream(x, n - 1))
    ensures Runs(c, s, Stream(x, n))
    ensures End(c, s, Stream(x, n))
      == End(c, Step(c, Step(c, s, Queue(x, true, 0)), DispatchOne), Stream(x, n - 1))
    ensures Dispatches(Stream(x, n)) == 1 + Dispatches(Stream(x, n - 1))
  {
    hide Good; hide Step;
    var ops := Stream(x, n);
    assert ops[1..] == [DispatchOne] + Stream(x, n - 1) && ops[1..][1..] == Stream(x, n - 1);
  }

  lemma QueueAlone(c: Settings, s: State, x: nat)
    requires Good(c, s) && s.write.fifo == [] && x !in s.read.fifo
    ensures var t := Step(c, s, Queue(x, true, 0));
      t.read == s.read && t.write == Side([x], [x], None) && t.out == s.out
  {
    assert s.write.sort == [];
  }

  lemma DispatchAlone(c: Settings, s: State, x: nat)
    requires Good(c, s) && c.writesStarved == 0 && s.read.fifo != [] && s.read.next == None
    requires s.write == Side([x], [x], None)
    ensures var t := Step(c, s, DispatchOne);
      t.read == s.read && t.write.fifo == [] && t.out == s.out + [Moved(x, true)]
  {
    SideKnown(s.read, s.pos, s.expires); SideKnown(s.write, s.pos, s.expires);
  }

  /** With writes_starved at 0 a stream of writes holds a read up for as long as it lasts. */
  lemma {:induction false} ReadsWait(c: Settings, s: State, x: nat, n: nat)
    requires Good(c, s) && c.writesStarved == 0 && s.read.fifo != [] && s.write.fifo == []
    requires s.read.next == None && x !in s.read.fifo
    ensures Runs(c, s, Stream(x, n)) && Dispatches(Stream(x, n)) == n
    ensures Sent(End(c, s, Stream(x, n)).out, false) == Sent(s.out, false)
    decreases n
  {
    hide Good; hide Step; hide Sent;
    if n > 0 {
      var t := Step(c, s, Queue(x, true, 0));
      var u := Step(c, t, DispatchOne);
      QueueAndSend(c, s, x);
      SentSnoc(s.out, Moved(x, true), false);
      ReadsWait(c, u, x, n - 1);
      StreamRuns(c, s, x, n);
    }
  }
}
