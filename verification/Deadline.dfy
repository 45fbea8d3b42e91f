/**
  The deadline I/O scheduler. Every queued request is in a tree sorted by sector and in a
  FIFO sorted by expiry, one pair for each direction.
 */
module Deadline {
  import opened Options
  import opened SortedSeq

  /** What the scheduler keeps for reads or for writes; `next` is next_rq. */
  datatype Side = Side(sort: seq<nat>, fifo: seq<nat>, next: Option<nat>)

  /** A request that went to the dispatch queue. */
  datatype Moved = Moved(id: nat, write: bool)

  /** Requests are numbers; `pos` is a request's sector, `expires` its FIFO time, `now` is jiffies. */
  datatype State = State(
    read: Side, write: Side, pos: map<nat, int>, expires: map<nat, int>,
    batching: nat, starved: nat, nrSorted: int, now: int, out: seq<Moved>)

  datatype Settings = Settings(readExpire: nat, writeExpire: nat, fifoBatch: nat, writesStarved: nat)

  function Get(s: State, write: bool): Side { if write then s.write else s.read }

  function Set(s: State, write: bool, side: Side): State { if write then s.(write := side) else s.(read := side) }

  function ExpireTime(c: Settings, write: bool): nat { if write then c.writeExpire else c.readExpire }

  /** rb_next. */
  function Latter(sort: seq<nat>, x: nat): Option<nat> {
    if |sort| < 2 then None else if sort[0] == x then Some(sort[1]) else Latter(sort[1..], x)
  }

  /** The request at a sector, as elv_rb_add finds it. */
  function Alias(sort: seq<nat>, pos: map<nat, int>, p: int): Option<nat>
    requires Known(sort, pos)
  {
    if sort == [] then None else if pos[sort[0]] == p then Some(sort[0]) else Alias(sort[1..], pos, p)
  }

  /** Takes a request out of tree and FIFO. */
  function Remove(side: Side, x: nat): Side {
    Side(Without(side.sort, x), Without(side.fifo, x), if side.next == Some(x) then Latter(side.sort, x) else side.next)
  }

  /** deadline_move_request: the batch goes on behind the request that is moved. */
  function Move(s: State, write: bool, x: nat): State {
    var side := Get(s, write);
    var t := s.(read := s.read.(next := None), write := s.write.(next := None),
                nrSorted := s.nrSorted - 1, out := s.out + [Moved(x, write)]);
    Set(t, write, Side(Without(side.sort, x), Without(side.fifo, x), Latter(side.sort, x)))
  }

  /** Links a request at a sector that no other one has. */
  function Place(s: State, write: bool, x: nat, p: int): State
    requires Known(Get(s, write).sort, s.pos)
  {
    var side, pos := Get(s, write), s.pos[x := p];
    Set(s.(pos := pos), write, side.(sort := Insert(side.sort, pos, x)))
  }

  /** deadline_add_rq_rb: a request at the same sector is moved out of the way. */
  function AddRb(s: State, write: bool, x: nat, p: int): State
    requires Known(Get(s, write).sort, s.pos)
  {
    var alias := Alias(Get(s, write).sort, s.pos, p);
    if alias == None then Place(s, write, x, p)
    else
      WithoutHas(Get(s, write).sort, alias.value);
      Place(Move(s, write, alias.value), write, x, p)
  }

  /** Sets the FIFO time of a request and puts it at the end. */
  function Enqueue(c: Settings, s: State, write: bool, x: nat): State {
    var side := Get(s, write);
    Set(s.(expires := s.expires[x := s.now + ExpireTime(c, write)]), write, side.(fifo := side.fifo + [x]))
  }

  /** elv_insert and deadline_add_request. */
  function Add(c: Settings, s: State, write: bool, x: nat, p: int): State
    requires Known(Get(s, write).sort, s.pos)
  {
    Enqueue(c, AddRb(s.(nrSorted := s.nrSorted + 1), write, x, p), write, x)
  }

  /** deadline_merged_request after a front merge: the request now starts at `p`. */
  function FrontMerge(s: State, write: bool, x: nat, p: int): State
    requires Known(Get(s, write).sort, s.pos)
  {
    WithoutHas(Get(s, write).sort, x);
    var side := Get(s, write);
    AddRb(Set(s, write, side.(sort := Without(side.sort, x))), write, x, p)
  }

  function Replace(fifo: seq<nat>, a: nat, b: nat): seq<nat> {
    if fifo == [] then [] else [if fifo[0] == a then b else fifo[0]] + Replace(fifo[1..], a, b)
  }

  /** deadline_merged_requests and elv_merge_requests: `x` swallows `y` and takes its earlier place in the FIFO. */
  function MergeRequests(s: State, write: bool, x: nat, y: nat): State
    requires x in s.expires && y in s.expires
  {
    var side := Get(s, write);
    var gone := Remove(side, y);
    var t := s.(nrSorted := s.nrSorted - 1);
    if s.expires[y] < s.expires[x] then
      Set(t.(expires := s.expires[x := s.expires[y]]), write, gone.(fifo := Replace(Without(side.fifo, x), y, x)))
    else Set(t, write, gone)
  }

  /** deadline_check_fifo. */
  predicate HeadExpired(s: State, fifo: seq<nat>)
    requires fifo != [] && Known(fifo, s.expires)
  {
    s.now > s.expires[fifo[0]]
  }

  /** The request that a running batch goes on with. */
  function BatchNext(c: Settings, s: State): Option<Moved> {
    if s.batching >= c.fifoBatch then None
    else if s.write.next.Some? then Some(Moved(s.write.next.value, true))
    else if s.read.next.Some? then Some(Moved(s.read.next.value, false))
    else None
  }

  /** Whether a new batch is one of writes. */
  predicate PickWrite(c: Settings, s: State) {
    s.write.fifo != [] && (s.read.fifo == [] || s.starved >= c.writesStarved)
  }

  /** The first request of a new batch. */
  function BatchStart(s: State, side: Side): nat
    requires side.fifo != [] && Known(side.fifo, s.expires)
  {
    if HeadExpired(s, side.fifo) || side.next == None then side.fifo[0] else side.next.value
  }

  /** deadline_dispatch_requests. */
  function Dispatch(c: Settings, s: State): (bool, State)
    requires Known(s.read.fifo, s.expires) && Known(s.write.fifo, s.expires)
  {
    var m := BatchNext(c, s);
    if m.Some? then (true, Move(s.(batching := s.batching + 1), m.value.write, m.value.id))
    else if s.read.fifo == [] && s.write.fifo == [] then (false, s)
    else
      var write := PickWrite(c, s);
      var starved := if write then 0 else if s.write.fifo != [] then s.starved + 1 else s.starved;
      (true, Move(s.(batching := 1, starved := starved), write, BatchStart(s, Get(s, write))))
  }

  datatype Op =
    | Queue(id: nat, write: bool, sector: int)
    | Front(id: nat, write: bool, sector: int)
    | Merge(id: nat, write: bool, next: nat)
    | DispatchOne
    | Tick(dt: nat)

  predicate Enabled(s: State, op: Op) {
    match op
    case Queue(x, _, _) => x !in s.read.fifo && x !in s.write.fifo
    case Front(x, write, _) => x in Get(s, write).fifo
    case Merge(x, write, y) => x in Get(s, write).fifo && y in Get(s, write).fifo && x != y
    case DispatchOne => true
    case Tick(_) => true
  }

  // The invariant

  /** Two requests of one tree start at different sectors. */
  ghost predicate Apart(sort: seq<nat>, pos: map<nat, int>)
    requires Known(sort, pos)
  {
    forall x, y :: x in sort && y in sort && x != y ==> pos[x] != pos[y]
  }

  ghost predicate SameMembers(a: seq<nat>, b: seq<nat>) { |a| == |b| && forall x :: x in a <==> x in b }

  ghost predicate GoodSide(side: Side, pos: map<nat, int>, expires: map<nat, int>) {
    && Shape(side.sort, pos) && Apart(side.sort, pos)
    && Shape(side.fifo, expires)
    && SameMembers(side.sort, side.fifo)
    && (side.next.Some? ==> side.next.value in side.sort)
  }

  /** No FIFO time is later than that of a request added now. */
  ghost predicate Timely(fifo: seq<nat>, expires: map<nat, int>, limit: int)
    requires Known(fifo, expires)
  {
    forall x :: x in fifo ==> expires[x] <= limit
  }

  ghost predicate Good(c: Settings, s: State) {
    && GoodSide(s.read, s.pos, s.expires) && GoodSide(s.write, s.pos, s.expires)
    && (forall x :: x in s.read.fifo ==> x !in s.write.fifo)
    && (s.read.next == None || s.write.next == None)
    && s.nrSorted == |s.read.fifo| + |s.write.fifo|
    && Timely(s.read.fifo, s.expires, s.now + c.readExpire) && Timely(s.write.fifo, s.expires, s.now + c.writeExpire)
  }
}
