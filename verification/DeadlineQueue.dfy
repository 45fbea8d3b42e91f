/** The deadline scheduler as it updates its lists in place. */
module DeadlineQueue {
  import opened Options
  import opened SortedSeq
  import opened Deadline
  import opened DeadlineIndexes

  lemma {:induction false} LatterAt(sort: seq<nat>, pos: map<nat, int>, i: nat)
    requires Shape(sort, pos) && i < |sort|
    ensures Latter(sort, sort[i]) == if i + 1 < |sort| then Some(sort[i + 1]) else None
    decreases |sort|
  {
    if i > 0 {
      TailShape(sort, pos);
      LatterAt(sort[1..], pos, i - 1);
    }
  }

  lemma {:induction false} AliasAt(sort: seq<nat>, pos: map<nat, int>, i: nat)
    requires Known(sort, pos) && i < |sort| && forall k :: 0 <= k < i ==> pos[sort[k]] < pos[sort[i]]
    ensures Alias(sort, pos, pos[sort[i]]) == Some(sort[i])
    decreases |sort|
  {
    if i > 0 {
      AliasAt(sort[1..], pos, i - 1);
    }
  }

  lemma NoAlias(sort: seq<nat>, pos: map<nat, int>, p: int, i: nat)
    requires Shape(sort, pos) && i <= |sort|
    requires (forall k :: 0 <= k < i ==> pos[sort[k]] < p) && (i < |sort| ==> p < pos[sort[i]])
    ensures Alias(sort, pos, p) == None
  {
    AliasIs(sort, pos, p);
    forall k | 0 <= k < |sort| ensures pos[sort[k]] != p {
      assert i <= k ==> pos[sort[i]] <= pos[sort[k]];
    }
  }

  class DeadlineData {
    var read: Side
    var write: Side
    var pos: map<nat, int>
    var expires: map<nat, int>
    var batching: nat
    var starved: nat
    var nrSorted: int
    var now: int
    var out: seq<Moved>

    ghost function View(): State
      reads this
    {
      State(read, write, pos, expires, batching, starved, nrSorted, now, out)
    }

    /** deadline_init_queue. */
    constructor (c: Settings)
      ensures Initial(View()) && Good(c, View())
    {
      read, write, pos, expires := Side([], [], None), Side([], [], None), map[], map[];
      batching, starved, nrSorted, out := 0, 0, 0, [];
      new;
      InitialGood(c, View());
    }

    /** Takes a request off a list. */
    static method Delete(list: seq<nat>, ghost keys: map<nat, int>, x: nat) returns (r: seq<nat>)
      requires Shape(list, keys) && x in list
      ensures r == Without(list, x)
    {
      var i := 0;
      while list[i] != x
        invariant 0 <= i < |list| && forall k :: 0 <= k < i ==> list[k] != x
        decreases |list| - i
      {
        i := i + 1;
      }
      WithoutSplit(list, keys, x, i);
      r := list[..i] + list[i + 1..];
    }

    /** deadline_latter_request. */
    static method LatterRequest(sort: seq<nat>, ghost keys: map<nat, int>, x: nat) returns (r: Option<nat>)
      requires Shape(sort, keys) && x in sort
      ensures r == Latter(sort, x)
    {
      var i := 0;
      while sort[i] != x
        invariant 0 <= i < |sort| && forall k :: 0 <= k < i ==> sort[k] != x
        decreases |sort| - i
      {
        i := i + 1;
      }
      LatterAt(sort, keys, i);
      r := if i + 1 < |sort| then Some(sort[i + 1]) else None;
    }

    /** deadline_move_request. */
    method MoveRequest(dir: bool, x: nat)
      requires Shape(Get(View(), dir).sort, pos) && Shape(Get(View(), dir).fifo, expires)
      requires x in Get(View(), dir).sort && x in Get(View(), dir).fifo
      modifies this
      ensures View() == Move(old(View()), dir, x)
    {
      hide Shape; hide Without; hide Latter;
      var side := if dir then write else read;
      read, write := read.(next := None), write.(next := None);
      var next := LatterRequest(side.sort, pos, x);
      var sort := Delete(side.sort, pos, x);
      var fifo := Delete(side.fifo, expires, x);
      if dir { write := Side(sort, fifo, next); } else { read := Side(sort, fifo, next); }
      nrSorted := nrSorted - 1;
      out := out + [Moved(x, dir)];
    }

    /** elv_rb_add: links the request, or reports the one that has its sector. */
    static method RbAdd(sort: seq<nat>, pos: map<nat, int>, x: nat, p: int) returns (alias: Option<nat>, r: seq<nat>)
      requires Shape(sort, pos) && x !in sort
      ensures alias == Alias(sort, pos, p)
      ensures Known(sort, pos[x := p]) && r == if alias == None then Insert(sort, pos[x := p], x) else sort
    {
      var i := 0;
      while i < |sort| && pos[sort[i]] < p
        invariant 0 <= i <= |sort| && forall k :: 0 <= k < i ==> pos[sort[k]] < p
      {
        i := i + 1;
      }
      if i < |sort| && pos[sort[i]] == p {
        AliasAt(sort, pos, i);
        return Some(sort[i]), sort;
      }
      NoAlias(sort, pos, p, i);
      InsertSplit(sort, pos[x := p], x, i);
      return None, sort[..i] + [x] + sort[i..];
    }

    /** deadline_add_rq_rb. The request may already be in the FIFO, but not in the tree. */
    method AddRqRb(dir: bool, x: nat, p: int)
      requires Shape(Get(View(), dir).sort, pos) && Apart(Get(View(), dir).sort, pos)
      requires Shape(Get(View(), dir).fifo, expires)
      requires x !in Get(View(), dir).sort && forall y :: y in Get(View(), dir).sort ==> y in Get(View(), dir).fifo
      modifies this
      ensures Known(Get(old(View()), dir).sort, old(pos)) && View() == AddRb(old(View()), dir, x, p)
    {
      hide Shape; hide Without; hide Latter; hide Insert; hide Alias;
      ghost var start := View();
      ShapeKnown(Get(start, dir).sort, pos);
      ghost var goal := AddRb(start, dir, x, p);
      AliasIs(Get(start, dir).sort, pos, p);
      var alias, sort := RbAdd(if dir then write.sort else read.sort, pos, x, p);
      while alias.Some?
        invariant Known(Get(View(), dir).sort, pos)
        invariant if alias.Some? then View() == start && alias == Alias(Get(start, dir).sort, start.pos, p)
          else Place(View(), dir, x, p) == goal && sort == Get(goal, dir).sort
        // one request at most is in the way
        decreases alias.Some?
      {
        WithoutHas(Get(start, dir).sort, alias.value); WithoutShape(Get(start, dir).sort, pos, alias.value);
        MoveRequest(dir, alias.value);
        AliasIs(Get(View(), dir).sort, pos, p);
        alias, sort := RbAdd(if dir then write.sort else read.sort, pos, x, p);
      }
      pos := pos[x := p];
      if dir { write := write.(sort := sort); } else { read := read.(sort := sort); }
    }

    /** elv_insert and deadline_add_request. */
    method AddRequest(c: Settings, dir: bool, x: nat, p: int)
      requires Good(c, View()) && Enabled(View(), Queue(x, dir, p))
      modifies this
      ensures View() == Step(c, old(View()), Queue(x, dir, p)) && Good(c, View())
    {
      hide Shape; hide AddRb;
      AddGood(c, View(), dir, x, p);
      nrSorted := nrSorted + 1;
      AddRqRb(dir, x, p);
      expires := expires[x := now + (if dir then c.writeExpire else c.readExpire)];
      if dir { write := write.(fifo := write.fifo + [x]); } else { read := read.(fifo := read.fifo + [x]); }
    }

    /** deadline_merged_request. */
    method MergedRequest(c: Settings, dir: bool, x: nat, p: int)
      requires Good(c, View()) && Enabled(View(), Front(x, dir, p))
      modifies this
      ensures View() == Step(c, old(View()), Front(x, dir, p)) && Good(c, View())
    {
      hide Shape; hide AddRb; hide Without;
      FrontGood(c, View(), dir, x, p);
      var side := if dir then write else read;
      WithoutHas(side.sort, x); WithoutShape(side.sort, pos, x);
      var sort := Delete(side.sort, pos, x);
      if dir { write := write.(sort := sort); } else { read := read.(sort := sort); }
      AddRqRb(dir, x, p);
    }

    /** deadline_merged_requests and elv_merge_requests. */
    method MergedRequests(c: Settings, dir: bool, x: nat, y: nat)
      requires Good(c, View()) && Enabled(View(), Merge(x, dir, y))
      modifies this
      ensures View() == Step(c, old(View()), Merge(x, dir, y)) && Good(c, View())
    {
      hide Shape; hide Good; hide GoodSide; hide Remove; hide Replace; hide Without;
      MergeGood(c, View(), dir, x, y);
      GoodLists(c, View(), dir);
      var side, e := Absorb(if dir then write else read, pos, expires, x, y);
      expires := e;
      if dir { write := side; } else { read := side; }
      nrSorted := nrSorted - 1;
    }

    /** `x` takes the earlier FIFO time and place of `y`, then `y` leaves tree and FIFO. */
    static method Absorb(side: Side, ghost pos: map<nat, int>, expires: map<nat, int>, x: nat, y: nat)
      returns (r: Side, e: map<nat, int>)
      requires Shape(side.sort, pos) && Shape(side.fifo, expires) && Known(side.fifo, expires)
      requires x in side.fifo && y in side.fifo && y in side.sort && x != y
      ensures
        if expires[y] < expires[x] then
          r == Remove(side, y).(fifo := Replace(Without(side.fifo, x), y, x)) && e == expires[x := expires[y]]
        else r == Remove(side, y) && e == expires
    {
      hide Shape; hide Without; hide Latter; hide Replace;
      e := expires;
      var fifo: seq<nat>;
      if expires[y] < expires[x] {
        fifo := Delete(side.fifo, expires, x);
        WithoutHas(side.fifo, x); WithoutShape(side.fifo, expires, x);
        fifo := TakePlace(fifo, expires, y, x);
        e := expires[x := expires[y]];
      } else {
        fifo := Delete(side.fifo, expires, y);
      }
      var next := side.next;
      if next == Some(y) {
        next := LatterRequest(side.sort, pos, y);
      }
      var sort := Delete(side.sort, pos, y);
      r := Side(sort, fifo, next);
    }

    /** list_move puts `x` behind `y`, and `y` leaves. */
    static method TakePlace(fifo: seq<nat>, ghost keys: map<nat, int>, y: nat, x: nat) returns (r: seq<nat>)
      requires Shape(fifo, keys) && y in fifo
      ensures r == Replace(fifo, y, x)
    {
      var i := 0;
      while fifo[i] != y
        invariant 0 <= i < |fifo| && forall k :: 0 <= k < i ==> fifo[k] != y
        decreases |fifo| - i
      {
        i := i + 1;
      }
      ReplaceHas(fifo, y, x);
      r := fifo[..i + 1] + [x] + fifo[i + 1..];
      r := r[..i] + r[i + 1..];
    }

    /** deadline_dispatch_requests. */
    method DispatchRequests(c: Settings) returns (moved: bool)
      requires Good(c, View())
      modifies this
      ensures Known(old(read.fifo), old(expires)) && Known(old(write.fifo), old(expires))
      ensures (moved, View()) == Dispatch(c, old(View())) && View() == Step(c, old(View()), DispatchOne)
      ensures Good(c, View())
      ensures moved == (old(nrSorted) > 0) && nrSorted == if moved then old(nrSorted) - 1 else 0
    {
      hide Shape; hide Move;
      DispatchGood(c, View());
      SideKnown(read, pos, expires); SideKnown(write, pos, expires);
      var haveReads, haveWrites := read.fifo != [], write.fifo != [];
      var rq := if write.next.Some? then write.next else read.next;
      var dir := write.next.Some?;
      if rq.Some? && batching < c.fifoBatch {
        batching := batching + 1;
        MoveRequest(dir, rq.value);
        return true;
      }
      if haveReads {
        dir := false;
        if haveWrites {
          dir := starved >= c.writesStarved;
          starved := starved + 1;
        }
      } else if haveWrites {
        dir := true;
      } else {
        return false;
      }
      if dir { starved := 0; }
      var side := if dir then write else read;
      var x := if now > expires[side.fifo[0]] || side.next == None then side.fifo[0] else side.next.value;
      batching := 0;
      batching := batching + 1;
      MoveRequest(dir, x);
      return true;
    }

    /** elv_drain_elevator: forced dispatching is never broken. */
    method Drain(c: Settings)
      requires Good(c, View())
      modifies this
      ensures Good(c, View()) && nrSorted == 0 && read.fifo == [] && write.fifo == []
    {
      hide Dispatch; hide Step; hide Known;
      var more := true;
      while more
        invariant Good(c, View()) && (!more ==> nrSorted == 0)
        decreases nrSorted, more
      {
        NonNegative(c, View());
        more := DispatchRequests(c);
      }
      if nrSorted != 0 {
        // "forced dispatching is broken"
        assert false;
      }
    }
  }

  lemma GoodLists(c: Settings, s: State, dir: bool)
    requires Good(c, s)
    ensures var side := Get(s, dir);
      && Shape(side.sort, s.pos) && Shape(side.fifo, s.expires) && Known(side.fifo, s.expires)
      && forall x :: x in side.fifo <==> x in side.sort
  {}

  lemma NonNegative(c: Settings, s: State)
    requires Good(c, s)
    ensures s.nrSorted >= 0
  {}
}
