/** The two indexes of the deadline scheduler always agree. */
module DeadlineIndexes {
  import opened Options
  import opened SortedSeq
  import opened Deadline

  // Sequences

  lemma {:induction false} WithoutLength(order: seq<nat>, v: map<nat, int>, g: nat)
    requires Shape(order, v)
    ensures |Without(order, g)| == if g in order then |order| - 1 else |order|
    decreases |order|
  {
    if order != [] {
      TailShape(order, v);
      hide Shape;
      WithoutLength(order[1..], v, g);
    }
  }

  lemma {:induction false} InsertLength(order: seq<nat>, v: map<nat, int>, g: nat)
    requires Known(order, v) && g in v
    ensures |Insert(order, v, g)| == |order| + 1
    decreases |order|
  {
    if order != [] && v[g] >= v[order[0]] {
      InsertLength(order[1..], v, g);
    }
  }

  lemma {:induction false} LatterIn(sort: seq<nat>, v: map<nat, int>, x: nat)
    requires Shape(sort, v)
    ensures Latter(sort, x).Some? ==> Latter(sort, x).value in sort && Latter(sort, x).value != x
    decreases |sort|
  {
    if |sort| >= 2 {
      TailShape(sort, v);
      if sort[0] == x {
        assert sort[1] == sort[1..][0];
      } else {
        LatterIn(sort[1..], v, x);
      }
    }
  }

  lemma {:induction false} AliasIs(sort: seq<nat>, pos: map<nat, int>, p: int)
    requires Known(sort, pos)
    ensures var a := Alias(sort, pos, p);
      if a.Some? then a.value in sort && pos[a.value] == p else forall x :: x in sort ==> pos[x] != p
    decreases |sort|
  {
    if sort != [] && pos[sort[0]] != p {
      AliasIs(sort[1..], pos, p);
    }
  }

  lemma {:induction false} ReplaceHas(fifo: seq<nat>, a: nat, b: nat)
    ensures |Replace(fifo, a, b)| == |fifo|
    ensures forall i :: 0 <= i < |fifo| ==> Replace(fifo, a, b)[i] == if fifo[i] == a then b else fifo[i]
    decreases |fifo|
  {
    if fifo != [] {
      ReplaceHas(fifo[1..], a, b);
    }
  }

  // One direction

  lemma RemoveGood(side: Side, pos: map<nat, int>, expires: map<nat, int>, x: nat, next: Option<nat>)
    requires GoodSide(side, pos, expires) && x in side.fifo
    requires next == Latter(side.sort, x) || next == None || (next == side.next && next != Some(x))
    ensures GoodSide(Side(Without(side.sort, x), Without(side.fifo, x), next), pos, expires)
    ensures forall y :: y in Without(side.fifo, x) <==> y in side.fifo && y != x
    ensures |Without(side.fifo, x)| == |side.fifo| - 1
  {
    hide Shape; hide Without; hide Latter;
    WithoutHas(side.sort, x); WithoutHas(side.fifo, x);
    WithoutShape(side.sort, pos, x); WithoutShape(side.fifo, expires, x);
    WithoutLength(side.sort, pos, x); WithoutLength(side.fifo, expires, x);
    LatterIn(side.sort, pos, x);
  }

  /** Another request's sector or FIFO time does not matter. */
  lemma OtherGood(side: Side, pos: map<nat, int>, expires: map<nat, int>, pos': map<nat, int>, expires': map<nat, int>,
                  next: Option<nat>)
    requires GoodSide(side, pos, expires) && (next == None || next == side.next)
    requires forall x :: x in side.fifo ==> x in pos' && pos'[x] == pos[x] && x in expires' && expires'[x] == expires[x]
    ensures GoodSide(side.(next := next), pos', expires')
  {
    hide Shape;
    ShapeKnown(side.sort, pos); ShapeKnown(side.fifo, expires);
    SameKeys(side.sort, pos, pos');
    SameKeys(side.fifo, expires, expires');
  }

  lemma ShapeKnown(order: seq<nat>, v: map<nat, int>)
    requires Shape(order, v)
    ensures Known(order, v)
  {}

  lemma SideKnown(side: Side, pos: map<nat, int>, expires: map<nat, int>)
    requires GoodSide(side, pos, expires)
    ensures Known(side.sort, pos) && Known(side.fifo, pos) && Known(side.fifo, expires)
  {}

  /** A free sector takes a new request. */
  lemma InsertGood(sort: seq<nat>, pos: map<nat, int>, x: nat, p: int)
    requires Shape(sort, pos) && Apart(sort, pos) && x !in sort && forall y :: y in sort ==> pos[y] != p
    ensures Known(sort, pos[x := p])
    ensures var pos' := pos[x := p]; var sort' := Insert(sort, pos', x);
      && Shape(sort', pos') && Apart(sort', pos') && |sort'| == |sort| + 1
      && forall y :: y in sort' <==> y == x || y in sort
  {
    hide Shape; hide Insert;
    var pos' := pos[x := p];
    ShapeKnown(sort, pos);
    SameKeys(sort, pos, pos');
    InsertShape(sort, pos', x); InsertHas(sort, pos', x); InsertLength(sort, pos', x);
  }

  /** The end of a FIFO takes a request that expires last. */
  lemma AppendShape(fifo: seq<nat>, expires: map<nat, int>, x: nat, e: int)
    requires Shape(fifo, expires) && x !in fifo && Timely(fifo, expires, e)
    ensures Shape(fifo + [x], expires[x := e]) && Timely(fifo + [x], expires[x := e], e)
  {}

  // Steps

  lemma MoveGood(c: Settings, s: State, write: bool, x: nat)
    requires Good(c, s) && x in Get(s, write).fifo
    ensures Good(c, Move(s, write, x))
    ensures forall y :: y in Get(Move(s, write, x), write).fifo <==> y in Get(s, write).fifo && y != x
    ensures Get(Move(s, write, x), !write).fifo == Get(s, !write).fifo
  {
    hide Without; hide Latter; hide Shape;
    var side, other := Get(s, write), Get(s, !write);
    RemoveGood(side, s.pos, s.expires, x, Latter(side.sort, x));
    SideKnown(other, s.pos, s.expires);
    OtherGood(other, s.pos, s.expires, s.pos, s.expires, None);
  }

  /** deadline_add_request after the tree has a free sector. */
  lemma AddFreeGood(c: Settings, s: State, write: bool, x: nat, p: int)
    requires Good(c, s) && x !in s.read.fifo && x !in s.write.fifo
    requires Known(Get(s, write).sort, s.pos) && forall y :: y in Get(s, write).sort ==> s.pos[y] != p
    ensures Good(c, Enqueue(c, Place(s.(nrSorted := s.nrSorted + 1), write, x, p), write, x))
  {
    hide Shape; hide Insert;
    var side, other := Get(s, write), Get(s, !write);
    var pos, e := s.pos[x := p], s.now + ExpireTime(c, write);
    InsertGood(side.sort, s.pos, x, p);
    AppendShape(side.fifo, s.expires, x, e);
    SideKnown(other, s.pos, s.expires);
    OtherGood(other, s.pos, s.expires, pos, s.expires[x := e], other.next);
  }

  lemma AddGood(c: Settings, s: State, write: bool, x: nat, p: int)
    requires Good(c, s) && x !in s.read.fifo && x !in s.write.fifo
    ensures Known(Get(s, write).sort, s.pos) && Good(c, Add(c, s, write, x, p))
  {
    hide Shape; hide Insert; hide Without; hide Latter; hide Alias;
    SideKnown(Get(s, write), s.pos, s.expires);
    AliasIs(Get(s, write).sort, s.pos, p);
    var alias := Alias(Get(s, write).sort, s.pos, p);
    if alias.Some? {
      var t := Move(s, write, alias.value);
      MoveGood(c, s, write, alias.value);
      SideKnown(Get(t, write), t.pos, t.expires);
      AddFreeGood(c, t, write, x, p);
    } else {
      AddFreeGood(c, s, write, x, p);
    }
  }

  /** deadline_merged_request after the tree has a free sector for the request. */
  lemma FrontFreeGood(c: Settings, s: State, write: bool, x: nat, p: int, next: Option<nat>)
    requires Good(c, s) && x in Get(s, write).fifo
    requires Known(Get(s, write).sort, s.pos) && forall y :: y in Get(s, write).sort && y != x ==> s.pos[y] != p
    requires next.Some? ==> next.value in Get(s, write).sort && Get(s, !write).next == None
    ensures var side := Get(s, write); var t := Set(s, write, Side(Without(side.sort, x), side.fifo, next));
      Known(Get(t, write).sort, s.pos) && Good(c, Place(t, write, x, p))
  {
    hide Shape; hide Insert; hide Without;
    var side, other := Get(s, write), Get(s, !write);
    WithoutHas(side.sort, x); WithoutShape(side.sort, s.pos, x); WithoutLength(side.sort, s.pos, x);
    InsertGood(Without(side.sort, x), s.pos, x, p);
    SideKnown(other, s.pos, s.expires);
    OtherGood(other, s.pos, s.expires, s.pos[x := p], s.expires, other.next);
  }

  lemma {:induction false} WithoutSwap(order: seq<nat>, a: nat, b: nat)
    ensures Without(Without(order, a), b) == Without(Without(order, b), a)
  {
    if order != [] {
      WithoutSwap(order[1..], a, b);
      if order[0] != a { WithoutCons(order[0], Without(order[1..], a), b); }
      if order[0] != b { WithoutCons(order[0], Without(order[1..], b), a); }
    }
  }

  lemma WithoutCons(x: nat, tail: seq<nat>, g: nat)
    ensures Without([x] + tail, g) == if x == g then Without(tail, g) else [x] + Without(tail, g)
  {
    assert ([x] + tail)[1..] == tail;
  }

  lemma FrontGood(c: Settings, s: State, write: bool, x: nat, p: int)
    requires Good(c, s) && x in Get(s, write).fifo
    ensures Known(Get(s, write).sort, s.pos) && Good(c, FrontMerge(s, write, x, p))
  {
    hide Shape; hide Insert; hide Without; hide Latter; hide Alias; hide Place;
    var side := Get(s, write);
    SideKnown(side, s.pos, s.expires);
    var sort := Without(side.sort, x);
    WithoutHas(side.sort, x);
    AliasIs(sort, s.pos, p);
    var alias := Alias(sort, s.pos, p);
    if alias.Some? {
      var t := Move(s, write, alias.value);
      MoveGood(c, s, write, alias.value);
      SideKnown(Get(t, write), t.pos, t.expires);
      WithoutHas(side.sort, alias.value);
      WithoutSwap(side.sort, x, alias.value);
      WithoutShape(side.sort, s.pos, x);
      LatterIn(sort, s.pos, alias.value);
      FrontFreeGood(c, t, write, x, p, Latter(sort, alias.value));
    } else {
      FrontFreeGood(c, s, write, x, p, side.next);
    }
  }

  lemma ReplaceShape(fifo: seq<nat>, expires: map<nat, int>, y: nat, x: nat)
    requires Shape(fifo, expires) && x !in fifo && y in fifo
    ensures Shape(Replace(fifo, y, x), expires[x := expires[y]])
    ensures forall z :: z in Replace(fifo, y, x) <==> z == x || (z in fifo && z != y)
  {
    ReplaceHas(fifo, y, x);
    var r := Replace(fifo, y, x);
    forall z | z == x || (z in fifo && z != y) ensures z in r {
      var i :| 0 <= i < |fifo| && fifo[i] == if z == x then y else z;
      assert r[i] == z;
    }
  }

  lemma MergeGood(c: Settings, s: State, write: bool, x: nat, y: nat)
    requires Good(c, s) && x in Get(s, write).fifo && y in Get(s, write).fifo && x != y
    ensures x in s.expires && y in s.expires && Good(c, MergeRequests(s, write, x, y))
    ensures var t := MergeRequests(s, write, x, y);
      && x in Get(t, write).fifo && y !in Get(t, write).fifo && x in t.expires
      && t.expires[x] == if s.expires[y] < s.expires[x] then s.expires[y] else s.expires[x]
  {
    hide Shape; hide Without; hide Latter; hide Replace;
    var side, other := Get(s, write), Get(s, !write);
    SideKnown(side, s.pos, s.expires); SideKnown(other, s.pos, s.expires);
    RemoveGood(side, s.pos, s.expires, y, Remove(side, y).next);
    if s.expires[y] < s.expires[x] {
      var expires := s.expires[x := s.expires[y]];
      var f := Without(side.fifo, x);
      WithoutHas(side.fifo, x); WithoutShape(side.fifo, s.expires, x); WithoutLength(side.fifo, s.expires, x);
      ReplaceShape(f, s.expires, y, x);
      ReplaceHas(f, y, x);
      OtherGood(other, s.pos, s.expires, s.pos, expires, other.next);
    }
  }

  lemma DispatchGood(c: Settings, s: State)
    requires Good(c, s)
    ensures Known(s.read.fifo, s.expires) && Known(s.write.fifo, s.expires) && Good(c, Dispatch(c, s).1)
    ensures Dispatch(c, s).0 <==> s.nrSorted > 0
    ensures Dispatch(c, s).1.nrSorted == if s.nrSorted > 0 then s.nrSorted - 1 else 0
  {
    hide Shape; hide Move;
    SideKnown(s.read, s.pos, s.expires); SideKnown(s.write, s.pos, s.expires);
    var m := BatchNext(c, s);
    if m.Some? {
      var t := s.(batching := s.batching + 1);
      MoveGood(c, t, m.value.write, m.value.id);
      MoveCounts(t, m.value.write, m.value.id);
    } else if s.read.fifo != [] || s.write.fifo != [] {
      var write := PickWrite(c, s);
      var starved := if write then 0 else if s.write.fifo != [] then s.starved + 1 else s.starved;
      var t, x := s.(batching := 1, starved := starved), BatchStart(s, Get(s, write));
      MoveGood(c, t, write, x);
      MoveCounts(t, write, x);
    }
  }

  lemma MoveCounts(s: State, write: bool, x: nat)
    ensures var t := Move(s, write, x);
      && t.nrSorted == s.nrSorted - 1 && t.out == s.out + [Moved(x, write)]
      && t.batching == s.batching && t.starved == s.starved && t.now == s.now
  {}

  ghost function Step(c: Settings, s: State, op: Op): (t: State)
    requires Good(c, s) && Enabled(s, op)
    ensures Good(c, t)
  {
    match op
    case Queue(x, write, p) =>
      AddGood(c, s, write, x, p);
      Add(c, s, write, x, p)
    case Front(x, write, p) =>
      FrontGood(c, s, write, x, p);
      FrontMerge(s, write, x, p)
    case Merge(x, write, y) =>
      MergeGood(c, s, write, x, y);
      MergeRequests(s, write, x, y)
    case DispatchOne =>
      DispatchGood(c, s);
      Dispatch(c, s).1
    case Tick(dt) => s.(now := s.now + dt)
  }

  /** The head of a FIFO decides whether anything has expired. */
  lemma HeadDecides(c: Settings, s: State, write: bool)
    requires Good(c, s) && Get(s, write).fifo != []
    ensures Known(Get(s, write).fifo, s.expires)
    ensures HeadExpired(s, Get(s, write).fifo) <==> exists x :: x in Get(s, write).fifo && s.now > s.expires[x]
  {
    var fifo := Get(s, write).fifo;
    TailShape(fifo, s.expires);
    assert fifo[0] in fifo;
  }

  /** The successor in the tree is the request with the next higher sector. */
  lemma {:induction false} LatterIsNext(sort: seq<nat>, pos: map<nat, int>, x: nat)
    requires Shape(sort, pos) && Apart(sort, pos) && x in sort
    ensures var y := Latter(sort, x);
      if y == None then forall z :: z in sort ==> pos[z] <= pos[x]
      else
        && y.value in sort && pos[x] < pos[y.value]
        && forall z :: z in sort ==> pos[z] <= pos[x] || pos[y.value] <= pos[z]
    decreases |sort|
  {
    if |sort| >= 2 {
      TailShape(sort, pos);
      var tail := sort[1..];
      assert forall z :: z in sort <==> z == sort[0] || z in tail;
      if sort[0] == x {
        assert tail[0] == sort[1];
        TailShape(tail, pos);
        assert forall z :: z in tail ==> pos[sort[1]] <= pos[z];
      } else {
        LatterIsNext(tail, pos, x);
      }
    }
  }

  /** What a dispatch call that starts a new batch moves out. */
  ghost predicate Starts(s: State, t: State, m: Moved) { t.out == s.out + [m] && m.id in Get(s, m.write).fifo }

  /** If anything has expired in the direction of a new batch, it starts with a request that no other expires before. */
  lemma ExpiredFirst(c: Settings, s: State)
    requires Good(c, s) && BatchNext(c, s) == None && s.nrSorted > 0
    ensures Known(s.read.fifo, s.expires) && Known(s.write.fifo, s.expires)
    ensures var m := Moved(BatchStart(s, Get(s, PickWrite(c, s))), PickWrite(c, s));
      && Starts(s, Dispatch(c, s).1, m)
      && ((exists x :: x in Get(s, m.write).fifo && s.now > s.expires[x]) ==>
            forall y :: y in Get(s, m.write).fifo ==> s.expires[m.id] <= s.expires[y])
  {
    hide Shape; hide Move;
    SideKnown(s.read, s.pos, s.expires); SideKnown(s.write, s.pos, s.expires);
    var write := PickWrite(c, s);
    var side := Get(s, write);
    HeadDecides(c, s, write);
    TailShape(side.fifo, s.expires);
    var starved := if write then 0 else if s.write.fifo != [] then s.starved + 1 else s.starved;
    MoveCounts(s.(batching := 1, starved := starved), write, BatchStart(s, side));
  }

  ghost predicate Initial(s: State) {
    s == State(Side([], [], None), Side([], [], None), map[], map[], 0, 0, 0, s.now, [])
  }

  lemma InitialGood(c: Settings, s: State)
    requires Initial(s)
    ensures Good(c, s)
  {}
}
