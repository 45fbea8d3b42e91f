/**
  The elevator's hash for back merges: requests by their end sector, with lazy deletion of requests that may not be
  merged.
 */
module ElevatorHash {
  import opened Options
  import opened SortedSeq

  /**
    `at` is the bucket of each hashed request, `inside` the requests in the elevator, `start` and `sectors` say where
    they are on the disk, and `mergeable` are those that rq_mergeable accepts.
   */
  datatype Table = Table(
    buckets: seq<seq<nat>>, at: map<nat, nat>, inside: set<nat>,
    start: map<nat, nat>, sectors: map<nat, nat>, mergeable: set<nat>)

  /** rq_hash_key: the sector behind a request. */
  function End(t: Table, r: nat): nat
    requires r in t.start && r in t.sectors
  {
    t.start[r] + t.sectors[r]
  }

  /** Each hashed request is in its bucket, and only there. */
  predicate Linked(t: Table) {
    && (forall r :: r in t.at ==> t.at[r] < |t.buckets| && r in t.buckets[t.at[r]])
    && (forall b :: 0 <= b < |t.buckets| ==> forall r :: r in t.buckets[b] ==> r in t.at && t.at[r] == b)
  }

  /** Whether a request that may be merged is in the bucket of its end. */
  ghost predicate Placed(hash: nat -> nat, t: Table, r: nat)
    requires r in t.start && r in t.sectors
  {
    r in t.mergeable ==> r in t.at && t.at[r] == hash(End(t, r))
  }

  /** The lists are in order, and what is hashed is in the elevator. */
  ghost predicate Framed(hash: nat -> nat, t: Table) {
    && Linked(t) && (forall s :: hash(s) < |t.buckets|)
    && (forall r :: r in t.inside ==> r in t.start && r in t.sectors)
    && (forall r :: r in t.at ==> r in t.inside)
  }

  /** All requests but those in `moved` are hashed by their end. */
  ghost predicate GoodBut(hash: nat -> nat, t: Table, moved: set<nat>) {
    Framed(hash, t) && forall r :: r in t.inside && r !in moved ==> r in t.start && r in t.sectors && Placed(hash, t, r)
  }

  ghost predicate Good(hash: nat -> nat, t: Table) { GoodBut(hash, t, {}) }

  /** elv_rqhash_del. */
  function Del(t: Table, r: nat): Table
    requires Linked(t)
  {
    if r !in t.at then t
    else t.(buckets := t.buckets[t.at[r] := Without(t.buckets[t.at[r]], r)], at := t.at - {r})
  }

  /** elv_rqhash_add. */
  function Add(hash: nat -> nat, t: Table, r: nat): Table
    requires r in t.start && r in t.sectors && hash(End(t, r)) < |t.buckets|
  {
    var b := hash(End(t, r));
    t.(buckets := t.buckets[b := [r] + t.buckets[b]], at := t.at[r := b])
  }

  lemma DelLinked(t: Table, r: nat)
    requires Linked(t)
    ensures Linked(Del(t, r)) && |Del(t, r).buckets| == |t.buckets|
    ensures Del(t, r) == t.(buckets := Del(t, r).buckets, at := t.at - {r})
  {
    hide Without;
    if r in t.at {
      WithoutHas(t.buckets[t.at[r]], r);
    } else {
      assert t.at - {r} == t.at;
    }
  }

  lemma AddLinked(hash: nat -> nat, t: Table, r: nat)
    requires Linked(t) && r !in t.at && r in t.start && r in t.sectors && hash(End(t, r)) < |t.buckets|
    ensures Linked(Add(hash, t, r)) && |Add(hash, t, r).buckets| == |t.buckets|
    ensures Add(hash, t, r) == t.(buckets := Add(hash, t, r).buckets, at := t.at[r := hash(End(t, r))])
  {
    var u, b := Add(hash, t, r), hash(End(t, r));
    forall x | x in u.at ensures u.at[x] < |u.buckets| && x in u.buckets[u.at[x]] {
      assert x != r ==> x in t.buckets[t.at[x]];
    }
  }

  /** Where requests are on the disk does not matter for the lists. */
  lemma FramedSame(hash: nat -> nat, t: Table, u: Table)
    requires Framed(hash, t) && u.buckets == t.buckets && u.at == t.at && t.inside <= u.inside
    requires forall r :: r in u.inside ==> r in u.start && r in u.sectors
    ensures Framed(hash, u)
  {}

  lemma FramedFrom(hash: nat -> nat, t: Table, u: Table)
    requires Framed(hash, t) && Linked(u) && |u.buckets| == |t.buckets|
    requires u.inside == t.inside && u.start == t.start && u.sectors == t.sectors
    requires forall r :: r in u.at ==> r in t.at || r in t.inside
    ensures Framed(hash, u)
  {}

  lemma FramedHas(hash: nat -> nat, t: Table)
    requires Framed(hash, t)
    ensures Linked(t) && (forall s :: hash(s) < |t.buckets|)
    ensures forall r :: r in t.inside ==> r in t.start && r in t.sectors
    ensures forall r :: r in t.at ==> r in t.inside
  {}

  /** A request that did not change stays where it belongs. */
  lemma PlacedSame(hash: nat -> nat, t: Table, u: Table, r: nat)
    requires r in t.start && r in t.sectors && r in u.start && r in u.sectors && Placed(hash, t, r)
    requires u.start[r] == t.start[r] && u.sectors[r] == t.sectors[r] && (r in u.mergeable ==> r in t.mergeable)
    requires r in t.at ==> r in u.at && u.at[r] == t.at[r]
    ensures Placed(hash, u, r)
  {}

  lemma PlacedAt(hash: nat -> nat, t: Table, r: nat)
    requires r in t.start && r in t.sectors && r in t.at && t.at[r] == hash(End(t, r))
    ensures Placed(hash, t, r)
  {}

  lemma PlacedNot(hash: nat -> nat, t: Table, r: nat)
    requires r in t.start && r in t.sectors && r !in t.mergeable
    ensures Placed(hash, t, r)
  {}

  lemma PlacedEnd(hash: nat -> nat, t: Table, u: Table, r: nat)
    requires r in t.start && r in t.sectors && r in u.start && r in u.sectors && Placed(hash, t, r)
    requires End(u, r) == End(t, r) && u.at == t.at && u.mergeable == t.mergeable
    ensures Placed(hash, u, r)
  {}

  lemma LinkedSame(t: Table, u: Table)
    requires Linked(t) && u.buckets == t.buckets && u.at == t.at
    ensures Linked(u)
  {}

  /** elv_rqhash_reposition: the request is where its end says. */
  function Reposition(hash: nat -> nat, t: Table, r: nat): Table
    requires Linked(t) && r in t.start && r in t.sectors && hash(End(t, r)) < |t.buckets|
  {
    DelLinked(t, r);
    Add(hash, Del(t, r), r)
  }

  lemma RepositionIs(hash: nat -> nat, t: Table, r: nat)
    requires Linked(t) && r in t.start && r in t.sectors && hash(End(t, r)) < |t.buckets|
    ensures Linked(Reposition(hash, t, r)) && |Reposition(hash, t, r).buckets| == |t.buckets|
    ensures var u := Reposition(hash, t, r);
      u == t.(buckets := u.buckets, at := t.at[r := hash(End(t, r))]) && End(u, r) == End(t, r)
  {
    hide Del; hide Add; hide Linked;
    DelLinked(t, r);
    AddLinked(hash, Del(t, r), r);
    assert (t.at - {r})[r := hash(End(t, r))] == t.at[r := hash(End(t, r))];
  }

  lemma RepositionGood(hash: nat -> nat, t: Table, r: nat, moved: set<nat>)
    requires GoodBut(hash, t, moved) && r in t.inside
    ensures var u := Reposition(hash, t, r);
      GoodBut(hash, u, moved - {r}) && u == t.(buckets := u.buckets, at := t.at[r := hash(End(t, r))])
  {
    hide Reposition; hide Placed; hide Linked; hide Framed; hide End;
    FramedHas(hash, t);
    RepositionIs(hash, t, r);
    var u := Reposition(hash, t, r);
    FramedFrom(hash, t, u);
    forall x | x in t.inside && x !in moved && x != r ensures Placed(hash, u, x) { PlacedSame(hash, t, u, x); }
    PlacedAt(hash, u, r);
  }

  /** A request leaves hash and elevator. */
  lemma LeaveGood(hash: nat -> nat, t: Table, r: nat, moved: set<nat>)
    requires GoodBut(hash, t, moved)
    ensures GoodBut(hash, Del(t, r).(inside := t.inside - {r}), moved - {r})
    ensures Del(t, r) == t.(buckets := Del(t, r).buckets, at := t.at - {r})
  {
    hide Del; hide Placed;
    DelLinked(t, r);
    hide Linked;
    var u := Del(t, r).(inside := t.inside - {r});
    LinkedSame(Del(t, r), u);
    forall x | x in u.inside && x !in moved ensures Placed(hash, u, x) { PlacedSame(hash, t, u, x); }
  }

  /** Lazy deletion: a request that may not be merged need not be hashed. */
  lemma DelGood(hash: nat -> nat, t: Table, r: nat)
    requires Good(hash, t) && r !in t.mergeable
    ensures Linked(t) && Good(hash, Del(t, r)) && Del(t, r) == t.(buckets := Del(t, r).buckets, at := t.at - {r})
  {
    hide Del; hide Placed;
    DelLinked(t, r);
    hide Linked;
    var u := Del(t, r);
    forall x | x in t.inside && x != r ensures Placed(hash, u, x) { PlacedSame(hash, t, u, x); }
    if r in t.inside { PlacedNot(hash, u, r); }
  }

  /** The request occupies other sectors. */
  function Resized(t: Table, r: nat, start: nat, sectors: nat): Table {
    t.(start := t.start[r := start], sectors := t.sectors[r := sectors])
  }

  /** Then at most this request is in the wrong bucket, and none if its end has not moved. */
  lemma ResizedGood(hash: nat -> nat, t: Table, r: nat, start: nat, sectors: nat)
    requires GoodBut(hash, t, {r}) && r in t.inside
    ensures r in t.start && r in t.sectors && GoodBut(hash, Resized(t, r, start, sectors), {r})
    ensures Good(hash, t) && start + sectors == End(t, r) ==> Good(hash, Resized(t, r, start, sectors))
  {
    hide Framed; hide Placed;
    FramedHas(hash, t);
    var u := Resized(t, r, start, sectors);
    FramedSame(hash, t, u);
    forall x | x in t.inside && x != r ensures Placed(hash, u, x) { PlacedSame(hash, t, u, x); }
    if Good(hash, t) && start + sectors == End(t, r) { PlacedEnd(hash, t, u, r); }
  }

  lemma GoodIsGoodBut(hash: nat -> nat, t: Table, moved: set<nat>)
    requires Good(hash, t)
    ensures GoodBut(hash, t, moved)
  {}

  /** What a linear scan over the elevator finds. */
  ghost predicate EndsAt(t: Table, r: nat, sector: nat) {
    r in t.inside && r in t.mergeable && r in t.start && r in t.sectors && End(t, r) == sector
  }

  /** `r` is in the bucket of its end, and `next` is gone. */
  function Merged(hash: nat -> nat, t: Table, r: nat, next: nat, buckets: seq<seq<nat>>): Table
    requires r in t.start && r in t.sectors
  {
    t.(buckets := buckets, at := t.at[r := hash(End(t, r))] - {next}, inside := t.inside - {next})
  }

  /** A request merge: `r` takes the sectors of `next`. */
  function Absorbed(hash: nat -> nat, t: Table, r: nat, next: nat, buckets: seq<seq<nat>>): Table
    requires r in t.start && r in t.sectors && next in t.sectors
  {
    Merged(hash, Resized(t, r, t.start[r], t.sectors[r] + t.sectors[next]), r, next, buckets)
  }

  /** The request has the sector. */
  predicate Occupies(t: Table, r: nat, sector: nat)
    requires r in t.start && r in t.sectors
  {
    t.start[r] <= sector < End(t, r)
  }

  /** Every request other than `r` is where it was. */
  ghost predicate OthersStay(t: Table, u: Table, r: nat) {
    forall x :: x != r && x in t.start && x in t.sectors ==>
      x in u.start && x in u.sectors && u.start[x] == t.start[x] && u.sectors[x] == t.sectors[x]
  }

  /** Of two requests that may be merged: the result has the sectors of both, and nothing else moves. */
  lemma AbsorbedSpans(hash: nat -> nat, t: Table, r: nat, next: nat, buckets: seq<seq<nat>>, allowed: bool)
    requires r in t.start && r in t.sectors && next in t.start && next in t.sectors && r != next
    requires Adjacent(t, r, next, allowed)
    ensures var u := Absorbed(hash, t, r, next, buckets);
      && r in u.start && r in u.sectors && u.start[r] == t.start[r] && End(u, r) == End(t, next)
      && (forall x :: Occupies(u, r, x) <==> Occupies(t, r, x) || Occupies(t, next, x))
      && (forall x :: !(Occupies(t, r, x) && Occupies(t, next, x)))
      && OthersStay(t, u, r) && u.inside == t.inside - {next} && {r, next} <= t.mergeable
  {}

  /** When attempt_merge succeeds; `allowed` stands for its other conditions: direction, device, segment limits. */
  predicate Adjacent(t: Table, r: nat, next: nat, allowed: bool)
    requires r in t.start && r in t.sectors && next in t.start
  {
    r in t.mergeable && next in t.mergeable && End(t, r) == t.start[next] && allowed
  }

  class Hash {
    const hash: nat -> nat
    var t: Table

    constructor (hash: nat -> nat, n: nat)
      requires forall s :: hash(s) < n
      ensures Good(hash, t) && this.hash == hash && t.inside == {}
    {
      this.hash := hash;
      t := Table(seq(n, _ => []), map[], {}, map[], map[], {});
    }

    /** elv_insert for a sorted request. */
    method Insert(r: nat, start: nat, sectors: nat, mergeable: bool)
      requires Good(hash, t) && r !in t.inside
      modifies this
      ensures Good(hash, t)
      ensures t == Entered(old(t), r, start, sectors, mergeable).(
        buckets := t.buckets, at := if mergeable then old(t.at)[r := hash(start + sectors)] else old(t.at))
    {
      hide Add; hide GoodBut; hide Good;
      EnteredGood(hash, t, r, start, sectors, mergeable);
      t := Entered(t, r, start, sectors, mergeable);
      if mergeable {
        LinkedOf(hash, t, {r});
        AddGood(hash, t, r);
        t := Add(hash, t, r);
      }
    }

    /** A flag is set that forbids merging. */
    method ForbidMerge(r: nat)
      requires Good(hash, t)
      modifies this
      ensures Good(hash, t) && t == old(t).(mergeable := old(t.mergeable) - {r})
    {
      hide Framed; hide Placed;
      FramedHas(hash, t);
      ghost var before := t;
      t := t.(mergeable := t.mergeable - {r});
      FramedSame(hash, before, t);
      forall x | x in t.inside ensures Placed(hash, t, x) { PlacedSame(hash, before, t, x); }
    }

    /** elv_dispatch_add_tail and elv_dispatch_sort: the request leaves the elevator. */
    method Dispatch(r: nat)
      requires Good(hash, t) && r in t.inside
      modifies this
      ensures Good(hash, t)
      ensures t == old(t).(buckets := t.buckets, at := old(t.at) - {r}, inside := old(t.inside) - {r})
    {
      hide Del; hide GoodBut;
      LinkedOf(hash, t, {});
      LeaveGood(hash, t, r, {});
      t := Del(t, r);
      t := t.(inside := t.inside - {r});
      assert {} - {r} == {};
    }

    /**
      elv_merge_requests after attempt_merge has given `r` the sectors of the adjacent `next`. Its bucket may be that of
      an earlier end: a back merge comes here before it has repositioned the request.
     */
    method MergeRequests(r: nat, next: nat)
      requires GoodBut(hash, t, {r}) && r in t.inside && next in t.inside && r != next
      modifies this
      ensures Good(hash, t)
      ensures r in old(t.start) && r in old(t.sectors) && t == Merged(hash, old(t), r, next, t.buckets)
    {
      hide Del; hide Add; hide GoodBut; hide Reposition;
      LinkedOf(hash, t, {r});
      RepositionGood(hash, t, r, {r});
      t := Reposition(hash, t, r);
      assert {r} - {r} == {};
      LinkedOf(hash, t, {});
      LeaveGood(hash, t, next, {});
      t := Del(t, next);
      t := t.(inside := t.inside - {next});
      assert {} - {next} == {};
    }

    /** attempt_merge. */
    method AttemptMerge(r: nat, next: nat, allowed: bool) returns (merged: bool)
      requires GoodBut(hash, t, {r}) && r in t.inside && next in t.inside && r != next
      modifies this
      ensures merged == Adjacent(old(t), r, next, allowed)
      ensures if merged then Good(hash, t) && t == Absorbed(hash, old(t), r, next, t.buckets) else t == old(t)
    {
      hide GoodBut; hide Good; hide Merged;
      InsideHas(hash, t, {r}, r); InsideHas(hash, t, {r}, next);
      if r !in t.mergeable || next !in t.mergeable { return false; }
      if End(t, r) != t.start[next] { return false; }
      if !allowed { return false; }
      ResizedGood(hash, t, r, t.start[r], t.sectors[r] + t.sectors[next]);
      ResizedIs(t, r, t.start[r], t.sectors[r] + t.sectors[next]);
      t := Resized(t, r, t.start[r], t.sectors[r] + t.sectors[next]);
      MergeRequests(r, next);
      return true;
    }

    /**
      The back-merge arm of __make_request: a bio of `n` sectors goes behind the request, which is then merged with the
      `next` request in sector order, if there is one and that is possible, or put into the bucket of its new end.
     */
    method BackMerge(r: nat, n: nat, next: Option<nat>, allowed: bool) returns (merged: bool)
      requires Good(hash, t) && r in t.inside && r in t.mergeable
      requires next.Some? ==> next.value in t.inside && next.value != r
      modifies this
      ensures Good(hash, t)
      ensures var grown := Resized(old(t), r, old(t.start[r]), old(t.sectors[r]) + n);
        && merged == (next.Some? && Adjacent(grown, r, next.value, allowed))
        && t == if merged then Absorbed(hash, grown, r, next.value, t.buckets)
          else grown.(buckets := t.buckets, at := grown.at[r := hash(End(grown, r))])
    {
      hide GoodBut; hide Good; hide Reposition;
      GoodIsGoodBut(hash, t, {r});
      LinkedOf(hash, t, {r});
      ResizedGood(hash, t, r, t.start[r], t.sectors[r] + n);
      t := Resized(t, r, t.start[r], t.sectors[r] + n);
      LinkedOf(hash, t, {r});
      merged := false;
      if next.Some? {
        merged := AttemptMerge(r, next.value, allowed);
      }
      if !merged {
        RepositionGood(hash, t, r, {r});
        GoodAgain(hash, Reposition(hash, t, r), r);
        t := Reposition(hash, t, r);
      }
    }

    /**
      The front-merge arm: a bio of `n` sectors that ends where the request starts goes in front of it, and the request
      is then merged into the previous one, if there is one and that is possible. Otherwise it keeps its bucket.
     */
    method FrontMerge(r: nat, n: nat, prev: Option<nat>, allowed: bool) returns (merged: bool)
      requires Good(hash, t) && r in t.inside && r in t.mergeable && n <= t.start[r]
      requires prev.Some? ==> prev.value in t.inside && prev.value != r
      modifies this
      ensures Good(hash, t) && r in t.start && r in t.sectors && End(t, r) == old(End(t, r))
      ensures var grown := Resized(old(t), r, old(t.start[r]) - n, old(t.sectors[r]) + n);
        && merged == (prev.Some? && Adjacent(grown, prev.value, r, allowed))
        && t == if merged then Absorbed(hash, grown, prev.value, r, t.buckets) else grown
    {
      hide GoodBut; hide Good; hide Absorbed; hide Resized; hide Adjacent; hide End;
      GoodIsGoodBut(hash, t, {r});
      InsideHas(hash, t, {r}, r);
      GrowFront(r, n);
      merged := false;
      if prev.Some? {
        GoodIsGoodBut(hash, t, {prev.value});
        InsideHas(hash, t, {prev.value}, prev.value);
        ghost var grown := t;
        merged := AttemptMerge(prev.value, r, allowed);
        AbsorbedKeeps(hash, grown, prev.value, r, t.buckets);
      }
    }

    /** A request takes sectors in front. */
    method GrowFront(r: nat, n: nat)
      requires Good(hash, t) && r in t.inside && r in t.start && r in t.sectors && n <= t.start[r]
      modifies this
      ensures Good(hash, t) && t == Resized(old(t), r, old(t.start[r]) - n, old(t.sectors[r]) + n)
      ensures t.inside == old(t.inside) && r in t.start && r in t.sectors && End(t, r) == old(End(t, r))
    {
      hide GoodBut; hide Good; hide Resized; hide End;
      GoodIsGoodBut(hash, t, {r});
      GrownFront(t, r, n);
      ResizedGood(hash, t, r, t.start[r] - n, t.sectors[r] + n);
      t := Resized(t, r, t.start[r] - n, t.sectors[r] + n);
    }

    /** elv_rqhash_find: it drops requests that may not be merged, and finds what a linear scan would. */
    method Find(sector: nat) returns (r: Option<nat>)
      requires Good(hash, t)
      modifies this
      ensures Good(hash, t) && t == old(t).(buckets := t.buckets, at := t.at)
      ensures forall x :: x in old(t.at) && x !in t.at ==> x !in t.mergeable
      ensures forall x :: x in t.at ==> x in old(t.at) && t.at[x] == old(t.at[x])
      ensures r.Some? ==> EndsAt(t, r.value, sector)
      ensures r == None ==> forall x :: !EndsAt(t, x, sector)
    {
      hide Del; hide Linked; hide Good; hide EndsAt;
      ghost var t0 := t;
      AllListed(hash, t, sector);
      var list := t.buckets[hash(sector)];
      var i := 0;
      while i < |list|
        invariant 0 <= i <= |list| && Good(hash, t) && t == t0.(buckets := t.buckets, at := t.at)
        invariant forall x :: x in t0.at && x !in t.at ==> x !in t.mergeable
        invariant forall x :: x in t.at ==> x in t0.at && t.at[x] == t0.at[x]
        invariant forall k :: 0 <= k < i ==> !EndsAt(t0, list[k], sector)
      {
        var rq := list[i];
        ListedInside(hash, t0, sector, rq);
        if rq !in t.mergeable {
          DelGood(hash, t, rq);
          t := Del(t, rq);
        } else if End(t, rq) == sector {
          EndsSame(t0, t, rq, sector);
          return Some(rq);
        }
        i := i + 1;
      }
      forall x ensures !EndsAt(t, x, sector) { EndsSame(t0, t, x, sector); }
      return None;
    }
  }

  lemma ResizedIs(t: Table, r: nat, start: nat, sectors: nat)
    ensures var u := Resized(t, r, start, sectors);
      u.inside == t.inside && r in u.start && r in u.sectors && End(u, r) == start + sectors
  {}

  /** What grows in front does not move its end. */
  lemma GrownFront(t: Table, r: nat, n: nat)
    requires r in t.start && r in t.sectors && n <= t.start[r]
    ensures var u := Resized(t, r, t.start[r] - n, t.sectors[r] + n);
      u.inside == t.inside && r in u.start && r in u.sectors && End(u, r) == End(t, r)
      && t.start[r] - n + (t.sectors[r] + n) == End(t, r)
  {}

  lemma AbsorbedKeeps(hash: nat -> nat, t: Table, r: nat, next: nat, buckets: seq<seq<nat>>)
    requires r in t.start && r in t.sectors && next in t.start && next in t.sectors && r != next
    ensures var u := Absorbed(hash, t, r, next, buckets);
      next in u.start && next in u.sectors && End(u, next) == End(t, next)
  {}

  lemma GoodAgain(hash: nat -> nat, t: Table, r: nat)
    requires GoodBut(hash, t, {r} - {r})
    ensures Good(hash, t)
  {}

  /** A new request in the elevator, not yet hashed. */
  function Entered(t: Table, r: nat, start: nat, sectors: nat, mergeable: bool): Table {
    Resized(t, r, start, sectors).(
      inside := t.inside + {r}, mergeable := if mergeable then t.mergeable + {r} else t.mergeable - {r})
  }

  lemma EnteredGood(hash: nat -> nat, t: Table, r: nat, start: nat, sectors: nat, mergeable: bool)
    requires Good(hash, t) && r !in t.inside
    ensures var u := Entered(t, r, start, sectors, mergeable);
      r !in u.at && GoodBut(hash, u, {r}) && (mergeable || Good(hash, u))
  {
    hide Framed; hide Placed;
    FramedHas(hash, t);
    var u := Entered(t, r, start, sectors, mergeable);
    FramedSame(hash, t, u);
    forall x | x in t.inside ensures Placed(hash, u, x) { PlacedSame(hash, t, u, x); }
    if !mergeable { PlacedNot(hash, u, r); }
  }

  /** Hashing the one request that is not in its bucket. */
  lemma AddGood(hash: nat -> nat, t: Table, r: nat)
    requires GoodBut(hash, t, {r}) && r in t.inside && r !in t.at
    ensures var u := Add(hash, t, r); Good(hash, u) && u == t.(buckets := u.buckets, at := t.at[r := hash(End(t, r))])
  {
    hide Add; hide Placed; hide Linked; hide Framed;
    FramedHas(hash, t);
    AddLinked(hash, t, r);
    var u := Add(hash, t, r);
    FramedFrom(hash, t, u);
    forall x | x in t.inside && x != r ensures Placed(hash, u, x) { PlacedSame(hash, t, u, x); }
    PlacedAt(hash, u, r);
  }

  lemma InsideHas(hash: nat -> nat, t: Table, moved: set<nat>, r: nat)
    requires GoodBut(hash, t, moved) && r in t.inside
    ensures r in t.start && r in t.sectors
  {}

  lemma LinkedOf(hash: nat -> nat, t: Table, moved: set<nat>)
    requires GoodBut(hash, t, moved)
    ensures Linked(t) && (forall s :: hash(s) < |t.buckets|)
    ensures forall r :: r in t.inside ==> r in t.start && r in t.sectors
  {}

  /** Deletions from the hash do not change what a scan finds. */
  lemma EndsSame(t0: Table, t: Table, r: nat, sector: nat)
    requires t == t0.(buckets := t.buckets, at := t.at)
    ensures EndsAt(t, r, sector) == EndsAt(t0, r, sector)
  {}

  /** Whatever ends at the sector is in its bucket. */
  lemma AllListed(hash: nat -> nat, t: Table, sector: nat)
    requires Good(hash, t)
    ensures hash(sector) < |t.buckets| && forall x :: EndsAt(t, x, sector) ==> x in t.buckets[hash(sector)]
  {
    forall x | EndsAt(t, x, sector) ensures x in t.buckets[hash(sector)] {
      assert Placed(hash, t, x);
    }
  }

  lemma ListedInside(hash: nat -> nat, t: Table, sector: nat, r: nat)
    requires Good(hash, t) && hash(sector) < |t.buckets| && r in t.buckets[hash(sector)]
    ensures r in t.inside && r in t.start && r in t.sectors
    ensures EndsAt(t, r, sector) <==> r in t.mergeable && End(t, r) == sector
  {}
}
