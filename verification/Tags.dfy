/** Tags of queued requests: a bitmap and an index that agree, also when the depth changes. */
module Tags {
  import opened Options

  const BITS_PER_LONG: nat := 64
  const EBUSY: int := 16

  /** The bits that hold `depth` tags: whole words. */
  function Aligned(depth: nat): (n: nat)
    ensures n >= depth
  {
    (depth + BITS_PER_LONG - 1) / BITS_PER_LONG * BITS_PER_LONG
  }

  lemma AlignedGrows(a: nat, b: nat)
    requires a <= b
    ensures Aligned(a) <= Aligned(b)
  {}

  /** Tags below this one are for asynchronous requests. */
  function AsyncLimit(max: nat): nat {
    if max <= 1 then max else if max == 2 then 1 else max - 2
  }

  /** Two tags, of two tags one, are kept from asynchronous requests, which have at least one. */
  lemma SyncReserve(max: nat)
    ensures max > 1 ==> 1 <= AsyncLimit(max) && max - AsyncLimit(max) == if max == 2 then 1 else 2
    ensures max <= 1 ==> AsyncLimit(max) == max
  {}

  /** The depth that init_tag_map settles for; a map of its own belongs to no queue. */
  function Clamped(depth: nat, nrRequests: Option<nat>): nat {
    if nrRequests.Some? && depth > nrRequests.value * 2 then nrRequests.value * 2 else depth
  }

  /** A bit is set exactly if its slot holds a request, and that is the request with this tag. */
  ghost predicate Agree(bits: seq<bool>, index: seq<Option<nat>>, tagOf: map<nat, nat>) {
    && |index| <= |bits|
    && (forall t :: 0 <= t < |index| ==> bits[t] == index[t].Some?)
    && (forall t :: |index| <= t < |bits| ==> !bits[t])
    && (forall t :: 0 <= t < |index| && index[t].Some? ==> index[t].value in tagOf && tagOf[index[t].value] == t)
    && (forall r :: r in tagOf ==> tagOf[r] < |index| && index[tagOf[r]] == Some(r))
  }

  lemma TagsUnique(bits: seq<bool>, index: seq<Option<nat>>, tagOf: map<nat, nat>, r: nat, q: nat)
    requires Agree(bits, index, tagOf) && r in tagOf && q in tagOf && r != q
    ensures tagOf[r] != tagOf[q]
  {
    assert index[tagOf[r]] == Some(r) && index[tagOf[q]] == Some(q);
  }

  lemma AgreeStart(bits: seq<bool>, index: seq<Option<nat>>, tagOf: map<nat, nat>, r: nat, t: nat)
    requires Agree(bits, index, tagOf) && r !in tagOf && t < |index| && !bits[t]
    ensures Agree(bits[t := true], index[t := Some(r)], tagOf[r := t])
  {}

  lemma AgreeEnd(bits: seq<bool>, index: seq<Option<nat>>, tagOf: map<nat, nat>, r: nat)
    requires Agree(bits, index, tagOf) && r in tagOf
    ensures Agree(bits[tagOf[r] := false], index[tagOf[r] := None], tagOf - {r})
  {
    forall q | q in tagOf && q != r ensures tagOf[q] != tagOf[r] { TagsUnique(bits, index, tagOf, q, r); }
  }

  /** A map into which another one was copied, as far as it goes. */
  predicate Copied(bits: seq<bool>, index: seq<Option<nat>>, bits': seq<bool>, index': seq<Option<nat>>) {
    && |index'| <= |bits'|
    && (forall t :: 0 <= t < |bits'| ==> bits'[t] == (t < |bits| && bits[t]))
    && (forall t :: 0 <= t < |index'| ==> index'[t] == if t < |index| then index[t] else None)
  }

  /** It is good exactly if no tag is behind its end. */
  lemma AgreeCopy(bits: seq<bool>, index: seq<Option<nat>>, tagOf: map<nat, nat>,
                  bits': seq<bool>, index': seq<Option<nat>>)
    requires Agree(bits, index, tagOf) && Copied(bits, index, bits', index')
    ensures Agree(bits', index', tagOf) <==> forall r :: r in tagOf ==> tagOf[r] < |index'|
  {}

  /** The old map fits into the one that blk_queue_resize_tags makes, if it makes one. */
  predicate CopyFits(depth: nat, realMax: nat, nrRequests: nat, shared: bool) {
    depth <= realMax || shared || Clamped(depth, Some(nrRequests)) >= realMax
  }

  /**
    A map of 128 tags, made for no queue, of which 100 is in use; a queue of 32 requests asks for 256.
    The new map has 64, the copy leaves its bounds, and no map of that size has the tag.
   */
  lemma GrowingShrinks()
    ensures !CopyFits(256, 128, 32, false) && Clamped(256, Some(32)) == 64
    ensures exists bits, index, tagOf ::
      && Agree(bits, index, tagOf) && |index| == 128 && |bits| == Aligned(128)
      && forall bits', index' :: Copied(bits, index, bits', index') && |index'| == 64 ==> !Agree(bits', index', tagOf)
  {
    var bits := seq(128, t => t == 100);
    var index := seq(128, t => if t == 100 then Some(7) else None);
    var tagOf: map<nat, nat> := map[7 := 100];
    assert Agree(bits, index, tagOf);
    forall bits', index' | Copied(bits, index, bits', index') && |index'| == 64 ensures !Agree(bits', index', tagOf) {
      AgreeCopy(bits, index, tagOf, bits', index');
      assert 7 in tagOf;
    }
  }

  class TagMap {
    var bits: array<bool>
    var index: array<Option<nat>>
    var max: nat
    var realMax: nat
    // the tag of each tagged request, and which of them are asynchronous
    var tagOf: map<nat, nat>
    var async: set<nat>

    ghost predicate Valid()
      reads this, bits, index
    {
      && index.Length == realMax && bits.Length == Aligned(realMax) && max <= realMax
      && Agree(bits[..], index[..], tagOf)
      && forall r :: r in async ==> r in tagOf
    }

    /** Asynchronous requests hold only low tags. */
    ghost predicate AsyncLow()
      reads this
    {
      forall r :: r in async ==> r in tagOf && tagOf[r] < AsyncLimit(max)
    }

    /** init_tag_map, for a queue with `nrRequests` requests or for none. */
    constructor (depth: nat, nrRequests: Option<nat>)
      ensures Valid() && AsyncLow() && fresh(bits) && fresh(index)
      ensures max == realMax == Clamped(depth, nrRequests) && tagOf == map[] && async == {}
    {
      var d := depth;
      if nrRequests.Some? && d > nrRequests.value * 2 { d := nrRequests.value * 2; }
      index := new Option<nat>[d](_ => None);
      bits := new bool[Aligned(d)](_ => false);
      max, realMax, tagOf, async := d, d, map[], {};
    }

    /** find_first_zero_bit. */
    method FirstZero(size: nat) returns (t: nat)
      requires size <= bits.Length
      ensures t <= size && (forall k :: 0 <= k < t ==> bits[k]) && (t < size ==> !bits[t])
    {
      t := 0;
      while t < size && bits[t]
        invariant t <= size && forall k :: 0 <= k < t ==> bits[k]
      {
        t := t + 1;
      }
    }

    /** blk_queue_start_tag: the lowest free tag, but not one of the last two for an asynchronous request. */
    method StartTag(r: nat, sync: bool, asyncInFlight: nat) returns (refused: bool, tag: nat)
      requires Valid() && r !in tagOf
      modifies this, bits, index
      ensures Valid() && bits == old(bits) && index == old(index) && max == old(max) && realMax == old(realMax)
      ensures var limit := if sync then max else AsyncLimit(max);
        refused <==> (!sync && max > 1 && asyncInFlight > limit) || (forall t :: 0 <= t < limit ==> old(bits[t]))
      ensures refused ==> tagOf == old(tagOf) && async == old(async)
      ensures !refused ==> tag < if sync then max else AsyncLimit(max)
      ensures !refused ==> !old(bits[tag]) && forall t :: 0 <= t < tag ==> old(bits[t])
      ensures !refused ==> tagOf == old(tagOf)[r := tag] && async == (if sync then old(async) else old(async) + {r})
      ensures old(AsyncLow()) ==> AsyncLow()
    {
      hide Agree; hide Aligned;
      var limit := max;
      if !sync && max > 1 {
        limit := limit - 2;
        if limit == 0 { limit := 1; }
        if asyncInFlight > limit { return true, 0; }
      }
      tag := FirstZero(limit);
      if tag >= limit { return true, tag; }
      AgreeStart(bits[..], index[..], tagOf, r, tag);
      bits[tag] := true;
      tagOf := tagOf[r := tag];
      index[tag] := Some(r);
      if !sync { async := async + {r}; }
      return false, tag;
    }

    /** blk_queue_end_tag. */
    method EndTag(r: nat)
      requires Valid() && r in tagOf
      modifies this, bits, index
      ensures Valid() && bits == old(bits) && index == old(index) && max == old(max) && realMax == old(realMax)
      ensures tagOf == old(tagOf) - {r} && async == old(async) - {r}
      ensures !bits[old(tagOf[r])]
      ensures old(AsyncLow()) ==> AsyncLow()
    {
      var tag := tagOf[r];
      if tag >= realMax {
        assert false;
        return;
      }
      AgreeEnd(bits[..], index[..], tagOf, r);
      if index[tag] == None {
        // "tag is missing"
        assert false;
      }
      index[tag] := None;
      if !bits[tag] {
        // "attempt to clear non-busy tag"
        assert false;
        return;
      }
      bits[tag] := false;
      tagOf, async := tagOf - {r}, async - {r};
    }

    /**
      blk_queue_resize_tags. The old map is copied into the new one, which the queue's size may have made smaller:
      the copy stays in bounds exactly if it has not, and then no request in flight loses its tag. Of a copy that
      does not fit this model keeps the part that does.
     */
    method Resize(depth: nat, nrRequests: nat, shared: bool) returns (err: int, inBounds: bool)
      requires Valid()
      modifies this
      ensures tagOf == old(tagOf) && async == old(async)
      ensures err == if depth > old(realMax) && shared then -EBUSY else 0
      ensures if depth <= old(realMax) then
          max == depth && realMax == old(realMax) && bits == old(bits) && index == old(index)
        else if shared then max == old(max) && realMax == old(realMax) && bits == old(bits) && index == old(index)
        else max == realMax == Clamped(depth, Some(nrRequests)) && fresh(bits) && fresh(index)
      ensures inBounds <==> CopyFits(depth, old(realMax), nrRequests, shared)
      ensures Valid() <==> forall r :: r in tagOf ==> tagOf[r] < realMax
      ensures inBounds ==> Valid()
    {
      hide Agree; hide Aligned;
      AgreeCopy(bits[..], index[..], tagOf, bits[..], index[..]);
      if depth <= realMax {
        max := depth;
        return 0, true;
      }
      if shared { return -EBUSY, true; }
      var oldIndex, oldBits := index, bits;
      var d := if depth > nrRequests * 2 then nrRequests * 2 else depth;
      index := new Option<nat>[d](
        i requires 0 <= i < d reads this, oldIndex => if i < oldIndex.Length then oldIndex[i] else None);
      bits := new bool[Aligned(d)](i reads oldBits => 0 <= i < oldBits.Length && oldBits[i]);
      if realMax <= d { AlignedGrows(realMax, d); }
      inBounds := oldIndex.Length <= index.Length && oldBits.Length <= bits.Length;
      AgreeCopy(oldBits[..], oldIndex[..], tagOf, bits[..], index[..]);
      max, realMax := d, d;
      err := 0;
    }
  }

  // Asynchronous requests

  /** Numbers below `n`. */
  function Below(n: nat): (r: set<nat>)
    ensures |r| == n && forall k: nat :: k in r <==> k < n
  {
    if n == 0 then {} else Below(n - 1) + {n - 1}
  }

  lemma SubsetSize<T>(a: set<T>, b: set<T>)
    requires a <= b
    ensures |a| <= |b|
    decreases |a|
  {
    if a != {} {
      var x :| x in a;
      SubsetSize(a - {x}, b - {x});
    }
  }

  /** Requests with different tags are as many as their tags. */
  lemma {:induction false} ImageSize(tagOf: map<nat, nat>, rs: set<nat>) returns (tags: set<nat>)
    requires forall r :: r in rs ==> r in tagOf
    requires forall r, q :: r in rs && q in rs && r != q ==> tagOf[r] != tagOf[q]
    ensures |tags| == |rs| && forall t :: t in tags <==> exists r :: r in rs && tagOf[r] == t
    decreases |rs|
  {
    tags := {};
    if rs != {} {
      var r :| r in rs;
      var rest := ImageSize(tagOf, rs - {r});
      tags := rest + {tagOf[r]};
    }
  }

  /** At a depth above one, asynchronous requests hold at most max(1, depth - 2) tags. */
  lemma AsyncAtMost(bits: seq<bool>, index: seq<Option<nat>>, tagOf: map<nat, nat>, async: set<nat>, max: nat)
    requires Agree(bits, index, tagOf) && max > 1
    requires forall r :: r in async ==> r in tagOf && tagOf[r] < AsyncLimit(max)
    ensures |async| <= if max - 2 < 1 then 1 else max - 2
  {
    hide Agree;
    forall r, q | r in async && q in async && r != q ensures tagOf[r] != tagOf[q] {
      TagsUnique(bits, index, tagOf, r, q);
    }
    var tags := ImageSize(tagOf, async);
    SubsetSize(tags, Below(AsyncLimit(max)));
  }
}
