/** The counting and mapping loops over a bio chain, and a request that is merged in place. */
module SegmentLoops {
  import opened Segments
  import opened SegmentRequests

  /** What the counting loop knows after the vectors `w`. */
  ghost predicate Counting(q: Limits, w: seq<Bvec>, n: nat, segSize: nat, prev: Bvec, highPrev: bool) {
    var ps := RecountPieces(q, w);
    && n == |ps|
    && if ps == [] then highPrev && segSize == 0
       else segSize == Total(Last(ps)) && w != [] && prev == Last(w) && highPrev == q.high(Last(ps)[0])
  }

  /** The front size while the first segment is open, and after it was closed. */
  ghost function FrontSoFar(q: Limits, w: seq<Bvec>, front: nat): nat {
    var ps := RecountPieces(q, w);
    if |ps| < 2 then front else Max(front, Total(ps[0]))
  }

  lemma {:induction false} PiecesEnd(q: Limits, w: seq<Bvec>)
    requires w != []
    ensures Last(Last(RecountPieces(q, w))) == Last(w)
    ensures Last(Last(MapPieces(q, w))) == Last(w)
  {}

  lemma CountingNext(q: Limits, w: seq<Bvec>, b: Bvec)
    ensures var ps := RecountPieces(q, w);
      RecountPieces(q, w + [b]) == Extend(ps, ps != [] && RecountFits(q, Last(ps), b), b)
    ensures var ps := MapPieces(q, w);
      MapPieces(q, w + [b]) == Extend(ps, ps != [] && Fits(q, Last(ps), b), b)
  {
    assert (w + [b])[..|w|] == w;
  }

  lemma CountingStep(q: Limits, w: seq<Bvec>, n: nat, segSize: nat, prev: Bvec, highPrev: bool, b: Bvec, front: nat)
    requires Counting(q, w, n, segSize, prev, highPrev)
    ensures
      var join := !q.high(b) && !highPrev && q.cluster && segSize + b.len <= q.maxSize && q.joinable(prev, b);
      && Counting(q, w + [b], if join then n else n + 1, if join then segSize + b.len else b.len, b,
                  if join then highPrev else q.high(b))
      && FrontSoFar(q, w + [b], front)
           == if !join && n == 1 then Max(FrontSoFar(q, w, front), segSize) else FrontSoFar(q, w, front)
  {
    hide RecountPieces; hide Total;
    CountingNext(q, w, b);
    var ps := RecountPieces(q, w);
    TotalSnoc([], b); TotalEmpty(); assert [] + [b] == [b];
    if ps != [] {
      PiecesEnd(q, w);
      TotalSnoc(Last(ps), b);
    }
  }

  lemma TotalEmpty()
    ensures Total([]) == 0
  {}

  /** __blk_recalc_rq_segments: one pass with a running segment size. */
  method CountSegments(q: Limits, chain: seq<Bio>) returns (n: nat, bios: seq<Bio>)
    ensures n == |RecountPieces(q, Vecs(chain))|
    ensures bios == if chain == [] then [] else Resized(q, chain)
  {
    hide RecountPieces; hide Total; hide Vecs; hide Counting; hide FrontSoFar;
    bios := chain;
    n := 0;
    CountingStart(q, if chain == [] then 0 else chain[0].front);
    if chain == [] { return; }
    var segSize: nat, prev, highPrev := 0, Bvec(0, 0), true;
    ghost var front := chain[0].front;
    var i := 0;
    ghost var w := [];
    while i < |chain|
      invariant 0 <= i <= |chain| == |bios|
      invariant w == Vecs(chain[..i])
      invariant Counting(q, w, n, segSize, prev, highPrev)
      invariant bios == chain[0 := chain[0].(front := FrontSoFar(q, w, front))]
    {
      var vecs := bios[i].vecs;
      var k := 0;
      ghost var w0 := w;
      while k < |vecs|
        invariant 0 <= k <= |vecs|
        invariant w == w0 + vecs[..k]
        invariant Counting(q, w, n, segSize, prev, highPrev)
        invariant bios == chain[0 := chain[0].(front := FrontSoFar(q, w, front))]
      {
        var b := vecs[k];
        var high := q.high(b);
        CountingStep(q, w, n, segSize, prev, highPrev, b, front);
        if !high && !highPrev && q.cluster && segSize + b.len <= q.maxSize && q.joinable(prev, b) {
          segSize := segSize + b.len;
        } else {
          if n == 1 && segSize > bios[0].front {
            bios := bios[0 := bios[0].(front := segSize)];
          }
          n := n + 1;
          segSize := b.len;
          highPrev := high;
        }
        prev := b;
        w := w + [b];
        k := k + 1;
      }
      VecsSnoc(chain[..i], chain[i]);
      assert chain[..i + 1] == chain[..i] + [chain[i]];
      i := i + 1;
    }
    assert chain[..i] == chain;
    CountingEnd(q, chain, n, segSize, prev, highPrev);
    if n == 1 && segSize > bios[0].front {
      bios := bios[0 := bios[0].(front := segSize)];
    }
    if segSize > bios[|bios| - 1].back {
      bios := bios[|bios| - 1 := bios[|bios| - 1].(back := segSize)];
    }
  }

  lemma CountingStart(q: Limits, front: nat)
    ensures Counting(q, [], 0, 0, Bvec(0, 0), true) && FrontSoFar(q, [], front) == front
    ensures Vecs([]) == [] && RecountPieces(q, []) == []
  {}

  lemma CountingEnd(q: Limits, chain: seq<Bio>, n: nat, segSize: nat, prev: Bvec, highPrev: bool)
    requires chain != [] && Counting(q, Vecs(chain), n, segSize, prev, highPrev)
    ensures n == |RecountPieces(q, Vecs(chain))|
    ensures
      var front := FrontSoFar(q, Vecs(chain), chain[0].front);
      var open := WithFront(chain, if n == 1 then Max(front, segSize) else front);
      Resized(q, chain) == WithBack(open, Max(Last(open).back, segSize))
  {
    hide RecountPieces; hide Total; hide Vecs;
  }

  /** A scatter-gather entry. */
  datatype Sg = Sg(addr: nat, length: nat)

  /** The list says where each piece starts and how long it is. */
  ghost predicate Describes(list: seq<Sg>, ps: seq<seq<Bvec>>) {
    |list| == |ps| && forall i :: 0 <= i < |ps| ==> ps[i] != [] && list[i] == Sg(ps[i][0].addr, Total(ps[i]))
  }

  lemma DescribesPush(list: seq<Sg>, ps: seq<seq<Bvec>>, b: Bvec)
    requires Describes(list, ps)
    ensures Describes(list + [Sg(b.addr, b.len)], ps + [[b]])
  {
    TotalSnoc([], b); assert [] + [b] == [b];
  }

  lemma DescribesGrow(list: seq<Sg>, ps: seq<seq<Bvec>>, b: Bvec)
    requires Describes(list, ps) && ps != []
    ensures var sg := Last(list);
      Describes(list[|list| - 1 := Sg(sg.addr, sg.length + b.len)], ps[..|ps| - 1] + [Last(ps) + [b]])
  {
    hide Total;
    TotalSnoc(Last(ps), b);
  }

  lemma MappingStep(q: Limits, w: seq<Bvec>, list: seq<Sg>, prev: Bvec, b: Bvec)
    requires Describes(list, MapPieces(q, w)) && (w != [] ==> prev == Last(w))
    ensures w == [] <==> list == []
    ensures
      var join := w != [] && q.cluster && Last(list).length + b.len <= q.maxSize && q.joinable(prev, b);
      var longer := if join then list[|list| - 1 := Sg(Last(list).addr, Last(list).length + b.len)]
                    else list + [Sg(b.addr, b.len)];
      Describes(longer, MapPieces(q, w + [b]))
  {
    DescribesEnd(list, MapPieces(q, w));
    hide MapPieces; hide Total; hide Describes;
    CountingNext(q, w, b);
    var ps := MapPieces(q, w);
    DescribesPush(list, ps, b);
    if ps != [] {
      PiecesEnd(q, w);
      DescribesGrow(list, ps, b);
    }
  }

  lemma DescribesEnd(list: seq<Sg>, ps: seq<seq<Bvec>>)
    requires Describes(list, ps)
    ensures |list| == |ps| && (ps != [] ==> Last(ps) != [] && Last(list).length == Total(Last(ps)))
  {}

  /** The data part of blk_rq_map_sg. */
  method MapSg(q: Limits, chain: seq<Bio>) returns (list: seq<Sg>)
    ensures Describes(list, MapPieces(q, Vecs(chain)))
  {
    hide MapPieces; hide Total; hide Vecs; hide Describes;
    list := [];
    MappingStart(q);
    var prev := Bvec(0, 0);
    var i := 0;
    ghost var w := [];
    while i < |chain|
      invariant 0 <= i <= |chain|
      invariant w == Vecs(chain[..i])
      invariant Describes(list, MapPieces(q, w)) && (w != [] ==> prev == Last(w))
    {
      var vecs := chain[i].vecs;
      var k := 0;
      ghost var w0 := w;
      while k < |vecs|
        invariant 0 <= k <= |vecs|
        invariant w == w0 + vecs[..k]
        invariant Describes(list, MapPieces(q, w)) && (w != [] ==> prev == Last(w))
      {
        var b := vecs[k];
        MappingStep(q, w, list, prev, b);
        if list != [] && q.cluster && list[|list| - 1].length + b.len <= q.maxSize && q.joinable(prev, b) {
          list := list[|list| - 1 := Sg(list[|list| - 1].addr, list[|list| - 1].length + b.len)];
        } else {
          list := list + [Sg(b.addr, b.len)];
        }
        prev := b;
        w := w + [b];
        k := k + 1;
      }
      VecsSnoc(chain[..i], chain[i]);
      assert chain[..i + 1] == chain[..i] + [chain[i]];
      i := i + 1;
    }
    assert chain[..i] == chain;
  }

  lemma MappingStart(q: Limits)
    ensures Describes([], MapPieces(q, [])) && Vecs([]) == []
  {}

  /** blk_recount_segments, unless the bio's count is still valid. */
  method RecountBio(q: Limits, bio: Bio) returns (b: Bio)
    ensures b == Counted(q, bio)
  {
    hide RecountPieces; hide Vecs; hide Resized;
    if bio.valid { return bio; }
    var n, bios := CountSegments(q, [bio]);
    ResizedLength(q, [bio]);
    b := bios[0].(segs := n, valid := true);
  }

  lemma ResizedLength(q: Limits, bios: seq<Bio>)
    requires bios != []
    ensures |Resized(q, bios)| == |bios|
  {}

  class Request {
    var bios: seq<Bio>
    var nr: nat
    var sectors: nat
    var noMerge: bool

    function View(): Req
      reads this
    {
      Req(bios, nr, sectors)
    }

    constructor (q: Limits, bio: Bio)
      requires SoundBio(q, bio)
      ensures View() == NewReq(q, bio) && Sound(q, View())
    {
      var b := RecountBio(q, bio);
      bios, nr, sectors, noMerge := [b], b.segs, b.sectors, false;
      new;
      NewReqSound(q, bio);
    }

    /** ll_new_hw_segment. */
    method NewHwSegment(q: Limits, segs: nat) returns (ok: bool)
      modifies this
      ensures ok == (old(nr) + segs <= q.maxSegments)
      ensures nr == (if ok then old(nr) + segs else old(nr)) && noMerge == (old(noMerge) || !ok)
      ensures bios == old(bios) && sectors == old(sectors)
    {
      if nr + segs > q.maxSegments {
        noMerge := true;
        return false;
      }
      nr := nr + segs;
      return true;
    }

    method MergeBack(q: Limits, maxSectors: nat, bio: Bio) returns (ok: bool)
      requires Sound(q, View()) && SoundBio(q, bio)
      modifies this
      ensures (ok, View()) == BackMerge(q, maxSectors, old(View()), bio)
      ensures Sound(q, View()) && noMerge == (old(noMerge) || !ok)
    {
      hide Bounded; hide SoundBio; hide Counted;
      BackMergeSound(q, maxSectors, View(), bio);
      if sectors + bio.sectors > maxSectors {
        noMerge := true;
        return false;
      }
      var last := RecountBio(q, bios[|bios| - 1]);
      bios := bios[|bios| - 1 := last];
      var b := RecountBio(q, bio);
      ok := NewHwSegment(q, b.segs);
      if ok {
        bios, sectors := bios + [b], sectors + b.sectors;
      }
    }

    method MergeFront(q: Limits, maxSectors: nat, bio: Bio) returns (ok: bool)
      requires Sound(q, View()) && SoundBio(q, bio)
      modifies this
      ensures (ok, View()) == FrontMerge(q, maxSectors, old(View()), bio)
      ensures Sound(q, View()) && noMerge == (old(noMerge) || !ok)
    {
      hide Bounded; hide SoundBio; hide Counted;
      FrontMergeSound(q, maxSectors, View(), bio);
      if sectors + bio.sectors > maxSectors {
        noMerge := true;
        return false;
      }
      var b := RecountBio(q, bio);
      var first := RecountBio(q, bios[0]);
      bios := bios[0 := first];
      ok := NewHwSegment(q, b.segs);
      if ok {
        bios, sectors := [b] + bios, sectors + b.sectors;
      }
    }

    /** ll_merge_requests_fn, then attempt_merge moves the second chain over. */
    method MergeNext(q: Limits, maxSectors: nat, next: Request) returns (ok: bool)
      requires Sound(q, View()) && Sound(q, next.View()) && next != this
      modifies this, next
      ensures (ok, View(), next.View()) == MergeReqs(q, maxSectors, old(View()), old(next.View()))
      ensures Sound(q, View()) && (ok || Sound(q, next.View()))
    {
      hide Bounded;
      MergeReqsSound(q, maxSectors, View(), next.View());
      NrPositive(q, View());
      var size := bios[|bios| - 1].back + next.bios[0].front;
      if sectors + next.sectors > maxSectors { return false; }
      var total := nr + next.nr;
      if PhysContig(q, bios[|bios| - 1], next.bios[0]) {
        if nr == 1 { bios := WithFront(bios, size); }
        if next.nr == 1 { next.bios := WithBack(next.bios, size); }
        total := total - 1;
      }
      if total > q.maxSegments { return false; }
      nr := total;
      bios, sectors := bios + next.bios, sectors + next.sectors;
      next.bios := [];
      return true;
    }

    /** blk_recalc_rq_segments. */
    method RecalcSegments(q: Limits)
      requires HasData(bios)
      modifies this
      ensures View() == Recalc(q, old(bios), old(sectors)) && Sound(q, View()) && noMerge == old(noMerge)
    {
      hide Resized; hide Vecs; hide RecountPieces; hide Bounded;
      var n, b := CountSegments(q, bios);
      RecalcSound(q, bios, sectors);
      nr, bios := n, b;
    }

    /** The driver's table of `nr` entries is never too short. */
    method Map(q: Limits) returns (list: seq<Sg>)
      requires Sound(q, View())
      ensures |list| <= nr && Describes(list, MapPieces(q, Vecs(bios)))
    {
      SoundBoundsMap(q, View());
      list := MapSg(q, bios);
    }
  }
}
