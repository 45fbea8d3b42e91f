/**
  Requests as chains of bios with cached segment counts and sizes.

  The invariant `Sound` says that some valid partition has as many pieces as the
  request's counter, and that its end pieces are no larger than the sizes cached in the
  first and the last bio. It survives every merge, and with the optimality of
  the mapper it bounds the scatter-gather list.
 */
module SegmentRequests {
  import opened Segments

  /** A bio with bi_seg_front_size, bi_seg_back_size, bi_phys_segments and BIO_SEG_VALID. */
  datatype Bio = Bio(vecs: seq<Bvec>, front: nat, back: nat, segs: nat, valid: bool, sectors: nat)

  datatype Req = Req(bios: seq<Bio>, nr: nat, sectors: nat)

  function Vecs(bios: seq<Bio>): seq<Bvec> {
    if bios == [] then [] else Vecs(bios[..|bios| - 1]) + Last(bios).vecs
  }

  function Max(a: nat, b: nat): nat { if a < b then b else a }

  function WithFront(bios: seq<Bio>, n: nat): seq<Bio>
    requires bios != []
  {
    bios[0 := bios[0].(front := n)]
  }

  function WithBack(bios: seq<Bio>, n: nat): seq<Bio>
    requires bios != []
  {
    bios[|bios| - 1 := Last(bios).(back := n)]
  }

  /** __blk_recalc_rq_segments raises the cached sizes to those of the first and the last segment. */
  function Resized(q: Limits, bios: seq<Bio>): seq<Bio>
    requires bios != []
  {
    var ps := RecountPieces(q, Vecs(bios));
    if ps == [] then bios
    else
      var b := WithFront(bios, Max(bios[0].front, Total(ps[0])));
      WithBack(b, Max(Last(b).back, Total(Last(ps))))
  }

  /** blk_recount_segments, if the bio does not know its segments yet. */
  function Counted(q: Limits, bio: Bio): (b: Bio)
    ensures b.vecs == bio.vecs && b.sectors == bio.sectors && b.valid
  {
    if bio.valid then bio
    else Resized(q, [bio])[0].(segs := |RecountPieces(q, Vecs([bio]))|, valid := true)
  }

  /** A request made from one bio. */
  function NewReq(q: Limits, bio: Bio): Req {
    var b := Counted(q, bio);
    Req([b], b.segs, b.sectors)
  }

  /** ll_back_merge_fn and the back-merge arm of __make_request. */
  function BackMerge(q: Limits, maxSectors: nat, r: Req, bio: Bio): (bool, Req)
    requires r.bios != []
  {
    if r.sectors + bio.sectors > maxSectors then (false, r)
    else
      var bios := r.bios[|r.bios| - 1 := Counted(q, Last(r.bios))];
      var b := Counted(q, bio);
      if r.nr + b.segs > q.maxSegments then (false, r.(bios := bios))
      else (true, Req(bios + [b], r.nr + b.segs, r.sectors + b.sectors))
  }

  /** ll_front_merge_fn and the front-merge arm of __make_request. */
  function FrontMerge(q: Limits, maxSectors: nat, r: Req, bio: Bio): (bool, Req)
    requires r.bios != []
  {
    if r.sectors + bio.sectors > maxSectors then (false, r)
    else
      var b := Counted(q, bio);
      var bios := r.bios[0 := Counted(q, r.bios[0])];
      if r.nr + b.segs > q.maxSegments then (false, r.(bios := bios))
      else (true, Req([b] + bios, r.nr + b.segs, r.sectors + b.sectors))
  }

  /** blk_phys_contig_segment, for bios with data. */
  predicate PhysContig(q: Limits, bio: Bio, nxt: Bio)
    requires bio.vecs != [] && nxt.vecs != []
  {
    q.cluster && bio.back + nxt.front <= q.maxSize && q.joinable(Last(bio.vecs), nxt.vecs[0])
  }

  /** ll_merge_requests_fn and the relinking in attempt_merge; sizes already set stay set when the merge is given up. */
  function MergeReqs(q: Limits, maxSectors: nat, r: Req, n: Req): (bool, Req, Req)
    requires r.bios != [] && n.bios != [] && Last(r.bios).vecs != [] && n.bios[0].vecs != []
  {
    if r.sectors + n.sectors > maxSectors then (false, r, n)
    else
      var size := Last(r.bios).back + n.bios[0].front;
      var contig := PhysContig(q, Last(r.bios), n.bios[0]);
      var rb := if contig && r.nr == 1 then WithFront(r.bios, size) else r.bios;
      var nb := if contig && n.nr == 1 then WithBack(n.bios, size) else n.bios;
      var total := r.nr + n.nr - (if contig && r.nr + n.nr > 0 then 1 else 0);
      if total > q.maxSegments then (false, r.(bios := rb), n.(bios := nb))
      else (true, Req(rb + nb, total, r.sectors + n.sectors), n.(bios := []))
  }

  /** blk_recalc_rq_segments on what is left of a request after a partial completion. */
  function Recalc(q: Limits, bios: seq<Bio>, sectors: nat): Req
    requires bios != []
  {
    Req(Resized(q, bios), |RecountPieces(q, Vecs(bios))|, sectors)
  }

  // The invariant

  ghost predicate Covers(q: Limits, ps: seq<seq<Bvec>>, v: seq<Bvec>, n: nat, front: nat, back: nat) {
    ValidPartition(q, ps, v) && |ps| == n && n >= 1 && Total(ps[0]) <= front && Total(Last(ps)) <= back
  }

  ghost predicate Bounded(q: Limits, v: seq<Bvec>, n: nat, front: nat, back: nat) {
    exists ps :: Covers(q, ps, v, n, front, back)
  }

  /** Every bio carries data. */
  predicate HasData(bios: seq<Bio>) { bios != [] && forall i :: 0 <= i < |bios| ==> bios[i].vecs != [] }

  ghost predicate SoundBio(q: Limits, b: Bio) {
    b.vecs != [] && (b.valid ==> Bounded(q, b.vecs, b.segs, b.front, b.back))
  }

  ghost predicate Sound(q: Limits, r: Req) {
    HasData(r.bios) && Bounded(q, Vecs(r.bios), r.nr, r.bios[0].front, Last(r.bios).back)
  }

  /** The counter of a sound request bounds the scatter-gather list. */
  lemma SoundBoundsMap(q: Limits, r: Req)
    requires Sound(q, r)
    ensures |MapPieces(q, Vecs(r.bios))| <= r.nr
  {
    hide ValidPartition;
    var ps :| Covers(q, ps, Vecs(r.bios), r.nr, r.bios[0].front, Last(r.bios).back);
    MapIsOptimal(q, Vecs(r.bios), ps);
  }

  lemma VecsSnoc(bios: seq<Bio>, b: Bio)
    ensures Vecs(bios + [b]) == Vecs(bios) + b.vecs
  {
    assert (bios + [b])[..|bios|] == bios;
  }

  lemma VecsOne(b: Bio)
    ensures Vecs([b]) == b.vecs
  {
    VecsSnoc([], b);
    assert [] + [b] == [b];
  }

  lemma {:induction false} VecsCat(a: seq<Bio>, c: seq<Bio>)
    ensures Vecs(a + c) == Vecs(a) + Vecs(c)
    decreases |c|
  {
    hide Vecs;
    if c == [] {
      assert a + c == a;
      VecsEmpty();
    } else {
      var c', b := c[..|c| - 1], Last(c);
      assert c == c' + [b] && a + c == (a + c') + [b];
      VecsCat(a, c');
      VecsSnoc(a + c', b);
      VecsSnoc(c', b);
    }
  }

  lemma VecsEmpty()
    ensures Vecs([]) == []
  {}

  /** Only the vectors matter for the chain's vectors. */
  lemma {:induction false} VecsSame(a: seq<Bio>, c: seq<Bio>)
    requires |a| == |c| && forall i :: 0 <= i < |a| ==> a[i].vecs == c[i].vecs
    ensures Vecs(a) == Vecs(c)
    decreases |a|
  {
    if a != [] {
      VecsSame(a[..|a| - 1], c[..|c| - 1]);
    }
  }

  lemma BoundedWeaken(q: Limits, v: seq<Bvec>, n: nat, front: nat, back: nat, front': nat, back': nat)
    requires Bounded(q, v, n, front, back) && front <= front' && back <= back'
    ensures Bounded(q, v, n, front', back')
  {
    var ps :| Covers(q, ps, v, n, front, back);
    assert Covers(q, ps, v, n, front', back');
  }

  lemma {:induction false} FlattenCat(a: seq<seq<Bvec>>, c: seq<seq<Bvec>>)
    ensures Flatten(a + c) == Flatten(a) + Flatten(c)
    decreases |c|
  {
    hide Flatten;
    if c == [] {
      assert a + c == a;
      FlattenEmpty();
    } else {
      var c', p := c[..|c| - 1], Last(c);
      assert c == c' + [p] && a + c == (a + c') + [p];
      FlattenCat(a, c');
      FlattenSnoc(a + c', p);
      FlattenSnoc(c', p);
    }
  }

  /** Two chains one after the other, without joining anything. */
  lemma BoundedCat(q: Limits, v: seq<Bvec>, n: nat, f: nat, b: nat, v': seq<Bvec>, n': nat, f': nat, b': nat)
    requires Bounded(q, v, n, f, b) && Bounded(q, v', n', f', b')
    ensures Bounded(q, v + v', n + n', f, b')
  {
    hide ValidPiece; hide Flatten; hide Total;
    var ps :| Covers(q, ps, v, n, f, b);
    var ps' :| Covers(q, ps', v', n', f', b');
    FlattenCat(ps, ps');
    assert Covers(q, ps + ps', v + v', n + n', f, b');
  }

  lemma {:induction false} TotalCat(a: seq<Bvec>, c: seq<Bvec>)
    ensures Total(a + c) == Total(a) + Total(c)
    decreases |c|
  {
    if c == [] {
      assert a + c == a;
    } else {
      assert (a + c)[..|a + c| - 1] == a + c[..|c| - 1];
      TotalCat(a, c[..|c| - 1]);
    }
  }

  lemma JoinPieces(q: Limits, a: seq<Bvec>, c: seq<Bvec>)
    requires ValidPiece(q, a) && ValidPiece(q, c)
    requires q.cluster && Total(a) + Total(c) <= q.maxSize && q.joinable(Last(a), c[0])
    ensures ValidPiece(q, a + c) && Total(a + c) == Total(a) + Total(c)
  {
    TotalCat(a, c);
  }

  /** Two chains whose neighbouring end pieces become one. */
  lemma BoundedJoin(q: Limits, v: seq<Bvec>, n: nat, f: nat, b: nat, v': seq<Bvec>, n': nat, f': nat, b': nat)
    requires Bounded(q, v, n, f, b) && Bounded(q, v', n', f', b') && v != [] && v' != []
    requires q.cluster && b + f' <= q.maxSize && q.joinable(Last(v), v'[0])
    ensures Bounded(q, v + v', n + n' - 1, if n == 1 then b + f' else f, if n' == 1 then b + f' else b')
  {
    hide ValidPiece; hide Flatten; hide Total;
    var ps :| Covers(q, ps, v, n, f, b);
    var ps' :| Covers(q, ps', v', n', f', b');
    var a, p := ps[..n - 1], Last(ps);
    var p', c := ps'[0], ps'[1..];
    assert ps == a + [p] && ps' == [p'] + c;
    Ends(q, ps, v); Ends(q, ps', v');
    JoinPieces(q, p, p');
    var all := a + [p + p'] + c;
    FlattenSnoc(a, p);
    FlattenCat(a + [p + p'], c); FlattenSnoc(a, p + p');
    FlattenCat([p'], c); FlattenOne(p');
    assert Flatten(all) == Flatten(a) + (p + p') + Flatten(c) == (Flatten(a) + p) + (p' + Flatten(c));
    assert v + v' == Flatten(all);
    forall i | 0 <= i < |all| ensures ValidPiece(q, all[i]) {
      assert i < n - 1 ==> all[i] == ps[i];
      assert i > n - 1 ==> all[i] == ps'[i - n + 1];
    }
    assert all[0] == if n == 1 then p + p' else ps[0];
    assert Last(all) == if n' == 1 then p + p' else Last(ps');
    assert Covers(q, all, v + v', n + n' - 1, if n == 1 then b + f' else f, if n' == 1 then b + f' else b');
  }

  lemma FlattenOne(p: seq<Bvec>)
    ensures Flatten([p]) == p
  {
    FlattenSnoc([], p);
    assert [] + [p] == [p];
  }

  /** A partition starts and ends with the same vectors as its pieces do. */
  lemma Ends(q: Limits, ps: seq<seq<Bvec>>, v: seq<Bvec>)
    requires ValidPartition(q, ps, v) && ps != []
    ensures ps[0] != [] && Last(ps) != [] && v != [] && Last(Last(ps)) == Last(v) && ps[0][0] == v[0]
  {
    hide Flatten; hide Total;
    var a, p := ps[..|ps| - 1], Last(ps);
    assert ps == a + [p];
    FlattenSnoc(a, p);
    assert ValidPiece(q, p) && ValidPiece(q, ps[0]);
    assert ps == [ps[0]] + ps[1..];
    FlattenCat([ps[0]], ps[1..]);
    FlattenOne(ps[0]);
  }

  // Every operation keeps the invariant

  /** The counting loop raises the cached sizes far enough. */
  lemma ResizedSound(q: Limits, bios: seq<Bio>)
    requires HasData(bios)
    ensures Vecs(Resized(q, bios)) == Vecs(bios) && HasData(Resized(q, bios))
    ensures var r := Resized(q, bios);
      Bounded(q, Vecs(bios), |RecountPieces(q, Vecs(bios))|, r[0].front, Last(r).back)
  {
    hide Vecs; hide RecountPieces; hide ValidPartition;
    var ps := RecountPieces(q, Vecs(bios));
    RecountValid(q, Vecs(bios));
    assert ps != [] by { VecsSnoc(bios[..|bios| - 1], Last(bios)); assert bios == bios[..|bios| - 1] + [Last(bios)]; }
    var r := Resized(q, bios);
    VecsSame(r, bios);
    assert Covers(q, ps, Vecs(bios), |ps|, r[0].front, Last(r).back);
  }

  lemma CountedRaises(q: Limits, b: Bio)
    ensures Counted(q, b).front >= b.front && Counted(q, b).back >= b.back
  {}

  lemma CountedSound(q: Limits, b: Bio)
    requires SoundBio(q, b)
    ensures SoundBio(q, Counted(q, b))
  {
    hide Vecs; hide RecountPieces; hide Bounded;
    VecsOne(b);
    ResizedSound(q, [b]);
  }

  lemma NewReqSound(q: Limits, bio: Bio)
    requires SoundBio(q, bio)
    ensures Sound(q, NewReq(q, bio))
  {
    hide Vecs; hide Bounded; hide Counted;
    CountedSound(q, bio);
    VecsOne(Counted(q, bio));
  }

  /** Recounting one bio of a request only raises its cached sizes. */
  lemma RecountOneSound(q: Limits, r: Req, i: nat)
    requires Sound(q, r) && i < |r.bios|
    ensures Sound(q, r.(bios := r.bios[i := Counted(q, r.bios[i])]))
  {
    hide Vecs; hide Bounded; hide Counted;
    var bios := r.bios[i := Counted(q, r.bios[i])];
    CountedRaises(q, r.bios[i]);
    VecsSame(bios, r.bios);
    BoundedWeaken(q, Vecs(bios), r.nr, r.bios[0].front, Last(r.bios).back, bios[0].front, Last(bios).back);
  }

  lemma BackMergeSound(q: Limits, maxSectors: nat, r: Req, bio: Bio)
    requires Sound(q, r) && SoundBio(q, bio)
    ensures Sound(q, BackMerge(q, maxSectors, r, bio).1)
  {
    hide Vecs; hide Bounded; hide Counted;
    var last := |r.bios| - 1;
    RecountOneSound(q, r, last);
    CountedSound(q, bio);
    var bios, b := r.bios[last := Counted(q, Last(r.bios))], Counted(q, bio);
    VecsSnoc(bios, b);
    BoundedCat(q, Vecs(bios), r.nr, bios[0].front, Last(bios).back, b.vecs, b.segs, b.front, b.back);
  }

  lemma FrontMergeSound(q: Limits, maxSectors: nat, r: Req, bio: Bio)
    requires Sound(q, r) && SoundBio(q, bio)
    ensures Sound(q, FrontMerge(q, maxSectors, r, bio).1)
  {
    hide Vecs; hide Bounded; hide Counted;
    RecountOneSound(q, r, 0);
    CountedSound(q, bio);
    var bios, b := r.bios[0 := Counted(q, r.bios[0])], Counted(q, bio);
    VecsCat([b], bios); VecsOne(b);
    BoundedCat(q, b.vecs, b.segs, b.front, b.back, Vecs(bios), r.nr, bios[0].front, Last(bios).back);
  }

  lemma VecsEnds(bios: seq<Bio>)
    requires HasData(bios)
    ensures Vecs(bios) != [] && Last(Vecs(bios)) == Last(Last(bios).vecs) && Vecs(bios)[0] == bios[0].vecs[0]
  {
    hide Vecs;
    assert bios == bios[..|bios| - 1] + [Last(bios)];
    VecsSnoc(bios[..|bios| - 1], Last(bios));
    assert bios == [bios[0]] + bios[1..];
    VecsCat([bios[0]], bios[1..]);
    VecsOne(bios[0]);
  }

  /** One request that is a single piece: either cached size bounds it, so any larger front will do. */
  lemma BoundedSingle(q: Limits, v: seq<Bvec>, front: nat, back: nat, size: nat)
    requires Bounded(q, v, 1, front, back)
    ensures size >= back ==> Bounded(q, v, 1, size, back)
    ensures size >= front ==> Bounded(q, v, 1, front, size)
  {
    var ps :| Covers(q, ps, v, 1, front, back);
    assert size >= back ==> Covers(q, ps, v, 1, size, back);
    assert size >= front ==> Covers(q, ps, v, 1, front, size);
  }

  /** The sizes that a request merge writes before it may still give up do no harm. */
  lemma MergeGivenUpSound(q: Limits, r: Req, n: Req)
    requires Sound(q, r) && Sound(q, n)
    ensures var size := Last(r.bios).back + n.bios[0].front;
      (r.nr == 1 ==> Sound(q, r.(bios := WithFront(r.bios, size)))) &&
      (n.nr == 1 ==> Sound(q, n.(bios := WithBack(n.bios, size))))
  {
    hide Vecs; hide Bounded;
    var size := Last(r.bios).back + n.bios[0].front;
    if r.nr == 1 {
      var rb := WithFront(r.bios, size);
      VecsSame(rb, r.bios);
      BoundedSingle(q, Vecs(rb), r.bios[0].front, Last(r.bios).back, size);
    }
    if n.nr == 1 {
      var nb := WithBack(n.bios, size);
      VecsSame(nb, n.bios);
      BoundedSingle(q, Vecs(nb), n.bios[0].front, Last(n.bios).back, size);
    }
  }

  lemma JoinedSound(q: Limits, r: Req, n: Req, size: nat, contig: bool)
    requires Sound(q, r) && Sound(q, n)
    requires size == Last(r.bios).back + n.bios[0].front && contig == PhysContig(q, Last(r.bios), n.bios[0])
    ensures
      var rb := if contig && r.nr == 1 then WithFront(r.bios, size) else r.bios;
      var nb := if contig && n.nr == 1 then WithBack(n.bios, size) else n.bios;
      Sound(q, Req(rb + nb, r.nr + n.nr - (if contig && r.nr + n.nr > 0 then 1 else 0), r.sectors + n.sectors))
  {
    hide Vecs; hide Bounded;
    var rb := if contig && r.nr == 1 then WithFront(r.bios, size) else r.bios;
    var nb := if contig && n.nr == 1 then WithBack(n.bios, size) else n.bios;
    VecsCat(rb, nb);
    VecsSame(rb, r.bios); VecsSame(nb, n.bios);
    VecsEnds(r.bios); VecsEnds(n.bios);
    NrPositive(q, r); NrPositive(q, n);
    var f, b, f', b' := r.bios[0].front, Last(r.bios).back, n.bios[0].front, Last(n.bios).back;
    if contig {
      BoundedJoin(q, Vecs(r.bios), r.nr, f, b, Vecs(n.bios), n.nr, f', b');
    } else {
      BoundedCat(q, Vecs(r.bios), r.nr, f, b, Vecs(n.bios), n.nr, f', b');
    }
  }

  lemma NrPositive(q: Limits, r: Req)
    requires Sound(q, r)
    ensures r.nr >= 1
  {}

  lemma MergeReqsSound(q: Limits, maxSectors: nat, r: Req, n: Req)
    requires Sound(q, r) && Sound(q, n)
    ensures var (ok, r', n') := MergeReqs(q, maxSectors, r, n);
      Sound(q, r') && (ok || Sound(q, n'))
  {
    hide Sound; hide PhysContig;
    SoundHasData(q, r); SoundHasData(q, n);
    MergeGivenUpSound(q, r, n);
    JoinedSound(q, r, n, Last(r.bios).back + n.bios[0].front, PhysContig(q, Last(r.bios), n.bios[0]));
  }

  lemma SoundHasData(q: Limits, r: Req)
    requires Sound(q, r)
    ensures HasData(r.bios)
  {}

  lemma RecalcSound(q: Limits, bios: seq<Bio>, sectors: nat)
    requires HasData(bios)
    ensures Sound(q, Recalc(q, bios, sectors))
  {
    hide Vecs; hide Bounded; hide Resized;
    ResizedSound(q, bios);
  }

  // Histories

  /** How a request came about. */
  datatype History =
    | New(bio: Bio)
    | Back(before: History, bio: Bio)
    | Front(before: History, bio: Bio)
    | Join(before: History, next: History)
    // the second request of a merge that was given up
    | Spared(before: History, next: History)
    // what a partial completion leaves
    | Rest(left: seq<Bio>, sectors: nat)

  /** `r` is where the history leads; merged bios have data, and a sound segment count if they claim one. */
  ghost predicate Reached(q: Limits, maxSectors: nat, h: History, r: Req) {
    match h
    case New(bio) =>
      SoundBio(q, bio) && r == NewReq(q, bio)
    case Back(before, bio) =>
      SoundBio(q, bio) &&
      exists r' :: Reached(q, maxSectors, before, r') && HasData(r'.bios) && r == BackMerge(q, maxSectors, r', bio).1
    case Front(before, bio) =>
      SoundBio(q, bio) &&
      exists r' :: Reached(q, maxSectors, before, r') && HasData(r'.bios) && r == FrontMerge(q, maxSectors, r', bio).1
    case Join(before, next) =>
      exists r', n ::
        && Reached(q, maxSectors, before, r') && Reached(q, maxSectors, next, n) && HasData(r'.bios) && HasData(n.bios)
        && r == MergeReqs(q, maxSectors, r', n).1
    case Spared(before, next) =>
      exists r', n ::
        && Reached(q, maxSectors, before, r') && Reached(q, maxSectors, next, n) && HasData(r'.bios) && HasData(n.bios)
        && !MergeReqs(q, maxSectors, r', n).0 && r == MergeReqs(q, maxSectors, r', n).2
    case Rest(left, sectors) =>
      HasData(left) && r == Recalc(q, left, sectors)
  }

  lemma {:induction false} ReachedSound(q: Limits, maxSectors: nat, h: History, r: Req)
    requires Reached(q, maxSectors, h, r)
    ensures Sound(q, r)
    decreases h
  {
    hide Sound; hide SoundBio; hide BackMerge; hide FrontMerge; hide MergeReqs; hide NewReq; hide Recalc;
    match h {
      case New(bio) =>
        NewReqSound(q, bio);
      case Back(before, bio) =>
        var r' :| Reached(q, maxSectors, before, r') && HasData(r'.bios) && r == BackMerge(q, maxSectors, r', bio).1;
        ReachedSound(q, maxSectors, before, r');
        BackMergeSound(q, maxSectors, r', bio);
      case Front(before, bio) =>
        var r' :| Reached(q, maxSectors, before, r') && HasData(r'.bios) && r == FrontMerge(q, maxSectors, r', bio).1;
        ReachedSound(q, maxSectors, before, r');
        FrontMergeSound(q, maxSectors, r', bio);
      case Join(before, next) =>
        var r', n :|
          && Reached(q, maxSectors, before, r') && Reached(q, maxSectors, next, n)
          && HasData(r'.bios) && HasData(n.bios) && r == MergeReqs(q, maxSectors, r', n).1;
        ReachedSound(q, maxSectors, before, r'); ReachedSound(q, maxSectors, next, n);
        MergeReqsSound(q, maxSectors, r', n);
      case Spared(before, next) =>
        var r', n :|
          && Reached(q, maxSectors, before, r') && Reached(q, maxSectors, next, n)
          && HasData(r'.bios) && HasData(n.bios)
          && !MergeReqs(q, maxSectors, r', n).0 && r == MergeReqs(q, maxSectors, r', n).2;
        ReachedSound(q, maxSectors, before, r'); ReachedSound(q, maxSectors, next, n);
        MergeReqsSound(q, maxSectors, r', n);
      case Rest(left, sectors) =>
        RecalcSound(q, left, sectors);
    }
  }

  /** At all times nr_phys_segments bounds the entries of the scatter-gather list. */
  lemma MapFitsCount(q: Limits, maxSectors: nat, h: History, r: Req)
    requires Reached(q, maxSectors, h, r)
    ensures |MapPieces(q, Vecs(r.bios))| <= r.nr
  {
    ReachedSound(q, maxSectors, h, r);
    SoundBoundsMap(q, r);
  }
}
