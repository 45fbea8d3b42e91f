/**
  What merging does with the data: when exactly a merge succeeds, where the vectors of the bio or of the other
  request go, and that after every history each vector lies at its place on the disk.
 */
module SegmentData {
  import opened Segments
  import opened SegmentRequests

  /** The segments of a bio: what it claims, or what a recount finds. */
  function Segs(q: Limits, bio: Bio): nat { if bio.valid then bio.segs else |RecountPieces(q, bio.vecs)| }

  lemma CountedSegs(q: Limits, bio: Bio)
    ensures Counted(q, bio).segs == Segs(q, bio) && Counted(q, bio).vecs == bio.vecs
  {
    VecsOne(bio);
  }

  /** The bio goes behind the request's data, exactly if sectors and segments stay within the limits. */
  lemma BackMergeData(q: Limits, maxSectors: nat, r: Req, bio: Bio)
    requires r.bios != []
    ensures var (ok, r') := BackMerge(q, maxSectors, r, bio);
      && (ok <==> r.sectors + bio.sectors <= maxSectors && r.nr + Segs(q, bio) <= q.maxSegments)
      && Vecs(r'.bios) == (if ok then Vecs(r.bios) + bio.vecs else Vecs(r.bios))
      && r'.nr == (if ok then r.nr + Segs(q, bio) else r.nr)
      && r'.sectors == (if ok then r.sectors + bio.sectors else r.sectors)
  {
    hide Vecs; hide Counted;
    CountedSegs(q, bio);
    var last := |r.bios| - 1;
    CountedSegs(q, r.bios[last]);
    var bios := r.bios[last := Counted(q, r.bios[last])];
    VecsSame(bios, r.bios);
    VecsSnoc(bios, Counted(q, bio));
  }

  /** The bio goes in front of it. */
  lemma FrontMergeData(q: Limits, maxSectors: nat, r: Req, bio: Bio)
    requires r.bios != []
    ensures var (ok, r') := FrontMerge(q, maxSectors, r, bio);
      && (ok <==> r.sectors + bio.sectors <= maxSectors && r.nr + Segs(q, bio) <= q.maxSegments)
      && Vecs(r'.bios) == (if ok then bio.vecs + Vecs(r.bios) else Vecs(r.bios))
      && r'.nr == (if ok then r.nr + Segs(q, bio) else r.nr)
      && r'.sectors == (if ok then r.sectors + bio.sectors else r.sectors)
  {
    hide Vecs; hide Counted;
    CountedSegs(q, bio);
    CountedSegs(q, r.bios[0]);
    var bios := r.bios[0 := Counted(q, r.bios[0])];
    VecsSame(bios, r.bios);
    VecsCat([Counted(q, bio)], bios);
    VecsOne(Counted(q, bio));
  }

  /** The segments of two requests together: the last and the first one are one if they touch and are not too large. */
  function Together(q: Limits, r: Req, n: Req): int
    requires r.bios != [] && n.bios != [] && Last(r.bios).vecs != [] && n.bios[0].vecs != []
  {
    var one := q.cluster && Last(r.bios).back + n.bios[0].front <= q.maxSize
      && q.joinable(Last(Last(r.bios).vecs), n.bios[0].vecs[0]);
    r.nr + n.nr - if one then 1 else 0
  }

  /** The data of the second request goes behind that of the first, or both stay as they are. */
  lemma MergeReqsData(q: Limits, maxSectors: nat, r: Req, n: Req)
    requires HasData(r.bios) && HasData(n.bios) && r.nr > 0
    ensures var (ok, r', n') := MergeReqs(q, maxSectors, r, n);
      && (ok <==> r.sectors + n.sectors <= maxSectors && Together(q, r, n) <= q.maxSegments)
      && Vecs(r'.bios) == (if ok then Vecs(r.bios) + Vecs(n.bios) else Vecs(r.bios))
      && Vecs(n'.bios) == (if ok then [] else Vecs(n.bios))
      && r'.nr == (if ok then Together(q, r, n) else r.nr) && n'.nr == n.nr
      && r'.sectors == (if ok then r.sectors + n.sectors else r.sectors) && n'.sectors == n.sectors
  {
    hide Vecs;
    var size := Last(r.bios).back + n.bios[0].front;
    var rb, nb := WithFront(r.bios, size), WithBack(n.bios, size);
    VecsSame(rb, r.bios); VecsSame(nb, n.bios);
    VecsCat(r.bios, n.bios); VecsCat(rb, n.bios); VecsCat(r.bios, nb); VecsCat(rb, nb);
    VecsEmpty();
  }

  /** A segment of several vectors has no high page. */
  ghost predicate Low(q: Limits, p: seq<Bvec>) { |p| > 1 ==> forall b :: b in p ==> !q.high(b) }

  ghost predicate AllLow(q: Limits, ps: seq<seq<Bvec>>) { forall i :: 0 <= i < |ps| ==> Low(q, ps[i]) }

  lemma LowGrows(q: Limits, p: seq<Bvec>, b: Bvec)
    requires p != [] && Low(q, p)
    ensures RecountFits(q, p, b) ==> Low(q, p + [b])
  {}

  /** A high page is a segment of its own in the recount. */
  lemma {:induction false} HighAlone(q: Limits, v: seq<Bvec>)
    ensures AllLow(q, RecountPieces(q, v))
  {
    if v != [] {
      var v' := v[..|v| - 1];
      HighAlone(q, v');
      var ps := RecountPieces(q, v');
      hide Low; hide Fits;
      if ps != [] {
        assert Low(q, ps[|ps| - 1]);
        LowGrows(q, ps[|ps| - 1], Last(v));
      }
      LowOne(q, Last(v));
    }
  }

  lemma LowOne(q: Limits, b: Bvec)
    ensures Low(q, [b])
  {}

  /** Without high pages the recount finds the segments that the mapper emits. */
  lemma {:induction false} RecountIsMap(q: Limits, v: seq<Bvec>)
    requires forall i :: 0 <= i < |v| ==> !q.high(v[i])
    ensures RecountPieces(q, v) == MapPieces(q, v)
    decreases |v|
  {
    hide Extend; hide Fits;
    if v != [] {
      var v' := v[..|v| - 1];
      RecountIsMap(q, v');
      var ps := MapPieces(q, v');
      if ps != [] {
        MapValid(q, v');
        LastFrom(q, ps, v');
      }
    }
  }

  /** The first vector of the last piece is one of the vectors. */
  lemma LastFrom(q: Limits, ps: seq<seq<Bvec>>, v: seq<Bvec>)
    requires ValidPartition(q, ps, v) && ps != []
    ensures Last(ps) != [] && Last(ps)[0] in v
  {
    hide Flatten; hide ValidPiece;
    LastValid(q, ps, v);
    NotEmpty(q, Last(ps));
    FlattenSnoc(ps[..|ps| - 1], Last(ps));
    assert ps == ps[..|ps| - 1] + [Last(ps)];
  }

  lemma NotEmpty(q: Limits, p: seq<Bvec>)
    requires ValidPiece(q, p)
    ensures p != []
  {}

  // Places on the disk

  /** The vector at `i` lies where the ones before it end; `at` is where each belongs. */
  ghost predicate LaidAt(at: Bvec -> nat, v: seq<Bvec>, start: nat, i: nat)
    requires i < |v|
  {
    at(v[i]) == start + Total(v[..i])
  }

  /** The vectors lie one behind the other on the disk, from `start` on. */
  ghost predicate Laid(at: Bvec -> nat, v: seq<Bvec>, start: nat) {
    forall i :: 0 <= i < |v| ==> LaidAt(at, v, start, i)
  }

  lemma LaidFirst(at: Bvec -> nat, v: seq<Bvec>, w: seq<Bvec>, start: nat, i: nat)
    requires i < |v| && LaidAt(at, v, start, i)
    ensures LaidAt(at, v + w, start, i)
  {
    hide Total;
    assert (v + w)[i] == v[i] && (v + w)[..i] == v[..i];
  }

  lemma LaidSecond(at: Bvec -> nat, v: seq<Bvec>, w: seq<Bvec>, start: nat, j: nat)
    requires j < |w| && LaidAt(at, w, start + Total(v), j)
    ensures LaidAt(at, v + w, start, |v| + j)
  {
    hide Total;
    assert (v + w)[|v| + j] == w[j] && (v + w)[..|v| + j] == v + w[..j];
    TotalCat(v, w[..j]);
  }

  lemma LaidCat(at: Bvec -> nat, v: seq<Bvec>, w: seq<Bvec>, start: nat)
    requires Laid(at, v, start) && Laid(at, w, start + Total(v))
    ensures Laid(at, v + w, start)
  {
    hide Total; hide LaidAt;
    forall i | 0 <= i < |v + w| ensures LaidAt(at, v + w, start, i) {
      if i < |v| {
        LaidFirst(at, v, w, start, i);
      } else {
        LaidSecond(at, v, w, start, i - |v|);
      }
    }
  }

  // Merges that are offered where the two parts are adjacent on the disk

  /** A bio that starts where the request `r` ends. */
  ghost predicate BackOffer(at: Bvec -> nat, q: Limits, maxSectors: nat, r: Req, start: nat, bio: Bio, r': Req) {
    && HasData(r.bios) && Laid(at, bio.vecs, start + Total(Vecs(r.bios)))
    && r' == BackMerge(q, maxSectors, r, bio).1
  }

  lemma BackLaid(at: Bvec -> nat, q: Limits, maxSectors: nat, r: Req, start: nat, bio: Bio, r': Req)
    requires Laid(at, Vecs(r.bios), start) && BackOffer(at, q, maxSectors, r, start, bio, r')
    ensures Laid(at, Vecs(r'.bios), start)
  {
    hide Laid; hide Vecs; hide Total; hide BackMerge;
    BackMergeData(q, maxSectors, r, bio);
    LaidCat(at, Vecs(r.bios), bio.vecs, start);
  }

  /** A bio that ends where it starts. */
  ghost predicate FrontOffer(at: Bvec -> nat, q: Limits, maxSectors: nat, r: Req, start: nat, bio: Bio,
                             r': Req, start': nat)
  {
    && HasData(r.bios) && Total(bio.vecs) <= start && Laid(at, bio.vecs, start - Total(bio.vecs))
    && r' == FrontMerge(q, maxSectors, r, bio).1
    && start' == if FrontMerge(q, maxSectors, r, bio).0 then start - Total(bio.vecs) else start
  }

  lemma FrontLaid(at: Bvec -> nat, q: Limits, maxSectors: nat, r: Req, start: nat, bio: Bio, r': Req, start': nat)
    requires Laid(at, Vecs(r.bios), start) && FrontOffer(at, q, maxSectors, r, start, bio, r', start')
    ensures Laid(at, Vecs(r'.bios), start')
  {
    hide Laid; hide Vecs; hide Total; hide FrontMerge;
    FrontMergeData(q, maxSectors, r, bio);
    LaidCat(at, bio.vecs, Vecs(r.bios), start - Total(bio.vecs));
  }

  /** A request that starts where it ends. */
  predicate JoinOffer(q: Limits, maxSectors: nat, r: Req, n: Req, r': Req, n': Req) {
    && HasData(r.bios) && HasData(n.bios) && r.nr > 0
    && r' == MergeReqs(q, maxSectors, r, n).1 && n' == MergeReqs(q, maxSectors, r, n).2
  }

  lemma JoinLaid(at: Bvec -> nat, q: Limits, maxSectors: nat, r: Req, start: nat, n: Req, r': Req, n': Req)
    requires JoinOffer(q, maxSectors, r, n, r', n')
    requires Laid(at, Vecs(r.bios), start) && Laid(at, Vecs(n.bios), start + Total(Vecs(r.bios)))
    ensures Laid(at, Vecs(r'.bios), start) && Laid(at, Vecs(n'.bios), start + Total(Vecs(r.bios)))
  {
    hide Laid; hide Vecs; hide Total; hide MergeReqs;
    MergeReqsData(q, maxSectors, r, n);
    LaidCat(at, Vecs(r.bios), Vecs(n.bios), start);
    LaidNothing(at, start + Total(Vecs(r.bios)));
  }

  lemma LaidNothing(at: Bvec -> nat, start: nat)
    ensures Laid(at, [], start)
  {}

  /** The history leads to `r`, which starts at `start`, and every merge in it was offered between neighbours. */
  ghost predicate Offered(at: Bvec -> nat, q: Limits, maxSectors: nat, h: History, r: Req, start: nat) {
    match h
    case New(bio) => Laid(at, bio.vecs, start) && r == NewReq(q, bio)
    case Back(before, bio) =>
      exists r' :: Offered(at, q, maxSectors, before, r', start) && BackOffer(at, q, maxSectors, r', start, bio, r)
    case Front(before, bio) =>
      exists r', s :: Offered(at, q, maxSectors, before, r', s) && FrontOffer(at, q, maxSectors, r', s, bio, r, start)
    case Join(before, next) =>
      exists r', n: Req, n' ::
        && Offered(at, q, maxSectors, before, r', start) && JoinOffer(q, maxSectors, r', n, r, n')
        && Offered(at, q, maxSectors, next, n, start + Total(Vecs(r'.bios)))
    case Spared(before, next) =>
      exists r': Req, n, s: nat, r'' ::
        && Offered(at, q, maxSectors, before, r', s) && JoinOffer(q, maxSectors, r', n, r'', r)
        && Offered(at, q, maxSectors, next, n, start) && start == s + Total(Vecs(r'.bios))
    case Rest(left, sectors) => left != [] && Laid(at, Vecs(left), start) && r == Recalc(q, left, sectors)
  }

  /** Then every vector of the request lies at its place on the disk, whatever merges were made or refused. */
  lemma {:induction false} DataInPlace(at: Bvec -> nat, q: Limits, maxSectors: nat, h: History, r: Req, start: nat)
    requires Offered(at, q, maxSectors, h, r, start)
    ensures Laid(at, Vecs(r.bios), start)
    decreases h
  {
    hide Laid; hide Vecs; hide Total; hide NewReq; hide Recalc; hide BackOffer; hide FrontOffer; hide JoinOffer;
    match h {
      case New(bio) => NewData(q, bio);
      case Back(before, bio) =>
        var r' :| Offered(at, q, maxSectors, before, r', start) && BackOffer(at, q, maxSectors, r', start, bio, r);
        DataInPlace(at, q, maxSectors, before, r', start);
        BackLaid(at, q, maxSectors, r', start, bio, r);
      case Front(before, bio) =>
        var r', s :| Offered(at, q, maxSectors, before, r', s) && FrontOffer(at, q, maxSectors, r', s, bio, r, start);
        DataInPlace(at, q, maxSectors, before, r', s);
        FrontLaid(at, q, maxSectors, r', s, bio, r, start);
      case Join(before, next) =>
        var r', n: Req, n' :|
          && Offered(at, q, maxSectors, before, r', start) && JoinOffer(q, maxSectors, r', n, r, n')
          && Offered(at, q, maxSectors, next, n, start + Total(Vecs(r'.bios)));
        DataInPlace(at, q, maxSectors, before, r', start);
        DataInPlace(at, q, maxSectors, next, n, start + Total(Vecs(r'.bios)));
        JoinLaid(at, q, maxSectors, r', start, n, r, n');
      case Spared(before, next) =>
        var r': Req, n, s: nat, r'' :|
          && Offered(at, q, maxSectors, before, r', s) && JoinOffer(q, maxSectors, r', n, r'', r)
          && Offered(at, q, maxSectors, next, n, start) && start == s + Total(Vecs(r'.bios));
        DataInPlace(at, q, maxSectors, before, r', s);
        DataInPlace(at, q, maxSectors, next, n, start);
        JoinLaid(at, q, maxSectors, r', s, n, r'', r);
      case Rest(left, sectors) => RecalcData(q, left, sectors);
    }
  }

  lemma NewData(q: Limits, bio: Bio)
    ensures Vecs(NewReq(q, bio).bios) == bio.vecs
  {
    hide Counted;
    CountedSegs(q, bio);
    VecsOne(Counted(q, bio));
  }

  lemma RecalcData(q: Limits, bios: seq<Bio>, sectors: nat)
    requires bios != []
    ensures Vecs(Recalc(q, bios, sectors).bios) == Vecs(bios)
  {
    hide Vecs; hide RecountPieces;
    VecsSame(Resized(q, bios), bios);
  }
}
