/**
  Physical segments: the number that a request carries, kept up to date
  incrementally while bios and requests are merged, bounds what the
  scatter-gather mapper later emits.
 */
module Segments {

  /** A stretch of memory in one page. */
  datatype Bvec = Bvec(addr: nat, len: nat)

  /**
    What the queue says about segments. `joinable` stands for BIOVEC_PHYS_MERGEABLE
    together with BIOVEC_SEG_BOUNDARY, `high` for a page above the bounce limit.
   */
  datatype Limits = Limits(cluster: bool, maxSize: nat, maxSegments: nat,
                           joinable: (Bvec, Bvec) -> bool, high: Bvec -> bool)

  function Total(p: seq<Bvec>): nat {
    if p == [] then 0 else Total(p[..|p| - 1]) + p[|p| - 1].len
  }

  function Flatten(ps: seq<seq<Bvec>>): seq<Bvec> {
    if ps == [] then [] else Flatten(ps[..|ps| - 1]) + ps[|ps| - 1]
  }

  function Last<T>(s: seq<T>): T
    requires s != []
  {
    s[|s| - 1]
  }

  // Partitions into segments the hardware accepts

  predicate Chained(q: Limits, p: seq<Bvec>) {
    forall i :: 0 <= i < |p| - 1 ==> q.joinable(p[i], p[i + 1])
  }

  /** One segment: a single vector, or several that may be joined. */
  predicate ValidPiece(q: Limits, p: seq<Bvec>) {
    p != [] && (|p| > 1 ==> q.cluster && Total(p) <= q.maxSize && Chained(q, p))
  }

  predicate ValidPartition(q: Limits, ps: seq<seq<Bvec>>, v: seq<Bvec>) {
    Flatten(ps) == v && forall i :: 0 <= i < |ps| ==> ValidPiece(q, ps[i])
  }

  /** Whether the mapper extends the segment `p` by `b`. */
  predicate Fits(q: Limits, p: seq<Bvec>, b: Bvec)
    requires p != []
  {
    q.cluster && Total(p) + b.len <= q.maxSize && q.joinable(Last(p), b)
  }

  /** Whether the recount does: like the mapper, but a high page is always a segment of its own. */
  predicate RecountFits(q: Limits, p: seq<Bvec>, b: Bvec)
    requires p != []
  {
    !q.high(b) && !q.high(p[0]) && Fits(q, p, b)
  }

  /** Adds `b` to the last segment or starts a new one. */
  function Extend(ps: seq<seq<Bvec>>, join: bool, b: Bvec): seq<seq<Bvec>> {
    if ps != [] && join then ps[..|ps| - 1] + [Last(ps) + [b]] else ps + [[b]]
  }

  /** The segments that blk_rq_map_sg emits. */
  function MapPieces(q: Limits, v: seq<Bvec>): (ps: seq<seq<Bvec>>)
    ensures ps == [] <==> v == []
    ensures forall i :: 0 <= i < |ps| ==> ps[i] != []
  {
    if v == [] then []
    else
      var ps := MapPieces(q, v[..|v| - 1]);
      Extend(ps, ps != [] && Fits(q, Last(ps), Last(v)), Last(v))
  }

  /** The segments that __blk_recalc_rq_segments counts. */
  function RecountPieces(q: Limits, v: seq<Bvec>): (ps: seq<seq<Bvec>>)
    ensures ps == [] <==> v == []
    ensures forall i :: 0 <= i < |ps| ==> ps[i] != []
  {
    if v == [] then []
    else
      var ps := RecountPieces(q, v[..|v| - 1]);
      Extend(ps, ps != [] && RecountFits(q, Last(ps), Last(v)), Last(v))
  }

  // Both produce valid partitions

  lemma TotalSnoc(p: seq<Bvec>, b: Bvec)
    ensures Total(p + [b]) == Total(p) + b.len
  {
    assert (p + [b])[..|p|] == p;
  }

  lemma FlattenSnoc(ps: seq<seq<Bvec>>, p: seq<Bvec>)
    ensures Flatten(ps + [p]) == Flatten(ps) + p
  {
    assert (ps + [p])[..|ps|] == ps;
  }

  lemma ExtendValid(q: Limits, ps: seq<seq<Bvec>>, v: seq<Bvec>, join: bool, b: Bvec)
    requires ValidPartition(q, ps, v)
    requires join ==> ps != [] && Last(ps) != [] && Fits(q, Last(ps), b)
    ensures ValidPartition(q, Extend(ps, join, b), v + [b])
  {
    hide Flatten; hide Total;
    if join {
      var front, p := ps[..|ps| - 1], Last(ps);
      assert ps == front + [p];
      FlattenSnoc(front, p);
      FlattenSnoc(front, p + [b]);
      TotalSnoc(p, b);
      assert Flatten(front) + (p + [b]) == Flatten(front) + p + [b];
      assert ValidPiece(q, p);
      assert ValidPiece(q, p + [b]);
    } else {
      FlattenSnoc(ps, [b]);
    }
  }

  lemma {:induction false} MapValid(q: Limits, v: seq<Bvec>)
    ensures ValidPartition(q, MapPieces(q, v), v)
  {
    hide ValidPiece; hide Total;
    if v != [] {
      var v', b := v[..|v| - 1], Last(v);
      MapValid(q, v');
      assert v == v' + [b];
      var ps := MapPieces(q, v');
      ExtendValid(q, ps, v', ps != [] && Fits(q, Last(ps), b), b);
    }
  }

  lemma {:induction false} RecountValid(q: Limits, v: seq<Bvec>)
    ensures ValidPartition(q, RecountPieces(q, v), v)
  {
    hide ValidPiece; hide Total;
    if v != [] {
      var v', b := v[..|v| - 1], Last(v);
      RecountValid(q, v');
      assert v == v' + [b];
      var ps := RecountPieces(q, v');
      ExtendValid(q, ps, v', ps != [] && RecountFits(q, Last(ps), b), b);
    }
  }

  // The mapper is optimal

  predicate IsSuffix(a: seq<Bvec>, c: seq<Bvec>) {
    |a| <= |c| && a == c[|c| - |a|..]
  }

  lemma {:induction false} SuffixTotal(a: seq<Bvec>, c: seq<Bvec>)
    requires IsSuffix(a, c)
    ensures Total(a) <= Total(c)
    decreases |a|
  {
    if a != [] {
      SuffixTotal(a[..|a| - 1], c[..|c| - 1]);
    }
  }

  /** A partition without its last vector. */
  function Shorten(ps: seq<seq<Bvec>>): seq<seq<Bvec>>
    requires ps != [] && Last(ps) != []
  {
    var p := Last(ps);
    ps[..|ps| - 1] + (if |p| == 1 then [] else [p[..|p| - 1]])
  }

  lemma ShortenValid(q: Limits, ps: seq<seq<Bvec>>, v: seq<Bvec>)
    requires ValidPartition(q, ps, v) && v != []
    ensures ps != [] && Last(ps) != [] && Last(Last(ps)) == Last(v)
    ensures ValidPartition(q, Shorten(ps), v[..|v| - 1])
  {
    hide Flatten; hide Total;
    assert ps != [] by { FlattenEmpty(); }
    var front, p := ps[..|ps| - 1], Last(ps);
    assert ps == front + [p];
    assert ValidPiece(q, p);
    FlattenSnoc(front, p);
    if |p| == 1 {
      assert v[..|v| - 1] == Flatten(front);
      assert Shorten(ps) == front;
    } else {
      var p' := p[..|p| - 1];
      FlattenSnoc(front, p');
      assert v[..|v| - 1] == Flatten(front) + p';
      assert p == p' + [Last(p)];
      TotalSnoc(p', Last(p));
      assert ValidPiece(q, p');
    }
  }

  lemma FlattenEmpty()
    ensures Flatten([]) == []
  {}

  lemma ExtendEnd(ps: seq<seq<Bvec>>, join: bool, b: Bvec)
    ensures var r := Extend(ps, join, b);
      && r != []
      && if ps != [] && join then |r| == |ps| && Last(r) == Last(ps) + [b] else |r| == |ps| + 1 && Last(r) == [b]
  {}

  lemma ShortenEnd(ps: seq<seq<Bvec>>)
    requires ps != [] && Last(ps) != []
    ensures var p, r := Last(ps), Shorten(ps);
      if |p| == 1 then |r| == |ps| - 1 else |r| == |ps| && Last(r) == p[..|p| - 1]
  {}

  lemma SuffixSnoc(a: seq<Bvec>, c: seq<Bvec>, b: Bvec)
    requires IsSuffix(a, c)
    ensures IsSuffix(a + [b], c + [b]) && (a != [] ==> Last(a) == Last(c))
  {
    assert (c + [b])[|c| - |a|..] == a + [b];
    assert a != [] ==> Last(c[|c| - |a|..]) == Last(c);
  }

  /** A piece that ends with `b` can be continued from every suffix of what comes before. */
  lemma SuffixFits(q: Limits, a: seq<Bvec>, c: seq<Bvec>, b: Bvec)
    requires ValidPiece(q, c + [b]) && c != [] && a != [] && IsSuffix(a, c)
    ensures Fits(q, a, b)
  {
    hide Total;
    SuffixTotal(a, c);
    TotalSnoc(c, b);
    SuffixSnoc(a, c, b);
    var p := c + [b];
    assert p[|c| - 1] == Last(c) && p[|c|] == b;
  }

  /**
    Greedy stays ahead: no valid partition has fewer pieces, and one with equally many
    pieces has a last piece that contains the mapper's.
   */
  lemma {:induction false} GreedyAhead(q: Limits, v: seq<Bvec>, ps: seq<seq<Bvec>>)
    requires ValidPartition(q, ps, v) && v != []
    ensures ps != [] && |MapPieces(q, v)| <= |ps|
    ensures |MapPieces(q, v)| == |ps| ==> IsSuffix(Last(MapPieces(q, v)), Last(ps))
    decreases |v|
  {
    hide ValidPartition; hide ValidPiece; hide Fits; hide Extend; hide Shorten; hide Total;
    ShortenValid(q, ps, v);
    var v', b := v[..|v| - 1], Last(v);
    var ps', p, m' := Shorten(ps), Last(ps), MapPieces(q, v');
    ExtendEnd(m', m' != [] && Fits(q, Last(m'), b), b);
    ShortenEnd(ps);
    if v' != [] {
      GreedyAhead(q, v', ps');
      if |p| > 1 && |m'| == |ps'| {
        // the other partition extends its last piece, which contains the mapper's
        var c, a := p[..|p| - 1], Last(m');
        assert p == c + [b];
        LastValid(q, ps, v);
        SuffixFits(q, a, c, b);
        SuffixSnoc(a, c, b);
      }
    }
  }

  lemma LastValid(q: Limits, ps: seq<seq<Bvec>>, v: seq<Bvec>)
    requires ValidPartition(q, ps, v) && ps != []
    ensures ValidPiece(q, Last(ps))
  {}

  /** No valid partition is smaller than what the mapper emits. */
  lemma MapIsOptimal(q: Limits, v: seq<Bvec>, ps: seq<seq<Bvec>>)
    requires ValidPartition(q, ps, v)
    ensures |MapPieces(q, v)| <= |ps|
  {
    hide Flatten; hide Total;
    if v != [] {
      GreedyAhead(q, v, ps);
    }
  }
}
