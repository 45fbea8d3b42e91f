/** CFQ's choice of the next request of a queue: only the neighbours in the sorted tree are looked at. */
module CfqNext {
  import opened Options

  datatype Rq = Rq(pos: nat, sync: bool, meta: bool)

  /** cfq_back_max is in KiB, two sectors each. */
  datatype Tuning = Tuning(backMax: nat, backPenalty: nat)

  /** Too far behind the head to seek back. */
  predicate Wraps(c: Tuning, s: nat, last: nat) { s < last && s + c.backMax * 2 < last }

  function Distance(c: Tuning, s: nat, last: nat): nat {
    if s >= last then s - last else if !Wraps(c, s, last) then (last - s) * c.backPenalty else 0
  }

  /** cfq_choose_req. */
  function Choose(c: Tuning, rq1: Option<Rq>, rq2: Option<Rq>, last: nat): Option<Rq> {
    if rq1 == None || rq1 == rq2 then rq2
    else if rq2 == None then rq1
    else
      var r1, r2 := rq1.value, rq2.value;
      if r1.sync && !r2.sync then rq1
      else if r2.sync && !r1.sync then rq2
      else if r1.meta && !r2.meta then rq1
      else if r2.meta && !r1.meta then rq2
      else
        var (s1, s2) := (r1.pos, r2.pos);
        var (d1, d2) := (Distance(c, s1, last), Distance(c, s2, last));
        match (Wraps(c, s1, last), Wraps(c, s2, last))
        case (false, false) => if d1 < d2 then rq1 else if d2 < d1 then rq2 else if s1 >= s2 then rq1 else rq2
        case (false, true) => rq1
        case (true, false) => rq2
        case (true, true) => if s1 <= s2 then rq1 else rq2
  }

  /** The sort list: requests by sector, no two at the same. */
  predicate SortList(list: seq<Rq>) { forall i, j :: 0 <= i < j < |list| ==> list[i].pos < list[j].pos }

  /** cfq_find_next_rq for the request at position `k`. */
  function FindNext(c: Tuning, list: seq<Rq>, k: nat): Option<Rq>
    requires k < |list|
  {
    var prev := if k > 0 then Some(list[k - 1]) else None;
    var next := if k + 1 < |list| then Some(list[k + 1]) else if k != 0 then Some(list[0]) else None;
    Choose(c, next, prev, list[k].pos)
  }

  // The order behind the choice

  /** `a` is strictly better than `b` for a head at `last`. */
  predicate Better(c: Tuning, a: Rq, b: Rq, last: nat) {
    if a.sync != b.sync then a.sync
    else if a.meta != b.meta then a.meta
    else if Wraps(c, a.pos, last) != Wraps(c, b.pos, last) then !Wraps(c, a.pos, last)
    else if Wraps(c, a.pos, last) then a.pos < b.pos
    else
      Distance(c, a.pos, last) < Distance(c, b.pos, last) ||
      (Distance(c, a.pos, last) == Distance(c, b.pos, last) && a.pos > b.pos)
  }

  /** It is a strict total order: requests at different sectors are comparable, and better is transitive. */
  lemma BetterIsTotalOrder(c: Tuning, a: Rq, b: Rq, d: Rq, last: nat)
    ensures !Better(c, a, a, last)
    ensures Better(c, a, b, last) && Better(c, b, d, last) ==> Better(c, a, d, last)
    ensures a.pos != b.pos ==> Better(c, a, b, last) != Better(c, b, a, last)
  {
    hide Distance; hide Wraps;
  }

  /** cfq_choose_req takes the better of the two. */
  lemma ChooseIsBest(c: Tuning, a: Rq, b: Rq, last: nat)
    requires a.pos != b.pos
    ensures Choose(c, Some(a), Some(b), last) == Some(if Better(c, a, b, last) then a else b)
  {}

  /**
    Of two requests of one class on either side of the head, the one behind is taken exactly if it is at most
    cfq_back_max KiB away and its distance times the penalty is less than the way ahead.
   */
  lemma SeeksBack(c: Tuning, ahead: Rq, behind: Rq, last: nat)
    requires ahead.sync == behind.sync && ahead.meta == behind.meta && behind.pos < last <= ahead.pos
    ensures Choose(c, Some(ahead), Some(behind), last) == Some(behind) <==>
      last - behind.pos <= 2 * c.backMax && (last - behind.pos) * c.backPenalty < ahead.pos - last
  {}

  /** `r` is as good as `q` or better. */
  predicate AtLeastAsGood(c: Tuning, r: Rq, q: Rq, last: nat) { r == q || Better(c, r, q, last) }

  /** `r` is another request of the list, and none of the others is better. */
  predicate IsBest(c: Tuning, list: seq<Rq>, k: nat, r: Rq)
    requires k < |list|
  {
    r in list && r != list[k] && forall j :: 0 <= j < |list| && j != k ==> AtLeastAsGood(c, r, list[j], list[k].pos)
  }

  lemma Product(a: nat, b: nat, p: nat)
    requires a <= b
    ensures a * p <= b * p
  {}

  /** Behind the head: the nearest is best of those within reach, the farthest of those out of reach. */
  lemma BehindHead(c: Tuning, a: Rq, b: Rq, last: nat)
    requires a.pos < b.pos < last && a.sync == b.sync && a.meta == b.meta
    ensures !Wraps(c, b.pos, last) ==> Better(c, b, a, last)
    ensures Wraps(c, b.pos, last) ==> Better(c, a, b, last)
  {
    Product(last - b.pos, last - a.pos, c.backPenalty);
  }

  lemma AheadOfHead(c: Tuning, a: Rq, b: Rq, last: nat)
    requires a.sync == b.sync && a.meta == b.meta
    ensures last < a.pos < b.pos ==> Better(c, a, b, last)
    ensures last < a.pos && Wraps(c, b.pos, last) ==> Better(c, a, b, last)
  {}

  lemma WrapsToo(c: Tuning, s: nat, t: nat, last: nat)
    requires s <= t && Wraps(c, t, last)
    ensures Wraps(c, s, last)
  {}

  // Where the best request is

  /** Synchronous requests come first, then those for metadata. */
  function Rank(r: Rq): nat { (if r.sync then 2 else 0) + if r.meta then 1 else 0 }

  /** A request of the best class among the others. */
  predicate Top(list: seq<Rq>, k: nat, i: nat)
    requires i < |list|
  {
    i != k && forall j :: 0 <= j < |list| && j != k ==> Rank(list[j]) <= Rank(list[i])
  }

  /** The first request of the best class from `lo` up to `hi`. */
  function FirstTop(list: seq<Rq>, k: nat, lo: nat, hi: nat): (r: Option<nat>)
    requires lo <= hi <= |list|
    ensures r.Some? ==> lo <= r.value < hi && Top(list, k, r.value)
    ensures r.Some? ==> forall j: nat :: lo <= j < r.value ==> !Top(list, k, j)
    ensures r == None ==> forall j: nat :: lo <= j < hi ==> !Top(list, k, j)
    decreases hi - lo
  {
    if lo == hi then None else if Top(list, k, lo) then Some(lo) else FirstTop(list, k, lo + 1, hi)
  }

  /** The last one. */
  function LastTop(list: seq<Rq>, k: nat, lo: nat, hi: nat): (r: Option<nat>)
    requires lo <= hi <= |list|
    ensures r.Some? ==> lo <= r.value < hi && Top(list, k, r.value)
    ensures r.Some? ==> forall j: nat :: r.value < j < hi ==> !Top(list, k, j)
    ensures r == None ==> forall j: nat :: lo <= j < hi ==> !Top(list, k, j)
    decreases hi - lo
  {
    if lo == hi then None else if Top(list, k, hi - 1) then Some(hi - 1) else LastTop(list, k, lo, hi - 1)
  }

  /** The best class's nearest request ahead, or else its first, against its nearest one behind. */
  function Winner(c: Tuning, list: seq<Rq>, k: nat): (w: Option<nat>)
    requires k < |list|
    ensures w.Some? ==> w.value < |list| && w.value != k
  {
    var ahead := FirstTop(list, k, k + 1, |list|);
    var behind := LastTop(list, k, 0, k);
    var other := if ahead.Some? then ahead else FirstTop(list, k, 0, k);
    if other == None || other == behind then behind
    else if behind == None || Better(c, list[other.value], list[behind.value], list[k].pos) then other
    else behind
  }

  lemma {:induction false} TopExists(list: seq<Rq>, k: nat, n: nat) returns (i: nat)
    requires k < |list| && n <= |list| && (n > 1 || (n == 1 && k != 0))
    ensures i < n && i != k && forall j :: 0 <= j < n && j != k ==> Rank(list[j]) <= Rank(list[i])
    decreases n
  {
    if n == 1 || (n == 2 && k == 0) || (n == 2 && k == 1) {
      i := if k == 0 then 1 else 0;
    } else {
      i := TopExists(list, k, n - 1);
      if n - 1 != k && Rank(list[n - 1]) > Rank(list[i]) { i := n - 1; }
    }
  }

  lemma SameRank(a: Rq, b: Rq)
    ensures Rank(a) == Rank(b) <==> a.sync == b.sync && a.meta == b.meta
  {}

  lemma HigherRank(c: Tuning, a: Rq, b: Rq, last: nat)
    requires Rank(a) > Rank(b)
    ensures Better(c, a, b, last)
  {}

  /** One of the competitors is as good as the request at `j`. */
  predicate Matched(c: Tuning, list: seq<Rq>, k: nat, j: nat)
    requires k < |list| && j < |list|
  {
    var ahead, behind := FirstTop(list, k, k + 1, |list|), LastTop(list, k, 0, k);
    var first := FirstTop(list, k, 0, k);
    || (ahead.Some? && AtLeastAsGood(c, list[ahead.value], list[j], list[k].pos))
    || (behind.Some? && AtLeastAsGood(c, list[behind.value], list[j], list[k].pos))
    || (ahead == None && first.Some? && AtLeastAsGood(c, list[first.value], list[j], list[k].pos))
  }

  /** No request of the best class is better than all the competitors. */
  lemma TopBeaten(c: Tuning, list: seq<Rq>, k: nat, j: nat)
    requires SortList(list) && k < |list| && j < |list| && Top(list, k, j)
    ensures Matched(c, list, k, j)
  {
    hide Distance; hide Wraps; hide Better; hide FirstTop; hide LastTop;
    var last := list[k].pos;
    var ahead, behind := FirstTop(list, k, k + 1, |list|), LastTop(list, k, 0, k);
    var first := FirstTop(list, k, 0, k);
    if j > k {
      SameRank(list[ahead.value], list[j]);
      AheadOfHead(c, list[ahead.value], list[j], last);
    } else {
      var b := list[behind.value];
      SameRank(b, list[j]);
      if !Wraps(c, b.pos, last) {
        if j < behind.value { BehindHead(c, list[j], b, last); }
      } else {
        WrapsToo(c, list[j].pos, b.pos, last);
        if ahead.Some? {
          SameRank(list[ahead.value], list[j]);
          AheadOfHead(c, list[ahead.value], list[j], last);
        } else if first.value < j {
          SameRank(list[first.value], list[j]);
          BehindHead(c, list[first.value], list[j], last);
        }
      }
    }
  }

  lemma WinnerIsBest(c: Tuning, list: seq<Rq>, k: nat)
    requires SortList(list) && k < |list| && |list| > 1
    ensures Winner(c, list, k).Some? && IsBest(c, list, k, list[Winner(c, list, k).value])
  {
    var t := TopExists(list, k, |list|);
    hide Distance; hide Wraps; hide Better; hide FirstTop; hide LastTop;
    assert Top(list, k, t);
    var last := list[k].pos;
    var w := Winner(c, list, k).value;
    forall j: nat | j < |list| && j != k ensures AtLeastAsGood(c, list[w], list[j], last) {
      if Top(list, k, j) {
        TopBeaten(c, list, k, j);
        WinnerBeats(c, list, k, j);
      } else {
        LowerRank(list, k, w, j);
        HigherRank(c, list[w], list[j], last);
      }
    }
  }

  lemma LowerRank(list: seq<Rq>, k: nat, w: nat, j: nat)
    requires k < |list| && w < |list| && j < |list| && Top(list, k, w) && j != k && !Top(list, k, j)
    ensures Rank(list[j]) < Rank(list[w])
  {}

  /** The winner is as good as whatever one of its competitors is as good as. */
  lemma WinnerBeats(c: Tuning, list: seq<Rq>, k: nat, j: nat)
    requires SortList(list) && k < |list| && j < |list| && Top(list, k, j)
    requires Matched(c, list, k, j)
    ensures Winner(c, list, k).Some? && AtLeastAsGood(c, list[Winner(c, list, k).value], list[j], list[k].pos)
  {
    hide Distance; hide Wraps; hide Better; hide FirstTop; hide LastTop; hide Top;
    var ahead, behind := FirstTop(list, k, k + 1, |list|), LastTop(list, k, 0, k);
    var other := if ahead.Some? then ahead else FirstTop(list, k, 0, k);
    if other.Some? && behind.Some? {
      BetterIsTotalOrder(c, list[other.value], list[behind.value], list[j], list[k].pos);
      BetterIsTotalOrder(c, list[behind.value], list[other.value], list[j], list[k].pos);
    }
  }

  /** Only one request is the best. */
  lemma BestIsUnique(c: Tuning, list: seq<Rq>, k: nat, i: nat, j: nat)
    requires SortList(list) && k < |list| && i < |list| && j < |list| && i != k && j != k
    requires IsBest(c, list, k, list[i]) && IsBest(c, list, k, list[j])
    ensures i == j
  {
    hide Better;
    BetterIsTotalOrder(c, list[i], list[j], list[i], list[k].pos);
  }

  // What cfq_find_next_rq sees of it

  /** The positions that cfq_find_next_rq looks at. */
  predicate Looked(list: seq<Rq>, k: nat, i: nat) {
    i < |list| && i != k && (i + 1 == k || i == k + 1 || (i == 0 && k + 1 == |list|))
  }

  /** It returns the better of what it looks at. */
  lemma FindNextLooks(c: Tuning, list: seq<Rq>, k: nat) returns (i: nat)
    requires SortList(list) && k < |list| && |list| > 1
    ensures Looked(list, k, i) && FindNext(c, list, k) == Some(list[i])
    ensures forall j: nat :: Looked(list, k, j) ==> AtLeastAsGood(c, list[i], list[j], list[k].pos)
  {
    hide Distance; hide Wraps; hide Better; hide Choose;
    var last := list[k].pos;
    if k == 0 {
      i := 1;
      ChooseOne(c, list[1], last);
    } else {
      var n := if k + 1 < |list| then k + 1 else 0;
      i := k - 1;
      if n != k - 1 {
        ChooseIsBest(c, list[n], list[k - 1], last);
        BetterIsTotalOrder(c, list[n], list[k - 1], list[n], last);
        if Better(c, list[n], list[k - 1], last) { i := n; }
      } else {
        ChooseSame(c, list[n], last);
      }
    }
  }

  lemma ChooseOne(c: Tuning, a: Rq, last: nat)
    ensures Choose(c, Some(a), None, last) == Some(a)
  {}

  lemma ChooseSame(c: Tuning, a: Rq, last: nat)
    ensures Choose(c, Some(a), Some(a), last) == Some(a)
  {}

  /**
    For every queue: cfq_find_next_rq returns the best of all other requests exactly if the winner of the best class
    is a neighbour, or the first request when the last one is done; and nothing exactly if there is no other.
   */
  lemma FindNextBestExactly(c: Tuning, list: seq<Rq>, k: nat)
    requires SortList(list) && k < |list|
    ensures FindNext(c, list, k) == None <==> |list| == 1
    ensures |list| > 1 ==> Winner(c, list, k).Some?
    ensures |list| > 1 ==>
      (IsBest(c, list, k, FindNext(c, list, k).value) <==> Looked(list, k, Winner(c, list, k).value))
  {
    hide FindNext; hide IsBest; hide Winner; hide Looked; hide AtLeastAsGood;
    if |list| == 1 {
      FindNextAlone(c, list);
    } else {
      WinnerIsBest(c, list, k);
      var w := Winner(c, list, k).value;
      var i := FindNextLooks(c, list, k);
      LookedOther(list, k, i);
      if IsBest(c, list, k, list[i]) {
        BestIsUnique(c, list, k, i, w);
      } else if Looked(list, k, w) {
        BestStays(c, list, k, w, i);
      }
    }
  }

  lemma LookedOther(list: seq<Rq>, k: nat, i: nat)
    requires Looked(list, k, i)
    ensures i < |list| && i != k
  {}

  /** Nothing else is as good as the best. */
  lemma BestStays(c: Tuning, list: seq<Rq>, k: nat, w: nat, i: nat)
    requires SortList(list) && k < |list| && w < |list| && w != k && IsBest(c, list, k, list[w])
    requires i < |list| && i != k && AtLeastAsGood(c, list[i], list[w], list[k].pos)
    ensures i == w
  {
    hide Better;
    BetterIsTotalOrder(c, list[i], list[w], list[i], list[k].pos);
  }

  /** With a single request there is no next one. */
  lemma FindNextAlone(c: Tuning, list: seq<Rq>)
    requires |list| == 1
    ensures FindNext(c, list, 0) == None
  {}

  predicate OneClass(list: seq<Rq>) {
    forall i :: 0 <= i < |list| ==> list[i].sync == list[0].sync && list[i].meta == list[0].meta
  }

  /** In a queue of one class, cfq_find_next_rq returns the best of all other requests, if there is one. */
  lemma FindNextIsBest(c: Tuning, list: seq<Rq>, k: nat)
    requires SortList(list) && OneClass(list) && k < |list|
    ensures if |list| == 1 then FindNext(c, list, k) == None
      else FindNext(c, list, k).Some? && IsBest(c, list, k, FindNext(c, list, k).value)
  {
    FindNextBestExactly(c, list, k);
    hide FindNext; hide IsBest; hide Better; hide FirstTop; hide LastTop;
    assert forall i: nat :: i < |list| && i != k ==> Top(list, k, i);
  }

  predicate MissesBetter(c: Tuning, list: seq<Rq>, k: nat, j: nat)
    requires k < |list| && j < |list|
  {
    var r := FindNext(c, list, k);
    r.Some? && Better(c, list[j], r.value, list[k].pos)
  }

  /** With mixed classes the neighbours are not enough: a synchronous request farther on is missed. */
  lemma MixedClassesMiss(c: Tuning)
    ensures exists list: seq<Rq>, k: nat, j: nat ::
      SortList(list) && k < |list| && j < |list| && j != k && MissesBetter(c, list, k, j)
  {
    var list := [Rq(1, false, false), Rq(2, false, false), Rq(3, true, false)];
    assert FindNext(c, list, 0) == Some(list[1]);
    assert Better(c, list[2], list[1], 1);
    assert SortList(list) && MissesBetter(c, list, 0, 2);
  }
}
