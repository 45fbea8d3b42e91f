/** elv_dispatch_sort keeps the dispatch list in the order of a one-way sweep from the boundary. */
module BarrierSort {
  import opened Barrier

  /** In a sweep upwards from the boundary, which goes on at sector 0, `x` is not behind `y`. */
  predicate OneWay(boundary: nat, x: nat, y: nat) {
    if x >= boundary then y < boundary || x <= y else y < boundary && x <= y
  }

  /** Two entries that may be sorted against each other. */
  predicate Alike(a: Entry, b: Entry) {
    !a.stop && !b.stop && a.rq.discard == b.rq.discard && a.rq.write == b.rq.write
  }

  /** A stretch of the list without a stop entry, all of one direction and of one kind. */
  ghost predicate Stretch(list: seq<Entry>, i: nat, j: nat)
    requires i <= j < |list|
  {
    forall k :: i <= k < j ==> Alike(list[k], list[k + 1])
  }

  /** Every stretch of the list is in the order of the sweep. */
  ghost predicate Swept(list: seq<Entry>, boundary: nat) {
    forall i, j :: 0 <= i < j < |list| && Stretch(list, i, j) ==> OneWay(boundary, list[i].rq.pos, list[j].rq.pos)
  }

  /** The same, of neighbours. */
  ghost predicate Steps(list: seq<Entry>, boundary: nat) {
    forall i :: 0 <= i < |list| - 1 && Alike(list[i], list[i + 1]) ==>
      OneWay(boundary, list[i].rq.pos, list[i + 1].rq.pos)
  }

  lemma SweptSteps(list: seq<Entry>, boundary: nat)
    requires Swept(list, boundary)
    ensures Steps(list, boundary)
  {
    forall i | 0 <= i < |list| - 1 && Alike(list[i], list[i + 1])
      ensures OneWay(boundary, list[i].rq.pos, list[i + 1].rq.pos)
    {
      assert Stretch(list, i, i + 1);
    }
  }

  lemma {:induction false} StretchSwept(list: seq<Entry>, boundary: nat, i: nat, j: nat)
    requires i < j < |list| && Stretch(list, i, j) && Steps(list, boundary)
    ensures OneWay(boundary, list[i].rq.pos, list[j].rq.pos)
    decreases j - i
  {
    assert Alike(list[j - 1], list[j - 1 + 1]);
    if i < j - 1 {
      StretchSwept(list, boundary, i, j - 1);
    }
  }

  lemma StepsSwept(list: seq<Entry>, boundary: nat)
    requires Steps(list, boundary)
    ensures Swept(list, boundary)
  {
    forall i, j | 0 <= i < j < |list| && Stretch(list, i, j)
      ensures OneWay(boundary, list[i].rq.pos, list[j].rq.pos)
    {
      StretchSwept(list, boundary, i, j);
    }
  }

  lemma StepsInsert(list: seq<Entry>, boundary: nat, r: Rq, at: nat)
    requires Steps(list, boundary) && at == SortPos(list, r, boundary, |list|)
    ensures Steps(Insert(list, at, Entry(r, false)), boundary)
  {
    hide SortPos;
    var l := Insert(list, at, Entry(r, false));
    forall i | 0 <= i < |l| - 1 && Alike(l[i], l[i + 1]) ensures OneWay(boundary, l[i].rq.pos, l[i + 1].rq.pos) {
      if i + 1 < at {
        assert l[i] == list[i] && l[i + 1] == list[i + 1];
      } else if i + 1 == at {
        assert l[i] == list[at - 1] && StopsAt(r, list[at - 1], boundary);
      } else if i == at {
        assert l[i + 1] == list[at] && !StopsAt(r, list[at], boundary);
      } else {
        assert l[i] == list[i - 1] && l[i + 1] == list[i - 1 + 1];
      }
    }
  }

  /** An entry was put behind the last one that it may not pass or that the sweep reaches first. */
  ghost predicate Placed(list: seq<Entry>, e: Entry, boundary: nat, at: nat, list': seq<Entry>) {
    && at <= |list| && list' == Insert(list, at, e)
    && (forall k :: at <= k < |list| ==> Alike(e, list[k]) && !OneWay(boundary, list[k].rq.pos, e.rq.pos))
    && (at > 0 && Alike(e, list[at - 1]) ==> OneWay(boundary, list[at - 1].rq.pos, e.rq.pos))
  }

  /**
    A sorted dispatch passes only entries of its own direction and kind that the sweep reaches later, and it keeps
    every stretch of the list in the order of the sweep.
   */
  lemma DispatchKeepsSweep(q: Queue, i: nat, boundary: nat)
    requires i < |q.elevator|
    ensures exists at :: Placed(q.list, Entry(q.elevator[i], false), boundary, at, Dispatch(q, i, true, boundary).list)
    ensures Swept(q.list, boundary) ==> Swept(Dispatch(q, i, true, boundary).list, boundary)
  {
    var r := q.elevator[i];
    var at := SortPos(q.list, r, boundary, |q.list|);
    hide Swept; hide Steps; hide SortPos; hide Insert;
    assert Placed(q.list, Entry(r, false), boundary, at, Dispatch(q, i, true, boundary).list);
    if Swept(q.list, boundary) {
      SweptSteps(q.list, boundary);
      StepsInsert(q.list, boundary, r, at);
      StepsSwept(Dispatch(q, i, true, boundary).list, boundary);
    }
  }

  /** What is to be sorted goes to the elevator, unless it is a barrier of either kind or has no elevator data. */
  lemma AddGoes(q: Queue, t: Template, where: Where)
    ensures var q', r := Add(q, t, where), NewRq(q, t);
      if where == Sort && !t.barrier && !t.soft && t.elvpriv then q'.elevator == q.elevator + [r] && q'.list == q.list
      else
        && q'.elevator == q.elevator && |q'.list| == |q.list| + 1
        && q'.list[if where == Front then 0 else |q.list|] == Entry(r, true)
        && q'.list[if where == Front then 1 else 0..][..|q.list|] == q.list
  {
  }
}
