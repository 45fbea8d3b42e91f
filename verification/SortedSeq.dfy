/**
  Sequences of identifiers in the order of their keys: what a red-black tree or a
  sorted list holds.
 */
module SortedSeq {

  predicate Known(order: seq<nat>, v: map<nat, int>) { forall x :: x in order ==> x in v }

  /** Links an element behind everything with the same key. */
  function Insert(order: seq<nat>, v: map<nat, int>, g: nat): (r: seq<nat>)
    requires Known(order, v) && g in v
  {
    if order == [] || v[g] < v[order[0]] then [g] + order
    else [order[0]] + Insert(order[1..], v, g)
  }

  function Without(order: seq<nat>, g: nat): (r: seq<nat>) {
    if order == [] then [] else if order[0] == g then Without(order[1..], g) else [order[0]] + Without(order[1..], g)
  }

  predicate AtLeast(order: seq<nat>, v: map<nat, int>, m: int)
    requires Known(order, v)
  {
    forall x :: x in order ==> m <= v[x]
  }

  /** In key order, without repetition. */
  predicate Shape(order: seq<nat>, v: map<nat, int>) {
    && Known(order, v)
    && forall i, j :: 0 <= i < j < |order| ==> v[order[i]] <= v[order[j]] && order[i] != order[j]
  }

  lemma {:induction false} InsertHas(order: seq<nat>, v: map<nat, int>, g: nat)
    requires Known(order, v) && g in v
    ensures forall x :: x in Insert(order, v, g) <==> x == g || x in order
    ensures Insert(order, v, g) != []
    ensures Insert(order, v, g)[0] == if order == [] || v[g] < v[order[0]] then g else order[0]
    decreases |order|
  {
    if !(order == [] || v[g] < v[order[0]]) {
      InsertHas(order[1..], v, g);
      assert order == [order[0]] + order[1..];
    }
  }

  lemma {:induction false} WithoutHas(order: seq<nat>, g: nat)
    ensures forall x :: x in Without(order, g) <==> x in order && x != g
    ensures order != [] && order[0] != g ==> Without(order, g) != [] && Without(order, g)[0] == order[0]
    decreases |order|
  {
    if order != [] {
      WithoutHas(order[1..], g);
      assert order == [order[0]] + order[1..];
    }
  }

  lemma ConsShape(x: nat, tail: seq<nat>, v: map<nat, int>)
    requires Shape(tail, v) && x in v && AtLeast(tail, v, v[x]) && x !in tail
    ensures Shape([x] + tail, v)
  {}

  lemma TailShape(order: seq<nat>, v: map<nat, int>)
    requires Shape(order, v) && order != []
    ensures Shape(order[1..], v) && AtLeast(order[1..], v, v[order[0]]) && order[0] !in order[1..]
    ensures AtLeast(order, v, v[order[0]]) && order == [order[0]] + order[1..]
  {}

  lemma {:induction false} InsertShape(order: seq<nat>, v: map<nat, int>, g: nat)
    requires Shape(order, v) && g in v && g !in order
    ensures Shape(Insert(order, v, g), v)
    decreases |order|
  {
    if order != [] {
      TailShape(order, v);
      hide Shape;
      if v[g] < v[order[0]] {
        ConsShape(g, order, v);
      } else {
        InsertShape(order[1..], v, g);
        InsertHas(order[1..], v, g);
        ConsShape(order[0], Insert(order[1..], v, g), v);
      }
    }
  }

  lemma {:induction false} WithoutShape(order: seq<nat>, v: map<nat, int>, g: nat)
    requires Shape(order, v)
    ensures Shape(Without(order, g), v)
    decreases |order|
  {
    if order != [] {
      TailShape(order, v);
      hide Shape;
      WithoutShape(order[1..], v, g);
      WithoutHas(order[1..], g);
      ConsShape(order[0], Without(order[1..], g), v);
    }
  }

  /** Keys of elements outside the sequence do not matter. */
  lemma SameKeys(order: seq<nat>, v: map<nat, int>, v': map<nat, int>)
    requires Shape(order, v) && Known(order, v') && forall x :: x in order ==> v[x] == v'[x]
    ensures Shape(order, v')
  {}

  lemma LastLargest(order: seq<nat>, v: map<nat, int>)
    requires Shape(order, v)
    ensures forall x :: x in order ==> v[x] <= v[order[|order| - 1]]
  {}

  lemma {:induction false} InsertSplit(order: seq<nat>, v: map<nat, int>, g: nat, i: nat)
    requires Known(order, v) && g in v && i <= |order|
    requires forall k :: 0 <= k < i ==> v[order[k]] <= v[g]
    requires i < |order| ==> v[g] < v[order[i]]
    ensures Insert(order, v, g) == order[..i] + [g] + order[i..]
    decreases |order|
  {
    if i > 0 {
      var rest := order[1..];
      InsertSplit(rest, v, g, i - 1);
      assert order[..i] + [g] + order[i..] == [order[0]] + (rest[..i - 1] + [g] + rest[i - 1..]);
    }
  }

  lemma {:induction false} WithoutSplit(order: seq<nat>, v: map<nat, int>, g: nat, i: nat)
    requires Shape(order, v) && i < |order| && order[i] == g
    ensures Without(order, g) == order[..i] + order[i + 1..]
    decreases |order|
  {
    if i > 0 {
      var rest := order[1..];
      WithoutSplit(rest, v, g, i - 1);
      assert order[0] != g;
      assert order[..i] + order[i + 1..] == [order[0]] + (rest[..i - 1] + rest[i..]);
    } else {
      OthersOnly(order, v);
      WithoutOther(order[1..], g);
      assert order[..0] + order[1..] == order[1..];
    }
  }

  lemma OthersOnly(order: seq<nat>, v: map<nat, int>)
    requires Shape(order, v) && order != []
    ensures order[0] !in order[1..]
  {}

  lemma {:induction false} WithoutOther(order: seq<nat>, g: nat)
    requires g !in order
    ensures Without(order, g) == order
  {
    if order != [] {
      WithoutOther(order[1..], g);
    }
  }
}
