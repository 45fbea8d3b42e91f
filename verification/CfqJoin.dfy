/** When a group is on the service tree, and where it comes in. */
module CfqJoin {
  import opened Options
  import opened SortedSeq
  import opened CfqGroups
  import opened CfqFairness

  /** A group that joins comes last, behind the last group by the idle delay; alone it starts at the minimum. */
  lemma JoinsLast(w: Weights, t: Tree, g: nat, delay: nat)
    requires Valid(w, t) && g in w && g !in t.order
    ensures var u := Step(w, t, Add(g), delay);
      && u.order == t.order + [g] && g in u.v
      && (forall x :: x in t.order ==> x in u.v && u.v[x] == t.v[x] && u.v[x] + delay <= u.v[g])
      && if t.order == [] then u.v[g] == t.min else exists x :: x in t.order && u.v[g] == u.v[x] + delay
  {
    hide Insert; hide Shape;
    var n := |t.order|;
    var v := t.v[g := JoinKey(t, delay)];
    LastLargest(t.order, t.v);
    assert forall k :: 0 <= k < n ==> t.order[k] in t.order;
    InsertSplit(t.order, v, g, n);
    assert t.order[..n] + [g] + t.order[n..] == t.order + [g];
    if n > 0 { assert t.order[n - 1] in t.order; }
  }

  /** Of two groups, the one that joins later is not ahead by more than a charge beyond the delay. */
  lemma JoinerNotAhead(w: Weights, t: Tree, g: nat, delay: nat, ops: seq<Op>, j: nat, c: nat)
    requires Valid(w, t) && g in w && g !in t.order && j in t.order
    requires var u := Step(w, t, Add(g), delay);
      && Runs(w, delay, u, ops) && ChargesAtMost(w, delay, u, ops, c)
      && Stays(w, delay, u, ops, g) && Stays(w, delay, u, ops, j)
    ensures var u := Step(w, t, Add(g), delay);
      Service(w, delay, u, ops, g) - Service(w, delay, u, ops, j) <= MaxInt(0, c - delay)
  {
    JoinsLast(w, t, g, delay);
    hide Step; hide Runs; hide ChargesAtMost; hide Stays; hide Service;
    var u := Step(w, t, Add(g), delay);
    ServiceFair(w, delay, u, ops, g, j, c);
  }

  /** The queues of a group. */
  function Nr(t: Tree, x: nat): nat { if x in t.nr then t.nr[x] else 0 }

  /** How many queues a step adds to a group. */
  function Queued(op: Op, x: nat): int { if op == Add(x) then 1 else if op == Del(x) then -1 else 0 }

  /** How many queues a run adds to a group, less those it takes away. */
  function Queues(ops: seq<Op>, x: nat): int { if ops == [] then 0 else Queued(ops[0], x) + Queues(ops[1..], x) }

  /** The groups on the tree are those that have queues. */
  ghost predicate Exact(t: Tree) { forall x :: x in t.order <==> Nr(t, x) >= 1 }

  /** A step changes the queues of its group only, and the tree with them. */
  ghost predicate Changes(t: Tree, op: Op, u: Tree) {
    Exact(u) && forall x :: Nr(u, x) == Nr(t, x) + Queued(op, x)
  }

  lemma AddExact(w: Weights, t: Tree, g: nat, delay: nat)
    requires Valid(w, t) && g in w && Exact(t)
    ensures Changes(t, Add(g), AddQueue(t, g, delay))
  {
    hide Insert; hide Shape;
    if g !in t.order { InsertHas(t.order, t.v[g := JoinKey(t, delay)], g); }
  }

  lemma DelExact(w: Weights, t: Tree, g: nat)
    requires Valid(w, t) && g in t.order && Exact(t)
    ensures Changes(t, Del(g), DelQueue(t, g))
  {
    hide Without; hide Shape;
    WithoutHas(t.order, g);
  }

  lemma ServedExact(w: Weights, t: Tree, charge: nat)
    requires Valid(w, t) && t.serving.Some? && Exact(t)
    ensures Known(Without(t.order, t.serving.value), t.v) && Changes(t, Served(charge), Expire(w, t, charge))
  {
    hide Insert; hide Without; hide Shape; hide Scale;
    var g := t.serving.value;
    WithoutHas(t.order, g);
    InsertHas(Without(t.order, g), Expire(w, t, charge).v, g);
  }

  lemma NextExact(t: Tree, activate: bool)
    requires t.order != [] && Known(t.order, t.v) && Exact(t)
    ensures Changes(t, Next(activate), Choose(t, activate))
  {}

  lemma StepExact(w: Weights, t: Tree, op: Op, delay: nat)
    requires Valid(w, t) && Enabled(w, t, op) && Exact(t)
    ensures Changes(t, op, Step(w, t, op, delay))
  {
    hide Changes; hide Shape; hide AddQueue; hide DelQueue; hide Expire; hide Choose; hide Exact;
    match op {
      case Add(g) => AddExact(w, t, g, delay);
      case Del(g) => DelExact(w, t, g);
      case Next(activate) => NextExact(t, activate);
      case Served(charge) => ServedExact(w, t, charge);
    }
  }

  /** Over every run a group is on the tree exactly as long as it has queues. */
  lemma {:induction false} OnTreeWhileQueued(w: Weights, delay: nat, t: Tree, ops: seq<Op>, x: nat)
    requires Valid(w, t) && Runs(w, delay, t, ops) && Exact(t)
    ensures var u := End(w, delay, t, ops);
      Exact(u) && Nr(u, x) == Nr(t, x) + Queues(ops, x) && (x in u.order <==> Nr(t, x) + Queues(ops, x) >= 1)
    decreases |ops|
  {
    hide Step; hide Valid; hide Enabled;
    if ops != [] {
      StepExact(w, t, ops[0], delay);
      OnTreeWhileQueued(w, delay, Step(w, t, ops[0], delay), ops[1..], x);
    }
  }

  /**
    Choosing a group brings min_vdisktime up to the smallest key and finds the first group again; a group with that
    key is served if it has a queue to activate, and no key or place changes.
   */
  lemma NextChooses(w: Weights, t: Tree, activate: bool, delay: nat)
    requires Valid(w, t) && Enabled(w, t, Next(activate))
    ensures var u := Step(w, t, Next(activate), delay);
      && u.order == t.order && u.v == t.v && u.left == Some(t.order[0])
      && (exists x :: x in t.order && t.v[x] == u.min) && AtLeast(t.order, t.v, u.min)
      && (if activate then u.serving.Some? && u.serving.value in t.order && t.v[u.serving.value] == u.min
          else u.serving == None)
  {
    hide Shape;
    TailShape(t.order, t.v);
    assert t.order[0] in t.order;
  }

  /** The cached first group is forgotten only when that group itself leaves its place. */
  lemma LeftKept(w: Weights, t: Tree, op: Op, delay: nat)
    requires Valid(w, t) && Enabled(w, t, op) && (t.left.Some? || t.order == [])
    requires op.Del? ==> t.left != Some(op.g) || t.nr[op.g] > 1
    requires op.Served? ==> t.left != t.serving
    ensures var u := Step(w, t, op, delay); u.left.Some? || u.order == []
  {
    hide Shape; hide Insert; hide Without; hide Scale;
  }
}
