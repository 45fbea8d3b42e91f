/**
  CFQ's group service tree: groups wait in the order of their virtual disk time, the
  first one is served, and the time it used, scaled by its weight, is added to its key.
  The red-black tree is the sequence of its groups in key order.
 */
module CfqGroups {
  import opened Options
  import opened SortedSeq

  // a shift by CFQ_SERVICE_SHIFT
  const SERVICE_SCALE: nat := 0x1000
  const BLKIO_WEIGHT_DEFAULT: nat := 500

  type Weights = w: map<nat, nat> | forall g :: g in w ==> w[g] > 0 witness map[]

  /**
    `order` holds the groups on the tree, `left` is the cached first node, `nr` counts the queues of a group,
    `serving` is the group of the active queue.
   */
  datatype Tree = Tree(order: seq<nat>, v: map<nat, int>, left: Option<nat>, min: int, nr: map<nat, nat>,
                       serving: Option<nat>)

  /** cfq_scale_slice. */
  function Scale(charge: nat, weight: nat): (d: nat)
    requires weight > 0
  {
    charge * SERVICE_SCALE * BLKIO_WEIGHT_DEFAULT / weight
  }

  /** Gives an unlinked group its key and links it; the first place makes it the cached leftmost. */
  function Link(t: Tree, g: nat, key: int): Tree
    requires Known(t.order, t.v)
  {
    var v := t.v[g := key];
    t.(v := v, order := Insert(t.order, v, g), left := if t.order == [] || key < v[t.order[0]] then Some(g) else t.left)
  }

  /** cfq_rb_erase. */
  function Erase(t: Tree, g: nat): Tree {
    t.(order := Without(t.order, g), left := if t.left == Some(g) then None else t.left)
  }

  /** The key of a group that joins: behind the last one by `delay`, which is CFQ_IDLE_DELAY. */
  function JoinKey(t: Tree, delay: nat): int
    requires Known(t.order, t.v)
  {
    if t.order == [] then t.min else t.v[t.order[|t.order| - 1]] + delay
  }

  /** cfq_group_service_tree_add. */
  function AddQueue(t: Tree, g: nat, delay: nat): Tree
    requires Known(t.order, t.v)
  {
    var u := t.(nr := t.nr[g := (if g in t.nr then t.nr[g] else 0) + 1]);
    if g in t.order then u else Link(u, g, JoinKey(t, delay))
  }

  /** cfq_group_service_tree_del. */
  function DelQueue(t: Tree, g: nat): Tree
    requires g in t.nr && t.nr[g] >= 1
  {
    var u := t.(nr := t.nr[g := t.nr[g] - 1]);
    if t.nr[g] > 1 then u else Erase(u, g)
  }

  function MaxInt(a: int, b: int): int { if a < b then b else a }

  /** cfq_get_next_cfqg; if there is a queue to activate, its group is now being served. */
  function Choose(t: Tree, activate: bool): Tree
    requires t.order != [] && Known(t.order, t.v)
  {
    var first := t.order[0];
    t.(left := Some(first), min := MaxInt(t.min, t.v[first]), serving := if activate then Some(first) else None)
  }

  /** cfq_group_served, when the active queue's slice expires. */
  function Expire(w: Weights, t: Tree, charge: nat): Tree
    requires t.serving.Some? && t.serving.value in w && t.serving.value in t.v
    requires Known(Without(t.order, t.serving.value), t.v)
  {
    var g := t.serving.value;
    Link(Erase(t.(serving := None), g), g, t.v[g] + Scale(charge, w[g]))
  }

  datatype Op = Add(g: nat) | Del(g: nat) | Next(activate: bool) | Served(charge: nat)

  /** When the scheduler takes which step; the active queue keeps its group on the tree. */
  predicate Enabled(w: Weights, t: Tree, op: Op) {
    match op
    case Add(g) => g in w
    case Del(g) => g in t.order && (t.serving == Some(g) ==> g in t.nr && t.nr[g] > 1)
    case Next(_) => t.order != [] && t.serving == None
    case Served(_) => t.serving.Some?
  }

  // The invariant

  predicate Counted(w: Weights, order: seq<nat>, nr: map<nat, nat>) {
    forall x :: x in order ==> x in w && x in nr && nr[x] >= 1
  }

  predicate Valid(w: Weights, t: Tree) {
    && Known(t.order, t.v) && Shape(t.order, t.v) && Counted(w, t.order, t.nr)
    // min_vdisktime is below every key
    && AtLeast(t.order, t.v, t.min)
    // the cached leftmost is unset or the first group
    && (t.left == None || (t.order != [] && t.left == Some(t.order[0])))
    // the group being served has the smallest key
    && (t.serving.Some? ==> t.serving.value in t.order && AtLeast(t.order, t.v, t.v[t.serving.value]))
  }

  predicate Initial(t: Tree) {
    t == Tree([], map[], None, 0, map[], None)
  }

  lemma InitialValid(w: Weights, t: Tree)
    requires Initial(t)
    ensures Valid(w, t)
  {}

  // Every step keeps the invariant

  /** Linking a group whose key is not below that of the group being served. */
  lemma LinkValid(w: Weights, t: Tree, g: nat, key: int)
    requires Valid(w, t) && g !in t.order && g in w && g in t.nr && t.nr[g] >= 1 && t.min <= key
    requires t.serving.Some? ==> t.v[t.serving.value] <= key
    ensures Valid(w, Link(t, g, key))
    ensures forall x :: x in t.order ==> x in Link(t, g, key).order
  {
    hide Shape; hide Insert;
    var v := t.v[g := key];
    SameKeys(t.order, t.v, v);
    InsertShape(t.order, v, g);
    InsertHas(t.order, v, g);
  }

  lemma EraseValid(w: Weights, t: Tree, g: nat)
    requires Valid(w, t) && t.serving != Some(g)
    ensures Valid(w, Erase(t, g))
    ensures forall x :: x in Erase(t, g).order <==> x in t.order && x != g
  {
    hide Shape; hide Without;
    WithoutHas(t.order, g);
    WithoutShape(t.order, t.v, g);
  }

  lemma AddValid(w: Weights, t: Tree, g: nat, delay: nat)
    requires Valid(w, t) && g in w
    ensures Valid(w, AddQueue(t, g, delay))
  {
    hide Shape; hide Link;
    if g !in t.order {
      LastLargest(t.order, t.v);
      var u := t.(nr := t.nr[g := (if g in t.nr then t.nr[g] else 0) + 1]);
      LinkValid(w, u, g, JoinKey(t, delay));
    }
  }

  lemma DelValid(w: Weights, t: Tree, g: nat)
    requires Valid(w, t) && Enabled(w, t, Del(g))
    ensures Valid(w, DelQueue(t, g))
  {
    hide Shape; hide Without;
    WithoutHas(t.order, g);
    WithoutShape(t.order, t.v, g);
  }

  lemma ChooseValid(w: Weights, t: Tree, activate: bool)
    requires Valid(w, t) && t.order != []
    ensures Valid(w, Choose(t, activate))
  {}

  lemma ExpireValid(w: Weights, t: Tree, charge: nat)
    requires Valid(w, t) && t.serving.Some?
    ensures Known(Without(t.order, t.serving.value), t.v) && Valid(w, Expire(w, t, charge))
  {
    hide Shape; hide Without; hide Insert; hide Link; hide Scale;
    var g := t.serving.value;
    EraseValid(w, t.(serving := None), g);
    LinkValid(w, Erase(t.(serving := None), g), g, t.v[g] + Scale(charge, w[g]));
  }

  function Step(w: Weights, t: Tree, op: Op, delay: nat): (u: Tree)
    requires Valid(w, t) && Enabled(w, t, op)
    ensures Valid(w, u) && u.min >= t.min
  {
    match op
    case Add(g) =>
      AddValid(w, t, g, delay);
      AddQueue(t, g, delay)
    case Del(g) =>
      DelValid(w, t, g);
      DelQueue(t, g)
    case Next(activate) =>
      ChooseValid(w, t, activate);
      Choose(t, activate)
    case Served(charge) =>
      ExpireValid(w, t, charge);
      Expire(w, t, charge)
  }
}
