/** The group service tree as it is updated in place. */
module CfqTree {
  import opened Options
  import opened CfqGroups
  import opened SortedSeq

  class ServiceTree {
    var order: seq<nat>
    var v: map<nat, int>
    var left: Option<nat>
    var active: Option<nat>
    var min: int
    var nr: map<nat, nat>
    var serving: Option<nat>

    function View(): Tree
      reads this
    {
      Tree(order, v, left, min, nr, serving)
    }

    constructor ()
      ensures Initial(View()) && active == None
      ensures forall w :: Valid(w, View())
    {
      order, v, left, active, min, nr, serving := [], map[], None, None, 0, map[], None;
      new;
      forall w ensures Valid(w, View()) { InitialValid(w, View()); }
    }

    /** __cfq_group_service_tree_add: the walk stops at the first larger key, which may be the leftmost. */
    method LinkGroup(g: nat, key: int)
      requires Shape(order, v) && g !in order
      modifies this`order, this`v, this`left
      ensures View() == Link(old(View()), g, key)
    {
      SameKeys(order, v, v[g := key]);
      v := v[g := key];
      var i, first := 0, true;
      while i < |order| && v[order[i]] <= key
        invariant 0 <= i <= |order| && first == (i == 0)
        invariant forall k :: 0 <= k < i ==> v[order[k]] <= key
      {
        i := i + 1;
        first := false;
      }
      InsertSplit(order, v, g, i);
      if first { left := Some(g); }
      order := order[..i] + [g] + order[i..];
    }

    /** cfq_rb_erase. */
    method EraseGroup(g: nat)
      requires Shape(order, v) && g in order
      modifies this`order, this`left
      ensures View() == Erase(old(View()), g)
    {
      if left == Some(g) { left := None; }
      var i :| 0 <= i < |order| && order[i] == g;
      WithoutSplit(order, v, g, i);
      order := order[..i] + order[i + 1..];
    }

    /** cfq_group_service_tree_add. */
    method AddQueue(w: Weights, g: nat, delay: nat)
      requires Valid(w, View()) && g in w
      modifies this
      ensures View() == Step(w, old(View()), Add(g), delay) && Valid(w, View())
    {
      hide Shape; hide Link;
      AddValid(w, View(), g, delay);
      nr := nr[g := (if g in nr then nr[g] else 0) + 1];
      if g in order { return; }
      var key := min;
      if order != [] {
        key := v[order[|order| - 1]] + delay;
      }
      LinkGroup(g, key);
    }

    /** cfq_group_service_tree_del. */
    method DelQueue(w: Weights, g: nat)
      requires Valid(w, View()) && Enabled(w, View(), Del(g))
      modifies this
      ensures View() == Step(w, old(View()), Del(g), 0) && Valid(w, View())
      ensures active != Some(g)
    {
      hide Shape; hide Erase;
      DelValid(w, View(), g);
      if active == Some(g) { active := None; }
      nr := nr[g := nr[g] - 1];
      if nr[g] > 0 { return; }
      EraseGroup(g);
    }

    /** cfq_rb_first_group: the cached node if there is one, else the first of the tree. */
    method FirstGroup(w: Weights) returns (g: nat)
      requires Valid(w, View()) && order != []
      modifies this`left
      ensures g == order[0] && left == Some(g)
    {
      if left == None { left := Some(order[0]); }
      g := left.value;
    }

    /** update_min_vdisktime. */
    method UpdateMin()
      requires left.Some? ==> left.value in v
      requires active.Some? ==> active.value in v
      modifies this`min
      ensures min == if active == None then old(min)
        else if left.Some? && v[left.value] < v[active.value] then MaxInt(old(min), v[left.value])
        else MaxInt(old(min), v[active.value])
    {
      var vdisktime := min;
      if active.Some? { vdisktime := v[active.value]; }
      if left.Some? && v[left.value] < vdisktime { vdisktime := v[left.value]; }
      if vdisktime > min { min := vdisktime; }
    }

    /** cfq_get_next_cfqg, for cfq_select_queue. */
    method NextGroup(w: Weights, activate: bool) returns (g: nat)
      requires Valid(w, View()) && Enabled(w, View(), Next(activate))
      modifies this
      ensures View() == Step(w, old(View()), Next(activate), 0) && Valid(w, View())
      ensures g == order[0] && active == Some(g)
    {
      hide Shape;
      ChooseValid(w, View(), activate);
      g := FirstGroup(w);
      active := Some(g);
      UpdateMin();
      serving := if activate then Some(g) else None;
    }

    /** cfq_group_served: the key changes only while the group is off the tree. */
    method GroupServed(w: Weights, charge: nat)
      requires Valid(w, View()) && Enabled(w, View(), Served(charge))
      modifies this
      ensures View() == Step(w, old(View()), Served(charge), 0) && Valid(w, View())
    {
      hide Step; hide Valid; hide Shape; hide Erase; hide Link; hide Scale;
      var g := serving.value;
      ServedIs(w, View(), charge);
      serving := None;
      EraseGroup(g);
      LinkGroup(g, v[g] + Scale(charge, w[g]));
      if active == Some(g) { active := None; }
    }
  }

  /** Serving a group is taking it off the tree and linking it with its new key. */
  lemma ServedIs(w: Weights, t: Tree, charge: nat)
    requires Valid(w, t) && t.serving.Some?
    ensures
      var g, e := t.serving.value, Erase(t.(serving := None), t.serving.value);
      && g in t.order && Shape(t.order, t.v) && g in w && g in t.v
      && Known(e.order, e.v) && Shape(e.order, e.v) && g !in e.order && e.v == t.v
      && Step(w, t, Served(charge), 0) == Link(e, g, t.v[g] + Scale(charge, w[g]))
  {
    hide Shape; hide Without; hide Link; hide Scale;
    var g := t.serving.value;
    EraseValid(w, t.(serving := None), g);
  }
}
