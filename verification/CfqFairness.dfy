/** Weighted fairness of the group service tree over whole runs. */
module CfqFairness {
  import opened Options
  import opened CfqGroups
  import opened SortedSeq

  /** The steps `ops` can be taken one after the other from `t`. */
  ghost predicate Runs(w: Weights, delay: nat, t: Tree, ops: seq<Op>)
    requires Valid(w, t)
    decreases |ops|
  {
    ops != [] ==> Enabled(w, t, ops[0]) && Runs(w, delay, Step(w, t, ops[0], delay), ops[1..])
  }

  ghost function End(w: Weights, delay: nat, t: Tree, ops: seq<Op>): Tree
    requires Valid(w, t) && Runs(w, delay, t, ops)
    decreases |ops|
  {
    if ops == [] then t else End(w, delay, Step(w, t, ops[0], delay), ops[1..])
  }

  /** The group is on the tree all the time. */
  ghost predicate Stays(w: Weights, delay: nat, t: Tree, ops: seq<Op>, x: nat)
    requires Valid(w, t) && Runs(w, delay, t, ops)
    decreases |ops|
  {
    x in t.order && (ops != [] ==> Stays(w, delay, Step(w, t, ops[0], delay), ops[1..], x))
  }

  ghost predicate Charges(t: Tree, op: Op, x: nat) { op.Served? && t.serving == Some(x) }

  /** What a step adds to the key of a group that it leaves on the tree. */
  ghost function Charge(w: Weights, t: Tree, op: Op, x: nat): nat
    requires Valid(w, t)
  {
    if Charges(t, op, x) then Scale(op.charge, w[x]) else 0
  }

  /** The weight-normalised service of a group: the sum of its scaled charges. */
  ghost function Service(w: Weights, delay: nat, t: Tree, ops: seq<Op>, x: nat): nat
    requires Valid(w, t) && Runs(w, delay, t, ops)
    decreases |ops|
  {
    if ops == [] then 0 else Charge(w, t, ops[0], x) + Service(w, delay, Step(w, t, ops[0], delay), ops[1..], x)
  }

  /** No charge of the run is scaled to more than `c`. */
  ghost predicate ChargesAtMost(w: Weights, delay: nat, t: Tree, ops: seq<Op>, c: nat)
    requires Valid(w, t) && Runs(w, delay, t, ops)
    decreases |ops|
  {
    ops != [] ==>
      && (forall x :: x in t.order ==> Charge(w, t, ops[0], x) <= c)
      && ChargesAtMost(w, delay, Step(w, t, ops[0], delay), ops[1..], c)
  }

  lemma StepKeys(w: Weights, t: Tree, op: Op, delay: nat, x: nat)
    requires Valid(w, t) && Enabled(w, t, op) && x in t.order && x in Step(w, t, op, delay).order
    ensures Valid(w, Step(w, t, op, delay)) && Step(w, t, op, delay).v[x] == t.v[x] + Charge(w, t, op, x)
  {
    hide Insert; hide Without; hide Scale; hide Shape; hide AtLeast;
  }

  /** min_vdisktime never goes back, and the invariant holds at the end of every run. */
  lemma {:induction false} RunKeepsInvariant(w: Weights, delay: nat, t: Tree, ops: seq<Op>)
    requires Valid(w, t) && Runs(w, delay, t, ops)
    ensures Valid(w, End(w, delay, t, ops)) && End(w, delay, t, ops).min >= t.min
    decreases |ops|
  {
    if ops != [] {
      RunKeepsInvariant(w, delay, Step(w, t, ops[0], delay), ops[1..]);
    }
  }

  lemma {:induction false} KeysAreService(w: Weights, delay: nat, t: Tree, ops: seq<Op>, x: nat)
    requires Valid(w, t) && Runs(w, delay, t, ops) && Stays(w, delay, t, ops, x)
    ensures x in End(w, delay, t, ops).order && x in End(w, delay, t, ops).v
    ensures End(w, delay, t, ops).v[x] == t.v[x] + Service(w, delay, t, ops, x)
    decreases |ops|
  {
    if ops != [] {
      StepKeys(w, t, ops[0], delay, x);
      KeysAreService(w, delay, Step(w, t, ops[0], delay), ops[1..], x);
    }
  }

  /** One step: the gap shrinks, stays, or ends below the charge. */
  lemma StepGap(w: Weights, t: Tree, op: Op, delay: nat, i: nat, j: nat, c: nat)
    requires Valid(w, t) && Enabled(w, t, op) && i in t.order && j in t.order
    requires i in Step(w, t, op, delay).order && j in Step(w, t, op, delay).order
    requires forall x :: x in t.order ==> Charge(w, t, op, x) <= c
    ensures var u := Step(w, t, op, delay); Valid(w, u) && u.v[i] - u.v[j] <= MaxInt(t.v[i] - t.v[j], c)
  {
    StepKeys(w, t, op, delay, i);
    StepKeys(w, t, op, delay, j);
    hide Step; hide Shape; hide Scale;
  }

  /** The gap of two keys never exceeds the larger of its initial value and the largest scaled charge. */
  lemma {:induction false} GapBounded(w: Weights, delay: nat, t: Tree, ops: seq<Op>, i: nat, j: nat, c: nat)
    requires Valid(w, t) && Runs(w, delay, t, ops) && ChargesAtMost(w, delay, t, ops, c)
    requires Stays(w, delay, t, ops, i) && Stays(w, delay, t, ops, j)
    ensures var u := End(w, delay, t, ops); i in u.v && j in u.v && u.v[i] - u.v[j] <= MaxInt(t.v[i] - t.v[j], c)
    decreases |ops|
  {
    if ops != [] {
      StepGap(w, t, ops[0], delay, i, j, c);
      GapBounded(w, delay, Step(w, t, ops[0], delay), ops[1..], i, j, c);
    }
  }

  /** Over any run the normalised service of two groups differs by no more than a constant. */
  lemma ServiceFair(w: Weights, delay: nat, t: Tree, ops: seq<Op>, i: nat, j: nat, c: nat)
    requires Valid(w, t) && Runs(w, delay, t, ops) && ChargesAtMost(w, delay, t, ops, c)
    requires Stays(w, delay, t, ops, i) && Stays(w, delay, t, ops, j)
    ensures Service(w, delay, t, ops, i) - Service(w, delay, t, ops, j) <= MaxInt(0, c - (t.v[i] - t.v[j]))
  {
    hide Runs; hide Stays; hide ChargesAtMost;
    StaysOn(w, delay, t, ops, i); StaysOn(w, delay, t, ops, j);
    KeysAreService(w, delay, t, ops, i);
    KeysAreService(w, delay, t, ops, j);
    GapBounded(w, delay, t, ops, i, j, c);
  }

  lemma StaysOn(w: Weights, delay: nat, t: Tree, ops: seq<Op>, x: nat)
    requires Valid(w, t) && Runs(w, delay, t, ops) && Stays(w, delay, t, ops, x)
    ensures x in t.order
  {}

  // Real time: every charge is rounded down once

  const UNIT: nat := SERVICE_SCALE * BLKIO_WEIGHT_DEFAULT

  /** The time charged to a group, before scaling. */
  ghost function Used(w: Weights, delay: nat, t: Tree, ops: seq<Op>, x: nat): nat
    requires Valid(w, t) && Runs(w, delay, t, ops)
    decreases |ops|
  {
    if ops == [] then 0
    else (if Charges(t, ops[0], x) then ops[0].charge else 0) + Used(w, delay, Step(w, t, ops[0], delay), ops[1..], x)
  }

  ghost function Turns(w: Weights, delay: nat, t: Tree, ops: seq<Op>, x: nat): nat
    requires Valid(w, t) && Runs(w, delay, t, ops)
    decreases |ops|
  {
    if ops == [] then 0
    else (if Charges(t, ops[0], x) then 1 else 0) + Turns(w, delay, Step(w, t, ops[0], delay), ops[1..], x)
  }

  /** The service is the time over the weight, but each of the turns may have been rounded down. */
  ghost predicate Rounded(weight: nat, service: nat, used: nat, turns: nat) {
    weight * service <= UNIT * used <= weight * (service + turns)
  }

  lemma ScaleRounds(charge: nat, weight: nat)
    requires weight > 0
    ensures Rounded(weight, Scale(charge, weight), charge, 1)
  {
    var n := UNIT * charge;
    assert Scale(charge, weight) == n / weight;
    assert n == weight * (n / weight) + n % weight;
  }

  lemma RoundedZero(weight: nat)
    ensures Rounded(weight, 0, 0, 0)
  {
    assert weight * 0 == 0 && UNIT * 0 == 0;
  }

  lemma RoundedAdd(weight: nat, s: nat, u: nat, n: nat, s': nat, u': nat, n': nat)
    requires Rounded(weight, s, u, n) && Rounded(weight, s', u', n')
    ensures Rounded(weight, s + s', u + u', n + n')
  {
    assert weight * (s + s') == weight * s + weight * s';
    assert UNIT * (u + u') == UNIT * u + UNIT * u';
    assert weight * (s + s' + (n + n')) == weight * (s + n) + weight * (s' + n');
  }

  lemma {:induction false} ServiceRounds(w: Weights, delay: nat, t: Tree, ops: seq<Op>, x: nat)
    requires Valid(w, t) && Runs(w, delay, t, ops) && x in w
    ensures Rounded(w[x], Service(w, delay, t, ops, x), Used(w, delay, t, ops, x), Turns(w, delay, t, ops, x))
    decreases |ops|
  {
    hide Rounded; hide Scale; hide Valid; hide Enabled; hide Step;
    if ops == [] {
      RoundedZero(w[x]);
    } else {
      var u := Step(w, t, ops[0], delay);
      ServiceRounds(w, delay, u, ops[1..], x);
      if Charges(t, ops[0], x) {
        var c := ops[0].charge;
        ScaleRounds(c, w[x]);
        RoundedAdd(w[x], Scale(c, w[x]), c, 1,
          Service(w, delay, u, ops[1..], x), Used(w, delay, u, ops[1..], x), Turns(w, delay, u, ops[1..], x));
      }
    }
  }

  /** UNIT * ui / wi exceeds UNIT * uj / wj by at most d + ni. */
  ghost predicate TimeGap(wi: nat, ui: nat, ni: nat, wj: nat, uj: nat, d: int) {
    wj * (UNIT * ui) - wi * (UNIT * uj) <= wi * wj * (d + ni)
  }

  lemma Cross(wi: nat, wj: nat, si: nat, ui: nat, ni: nat, sj: nat, uj: nat, nj: nat, d: int)
    requires Rounded(wi, si, ui, ni) && Rounded(wj, sj, uj, nj) && si - sj <= d
    ensures TimeGap(wi, ui, ni, wj, uj, d)
  {
    Scaled(wj, UNIT * ui, wi * (si + ni));
    Scaled(wi, wj * sj, UNIT * uj);
    assert wj * (wi * (si + ni)) == wi * wj * (si + ni);
    assert wi * (wj * sj) == wi * wj * sj;
    assert wi * wj * (si + ni) - wi * wj * sj == wi * wj * (si + ni - sj);
    ScaledInt(wi * wj, si + ni - sj, d + ni);
  }

  lemma Scaled(a: nat, b: nat, c: nat)
    requires b <= c
    ensures a * b <= a * c
  {}

  lemma ScaledInt(a: nat, b: int, c: int)
    requires b <= c
    ensures a * b <= a * c
  {}

  /**
    The time that two groups really used, divided by their weights, differs by a constant and
    one rounding unit for each turn of the first.
   */
  lemma TimeFair(w: Weights, delay: nat, t: Tree, ops: seq<Op>, i: nat, j: nat, c: nat)
    requires Valid(w, t) && Runs(w, delay, t, ops) && ChargesAtMost(w, delay, t, ops, c)
    requires Stays(w, delay, t, ops, i) && Stays(w, delay, t, ops, j)
    ensures TimeGap(w[i], Used(w, delay, t, ops, i), Turns(w, delay, t, ops, i), w[j], Used(w, delay, t, ops, j),
      MaxInt(0, c - (t.v[i] - t.v[j])))
  {
    StaysOn(w, delay, t, ops, i); StaysOn(w, delay, t, ops, j);
    hide Runs; hide Stays; hide ChargesAtMost; hide Service; hide Used; hide Turns; hide Rounded; hide TimeGap;
    ServiceFair(w, delay, t, ops, i, j, c);
    ServiceRounds(w, delay, t, ops, i);
    ServiceRounds(w, delay, t, ops, j);
    Cross(w[i], w[j], Service(w, delay, t, ops, i), Used(w, delay, t, ops, i), Turns(w, delay, t, ops, i),
      Service(w, delay, t, ops, j), Used(w, delay, t, ops, j), Turns(w, delay, t, ops, j),
      MaxInt(0, c - (t.v[i] - t.v[j])));
  }
}
