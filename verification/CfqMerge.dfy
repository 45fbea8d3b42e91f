/** CFQ links queues of cooperating processes to the queue they will be merged into. The links never form a cycle. */
module CfqMerge {

  /** `new_cfqq` of the queues that have one. */
  type Links = map<nat, nat>

  /** `depth` counts the links from a queue to the end of its chain, `root` is that end. */
  ghost predicate Ranked(links: Links, depth: nat -> nat, root: nat -> nat) {
    forall x ::
      if x in links then depth(x) == depth(links[x]) + 1 && root(x) == root(links[x]) else depth(x) == 0 && root(x) == x
  }

  /** Every chain ends: the links are a forest. */
  ghost predicate Forest(links: Links) {
    exists depth, root :: Ranked(links, depth, root)
  }

  /** The chain of `x` ends at `e`. */
  ghost predicate EndsAt(links: Links, x: nat, e: nat) {
    exists depth, root :: Ranked(links, depth, root) && root(x) == e
  }

  /** The chain behind a queue, in order. */
  ghost predicate Chain(links: Links, x: nat, path: seq<nat>)
    decreases |path|
  {
    if x !in links then path == []
    else path != [] && path[0] == links[x] && Chain(links, path[0], path[1..])
  }

  /** A link between two ends of chains keeps the forest. */
  lemma LinkEnds(links: Links, a: nat, b: nat)
    requires Forest(links) && a !in links && b !in links && a != b
    ensures Forest(links[a := b])
  {
    hide Ranked;
    var depth, root :| Ranked(links, depth, root);
    LinkRanked(links, depth, root, a, b);
  }

  lemma LinkRanked(links: Links, depth: nat -> nat, root: nat -> nat, a: nat, b: nat)
    requires Ranked(links, depth, root) && a !in links && b !in links && a != b
    ensures Forest(links[a := b])
  {
    var depth' := (x: nat) => if root(x) == a then depth(x) + 1 else depth(x);
    var root' := (x: nat) => if root(x) == a then b else root(x);
    assert Ranked(links[a := b], depth', root');
  }

  lemma RankedAt(links: Links, depth: nat -> nat, root: nat -> nat, x: nat)
    requires Ranked(links, depth, root)
    ensures if x in links then depth(x) == depth(links[x]) + 1 && root(x) == root(links[x])
      else depth(x) == 0 && root(x) == x
  {}

  /** Nothing on a chain lies as deep as its start, so the chain does not come back and nothing is on it twice. */
  lemma {:induction false} ChainDescends(links: Links, depth: nat -> nat, root: nat -> nat, x: nat, path: seq<nat>)
    requires Ranked(links, depth, root) && Chain(links, x, path)
    ensures forall i :: 0 <= i < |path| ==> depth(path[i]) < depth(x)
    ensures forall i, j :: 0 <= i < j < |path| ==> path[i] != path[j]
    decreases |path|
  {
    hide Ranked;
    RankedAt(links, depth, root, x);
    if path != [] {
      ChainDescends(links, depth, root, path[0], path[1..]);
    }
  }

  /** Nothing is on the path twice, and its start not at all. */
  predicate Simple(x: nat, path: seq<nat>) {
    x !in path && forall i, j :: 0 <= i < j < |path| ==> path[i] != path[j]
  }

  lemma ChainSimple(links: Links, x: nat, path: seq<nat>)
    requires Forest(links) && Chain(links, x, path)
    ensures Simple(x, path)
  {
    hide Ranked;
    var depth, root :| Ranked(links, depth, root);
    ChainDescends(links, depth, root, x, path);
  }

  /** One step along the chain `done + rest` of `x`, from `at` to its next queue. */
  lemma ChainNext(links: Links, x: nat, at: nat, done: seq<nat>, rest: seq<nat>)
    requires Simple(x, done + rest) && Chain(links, at, rest) && at in links
    ensures rest != [] && links[at] == rest[0] && Chain(links, rest[0], rest[1..])
    ensures rest[0] != x && rest[0] !in done && done + [rest[0]] + rest[1..] == done + rest
  {
    var path := done + rest;
    assert path[|done|] == rest[0];
    assert forall i :: 0 <= i < |done| ==> path[i] == done[i];
  }

  class Queues {
    var next: Links
    // references of processes, queues without an entry have none
    var refs: map<nat, int>

    function Refs(x: nat): int
      reads this
    {
      if x in refs then refs[x] else 0
    }

    constructor ()
      ensures next == map[] && Forest(next)
    {
      next, refs := map[], map[];
      new;
      assert Ranked(next, (x: nat) => 0, (x: nat) => x);
    }

    /**
      cfq_setup_merge, called for a queue without a link and another one: it links `cfqq` and the end of the target's
      chain, the one with fewer processes to the other, unless the chain ends at `cfqq` or a process is gone.
     */
    method SetupMerge(cfqq: nat, target: nat) returns (ghost end: nat)
      requires Forest(next) && cfqq !in next && cfqq != target
      modifies this
      ensures Forest(next) && EndsAt(old(next), target, end) && end !in old(next)
      ensures
        if old(Refs(target)) == 0 || end == cfqq || old(Refs(cfqq)) == 0 || old(Refs(end)) == 0 then
          next == old(next) && refs == old(refs)
        else
          var (a, b) := if old(Refs(end)) >= old(Refs(cfqq)) then (cfqq, end) else (end, cfqq);
          next == old(next)[a := b] && refs == old(refs)[b := old(Refs(b)) + old(Refs(a))]
    {
      hide Ranked;
      ghost var depth, root :| Ranked(next, depth, root);
      end := root(target);
      RootEnds(next, depth, root, target);
      if Refs(target) == 0 { return; }
      var other := target;
      while other in next
        invariant other != cfqq && next == old(next) && refs == old(refs) && root(other) == end
        decreases depth(other)
      {
        RankedAt(next, depth, root, other);
        RankedAt(next, depth, root, cfqq);
        if next[other] == cfqq { return; }
        other := next[other];
      }
      RankedAt(next, depth, root, other);
      var processRefs, newRefs := Refs(cfqq), Refs(other);
      if processRefs == 0 || newRefs == 0 { return; }
      if newRefs >= processRefs {
        LinkEnds(next, cfqq, other);
        refs := refs[other := newRefs + processRefs];
        next := next[cfqq := other];
      } else {
        LinkEnds(next, other, cfqq);
        refs := refs[cfqq := processRefs + newRefs];
        next := next[other := cfqq];
      }
    }

    /** cfq_put_cooperator drops one reference on every queue of the chain; the walk ends and never meets its start. */
    method PutCooperator(cfqq: nat) returns (dropped: seq<nat>)
      requires Forest(next)
      modifies this`refs
      ensures Chain(next, cfqq, dropped)
      ensures Simple(cfqq, dropped)
      ensures forall x :: Refs(x) == old(Refs(x)) - if x in dropped then 1 else 0
    {
      hide Ranked; hide Chain; hide Simple;
      ghost var depth, root :| Ranked(next, depth, root);
      ghost var whole := TheChain(next, depth, root, cfqq);
      ghost var rest := whole;
      ChainSimple(next, cfqq, whole);
      dropped := [];
      var at := cfqq;
      while at in next
        invariant dropped + rest == whole && Chain(next, at, rest)
        invariant forall x :: Refs(x) == old(Refs(x)) - if x in dropped then 1 else 0
        decreases |rest|
      {
        var q := next[at];
        ChainNext(next, cfqq, at, dropped, rest);
        if q == cfqq {
          // "cfqq->new_cfqq loop detected"
          assert false;
        }
        refs := refs[q := Refs(q) - 1];
        dropped, rest := dropped + [q], rest[1..];
        at := q;
      }
      ChainEnds(next, at, rest);
      assert dropped == whole;
    }
  }

  lemma ChainEnds(links: Links, x: nat, path: seq<nat>)
    requires Chain(links, x, path) && x !in links
    ensures path == []
  {}

  lemma {:induction false} RootEnds(links: Links, depth: nat -> nat, root: nat -> nat, x: nat)
    requires Ranked(links, depth, root)
    ensures root(x) !in links
    decreases depth(x)
  {
    hide Ranked;
    RankedAt(links, depth, root, x);
    if x in links { RootEnds(links, depth, root, links[x]); }
  }

  ghost function TheChain(links: Links, depth: nat -> nat, root: nat -> nat, x: nat): (path: seq<nat>)
    requires Ranked(links, depth, root)
    ensures Chain(links, x, path)
    decreases depth(x)
  {
    RankedAt(links, depth, root, x);
    if x !in links then []
    else
      var rest := TheChain(links, depth, root, links[x]);
      assert ([links[x]] + rest)[1..] == rest;
      [links[x]] + rest
  }
}
