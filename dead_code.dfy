/// Dead code elimination (src/optimizations/dead_code.py): the nodes
/// reachable from the root are marked; the graph itself is left as it is.
module DeadCode {
  import opened Tracer

  /// Every node of `r2` that is not in `r` has all its inputs in `r2`.
  ghost predicate ClosedOutside(s: Store, r: set<Id>, r2: set<Id>) {
    forall x, k | x in r2 && x !in r && x in s && 0 <= k < |s[x].inputs| :: s[x].inputs[k] in r2
  }

  lemma ClosedOutsideTrans(s: Store, r0: set<Id>, r1: set<Id>, r2: set<Id>)
    requires ClosedOutside(s, r0, r1) && ClosedOutside(s, r1, r2) && r1 <= r2
    ensures ClosedOutside(s, r0, r2)
  {
  }

  /// A set holding `id` and closed under inputs holds all `id` reaches.
  lemma {:induction false} ClosedHoldsReach(s: Store, rank: map<Id, nat>, r: set<Id>, id: Id)
    requires Ranked(s, rank) && id in s && id in r && ClosedOutside(s, {}, r)
    ensures Reach(s, rank, id) <= r
    decreases rank[id]
  {
    forall k | 0 <= k < |s[id].inputs| {
      ClosedHoldsReach(s, rank, r, s[id].inputs[k]);
    }
  }

  /// `mark(node)` (lines 21-26): `id` is marked, the marks only grow, within
  /// what `id` reaches, and every newly marked node has its inputs marked.
  method Mark(g: Graph, id: Id, reachable: set<Id>) returns (reachable2: set<Id>)
    requires g.Valid() && id in g.nodes
    decreases g.rank[id]
    ensures id in reachable2
    ensures reachable <= reachable2 <= reachable + Reach(g.nodes, g.rank, id)
    ensures ClosedOutside(g.nodes, reachable, reachable2)
  {
    ReachInputs(g.nodes, g.rank, id);
    if id in reachable {
      return reachable;
    }
    reachable2 := reachable + {id};
    var ins := g.nodes[id].inputs;
    var k := 0;
    while k < |ins|
      invariant 0 <= k <= |ins|
      invariant reachable + {id} <= reachable2 <= reachable + Reach(g.nodes, g.rank, id)
      invariant ClosedOutside(g.nodes, reachable + {id}, reachable2)
      invariant forall j | 0 <= j < k :: ins[j] in reachable2
    {
      ghost var before := reachable2;
      reachable2 := Mark(g, ins[k], reachable2);
      ClosedOutsideTrans(g.nodes, reachable + {id}, before, reachable2);
      forall j | 0 <= j <= k ensures ins[j] in reachable2 {
        if j < k {
          assert ins[j] in before;
        }
      }
      k := k + 1;
    }
  }

  /// `optimize(graph)`: the root is returned as it is, and the marked set is
  /// exactly the nodes the root reaches.
  method Optimize(g: Graph, root: Id) returns (r: Id, reachable: set<Id>)
    requires g.Valid() && root in g.nodes
    ensures r == root
    ensures reachable == Reach(g.nodes, g.rank, root)
  {
    reachable := Mark(g, root, {});
    ClosedHoldsReach(g.nodes, g.rank, reachable, root);
    r := root;
  }
}
