/// Operation fusion (src/optimizations/fusion.py): chains of operations whose
/// operator pairs the hardware table lists are found, each chain becomes one
/// fused node, and the graph above them is rebuilt over the fused nodes.
/// Fused operators have no evaluation rule, so the pass is modelled by its
/// structure only.
module Fusion {
  import opened Wrappers
  import opened Tracer
  import opened DeadCode

  /// `METAL_FUSION_PATTERNS`: the (producer, consumer) operator pairs that
  /// fuse, and the fused operator each pair becomes.
  const FusionPatterns: map<(Op, Op), FusedKind> :=
    map[(Mul, Add) := Fma, (Mul, Mul) := Mul2, (Add, Add) := Add2, (Mul, Div) := Scale]

  /// The four pairs of the table, and no other.
  lemma FusionPairs(a: Op, b: Op)
    ensures (a, b) in FusionPatterns <==>
      (a == Mul && (b == Add || b == Mul || b == Div)) || (a == Add && b == Add)
  {
  }

  /// Lines 41-44: when both nodes carry a shape, the shapes are equal.
  predicate ShapesAgree(m1: Metadata, m2: Metadata) {
    "shape" in m1 && "shape" in m2 ==> m1["shape"] == m2["shape"]
  }

  /// `can_fuse(op1, op2)` (lines 19-44): the operator pair is in the table,
  /// the consumer has exactly two inputs, one of them the producer itself,
  /// and the shapes agree.
  predicate CanFuse(s: Store, a: Id, b: Id)
    requires a in s && b in s
  {
    && (s[a].op, s[b].op) in FusionPatterns
    && |s[b].inputs| == 2 && a in s[b].inputs
    && ShapesAgree(s[a].metadata, s[b].metadata)
  }

  /// `a` is the first input of `b` and fuses into it.
  predicate Linked(s: Store, a: Id, b: Id) {
    a in s && b in s && |s[b].inputs| == 2 && s[b].inputs[0] == a && CanFuse(s, a, b)
  }

  /// The group loop can grow past `id`: `id` has two inputs and the first
  /// fuses into it.
  predicate Grows(s: Store, id: Id) {
    id in s && |s[id].inputs| == 2 && Linked(s, s[id].inputs[0], id)
  }

  /// The group the loop of lines 103-111 builds from `id`: the longest chain
  /// ending at `id` in which each node is the first input of the next and
  /// fuses into it, producer first.
  function Chain(s: Store, ghost rank: map<Id, nat>, id: Id): (r: seq<Id>)
    requires Ranked(s, rank) && id in s
    decreases rank[id]
    ensures |r| > 0 && r[|r| - 1] == id && !Grows(s, r[0])
    ensures forall k | 0 <= k < |r| - 1 :: Linked(s, r[k], r[k + 1])
  {
    if Grows(s, id) then Chain(s, rank, s[id].inputs[0]) + [id] else [id]
  }

  /// The group loop (lines 103-111): start from the node and, while the
  /// current node has two inputs and its first input fuses into it, put that
  /// input in front.
  method BuildGroup(g: Graph, id: Id) returns (group: seq<Id>)
    requires g.Valid() && id in g.nodes
    ensures group == Chain(g.nodes, g.rank, id)
  {
    group := [id];
    var current := id;
    while |g.nodes[current].inputs| == 2
      invariant current in g.nodes && group != [] && group[0] == current
      invariant Chain(g.nodes, g.rank, current) + group[1..] == Chain(g.nodes, g.rank, id)
      decreases g.rank[current]
    {
      var prev := g.nodes[current].inputs[0];
      if CanFuse(g.nodes, prev, current) {
        assert Chain(g.nodes, g.rank, current) == Chain(g.nodes, g.rank, prev) + [current];
        assert ([prev] + group)[1..] == group == [current] + group[1..];
        group := [prev] + group;
        current := prev;
      } else {
        break;
      }
    }
  }

  function Last(c: seq<Id>): Id
    requires c != []
  {
    c[|c| - 1]
  }

  /// The groups `cands2[|cands|..]` found while `visited` grew to `visited2`:
  /// each is the chain, two or more long, of a newly visited node; no two end
  /// at the same node; and every newly visited node whose chain is two or
  /// more long ends one of them.
  ghost predicate Found(s: Store, rank: map<Id, nat>, cands: seq<seq<Id>>, cands2: seq<seq<Id>>,
                        visited: set<Id>, visited2: set<Id>)
    requires Ranked(s, rank)
  {
    && |cands| <= |cands2| && cands2[..|cands|] == cands
    && (forall i | |cands| <= i < |cands2| ::
          && |cands2[i]| >= 2 && Last(cands2[i]) in s
          && Last(cands2[i]) in visited2 && Last(cands2[i]) !in visited
          && cands2[i] == Chain(s, rank, Last(cands2[i])))
    && (forall i, j | |cands| <= i < j < |cands2| :: Last(cands2[i]) != Last(cands2[j]))
    && (forall x | x in visited2 && x !in visited && x in s && |Chain(s, rank, x)| >= 2 ::
          exists i | |cands| <= i < |cands2| :: Last(cands2[i]) == x)
  }

  lemma FoundTrans(s: Store, rank: map<Id, nat>, c0: seq<seq<Id>>, c1: seq<seq<Id>>, c2: seq<seq<Id>>,
                   v0: set<Id>, v1: set<Id>, v2: set<Id>)
    requires Ranked(s, rank) && v0 <= v1 <= v2
    requires Found(s, rank, c0, c1, v0, v1) && Found(s, rank, c1, c2, v1, v2)
    ensures Found(s, rank, c0, c2, v0, v2)
  {
    assert c2[..|c0|] == c2[..|c1|][..|c0|];
    forall i | |c0| <= i < |c1| ensures c2[i] == c1[i] {
      assert c2[..|c1|][i] == c2[i];
    }
    forall x | x in v2 && x !in v0 && x in s && |Chain(s, rank, x)| >= 2
      ensures exists i | |c0| <= i < |c2| :: Last(c2[i]) == x
    {
      if x in v1 {
        var i :| |c0| <= i < |c1| && Last(c1[i]) == x;
        assert Last(c2[i]) == x;
      }
    }
  }

  /// Closing `visit(node)`: the group of the node itself joins the list
  /// when it has two or more members.
  lemma FoundClose(s: Store, rank: map<Id, nat>, c0: seq<seq<Id>>, c1: seq<seq<Id>>, c2: seq<seq<Id>>,
                   v0: set<Id>, id: Id, v1: set<Id>)
    requires Ranked(s, rank) && id in s && id !in v0 && v0 + {id} <= v1
    requires Found(s, rank, c0, c1, v0 + {id}, v1)
    requires c2 == if |Chain(s, rank, id)| >= 2 then c1 + [Chain(s, rank, id)] else c1
    ensures Found(s, rank, c0, c2, v0, v1)
  {
    if |Chain(s, rank, id)| >= 2 {
      assert Last(c2[|c1|]) == id;
      assert c2[..|c0|] == c1[..|c0|];
      forall i | |c0| <= i < |c1| ensures c2[i] == c1[i] {
      }
    }
  }

  /// `visit(node)` of `find_fusion_candidates` (lines 92-114): a node is
  /// visited once; its inputs are visited first, then its group is added
  /// when it has two or more members.
  method Visit(g: Graph, id: Id, visited: set<Id>, cands: seq<seq<Id>>)
    returns (visited2: set<Id>, cands2: seq<seq<Id>>)
    requires g.Valid() && id in g.nodes
    decreases g.rank[id], 1
    ensures id in visited2
    ensures visited <= visited2 <= visited + Reach(g.nodes, g.rank, id)
    ensures ClosedOutside(g.nodes, visited, visited2)
    ensures Found(g.nodes, g.rank, cands, cands2, visited, visited2)
  {
    if id in visited {
      return visited, cands;
    }
    visited2, cands2 := VisitInputs(g, id, visited, cands);
    ghost var c1 := cands2;
    if g.nodes[id].inputs != [] {
      var group := BuildGroup(g, id);
      if |group| > 1 {
        cands2 := cands2 + [group];
      }
    }
    FoundClose(g.nodes, g.rank, cands, c1, cands2, visited, id, visited2);
  }

  /// The loop `for inp in node.inputs: visit(inp)` of `visit(node)`, once
  /// the node is marked visited.
  method VisitInputs(g: Graph, id: Id, visited: set<Id>, cands: seq<seq<Id>>)
    returns (visited2: set<Id>, cands2: seq<seq<Id>>)
    requires g.Valid() && id in g.nodes && id !in visited
    decreases g.rank[id], 0
    ensures visited + {id} <= visited2 <= visited + Reach(g.nodes, g.rank, id)
    ensures ClosedOutside(g.nodes, visited, visited2)
    ensures Found(g.nodes, g.rank, cands, cands2, visited + {id}, visited2)
  {
    ReachInputs(g.nodes, g.rank, id);
    visited2, cands2 := visited + {id}, cands;
    var ins := g.nodes[id].inputs;
    var k := 0;
    while k < |ins|
      invariant 0 <= k <= |ins|
      invariant visited + {id} <= visited2 <= visited + Reach(g.nodes, g.rank, id)
      invariant ClosedOutside(g.nodes, visited + {id}, visited2)
      invariant forall j | 0 <= j < k :: ins[j] in visited2
      invariant Found(g.nodes, g.rank, cands, cands2, visited + {id}, visited2)
    {
      ghost var v1, c1 := visited2, cands2;
      visited2, cands2 := Visit(g, ins[k], visited2, cands2);
      VisitStep(g.nodes, g.rank, ins, k, visited + {id}, v1, visited2, cands, c1, cands2);
      k := k + 1;
    }
  }

  /// One turn of the input loop of `visit`: what held before the turn and
  /// what the visit of `ins[k]` gives hold together after it.
  lemma VisitStep(s: Store, rank: map<Id, nat>, ins: seq<Id>, k: nat,
                  v0: set<Id>, v1: set<Id>, v2: set<Id>,
                  c0: seq<seq<Id>>, c1: seq<seq<Id>>, c2: seq<seq<Id>>)
    requires Ranked(s, rank) && k < |ins| && v0 <= v1 <= v2 && ins[k] in v2
    requires forall j | 0 <= j < k :: ins[j] in v1
    requires ClosedOutside(s, v0, v1) && ClosedOutside(s, v1, v2)
    requires Found(s, rank, c0, c1, v0, v1) && Found(s, rank, c1, c2, v1, v2)
    ensures forall j | 0 <= j <= k :: ins[j] in v2
    ensures ClosedOutside(s, v0, v2)
    ensures Found(s, rank, c0, c2, v0, v2)
  {
    ClosedOutsideTrans(s, v0, v1, v2);
    FoundTrans(s, rank, c0, c1, c2, v0, v1, v2);
    forall j | 0 <= j <= k ensures ins[j] in v2 {
      if j < k {
        assert ins[j] in v1;
      }
    }
  }

  /// `find_fusion_candidates(graph)` (lines 79-117): every group is the
  /// chain, two or more long, of a node the root reaches; no two groups end
  /// at the same node; and every node the root reaches whose chain is two or
  /// more long ends a group.
  method FindFusionCandidates(g: Graph, root: Id) returns (cands: seq<seq<Id>>)
    requires g.Valid() && root in g.nodes
    ensures forall i | 0 <= i < |cands| ::
      && |cands[i]| >= 2 && Last(cands[i]) in g.nodes && Last(cands[i]) in Reach(g.nodes, g.rank, root)
      && cands[i] == Chain(g.nodes, g.rank, Last(cands[i]))
    ensures forall i, j | 0 <= i < j < |cands| :: Last(cands[i]) != Last(cands[j])
    ensures forall x | x in Reach(g.nodes, g.rank, root) && x in g.nodes && |Chain(g.nodes, g.rank, x)| >= 2 ::
      exists i | 0 <= i < |cands| :: Last(cands[i]) == x
  {
    var visited;
    visited, cands := Visit(g, root, {}, []);
    ClosedHoldsReach(g.nodes, g.rank, visited, root);
  }

  /// A group of two or more found by the search always fuses: its first two
  /// members form a pair of the table.
  lemma ChainFusable(s: Store, rank: map<Id, nat>, x: Id)
    requires Ranked(s, rank) && x in s && |Chain(s, rank, x)| >= 2
    ensures Fusable(s, Chain(s, rank, x))
  {
    var c := Chain(s, rank, x);
    assert Linked(s, c[0], c[1]);
    forall k | 0 <= k < |c| ensures c[k] in s {
      if k < |c| - 1 {
        assert Linked(s, c[k], c[k + 1]);
      }
    }
  }

  // ---------------------------------------------------------------------
  // create_fused_op (lines 46-77)
  // ---------------------------------------------------------------------

  /// A group whose members are nodes of `s` and whose first two operators
  /// form a pair of the table.
  ghost predicate Fusable(s: Store, ops: seq<Id>) {
    && |ops| >= 2 && (forall k | 0 <= k < |ops| :: ops[k] in s)
    && (s[ops[0]].op, s[ops[1]].op) in FusionPatterns
  }

  /// The arguments `Node(...)` receives when every input is a node.
  function Refs(ids: seq<Id>): (r: seq<Arg>)
    ensures |r| == |ids| && forall k | 0 <= k < |ids| :: r[k] == Ref(ids[k])
  {
    seq(|ids|, k requires 0 <= k < |ids| => Ref(ids[k]))
  }

  /// The inputs `xs` other than `first`, in order.
  function Without(xs: seq<Id>, first: Id): (r: seq<Id>)
    ensures multiset(r) == multiset(xs)[first := 0]
    ensures forall x :: x in r <==> x in xs && x != first
  {
    if xs == [] then []
    else
      assert xs == [xs[0]] + xs[1..];
      (if xs[0] == first then [] else [xs[0]]) + Without(xs[1..], first)
  }

  /// `[inp for op in rest for inp in op.inputs if inp != first]`.
  function Later(s: Store, rest: seq<Id>, first: Id): (r: seq<Id>)
    requires forall k | 0 <= k < |rest| :: rest[k] in s
    ensures forall x :: x in r <==> x != first && exists k | 0 <= k < |rest| :: x in s[rest[k]].inputs
  {
    if rest == [] then []
    else
      var r := Without(s[rest[0]].inputs, first) + Later(s, rest[1..], first);
      assert forall x | x != first && (exists k | 0 <= k < |rest| :: x in s[rest[k]].inputs) :: x in r by {
        forall x | x != first && (exists k | 0 <= k < |rest| :: x in s[rest[k]].inputs) ensures x in r {
          var k :| 0 <= k < |rest| && x in s[rest[k]].inputs;
          if k > 0 {
            assert rest[1..][k - 1] == rest[k];
          }
        }
      }
      r
  }

  /// The inputs of the fused node (line 68): the first member's inputs, then
  /// those of the other members except the first member itself.
  function FusedInputs(s: Store, ops: seq<Id>): (r: seq<Id>)
    requires ops != [] && forall k | 0 <= k < |ops| :: ops[k] in s
    ensures |s[ops[0]].inputs| <= |r| && r[..|s[ops[0]].inputs|] == s[ops[0]].inputs
    ensures forall x :: x in r <==>
      x in s[ops[0]].inputs || (x != ops[0] && exists k | 1 <= k < |ops| :: x in s[ops[k]].inputs)
  {
    var r := s[ops[0]].inputs + Later(s, ops[1..], ops[0]);
    assert forall x | x != ops[0] && (exists k | 1 <= k < |ops| :: x in s[ops[k]].inputs) :: x in r by {
      forall x | x != ops[0] && (exists k | 1 <= k < |ops| :: x in s[ops[k]].inputs) ensures x in r {
        var k :| 1 <= k < |ops| && x in s[ops[k]].inputs;
        assert ops[1..][k - 1] == ops[k];
      }
    }
    r
  }

  /// The fused inputs are nodes of the graph.
  lemma FusedInputsIn(s: Store, rank: map<Id, nat>, ops: seq<Id>)
    requires Ranked(s, rank) && ops != [] && forall k | 0 <= k < |ops| :: ops[k] in s
    ensures forall k | 0 <= k < |FusedInputs(s, ops)| :: FusedInputs(s, ops)[k] in s
  {
    var r := FusedInputs(s, ops);
    forall k | 0 <= k < |r| ensures r[k] in s {
      var x := r[k];
      assert x in r;
      if x in s[ops[0]].inputs {
        var j :| 0 <= j < |s[ops[0]].inputs| && s[ops[0]].inputs[j] == x;
      } else {
        var i :| 1 <= i < |ops| && x in s[ops[i]].inputs;
        var j :| 0 <= j < |s[ops[i]].inputs| && s[ops[i]].inputs[j] == x;
      }
    }
  }

  /// `[op.op for op in ops]`.
  function OpsOf(s: Store, ops: seq<Id>): (r: seq<Op>)
    requires forall k | 0 <= k < |ops| :: ops[k] in s
    ensures |r| == |ops| && forall k | 0 <= k < |ops| :: r[k] == s[ops[k]].op
  {
    if ops == [] then [] else [s[ops[0]].op] + OpsOf(s, ops[1..])
  }

  /// The metadata of the fused node (lines 71-75): the members' operators,
  /// the members themselves, and the first member's shape (None if it has
  /// none).
  function FusedMetadata(s: Store, ops: seq<Id>): Metadata
    requires ops != [] && forall k | 0 <= k < |ops| :: ops[k] in s
  {
    map["fused_ops" := OpNames(OpsOf(s, ops)),
        "original_nodes" := NodeRefs(ops),
        "shape" := if "shape" in s[ops[0]].metadata then s[ops[0]].metadata["shape"] else NoValue]
  }

  /// Node `f` of `t` is the fused node of group `ops` of `s`: the table's
  /// operator for the first pair, the fused inputs, no value or gradient,
  /// and the fused metadata.
  ghost predicate FusedNode(t: Store, f: Id, s: Store, ops: seq<Id>) {
    && Fusable(s, ops)
    && f in t && t[f].op == Fused(FusionPatterns[(s[ops[0]].op, s[ops[1]].op)])
    && t[f].inputs == FusedInputs(s, ops) && t[f].value.None? && t[f].grad.None?
    && t[f].metadata == FusedMetadata(s, ops)
  }

  /// Every node of `s` is still in `t`, and only its reference count may
  /// differ.
  ghost predicate Recounted(s: Store, t: Store) {
    forall m | m in s :: m in t && t[m] == s[m].(refCount := t[m].refCount)
  }

  /// `t` is `s` with node `id` added over `ins`: each node of `s` holds one
  /// more reference per occurrence in `ins`, and nothing else changes.
  ghost predicate Attached(s: Store, t: Store, id: Id, ins: seq<Id>) {
    && id !in s && id in t && t[id].inputs == ins && t.Keys == s.Keys + {id}
    && forall m | m in s :: t[m] == s[m].(refCount := s[m].refCount + multiset(ins)[m])
  }

  lemma CreatedRefs(s: Store, t: Store, id: Id, op: Op, ins: seq<Id>, value: Option<real>)
    requires Created(s, t, id, op, Refs(ins), value)
    requires forall k | 0 <= k < |ins| :: ins[k] in s
    ensures Attached(s, t, id, ins) && t[id] == Node(op, ins, value, None, 0, map[])
  {
    var args := Refs(ins);
    assert |t[id].inputs| == |ins|;
    forall k | 0 <= k < |ins| ensures t[id].inputs[k] == ins[k] {
      assert args[k].Ref? && args[k].id == ins[k];
    }
    assert t[id].inputs == ins;
    forall m | m in t ensures m in s || m == id {
      if m in ins {
        var k :| 0 <= k < |ins| && ins[k] == m;
      }
    }
  }

  /// `create_fused_op(ops)` (lines 46-77): an empty list fails on `ops[0]`;
  /// a single node, or a first pair the table lacks, gives the first member
  /// back; otherwise a new node of the table's fused operator joins the
  /// graph over the members' inputs.
  method CreateFusedOp(g: Graph, ops: seq<Id>) returns (r: Result<Id, Error>)
    requires g.Valid() && forall k | 0 <= k < |ops| :: ops[k] in g.nodes
    modifies g
    ensures g.Valid() && RankKept(old(g.nodes), old(g.rank), g.rank)
    ensures ops == [] ==> r == Err(IndexError)
    ensures ops != [] && !Fusable(old(g.nodes), ops) ==> r == Ok(ops[0])
    ensures !Fusable(old(g.nodes), ops) ==> g.nodes == old(g.nodes)
    ensures Fusable(old(g.nodes), ops) ==>
      && r.Ok? && Attached(old(g.nodes), g.nodes, r.value, FusedInputs(old(g.nodes), ops))
      && FusedNode(g.nodes, r.value, old(g.nodes), ops)
  {
    if |ops| == 0 {
      return Err(IndexError);
    }
    if |ops| < 2 {
      return Ok(ops[0]);
    }
    var pattern := (g.nodes[ops[0]].op, g.nodes[ops[1]].op);
    if pattern !in FusionPatterns {
      return Ok(ops[0]);
    }
    var ins := FusedInputs(g.nodes, ops);
    FusedInputsIn(g.nodes, g.rank, ops);
    var metadata := FusedMetadata(g.nodes, ops);
    ghost var s0 := g.nodes;
    var id := g.NewNode(Fused(FusionPatterns[pattern]), Refs(ins), None);
    CreatedRefs(s0, g.nodes, id, Fused(FusionPatterns[pattern]), ins, None);
    ghost var s1 := g.nodes;
    g.SetMetadata(id, metadata);
    FusedCreated(s0, s1, g.nodes, id, ops);
    r := Ok(id);
  }

  lemma FusedCreated(s0: Store, s1: Store, s2: Store, id: Id, ops: seq<Id>)
    requires Fusable(s0, ops)
    requires Attached(s0, s1, id, FusedInputs(s0, ops))
    requires s1[id] == Node(Fused(FusionPatterns[(s0[ops[0]].op, s0[ops[1]].op)]), FusedInputs(s0, ops), None, None, 0, map[])
    requires s2 == s1[id := s1[id].(metadata := FusedMetadata(s0, ops))]
    ensures Attached(s0, s2, id, FusedInputs(s0, ops)) && FusedNode(s2, id, s0, ops)
  {
  }

  /// Recounting changes neither a group's fused inputs nor its metadata.
  lemma {:induction false} LaterSame(s: Store, t: Store, rest: seq<Id>, first: Id)
    requires (forall k | 0 <= k < |rest| :: rest[k] in s) && Recounted(s, t)
    ensures Later(t, rest, first) == Later(s, rest, first)
  {
    if rest != [] {
      LaterSame(s, t, rest[1..], first);
    }
  }

  lemma {:induction false} OpsOfSame(s: Store, t: Store, ops: seq<Id>)
    requires (forall k | 0 <= k < |ops| :: ops[k] in s) && Recounted(s, t)
    ensures OpsOf(t, ops) == OpsOf(s, ops)
  {
  }

  lemma FusedSame(s: Store, t: Store, ops: seq<Id>)
    requires Fusable(s, ops) && Recounted(s, t)
    ensures Fusable(t, ops)
    ensures FusedInputs(t, ops) == FusedInputs(s, ops) && FusedMetadata(t, ops) == FusedMetadata(s, ops)
  {
    LaterSame(s, t, ops[1..], ops[0]);
    OpsOfSame(s, t, ops);
  }

  // ---------------------------------------------------------------------
  // optimize (lines 119-166)
  // ---------------------------------------------------------------------

  /// The replacement map of lines 138-142 as written: every member of every
  /// group is sent to its group's fused node, a later group overriding an
  /// earlier one.
  function Mapping(cs: seq<seq<Id>>, fs: seq<Id>): map<Id, Id>
    requires |cs| == |fs|
  {
    if cs == [] then map[]
    else
      Assign(Mapping(cs[..|cs| - 1], fs[..|fs| - 1]), cs[|cs| - 1], fs[|fs| - 1])
  }

  /// `for old_node in group: replacements[old_node.id] = fused`.
  function Assign(m: map<Id, Id>, xs: seq<Id>, f: Id): map<Id, Id>
    decreases xs
  {
    if xs == [] then m else Assign(m[xs[0] := f], xs[1..], f)
  }

  /// Assigning a group adds its members, all sent to the fused node, and
  /// leaves the other entries as they were.
  lemma {:induction false} AssignSends(m: map<Id, Id>, xs: seq<Id>, f: Id)
    ensures forall x :: x in Assign(m, xs, f) <==> x in m || x in xs
    ensures forall x | x in Assign(m, xs, f) :: Assign(m, xs, f)[x] == if x in xs then f else m[x]
    decreases xs
  {
    if xs != [] {
      AssignSends(m[xs[0] := f], xs[1..], f);
      assert forall x :: x in xs <==> x == xs[0] || x in xs[1..];
    }
  }

  /// As written, the map holds every member of every group, and sends it to
  /// the fused node of the last group holding it.
  lemma {:induction false} MappingLatest(cs: seq<seq<Id>>, fs: seq<Id>, i: nat, x: Id)
    requires |cs| == |fs| && i < |cs| && x in cs[i]
    requires forall j | i < j < |cs| :: x !in cs[j]
    ensures x in Mapping(cs, fs) && Mapping(cs, fs)[x] == fs[i]
  {
    var n := |cs| - 1;
    AssignSends(Mapping(cs[..n], fs[..n]), cs[n], fs[n]);
    if i < n {
      assert cs[..n][i] == cs[i] && fs[..n][i] == fs[i];
      MappingLatest(cs[..n], fs[..n], i, x);
    }
  }

  /// As written, a node is in the map exactly when some group holds it.
  lemma {:induction false} MappingKeys(cs: seq<seq<Id>>, fs: seq<Id>, x: Id)
    requires |cs| == |fs|
    ensures x in Mapping(cs, fs) <==> exists i | 0 <= i < |cs| :: x in cs[i]
  {
    if cs != [] {
      var n := |cs| - 1;
      AssignSends(Mapping(cs[..n], fs[..n]), cs[n], fs[n]);
      MappingKeys(cs[..n], fs[..n], x);
      if x in Mapping(cs[..n], fs[..n]) {
        var i :| 0 <= i < n && x in cs[..n][i];
        assert cs[..n][i] == cs[i];
      }
      if exists i | 0 <= i < |cs| :: x in cs[i] {
        var i :| 0 <= i < |cs| && x in cs[i];
        if i < n {
          assert cs[..n][i] == cs[i];
        }
      }
    }
  }

  /// The replacement map with the correction of the Findings: only the last
  /// member of a group, the node whose result the fused node computes, is
  /// sent to the fused node.
  function OutputMapping(cs: seq<seq<Id>>, fs: seq<Id>): map<Id, Id>
    requires |cs| == |fs| && forall i | 0 <= i < |cs| :: cs[i] != []
  {
    if cs == [] then map[]
    else OutputMapping(cs[..|cs| - 1], fs[..|fs| - 1])[Last(cs[|cs| - 1]) := fs[|fs| - 1]]
  }

  /// The corrected map holds the last members of the groups, and nothing
  /// else.
  lemma {:induction false} OutputMappingKeys(cs: seq<seq<Id>>, fs: seq<Id>)
    requires |cs| == |fs| && forall i | 0 <= i < |cs| :: cs[i] != []
    ensures forall x :: x in OutputMapping(cs, fs) <==> exists i | 0 <= i < |cs| :: Last(cs[i]) == x
  {
    if cs != [] {
      var n := |cs| - 1;
      OutputMappingKeys(cs[..n], fs[..n]);
      forall x | x in OutputMapping(cs, fs) ensures exists i | 0 <= i < |cs| :: Last(cs[i]) == x {
        if x != Last(cs[n]) {
          assert x in OutputMapping(cs[..n], fs[..n]);
          var i :| 0 <= i < |cs[..n]| && Last(cs[..n][i]) == x;
          assert cs[..n][i] == cs[i];
        }
      }
      forall x | exists i | 0 <= i < |cs| :: Last(cs[i]) == x ensures x in OutputMapping(cs, fs) {
        var i :| 0 <= i < |cs| && Last(cs[i]) == x;
        if i < n {
          assert cs[..n][i] == cs[i];
        }
      }
    }
  }

  /// With groups ending at distinct nodes, the corrected map sends the last
  /// member of each group to that group's fused node.
  lemma {:induction false} OutputMappingSends(cs: seq<seq<Id>>, fs: seq<Id>)
    requires |cs| == |fs| && forall i | 0 <= i < |cs| :: cs[i] != []
    requires forall i, j | 0 <= i < j < |cs| :: Last(cs[i]) != Last(cs[j])
    ensures forall i | 0 <= i < |cs| :: Last(cs[i]) in OutputMapping(cs, fs) && OutputMapping(cs, fs)[Last(cs[i])] == fs[i]
  {
    if cs != [] {
      var n := |cs| - 1;
      OutputMappingSends(cs[..n], fs[..n]);
      forall i | 0 <= i < |cs| ensures Last(cs[i]) in OutputMapping(cs, fs) && OutputMapping(cs, fs)[Last(cs[i])] == fs[i] {
        if i < n {
          assert cs[..n][i] == cs[i] && fs[..n][i] == fs[i];
        }
      }
    }
  }

  /// The loop of lines 138-142, corrected as the Findings say: each group
  /// gets its fused node, and the group's last member is sent to it.
  method Replacements(g: Graph, cands: seq<seq<Id>>) returns (repl: map<Id, Id>, fused: seq<Id>)
    requires g.Valid() && forall i | 0 <= i < |cands| :: |cands[i]| >= 2 && Fusable(g.nodes, cands[i])
    modifies g
    ensures g.Valid() && RankKept(old(g.nodes), old(g.rank), g.rank) && Recounted(old(g.nodes), g.nodes)
    ensures |fused| == |cands| && repl == OutputMapping(cands, fused)
    ensures forall i | 0 <= i < |cands| ::
      fused[i] !in old(g.nodes) && FusedNode(g.nodes, fused[i], old(g.nodes), cands[i])
  {
    repl, fused := map[], [];
    var i := 0;
    while i < |cands|
      invariant 0 <= i <= |cands| && |fused| == i
      invariant g.Valid() && RankKept(old(g.nodes), old(g.rank), g.rank) && Recounted(old(g.nodes), g.nodes)
      invariant repl == OutputMapping(cands[..i], fused)
      invariant forall j | 0 <= j < i ::
        fused[j] !in old(g.nodes) && FusedNode(g.nodes, fused[j], old(g.nodes), cands[j])
    {
      var f := FuseNext(g, cands, i, fused, old(g.nodes), old(g.rank));
      OutputMappingStep(cands, i, fused, f);
      repl := repl[Last(cands[i]) := f];
      fused := fused + [f];
      i := i + 1;
    }
    assert cands[..i] == cands;
  }

  /// Line 140 in one turn of the loop: the fused node of group `i`.
  method FuseNext(g: Graph, cands: seq<seq<Id>>, i: nat, fused: seq<Id>, ghost s0: Store, ghost r0: map<Id, nat>)
    returns (f: Id)
    requires g.Valid() && i < |cands| && |fused| == i
    requires forall j | 0 <= j < |cands| :: |cands[j]| >= 2 && Fusable(s0, cands[j])
    requires RankKept(s0, r0, g.rank) && Recounted(s0, g.nodes)
    requires forall j | 0 <= j < i :: fused[j] !in s0 && FusedNode(g.nodes, fused[j], s0, cands[j])
    modifies g
    ensures g.Valid() && RankKept(s0, r0, g.rank) && Recounted(s0, g.nodes)
    ensures forall j | 0 <= j < i + 1 :: (fused + [f])[j] !in s0 && FusedNode(g.nodes, (fused + [f])[j], s0, cands[j])
  {
    ghost var s1, r1 := g.nodes, g.rank;
    FusedSame(s0, s1, cands[i]);
    var r := CreateFusedOp(g, cands[i]);
    f := r.value;
    FusedStep(s0, s1, g.nodes, cands, i, fused, f);
  }

  /// One turn of the loop of lines 139-142: the fused nodes made so far
  /// survive the new one, and the new one is the fused node of its group.
  lemma FusedStep(s0: Store, s1: Store, s2: Store, cands: seq<seq<Id>>, i: nat, fused: seq<Id>, f: Id)
    requires i < |cands| && |fused| == i && Recounted(s0, s1)
    requires forall j | 0 <= j < |cands| :: Fusable(s0, cands[j])
    requires forall j | 0 <= j < i :: fused[j] !in s0 && FusedNode(s1, fused[j], s0, cands[j])
    requires Fusable(s1, cands[i])
    requires Attached(s1, s2, f, FusedInputs(s1, cands[i])) && FusedNode(s2, f, s1, cands[i])
    ensures Recounted(s0, s2)
    ensures forall j | 0 <= j < i + 1 :: (fused + [f])[j] !in s0 && FusedNode(s2, (fused + [f])[j], s0, cands[j])
  {
    AttachedRecounts(s0, s1, s2, f, FusedInputs(s1, cands[i]));
    forall j | 0 <= j < i + 1 ensures (fused + [f])[j] !in s0 && FusedNode(s2, (fused + [f])[j], s0, cands[j]) {
      if j < i {
        assert (fused + [f])[j] == fused[j];
        FusedNodeKept(s0, s1, s2, fused[j], cands[j]);
      } else {
        FusedNodeRebased(s0, s1, s2, f, cands[i]);
      }
    }
  }

  lemma AttachedRecounts(s0: Store, s1: Store, s2: Store, f: Id, ins: seq<Id>)
    requires Recounted(s0, s1) && Attached(s1, s2, f, ins)
    ensures f !in s0 && Recounted(s0, s2)
  {
  }

  lemma FusedNodeRebased(s0: Store, s1: Store, t: Store, f: Id, ops: seq<Id>)
    requires Fusable(s0, ops) && Recounted(s0, s1) && Fusable(s1, ops) && FusedNode(t, f, s1, ops)
    ensures FusedNode(t, f, s0, ops)
  {
    FusedSame(s0, s1, ops);
  }

  lemma FusedNodeKept(s: Store, t: Store, t2: Store, f: Id, ops: seq<Id>)
    requires FusedNode(t, f, s, ops) && Recounted(t, t2)
    ensures FusedNode(t2, f, s, ops)
  {
  }

  lemma OutputMappingStep(cs: seq<seq<Id>>, i: nat, fs: seq<Id>, f: Id)
    requires i < |cs| && |fs| == i && forall j | 0 <= j < |cs| :: cs[j] != []
    ensures OutputMapping(cs[..i + 1], fs + [f]) == OutputMapping(cs[..i], fs)[Last(cs[i]) := f]
  {
    assert cs[..i + 1][..i] == cs[..i];
    assert (fs + [f])[..i] == fs;
  }

  /// Node `f` of `t` is a fused node whose recorded group ends at `x`: it
  /// computes what `x` computed.
  ghost predicate Represents(t: Store, f: Id, x: Id) {
    && f in t && t[f].op.Fused? && "original_nodes" in t[f].metadata
    && t[f].metadata["original_nodes"].NodeRefs? && t[f].metadata["original_nodes"].ids != []
    && Last(t[f].metadata["original_nodes"].ids) == x
  }

  /// Every node the map replaces is a node of `s`, and its replacement in
  /// `t` is a fused node standing for it.
  ghost predicate ReplOk(s: Store, t: Store, repl: map<Id, Id>) {
    forall x | x in repl :: x in s && Represents(t, repl[x], x)
  }

  /// `y` of `t` stands for `x` of the graph `s` before the pass: it is `x`
  /// itself, a fused node whose group ends at `x`, or a copy of `x` (same
  /// operator and metadata, no value) whose inputs stand for `x`'s inputs,
  /// in order.
  ghost predicate Stands(s: Store, rank: map<Id, nat>, t: Store, x: Id, y: Id)
    requires Ranked(s, rank) && x in s
    decreases rank[x]
  {
    || y == x
    || Represents(t, y, x)
    || (&& y in t && t[y].op == s[x].op && t[y].metadata == s[x].metadata && t[y].value.None?
        && |t[y].inputs| == |s[x].inputs|
        && forall k | 0 <= k < |s[x].inputs| :: Stands(s, rank, t, s[x].inputs[k], t[y].inputs[k]))
  }

  /// Each of `ys` is a node of `t` standing for the same position of `xs`.
  ghost predicate StandsAll(s: Store, rank: map<Id, nat>, t: Store, xs: seq<Id>, ys: seq<Id>)
    requires Ranked(s, rank)
  {
    && |xs| == |ys|
    && forall k | 0 <= k < |xs| :: xs[k] in s && ys[k] in t && Stands(s, rank, t, xs[k], ys[k])
  }

  /// Recounting keeps what a node stands for.
  lemma {:induction false} StandsKept(s: Store, rank: map<Id, nat>, t: Store, t2: Store, x: Id, y: Id)
    requires Ranked(s, rank) && x in s && Recounted(t, t2) && Stands(s, rank, t, x, y)
    ensures Stands(s, rank, t2, x, y)
    decreases rank[x]
  {
    if y != x && !Represents(t, y, x) {
      forall k | 0 <= k < |s[x].inputs| ensures Stands(s, rank, t2, s[x].inputs[k], t2[y].inputs[k]) {
        StandsKept(s, rank, t, t2, s[x].inputs[k], t[y].inputs[k]);
      }
    }
  }

  lemma StandsAllKept(s: Store, rank: map<Id, nat>, t: Store, t2: Store, xs: seq<Id>, ys: seq<Id>)
    requires Ranked(s, rank) && Recounted(t, t2) && StandsAll(s, rank, t, xs, ys)
    ensures StandsAll(s, rank, t2, xs, ys)
  {
    forall k | 0 <= k < |xs| ensures ys[k] in t2 && Stands(s, rank, t2, xs[k], ys[k]) {
      StandsKept(s, rank, t, t2, xs[k], ys[k]);
    }
  }

  /// What `replace_node` makes of a node, before ids are given to the copies:
  /// an existing node, or a copy with an operator, inputs and metadata.
  datatype Replica = Kept(id: Id) | Copy(op: Op, inputs: seq<Replica>, metadata: Metadata)

  /// `replace_node(x, visited)` (lines 145-161) on the graph `s` before the
  /// pass: a node seen before gives its replacement or itself; a replaced
  /// node gives its replacement; any other node has its inputs replaced in
  /// order and is copied when one of them changed.
  function Replaced(s: Store, ghost rank: map<Id, nat>, repl: map<Id, Id>, x: Id, visited: set<Id>): (Replica, set<Id>)
    requires Ranked(s, rank) && x in s
    decreases rank[x], 1
  {
    if x in visited then (Kept(if x in repl then repl[x] else x), visited)
    else if x in repl then (Kept(repl[x]), visited + {x})
    else
      var (rs, v) := ReplacedUpTo(s, rank, repl, x, |s[x].inputs|, visited + {x});
      (if rs == KeptAll(s[x].inputs) then Kept(x) else Copy(s[x].op, rs, s[x].metadata), v)
  }

  /// Line 154, `[replace_node(inp, visited) for inp in node.inputs]`, over
  /// the first `n` inputs of `x`.
  function ReplacedUpTo(s: Store, ghost rank: map<Id, nat>, repl: map<Id, Id>, x: Id, n: nat, visited: set<Id>): (seq<Replica>, set<Id>)
    requires Ranked(s, rank) && x in s && n <= |s[x].inputs|
    decreases rank[x], 0, n
  {
    if n == 0 then ([], visited)
    else
      var (rs, v) := ReplacedUpTo(s, rank, repl, x, n - 1, visited);
      var (r, v2) := Replaced(s, rank, repl, s[x].inputs[n - 1], v);
      (rs + [r], v2)
  }

  function KeptAll(xs: seq<Id>): (r: seq<Replica>)
    ensures |r| == |xs| && forall k | 0 <= k < |xs| :: r[k] == Kept(xs[k])
  {
    seq(|xs|, k requires 0 <= k < |xs| => Kept(xs[k]))
  }

  /// Node `y` of `t` is what `rp` describes: the very node it keeps, or a
  /// node new to `t` since `s` with the copy's operator and metadata, no
  /// value or gradient, and inputs that are what the copy's inputs describe.
  ghost predicate Realizes(s: Store, t: Store, y: Id, rp: Replica)
    decreases rp
  {
    match rp
    case Kept(z) => y == z
    case Copy(op, rs, md) =>
      && y !in s && y in t && t[y].op == op && t[y].metadata == md
      && t[y].value.None? && t[y].grad.None? && |t[y].inputs| == |rs|
      && forall k | 0 <= k < |rs| :: Realizes(s, t, t[y].inputs[k], rs[k])
  }

  lemma {:induction false} RealizesKept(s: Store, t: Store, t2: Store, y: Id, rp: Replica)
    requires Realizes(s, t, y, rp) && Recounted(t, t2)
    ensures Realizes(s, t2, y, rp)
    decreases rp
  {
    if rp.Copy? {
      forall k | 0 <= k < |rp.inputs| ensures Realizes(s, t2, t2[y].inputs[k], rp.inputs[k]) {
        RealizesKept(s, t, t2, t[y].inputs[k], rp.inputs[k]);
      }
    }
  }

  /// Nodes described by replicas are the nodes of `s` they stand at exactly
  /// when every replica keeps its node.
  lemma KeptIff(s: Store, t: Store, xs: seq<Id>, ys: seq<Id>, rs: seq<Replica>)
    requires |xs| == |ys| == |rs| && forall k | 0 <= k < |xs| :: xs[k] in s && Realizes(s, t, ys[k], rs[k])
    ensures ys == xs <==> rs == KeptAll(xs)
  {
    if ys == xs {
      forall k | 0 <= k < |xs| ensures rs[k] == Kept(xs[k]) {
        assert Realizes(s, t, ys[k], rs[k]);
      }
    }
  }

  /// `replace_node(node, visited)` (lines 145-161), over the nodes of `s`,
  /// the graph before the pass: a node seen before gives its replacement or
  /// itself; a replaced node gives its replacement; any other node has its
  /// inputs replaced in order and, when one of them changed, is copied over
  /// the new inputs with its metadata. The result stands for the node.
  method ReplaceNode(g: Graph, ghost s: Store, ghost rank: map<Id, nat>, id: Id,
                     visited: set<Id>, repl: map<Id, Id>)
    returns (r: Id, visited2: set<Id>, ghost rp: Replica)
    requires g.Valid() && Ranked(s, rank) && id in s && Recounted(s, g.nodes) && ReplOk(s, g.nodes, repl)
    modifies g
    decreases rank[id], 1
    ensures g.Valid() && RankKept(old(g.nodes), old(g.rank), g.rank) && Recounted(old(g.nodes), g.nodes)
    ensures (rp, visited2) == Replaced(s, rank, repl, id, visited) && Realizes(s, g.nodes, r, rp)
    ensures visited + {id} <= visited2
    ensures r in g.nodes && Stands(s, rank, g.nodes, id, r)
    ensures id in visited ==> visited2 == visited && g.nodes == old(g.nodes) && r == if id in repl then repl[id] else id
    ensures id !in visited && id in repl ==> g.nodes == old(g.nodes) && r == repl[id]
  {
    if id in visited {
      r := if id in repl then repl[id] else id;
      return r, visited, Kept(r);
    }
    visited2 := visited + {id};
    if id in repl {
      return repl[id], visited2, Kept(repl[id]);
    }
    var newInputs;
    ghost var rs;
    newInputs, visited2, rs := ReplaceInputs(g, s, rank, id, visited2, repl);
    KeptIff(s, g.nodes, s[id].inputs, newInputs, rs);
    if newInputs != g.nodes[id].inputs {
      ghost var t := g.nodes;
      r := Rebuild(g, s, rank, id, newInputs);
      rp := Copy(s[id].op, rs, s[id].metadata);
      forall j | 0 <= j < |rs| ensures Realizes(s, g.nodes, newInputs[j], rs[j]) {
        RealizesKept(s, t, g.nodes, newInputs[j], rs[j]);
      }
    } else {
      r, rp := id, Kept(id);
    }
  }

  /// Line 154: the inputs of `id` replaced in order, each call seeing the
  /// nodes the calls before it visited.
  method ReplaceInputs(g: Graph, ghost s: Store, ghost rank: map<Id, nat>, id: Id,
                       visited: set<Id>, repl: map<Id, Id>)
    returns (newInputs: seq<Id>, visited2: set<Id>, ghost rs: seq<Replica>)
    requires g.Valid() && Ranked(s, rank) && id in s && Recounted(s, g.nodes) && ReplOk(s, g.nodes, repl)
    modifies g
    decreases rank[id], 0
    ensures g.Valid() && RankKept(old(g.nodes), old(g.rank), g.rank) && Recounted(old(g.nodes), g.nodes)
    ensures Recounted(s, g.nodes) && ReplOk(s, g.nodes, repl) && visited <= visited2
    ensures (rs, visited2) == ReplacedUpTo(s, rank, repl, id, |s[id].inputs|, visited)
    ensures StandsAll(s, rank, g.nodes, s[id].inputs, newInputs)
    ensures |rs| == |newInputs| && forall j | 0 <= j < |rs| :: Realizes(s, g.nodes, newInputs[j], rs[j])
  {
    var ins := g.nodes[id].inputs;
    newInputs, visited2, rs := [], visited, [];
    var k := 0;
    while k < |ins|
      invariant 0 <= k <= |ins| && ins == s[id].inputs
      invariant g.Valid() && RankKept(old(g.nodes), old(g.rank), g.rank) && Recounted(old(g.nodes), g.nodes)
      invariant Recounted(s, g.nodes) && ReplOk(s, g.nodes, repl)
      invariant visited <= visited2
      invariant StandsAll(s, rank, g.nodes, ins[..k], newInputs)
      invariant (rs, visited2) == ReplacedUpTo(s, rank, repl, id, k, visited)
      invariant |rs| == k && forall j | 0 <= j < k :: Realizes(s, g.nodes, newInputs[j], rs[j])
    {
      ghost var t := g.nodes;
      var x;
      ghost var rx;
      x, visited2, rx := ReplaceNode(g, s, rank, ins[k], visited2, repl);
      ReplaceStep(s, rank, old(g.nodes), t, g.nodes, repl, ins, k, newInputs, x);
      RealizesStep(s, t, g.nodes, newInputs, rs, x, rx);
      newInputs, rs := newInputs + [x], rs + [rx];
      k := k + 1;
    }
    assert ins[..k] == ins;
  }

  lemma RealizesStep(s: Store, t: Store, t2: Store, ys: seq<Id>, rs: seq<Replica>, y: Id, r: Replica)
    requires |rs| == |ys| && forall j | 0 <= j < |rs| :: Realizes(s, t, ys[j], rs[j])
    requires Recounted(t, t2) && Realizes(s, t2, y, r)
    ensures forall j | 0 <= j < |rs| + 1 :: Realizes(s, t2, (ys + [y])[j], (rs + [r])[j])
  {
    forall j | 0 <= j < |rs| ensures Realizes(s, t2, ys[j], rs[j]) {
      RealizesKept(s, t, t2, ys[j], rs[j]);
    }
  }

  /// One turn of `[replace_node(inp, visited) for inp in node.inputs]`.
  lemma ReplaceStep(s: Store, rank: map<Id, nat>, t0: Store, t1: Store, t2: Store, repl: map<Id, Id>,
                    ins: seq<Id>, k: nat, ys: seq<Id>, y: Id)
    requires Ranked(s, rank) && k < |ins| && ins[k] in s
    requires Recounted(s, t0) && Recounted(t0, t1) && Recounted(t1, t2) && ReplOk(s, t1, repl)
    requires StandsAll(s, rank, t1, ins[..k], ys)
    requires y in t2 && Stands(s, rank, t2, ins[k], y)
    ensures Recounted(t0, t2) && Recounted(s, t2) && ReplOk(s, t2, repl)
    ensures StandsAll(s, rank, t2, ins[..k + 1], ys + [y])
  {
    StandsAllKept(s, rank, t1, t2, ins[..k], ys);
    assert ins[..k + 1] == ins[..k] + [ins[k]];
  }

  /// Lines 156-159: a copy of node `id` over `ins`, with its metadata.
  method Rebuild(g: Graph, ghost s: Store, ghost rank: map<Id, nat>, id: Id, ins: seq<Id>) returns (r: Id)
    requires g.Valid() && Ranked(s, rank) && id in s && Recounted(s, g.nodes) && id in g.nodes
    requires StandsAll(s, rank, g.nodes, s[id].inputs, ins)
    modifies g
    ensures g.Valid() && RankKept(old(g.nodes), old(g.rank), g.rank)
    ensures Attached(old(g.nodes), g.nodes, r, ins)
    ensures g.nodes[r] == Node(s[id].op, ins, None, None, 0, s[id].metadata)
    ensures Recounted(old(g.nodes), g.nodes) && Stands(s, rank, g.nodes, id, r)
  {
    ghost var t := g.nodes;
    forall k | 0 <= k < |ins| ensures ins[k] in g.nodes {
    }
    r := g.NewNode(g.nodes[id].op, Refs(ins), None);
    CreatedRefs(t, g.nodes, r, t[id].op, ins, None);
    ghost var t1 := g.nodes;
    g.SetMetadata(r, g.nodes[id].metadata);
    Rebuilt(s, rank, t, t1, g.nodes, id, r, ins);
  }

  lemma Rebuilt(s: Store, rank: map<Id, nat>, t: Store, t1: Store, t2: Store, id: Id, r: Id, ins: seq<Id>)
    requires Ranked(s, rank) && id in s && Recounted(s, t) && id in t
    requires StandsAll(s, rank, t, s[id].inputs, ins)
    requires Attached(t, t1, r, ins) && t1[r] == Node(t[id].op, ins, None, None, 0, map[])
    requires t2 == t1[r := t1[r].(metadata := t1[id].metadata)]
    ensures Attached(t, t2, r, ins) && t2[r] == Node(s[id].op, ins, None, None, 0, s[id].metadata)
    ensures Recounted(t, t2) && Stands(s, rank, t2, id, r)
  {
    StandsAllKept(s, rank, t, t2, s[id].inputs, ins);
  }

  /// What `optimize(graph)` (lines 119-166) does with the corrected
  /// replacement map `repl`, from store `s` to store `t`, returning `r`: when
  /// no node the root reaches ends a chain of two or more, the store is
  /// untouched and the root comes back; otherwise `repl` sends exactly the
  /// reachable chain ends to their fresh fused nodes, the fused node of the
  /// root's own chain is the result when there is one, and the result
  /// realizes `replace_node` on the root under `repl`. Old nodes change only
  /// in their counts, and in every case the result stands for the root.
  ghost predicate Fuses(s: Store, rank: map<Id, nat>, t: Store, rt: map<Id, nat>, root: Id, r: Id, repl: map<Id, Id>)
    requires Ranked(s, rank) && root in s
  {
    && RankKept(s, rank, rt) && Recounted(s, t)
    && r in t && Stands(s, rank, t, root, r)
    && (t == s <==> !ChainReached(s, rank, root))
    && (t == s ==> r == root)
    && (|Chain(s, rank, root)| >= 2 ==> r !in s && FusedNode(t, r, s, Chain(s, rank, root)))
    && (forall x :: x in repl <==> x in Reach(s, rank, root) && x in s && |Chain(s, rank, x)| >= 2)
    && (forall x | x in repl :: repl[x] !in s && FusedNode(t, repl[x], s, Chain(s, rank, x)))
    && (ChainReached(s, rank, root) ==> Realizes(s, t, r, Replaced(s, rank, repl, root, {}).0))
  }

  /// `optimize(graph)` (lines 119-166), with the corrected replacement map:
  /// what `Fuses` gathers.
  method Optimize(g: Graph, root: Id) returns (r: Id, ghost repl: map<Id, Id>)
    requires g.Valid() && root in g.nodes
    modifies g
    ensures g.Valid() && RankKept(old(g.nodes), old(g.rank), g.rank) && Recounted(old(g.nodes), g.nodes)
    ensures r in g.nodes && Stands(old(g.nodes), old(g.rank), g.nodes, root, r)
    ensures g.nodes == old(g.nodes) <==> !ChainReached(old(g.nodes), old(g.rank), root)
    ensures g.nodes == old(g.nodes) ==> r == root
    ensures |Chain(old(g.nodes), old(g.rank), root)| >= 2 ==>
      r !in old(g.nodes) && FusedNode(g.nodes, r, old(g.nodes), Chain(old(g.nodes), old(g.rank), root))
    ensures forall x :: x in repl <==> x in Reach(old(g.nodes), old(g.rank), root) && x in old(g.nodes) && |Chain(old(g.nodes), old(g.rank), x)| >= 2
    ensures forall x | x in repl ::
      repl[x] !in old(g.nodes) && FusedNode(g.nodes, repl[x], old(g.nodes), Chain(old(g.nodes), old(g.rank), x))
    ensures ChainReached(old(g.nodes), old(g.rank), root) ==>
      Realizes(old(g.nodes), g.nodes, r, Replaced(old(g.nodes), old(g.rank), repl, root, {}).0)
  {
    ghost var s, rank := g.nodes, g.rank;
    var cands := FindFusionCandidates(g, root);
    ghost var i := CandidatesFacts(s, rank, root, cands);
    if cands == [] {
      return root, map[];
    }
    r, repl := FuseGroups(g, s, rank, root, cands, i);
    forall x | x in repl
      ensures x in Reach(s, rank, root) && x in s && |Chain(s, rank, x)| >= 2
      ensures repl[x] !in s && FusedNode(g.nodes, repl[x], s, Chain(s, rank, x))
    {
      var j :| 0 <= j < |cands| && Last(cands[j]) == x;
    }
  }

  /// Lines 137-163 once groups were found: the fused nodes join the graph
  /// and the root is rebuilt over them.
  method FuseGroups(g: Graph, ghost s: Store, ghost rank: map<Id, nat>, root: Id, cands: seq<seq<Id>>, ghost i: nat)
    returns (r: Id, repl: map<Id, Id>)
    requires g.Valid() && g.nodes == s && g.rank == rank && root in s && cands != []
    requires forall j | 0 <= j < |cands| :: |cands[j]| >= 2 && Fusable(s, cands[j])
    requires forall j, k | 0 <= j < k < |cands| :: Last(cands[j]) != Last(cands[k])
    requires |Chain(s, rank, root)| >= 2 ==>
      i < |cands| && Last(cands[i]) == root && cands[i] == Chain(s, rank, root)
    modifies g
    ensures g.Valid() && RankKept(s, rank, g.rank) && Recounted(s, g.nodes) && g.nodes != s
    ensures r in g.nodes && Stands(s, rank, g.nodes, root, r)
    ensures |Chain(s, rank, root)| >= 2 ==> r !in s && FusedNode(g.nodes, r, s, Chain(s, rank, root))
    ensures forall x :: x in repl <==> exists j | 0 <= j < |cands| :: Last(cands[j]) == x
    ensures forall j | 0 <= j < |cands| ::
      Last(cands[j]) in repl && repl[Last(cands[j])] !in s && FusedNode(g.nodes, repl[Last(cands[j])], s, cands[j])
    ensures Realizes(s, g.nodes, r, Replaced(s, rank, repl, root, {}).0)
  {
    var fused;
    repl, fused := FusedMap(g, cands);
    ghost var t := g.nodes;
    var visited;
    ghost var rp;
    r, visited, rp := ReplaceNode(g, s, rank, root, {}, repl);
    GroupsFused(s, rank, t, g.nodes, root, cands, fused, repl, r, i);
  }

  /// Lines 138-142 with what the map they build holds: the last member of
  /// each group, sent to the group's fused node, and nothing else.
  method FusedMap(g: Graph, cands: seq<seq<Id>>) returns (repl: map<Id, Id>, fused: seq<Id>)
    requires g.Valid() && forall i | 0 <= i < |cands| :: |cands[i]| >= 2 && Fusable(g.nodes, cands[i])
    requires forall j, k | 0 <= j < k < |cands| :: Last(cands[j]) != Last(cands[k])
    modifies g
    ensures g.Valid() && RankKept(old(g.nodes), old(g.rank), g.rank) && Recounted(old(g.nodes), g.nodes)
    ensures |fused| == |cands| && ReplOk(old(g.nodes), g.nodes, repl)
    ensures forall x :: x in repl <==> exists j | 0 <= j < |cands| :: Last(cands[j]) == x
    ensures forall i | 0 <= i < |cands| ::
      && Last(cands[i]) in repl && repl[Last(cands[i])] == fused[i]
      && fused[i] !in old(g.nodes) && FusedNode(g.nodes, fused[i], old(g.nodes), cands[i])
  {
    repl, fused := Replacements(g, cands);
    FusedReplacements(old(g.nodes), g.nodes, cands, fused);
    OutputMappingKeys(cands, fused);
  }

  /// What the rebuilding leaves of the fused nodes: each still stands for
  /// its group, and the root's own chain, if any, is replaced by its node.
  lemma GroupsFused(s: Store, rank: map<Id, nat>, t: Store, t2: Store, root: Id, cands: seq<seq<Id>>,
                    fused: seq<Id>, repl: map<Id, Id>, r: Id, i: nat)
    requires Ranked(s, rank) && root in s && Recounted(t, t2) && cands != []
    requires |fused| == |cands|
    requires forall j | 0 <= j < |cands| :: |cands[j]| >= 2 && fused[j] !in s && FusedNode(t, fused[j], s, cands[j])
    requires forall j | 0 <= j < |cands| :: Last(cands[j]) in repl && repl[Last(cands[j])] == fused[j]
    requires |Chain(s, rank, root)| >= 2 ==>
      i < |cands| && Last(cands[i]) == root && cands[i] == Chain(s, rank, root)
    requires root in repl ==> t2 == t && r == repl[root]
    ensures t2 != s
    ensures |Chain(s, rank, root)| >= 2 ==> r !in s && FusedNode(t2, r, s, Chain(s, rank, root))
    ensures forall j | 0 <= j < |cands| ::
      Last(cands[j]) in repl && repl[Last(cands[j])] !in s && FusedNode(t2, repl[Last(cands[j])], s, cands[j])
  {
    forall j | 0 <= j < |cands| ensures FusedNode(t2, fused[j], s, cands[j]) {
      FusedNodeKept(s, t, t2, fused[j], cands[j]);
    }
    assert fused[0] in t2;
  }

  /// Some node the root reaches ends a chain of two or more.
  ghost predicate ChainReached(s: Store, rank: map<Id, nat>, root: Id)
    requires Ranked(s, rank) && root in s
  {
    exists x | x in Reach(s, rank, root) && x in s :: |Chain(s, rank, x)| >= 2
  }

  /// What `optimize` draws from the groups found: there are none exactly
  /// when no reachable node ends a chain of two or more; each fuses; and
  /// group `i` is the root's own chain when that is two or more long.
  lemma CandidatesFacts(s: Store, rank: map<Id, nat>, root: Id, cands: seq<seq<Id>>) returns (i: nat)
    requires Ranked(s, rank) && root in s
    requires forall i | 0 <= i < |cands| ::
      && |cands[i]| >= 2 && Last(cands[i]) in s && Last(cands[i]) in Reach(s, rank, root)
      && cands[i] == Chain(s, rank, Last(cands[i]))
    requires forall x | x in Reach(s, rank, root) && x in s && |Chain(s, rank, x)| >= 2 ::
      exists i | 0 <= i < |cands| :: Last(cands[i]) == x
    ensures cands == [] <==> !ChainReached(s, rank, root)
    ensures forall i | 0 <= i < |cands| :: |cands[i]| >= 2 && Fusable(s, cands[i])
    ensures |Chain(s, rank, root)| >= 2 ==>
      i < |cands| && Last(cands[i]) == root && cands[i] == Chain(s, rank, root)
  {
    ReachInputs(s, rank, root);
    forall i | 0 <= i < |cands| ensures |cands[i]| >= 2 && Fusable(s, cands[i]) {
      ChainFusable(s, rank, Last(cands[i]));
    }
    if cands != [] {
      assert Last(cands[0]) in Reach(s, rank, root);
    }
    i := 0;
    if |Chain(s, rank, root)| >= 2 {
      i :| 0 <= i < |cands| && Last(cands[i]) == root;
    }
  }

  /// The corrected map sends the last member of each group to a fused node
  /// that stands for it.
  lemma FusedReplacements(s: Store, t: Store, cands: seq<seq<Id>>, fused: seq<Id>)
    requires |fused| == |cands| && forall i | 0 <= i < |cands| :: |cands[i]| >= 2 && FusedNode(t, fused[i], s, cands[i])
    requires forall i, j | 0 <= i < j < |cands| :: Last(cands[i]) != Last(cands[j])
    ensures ReplOk(s, t, OutputMapping(cands, fused))
    ensures forall i | 0 <= i < |cands| ::
      Last(cands[i]) in OutputMapping(cands, fused) && OutputMapping(cands, fused)[Last(cands[i])] == fused[i]
  {
    OutputMappingKeys(cands, fused);
    OutputMappingSends(cands, fused);
    var m := OutputMapping(cands, fused);
    forall x | x in m ensures x in s && Represents(t, m[x], x) {
      var i :| 0 <= i < |cands| && Last(cands[i]) == x;
      FusedRepresents(s, t, fused[i], cands[i]);
    }
  }

  /// The fused node of a group stands for the group's last member.
  lemma FusedRepresents(s: Store, t: Store, f: Id, ops: seq<Id>)
    requires FusedNode(t, f, s, ops)
    ensures Last(ops) in s && Represents(t, f, Last(ops))
  {
    assert t[f].metadata["original_nodes"] == NodeRefs(ops);
  }

  // ---------------------------------------------------------------------
  // The replacement map as written (see Findings)
  // ---------------------------------------------------------------------

  /// The graph of `(x*y + z) * (x*y)` with x = 2, y = 3 and z = 1: nodes 0-2
  /// are the constants, node 3 is `x*y`, node 4 is `x*y + z` and node 5 is
  /// the root.
  function Sample(): Store {
    map[0 := ConstNode(Some(2.0), 1), 1 := ConstNode(Some(3.0), 1), 2 := ConstNode(Some(1.0), 1),
        3 := Node(Mul, [0, 1], None, None, 2, map[]),
        4 := Node(Add, [3, 2], None, None, 1, map[]),
        5 := Node(Mul, [4, 3], None, None, 0, map[])]
  }

  function SampleRank(): map<Id, nat> {
    map[0 := 0, 1 := 0, 2 := 0, 3 := 1, 4 := 2, 5 := 3]
  }

  /// The sample after `create_fused_op([x*y, x*y + z])` added node 6.
  function SampleFused(): Store {
    Sample()[6 := Node(Fused(Fma), [0, 1, 2], None, None, 0, FusedMetadata(Sample(), [3, 4]))]
  }

  /// On the sample, the only chain of two or more is `[x*y, x*y + z]`.
  lemma SampleChains()
    ensures Ranked(Sample(), SampleRank())
    ensures Chain(Sample(), SampleRank(), 3) == [3] && Chain(Sample(), SampleRank(), 5) == [5]
    ensures Chain(Sample(), SampleRank(), 4) == [3, 4]
  {
    var s := Sample();
    assert !Grows(s, 3) by {
      assert (s[0].op, s[3].op) !in FusionPatterns;
    }
    assert !Grows(s, 5) by {
      assert (s[4].op, s[5].op) !in FusionPatterns;
    }
    assert Grows(s, 4) by {
      assert (s[3].op, s[4].op) in FusionPatterns;
    }
  }

  /// The sample's fused node is a multiply-add over x, y and z recording
  /// the group `[x*y, x*y + z]`.
  lemma SampleFusedNode()
    ensures FusedInputs(Sample(), [3, 4]) == [0, 1, 2]
    ensures FusedNode(SampleFused(), 6, Sample(), [3, 4])
    ensures Represents(SampleFused(), 6, 4) && !Represents(SampleFused(), 6, 3)
  {
    var s := Sample();
    assert Without([2], 3) == [2] + Without([], 3);
    assert Without(s[4].inputs, 3) == [] + Without([2], 3);
    assert [3, 4][1..] == [4];
    assert Later(s, [4], 3) == Without(s[4].inputs, 3) + Later(s, [], 3);
    assert (s[3].op, s[4].op) in FusionPatterns;
  }

  /// On the sample, the map as written sends `x*y`, whose value is 6 and
  /// which the root consumes directly, to the fused node of the group: that
  /// node computes `x*y + z`, 7, so the rebuilt root computes 7 * 7 where
  /// the graph computed 7 * 6.
  lemma MappingMisroutes()
    ensures Ranked(Sample(), SampleRank()) && Chain(Sample(), SampleRank(), 4) == [3, 4]
    ensures Sample()[5].inputs == [4, 3] && Chain(Sample(), SampleRank(), 5) == [5]
    ensures Eval(Sample(), SampleRank(), 3) == Ok(6.0) && Eval(Sample(), SampleRank(), 4) == Ok(7.0)
    ensures Mapping([[3, 4]], [6]) == map[3 := 6, 4 := 6]
    ensures !ReplOk(Sample(), SampleFused(), Mapping([[3, 4]], [6]))
  {
    SampleChains();
    SampleFusedNode();
    SampleValues();
    SampleMapping();
  }

  lemma SampleMapping()
    ensures Mapping([[3, 4]], [6]) == map[3 := 6, 4 := 6]
  {
    assert Mapping([[3, 4]], [6]) == Assign(map[], [3, 4], 6);
    assert [3, 4][1..] == [4];
    assert Assign(map[], [3, 4], 6) == Assign(map[3 := 6], [4], 6);
    assert Assign(map[3 := 6], [4], 6) == Assign(map[3 := 6, 4 := 6], [], 6);
  }

  /// On the sample, `x*y` evaluates to 6 and `x*y + z` to 7.
  lemma SampleValues()
    ensures Ranked(Sample(), SampleRank())
    ensures Eval(Sample(), SampleRank(), 3) == Ok(6.0) && Eval(Sample(), SampleRank(), 4) == Ok(7.0)
  {
    var s, rank := Sample(), SampleRank();
    EvalBinary(s, rank, 3, 2.0, 3.0);
    EvalBinary(s, rank, 4, 6.0, 1.0);
  }

  /// With the corrected map, the sample's fused node replaces `x*y + z` only.
  lemma OutputMappingFixes()
    ensures OutputMapping([[3, 4]], [6]) == map[4 := 6]
    ensures ReplOk(Sample(), SampleFused(), OutputMapping([[3, 4]], [6]))
  {
    SampleOutputMapping();
  }

  lemma SampleOutputMapping()
    ensures OutputMapping([[3, 4]], [6]) == map[4 := 6]
  {
    assert OutputMapping([[3, 4]], [6]) == OutputMapping([], [])[4 := 6];
  }
  /// `replace_node` on a leaf neither seen nor replaced keeps it.
  lemma ReplacedLeaf(s: Store, rank: map<Id, nat>, repl: map<Id, Id>, x: Id, v: set<Id>)
    requires Ranked(s, rank) && x in s && s[x].inputs == [] && x !in v && x !in repl
    ensures Replaced(s, rank, repl, x, v) == (Kept(x), v + {x})
  {
    assert ReplacedUpTo(s, rank, repl, x, 0, v + {x}) == ([], v + {x});
    assert KeptAll(s[x].inputs) == [];
  }

  /// `replace_node` on a node of two inputs neither seen nor replaced, from
  /// what the calls on its inputs give.
  lemma ReplacedPair(s: Store, rank: map<Id, nat>, repl: map<Id, Id>, x: Id, v: set<Id>,
                     r0: Replica, v0: set<Id>, r1: Replica, v1: set<Id>)
    requires Ranked(s, rank) && x in s && |s[x].inputs| == 2 && x !in v && x !in repl
    requires Replaced(s, rank, repl, s[x].inputs[0], v + {x}) == (r0, v0)
    requires Replaced(s, rank, repl, s[x].inputs[1], v0) == (r1, v1)
    ensures Replaced(s, rank, repl, x, v) ==
      (if r0 == Kept(s[x].inputs[0]) && r1 == Kept(s[x].inputs[1]) then Kept(x) else Copy(s[x].op, [r0, r1], s[x].metadata), v1)
  {
    assert ReplacedUpTo(s, rank, repl, x, 0, v + {x}) == ([], v + {x});
    assert [] + [r0] == [r0] && [r0] + [r1] == [r0, r1];
    assert ReplacedUpTo(s, rank, repl, x, 1, v + {x}) == ([r0], v0);
    assert ReplacedUpTo(s, rank, repl, x, 2, v + {x}) == ([r0, r1], v1);
    var ks := KeptAll(s[x].inputs);
    assert [r0, r1] == ks <==> r0 == ks[0] && r1 == ks[1];
  }

  /// Rebuilding the sample's root with the map as written: both of its
  /// inputs become the fused node, so the copy computes
  /// `(x*y + z) * (x*y + z)`.
  lemma SampleReplacedAsWritten()
    ensures Ranked(Sample(), SampleRank())
    ensures Replaced(Sample(), SampleRank(), Mapping([[3, 4]], [6]), 5, {}).0 == Copy(Mul, [Kept(6), Kept(6)], map[])
  {
    SampleRanked();
    SampleMapping();
    var s, rank, m := Sample(), SampleRank(), map[3 := 6, 4 := 6];
    assert {} + {5} == {5} && {5} + {4} == {5, 4} && {5, 4} + {3} == {5, 4, 3};
    assert Replaced(s, rank, m, 4, {5}) == (Kept(6), {5, 4});
    assert Replaced(s, rank, m, 3, {5, 4}) == (Kept(6), {5, 4, 3});
    ReplacedPair(s, rank, m, 5, {}, Kept(6), {5, 4}, Kept(6), {5, 4, 3});
  }

  /// With the corrected map only `x*y + z` becomes the fused node, and
  /// `x*y`, whose inputs stay, is kept.
  lemma SampleReplacedCorrected()
    ensures OutputMapping([[3, 4]], [6]) == map[4 := 6]
    ensures Ranked(Sample(), SampleRank())
    ensures Replaced(Sample(), SampleRank(), map[4 := 6], 5, {}).0 == Copy(Mul, [Kept(6), Kept(3)], map[])
  {
    SampleRanked();
    SampleOutputMapping();
    var s, rank, o := Sample(), SampleRank(), map[4 := 6];
    assert {} + {5} == {5} && {5} + {4} == {5, 4} && {5, 4} + {3} == {5, 4, 3};
    assert {5, 4, 3} + {0} == {5, 4, 3, 0} && {5, 4, 3, 0} + {1} == {5, 4, 3, 0, 1};
    assert Replaced(s, rank, o, 4, {5}) == (Kept(6), {5, 4});
    ReplacedLeaf(s, rank, o, 0, {5, 4, 3});
    ReplacedLeaf(s, rank, o, 1, {5, 4, 3, 0});
    ReplacedPair(s, rank, o, 3, {5, 4}, Kept(0), {5, 4, 3, 0}, Kept(1), {5, 4, 3, 0, 1});
    ReplacedPair(s, rank, o, 5, {}, Kept(6), {5, 4}, Kept(3), {5, 4, 3, 0, 1});
  }

  lemma SampleRanked()
    ensures Ranked(Sample(), SampleRank())
  {
  }
}
