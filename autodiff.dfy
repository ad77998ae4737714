/// Reverse-mode differentiation (src/core/autodiff.py): a depth-first
/// topological sort of the graph under the root, then a walk in reverse that
/// adds each node's gradient into its inputs.
module Autodiff {
  import opened Wrappers
  import opened Tracer

  // ---------------------------------------------------------------------
  // topological_sort (lines 10-32)
  // ---------------------------------------------------------------------

  /// `visit(n)` on the `visited` set and the `order` list: a node not seen
  /// yet is marked, its inputs are visited in order, then it is appended.
  function VisitSpec(s: Store, ghost rank: map<Id, nat>, n: Id, visited: set<Id>, order: seq<Id>): (set<Id>, seq<Id>)
    requires Ranked(s, rank) && n in s
    decreases rank[n], 1
  {
    if n in visited then (visited, order)
    else
      var (v, o) := VisitInputs(s, rank, n, 0, visited + {n}, order);
      (v, o + [n])
  }

  /// The loop `for inp in n.inputs: visit(inp)` from input `k` on.
  function VisitInputs(s: Store, ghost rank: map<Id, nat>, n: Id, k: nat, visited: set<Id>, order: seq<Id>): (set<Id>, seq<Id>)
    requires Ranked(s, rank) && n in s && k <= |s[n].inputs|
    decreases rank[n], 0, |s[n].inputs| - k
  {
    if k == |s[n].inputs| then (visited, order)
    else
      var (v, o) := VisitSpec(s, rank, s[n].inputs[k], visited, order);
      VisitInputs(s, rank, n, k + 1, v, o)
  }

  /// `topological_sort(node)`.
  function TopoSort(s: Store, ghost rank: map<Id, nat>, root: Id): seq<Id>
    requires Ranked(s, rank) && root in s
  {
    VisitSpec(s, rank, root, {}, []).1
  }

  ghost predicate NoDup(o: seq<Id>) {
    forall i, j | 0 <= i < j < |o| :: o[i] != o[j]
  }

  /// Every input of a listed node is listed.
  ghost predicate InputsListed(s: Store, o: seq<Id>) {
    forall i, k | 0 <= i < |o| && o[i] in s && 0 <= k < |s[o[i]].inputs| :: s[o[i]].inputs[k] in o
  }

  /// No listed node is an input of a node listed before it.
  ghost predicate NotFedBack(s: Store, o: seq<Id>) {
    forall i, j | 0 <= i < j < |o| && o[i] in s :: o[j] !in s[o[i]].inputs
  }

  ghost predicate Prefix(o: seq<Id>, o2: seq<Id>) {
    |o| <= |o2| && forall i | 0 <= i < |o| :: o2[i] == o[i]
  }

  /// The state the walk keeps: everything listed is visited, every visited
  /// node is a node of the store, and the list is duplicate-free, closed
  /// under inputs and lists inputs first.
  ghost predicate SortState(s: Store, visited: set<Id>, order: seq<Id>) {
    && (forall x | x in visited :: x in s)
    && (forall i | 0 <= i < |order| :: order[i] in visited)
    && NoDup(order) && InputsListed(s, order) && NotFedBack(s, order)
  }

  /// The visited nodes not yet listed: the nodes whose visit is under way.
  ghost predicate SamePending(visited: set<Id>, order: seq<Id>, v2: set<Id>, o2: seq<Id>) {
    forall p :: (p in v2 && p !in o2) <==> (p in visited && p !in order)
  }

  /// Appending a node whose inputs are all listed, and which is no input of
  /// any listed node, keeps the state.
  lemma AppendKeepsState(s: Store, v: set<Id>, o: seq<Id>, x: Id)
    requires SortState(s, v, o) && x in v && x !in o
    requires forall k | 0 <= k < |s[x].inputs| :: s[x].inputs[k] in o
    requires forall i | 0 <= i < |o| && o[i] in s :: x !in s[o[i]].inputs
    ensures SortState(s, v, o + [x])
  {
    var o2 := o + [x];
    forall i, j | 0 <= i < j < |o2| ensures o2[i] != o2[j] {
      if j < |o| {
        assert o2[i] == o[i] && o2[j] == o[j];
      } else {
        assert o2[i] == o[i];
      }
    }
    forall i, k | 0 <= i < |o2| && o2[i] in s && 0 <= k < |s[o2[i]].inputs| ensures s[o2[i]].inputs[k] in o2 {
      if i < |o| {
        assert o2[i] == o[i];
      }
    }
    forall i, j | 0 <= i < j < |o2| && o2[i] in s ensures o2[j] !in s[o2[i]].inputs {
      assert o2[i] == o[i];
      if j < |o| {
        assert o2[j] == o[j];
      }
    }
  }

  lemma PrefixTrans(a: seq<Id>, b: seq<Id>, c: seq<Id>)
    requires Prefix(a, b) && Prefix(b, c)
    ensures Prefix(a, c)
  {
  }

  /// A walk from (`visited`, `order`) to (`v2`, `o2`): the state is kept,
  /// nothing is unvisited or unlisted, and the visits under way stay as they
  /// were.
  ghost predicate Walked(s: Store, visited: set<Id>, order: seq<Id>, v2: set<Id>, o2: seq<Id>) {
    SortState(s, v2, o2) && visited <= v2 && Prefix(order, o2) && SamePending(visited, order, v2, o2)
  }

  /// Every node first visited on the way is reachable from `n` and ranks below it.
  ghost predicate Below(s: Store, rank: map<Id, nat>, n: Id, visited: set<Id>, v2: set<Id>)
    requires Ranked(s, rank) && n in s
  {
    forall x | x in v2 && x !in visited :: x in Reach(s, rank, n) && x in rank && rank[x] < rank[n]
  }

  lemma WalkedTrans(s: Store, v0: set<Id>, o0: seq<Id>, v1: set<Id>, o1: seq<Id>, v2: set<Id>, o2: seq<Id>)
    requires Walked(s, v0, o0, v1, o1) && Walked(s, v1, o1, v2, o2)
    ensures Walked(s, v0, o0, v2, o2)
  {
    PrefixTrans(o0, o1, o2);
  }

  /// Visiting input `k` of `n` and then the inputs after it stays below `n`.
  lemma BelowStep(s: Store, rank: map<Id, nat>, n: Id, k: nat, visited: set<Id>, v1: set<Id>, v2: set<Id>)
    requires Ranked(s, rank) && n in s && k < |s[n].inputs| && visited <= v1
    requires forall x | x in v1 && x !in visited :: x in Reach(s, rank, s[n].inputs[k])
    requires Below(s, rank, n, v1, v2)
    ensures Below(s, rank, n, visited, v2)
  {
    var i := s[n].inputs[k];
    forall x | x in v2 && x !in visited ensures x in Reach(s, rank, n) && x in rank && rank[x] < rank[n] {
      if x in v1 {
        ReachBelow(s, rank, i);
        ReachInputs(s, rank, n);
        assert x in Reach(s, rank, i) && rank[i] < rank[n];
      }
    }
  }

  /// After visiting input `k`, the walk over the next inputs may start.
  lemma InputStep(s: Store, rank: map<Id, nat>, n: Id, k: nat, visited: set<Id>, order: seq<Id>, v1: set<Id>, o1: seq<Id>)
    requires Ranked(s, rank) && n in s && k < |s[n].inputs| && SortState(s, visited, order)
    requires n in visited && n !in order
    requires forall j | 0 <= j < k :: s[n].inputs[j] in order
    requires forall p | p in visited && p !in order && p != n :: rank[p] > rank[n]
    requires Walked(s, visited, order, v1, o1) && s[n].inputs[k] in o1
    ensures n in v1 && n !in o1
    ensures forall j | 0 <= j < k + 1 :: s[n].inputs[j] in o1
    ensures forall p | p in v1 && p !in o1 && p != n :: rank[p] > rank[n]
  {
    var ins := s[n].inputs;
    forall j | 0 <= j < k + 1 ensures ins[j] in o1 {
      if j < k {
        assert ins[j] in order;
      }
    }
  }

  /// What `visit(n)` does: a walk that lists `n`, reaches only what `n`
  /// reaches, and appends `n` last when it was not visited before.
  lemma {:induction false} VisitFacts(s: Store, rank: map<Id, nat>, n: Id, visited: set<Id>, order: seq<Id>)
    requires Ranked(s, rank) && n in s && SortState(s, visited, order)
    requires forall p | p in visited && p !in order :: rank[p] > rank[n]
    ensures var (v2, o2) := VisitSpec(s, rank, n, visited, order);
      && Walked(s, visited, order, v2, o2) && n in o2
      && (forall x | x in v2 && x !in visited :: x in Reach(s, rank, n))
      && (n !in visited ==> o2[|o2| - 1] == n)
    decreases rank[n], 1
  {
    if n !in visited {
      var v1 := visited + {n};
      VisitInputsFacts(s, rank, n, 0, v1, order);
      var (v, o) := VisitInputs(s, rank, n, 0, v1, order);
      ReachInputs(s, rank, n);
      forall i | 0 <= i < |o| && o[i] in s ensures n !in s[o[i]].inputs {
        if o[i] !in order {
          assert o[i] in Reach(s, rank, n) && o[i] != n;
          ReachBelow(s, rank, n);
        }
      }
      AppendKeepsState(s, v, o, n);
      assert (o + [n])[|o|] == n;
    }
  }

  /// The loop over the inputs of `n` from input `k` on: a walk that lists
  /// every input and stays below `n`.
  lemma {:induction false} VisitInputsFacts(s: Store, rank: map<Id, nat>, n: Id, k: nat, visited: set<Id>, order: seq<Id>)
    requires Ranked(s, rank) && n in s && k <= |s[n].inputs| && SortState(s, visited, order)
    requires n in visited && n !in order
    requires forall j | 0 <= j < k :: s[n].inputs[j] in order
    requires forall p | p in visited && p !in order && p != n :: rank[p] > rank[n]
    ensures var (v2, o2) := VisitInputs(s, rank, n, k, visited, order);
      && Walked(s, visited, order, v2, o2)
      && (forall j | 0 <= j < |s[n].inputs| :: s[n].inputs[j] in o2)
      && Below(s, rank, n, visited, v2)
    decreases rank[n], 0, |s[n].inputs| - k
  {
    var ins := s[n].inputs;
    if k < |ins| {
      VisitFacts(s, rank, ins[k], visited, order);
      var (v1, o1) := VisitSpec(s, rank, ins[k], visited, order);
      InputStep(s, rank, n, k, visited, order, v1, o1);
      VisitInputsFacts(s, rank, n, k + 1, v1, o1);
      var (v2, o2) := VisitInputs(s, rank, n, k + 1, v1, o1);
      WalkedTrans(s, visited, order, v1, o1, v2, o2);
      BelowStep(s, rank, n, k, visited, v1, v2);
    }
  }

  /// A list closed under inputs that lists `id` lists everything `id` reaches.
  lemma {:induction false} ListedHoldsReach(s: Store, rank: map<Id, nat>, o: seq<Id>, id: Id)
    requires Ranked(s, rank) && id in s && id in o && InputsListed(s, o)
    ensures forall x | x in Reach(s, rank, id) :: x in o
    decreases rank[id]
  {
    forall k | 0 <= k < |s[id].inputs| {
      ListedHoldsReach(s, rank, o, s[id].inputs[k]);
    }
  }

  /// `topological_sort(root)` lists exactly the nodes the root reaches, each
  /// once, and the root last.
  lemma TopoSortLists(s: Store, rank: map<Id, nat>, root: Id)
    requires Ranked(s, rank) && root in s
    ensures var o := TopoSort(s, rank, root);
      && (forall x :: x in o <==> x in Reach(s, rank, root))
      && (forall i | 0 <= i < |o| :: o[i] in s)
      && NoDup(o)
      && |o| > 0 && o[|o| - 1] == root
  {
    VisitFacts(s, rank, root, {}, []);
    ListedHoldsReach(s, rank, TopoSort(s, rank, root), root);
  }

  /// `topological_sort(root)` lists exactly the nodes the root reaches, each
  /// once, every node after all of its inputs, and the root last.
  lemma TopoSortFacts(s: Store, rank: map<Id, nat>, root: Id)
    requires Ranked(s, rank) && root in s
    ensures var o := TopoSort(s, rank, root);
      && (forall x :: x in o <==> x in Reach(s, rank, root))
      && (forall i | 0 <= i < |o| :: o[i] in s)
      && NoDup(o)
      && (forall i, k | 0 <= i < |o| && 0 <= k < |s[o[i]].inputs| ::
            exists j :: 0 <= j < i && o[j] == s[o[i]].inputs[k])
      && |o| > 0 && o[|o| - 1] == root
  {
    TopoSortLists(s, rank, root);
    VisitFacts(s, rank, root, {}, []);
    var o := TopoSort(s, rank, root);
    forall i, k | 0 <= i < |o| && 0 <= k < |s[o[i]].inputs| {
      InputBefore(s, rank, o, i, k);
    }
  }

  /// In a list closed under inputs where no node feeds one listed before
  /// it, an input of a listed node is listed before that node.
  lemma InputBefore(s: Store, rank: map<Id, nat>, o: seq<Id>, i: int, k: int)
    requires Ranked(s, rank) && (forall i | 0 <= i < |o| :: o[i] in s)
    requires InputsListed(s, o) && NotFedBack(s, o)
    requires 0 <= i < |o| && 0 <= k < |s[o[i]].inputs|
    ensures exists j :: 0 <= j < i && o[j] == s[o[i]].inputs[k]
  {
    var x := s[o[i]].inputs[k];
    assert x in o;
    var j :| 0 <= j < |o| && o[j] == x;
    assert rank[x] < rank[o[i]];
    assert j < i;
  }

  /// `visit(n)`, with the loop over the inputs.
  method Visit(g: Graph, n: Id, visited: set<Id>, order: seq<Id>) returns (visited2: set<Id>, order2: seq<Id>)
    requires g.Valid() && n in g.nodes
    decreases g.rank[n]
    ensures (visited2, order2) == VisitSpec(g.nodes, g.rank, n, visited, order)
  {
    if n in visited {
      return visited, order;
    }
    visited2, order2 := visited + {n}, order;
    var ins := g.nodes[n].inputs;
    var k := 0;
    while k < |ins|
      invariant 0 <= k <= |ins|
      invariant VisitInputs(g.nodes, g.rank, n, k, visited2, order2) == VisitInputs(g.nodes, g.rank, n, 0, visited + {n}, order)
    {
      visited2, order2 := Visit(g, ins[k], visited2, order2);
      k := k + 1;
    }
    order2 := order2 + [n];
  }

  /// `topological_sort(node)`.
  method TopologicalSort(g: Graph, root: Id) returns (order: seq<Id>)
    requires g.Valid() && root in g.nodes
    ensures order == TopoSort(g.nodes, g.rank, root)
  {
    var visited;
    visited, order := Visit(g, root, {}, []);
  }

  // ---------------------------------------------------------------------
  // evaluate (lines 99-109)
  // ---------------------------------------------------------------------

  /// `evaluate(node)` of this module: a constant yields its value, which may
  /// be None; add, mul and div evaluate `inputs[0]`, then `inputs[1]`, and
  /// combine them; any other operator raises.
  function AdEval(s: Store, ghost rank: map<Id, nat>, id: Id): Result<Option<real>, Error>
    requires Ranked(s, rank) && id in s
    decreases rank[id]
  {
    var n := s[id];
    if n.op == Const then Ok(n.value)
    else if !(n.op == Add || n.op == Mul || n.op == Div) then Err(UnknownOp(n.op))
    else if |n.inputs| == 0 then Err(IndexError)
    else
      match AdEval(s, rank, n.inputs[0])
      case Err(e) => Err(e)
      case Ok(a) =>
        if |n.inputs| == 1 then Err(IndexError)
        else
          match AdEval(s, rank, n.inputs[1])
          case Err(e) => Err(e)
          case Ok(b) => Combine(n.op, a, b)
  }

  /// Python's scalar operator on two operands, either of which may be None.
  function Combine(op: Op, a: Option<real>, b: Option<real>): Result<Option<real>, Error> {
    if a.None? || b.None? then Err(TypeError)
    else
      match Apply(op, [a.value, b.value])
      case Err(e) => Err(e)
      case Ok(v) => Ok(Some(v))
  }

  /// On a graph the tracer built, this evaluator and the tracer's agree: one
  /// succeeds exactly when the other does, with the same value.
  lemma {:induction false} AdEvalAgrees(s: Store, rank: map<Id, nat>, id: Id)
    requires Ranked(s, rank) && Traced(s) && id in s
    ensures AdEval(s, rank, id).Ok? <==> Eval(s, rank, id).Ok?
    ensures Eval(s, rank, id).Ok? ==> AdEval(s, rank, id) == Ok(Some(Eval(s, rank, id).value))
    decreases rank[id]
  {
    var n := s[id];
    if n.op == Add || n.op == Mul || n.op == Div {
      var a, b := n.inputs[0], n.inputs[1];
      AdEvalAgrees(s, rank, a);
      AdEvalAgrees(s, rank, b);
      if Eval(s, rank, a).Err? {
        EvalInputErrorPropagates(s, rank, id, 0, Eval(s, rank, a).error);
      } else if Eval(s, rank, b).Err? {
        EvalInputErrorPropagates(s, rank, id, 1, Eval(s, rank, b).error);
      } else {
        AgreesBinary(s, rank, id, Eval(s, rank, a).value, Eval(s, rank, b).value);
      }
    }
  }

  /// Unlike the tracer's `evaluate`, this one looks at the operator first: a
  /// node other than a constant is recomputed from its inputs, whatever
  /// value it carries.
  lemma AdEvalIgnoresValue(s: Store, rank: map<Id, nat>, id: Id, v: Option<real>)
    requires Ranked(s, rank) && id in s && s[id].op != Const
    ensures Ranked(s[id := s[id].(value := v)], rank)
    ensures AdEval(s[id := s[id].(value := v)], rank, id) == AdEval(s, rank, id)
  {
    var t := s[id := s[id].(value := v)];
    forall m | m in s && rank[m] < rank[id] ensures AdEval(t, rank, m) == AdEval(s, rank, m) {
      AdEvalBelow(s, t, rank, m, rank[id]);
    }
  }

  /// Nodes ranked below `bound` evaluate alike in two stores that agree
  /// on every such node.
  lemma {:induction false} AdEvalBelow(s: Store, t: Store, rank: map<Id, nat>, m: Id, bound: nat)
    requires Ranked(s, rank) && Ranked(t, rank) && m in s && rank[m] < bound
    requires forall x | x in s && rank[x] < bound :: x in t && t[x] == s[x]
    ensures AdEval(t, rank, m) == AdEval(s, rank, m)
    decreases rank[m]
  {
    var n := s[m];
    if |n.inputs| > 0 {
      AdEvalBelow(s, t, rank, n.inputs[0], bound);
    }
    if |n.inputs| > 1 {
      AdEvalBelow(s, t, rank, n.inputs[1], bound);
    }
  }

  /// The step of the agreement for an operator node whose operands agree.
  lemma AgreesBinary(s: Store, rank: map<Id, nat>, id: Id, x: real, y: real)
    requires Ranked(s, rank) && id in s && TracedNode(s[id])
    requires s[id].op == Add || s[id].op == Mul || s[id].op == Div
    requires AdEval(s, rank, s[id].inputs[0]) == Ok(Some(x)) && Eval(s, rank, s[id].inputs[0]) == Ok(x)
    requires AdEval(s, rank, s[id].inputs[1]) == Ok(Some(y)) && Eval(s, rank, s[id].inputs[1]) == Ok(y)
    ensures AdEval(s, rank, id).Ok? <==> Eval(s, rank, id).Ok?
    ensures Eval(s, rank, id).Ok? ==> AdEval(s, rank, id) == Ok(Some(Eval(s, rank, id).value))
  {
    EvalBinary(s, rank, id, x, y);
    var xy := [x, y];
    assert xy[0] == x && xy[1] == y;
    assert AdEval(s, rank, id) == Combine(s[id].op, Some(x), Some(y));
    if s[id].op == Mul {
      var p := x * y;
      assert Apply(Mul, xy).value == p;
    }
  }

  // ---------------------------------------------------------------------
  // compute_gradients (lines 34-97), scalar branch
  // ---------------------------------------------------------------------

  /// `t` is `s` with gradients changed and nothing else.
  ghost predicate GradsOnly(s: Store, t: Store) {
    t.Keys == s.Keys && forall m | m in s :: SameButGrad(s[m], t[m])
  }

  /// Two node records that differ at most in their gradient.
  ghost predicate SameButGrad(a: Node, b: Node) {
    a.op == b.op && a.inputs == b.inputs && a.value == b.value && a.refCount == b.refCount && a.metadata == b.metadata
  }

  lemma GradsOnlyKeeps(s: Store, t: Store, rank: map<Id, nat>)
    requires Ranked(s, rank) && GradsOnly(s, t)
    ensures Ranked(t, rank) && (Traced(s) ==> Traced(t))
  {
    assert forall m | m in t :: t[m].inputs == s[m].inputs;
  }

  lemma GradsOnlyTrans(a: Store, b: Store, c: Store)
    requires GradsOnly(a, b) && GradsOnly(b, c)
    ensures GradsOnly(a, c)
  {
  }

  /// What one call may end with: the nodes as they are then, and the
  /// exception that stopped it, if any.
  datatype Outcome = Outcome(nodes: Store, err: Option<Error>)

  /// `inp.grad += d`: a missing gradient on either side raises a TypeError
  /// before anything changes.
  function Bump(s: Store, i: Id, d: Option<real>): (r: Outcome)
    requires i in s
    ensures GradsOnly(s, r.nodes)
    ensures forall m | m in s && m != i :: r.nodes[m] == s[m]
    ensures r.err.None? <==> s[i].grad.Some? && d.Some?
    ensures r.err.None? ==> r.nodes[i].grad == Some(s[i].grad.value + d.value)
    ensures r.err.Some? ==> r == Outcome(s, Some(TypeError))
  {
    if s[i].grad.None? || d.None? then Outcome(s, Some(TypeError))
    else Outcome(s[i := s[i].(grad := Some(s[i].grad.value + d.value))], None)
  }

  /// The inputs `ins` bumped in turn by `ds`, up to the first error; `ds`
  /// may be shorter than `ins`, as with `zip`.
  function BumpFrom(s: Store, ins: seq<Id>, ds: seq<Option<real>>): (r: Outcome)
    requires |ds| <= |ins| && forall j | 0 <= j < |ins| :: ins[j] in s
    decreases |ds|
    ensures GradsOnly(s, r.nodes)
  {
    if ds == [] then Outcome(s, None)
    else
      var o := Bump(s, ins[0], ds[0]);
      if o.err.Some? then o
      else
        var r := BumpFrom(o.nodes, ins[1..], ds[1..]);
        GradsOnlyTrans(s, o.nodes, r.nodes);
        r
  }

  /// The amount `node.grad` for each of `n` inputs of an add node.
  function Repeat(d: Option<real>, n: nat): (r: seq<Option<real>>)
    ensures |r| == n && forall j | 0 <= j < n :: r[j] == d
  {
    seq(n, _ => d)
  }

  /// `zip(node.inputs, grads)`: the first `min(n, |grads|)` gradients.
  function Zipped(grads: seq<real>, n: nat): (r: seq<Option<real>>)
    ensures |r| <= n && |r| <= |grads| && (|r| == n || |r| == |grads|)
    ensures forall j | 0 <= j < |r| :: r[j] == Some(grads[j])
  {
    var m := if |grads| < n then |grads| else n;
    seq(m, j requires 0 <= j < m => Some(grads[j]))
  }

  /// `float(node.grad) * v`: None when either side is missing, which raises
  /// a TypeError once it is added.
  function Times(g: Option<real>, v: Option<real>): (r: Option<real>)
    ensures r.Some? <==> g.Some? && v.Some?
    ensures r.Some? ==> r.value == Product(g.value, v.value)
  {
    if g.Some? && v.Some? then Some(Product(g.value, v.value)) else None
  }

  /// `x * y`, as one term: the solver then matches products of equal
  /// operands without doing nonlinear arithmetic.
  function Product(x: real, y: real): (r: real)
    ensures r == x * y
  {
    x * y
  }

  /// `a.value if a.value is not None else evaluate(a)`.
  function Operand(s: Store, ghost rank: map<Id, nat>, a: Id): Result<Option<real>, Error>
    requires Ranked(s, rank) && a in s
  {
    if s[a].value.Some? then Ok(s[a].value) else AdEval(s, rank, a)
  }

  /// What `node.metadata.get("grad_fn", None)` gives, after its truth test.
  datatype Hook = NoHook | Call(tag: nat) | NotCallable

  /// A missing entry, None and an empty list are false; a gradient function
  /// is called; any other true value raises a TypeError when called.
  function HookOf(meta: Metadata): (r: Hook)
    ensures r.Call? <==> "grad_fn" in meta && meta["grad_fn"].GradFn?
    ensures r.Call? ==> r.tag == meta["grad_fn"].tag
    ensures "grad_fn" !in meta ==> r == NoHook
  {
    if "grad_fn" !in meta then NoHook
    else
      match meta["grad_fn"]
      case NoValue => NoHook
      case Shape(dims) => if dims == [] then NoHook else NotCallable
      case OpNames(ops) => if ops == [] then NoHook else NotCallable
      case NodeRefs(ids) => if ids == [] then NoHook else NotCallable
      case GradFn(tag) => Call(tag)
  }

  /// The gradient functions a node's metadata may name, by tag; each is
  /// given the node and returns one gradient per input.
  type GradFns = (nat, Node) -> seq<real>

  /// One turn of the reverse loop, for node `id`: add passes its gradient to
  /// every input, mul passes it scaled by the other operand, a constant does
  /// nothing, and any other operator calls its `grad_fn`, if any.
  function Propagate(s: Store, ghost rank: map<Id, nat>, id: Id, gradFn: GradFns): (r: Outcome)
    requires Ranked(s, rank) && id in s
    ensures GradsOnly(s, r.nodes)
  {
    var n := s[id];
    if n.op == Add then BumpFrom(s, n.inputs, Repeat(n.grad, |n.inputs|))
    else if n.op == Mul then
      if |n.inputs| != 2 then Outcome(s, Some(UnpackError))
      else
        match Operand(s, rank, n.inputs[0])
        case Err(e) => Outcome(s, Some(e))
        case Ok(av) =>
          match Operand(s, rank, n.inputs[1])
          case Err(e) => Outcome(s, Some(e))
          case Ok(bv) => BumpFrom(s, n.inputs, [Times(n.grad, bv), Times(n.grad, av)])
    else if n.op == Const then Outcome(s, None)
    else
      match HookOf(n.metadata)
      case NoHook => Outcome(s, None)
      case NotCallable => Outcome(s, Some(TypeError))
      case Call(tag) => BumpFrom(s, n.inputs, Zipped(gradFn(tag, n), |n.inputs|))
  }

  /// The loop that gives every listed node without a gradient 0.0.
  function InitGrads(s: Store, order: seq<Id>): (r: Store)
    requires forall j | 0 <= j < |order| :: order[j] in s
    ensures GradsOnly(s, r)
    ensures forall m | m in s :: r[m].grad == if s[m].grad.None? && m in order then Some(0.0) else s[m].grad
  {
    if order == [] then s
    else
      var x := order[0];
      var s1 := if s[x].grad.None? then s[x := s[x].(grad := Some(0.0))] else s;
      var r := InitGrads(s1, order[1..]);
      assert forall m :: m in order <==> m == x || m in order[1..];
      r
  }

  /// Every listed node has a gradient after the initialisation loop.
  lemma InitGradsGives(s: Store, order: seq<Id>, m: Id)
    requires (forall j | 0 <= j < |order| :: order[j] in s) && m in order
    ensures m in InitGrads(s, order) && InitGrads(s, order)[m].grad.Some?
  {
  }

  /// The reverse loop over `todo`, last node first, up to the first error.
  function Backward(s: Store, ghost rank: map<Id, nat>, todo: seq<Id>, gradFn: GradFns): (r: Outcome)
    requires Ranked(s, rank) && forall j | 0 <= j < |todo| :: todo[j] in s
    decreases |todo|
    ensures GradsOnly(s, r.nodes)
  {
    if todo == [] then Outcome(s, None)
    else
      var o := Propagate(s, rank, todo[|todo| - 1], gradFn);
      if o.err.Some? then o
      else
        GradsOnlyKeeps(s, o.nodes, rank);
        var r := Backward(o.nodes, rank, todo[..|todo| - 1], gradFn);
        GradsOnlyTrans(s, o.nodes, r.nodes);
        r
  }

  /// `compute_gradients(node, seed_grad)`: seed the root, sort, give every
  /// sorted node a gradient, then propagate in reverse order.
  function Gradients(s: Store, ghost rank: map<Id, nat>, root: Id, seed: real, gradFn: GradFns): (r: Outcome)
    requires Ranked(s, rank) && root in s
    ensures GradsOnly(s, r.nodes)
  {
    var s1 := s[root := s[root].(grad := Some(seed))];
    GradsOnlyKeeps(s, s1, rank);
    var order := TopoSort(s1, rank, root);
    TopoSortFacts(s1, rank, root);
    var s2 := InitGrads(s1, order);
    GradsOnlyKeeps(s1, s2, rank);
    var r := Backward(s2, rank, order, gradFn);
    GradsOnlyTrans(s, s1, s2);
    GradsOnlyTrans(s, s2, r.nodes);
    r
  }

  // ---------------------------------------------------------------------
  // What the reverse loop adds
  // ---------------------------------------------------------------------

  /// The total `BumpFrom` adds to node `m`.
  ghost function Credit(ins: seq<Id>, ds: seq<Option<real>>, m: Id): real
    requires |ds| <= |ins| && forall j | 0 <= j < |ds| :: ds[j].Some?
    decreases |ds|
  {
    if ds == [] then 0.0
    else (if ins[0] == m then ds[0].value else 0.0) + Credit(ins[1..], ds[1..], m)
  }

  /// With every amount and every bumped gradient present, the bumps all
  /// succeed, and the gradient of a node `m` grows by its credit.
  lemma {:induction false} BumpFromCredits(s: Store, ins: seq<Id>, ds: seq<Option<real>>, m: Id)
    requires |ds| <= |ins| && forall j | 0 <= j < |ins| :: ins[j] in s
    requires forall j | 0 <= j < |ds| :: ds[j].Some? && s[ins[j]].grad.Some?
    requires m in s && s[m].grad.Some?
    ensures BumpFrom(s, ins, ds).err.None?
    ensures BumpFrom(s, ins, ds).nodes[m].grad.Some?
    ensures BumpFrom(s, ins, ds).nodes[m].grad.value == s[m].grad.value + Credit(ins, ds, m)
    decreases |ds|
  {
    if ds != [] {
      var o := BumpStep(s, ins, ds, m);
      BumpFromCredits(o, ins[1..], ds[1..], m);
    }
  }

  /// One bump of `BumpFromCredits`: it succeeds, keeps the later gradients
  /// present and credits `m` with its share.
  lemma BumpStep(s: Store, ins: seq<Id>, ds: seq<Option<real>>, m: Id) returns (o: Store)
    requires |ds| <= |ins| && ds != [] && forall j | 0 <= j < |ins| :: ins[j] in s
    requires forall j | 0 <= j < |ds| :: ds[j].Some? && s[ins[j]].grad.Some?
    requires m in s && s[m].grad.Some?
    ensures forall j | 0 <= j < |ins[1..]| :: ins[1..][j] in o
    ensures forall j | 0 <= j < |ds[1..]| :: ds[1..][j].Some? && o[ins[1..][j]].grad.Some?
    ensures m in o && o[m].grad.Some?
    ensures o[m].grad.value == s[m].grad.value + (if ins[0] == m then ds[0].value else 0.0)
    ensures BumpFrom(s, ins, ds) == BumpFrom(o, ins[1..], ds[1..])
    ensures Credit(ins, ds, m) == (if ins[0] == m then ds[0].value else 0.0) + Credit(ins[1..], ds[1..], m)
  {
    o := Bump(s, ins[0], ds[0]).nodes;
    forall j | 0 <= j < |ds[1..]| ensures ds[1..][j].Some? && o[ins[1..][j]].grad.Some? {
      assert ins[1..][j] == ins[j + 1] && ds[1..][j] == ds[j + 1];
    }
  }

  /// `g` added `n` times.
  ghost function Repeated(g: real, n: nat): real {
    if n == 0 then 0.0 else g + Repeated(g, n - 1)
  }

  /// Adding `g` `n` times is multiplying it by `n`.
  lemma {:induction false} RepeatedScales(g: real, n: nat)
    ensures Repeated(g, n) == g * (n as real)
  {
    if n > 0 {
      RepeatedScales(g, n - 1);
      var x := (n - 1) as real;
      assert n as real == x + 1.0;
      assert g * (x + 1.0) == g * x + g;
    }
  }

  /// The same amount `g` for every input credits each node `g` once per
  /// occurrence.
  lemma {:induction false} CreditRepeat(ins: seq<Id>, g: real, m: Id)
    ensures Credit(ins, Repeat(Some(g), |ins|), m) == Repeated(g, multiset(ins)[m])
    decreases |ins|
  {
    if ins != [] {
      CreditRepeat(ins[1..], g, m);
      assert Repeat(Some(g), |ins|)[1..] == Repeat(Some(g), |ins[1..]|);
      assert ins == [ins[0]] + ins[1..];
      assert multiset(ins) == multiset([ins[0]]) + multiset(ins[1..]);
    }
  }

  /// The rule for add: every input's gradient grows by the node's gradient,
  /// once per occurrence among the inputs; nothing else changes.
  lemma AddRule(s: Store, rank: map<Id, nat>, id: Id, gradFn: GradFns)
    requires Ranked(s, rank) && id in s && s[id].op == Add && s[id].grad.Some?
    requires forall k | 0 <= k < |s[id].inputs| :: s[s[id].inputs[k]].grad.Some?
    ensures var r := Propagate(s, rank, id, gradFn);
      && r.err.None?
      && forall m | m in s && s[m].grad.Some? ::
           r.nodes[m].grad.Some? && r.nodes[m].grad.value == s[m].grad.value + Repeated(s[id].grad.value, multiset(s[id].inputs)[m])
  {
    var ins := s[id].inputs;
    var g := s[id].grad.value;
    var ds := Repeat(Some(g), |ins|);
    assert Propagate(s, rank, id, gradFn) == BumpFrom(s, ins, ds);
    forall m | m in s && s[m].grad.Some?
      ensures BumpFrom(s, ins, ds).nodes[m].grad.Some?
      ensures BumpFrom(s, ins, ds).nodes[m].grad.value == s[m].grad.value + Repeated(g, multiset(ins)[m])
    {
      AddCredits(s, ins, g, m);
    }
    AddCredits(s, ins, g, id);
  }

  /// The rule for any other operator: without a gradient function nothing
  /// changes, a true value that is not one raises a TypeError, and a
  /// gradient function's results are added to the inputs position by
  /// position, as far as `zip` pairs them.
  lemma HookRule(s: Store, rank: map<Id, nat>, id: Id, gradFn: GradFns)
    requires Ranked(s, rank) && id in s && s[id].op != Add && s[id].op != Mul && s[id].op != Const
    ensures HookOf(s[id].metadata) == NoHook ==> Propagate(s, rank, id, gradFn) == Outcome(s, None)
    ensures HookOf(s[id].metadata) == NotCallable ==> Propagate(s, rank, id, gradFn) == Outcome(s, Some(TypeError))
    ensures HookOf(s[id].metadata).Call? && (forall k | 0 <= k < |s[id].inputs| :: s[s[id].inputs[k]].grad.Some?) ==>
      var ins, r := s[id].inputs, Propagate(s, rank, id, gradFn);
      var ds := Zipped(gradFn(HookOf(s[id].metadata).tag, s[id]), |ins|);
      && r.err.None?
      && forall m | m in s && s[m].grad.Some? ::
           r.nodes[m].grad.Some? && r.nodes[m].grad.value == s[m].grad.value + Credit(ins, ds, m)
  {
    var h := HookOf(s[id].metadata);
    if h.Call? && (forall k | 0 <= k < |s[id].inputs| :: s[s[id].inputs[k]].grad.Some?) {
      var ins := s[id].inputs;
      var ds := Zipped(gradFn(h.tag, s[id]), |ins|);
      assert Propagate(s, rank, id, gradFn) == BumpFrom(s, ins, ds);
      ZipCredits(s, ins, ds);
    }
  }

  /// Bumps by amounts that are all present, on inputs whose gradients are
  /// all present: they succeed, and each node grows by its credit.
  lemma ZipCredits(s: Store, ins: seq<Id>, ds: seq<Option<real>>)
    requires |ds| <= |ins| && forall j | 0 <= j < |ins| :: ins[j] in s && s[ins[j]].grad.Some?
    requires forall j | 0 <= j < |ds| :: ds[j].Some?
    ensures BumpFrom(s, ins, ds).err.None?
    ensures forall m | m in s && s[m].grad.Some? ::
      BumpFrom(s, ins, ds).nodes[m].grad.Some? && BumpFrom(s, ins, ds).nodes[m].grad.value == s[m].grad.value + Credit(ins, ds, m)
  {
    forall m | m in s && s[m].grad.Some?
      ensures BumpFrom(s, ins, ds).nodes[m].grad.Some?
      ensures BumpFrom(s, ins, ds).nodes[m].grad.value == s[m].grad.value + Credit(ins, ds, m)
    {
      BumpFromCredits(s, ins, ds, m);
    }
    if ds != [] {
      BumpFromCredits(s, ins, ds, ins[0]);
    }
  }

  lemma AddCredits(s: Store, ins: seq<Id>, g: real, m: Id)
    requires forall k | 0 <= k < |ins| :: ins[k] in s && s[ins[k]].grad.Some?
    requires m in s && s[m].grad.Some?
    ensures var r := BumpFrom(s, ins, Repeat(Some(g), |ins|));
      && r.err.None? && r.nodes[m].grad.Some?
      && r.nodes[m].grad.value == s[m].grad.value + Repeated(g, multiset(ins)[m])
  {
    BumpFromCredits(s, ins, Repeat(Some(g), |ins|), m);
    CreditRepeat(ins, g, m);
  }

  /// On a graph the tracer built, an operand that evaluates is read as its
  /// value.
  lemma OperandAgrees(s: Store, rank: map<Id, nat>, a: Id)
    requires Ranked(s, rank) && Traced(s) && a in s && Eval(s, rank, a).Ok?
    ensures Operand(s, rank, a) == Ok(Some(Eval(s, rank, a).value))
  {
    AdEvalAgrees(s, rank, a);
  }

  /// The rule for mul, on a graph the tracer built whose operands evaluate:
  /// the first input's gradient grows by the node's gradient times the
  /// second operand's value, and the second's by it times the first's (both
  /// for the same node when it is squared); nothing else changes.
  lemma MulRule(s: Store, rank: map<Id, nat>, id: Id, gradFn: GradFns)
    requires Ranked(s, rank) && Traced(s) && id in s && s[id].op == Mul && s[id].grad.Some?
    requires forall k | 0 <= k < |s[id].inputs| :: s[s[id].inputs[k]].grad.Some? && Eval(s, rank, s[id].inputs[k]).Ok?
    ensures |s[id].inputs| == 2
    ensures Propagate(s, rank, id, gradFn).err.None?
    ensures var a, b, g := s[id].inputs[0], s[id].inputs[1], s[id].grad.value;
      Credited(s, Propagate(s, rank, id, gradFn).nodes, a, Product(g, Eval(s, rank, b).value), b, Product(g, Eval(s, rank, a).value))
  {
    assert TracedNode(s[id]);
    OperandAgrees(s, rank, s[id].inputs[0]);
    OperandAgrees(s, rank, s[id].inputs[1]);
    MulOperands(s, rank, id, gradFn, Eval(s, rank, s[id].inputs[0]).value, Eval(s, rank, s[id].inputs[1]).value);
  }

  /// The rule for mul at a node whose operands read as `va` and `vb`.
  lemma MulOperands(s: Store, rank: map<Id, nat>, id: Id, gradFn: GradFns, va: real, vb: real)
    requires Ranked(s, rank) && id in s && s[id].op == Mul && |s[id].inputs| == 2 && s[id].grad.Some?
    requires s[id].inputs[0] in s && s[id].inputs[1] in s
    requires s[s[id].inputs[0]].grad.Some? && s[s[id].inputs[1]].grad.Some?
    requires Operand(s, rank, s[id].inputs[0]) == Ok(Some(va)) && Operand(s, rank, s[id].inputs[1]) == Ok(Some(vb))
    ensures Propagate(s, rank, id, gradFn).err.None?
    ensures Credited(s, Propagate(s, rank, id, gradFn).nodes, s[id].inputs[0], Product(s[id].grad.value, vb), s[id].inputs[1], Product(s[id].grad.value, va))
  {
    assert Propagate(s, rank, id, gradFn) == BumpFrom(s, s[id].inputs, [Times(s[id].grad, Some(vb)), Times(s[id].grad, Some(va))]);
    var x, y := Product(s[id].grad.value, vb), Product(s[id].grad.value, va);
    assert [Times(s[id].grad, Some(vb)), Times(s[id].grad, Some(va))] == [Some(x), Some(y)];
    MulCredits(s, s[id].inputs, x, y);
  }

  /// Every gradient of `s` is present in `t`, grown by `x` if the node is
  /// `a` and by `y` if it is `b`.
  ghost predicate Credited(s: Store, t: Store, a: Id, x: real, b: Id, y: real) {
    forall m | m in s && s[m].grad.Some? ::
      m in t && t[m].grad.Some? && t[m].grad.value == s[m].grad.value + (if m == a then x else 0.0) + (if m == b then y else 0.0)
  }

  /// Two bumps, by `x` on the first input and by `y` on the second.
  lemma MulCredits(s: Store, ins: seq<Id>, x: real, y: real)
    requires |ins| == 2 && ins[0] in s && ins[1] in s && s[ins[0]].grad.Some? && s[ins[1]].grad.Some?
    ensures var r := BumpFrom(s, ins, [Some(x), Some(y)]);
      r.err.None? && Credited(s, r.nodes, ins[0], x, ins[1], y)
  {
    var ds := [Some(x), Some(y)];
    forall m | m in s && s[m].grad.Some?
      ensures var t := BumpFrom(s, ins, ds).nodes;
        m in t && t[m].grad.Some? && t[m].grad.value == s[m].grad.value + (if m == ins[0] then x else 0.0) + (if m == ins[1] then y else 0.0)
    {
      BumpFromCredits(s, ins, ds, m);
      assert ds[1..][1..] == [];
      assert Credit(ins[1..], ds[1..], m) == (if m == ins[1] then y else 0.0);
    }
    BumpFromCredits(s, ins, ds, ins[0]);
  }

  // ---------------------------------------------------------------------
  // What the reverse loop leaves alone
  // ---------------------------------------------------------------------

  /// A node that none of `ins` names keeps its gradient.
  lemma {:induction false} BumpFromFrame(s: Store, ins: seq<Id>, ds: seq<Option<real>>, m: Id)
    requires |ds| <= |ins| && forall j | 0 <= j < |ins| :: ins[j] in s
    requires m in s && forall j | 0 <= j < |ins| :: ins[j] != m
    ensures BumpFrom(s, ins, ds).nodes[m].grad == s[m].grad
    decreases |ds|
  {
    if ds != [] {
      var o := Bump(s, ins[0], ds[0]);
      if o.err.None? {
        BumpFromFrame(o.nodes, ins[1..], ds[1..], m);
      }
    }
  }

  /// A node keeps its gradient, once it has one, whatever error stops the
  /// bumps.
  lemma {:induction false} BumpFromKeeps(s: Store, ins: seq<Id>, ds: seq<Option<real>>, m: Id)
    requires |ds| <= |ins| && forall j | 0 <= j < |ins| :: ins[j] in s
    requires m in s && s[m].grad.Some?
    ensures BumpFrom(s, ins, ds).nodes[m].grad.Some?
    decreases |ds|
  {
    if ds != [] {
      var o := Bump(s, ins[0], ds[0]);
      if o.err.None? {
        BumpFromKeeps(o.nodes, ins[1..], ds[1..], m);
      }
    }
  }

  /// One turn either leaves the nodes as they are or bumps the node's inputs
  /// by some amounts.
  lemma PropagateShape(s: Store, rank: map<Id, nat>, id: Id, gradFn: GradFns) returns (ds: seq<Option<real>>)
    requires Ranked(s, rank) && id in s
    ensures |ds| <= |s[id].inputs| && forall j | 0 <= j < |s[id].inputs| :: s[id].inputs[j] in s
    ensures Propagate(s, rank, id, gradFn).nodes == s
      || Propagate(s, rank, id, gradFn) == BumpFrom(s, s[id].inputs, ds)
  {
    var n := s[id];
    if n.op == Add {
      ds := Repeat(n.grad, |n.inputs|);
    } else if n.op == Mul && |n.inputs| == 2 && Operand(s, rank, n.inputs[0]).Ok? && Operand(s, rank, n.inputs[1]).Ok? {
      ds := [Times(n.grad, Operand(s, rank, n.inputs[1]).value), Times(n.grad, Operand(s, rank, n.inputs[0]).value)];
    } else if n.op != Mul && n.op != Const && HookOf(n.metadata).Call? {
      ds := Zipped(gradFn(HookOf(n.metadata).tag, n), |n.inputs|);
    } else {
      ds := [];
    }
  }

  /// A node that is no input of `id` keeps its gradient through its turn.
  lemma PropagateFrame(s: Store, rank: map<Id, nat>, id: Id, gradFn: GradFns, m: Id)
    requires Ranked(s, rank) && id in s
    requires m in s && forall k | 0 <= k < |s[id].inputs| :: s[id].inputs[k] != m
    ensures Propagate(s, rank, id, gradFn).nodes[m].grad == s[m].grad
  {
    var ds := PropagateShape(s, rank, id, gradFn);
    if Propagate(s, rank, id, gradFn).nodes != s {
      BumpFromFrame(s, s[id].inputs, ds, m);
    }
  }

  /// A node keeps its gradient through any turn.
  lemma PropagateKeeps(s: Store, rank: map<Id, nat>, id: Id, gradFn: GradFns, m: Id)
    requires Ranked(s, rank) && id in s
    requires m in s && s[m].grad.Some?
    ensures Propagate(s, rank, id, gradFn).nodes[m].grad.Some?
  {
    var ds := PropagateShape(s, rank, id, gradFn);
    if Propagate(s, rank, id, gradFn).nodes != s {
      BumpFromKeeps(s, s[id].inputs, ds, m);
    }
  }

  /// The first turn of the reverse loop over `todo`.
  lemma BackwardUnfold(s: Store, rank: map<Id, nat>, todo: seq<Id>, gradFn: GradFns) returns (t: Store, err: Option<Error>)
    requires Ranked(s, rank) && todo != [] && forall j | 0 <= j < |todo| :: todo[j] in s
    ensures Outcome(t, err) == Propagate(s, rank, todo[|todo| - 1], gradFn)
    ensures Ranked(t, rank) && GradsOnly(s, t)
    ensures err.Some? ==> Backward(s, rank, todo, gradFn) == Outcome(t, err)
    ensures err.None? ==> Backward(s, rank, todo, gradFn) == Backward(t, rank, todo[..|todo| - 1], gradFn)
  {
    var o := Propagate(s, rank, todo[|todo| - 1], gradFn);
    t, err := o.nodes, o.err;
    GradsOnlyKeeps(s, t, rank);
  }

  /// No input of the nodes of `todo` is `m`.
  ghost predicate NotFed(s: Store, todo: seq<Id>, m: Id)
    requires forall j | 0 <= j < |todo| :: todo[j] in s
  {
    forall j, k | 0 <= j < |todo| && 0 <= k < |s[todo[j]].inputs| :: s[todo[j]].inputs[k] != m
  }

  /// `NotFed` holds of fewer nodes, and through a change of gradients.
  lemma NotFedLess(s: Store, t: Store, todo: seq<Id>, m: Id)
    requires todo != [] && forall j | 0 <= j < |todo| :: todo[j] in s
    requires GradsOnly(s, t) && NotFed(s, todo, m)
    ensures NotFed(t, todo[..|todo| - 1], m)
  {
    forall j | 0 <= j < |todo| - 1 ensures t[todo[j]].inputs == s[todo[j]].inputs {
      assert SameButGrad(s[todo[j]], t[todo[j]]);
    }
  }

  /// The reverse loop over `todo` leaves the gradient of every node that is
  /// no input of those nodes as it is.
  lemma {:induction false} BackwardFrame(s: Store, rank: map<Id, nat>, todo: seq<Id>, gradFn: GradFns, m: Id)
    requires Ranked(s, rank) && forall j | 0 <= j < |todo| :: todo[j] in s
    requires m in s && NotFed(s, todo, m)
    ensures Backward(s, rank, todo, gradFn).nodes[m].grad == s[m].grad
    decreases |todo|
  {
    if todo != [] {
      var t, err := BackwardUnfold(s, rank, todo, gradFn);
      PropagateFrame(s, rank, todo[|todo| - 1], gradFn, m);
      if err.None? {
        NotFedLess(s, t, todo, m);
        BackwardFrame(t, rank, todo[..|todo| - 1], gradFn, m);
      }
    }
  }

  /// The reverse loop never takes a gradient away.
  lemma {:induction false} BackwardKeeps(s: Store, rank: map<Id, nat>, todo: seq<Id>, gradFn: GradFns, m: Id)
    requires Ranked(s, rank) && forall j | 0 <= j < |todo| :: todo[j] in s
    requires m in s && s[m].grad.Some?
    ensures Backward(s, rank, todo, gradFn).nodes[m].grad.Some?
    decreases |todo|
  {
    if todo != [] {
      var t, err := BackwardUnfold(s, rank, todo, gradFn);
      PropagateKeeps(s, rank, todo[|todo| - 1], gradFn, m);
      if err.None? {
        BackwardKeeps(t, rank, todo[..|todo| - 1], gradFn, m);
      }
    }
  }

  // ---------------------------------------------------------------------
  // What compute_gradients promises
  // ---------------------------------------------------------------------

  /// What `root` reaches is closed under inputs.
  lemma {:induction false} ReachClosed(s: Store, rank: map<Id, nat>, root: Id, x: Id)
    requires Ranked(s, rank) && root in s && x in Reach(s, rank, root)
    ensures x in s && Reach(s, rank, x) <= Reach(s, rank, root)
    decreases rank[root]
  {
    ReachInputs(s, rank, root);
    if x != root {
      var k :| 0 <= k < |s[root].inputs| && x in Reach(s, rank, s[root].inputs[k]);
      ReachClosed(s, rank, s[root].inputs[k], x);
    }
  }

  /// Changing gradients changes no reach.
  lemma {:induction false} ReachGradsOnly(s: Store, t: Store, rank: map<Id, nat>, id: Id)
    requires Ranked(s, rank) && GradsOnly(s, t) && id in s
    ensures Ranked(t, rank) && Reach(t, rank, id) == Reach(s, rank, id)
    decreases rank[id]
  {
    GradsOnlyKeeps(s, t, rank);
    assert SameButGrad(s[id], t[id]);
    forall k | 0 <= k < |s[id].inputs| ensures Reach(t, rank, s[id].inputs[k]) == Reach(s, rank, s[id].inputs[k]) {
      ReachGradsOnly(s, t, rank, s[id].inputs[k]);
    }
  }

  /// No node `root` reaches feeds a node outside its reach, nor the root
  /// itself.
  lemma NotFedReach(s: Store, rank: map<Id, nat>, root: Id, todo: seq<Id>, m: Id)
    requires Ranked(s, rank) && root in s && m in s
    requires forall j | 0 <= j < |todo| :: todo[j] in Reach(s, rank, root)
    requires m !in Reach(s, rank, root) || m == root
    ensures forall j | 0 <= j < |todo| :: todo[j] in s
    ensures NotFed(s, todo, m)
  {
    ReachBelow(s, rank, root);
    forall j, k | 0 <= j < |todo| && 0 <= k < |s[todo[j]].inputs| ensures s[todo[j]].inputs[k] != m {
      ReachClosed(s, rank, root, todo[j]);
      ReachInputs(s, rank, todo[j]);
    }
  }

  /// The three steps of `Gradients`, spelled out.
  lemma GradientsSteps(s: Store, rank: map<Id, nat>, root: Id, seed: real, gradFn: GradFns)
    returns (s1: Store, order: seq<Id>, s2: Store)
    requires Ranked(s, rank) && root in s
    ensures s1 == s[root := s[root].(grad := Some(seed))] && Ranked(s1, rank)
    ensures forall x :: x in order <==> x in Reach(s, rank, root)
    ensures forall j | 0 <= j < |order| :: order[j] in s1
    ensures s2 == InitGrads(s1, order) && Ranked(s2, rank) && GradsOnly(s1, s2)
    ensures Reach(s2, rank, root) == Reach(s, rank, root)
    ensures forall j | 0 <= j < |order| :: order[j] in Reach(s2, rank, root)
    ensures NoDup(order) && |order| > 0 && order[|order| - 1] == root
    ensures Gradients(s, rank, root, seed, gradFn) == Backward(s2, rank, order, gradFn)
  {
    s1 := s[root := s[root].(grad := Some(seed))];
    GradsOnlyKeeps(s, s1, rank);
    order := TopoSort(s1, rank, root);
    TopoSortFacts(s1, rank, root);
    ReachGradsOnly(s, s1, rank, root);
    s2 := InitGrads(s1, order);
    ReachGradsOnly(s1, s2, rank, root);
  }

  /// `compute_gradients` leaves the root with the seed, whether or not an
  /// exception stops the loop: no node it reaches feeds it.
  lemma GradientsKeepSeed(s: Store, rank: map<Id, nat>, root: Id, seed: real, gradFn: GradFns)
    requires Ranked(s, rank) && root in s
    ensures var r := Gradients(s, rank, root, seed, gradFn).nodes;
      root in r && r[root].grad == Some(seed)
  {
    var s1, order, s2 := GradientsSteps(s, rank, root, seed, gradFn);
    NotFedReach(s2, rank, root, order, root);
    BackwardFrame(s2, rank, order, gradFn, root);
  }

  /// Every node the root reaches ends with a gradient.
  lemma GradientsReachAll(s: Store, rank: map<Id, nat>, root: Id, seed: real, gradFn: GradFns, m: Id)
    requires Ranked(s, rank) && root in s && m in Reach(s, rank, root)
    ensures var r := Gradients(s, rank, root, seed, gradFn).nodes;
      m in r && r[m].grad.Some?
  {
    var s1, order, s2 := GradientsSteps(s, rank, root, seed, gradFn);
    InitGradsGives(s1, order, m);
    BackwardKeeps(s2, rank, order, gradFn, m);
  }

  /// Every node the root does not reach is left as it was.
  lemma GradientsFrame(s: Store, rank: map<Id, nat>, root: Id, seed: real, gradFn: GradFns, m: Id)
    requires Ranked(s, rank) && root in s && m in s && m !in Reach(s, rank, root)
    ensures var r := Gradients(s, rank, root, seed, gradFn).nodes;
      m in r && r[m] == s[m]
  {
    var s1, order, s2 := GradientsSteps(s, rank, root, seed, gradFn);
    ReachInputs(s, rank, root);
    NotFedReach(s2, rank, root, order, m);
    BackwardFrame(s2, rank, order, gradFn, m);
    var r := Gradients(s, rank, root, seed, gradFn).nodes;
    assert SameButGrad(s[m], r[m]);
  }

  /// Constants pass nothing on.
  lemma {:induction false} BackwardConsts(s: Store, rank: map<Id, nat>, todo: seq<Id>, gradFn: GradFns)
    requires Ranked(s, rank) && forall j | 0 <= j < |todo| :: todo[j] in s && s[todo[j]].op == Const
    ensures Backward(s, rank, todo, gradFn) == Outcome(s, None)
    decreases |todo|
  {
    if todo != [] {
      var t, err := BackwardUnfold(s, rank, todo, gradFn);
      BackwardConsts(t, rank, todo[..|todo| - 1], gradFn);
    }
  }

  // ---------------------------------------------------------------------
  // The two cases of tests/test_autodiff.py
  // ---------------------------------------------------------------------

  /// A graph holding `op(constant(a), constant(b))` as the tracer leaves it:
  /// the constants are nodes 0 and 1, the result is node 2, and no node has
  /// a gradient yet.
  ghost predicate PairGraph(s: Store, op: Op, a: real, b: real) {
    && 0 in s && 1 in s && 2 in s
    && s[0].op == Const && s[0].inputs == [] && s[0].value == Some(a) && s[0].grad.None?
    && s[1].op == Const && s[1].inputs == [] && s[1].value == Some(b) && s[1].grad.None?
    && s[2].op == op && s[2].inputs == [0, 1] && s[2].grad.None?
  }

  /// The root of the pair graph reaches itself and the two constants.
  lemma PairReach(s: Store, rank: map<Id, nat>)
    requires Ranked(s, rank) && 0 in s && 1 in s && 2 in s
    requires s[2].inputs == [0, 1] && s[0].inputs == [] && s[1].inputs == []
    ensures Reach(s, rank, 2) == {0, 1, 2}
  {
    ReachInputs(s, rank, 2);
    assert s[2].inputs[0] == 0 && s[2].inputs[1] == 1;
    assert 0 in Reach(s, rank, 2) && 1 in Reach(s, rank, 2);
    LeafReach(s, rank, 0);
    LeafReach(s, rank, 1);
    forall x | x in Reach(s, rank, 2) ensures x in {0, 1, 2} {
      if x != 2 {
        var k :| 0 <= k < |s[2].inputs| && x in Reach(s, rank, s[2].inputs[k]);
        if k == 0 {
          assert x in Reach(s, rank, 0);
        } else {
          assert x in Reach(s, rank, 1);
        }
      }
    }
  }

  /// A node without inputs reaches only itself.
  lemma LeafReach(s: Store, rank: map<Id, nat>, id: Id)
    requires Ranked(s, rank) && id in s && s[id].inputs == []
    ensures Reach(s, rank, id) == {id}
  {
  }

  /// The sorted order of the pair graph: the constants, then the root.
  lemma PairSorted(s: Store, rank: map<Id, nat>, order: seq<Id>)
    requires Ranked(s, rank) && 0 in s && 1 in s && 2 in s
    requires s[2].inputs == [0, 1] && s[0].inputs == [] && s[1].inputs == []
    requires order == TopoSort(s, rank, 2)
    ensures 0 in order && 1 in order && |order| > 0 && order[|order| - 1] == 2
    ensures forall j | 0 <= j < |order| - 1 :: order[j] == 0 || order[j] == 1
    ensures forall j | 0 <= j < |order| :: order[j] in s
  {
    TopoSortLists(s, rank, 2);
    PairReach(s, rank);
    forall j | 0 <= j < |order| - 1 ensures order[j] == 0 || order[j] == 1 {
      assert order[j] in Reach(s, rank, 2);
      assert order[j] != order[|order| - 1];
    }
  }

  /// The pair graph after seeding, sorting and initialisation: both
  /// constants hold 0, the root holds the seed, and the sorted order lists
  /// the constants before the root.
  lemma PairSteps(s: Store, rank: map<Id, nat>, op: Op, a: real, b: real, seed: real, gradFn: GradFns)
    returns (s2: Store, order: seq<Id>)
    requires Ranked(s, rank) && PairGraph(s, op, a, b)
    ensures Ranked(s2, rank) && (Traced(s) ==> Traced(s2)) && 0 in s2 && 1 in s2 && 2 in s2
    ensures SameButGrad(s[0], s2[0]) && SameButGrad(s[1], s2[1]) && SameButGrad(s[2], s2[2])
    ensures s2[0].grad == Some(0.0) && s2[1].grad == Some(0.0) && s2[2].grad == Some(seed)
    ensures |order| > 0 && order[|order| - 1] == 2 && forall j | 0 <= j < |order| :: order[j] in s2
    ensures forall j | 0 <= j < |order| - 1 :: order[j] == 0 || order[j] == 1
    ensures Gradients(s, rank, 2, seed, gradFn) == Backward(s2, rank, order, gradFn)
  {
    var s1 := s[2 := s[2].(grad := Some(seed))];
    GradsOnlyKeeps(s, s1, rank);
    order := TopoSort(s1, rank, 2);
    PairSorted(s1, rank, order);
    s2 := InitGrads(s1, order);
    GradsOnlyKeeps(s1, s2, rank);
    assert SameButGrad(s1[0], s2[0]) && SameButGrad(s1[1], s2[1]) && SameButGrad(s1[2], s2[2]);
  }

  /// Nodes that were constants before a gradient update still are.
  lemma PrefixConst(s: Store, t: Store, todo: seq<Id>)
    requires GradsOnly(s, t) && 0 in s && 1 in s && s[0].op == Const && s[1].op == Const
    requires forall j | 0 <= j < |todo| :: todo[j] == 0 || todo[j] == 1
    ensures forall j | 0 <= j < |todo| :: todo[j] in t && t[todo[j]].op == Const
  {
    assert SameButGrad(s[0], t[0]) && SameButGrad(s[1], t[1]);
  }

  /// The add rule at the root of the pair graph, with both constants at 0
  /// and the root at 1, leaves every gradient at 1.
  lemma AddStep(s: Store, rank: map<Id, nat>, gradFn: GradFns)
    requires Ranked(s, rank) && 0 in s && 1 in s && 2 in s
    requires s[2].op == Add && s[2].inputs == [0, 1]
    requires s[0].grad == Some(0.0) && s[1].grad == Some(0.0) && s[2].grad == Some(1.0)
    ensures var r := Propagate(s, rank, 2, gradFn);
      && r.err.None?
      && r.nodes[0].grad == Some(1.0) && r.nodes[1].grad == Some(1.0) && r.nodes[2].grad == Some(1.0)
  {
    AddRule(s, rank, 2, gradFn);
    assert multiset(s[2].inputs)[0] == 1 && multiset(s[2].inputs)[1] == 1 && multiset(s[2].inputs)[2] == 0;
    assert Repeated(1.0, 1) == 1.0 && Repeated(1.0, 0) == 0.0;
  }

  /// `compute_gradients(add(a, b))` with the default seed leaves both
  /// constants with gradient 1 and the sum with gradient 1.
  lemma AddScenario(s: Store, rank: map<Id, nat>, a: real, b: real, gradFn: GradFns)
    requires Ranked(s, rank) && PairGraph(s, Add, a, b)
    ensures var r := Gradients(s, rank, 2, 1.0, gradFn);
      && r.err.None?
      && r.nodes[0].grad == Some(1.0) && r.nodes[1].grad == Some(1.0) && r.nodes[2].grad == Some(1.0)
  {
    var s2, order := PairSteps(s, rank, Add, a, b, 1.0, gradFn);
    AddBackward(s2, rank, order, gradFn);
  }

  /// The backward pass over the initialised pair graph under add.
  lemma AddBackward(s: Store, rank: map<Id, nat>, order: seq<Id>, gradFn: GradFns)
    requires Ranked(s, rank) && 0 in s && 1 in s && 2 in s
    requires s[0].op == Const && s[1].op == Const && s[2].op == Add && s[2].inputs == [0, 1]
    requires s[0].grad == Some(0.0) && s[1].grad == Some(0.0) && s[2].grad == Some(1.0)
    requires |order| > 0 && order[|order| - 1] == 2 && forall j | 0 <= j < |order| :: order[j] in s
    requires forall j | 0 <= j < |order| - 1 :: order[j] == 0 || order[j] == 1
    ensures var r := Backward(s, rank, order, gradFn);
      && r.err.None?
      && r.nodes[0].grad == Some(1.0) && r.nodes[1].grad == Some(1.0) && r.nodes[2].grad == Some(1.0)
  {
    AddStep(s, rank, gradFn);
    var t, err := BackwardUnfold(s, rank, order, gradFn);
    var todo := order[..|order| - 1];
    PrefixConst(s, t, todo);
    BackwardConsts(t, rank, todo, gradFn);
  }

  /// The mul rule at the root of the pair graph, with both constants at 0
  /// and the root at 1, credits each constant with the other's value.
  lemma MulStep(s: Store, rank: map<Id, nat>, a: real, b: real, gradFn: GradFns)
    requires Ranked(s, rank) && Traced(s) && 0 in s && 1 in s && 2 in s
    requires s[2].op == Mul && s[2].inputs == [0, 1] && s[0].value == Some(a) && s[1].value == Some(b)
    requires s[0].grad == Some(0.0) && s[1].grad == Some(0.0) && s[2].grad == Some(1.0)
    ensures var r := Propagate(s, rank, 2, gradFn);
      && r.err.None?
      && r.nodes[0].grad == Some(b) && r.nodes[1].grad == Some(a) && r.nodes[2].grad == Some(1.0)
  {
    assert s[2].inputs[0] == 0 && s[2].inputs[1] == 1;
    assert Eval(s, rank, 0) == Ok(a) && Eval(s, rank, 1) == Ok(b);
    MulRule(s, rank, 2, gradFn);
    var t := Propagate(s, rank, 2, gradFn).nodes;
    assert t[0].grad.value == 0.0 + Product(1.0, b) + 0.0;
    assert t[1].grad.value == 0.0 + 0.0 + Product(1.0, a);
    assert t[2].grad.value == 1.0 + 0.0 + 0.0;
  }

  /// The backward pass over the initialised pair graph under mul.
  lemma MulBackward(s: Store, rank: map<Id, nat>, a: real, b: real, order: seq<Id>, gradFn: GradFns)
    requires Ranked(s, rank) && Traced(s) && 0 in s && 1 in s && 2 in s
    requires s[0].op == Const && s[1].op == Const && s[2].op == Mul && s[2].inputs == [0, 1]
    requires s[0].value == Some(a) && s[1].value == Some(b)
    requires s[0].grad == Some(0.0) && s[1].grad == Some(0.0) && s[2].grad == Some(1.0)
    requires |order| > 0 && order[|order| - 1] == 2 && forall j | 0 <= j < |order| :: order[j] in s
    requires forall j | 0 <= j < |order| - 1 :: order[j] == 0 || order[j] == 1
    ensures var r := Backward(s, rank, order, gradFn);
      && r.err.None?
      && r.nodes[0].grad == Some(b) && r.nodes[1].grad == Some(a) && r.nodes[2].grad == Some(1.0)
  {
    MulStep(s, rank, a, b, gradFn);
    var t, err := BackwardUnfold(s, rank, order, gradFn);
    var todo := order[..|order| - 1];
    PrefixConst(s, t, todo);
    BackwardConsts(t, rank, todo, gradFn);
  }

  /// `compute_gradients(mul(a, b))` with the default seed leaves the first
  /// constant with gradient `b`, the second with `a`, and the product with 1.
  lemma MulScenario(s: Store, rank: map<Id, nat>, a: real, b: real, gradFn: GradFns)
    requires Ranked(s, rank) && Traced(s) && PairGraph(s, Mul, a, b)
    ensures var r := Gradients(s, rank, 2, 1.0, gradFn);
      && r.err.None?
      && r.nodes[0].grad == Some(b) && r.nodes[1].grad == Some(a) && r.nodes[2].grad == Some(1.0)
  {
    var s2, order := PairSteps(s, rank, Mul, a, b, 1.0, gradFn);
    MulBackward(s2, rank, a, b, order, gradFn);
  }

  /// `inp.grad += d`.
  method BumpGrad(g: Graph, i: Id, d: Option<real>) returns (err: Option<Error>)
    requires g.Valid() && i in g.nodes
    modifies g
    ensures g.Valid() && g.rank == old(g.rank) && g.nextId == old(g.nextId)
    ensures Outcome(g.nodes, err) == Bump(old(g.nodes), i, d)
  {
    if g.nodes[i].grad.None? || d.None? {
      return Some(TypeError);
    }
    g.SetGrad(i, Some(g.nodes[i].grad.value + d.value));
    err := None;
  }

  /// The loops `for inp in node.inputs` and `for inp, grad in zip(...)`.
  method BumpEach(g: Graph, ins: seq<Id>, ds: seq<Option<real>>) returns (err: Option<Error>)
    requires g.Valid() && |ds| <= |ins| && forall j | 0 <= j < |ins| :: ins[j] in g.nodes
    modifies g
    ensures g.Valid() && g.rank == old(g.rank) && g.nextId == old(g.nextId)
    ensures Outcome(g.nodes, err) == BumpFrom(old(g.nodes), ins, ds)
  {
    var rest, amounts := ins, ds;
    while amounts != []
      invariant |amounts| <= |rest| && forall j | 0 <= j < |rest| :: rest[j] in old(g.nodes)
      invariant g.Valid() && g.rank == old(g.rank) && g.nextId == old(g.nextId)
      invariant g.nodes.Keys == old(g.nodes).Keys
      invariant BumpFrom(g.nodes, rest, amounts) == BumpFrom(old(g.nodes), ins, ds)
      decreases |amounts|
    {
      err := BumpGrad(g, rest[0], amounts[0]);
      if err.Some? {
        return;
      }
      rest, amounts := rest[1..], amounts[1..];
    }
    err := None;
  }

  /// The body of the reverse loop for node `id`.
  method PropagateNode(g: Graph, id: Id, gradFn: GradFns) returns (err: Option<Error>)
    requires g.Valid() && id in g.nodes
    modifies g
    ensures g.Valid() && g.rank == old(g.rank) && g.nextId == old(g.nextId)
    ensures Outcome(g.nodes, err) == Propagate(old(g.nodes), g.rank, id, gradFn)
  {
    var n := g.nodes[id];
    if n.op == Add {
      err := BumpEach(g, n.inputs, Repeat(n.grad, |n.inputs|));
    } else if n.op == Mul {
      if |n.inputs| != 2 {
        return Some(UnpackError);
      }
      var av := Operand(g.nodes, g.rank, n.inputs[0]);
      if av.Err? {
        return Some(av.error);
      }
      var bv := Operand(g.nodes, g.rank, n.inputs[1]);
      if bv.Err? {
        return Some(bv.error);
      }
      err := BumpEach(g, n.inputs, [Times(n.grad, bv.value), Times(n.grad, av.value)]);
    } else if n.op == Const {
      err := None;
    } else {
      var hook := HookOf(n.metadata);
      match hook
      case NoHook =>
        err := None;
      case NotCallable =>
        err := Some(TypeError);
      case Call(tag) =>
        var grads := gradFn(tag, n);
        err := BumpEach(g, n.inputs, Zipped(grads, |n.inputs|));
    }
  }

  /// The initialisation loop over the sorted nodes.
  method InitGradients(g: Graph, order: seq<Id>)
    requires g.Valid() && forall j | 0 <= j < |order| :: order[j] in g.nodes
    modifies g
    ensures g.Valid() && g.rank == old(g.rank) && g.nextId == old(g.nextId)
    ensures g.nodes == InitGrads(old(g.nodes), order)
  {
    var k := 0;
    while k < |order|
      invariant 0 <= k <= |order| && g.Valid() && g.rank == old(g.rank) && g.nextId == old(g.nextId)
      invariant g.nodes.Keys == old(g.nodes).Keys
      invariant InitGrads(g.nodes, order[k..]) == InitGrads(old(g.nodes), order)
    {
      if g.nodes[order[k]].grad.None? {
        g.SetGrad(order[k], Some(0.0));
      }
      assert order[k..][1..] == order[k + 1..];
      k := k + 1;
    }
  }

  /// The nodes still to visit once the last one is done.
  function BackwardRest(s: Store, todo: seq<Id>): (r: seq<Id>)
    requires todo != [] && forall j | 0 <= j < |todo| :: todo[j] in s
    ensures r == todo[..|todo| - 1] && |r| < |todo|
    ensures forall j | 0 <= j < |r| :: r[j] in s
  {
    todo[..|todo| - 1]
  }

  /// The reverse loop over the sorted nodes, last first.
  method Backpropagate(g: Graph, order: seq<Id>, gradFn: GradFns) returns (err: Option<Error>)
    requires g.Valid() && forall j | 0 <= j < |order| :: order[j] in g.nodes
    modifies g
    ensures g.Valid() && g.rank == old(g.rank) && g.nextId == old(g.nextId)
    ensures Outcome(g.nodes, err) == Backward(old(g.nodes), g.rank, order, gradFn)
  {
    ghost var target := Backward(g.nodes, g.rank, order, gradFn);
    var todo := order;
    while todo != []
      invariant g.Valid() && g.rank == old(g.rank) && g.nextId == old(g.nextId)
      invariant forall j | 0 <= j < |todo| :: todo[j] in g.nodes
      invariant Backward(g.nodes, g.rank, todo, gradFn) == target
      decreases |todo|
    {
      ghost var s := g.nodes;
      err := PropagateNode(g, todo[|todo| - 1], gradFn);
      ghost var t, e := BackwardUnfold(s, g.rank, todo, gradFn);
      if err.Some? {
        return;
      }
      todo := BackwardRest(g.nodes, todo);
    }
    err := None;
  }

  /// `compute_gradients(node, seed_grad)`; `err` is the exception that
  /// stopped it, the gradients set until then staying in place.
  method ComputeGradients(g: Graph, root: Id, seed: real, gradFn: GradFns) returns (err: Option<Error>)
    requires g.Valid() && root in g.nodes
    modifies g
    ensures g.Valid() && g.rank == old(g.rank) && g.nextId == old(g.nextId)
    ensures Outcome(g.nodes, err) == Gradients(old(g.nodes), g.rank, root, seed, gradFn)
  {
    g.SetGrad(root, Some(seed));
    var order := TopologicalSort(g, root);
    TopoSortFacts(g.nodes, g.rank, root);
    InitGradients(g, order);
    err := Backpropagate(g, order, gradFn);
  }
}
