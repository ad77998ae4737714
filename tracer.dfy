/// The graph IR, the tracer's constructors, reference-count release and the
/// scalar evaluator (src/core/tracer.py).
///
/// The heap of Python `Node` objects is an arena: a `Graph` maps node
/// identities to node records, and a node names its inputs by identity, so a
/// pass that rewrites the inputs of a shared node in place is seen by every
/// consumer of that node, as in the source.
module Tracer {
  import opened Wrappers

  /// A node identity. The source draws a uuid; the model hands out a counter.
  type Id = nat

  /// The fused operator tags of the table in src/optimizations/fusion.py.
  datatype FusedKind = Fma | Mul2 | Add2 | Scale

  /// Operator tags: "const", "add", "mul", "div", the fused tags, and any
  /// other tag a caller gives to `Node(...)`.
  datatype Op = Const | Add | Mul | Div | Fused(kind: FusedKind) | Other(name: string)

  /// The values the core keeps in a node's metadata dictionary.
  datatype MetaValue =
    | NoValue                  // Python None
    | Shape(dims: seq<int>)
    | OpNames(ops: seq<Op>)
    | NodeRefs(ids: seq<Id>)
    | GradFn(tag: nat)         // a gradient function, named by its key in a registry

  type Metadata = map<string, MetaValue>

  /// A node record: operator, ordered inputs, optional value and gradient,
  /// reference count and metadata.
  datatype Node = Node(
    op: Op,
    inputs: seq<Id>,
    value: Option<real>,
    grad: Option<real>,
    refCount: int,
    metadata: Metadata)

  type Store = map<Id, Node>

  /// The exceptions the core raises.
  datatype Error =
    | UnknownOp(op: Op)   // ValueError("Unknown operation: ...")
    | IndexError          // an operator reads an input the node does not have
    | ZeroDivision        // ZeroDivisionError of a scalar division
    | TypeError           // arithmetic on None, or calling what is not callable
    | UnpackError         // ValueError of `a, b = node.inputs`
    | StopIteration       // `next(...)` over an exhausted generator

  /// An argument of `add`, `mul`, `div` or `Node(...)`: a node, or a literal
  /// that gets wrapped in a constant node.
  datatype Arg = Ref(id: Id) | Lit(literal: real)

  /// The node record `constant(v)` creates, once `refs` consumers hold it.
  function ConstNode(v: Option<real>, refs: int): Node {
    Node(Const, [], v, None, refs, map[])
  }

  /// Acyclicity witness: every node has a rank, and every input of a node is
  /// a node of the store with a strictly smaller rank.
  ghost predicate Ranked(s: Store, rank: map<Id, nat>) {
    && (forall id | id in s :: id in rank)
    && (forall id, k | id in s && 0 <= k < |s[id].inputs| ::
          s[id].inputs[k] in s && rank[s[id].inputs[k]] < rank[id])
  }

  /// The shape of the nodes the tracer builds: a constant has a value and no
  /// inputs, any other node has no value, and add/mul/div have two inputs.
  ghost predicate TracedNode(n: Node) {
    && (n.op == Const ==> n.inputs == [] && n.value.Some?)
    && (n.op != Const ==> n.value.None?)
    && (n.op == Add || n.op == Mul || n.op == Div ==> |n.inputs| == 2)
  }

  ghost predicate Traced(s: Store) {
    forall id | id in s :: TracedNode(s[id])
  }

  /// The nodes reachable from `id` through `inputs`, `id` included.
  ghost function Reach(s: Store, rank: map<Id, nat>, id: Id): set<Id>
    requires Ranked(s, rank) && id in s
    decreases rank[id]
  {
    {id} + (set k, x | 0 <= k < |s[id].inputs| && x in Reach(s, rank, s[id].inputs[k]) :: x)
  }

  /// Every node reachable from `id` is in the store and ranks no higher.
  lemma {:induction false} ReachBelow(s: Store, rank: map<Id, nat>, id: Id)
    requires Ranked(s, rank) && id in s
    ensures forall x | x in Reach(s, rank, id) :: x in s && rank[x] <= rank[id]
    decreases rank[id]
  {
    forall k | 0 <= k < |s[id].inputs| {
      ReachBelow(s, rank, s[id].inputs[k]);
    }
  }

  /// A node reaches itself, its inputs, and everything they reach.
  lemma ReachInputs(s: Store, rank: map<Id, nat>, id: Id)
    requires Ranked(s, rank) && id in s
    ensures id in Reach(s, rank, id)
    ensures forall k | 0 <= k < |s[id].inputs| ::
      s[id].inputs[k] in Reach(s, rank, id) && Reach(s, rank, s[id].inputs[k]) <= Reach(s, rank, id)
  {
    forall k | 0 <= k < |s[id].inputs|
      ensures s[id].inputs[k] in Reach(s, rank, id) && Reach(s, rank, s[id].inputs[k]) <= Reach(s, rank, id)
    {
      var i := s[id].inputs[k];
      assert i in Reach(s, rank, i);
      forall x | x in Reach(s, rank, i) ensures x in Reach(s, rank, id) {
        assert 0 <= k < |s[id].inputs| && x in Reach(s, rank, s[id].inputs[k]);
      }
    }
  }

  // ---------------------------------------------------------------------
  // evaluate (src/core/tracer.py:98-137), scalar branch
  // ---------------------------------------------------------------------

  /// `evaluate`: a node holding a value yields it; otherwise every input is
  /// evaluated in order, and add/mul/div combine the first two results.
  function Eval(s: Store, ghost rank: map<Id, nat>, id: Id): Result<real, Error>
    requires Ranked(s, rank) && id in s
    decreases rank[id], 1, 0
  {
    if s[id].value.Some? then Ok(s[id].value.value)
    else
      match EvalInputs(s, rank, id, 0)
      case Err(e) => Err(e)
      case Ok(args) => Apply(s[id].op, args)
  }

  /// The values of inputs `k..` of node `id`, or the first error among them.
  function EvalInputs(s: Store, ghost rank: map<Id, nat>, id: Id, k: nat): Result<seq<real>, Error>
    requires Ranked(s, rank) && id in s && k <= |s[id].inputs|
    decreases rank[id], 0, |s[id].inputs| - k
  {
    if k == |s[id].inputs| then Ok([])
    else
      match Eval(s, rank, s[id].inputs[k])
      case Err(e) => Err(e)
      case Ok(v) =>
        match EvalInputs(s, rank, id, k + 1)
        case Err(e) => Err(e)
        case Ok(vs) => Ok([v] + vs)
  }

  /// Python's scalar `+`, `*`, `/` on `inputs[0]` and `inputs[1]`: only the
  /// three arithmetic operators succeed, on two operands or more, and a
  /// division only by a non-zero divisor.
  function Apply(op: Op, args: seq<real>): (r: Result<real, Error>)
    ensures r.Ok? <==> (op == Add || op == Mul || op == Div) && |args| >= 2 && !(op == Div && args[1] == 0.0)
    ensures !(op == Add || op == Mul || op == Div) ==> r == Err(UnknownOp(op))
  {
    match op
    case Add => if |args| < 2 then Err(IndexError) else Ok(args[0] + args[1])
    case Mul => if |args| < 2 then Err(IndexError) else Ok(args[0] * args[1])
    case Div =>
      if |args| < 2 then Err(IndexError)
      else if args[1] == 0.0 then Err(ZeroDivision)
      else Ok(args[0] / args[1])
    case _ => Err(UnknownOp(op))
  }

  /// `trace`: a node is evaluated; a literal is returned as it is, and so is
  /// the value a node carries.
  function Trace(s: Store, ghost rank: map<Id, nat>, a: Arg): (r: Result<real, Error>)
    requires Ranked(s, rank) && (a.Ref? ==> a.id in s)
    ensures a.Lit? ==> r == Ok(a.literal)
    ensures a.Ref? && s[a.id].value.Some? ==> r == Ok(s[a.id].value.value)
    ensures a.Ref? && s[a.id].value.None? && r.Ok? ==> s[a.id].op != Const && |s[a.id].inputs| >= 2
  {
    match a
    case Ref(id) => EvalDefined(s, rank, id); Eval(s, rank, id)
    case Lit(v) => Ok(v)
  }

  /// A node that holds a value evaluates to it whatever its inputs are: the
  /// same node with its inputs dropped evaluates identically.
  lemma EvalShortCircuits(s: Store, rank: map<Id, nat>, id: Id)
    requires Ranked(s, rank) && id in s && s[id].value.Some?
    ensures Ranked(s[id := s[id].(inputs := [])], rank)
    ensures Eval(s[id := s[id].(inputs := [])], rank, id) == Eval(s, rank, id) == Ok(s[id].value.value)
  {
  }

  /// The scalar rules of `evaluate`: for a value-less add/mul/div node whose
  /// two inputs evaluate to `a` and `b`, the sum, product or quotient, taken in
  /// input order; a zero divisor raises.
  lemma {:induction false} EvalBinary(s: Store, rank: map<Id, nat>, id: Id, a: real, b: real)
    requires Ranked(s, rank) && id in s && s[id].value.None? && |s[id].inputs| == 2
    requires Eval(s, rank, s[id].inputs[0]) == Ok(a) && Eval(s, rank, s[id].inputs[1]) == Ok(b)
    ensures s[id].op == Add ==> Eval(s, rank, id) == Ok(a + b)
    ensures s[id].op == Mul ==> Eval(s, rank, id) == Ok(a * b)
    ensures s[id].op == Div ==> Eval(s, rank, id) == if b == 0.0 then Err(ZeroDivision) else Ok(a / b)
    ensures !(s[id].op == Add || s[id].op == Mul || s[id].op == Div) ==> Eval(s, rank, id) == Err(UnknownOp(s[id].op))
  {
    assert EvalInputs(s, rank, id, 2) == Ok([]);
    assert [b] + [] == [b];
    assert EvalInputs(s, rank, id, 1) == Ok([b]);
    assert [a] + [b] == [a, b];
    assert EvalInputs(s, rank, id, 0) == Ok([a, b]);
    var ab := [a, b];
    assert ab[0] == a && ab[1] == b;
    assert Eval(s, rank, id) == Apply(s[id].op, ab);
    if s[id].op == Mul {
      var p := a * b;
      assert Apply(Mul, ab).value == p;
    }
  }

  /// The input list of `evaluate` (line 112): it succeeds exactly when every
  /// input from `k` on evaluates, and then holds their values in order.
  lemma {:induction false} EvalInputsValues(s: Store, rank: map<Id, nat>, id: Id, k: nat)
    requires Ranked(s, rank) && id in s && k <= |s[id].inputs|
    ensures EvalInputs(s, rank, id, k).Ok? <==> forall j | k <= j < |s[id].inputs| :: Eval(s, rank, s[id].inputs[j]).Ok?
    ensures EvalInputs(s, rank, id, k).Ok? ==>
      var vs := EvalInputs(s, rank, id, k).value;
      |vs| == |s[id].inputs| - k && forall j | 0 <= j < |vs| :: Eval(s, rank, s[id].inputs[k + j]) == Ok(vs[j])
    decreases |s[id].inputs| - k
  {
    if k < |s[id].inputs| {
      EvalInputsValues(s, rank, id, k + 1);
      if EvalInputs(s, rank, id, k).Ok? {
        var vs := EvalInputs(s, rank, id, k).value;
        var rest := EvalInputs(s, rank, id, k + 1).value;
        assert vs == [vs[0]] + rest;
        forall j | 0 <= j < |vs| ensures Eval(s, rank, s[id].inputs[k + j]) == Ok(vs[j]) {
          if j > 0 {
            assert vs[j] == rest[j - 1] && k + j == (k + 1) + (j - 1);
          }
        }
      }
    }
  }

  /// When `evaluate` succeeds: a node carrying a value always does; any
  /// other node does exactly when it is an add, mul or div over two inputs
  /// or more that all evaluate, without a zero divisor.
  lemma EvalDefined(s: Store, rank: map<Id, nat>, id: Id)
    requires Ranked(s, rank) && id in s
    ensures Eval(s, rank, id).Ok? <==>
      || s[id].value.Some?
      || (&& (s[id].op == Add || s[id].op == Mul || s[id].op == Div) && |s[id].inputs| >= 2
          && (forall j | 0 <= j < |s[id].inputs| :: Eval(s, rank, s[id].inputs[j]).Ok?)
          && !(s[id].op == Div && Eval(s, rank, s[id].inputs[1]) == Ok(0.0)))
  {
    EvalInputsValues(s, rank, id, 0);
  }

  /// An error of an input surfaces from a value-less node before its operator
  /// is looked at.
  lemma {:induction false} EvalInputErrorPropagates(s: Store, rank: map<Id, nat>, id: Id, k: nat, e: Error)
    requires Ranked(s, rank) && id in s && s[id].value.None? && k < |s[id].inputs|
    requires forall j | 0 <= j < k :: Eval(s, rank, s[id].inputs[j]).Ok?
    requires Eval(s, rank, s[id].inputs[k]) == Err(e)
    ensures Eval(s, rank, id) == Err(e)
  {
    InputsErrorFrom(s, rank, id, 0, k, e);
  }

  lemma {:induction false} InputsErrorFrom(s: Store, rank: map<Id, nat>, id: Id, j: nat, k: nat, e: Error)
    requires Ranked(s, rank) && id in s && j <= k < |s[id].inputs|
    requires forall i | j <= i < k :: Eval(s, rank, s[id].inputs[i]).Ok?
    requires Eval(s, rank, s[id].inputs[k]) == Err(e)
    ensures EvalInputs(s, rank, id, j) == Err(e)
    decreases k - j
  {
    if j < k {
      InputsErrorFrom(s, rank, id, j + 1, k, e);
    }
  }

  // ---------------------------------------------------------------------
  // Node.release (src/core/tracer.py:45-54)
  // ---------------------------------------------------------------------

  ghost function Counts(s: Store): map<Id, int> {
    map m | m in s :: s[m].refCount
  }

  ghost function WithCounts(s: Store, c: map<Id, int>): Store
    requires s.Keys <= c.Keys
  {
    map m | m in s :: s[m].(refCount := c[m])
  }

  /// The reference counts after `release` of node `id`, from counts `c`.
  ghost function ReleaseCounts(s: Store, rank: map<Id, nat>, c: map<Id, int>, id: Id): (r: map<Id, int>)
    requires Ranked(s, rank) && id in s && s.Keys <= c.Keys
    ensures r.Keys == c.Keys
    decreases rank[id], 1, 0
  {
    ReleaseFrom(s, rank, c, id, 0)
  }

  /// Counts after the release loop of node `id` has handled inputs `k..`:
  /// each input is decremented and released when its count reaches 0.
  ghost function ReleaseFrom(s: Store, rank: map<Id, nat>, c: map<Id, int>, id: Id, k: nat): (r: map<Id, int>)
    requires Ranked(s, rank) && id in s && s.Keys <= c.Keys && k <= |s[id].inputs|
    ensures r.Keys == c.Keys
    decreases rank[id], 0, |s[id].inputs| - k
  {
    if k == |s[id].inputs| then c
    else
      var i := s[id].inputs[k];
      ReleaseFrom(s, rank, ReleaseStep(s, rank, c, s[id].inputs[k]), id, k + 1)
  }

  /// One turn of the release loop on input `i`: decrement its count, and
  /// release it when the count reaches 0.
  ghost function ReleaseStep(s: Store, rank: map<Id, nat>, c: map<Id, int>, i: Id): (r: map<Id, int>)
    requires Ranked(s, rank) && i in s && s.Keys <= c.Keys
    ensures r.Keys == c.Keys
    decreases rank[i], 2, 0
  {
    var c1 := c[i := c[i] - 1];
    if c1[i] == 0 then ReleaseCounts(s, rank, c1, i) else c1
  }

  /// After inputs `k..` of `id` are released, every count has dropped by at
  /// least the number of times the node occurs among those inputs.
  lemma {:induction false} ReleaseFromDecrements(s: Store, rank: map<Id, nat>, c: map<Id, int>, id: Id, k: nat)
    requires Ranked(s, rank) && id in s && s.Keys <= c.Keys && k <= |s[id].inputs|
    ensures forall x | x in c :: ReleaseFrom(s, rank, c, id, k)[x] <= c[x] - multiset(s[id].inputs[k..])[x]
    decreases rank[id], 0, |s[id].inputs| - k
  {
    var ins := s[id].inputs;
    if k < |ins| {
      var i := ins[k];
      var c1 := c[i := c[i] - 1];
      var c2 := ReleaseStep(s, rank, c, i);
      if c1[i] == 0 {
        ReleaseFromDecrements(s, rank, c1, i, 0);
        assert c2 == ReleaseCounts(s, rank, c1, i);
        assert ReleaseCounts(s, rank, c1, i) == ReleaseFrom(s, rank, c1, i, 0);
        assert s[i].inputs[0..] == s[i].inputs;
      }
      ReleaseFromDecrements(s, rank, c2, id, k + 1);
      assert ins[k..] == [i] + ins[k + 1..];
    }
  }

  /// `release` never raises a count, and each direct input of the released
  /// node loses at least one count per occurrence among its inputs (so
  /// `mul(x, x)` takes 2 from `x`).
  lemma ReleaseDecrements(s: Store, rank: map<Id, nat>, c: map<Id, int>, id: Id)
    requires Ranked(s, rank) && id in s && s.Keys <= c.Keys
    ensures forall x | x in c :: ReleaseCounts(s, rank, c, id)[x] <= c[x]
    ensures forall k | 0 <= k < |s[id].inputs| ::
      ReleaseCounts(s, rank, c, id)[s[id].inputs[k]] <= c[s[id].inputs[k]] - multiset(s[id].inputs)[s[id].inputs[k]]
  {
    ReleaseFromDecrements(s, rank, c, id, 0);
    assert s[id].inputs[0..] == s[id].inputs;
  }

  /// `release` of `id` touches only the counts of nodes strictly below it:
  /// its own count, and every node it does not reach, keep their counts.
  lemma {:induction false} ReleaseStaysBelow(s: Store, rank: map<Id, nat>, c: map<Id, int>, id: Id)
    requires Ranked(s, rank) && id in s && s.Keys <= c.Keys
    ensures forall x | x in c && (x !in s || x !in Reach(s, rank, id) || x == id) ::
      ReleaseCounts(s, rank, c, id)[x] == c[x]
    decreases rank[id], 1, 0
  {
    ReleaseFromStaysBelow(s, rank, c, id, 0);
  }

  lemma {:induction false} ReleaseFromStaysBelow(s: Store, rank: map<Id, nat>, c: map<Id, int>, id: Id, k: nat)
    requires Ranked(s, rank) && id in s && s.Keys <= c.Keys && k <= |s[id].inputs|
    ensures forall x | x in c && (x !in s || x !in Reach(s, rank, id) || x == id) ::
      ReleaseFrom(s, rank, c, id, k)[x] == c[x]
    decreases rank[id], 0, |s[id].inputs| - k
  {
    var ins := s[id].inputs;
    if k < |ins| {
      var i := ins[k];
      var c1 := c[i := c[i] - 1];
      var c2 := ReleaseStep(s, rank, c, i);
      ReachInputs(s, rank, id);
      ReachBelow(s, rank, i);
      if c1[i] == 0 {
        ReleaseStaysBelow(s, rank, c1, i);
      }
      ReleaseFromStaysBelow(s, rank, c2, id, k + 1);
    }
  }

  lemma WithOwnCounts(s: Store)
    ensures WithCounts(s, Counts(s)) == s
  {
  }

  lemma CountsOfWithCounts(s: Store, c: map<Id, int>)
    requires s.Keys == c.Keys
    ensures Counts(WithCounts(s, c)) == c
  {
  }

  lemma WithCountsTwice(s: Store, c: map<Id, int>, d: map<Id, int>)
    requires s.Keys == c.Keys == d.Keys
    ensures WithCounts(WithCounts(s, c), d) == WithCounts(s, d)
  {
  }

  lemma WithCountsUpdate(s: Store, c: map<Id, int>, i: Id, v: int)
    requires s.Keys == c.Keys && i in s
    ensures WithCounts(s, c)[i := WithCounts(s, c)[i].(refCount := v)] == WithCounts(s, c[i := v])
  {
  }

  lemma WithCountsRanked(s: Store, rank: map<Id, nat>, c: map<Id, int>)
    requires Ranked(s, rank) && s.Keys == c.Keys
    ensures Ranked(WithCounts(s, c), rank) && WithCounts(s, c).Keys == s.Keys
  {
  }

  /// The release spec reads only the structure (keys and inputs) of the store.
  lemma {:induction false} ReleaseCountsShape(s: Store, t: Store, rank: map<Id, nat>, c: map<Id, int>, id: Id)
    requires Ranked(s, rank) && id in s && s.Keys <= c.Keys
    requires t.Keys == s.Keys && forall m | m in s :: t[m].inputs == s[m].inputs
    ensures Ranked(t, rank)
    ensures ReleaseCounts(t, rank, c, id) == ReleaseCounts(s, rank, c, id)
    decreases rank[id], 1, 0
  {
    ReleaseFromShape(s, t, rank, c, id, 0);
  }

  lemma ReleaseStepShape(s: Store, t: Store, rank: map<Id, nat>, c: map<Id, int>, i: Id)
    requires Ranked(s, rank) && i in s && s.Keys <= c.Keys
    requires t.Keys == s.Keys && forall m | m in s :: t[m].inputs == s[m].inputs
    ensures Ranked(t, rank)
    ensures ReleaseStep(t, rank, c, i) == ReleaseStep(s, rank, c, i)
  {
    ReleaseCountsShape(s, t, rank, c[i := c[i] - 1], i);
  }

  lemma {:induction false} ReleaseFromShape(s: Store, t: Store, rank: map<Id, nat>, c: map<Id, int>, id: Id, k: nat)
    requires Ranked(s, rank) && id in s && s.Keys <= c.Keys && k <= |s[id].inputs|
    requires t.Keys == s.Keys && forall m | m in s :: t[m].inputs == s[m].inputs
    ensures Ranked(t, rank)
    ensures ReleaseFrom(t, rank, c, id, k) == ReleaseFrom(s, rank, c, id, k)
    decreases rank[id], 0, |s[id].inputs| - k
  {
    var ins := s[id].inputs;
    if k < |ins| {
      var i := ins[k];
      var c1 := c[i := c[i] - 1];
      var c2 := ReleaseStep(s, rank, c, i);
      if c1[i] == 0 {
        ReleaseCountsShape(s, t, rank, c1, i);
      }
      ReleaseFromShape(s, t, rank, c2, id, k + 1);
    }
  }

  // ---------------------------------------------------------------------
  // The node heap
  // ---------------------------------------------------------------------

  /// A rank above the ranks of all of `ids`.
  ghost function RankAbove(rank: map<Id, nat>, ids: seq<Id>): (r: nat)
    requires forall k | 0 <= k < |ids| :: ids[k] in rank
    ensures forall k | 0 <= k < |ids| :: rank[ids[k]] < r
  {
    if ids == [] then 0
    else
      var rest := RankAbove(rank, ids[1..]);
      if rank[ids[0]] + 1 > rest then rank[ids[0]] + 1 else rest
  }

  /// Input `x` stands for argument `a`: the node itself, or a constant created
  /// for the literal and held by its consumer.
  ghost predicate Wraps(s0: Store, s1: Store, x: Id, a: Arg, refs: int) {
    match a
    case Ref(i) => x == i
    case Lit(v) => x !in s0 && x in s1 && s1[x] == ConstNode(Some(v), refs)
  }

  /// `s1` is `s0` with one more reference on a node of `s0` per occurrence
  /// in `ins`, and whatever else it holds occurs in `ins`.
  ghost predicate Holds(s0: Store, s1: Store, ins: seq<Id>) {
    && (forall m | m in s0 :: m in s1 && s1[m] == s0[m].(refCount := s0[m].refCount + multiset(ins)[m]))
    && (forall m | m in s1 :: m in s0 || m in ins)
  }

  lemma HoldsStep(s0: Store, s1: Store, s2: Store, ins: seq<Id>, x: Id)
    requires Holds(s0, s1, ins)
    requires x in s0 ==> x in s1 && s2 == s1[x := s1[x].(refCount := s1[x].refCount + 1)]
    requires x !in s0 ==> x !in s1 && x in s2 && s2 == s1[x := s2[x]]
    ensures Holds(s0, s2, ins + [x])
  {
    assert multiset(ins + [x]) == multiset(ins) + multiset{x};
    forall m | m in s0
      ensures m in s2 && s2[m] == s0[m].(refCount := s0[m].refCount + multiset(ins + [x])[m])
    {
      if m == x {
        assert s2[m] == s1[m].(refCount := s1[m].refCount + 1);
      } else {
        assert s2[m] == s1[m];
      }
    }
    forall m | m in s2 ensures m in s0 || m in ins + [x] {
      if m != x {
        assert m in s1;
      }
    }
  }

  /// Each of `ins` is a node of `s1` that stands for the argument at its
  /// position in `args`.
  ghost predicate HeldArgs(s0: Store, s1: Store, ins: seq<Id>, args: seq<Arg>) {
    && |ins| <= |args|
    && (forall j | 0 <= j < |ins| :: ins[j] in s1 && Wraps(s0, s1, ins[j], args[j], 1))
    && (forall i, j | 0 <= i < j < |ins| && args[j].Lit? :: ins[i] != ins[j])
  }

  lemma HeldArgsStep(s0: Store, s1: Store, s2: Store, ins: seq<Id>, args: seq<Arg>, x: Id)
    requires HeldArgs(s0, s1, ins, args) && |ins| < |args|
    requires args[|ins|].Ref? ==> x == args[|ins|].id && x in s0 && x in s1 && s2 == s1[x := s1[x].(refCount := s1[x].refCount + 1)]
    requires args[|ins|].Lit? ==> x !in s1 && s0.Keys <= s1.Keys && s2 == s1[x := ConstNode(Some(args[|ins|].literal), 1)]
    ensures HeldArgs(s0, s2, ins + [x], args)
  {
    forall j | 0 <= j < |ins| + 1 ensures (ins + [x])[j] in s2 && Wraps(s0, s2, (ins + [x])[j], args[j], 1) {
      if j < |ins| {
        assert (ins + [x])[j] == ins[j];
        assert ins[j] in s1 && Wraps(s0, s1, ins[j], args[j], 1);
      }
    }
  }

  /// The state of the input loop of `Node.__init__` once it has taken `ins`
  /// for a prefix of `args`, from store `s0`, counter `n0` and ranks `r0`.
  ghost predicate Holding(s0: Store, n0: Id, r0: map<Id, nat>, s1: Store, n1: Id, r1: map<Id, nat>, ins: seq<Id>, args: seq<Arg>) {
    && n0 <= n1 && RankKept(s0, r0, r1)
    && HeldArgs(s0, s1, ins, args) && Holds(s0, s1, ins)
    && (forall m | m in s1 && m !in s0 :: n0 <= m)
    && (Traced(s0) ==> Traced(s1))
  }

  /// One turn of the input loop took `x` for argument `a`, from store `s1`,
  /// counter `n1` and ranks `r1` to `s2`, `n2` and `r2`.
  ghost predicate HeldArg(s1: Store, n1: Id, r1: map<Id, nat>, s2: Store, n2: Id, r2: map<Id, nat>, a: Arg, x: Id) {
    && n1 <= n2 && RankKept(s1, r1, r2) && x in s2
    && (a.Ref? ==> x == a.id && x in s1 && s2 == s1[x := s1[x].(refCount := s1[x].refCount + 1)])
    && (a.Lit? ==> n1 <= x && s2 == s1[x := ConstNode(Some(a.literal), 1)])
    && (Traced(s1) ==> Traced(s2))
  }

  lemma HoldingStep(s0: Store, n0: Id, r0: map<Id, nat>, s1: Store, n1: Id, r1: map<Id, nat>,
                    s2: Store, n2: Id, r2: map<Id, nat>, ins: seq<Id>, args: seq<Arg>, x: Id)
    requires Holding(s0, n0, r0, s1, n1, r1, ins, args) && |ins| < |args|
    requires args[|ins|].Ref? ==> args[|ins|].id in s0
    requires forall m | m in s1 :: m < n1
    requires HeldArg(s1, n1, r1, s2, n2, r2, args[|ins|], x)
    ensures Holding(s0, n0, r0, s2, n2, r2, ins + [x], args)
  {
    HoldsStep(s0, s1, s2, ins, x);
    HeldArgsStep(s0, s1, s2, ins, args, x);
  }

  /// `s1` is `s0` after `Node(op, args, value)` created node `id`: its inputs
  /// are the arguments in order, each literal wrapped in a constant of its
  /// own that the node holds; every node of `s0` gains one reference per
  /// occurrence among the inputs, and nothing else changes.
  ghost predicate Created(s0: Store, s1: Store, id: Id, op: Op, args: seq<Arg>, value: Option<real>) {
    && id !in s0 && id in s1
    && s1[id].op == op && s1[id].value == value && s1[id].grad == None
    && s1[id].refCount == 0 && s1[id].metadata == map[]
    && |s1[id].inputs| == |args|
    && (forall k | 0 <= k < |args| && args[k].Ref? :: s1[id].inputs[k] == args[k].id)
    && (forall k | 0 <= k < |args| && args[k].Lit? ::
          && s1[id].inputs[k] !in s0 && s1[id].inputs[k] in s1
          && s1[s1[id].inputs[k]] == ConstNode(Some(args[k].literal), 1))
    && (forall j, k | 0 <= j < k < |args| && args[k].Lit? :: s1[id].inputs[j] != s1[id].inputs[k])
    && (forall m | m in s0 :: m in s1 && s1[m] == s0[m].(refCount := s0[m].refCount + multiset(s1[id].inputs)[m]))
    && (forall m | m in s1 :: m in s0 || m == id || m in s1[id].inputs)
  }

  /// A node created without arguments is the only change to the store.
  lemma CreatedLeaf(s0: Store, s1: Store, id: Id, op: Op, value: Option<real>)
    requires Created(s0, s1, id, op, [], value)
    ensures s1 == s0[id := Node(op, [], value, None, 0, map[])]
  {
    assert s1[id].inputs == [];
    forall m | m in s0 ensures s1[m] == s0[m] {
      assert multiset(s1[id].inputs)[m] == 0;
    }
  }

  /// The end of `Node.__init__`: the node over the inputs the loop took
  /// joins the store, ranked above them.
  lemma AddHeldNode(s0: Store, r0: map<Id, nat>, s1: Store, n1: Id, r1: map<Id, nat>,
                    ins: seq<Id>, args: seq<Arg>, id: Id, op: Op, value: Option<real>)
    requires (forall m | m in s0 :: m < id) && Ranked(s1, r1) && (forall m | m in s1 :: m < n1)
    requires Holding(s0, id + 1, r0, s1, n1, r1, ins, args) && |ins| == |args|
    ensures var s2 := s1[id := Node(op, ins, value, None, 0, map[])];
      && Ranked(s2, r1[id := RankAbove(r1, ins)]) && (forall m | m in s2 :: m < n1)
      && RankKept(s0, r0, r1[id := RankAbove(r1, ins)])
      && Created(s0, s2, id, op, args, value)
      && (Traced(s0) ==> forall m | m in s2 && m != id :: TracedNode(s2[m]))
  {
    AddNodeRanked(s1, r1, id, Node(op, ins, value, None, 0, map[]), RankAbove(r1, ins));
  }

  /// The ranks of the nodes of `s0` are kept.
  ghost predicate RankKept(s0: Store, r0: map<Id, nat>, r1: map<Id, nat>) {
    forall m | m in s0 && m in r0 :: m in r1 && r1[m] == r0[m]
  }

  lemma RecountRanked(s: Store, rank: map<Id, nat>, i: Id, n: int)
    requires Ranked(s, rank) && i in s
    ensures Ranked(s[i := s[i].(refCount := n)], rank)
  {
  }

  lemma AddNodeRanked(s: Store, rank: map<Id, nat>, id: Id, n: Node, r: nat)
    requires Ranked(s, rank) && id !in s
    requires forall k | 0 <= k < |n.inputs| :: n.inputs[k] in s && rank[n.inputs[k]] < r
    ensures Ranked(s[id := n], rank[id := r])
  {
  }

  class Graph {
    var nodes: Store
    var nextId: Id
    ghost var rank: map<Id, nat>

    ghost predicate Valid()
      reads this
    {
      Ranked(nodes, rank) && forall id | id in nodes :: id < nextId
    }

    /// An empty heap.
    constructor ()
      ensures Valid() && nodes == map[]
    {
      nodes, nextId, rank := map[], 0, map[];
    }

    /// `Node.__init__`: a fresh identity, the inputs in order (a literal is
    /// wrapped in a new constant), one more reference on each input per
    /// occurrence, no gradient, reference count 0 and empty metadata.
    method NewNode(op: Op, args: seq<Arg>, value: Option<real>) returns (id: Id)
      requires Valid()
      requires forall k | 0 <= k < |args| && args[k].Ref? :: args[k].id in nodes
      modifies this
      decreases |args|, 1
      ensures Valid() && id == old(nextId) && RankKept(old(nodes), old(rank), rank)
      ensures Created(old(nodes), nodes, id, op, args, value)
      ensures args == [] ==> rank[id] == 0 && nextId == old(nextId) + 1
      ensures Traced(old(nodes)) ==> forall m | m in nodes && m != id :: TracedNode(nodes[m])
    {
      id := nextId;
      nextId := nextId + 1;
      var ins := HoldArgs(args);
      AddHeldNode(old(nodes), old(rank), nodes, nextId, rank, ins, args, id, op, value);
      rank := rank[id := RankAbove(rank, ins)];
      nodes := nodes[id := Node(op, ins, value, None, 0, map[])];
    }

    /// The input loop of `Node.__init__`.
    method HoldArgs(args: seq<Arg>) returns (ins: seq<Id>)
      requires Valid()
      requires forall k | 0 <= k < |args| && args[k].Ref? :: args[k].id in nodes
      modifies this
      decreases |args|, 0
      ensures Valid() && |ins| == |args|
      ensures Holding(old(nodes), old(nextId), old(rank), nodes, nextId, rank, ins, args)
      ensures args == [] ==> nextId == old(nextId)
    {
      ins := [];
      var k := 0;
      while k < |args|
        invariant 0 <= k <= |args| && |ins| == k
        invariant Valid() && Holding(old(nodes), old(nextId), old(rank), nodes, nextId, rank, ins, args)
        invariant args == [] ==> nextId == old(nextId)
      {
        ghost var s1, n1, r1 := nodes, nextId, rank;
        var input := HoldArg(args[k]);
        HoldingStep(old(nodes), old(nextId), old(rank), s1, n1, r1, nodes, nextId, rank, ins, args, input);
        ins := ins + [input];
        k := k + 1;
      }
    }

    /// One turn of the input loop of `Node.__init__`: wrap a literal in a new
    /// constant, then take a reference on the input.
    method HoldArg(a: Arg) returns (input: Id)
      requires Valid() && (a.Ref? ==> a.id in nodes)
      modifies this
      decreases 0, 3
      ensures Valid() && HeldArg(old(nodes), old(nextId), old(rank), nodes, nextId, rank, a, input)
    {
      if a.Ref? {
        input := a.id;
      } else {
        input := Constant(a.literal);
      }
      RecountRanked(nodes, rank, input, nodes[input].refCount + 1);
      nodes := nodes[input := nodes[input].(refCount := nodes[input].refCount + 1)];
    }

    /// `constant(v)`: a fresh "const" node holding `v`, with no inputs.
    method Constant(v: real) returns (id: Id)
      requires Valid()
      modifies this
      decreases 0, 2
      ensures Valid() && id == old(nextId) && id !in old(nodes)
      ensures nodes == old(nodes)[id := ConstNode(Some(v), 0)]
      ensures RankKept(old(nodes), old(rank), rank) && rank[id] == 0 && nextId == old(nextId) + 1
      ensures Traced(old(nodes)) ==> Traced(nodes)
    {
      id := NewNode(Const, [], Some(v));
      assert nodes[id].inputs == [];
    }

    /// `add(a, b)`.
    method Add(a: Arg, b: Arg) returns (id: Id)
      requires Valid() && (a.Ref? ==> a.id in nodes) && (b.Ref? ==> b.id in nodes)
      modifies this
      ensures Valid() && RankKept(old(nodes), old(rank), rank)
      ensures Created(old(nodes), nodes, id, Op.Add, [a, b], None)
      ensures Traced(old(nodes)) ==> Traced(nodes)
    {
      id := NewNode(Op.Add, [a, b], None);
    }

    /// `mul(a, b)`.
    method Mul(a: Arg, b: Arg) returns (id: Id)
      requires Valid() && (a.Ref? ==> a.id in nodes) && (b.Ref? ==> b.id in nodes)
      modifies this
      ensures Valid() && RankKept(old(nodes), old(rank), rank)
      ensures Created(old(nodes), nodes, id, Op.Mul, [a, b], None)
      ensures Traced(old(nodes)) ==> Traced(nodes)
    {
      id := NewNode(Op.Mul, [a, b], None);
    }

    /// `div(a, b)`.
    method Div(a: Arg, b: Arg) returns (id: Id)
      requires Valid() && (a.Ref? ==> a.id in nodes) && (b.Ref? ==> b.id in nodes)
      modifies this
      ensures Valid() && RankKept(old(nodes), old(rank), rank)
      ensures Created(old(nodes), nodes, id, Op.Div, [a, b], None)
      ensures Traced(old(nodes)) ==> Traced(nodes)
    {
      id := NewNode(Op.Div, [a, b], None);
    }

    /// The attribute assignment `node.inputs = ins` the passes perform. The
    /// new inputs rank below the node, so the heap stays acyclic.
    method SetInputs(id: Id, ins: seq<Id>)
      requires Valid() && id in nodes
      requires forall k | 0 <= k < |ins| :: ins[k] in nodes && rank[ins[k]] < rank[id]
      modifies this
      ensures Valid() && rank == old(rank) && nextId == old(nextId)
      ensures nodes == old(nodes)[id := old(nodes)[id].(inputs := ins)]
    {
      nodes := nodes[id := nodes[id].(inputs := ins)];
    }

    /// The attribute assignment `node.grad = grad` of reverse-mode
    /// differentiation; nothing the graph's shape depends on changes.
    method SetGrad(id: Id, grad: Option<real>)
      requires Valid() && id in nodes
      modifies this
      ensures Valid() && rank == old(rank) && nextId == old(nextId)
      ensures nodes == old(nodes)[id := old(nodes)[id].(grad := grad)]
    {
      nodes := nodes[id := nodes[id].(grad := grad)];
    }

    /// The attribute assignment `node.metadata = metadata`.
    method SetMetadata(id: Id, metadata: Metadata)
      requires Valid() && id in nodes
      modifies this
      ensures Valid() && rank == old(rank) && nextId == old(nextId)
      ensures nodes == old(nodes)[id := old(nodes)[id].(metadata := metadata)]
    {
      nodes := nodes[id := nodes[id].(metadata := metadata)];
    }

    /// Replace the acyclicity witness by another one; only ghost
    /// bookkeeping changes.
    ghost method Rerank(r: map<Id, nat>)
      requires Valid() && Ranked(nodes, r)
      modifies this
      ensures Valid() && nodes == old(nodes) && nextId == old(nextId) && rank == r
    {
      rank := r;
    }

    /// `Node.release`: decrement each input's count, in order, and release an
    /// input as soon as its count reaches 0.
    method Release(id: Id)
      requires Valid() && id in nodes
      modifies this
      decreases rank[id], 1
      ensures Valid() && rank == old(rank) && nextId == old(nextId)
      ensures nodes == WithCounts(old(nodes), ReleaseCounts(old(nodes), rank, Counts(old(nodes)), id))
    {
      ghost var s0 := nodes;
      ghost var cnt := Counts(nodes);
      WithOwnCounts(s0);
      var ins := nodes[id].inputs;
      var k := 0;
      while k < |ins|
        invariant 0 <= k <= |ins|
        invariant rank == old(rank) && nextId == old(nextId) && forall m | m in s0 :: m < nextId
        invariant cnt.Keys == s0.Keys && nodes == WithCounts(s0, cnt)
        invariant ReleaseFrom(s0, rank, cnt, id, k) == ReleaseFrom(s0, rank, Counts(s0), id, 0)
      {
        ghost var c1 := cnt;
        WithCountsRanked(s0, rank, cnt);
        ReleaseInput(ins[k]);
        CountsOfWithCounts(s0, c1);
        ReleaseStepShape(s0, WithCounts(s0, c1), rank, c1, ins[k]);
        cnt := ReleaseStep(s0, rank, c1, ins[k]);
        WithCountsTwice(s0, c1, cnt);
        k := k + 1;
      }
      WithCountsRanked(s0, rank, cnt);
    }

    /// The body of the release loop for input `i`.
    method ReleaseInput(i: Id)
      requires Valid() && i in nodes
      modifies this
      decreases rank[i], 2
      ensures Valid() && rank == old(rank) && nextId == old(nextId)
      ensures nodes == WithCounts(old(nodes), ReleaseStep(old(nodes), rank, Counts(old(nodes)), i))
    {
      ghost var s0 := nodes;
      ghost var c1 := Counts(s0)[i := s0[i].refCount - 1];
      WithOwnCounts(s0);
      WithCountsUpdate(s0, Counts(s0), i, s0[i].refCount - 1);
      WithCountsRanked(s0, rank, c1);
      nodes := nodes[i := nodes[i].(refCount := nodes[i].refCount - 1)];
      assert nodes == WithCounts(s0, c1);
      if nodes[i].refCount == 0 {
        Release(i);
        CountsOfWithCounts(s0, c1);
        ReleaseCountsShape(s0, WithCounts(s0, c1), rank, c1, i);
        WithCountsTwice(s0, c1, ReleaseCounts(s0, rank, c1, i));
      }
    }
  }
}
