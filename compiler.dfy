/// The pass pipeline of src/core/compiler.py: `apply_patterns`, which
/// rewrites the graph bottom-up with the algebraic patterns, and the
/// `Compiler` that runs constant folding, common-subexpression elimination,
/// dead-code elimination, fusion and the patterns in that order.
module Compiler {
  import opened Wrappers
  import opened Tracer
  import opened GraphFacts
  import ConstantFolding
  import Cse
  import DeadCode
  import Fusion
  import Patterns

  // ---------------------------------------------------------------------
  // apply_patterns (lines 44-65)
  // ---------------------------------------------------------------------

  /// Every node evaluates without raising.
  ghost predicate Total(s: Store, rank: map<Id, nat>)
    requires Ranked(s, rank)
  {
    forall m | m in s :: Eval(s, rank, m).Ok?
  }

  /// A traced graph in which every node evaluates without raising.
  ghost predicate Sound(s: Store, rank: map<Id, nat>) {
    Ranked(s, rank) && Traced(s) && Total(s, rank)
  }

  /// `t` comes from `s` by rewriting: the nodes of `s` keep everything but
  /// their inputs and keep as many inputs as they had, and every new node is
  /// a fresh `constant(0)`.
  ghost predicate Rewritten(s: Store, t: Store) {
    && (forall m | m in s :: m in t && t[m] == s[m].(inputs := t[m].inputs) && |t[m].inputs| == |s[m].inputs|)
    && (forall m | m in t && m !in s :: t[m] == ConstNode(Some(0.0), 0))
  }

  /// On a sound graph, `t` is sound too and every node of `s` keeps its value.
  ghost predicate KeepsSound(s: Store, rs: map<Id, nat>, t: Store, rt: map<Id, nat>) {
    && Ranked(s, rs) && Ranked(t, rt)
    && (Sound(s, rs) ==> Sound(t, rt) && forall m | m in s :: m in t && Eval(t, rt, m) == Eval(s, rs, m))
  }

  /// The changes `helper(id)` has made, from `s` to `t`, whether it returns
  /// or raises: rewriting, no node ranked above `id` touched, soundness and
  /// values kept.
  ghost predicate Partial(s: Store, rs: map<Id, nat>, t: Store, rt: map<Id, nat>, id: Id) {
    && Ranked(s, rs) && Ranked(t, rt) && id in s
    && Rewritten(s, t) && RankKept(s, rs, rt) && ConstantFolding.UntouchedFrom(s, rs, t, rs[id] + 1)
    && KeepsSound(s, rs, t, rt)
  }

  /// What `helper(id)` does, from `s` to `t`, returning or raising `r`: the
  /// changes above; only the `x * 1` replacement raises; a node without
  /// inputs is returned untouched; the result ranks no higher than `id`; and
  /// on a sound graph it has the value `id` had.
  ghost predicate SimplifyResult(s: Store, rs: map<Id, nat>, t: Store, rt: map<Id, nat>, id: Id, r: Result<Id, Error>) {
    && Partial(s, rs, t, rt, id)
    && (r.Err? ==> r.error == StopIteration)
    && (r.Ok? ==> r.value in t && rt[r.value] <= rs[id])
    && (s[id].inputs == [] ==> r == Ok(id) && t == s)
    && (Sound(s, rs) && r.Ok? ==> Eval(t, rt, r.value) == Eval(s, rs, id))
  }

  /// The result of `helper(id)` is what the first matching pattern makes of
  /// the rewired node `t[id]`: the node itself when none matches, a fresh
  /// `constant(0)` for `x * 0`, the forwarded input for `x * 1`.
  ghost predicate Decided(s: Store, t: Store, id: Id, x: Id) {
    && id in t && (forall k | 0 <= k < |t[id].inputs| :: t[id].inputs[k] in t)
    && match Patterns.MatchNode(t, id)
       case Keep => x == id
       case ToZero => x !in s && x in t && t[x] == ConstNode(Some(0.0), 0)
       case Forward(k) => x == t[id].inputs[k]
       case Raise(_) => false
  }

  /// The state of the input loop of `helper(id)` once `outs` hold the
  /// simplified first inputs.
  ghost predicate InputsSimplified(s0: Store, r0: map<Id, nat>, s: Store, r: map<Id, nat>, id: Id, outs: seq<Id>) {
    && Ranked(s0, r0) && Ranked(s, r) && id in s0
    && Rewritten(s0, s) && RankKept(s0, r0, r) && ConstantFolding.UntouchedFrom(s0, r0, s, r0[id])
    && KeepsSound(s0, r0, s, r)
    && |outs| <= |s0[id].inputs|
    && (outs == [] ==> s == s0 && r == r0)
    && (forall j | 0 <= j < |outs| :: outs[j] in s && r[outs[j]] < r0[id])
    && (Sound(s0, r0) ==> forall j | 0 <= j < |outs| :: Eval(s, r, outs[j]) == Eval(s0, r0, s0[id].inputs[j]))
  }

  /// The state of `helper(id)` once the node has been rewired to its
  /// simplified inputs (line 58).
  ghost predicate Rewound(s0: Store, r0: map<Id, nat>, s3: Store, r3: map<Id, nat>, id: Id) {
    && Ranked(s0, r0) && Ranked(s3, r3) && id in s0
    && Rewritten(s0, s3) && RankKept(s0, r0, r3) && ConstantFolding.UntouchedFrom(s0, r0, s3, r0[id] + 1)
    && KeepsSound(s0, r0, s3, r3)
    && (forall k | 0 <= k < |s3[id].inputs| :: s3[id].inputs[k] in s3 && r3[s3[id].inputs[k]] < r0[id])
    && (s0[id].inputs == [] ==> s3 == s0 && r3 == r0)
  }

  lemma RewrittenTrans(s0: Store, s1: Store, s2: Store)
    requires Rewritten(s0, s1) && Rewritten(s1, s2)
    ensures Rewritten(s0, s2)
  {
    forall m | m in s2 && m !in s0 ensures s2[m] == ConstNode(Some(0.0), 0) {
      if m in s1 {
        assert s1[m].inputs == [];
      }
    }
  }

  lemma KeepsSoundTrans(s0: Store, r0: map<Id, nat>, s1: Store, r1: map<Id, nat>, s2: Store, r2: map<Id, nat>)
    requires KeepsSound(s0, r0, s1, r1) && KeepsSound(s1, r1, s2, r2)
    requires forall m | m in s0 :: m in s1
    ensures KeepsSound(s0, r0, s2, r2)
  {
  }

  lemma InputsSimplifiedStart(s0: Store, r0: map<Id, nat>, id: Id)
    requires Ranked(s0, r0) && id in s0
    ensures InputsSimplified(s0, r0, s0, r0, id, [])
  {
  }

  /// Once every input is done, what was simplified so far is what the whole
  /// call did to the graph.
  lemma InputsPartial(s0: Store, r0: map<Id, nat>, s: Store, r: map<Id, nat>, id: Id, outs: seq<Id>)
    requires InputsSimplified(s0, r0, s, r, id, outs)
    ensures Partial(s0, r0, s, r, id)
  {
  }

  /// One turn of the input loop: the input's own result composes with the
  /// state so far, and an error leaves the changes made up to it.
  lemma InputsSimplifiedStep(s0: Store, r0: map<Id, nat>, s1: Store, r1: map<Id, nat>, s2: Store, r2: map<Id, nat>,
                             id: Id, outs: seq<Id>, x: Result<Id, Error>)
    requires InputsSimplified(s0, r0, s1, r1, id, outs) && |outs| < |s0[id].inputs|
    requires SimplifyResult(s1, r1, s2, r2, s0[id].inputs[|outs|], x)
    ensures Partial(s0, r0, s2, r2, id)
    ensures x.Ok? ==> InputsSimplified(s0, r0, s2, r2, id, outs + [x.value])
  {
    var i := s0[id].inputs[|outs|];
    assert i in s0 && r0[i] < r0[id] && r1[i] == r0[i];
    RewrittenTrans(s0, s1, s2);
    ConstantFolding.RankKeptTrans(s0, r0, s1, r1, r2);
    KeepsSoundTrans(s0, r0, s1, r1, s2, r2);
    if x.Ok? {
      var outs2 := outs + [x.value];
      forall j | 0 <= j < |outs2| ensures outs2[j] in s2 && r2[outs2[j]] < r0[id] {
        if j < |outs| {
          assert outs2[j] == outs[j];
        }
      }
      if Sound(s0, r0) {
        ConstantFolding.EvalsAppend(s0, r0, s1, r1, s2, r2, s0[id].inputs, outs, x.value);
      }
    }
  }

  /// The rewiring `node.inputs = new_inputs` keeps the graph sound and every
  /// value.
  lemma RewireKeeps(s0: Store, r0: map<Id, nat>, s2: Store, r2: map<Id, nat>, s3: Store, id: Id, outs: seq<Id>)
    requires InputsSimplified(s0, r0, s2, r2, id, outs) && |outs| == |s0[id].inputs|
    requires Ranked(s3, r2) && s3 == s2[id := s2[id].(inputs := outs)]
    ensures Rewound(s0, r0, s3, r2, id)
  {
    assert s2[id] == s0[id];
    assert Rewritten(s2, s3);
    RewrittenTrans(s0, s2, s3);
    if Sound(s0, r0) {
      RewireSound(s0, r0, s2, r2, s3, id, outs);
      KeepsSoundTrans(s0, r0, s2, r2, s3, r2);
    }
  }

  lemma RewireSound(s0: Store, r0: map<Id, nat>, s2: Store, r2: map<Id, nat>, s3: Store, id: Id, outs: seq<Id>)
    requires Sound(s0, r0) && InputsSimplified(s0, r0, s2, r2, id, outs) && |outs| == |s0[id].inputs|
    requires Ranked(s3, r2) && s3 == s2[id := s2[id].(inputs := outs)] && s2[id] == s0[id]
    ensures KeepsSound(s2, r2, s3, r2)
  {
    assert Sound(s2, r2);
    assert forall k | 0 <= k < |outs| :: Eval(s2, r2, outs[k]) == Eval(s2, r2, s2[id].inputs[k]);
    EvalRewired(s2, s3, r2, id, outs);
    assert TracedNode(s3[id]);
  }

  /// A store rewritten from `s0` keeps every node below its inputs.
  lemma RewrittenLower(s0: Store, r0: map<Id, nat>, s: Store, r: map<Id, nat>, x: Id)
    requires Ranked(s0, r0) && Ranked(s, r) && Rewritten(s0, s) && RankKept(s0, r0, r) && x in s
    ensures Lower(s0, r0, s, x)
  {
    if x !in s0 {
      assert s[x].inputs == [];
    }
  }

  /// `helper(id)` (lines 56-63) on store `s`, where `next` is the id the next
  /// node created gets: what it returns or raises, the store it leaves and
  /// the next id then. The inputs are simplified in order, an error ending
  /// the loop; then `id` is rewired to their results and the first matching
  /// pattern decides: the node itself, a fresh `constant(0)`, or the
  /// forwarded input. (The inputs' rewrites never touch `id`, which sits
  /// above them, so its record is that of `s`.) `s0` and `r0` fix the ranks
  /// the recursion descends.
  ghost function Simplified(s0: Store, r0: map<Id, nat>, s: Store, next: Id, id: Id): (res: (Result<Id, Error>, Store, Id))
    requires Ranked(s0, r0) && Lower(s0, r0, s, id)
    decreases Level(s0, r0, id), 1
    ensures s.Keys <= res.1.Keys && (res.0.Ok? ==> res.0.value in res.1)
  {
    var (outs, s1, n1) := SimplifiedUpTo(s0, r0, s, next, id, |s[id].inputs|);
    if outs.Err? then (Err(outs.error), s1, n1)
    else
      Outcome(s1[id := s[id].(inputs := outs.value)], n1, id)
  }

  /// Lines 59-63 on the rewired node `id` of `s`: the first matching
  /// pattern's replacement, or the node itself.
  ghost function Outcome(s: Store, next: Id, id: Id): (res: (Result<Id, Error>, Store, Id))
    requires id in s && forall k | 0 <= k < |s[id].inputs| :: s[id].inputs[k] in s
    ensures s.Keys <= res.1.Keys && (res.0.Ok? ==> res.0.value in res.1)
  {
    match Patterns.MatchNode(s, id)
    case Keep => (Ok(id), s, next)
    case ToZero => (Ok(next), s[next := ConstNode(Some(0.0), 0)], next + 1)
    case Forward(k) => (Ok(s[id].inputs[k]), s, next)
    case Raise(e) => (Err(e), s, next)
  }

  /// Line 57 over the first `n` inputs of `id`: each input simplified on the
  /// store the previous ones left, until one raises. (An input not below
  /// `id`, which a rewritten store never has, is kept.)
  ghost function SimplifiedUpTo(s0: Store, r0: map<Id, nat>, s: Store, next: Id, id: Id, n: nat): (res: (Result<seq<Id>, Error>, Store, Id))
    requires Ranked(s0, r0) && Lower(s0, r0, s, id) && n <= |s[id].inputs|
    decreases Level(s0, r0, id), 0, n
    ensures s.Keys <= res.1.Keys
    ensures res.0.Ok? ==> |res.0.value| == n && forall k | 0 <= k < n :: res.0.value[k] in res.1
  {
    if n == 0 then (Ok([]), s, next)
    else
      var (outs, s1, n1) := SimplifiedUpTo(s0, r0, s, next, id, n - 1);
      if outs.Err? then (outs, s1, n1)
      else
        var i := s[id].inputs[n - 1];
        if Lower(s0, r0, s1, i) then
          var (x, s2, n2) := Simplified(s0, r0, s1, n1, i);
          if x.Err? then (Err(x.error), s2, n2) else (Ok(outs.value + [x.value]), s2, n2)
        else (Ok(outs.value + [i]), s1, n1)
  }

  /// `helper(node)` (lines 56-63): the inputs first, then the node is rewired
  /// to them and the patterns are tried on it.
  method Simplify(g: Graph, id: Id, ghost base: Store, ghost baseRank: map<Id, nat>) returns (r: Result<Id, Error>)
    requires g.Valid() && id in g.nodes
    requires Ranked(base, baseRank) && Rewritten(base, g.nodes) && RankKept(base, baseRank, g.rank)
    modifies g
    decreases g.rank[id], 2
    ensures g.Valid() && SimplifyResult(old(g.nodes), old(g.rank), g.nodes, g.rank, id, r)
    ensures r.Ok? ==> Decided(old(g.nodes), g.nodes, id, r.value)
    ensures Lower(base, baseRank, old(g.nodes), id)
    ensures Gives(Simplified(base, baseRank, old(g.nodes), old(g.nextId), id), r, g.nodes, g.nextId)
  {
    ghost var s0, r0 := g.nodes, g.rank;
    RewrittenLower(base, baseRank, g.nodes, g.rank, id);
    var outs := SimplifyInputs(g, id, base, baseRank);
    if outs.Err? {
      return Err(outs.error);
    }
    ghost var s2, r2 := g.nodes, g.rank;
    g.SetInputs(id, outs.value);
    RewireKeeps(s0, r0, s2, r2, g.nodes, id, outs.value);
    assert g.nodes == s2[id := s0[id].(inputs := outs.value)];
    r := SimplifyRewired(g, id, s0, r0);
  }

  /// Line 57: `[helper(inp) for inp in node.inputs]`, in order; an error of
  /// one input ends the loop.
  method SimplifyInputs(g: Graph, id: Id, ghost base: Store, ghost baseRank: map<Id, nat>) returns (r: Result<seq<Id>, Error>)
    requires g.Valid() && id in g.nodes
    requires Ranked(base, baseRank) && Rewritten(base, g.nodes) && RankKept(base, baseRank, g.rank)
    requires Lower(base, baseRank, g.nodes, id)
    modifies g
    decreases g.rank[id], 1
    ensures g.Valid() && Partial(old(g.nodes), old(g.rank), g.nodes, g.rank, id)
    ensures r.Err? ==> r.error == StopIteration
    ensures old(g.nodes)[id].inputs == [] ==> r.Ok?
    ensures r.Ok? ==> |r.value| == |old(g.nodes)[id].inputs|
    ensures r.Ok? ==> InputsSimplified(old(g.nodes), old(g.rank), g.nodes, g.rank, id, r.value)
    ensures Gives(SimplifiedUpTo(base, baseRank, old(g.nodes), old(g.nextId), id, |old(g.nodes)[id].inputs|), r, g.nodes, g.nextId)
  {
    ghost var s0, r0, n0 := g.nodes, g.rank, g.nextId;
    var ins := g.nodes[id].inputs;
    var outs: seq<Id> := [];
    InputsSimplifiedStart(s0, r0, id);
    while |outs| < |ins|
      invariant g.Valid() && ins == s0[id].inputs
      invariant InputsSimplified(s0, r0, g.nodes, g.rank, id, outs)
      invariant Gives(SimplifiedUpTo(base, baseRank, s0, n0, id, |outs|), Ok(outs), g.nodes, g.nextId)
    {
      var x := SimplifyNext(g, id, outs, base, baseRank, s0, r0, n0);
      if x.Err? {
        return Err(x.error);
      }
      outs := outs + [x.value];
    }
    InputsPartial(s0, r0, g.nodes, g.rank, id, outs);
    r := Ok(outs);
  }

  /// One turn of the loop of line 57: the next input's `helper`.
  method SimplifyNext(g: Graph, id: Id, outs: seq<Id>, ghost base: Store, ghost baseRank: map<Id, nat>,
                      ghost s0: Store, ghost r0: map<Id, nat>, ghost n0: Id) returns (x: Result<Id, Error>)
    requires g.Valid() && Ranked(base, baseRank) && Rewritten(base, s0) && RankKept(base, baseRank, r0)
    requires Lower(base, baseRank, s0, id)
    requires InputsSimplified(s0, r0, g.nodes, g.rank, id, outs) && |outs| < |s0[id].inputs|
    requires Gives(SimplifiedUpTo(base, baseRank, s0, n0, id, |outs|), Ok(outs), g.nodes, g.nextId)
    modifies g
    decreases r0[id], 0
    ensures g.Valid() && Partial(s0, r0, g.nodes, g.rank, id)
    ensures x.Err? ==> x.error == StopIteration
    ensures x.Ok? ==> InputsSimplified(s0, r0, g.nodes, g.rank, id, outs + [x.value])
    ensures x.Ok? ==> Gives(SimplifiedUpTo(base, baseRank, s0, n0, id, |outs| + 1), Ok(outs + [x.value]), g.nodes, g.nextId)
    ensures x.Err? ==> Gives(SimplifiedUpTo(base, baseRank, s0, n0, id, |s0[id].inputs|), Err(x.error), g.nodes, g.nextId)
  {
    ghost var s1, r1, n1 := g.nodes, g.rank, g.nextId;
    RewrittenTrans(base, s0, s1);
    ConstantFolding.RankKeptTrans(base, baseRank, s0, r0, r1);
    RewrittenLower(base, baseRank, s1, r1, s0[id].inputs[|outs|]);
    assert g.nodes[id] == s0[id];
    x := Simplify(g, g.nodes[id].inputs[|outs|], base, baseRank);
    InputsSimplifiedStep(s0, r0, s1, r1, g.nodes, g.rank, id, outs, x);
    SimplifiedUpToStep(base, baseRank, s0, n0, id, outs, s1, n1, x, g.nodes, g.nextId);
    if x.Err? {
      SimplifiedUpToErr(base, baseRank, s0, n0, id, |outs| + 1, |s0[id].inputs|, x.error, g.nodes, g.nextId);
    }
  }

  lemma SimplifiedUpToStep(s0: Store, r0: map<Id, nat>, s: Store, next: Id, id: Id, outs: seq<Id>,
                           s1: Store, n1: Id, x: Result<Id, Error>, s2: Store, n2: Id)
    requires Ranked(s0, r0) && Lower(s0, r0, s, id) && |outs| < |s[id].inputs|
    requires Gives(SimplifiedUpTo(s0, r0, s, next, id, |outs|), Ok(outs), s1, n1)
    requires Lower(s0, r0, s1, s[id].inputs[|outs|])
    requires Gives(Simplified(s0, r0, s1, n1, s[id].inputs[|outs|]), x, s2, n2)
    ensures Gives(SimplifiedUpTo(s0, r0, s, next, id, |outs| + 1), if x.Err? then Err(x.error) else Ok(outs + [x.value]), s2, n2)
  {
  }

  /// Once an input raises, the loop stops: the later inputs change nothing.
  lemma {:induction false} SimplifiedUpToErr(s0: Store, r0: map<Id, nat>, s: Store, next: Id, id: Id, n: nat, m: nat,
                                             e: Error, t: Store, nt: Id)
    requires Ranked(s0, r0) && Lower(s0, r0, s, id) && n <= m <= |s[id].inputs|
    requires Gives(SimplifiedUpTo(s0, r0, s, next, id, n), Err(e), t, nt)
    ensures Gives(SimplifiedUpTo(s0, r0, s, next, id, m), Err(e), t, nt)
    decreases m
  {
    if m > n {
      SimplifiedUpToErr(s0, r0, s, next, id, n, m - 1, e, t, nt);
    }
  }

  /// A fresh constant 0 standing for a node matched by `x * 0`.
  lemma ZeroReplaces(s0: Store, r0: map<Id, nat>, s3: Store, r3: map<Id, nat>, s4: Store, r4: map<Id, nat>, id: Id, z: Id)
    requires Rewound(s0, r0, s3, r3, id) && Patterns.MatchNode(s3, id) == Patterns.ToZero
    requires Ranked(s4, r4) && z !in s3 && s4 == s3[z := ConstNode(Some(0.0), 0)]
    requires RankKept(s3, r3, r4) && r4[z] == 0
    ensures SimplifyResult(s0, r0, s4, r4, id, Ok(z)) && Decided(s0, s4, id, z)
  {
    assert Rewritten(s3, s4);
    RewrittenTrans(s0, s3, s4);
    ConstantFolding.RankKeptTrans(s0, r0, s3, r3, r4);
    assert |s3[id].inputs| > 0;
    ZeroDecided(s0, s3, s4, id, z);
    ZeroKeepsSound(s0, r0, s3, r3, s4, r4, id, z);
  }

  lemma ZeroDecided(s0: Store, s3: Store, s4: Store, id: Id, z: Id)
    requires id in s3 && forall k | 0 <= k < |s3[id].inputs| :: s3[id].inputs[k] in s3
    requires Patterns.MatchNode(s3, id) == Patterns.ToZero
    requires z !in s0 && z !in s3 && s4 == s3[z := ConstNode(Some(0.0), 0)]
    ensures Decided(s0, s4, id, z)
  {
    assert ConstantFolding.Values(s4, s4[id].inputs) == ConstantFolding.Values(s3, s3[id].inputs);
  }

  lemma ZeroKeepsSound(s0: Store, r0: map<Id, nat>, s3: Store, r3: map<Id, nat>, s4: Store, r4: map<Id, nat>, id: Id, z: Id)
    requires Rewound(s0, r0, s3, r3, id) && Patterns.MatchNode(s3, id) == Patterns.ToZero
    requires Ranked(s4, r4) && z !in s3 && s4 == s3[z := ConstNode(Some(0.0), 0)]
    ensures Sound(s0, r0) ==> KeepsSound(s0, r0, s4, r4) && Eval(s4, r4, z) == Eval(s0, r0, id)
  {
    if Sound(s0, r0) {
      assert Sound(s3, r3) && Eval(s3, r3, id) == Eval(s0, r0, id);
      Patterns.ZeroRefines(s3, r3, id);
      AddZeroKeeps(s3, r3, s4, r4, z);
      KeepsSoundTrans(s0, r0, s3, r3, s4, r4);
    }
  }

  /// A fresh constant 0 keeps a sound graph sound.
  lemma AddZeroKeeps(s: Store, r: map<Id, nat>, t: Store, rt: map<Id, nat>, z: Id)
    requires Sound(s, r) && Ranked(t, rt) && z !in s && t == s[z := ConstNode(Some(0.0), 0)]
    ensures KeepsSound(s, r, t, rt) && Eval(t, rt, z) == Ok(0.0)
  {
    EvalExtends(s, r, t, rt);
    assert Traced(t);
  }

  /// Lines 59-63 of `helper(node)`, once the inputs are rewired.
  method SimplifyRewired(g: Graph, id: Id, ghost s0: Store, ghost r0: map<Id, nat>) returns (r: Result<Id, Error>)
    requires g.Valid() && Rewound(s0, r0, g.nodes, g.rank, id)
    modifies g
    ensures g.Valid() && SimplifyResult(s0, r0, g.nodes, g.rank, id, r)
    ensures r.Ok? ==> Decided(s0, g.nodes, id, r.value)
    ensures r == Outcome(old(g.nodes), old(g.nextId), id).0
    ensures g.nodes == Outcome(old(g.nodes), old(g.nextId), id).1
    ensures g.nextId == Outcome(old(g.nodes), old(g.nextId), id).2
  {
    ghost var s3, r3 := g.nodes, g.rank;
    var rewrite := Patterns.MatchNode(g.nodes, id);
    if rewrite == Patterns.ToZero {
      ghost var n3 := g.nextId;
      ZeroOutcome(s3, n3, id);
      var z := ZeroFor(g, id, s0, r0);
      r := Ok(z);
    } else {
      r := match rewrite
        case Forward(k) => Ok(g.nodes[id].inputs[k])
        case Raise(e) => Err(e)
        case _ => Ok(id);
      InPlace(s0, r0, s3, r3, id, g.nextId);
    }
  }

  /// The patterns that create no node: the rewired graph is left as it is.
  lemma InPlace(s0: Store, r0: map<Id, nat>, s3: Store, r3: map<Id, nat>, id: Id, next: Id)
    requires Rewound(s0, r0, s3, r3, id) && Patterns.MatchNode(s3, id) != Patterns.ToZero
    ensures var (r, t, n) := Outcome(s3, next, id);
      && t == s3 && n == next
      && r == (match Patterns.MatchNode(s3, id)
               case Forward(k) => Ok(s3[id].inputs[k])
               case Raise(e) => Err(e)
               case _ => Ok(id))
      && SimplifyResult(s0, r0, s3, r3, id, r) && (r.Ok? ==> Decided(s0, s3, id, r.value))
  {
    if Sound(s0, r0) && Patterns.MatchNode(s3, id).Forward? {
      Patterns.ForwardKeeps(s3, r3, id);
    }
  }

  /// Line 61: the fresh `constant(0)` that replaces a node matched by `x * 0`.
  method ZeroFor(g: Graph, id: Id, ghost s0: Store, ghost r0: map<Id, nat>) returns (z: Id)
    requires g.Valid() && Rewound(s0, r0, g.nodes, g.rank, id) && Patterns.MatchNode(g.nodes, id) == Patterns.ToZero
    modifies g
    ensures g.Valid() && SimplifyResult(s0, r0, g.nodes, g.rank, id, Ok(z)) && Decided(s0, g.nodes, id, z)
    ensures z == old(g.nextId) && g.nextId == old(g.nextId) + 1
    ensures g.nodes == old(g.nodes)[z := ConstNode(Some(0.0), 0)]
  {
    ghost var s3, r3 := g.nodes, g.rank;
    z := g.Constant(0.0);
    ZeroReplaces(s0, r0, s3, r3, g.nodes, g.rank, id, z);
  }

  lemma ZeroOutcome(s: Store, next: Id, id: Id)
    requires id in s && forall k | 0 <= k < |s[id].inputs| :: s[id].inputs[k] in s
    requires Patterns.MatchNode(s, id) == Patterns.ToZero
    ensures Outcome(s, next, id).0 == Ok(next) && Outcome(s, next, id).2 == next + 1
    ensures Outcome(s, next, id).1 == s[next := ConstNode(Some(0.0), 0)]
  {
  }

  /// `apply_patterns(graph)`: the root's simplification. On a traced graph
  /// in which nothing raises, every node keeps its value and so does the
  /// result.
  method ApplyPatterns(g: Graph, root: Id) returns (r: Result<Id, Error>)
    requires g.Valid() && root in g.nodes
    modifies g
    ensures g.Valid() && Rewritten(old(g.nodes), g.nodes) && RankKept(old(g.nodes), old(g.rank), g.rank)
    ensures r.Err? ==> r.error == StopIteration
    ensures r.Ok? ==> r.value in g.nodes && Decided(old(g.nodes), g.nodes, root, r.value)
    ensures old(g.nodes)[root].inputs == [] ==> r == Ok(root) && g.nodes == old(g.nodes)
    ensures Sound(old(g.nodes), old(g.rank)) ==>
      && Sound(g.nodes, g.rank)
      && (forall m | m in old(g.nodes) :: Eval(g.nodes, g.rank, m) == Eval(old(g.nodes), old(g.rank), m))
      && (r.Ok? ==> Eval(g.nodes, g.rank, r.value) == Eval(old(g.nodes), old(g.rank), root))
    ensures (r, g.nodes) == Patterned(old(g.nodes), old(g.rank), old(g.nextId), root)
  {
    r := Simplify(g, root, g.nodes, g.rank);
  }

  /// `apply_patterns(graph)` (lines 44-65): `helper` on the root of store
  /// `s`, whose next fresh id is `next`; what it returns or raises, and the
  /// store it leaves.
  ghost function Patterned(s: Store, rank: map<Id, nat>, next: Id, root: Id): (Result<Id, Error>, Store)
    requires Ranked(s, rank) && root in s
  {
    RewrittenLower(s, rank, s, rank, root);
    var (r, t, _) := Simplified(s, rank, s, next, root);
    (r, t)
  }

  // ---------------------------------------------------------------------
  // Compiler (lines 13-42)
  // ---------------------------------------------------------------------

  /// The passes of `Compiler.passes`.
  datatype Pass = FoldConstants | EliminateCommon | EliminateDead | FuseOps | SimplifyPatterns

  /// A node without inputs reaches only itself, and so ends no chain of two
  /// or more: fusion leaves it alone.
  lemma LeafNotFused(s: Store, rank: map<Id, nat>, x: Id)
    requires Ranked(s, rank) && x in s && s[x].inputs == []
    ensures !Fusion.ChainReached(s, rank, x)
  {
    assert Reach(s, rank, x) == {x};
    assert Fusion.Chain(s, rank, x) == [x];
  }

  /// A point of the compilation: the current root, the store, its ranks and
  /// the id the next node created gets.
  datatype Stage = Stage(root: Id, nodes: Store, rank: map<Id, nat>, next: Id)

  ghost predicate StageOk(a: Stage) {
    Ranked(a.nodes, a.rank) && a.root in a.nodes
  }

  /// What `pass` does to the root of `a`, returning or raising `r` and
  /// leaving store `t`, ranks `rt` and next id `nt`: constant folding is
  /// `helper` of constant_folding.py exactly; CSE is `helper` of cse.py
  /// exactly; dead-code elimination returns the root and changes nothing;
  /// fusion does what its `optimize` does under some map of chain ends to
  /// fused nodes; the patterns are `apply_patterns` exactly.
  ghost predicate PassDoes(pass: Pass, a: Stage, r: Result<Id, Error>, t: Store, rt: map<Id, nat>, nt: Id)
    requires StageOk(a)
  {
    match pass
    case FoldConstants =>
      && r.Ok? && Gives(ConstantFolding.Folding(a.nodes, a.rank, a.next, a.root), r.value, t, nt)
      && ConstantFolding.FoldResult(a.nodes, a.rank, t, rt, a.root, r.value)
    case EliminateCommon =>
      r.Ok? && (r.value, t) == Cse.Eliminated(a.nodes, a.rank, a.root) && nt == a.next
    case EliminateDead =>
      r == Ok(a.root) && t == a.nodes && rt == a.rank && nt == a.next
    case FuseOps =>
      r.Ok? && exists repl :: Fusion.Fuses(a.nodes, a.rank, t, rt, a.root, r.value, repl)
    case SimplifyPatterns =>
      (r, t) == Patterned(a.nodes, a.rank, a.next, a.root)
  }

  /// Each stage of `trace` comes from the one before by the next pass of
  /// `passes`, starting with the first.
  ghost predicate Chained(passes: seq<Pass>, trace: seq<Stage>) {
    && 1 <= |trace| <= |passes| + 1
    && (forall i | 0 <= i < |trace| :: StageOk(trace[i]))
    && (forall i | 0 <= i < |trace| - 1 ::
          StageOk(trace[i]) && PassDoes(passes[i], trace[i], Ok(trace[i + 1].root), trace[i + 1].nodes, trace[i + 1].rank, trace[i + 1].next))
  }

  /// `trace` holds the stages `compile` goes through: each pass of `passes`
  /// in turn runs on the stage the previous one left, and the run ends with
  /// `r` and store `t` either after the last pass or at the first pass that
  /// raises.
  ghost predicate Runs(passes: seq<Pass>, trace: seq<Stage>, r: Result<Id, Error>, t: Store, rt: map<Id, nat>, nt: Id) {
    && Chained(passes, trace)
    && (r.Ok? ==> |trace| == |passes| + 1 && trace[|trace| - 1] == Stage(r.value, t, rt, nt))
    && (r.Err? ==> |trace| <= |passes| && StageOk(trace[|trace| - 1])
                   && PassDoes(passes[|trace| - 1], trace[|trace| - 1], r, t, rt, nt))
  }

  /// A pass that returns extends the chain by the stage it leaves.
  lemma ChainedStep(passes: seq<Pass>, trace: seq<Stage>, x: Id, t: Store, rt: map<Id, nat>, nt: Id)
    requires Chained(passes, trace) && |trace| <= |passes|
    requires PassDoes(passes[|trace| - 1], trace[|trace| - 1], Ok(x), t, rt, nt)
    requires StageOk(Stage(x, t, rt, nt))
    ensures Chained(passes, trace + [Stage(x, t, rt, nt)])
  {
    var trace2 := trace + [Stage(x, t, rt, nt)];
    forall i | 0 <= i < |trace2| - 1
      ensures StageOk(trace2[i]) && PassDoes(passes[i], trace2[i], Ok(trace2[i + 1].root), trace2[i + 1].nodes, trace2[i + 1].rank, trace2[i + 1].next)
    {
      assert trace2[i] == trace[i];
    }
  }

  /// One pass on the current root, as `PassDoes` states it. Only the
  /// patterns raise; a constant leaf passes through every pass untouched;
  /// constant folding on a traced graph of additions and multiplications
  /// yields a constant leaf holding the root's value.
  method RunPass(g: Graph, pass: Pass, root: Id) returns (r: Result<Id, Error>)
    requires g.Valid() && root in g.nodes
    modifies g
    ensures g.Valid() && (r.Ok? ==> r.value in g.nodes)
    ensures r.Err? ==> pass == SimplifyPatterns && r.error == StopIteration
    ensures ConstantFolding.IsConstLeaf(old(g.nodes)[root]) ==> r == Ok(root) && g.nodes == old(g.nodes)
    ensures pass == FoldConstants && Traced(old(g.nodes)) && ConstantFolding.AllArith(old(g.nodes)) ==>
      && r.Ok? && ConstantFolding.IsConstLeaf(g.nodes[r.value]) && g.nodes[r.value].value.Some?
      && Eval(old(g.nodes), old(g.rank), root) == Ok(g.nodes[r.value].value.value)
    ensures PassDoes(pass, Stage(root, old(g.nodes), old(g.rank), old(g.nextId)), r, g.nodes, g.rank, g.nextId)
  {
    match pass
    case FoldConstants =>
      var x := ConstantFolding.Optimize(g, root);
      r := Ok(x);
    case EliminateCommon =>
      var x := Cse.Optimize(g, root);
      r := Ok(x);
    case EliminateDead =>
      var x, _ := DeadCode.Optimize(g, root);
      r := Ok(x);
    case FuseOps =>
      if old(g.nodes)[root].inputs == [] {
        LeafNotFused(g.nodes, g.rank, root);
      }
      var x;
      ghost var repl;
      x, repl := Fusion.Optimize(g, root);
      assert Fusion.Fuses(old(g.nodes), old(g.rank), g.nodes, g.rank, root, x, repl);
      r := Ok(x);
    case SimplifyPatterns =>
      r := ApplyPatterns(g, root);
  }

  class Compiler {
    var passes: seq<Pass>

    /// `Compiler.__init__`: folding, CSE, dead code, fusion, patterns.
    constructor ()
      ensures passes == [FoldConstants, EliminateCommon, EliminateDead, FuseOps, SimplifyPatterns]
    {
      passes := [FoldConstants, EliminateCommon, EliminateDead, FuseOps, SimplifyPatterns];
    }

    /// `compile(graph)`: each pass runs, in order, on the previous one's
    /// result, and an error raised by a pass ends the compilation; `trace`
    /// holds the stages. When constant folding runs first on a traced graph
    /// of additions and multiplications, the result is a constant leaf
    /// holding the value of the original root.
    method Compile(g: Graph, root: Id) returns (r: Result<Id, Error>, ghost trace: seq<Stage>)
      requires g.Valid() && root in g.nodes
      modifies g
      ensures g.Valid() && (r.Ok? ==> r.value in g.nodes)
      ensures r.Err? ==> SimplifyPatterns in passes && r.error == StopIteration
      ensures passes == [] ==> r == Ok(root) && g.nodes == old(g.nodes)
      ensures passes != [] && passes[0] == FoldConstants && Traced(old(g.nodes)) && ConstantFolding.AllArith(old(g.nodes)) ==>
        && r.Ok? && ConstantFolding.IsConstLeaf(g.nodes[r.value]) && g.nodes[r.value].value.Some?
        && Eval(old(g.nodes), old(g.rank), root) == Ok(g.nodes[r.value].value.value)
      ensures trace != [] && trace[0] == Stage(root, old(g.nodes), old(g.rank), old(g.nextId))
      ensures Runs(passes, trace, r, g.nodes, g.rank, g.nextId)
    {
      ghost var s0, r0 := g.nodes, g.rank;
      ghost var folds := passes != [] && passes[0] == FoldConstants && Traced(s0) && ConstantFolding.AllArith(s0);
      var current := root;
      var i := 0;
      trace := [Stage(root, g.nodes, g.rank, g.nextId)];
      while i < |passes|
        invariant 0 <= i <= |passes| && g.Valid() && current in g.nodes
        invariant i == 0 ==> current == root && g.nodes == s0 && g.rank == r0
        invariant folds && i > 0 ==>
          && ConstantFolding.IsConstLeaf(g.nodes[current]) && g.nodes[current].value.Some?
          && Eval(s0, r0, root) == Ok(g.nodes[current].value.value)
        invariant |trace| == i + 1 && trace[0] == Stage(root, old(g.nodes), old(g.rank), old(g.nextId))
        invariant trace[i] == Stage(current, g.nodes, g.rank, g.nextId)
        invariant Chained(passes, trace)
      {
        var next := RunPass(g, passes[i], current);
        if next.Err? {
          return next, trace;
        }
        ChainedStep(passes, trace, next.value, g.nodes, g.rank, g.nextId);
        current := next.value;
        trace := trace + [Stage(current, g.nodes, g.rank, g.nextId)];
        i := i + 1;
      }
      r := Ok(current);
    }
  }

  // ---------------------------------------------------------------------
  // Compiling the examples of tests/test_compiler.py and examples/basic_usage.py
  // ---------------------------------------------------------------------

  /// `compile(add(constant(2), constant(3)))` is a constant holding 5.
  method CompileSum() returns (g: Graph, r: Result<Id, Error>)
    ensures r.Ok? && r.value in g.nodes
    ensures g.nodes[r.value].op == Const && g.nodes[r.value].value == Some(5.0)
  {
    var e;
    g, e := PairGraph();
    var c := new Compiler();
    ghost var trace;
    r, trace := c.Compile(g, e);
  }

  /// The graph of `add(constant(2), constant(3))`.
  method PairGraph() returns (g: Graph, e: Id)
    ensures fresh(g) && g.Valid() && Traced(g.nodes) && ConstantFolding.AllArith(g.nodes)
    ensures e in g.nodes && Eval(g.nodes, g.rank, e) == Ok(5.0)
  {
    g := new Graph();
    var a := g.Constant(2.0);
    var b := g.Constant(3.0);
    e := g.Add(Ref(a), Ref(b));
    SumValue(g.nodes, g.rank, a, b, e);
  }

  lemma SumValue(s: Store, rank: map<Id, nat>, a: Id, b: Id, e: Id)
    requires Ranked(s, rank) && Traced(s) && a != b
    requires Created(map[a := ConstNode(Some(2.0), 0)][b := ConstNode(Some(3.0), 0)], s, e, Op.Add, [Ref(a), Ref(b)], None)
    ensures ConstantFolding.AllArith(s) && Eval(s, rank, e) == Ok(5.0)
  {
    assert s[e].inputs == [a, b];
    assert s[a].value == Some(2.0) && s[b].value == Some(3.0);
    EvalBinary(s, rank, e, 2.0, 3.0);
  }

  /// `compile(mul(add(constant(2), constant(3)), constant(4)))` is a
  /// constant holding 20.
  method CompileProduct() returns (g: Graph, r: Result<Id, Error>)
    ensures r.Ok? && r.value in g.nodes
    ensures g.nodes[r.value].op == Const && g.nodes[r.value].value == Some(20.0)
  {
    var e, c;
    g, e, c := SumGraph();
    ghost var s1, rank1 := g.nodes, g.rank;
    var p := g.Mul(Ref(e), Ref(c));
    ProductValue(s1, rank1, g.nodes, g.rank, c, e, p);
    var compiler := new Compiler();
    ghost var trace;
    r, trace := compiler.Compile(g, p);
  }

  /// The graph of `add(constant(2), constant(3))` beside `constant(4)`.
  method SumGraph() returns (g: Graph, e: Id, c: Id)
    ensures fresh(g) && g.Valid() && Traced(g.nodes) && ConstantFolding.AllArith(g.nodes)
    ensures e in g.nodes && Eval(g.nodes, g.rank, e) == Ok(5.0)
    ensures c in g.nodes && g.nodes[c].value == Some(4.0) && g.nodes[c].op == Const
  {
    g := new Graph();
    var a := g.Constant(2.0);
    var b := g.Constant(3.0);
    c := g.Constant(4.0);
    e := g.Add(Ref(a), Ref(b));
    SumValue3(g.nodes, g.rank, a, b, c, e);
  }

  lemma SumValue3(s: Store, rank: map<Id, nat>, a: Id, b: Id, c: Id, e: Id)
    requires Ranked(s, rank) && Traced(s) && a != b && a != c && b != c
    requires Created(map[a := ConstNode(Some(2.0), 0)][b := ConstNode(Some(3.0), 0)][c := ConstNode(Some(4.0), 0)],
                     s, e, Op.Add, [Ref(a), Ref(b)], None)
    ensures ConstantFolding.AllArith(s) && Eval(s, rank, e) == Ok(5.0)
    ensures c in s && s[c].value == Some(4.0) && s[c].op == Const
  {
    assert s[e].inputs == [a, b];
    assert s[a].value == Some(2.0) && s[b].value == Some(3.0);
    EvalBinary(s, rank, e, 2.0, 3.0);
  }

  lemma ProductValue(s1: Store, rank1: map<Id, nat>, s: Store, rank: map<Id, nat>, c: Id, e: Id, p: Id)
    requires Ranked(s1, rank1) && Ranked(s, rank) && Traced(s)
    requires ConstantFolding.AllArith(s1) && e in s1 && Eval(s1, rank1, e) == Ok(5.0)
    requires c in s1 && s1[c].value == Some(4.0) && s1[c].op == Const
    requires Created(s1, s, p, Op.Mul, [Ref(e), Ref(c)], None)
    ensures ConstantFolding.AllArith(s) && Eval(s, rank, p) == Ok(20.0)
  {
    assert s[p].inputs == [e, c];
    assert Extends(s1, s);
    EvalExtendsAt(s1, rank1, s, rank, e);
    EvalBinary(s, rank, p, 5.0, 4.0);
  }

  // ---------------------------------------------------------------------
  // A worked case: `x * 1 + y`
  // ---------------------------------------------------------------------

  /// Leaves `x` = 3 (0), `1` (1) and `y` = 4 (3), the product `x * 1` (2)
  /// and the sum (4).
  function TimesOne(): Store {
    map[0 := ConstNode(Some(3.0), 1), 1 := ConstNode(Some(1.0), 1),
        2 := Node(Mul, [0, 1], None, None, 1, map[]),
        3 := ConstNode(Some(4.0), 1),
        4 := Node(Add, [2, 3], None, None, 0, map[])]
  }

  function TimesOneRank(): map<Id, nat> {
    map[0 := 0, 1 := 0, 2 := 1, 3 := 0, 4 := 2]
  }

  /// `helper` on a leaf returns it and changes nothing.
  lemma SimplifiedLeaf(s0: Store, r0: map<Id, nat>, s: Store, next: Id, x: Id)
    requires Ranked(s0, r0) && Lower(s0, r0, s, x) && s[x].inputs == []
    ensures Gives(Simplified(s0, r0, s, next, x), Ok(x), s, next)
  {
    assert s[x := s[x].(inputs := [])] == s;
  }

  /// `helper` on a node of two inputs, from what the calls on its inputs give.
  lemma SimplifiedPair(s0: Store, r0: map<Id, nat>, s: Store, next: Id, id: Id,
                       x0: Id, t0: Store, n0: Id, x1: Id, t1: Store, n1: Id)
    requires Ranked(s0, r0) && Lower(s0, r0, s, id) && |s[id].inputs| == 2
    requires Lower(s0, r0, s, s[id].inputs[0])
    requires Gives(Simplified(s0, r0, s, next, s[id].inputs[0]), Ok(x0), t0, n0)
    requires Lower(s0, r0, t0, s[id].inputs[1])
    requires Gives(Simplified(s0, r0, t0, n0, s[id].inputs[1]), Ok(x1), t1, n1)
    ensures x0 in t1 && x1 in t1
    ensures Simplified(s0, r0, s, next, id) == Outcome(t1[id := s[id].(inputs := [x0, x1])], n1, id)
  {
    assert [] + [x0] == [x0] && [x0] + [x1] == [x0, x1];
    assert Gives(SimplifiedUpTo(s0, r0, s, next, id, 1), Ok([x0]), t0, n0);
    assert Gives(SimplifiedUpTo(s0, r0, s, next, id, 2), Ok([x0, x1]), t1, n1);
  }

  /// The product forwards `x`; its inputs are rewired to themselves.
  lemma TimesOneProduct()
    ensures Ranked(TimesOne(), TimesOneRank())
    ensures Lower(TimesOne(), TimesOneRank(), TimesOne(), 2)
    ensures Gives(Simplified(TimesOne(), TimesOneRank(), TimesOne(), 5, 2), Ok(0), TimesOne(), 5)
  {
    var s, r := TimesOne(), TimesOneRank();
    assert Ranked(s, r);
    SimplifiedLeaf(s, r, s, 5, 0);
    SimplifiedLeaf(s, r, s, 5, 1);
    assert s[2 := s[2].(inputs := [0, 1])] == s;
    TimesOneMatch(s);
    SimplifiedPair(s, r, s, 5, 2, 0, s, 5, 1, s, 5);
  }

  lemma TimesOneMatch(s: Store)
    requires s == TimesOne()
    ensures Patterns.MatchNode(s, 2) == Patterns.Forward(0)
  {
    assert ConstantFolding.Values(s, [0, 1]) == [Some(3.0), Some(1.0)];
    assert [Some(3.0), Some(1.0)][1] == Some(1.0);
  }

  /// `x * 1` forwards `x`, so the sum is rewired to `x` and `y` and is
  /// returned; the product is left as it was.
  lemma TimesOneSimplified()
    ensures Ranked(TimesOne(), TimesOneRank()) && 4 in TimesOne()
    ensures Patterned(TimesOne(), TimesOneRank(), 5, 4) == (Ok(4), TimesOne()[4 := Node(Add, [0, 3], None, None, 0, map[])])
  {
    var s, r := TimesOne(), TimesOneRank();
    TimesOneProduct();
    SimplifiedLeaf(s, r, s, 5, 3);
    SimplifiedPair(s, r, s, 5, 4, 0, s, 5, 3, s, 5);
    var t := s[4 := Node(Add, [0, 3], None, None, 0, map[])];
    assert s[4 := s[4].(inputs := [0, 3])] == t;
    assert Patterns.MatchNode(t, 4) == Patterns.Keep;
  }
}
