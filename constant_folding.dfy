/// Constant folding (src/optimizations/constant_folding.py): every addition
/// or multiplication whose inputs have all been folded into constants is
/// replaced by a new constant holding the result.
module ConstantFolding {
  import opened Wrappers
  import opened Tracer
  import opened GraphFacts

  predicate IsConstLeaf(n: Node) {
    n.op == Const && n.inputs == []
  }

  /// Every node of the store is a constant, an addition or a multiplication.
  ghost predicate AllArith(s: Store) {
    forall m | m in s :: s[m].op == Const || s[m].op == Add || s[m].op == Mul
  }

  /// Python's `sum(values)` on scalars: 0, then each value added from left
  /// to right; adding None raises TypeError.
  function Sum(values: seq<Option<real>>): (r: Result<real, Error>)
    ensures r.Ok? <==> forall k | 0 <= k < |values| :: values[k].Some?
    ensures r.Err? ==> r.error == TypeError
  {
    if values == [] then Ok(0.0)
    else
      match Sum(values[..|values| - 1])
      case Err(e) => Err(e)
      case Ok(a) =>
        var v := values[|values| - 1];
        if v.None? then Err(TypeError) else Ok(a + v.value)
  }

  /// The product loop: the first value, multiplied in place by each later
  /// value. No values raise IndexError; None in a multiplication raises
  /// TypeError, but a single value is returned as it is, even None.
  function Product(values: seq<Option<real>>): (r: Result<Option<real>, Error>)
    ensures r.Ok? <==> |values| == 1 || (|values| > 1 && forall k | 0 <= k < |values| :: values[k].Some?)
    ensures r.Err? ==> r.error == if values == [] then IndexError else TypeError
    ensures |values| > 1 && r.Ok? ==> r.value.Some?
  {
    if values == [] then Err(IndexError)
    else if |values| == 1 then Ok(values[0])
    else
      match Product(values[..|values| - 1])
      case Err(e) => Err(e)
      case Ok(a) =>
        var v := values[|values| - 1];
        if a.None? || v.None? then Err(TypeError) else Ok(Some(a.value * v.value))
  }

  /// On two present values the sum and the product are the scalar ones.
  lemma FoldPair(a: real, b: real)
    ensures Sum([Some(a), Some(b)]) == Ok(a + b)
    ensures Product([Some(a), Some(b)]) == Ok(Some(a * b))
  {
    var vs := [Some(a), Some(b)];
    assert vs[..1] == [Some(a)] && [Some(a)][..0] == [];
    assert Sum([Some(a)]) == Ok(0.0 + a);
    var p := a * b;
    assert Product(vs).value.value == p;
  }

  /// Once the product of a prefix has failed, the product of the whole fails
  /// the same way.
  lemma {:induction false} ProductErrPersists(values: seq<Option<real>>, i: nat)
    requires 1 <= i <= |values| && Product(values[..i]).Err?
    ensures Product(values) == Product(values[..i])
    decreases |values| - i
  {
    if i < |values| {
      assert values[..i + 1][..i] == values[..i];
      ProductErrPersists(values, i + 1);
    } else {
      assert values[..i] == values;
    }
  }

  /// The multiplication loop of the fold (lines 43-48).
  method MulFold(values: seq<Option<real>>) returns (r: Result<Option<real>, Error>)
    ensures r == Product(values)
  {
    if |values| == 0 {
      return Err(IndexError);
    }
    var folded := values[0];
    assert values[..1] == [values[0]];
    var i := 1;
    while i < |values|
      invariant 1 <= i <= |values|
      invariant Product(values[..i]) == Ok(folded)
    {
      var pre := values[..i + 1];
      assert pre[..|pre| - 1] == values[..i] && pre[|pre| - 1] == values[i];
      if folded.None? || values[i].None? {
        assert Product(values[..i + 1]) == Err(TypeError);
        ProductErrPersists(values, i + 1);
        return Err(TypeError);
      }
      var p := folded.value * values[i].value;
      assert Product(pre).value.Some? && Product(pre).value.value == p;
      folded := Some(p);
      i := i + 1;
    }
    assert values[..i] == values;
    return Ok(folded);
  }

  /// The values of the nodes `ids`, in order.
  function Values(s: Store, ids: seq<Id>): (vs: seq<Option<real>>)
    requires forall k | 0 <= k < |ids| :: ids[k] in s
    ensures |vs| == |ids| && forall k | 0 <= k < |ids| :: vs[k] == s[ids[k]].value
  {
    seq(|ids|, k requires 0 <= k < |ids| => s[ids[k]].value)
  }

  // ---------------------------------------------------------------------
  // How folding changes the store
  // ---------------------------------------------------------------------

  /// `t` comes from `s` by folding: the nodes of `s` keep everything but
  /// their inputs, constants keep even those, and every new node is a
  /// constant without inputs.
  ghost predicate Folded(s: Store, t: Store) {
    && (forall m | m in s :: m in t && t[m] == s[m].(inputs := t[m].inputs))
    && (forall m | m in s && s[m].op == Const :: t[m] == s[m])
    && (forall m | m in t && m !in s :: IsConstLeaf(t[m]))
  }

  /// The nodes of `s` ranked `bound` or higher are untouched in `t`.
  ghost predicate UntouchedFrom(s: Store, r: map<Id, nat>, t: Store, bound: nat) {
    forall m | m in s && m in r && r[m] >= bound :: m in t && t[m] == s[m]
  }

  /// On a traced graph, `t` is traced too and every node of `s` keeps its value.
  ghost predicate KeepsValues(s: Store, rs: map<Id, nat>, t: Store, rt: map<Id, nat>) {
    && Ranked(s, rs) && Ranked(t, rt)
    && (Traced(s) ==> Traced(t) && forall m | m in s :: m in t && Eval(t, rt, m) == Eval(s, rs, m))
  }

  /// What `helper(id)` does, from store `s` to store `t`, returning `x`: the
  /// store is folded, nothing ranked above `id` is touched, the result is
  /// `id` itself or a new constant, a constant is returned untouched, and on
  /// a traced graph every value is kept and `x` has the value `id` had; on a
  /// traced graph of additions and multiplications `x` is a constant.
  ghost predicate FoldResult(s: Store, rs: map<Id, nat>, t: Store, rt: map<Id, nat>, id: Id, x: Id) {
    && Ranked(s, rs) && Ranked(t, rt) && id in s
    && Folded(s, t) && RankKept(s, rs, rt) && UntouchedFrom(s, rs, t, rs[id] + 1)
    && x in t && rt[x] <= rs[id]
    && (x == id || (x !in s && IsConstLeaf(t[x])))
    && (s[id].op == Const ==> x == id && t == s)
    && KeepsValues(s, rs, t, rt)
    && (Traced(s) ==> Eval(t, rt, x) == Eval(s, rs, id))
    && (Traced(s) && AllArith(s) ==> IsConstLeaf(t[x]) && t[x].value.Some?)
    && Decided(s, rs, t, rt, id, x)
  }

  /// Lines 29-50: node `n` of `t` folds. It is not a constant, all of its
  /// inputs are constants, and adding or multiplying their values succeeds.
  ghost predicate Folds(t: Store, n: Id)
    requires n in t && forall k | 0 <= k < |t[n].inputs| :: t[n].inputs[k] in t
  {
    && t[n].op != Const
    && (forall k | 0 <= k < |t[n].inputs| :: t[t[n].inputs[k]].op == Const)
    && FoldOp(t[n].op, Values(t, t[n].inputs)).Ok?
  }

  /// Nothing under `n` is left to fold: `n` is a constant, or a node that
  /// does not fold over inputs under which nothing is left to fold.
  ghost predicate Normal(t: Store, rank: map<Id, nat>, n: Id)
    requires Ranked(t, rank) && n in t
    decreases rank[n]
  {
    t[n].op == Const || (!Folds(t, n) && forall k | 0 <= k < |t[n].inputs| :: Normal(t, rank, t[n].inputs[k]))
  }

  /// Every node of `s` with nothing left to fold under it is untouched in `t`.
  ghost predicate NormalKept(s: Store, rs: map<Id, nat>, t: Store)
    requires Ranked(s, rs)
  {
    forall m | m in s && Normal(s, rs, m) :: m in t && t[m] == s[m]
  }

  /// How `helper(id)` decides, from store `s` to store `t`, returning `x`:
  /// nothing is left to fold under `x`; nodes with nothing left to fold
  /// are untouched, and a node with nothing left to fold is returned as it
  /// is; a node other than a constant has each input replaced by a node
  /// with nothing left to fold and the input's value; and the result is a
  /// new constant exactly when the rewired node folds, holding the sum or
  /// product of its inputs' values. Which node replaces each input, and
  /// which store results, `FoldSpec` states exactly.
  ghost predicate Decided(s: Store, rs: map<Id, nat>, t: Store, rt: map<Id, nat>, id: Id, x: Id)
    requires Ranked(s, rs) && Ranked(t, rt) && id in s && id in t && x in t
  {
    && Normal(t, rt, x)
    && NormalKept(s, rs, t)
    && (Normal(s, rs, id) ==> x == id && t == s)
    && (x != id <==> Folds(t, id))
    && (x != id ==> t[x] == ConstNode(FoldOp(t[id].op, Values(t, t[id].inputs)).value, 0))
    && (s[id].op != Const ==>
          && |t[id].inputs| == |s[id].inputs|
          && forall k | 0 <= k < |s[id].inputs| ::
               && Normal(t, rt, t[id].inputs[k])
               && (Traced(s) ==> Eval(t, rt, t[id].inputs[k]) == Eval(s, rs, s[id].inputs[k])))
  }

  /// A node with nothing left to fold under it keeps that in a store where
  /// such nodes are untouched.
  lemma {:induction false} NormalStays(s: Store, rs: map<Id, nat>, t: Store, rt: map<Id, nat>, m: Id)
    requires Ranked(s, rs) && Ranked(t, rt) && RankKept(s, rs, rt) && m in s
    requires Normal(s, rs, m) && NormalKept(s, rs, t)
    ensures m in t && Normal(t, rt, m)
    decreases rs[m]
  {
    if s[m].op != Const {
      var ins := s[m].inputs;
      forall k | 0 <= k < |ins| ensures t[ins[k]] == s[ins[k]] && Normal(t, rt, ins[k]) {
        NormalStays(s, rs, t, rt, ins[k]);
      }
      assert Values(t, ins) == Values(s, ins);
    }
  }

  /// ... and in a store where only nodes ranked `bound` or higher changed.
  lemma {:induction false} NormalBelow(s: Store, r: map<Id, nat>, t: Store, m: Id, bound: nat)
    requires Ranked(s, r) && Ranked(t, r) && m in s && r[m] < bound && Normal(s, r, m)
    requires forall m' | m' in s && r[m'] < bound :: m' in t && t[m'] == s[m']
    ensures m in t && Normal(t, r, m)
    decreases r[m]
  {
    if s[m].op != Const {
      var ins := s[m].inputs;
      forall k | 0 <= k < |ins| ensures t[ins[k]] == s[ins[k]] && Normal(t, r, ins[k]) {
        NormalBelow(s, r, t, ins[k], bound);
      }
      assert Values(t, ins) == Values(s, ins);
    }
  }

  lemma NormalKeptTrans(s0: Store, r0: map<Id, nat>, s1: Store, r1: map<Id, nat>, s2: Store)
    requires Ranked(s0, r0) && Ranked(s1, r1) && RankKept(s0, r0, r1)
    requires NormalKept(s0, r0, s1) && NormalKept(s1, r1, s2)
    ensures NormalKept(s0, r0, s2)
  {
    forall m | m in s0 && Normal(s0, r0, m) ensures m in s2 && s2[m] == s0[m] {
      NormalStays(s0, r0, s1, r1, m);
    }
  }

  /// The state of the input loop of `helper(id)` once `outs` hold the folded
  /// first inputs.
  ghost predicate InputsFolded(s0: Store, r0: map<Id, nat>, s: Store, r: map<Id, nat>, id: Id, outs: seq<Id>) {
    && Ranked(s0, r0) && Ranked(s, r) && id in s0
    && Folded(s0, s) && RankKept(s0, r0, r) && UntouchedFrom(s0, r0, s, r0[id])
    && |outs| <= |s0[id].inputs|
    && (forall j | 0 <= j < |outs| :: outs[j] in s && r[outs[j]] < r0[id])
    && KeepsValues(s0, r0, s, r)
    && (Traced(s0) ==> forall j | 0 <= j < |outs| :: Eval(s, r, outs[j]) == Eval(s0, r0, s0[id].inputs[j]))
    && (Traced(s0) && AllArith(s0) ==> forall j | 0 <= j < |outs| :: IsConstLeaf(s[outs[j]]) && s[outs[j]].value.Some?)
    && InputsNormal(s0, r0, s, r, id, outs)
  }

  /// ... and nothing is left to fold under the folded inputs.
  ghost predicate InputsNormal(s0: Store, r0: map<Id, nat>, s: Store, r: map<Id, nat>, id: Id, outs: seq<Id>)
    requires Ranked(s0, r0) && Ranked(s, r) && id in s0 && |outs| <= |s0[id].inputs|
    requires forall j | 0 <= j < |outs| :: outs[j] in s
  {
    && NormalKept(s0, r0, s)
    && (forall j | 0 <= j < |outs| :: Normal(s, r, outs[j]))
    && (Normal(s0, r0, id) && s0[id].op != Const ==> s == s0 && outs == s0[id].inputs[..|outs|])
  }

  lemma FoldedKeepsArith(s: Store, t: Store)
    requires Folded(s, t) && AllArith(s)
    ensures AllArith(t)
  {
  }

  lemma InputsFoldedStart(s0: Store, r0: map<Id, nat>, id: Id)
    requires Ranked(s0, r0) && id in s0
    ensures InputsFolded(s0, r0, s0, r0, id, [])
  {
  }

  lemma FoldedTrans(s0: Store, s1: Store, s2: Store)
    requires Folded(s0, s1) && Folded(s1, s2)
    ensures Folded(s0, s2)
  {
  }

  lemma RankKeptTrans(s0: Store, r0: map<Id, nat>, s1: Store, r1: map<Id, nat>, r2: map<Id, nat>)
    requires RankKept(s0, r0, r1) && RankKept(s1, r1, r2)
    requires forall m | m in s0 :: m in s1
    ensures RankKept(s0, r0, r2)
  {
  }

  lemma KeepsValuesTrans(s0: Store, r0: map<Id, nat>, s1: Store, r1: map<Id, nat>, s2: Store, r2: map<Id, nat>)
    requires KeepsValues(s0, r0, s1, r1) && KeepsValues(s1, r1, s2, r2)
    requires forall m | m in s0 :: m in s1
    ensures KeepsValues(s0, r0, s2, r2)
  {
  }

  /// Appending to `outs` an input that evaluates like the next of `ins`
  /// keeps the two evaluating alike, position by position.
  lemma EvalsAppend(s0: Store, r0: map<Id, nat>, s1: Store, r1: map<Id, nat>, s2: Store, r2: map<Id, nat>,
                    ins: seq<Id>, outs: seq<Id>, x: Id)
    requires Ranked(s0, r0) && Ranked(s1, r1) && Ranked(s2, r2) && |outs| < |ins|
    requires forall j | 0 <= j < |ins| :: ins[j] in s0
    requires forall j | 0 <= j < |outs| :: outs[j] in s1 && Eval(s1, r1, outs[j]) == Eval(s0, r0, ins[j])
    requires forall m | m in s1 :: m in s2 && Eval(s2, r2, m) == Eval(s1, r1, m)
    requires x in s2 && Eval(s2, r2, x) == Eval(s0, r0, ins[|outs|])
    ensures forall j | 0 <= j < |outs| + 1 :: (outs + [x])[j] in s2 && Eval(s2, r2, (outs + [x])[j]) == Eval(s0, r0, ins[j])
  {
    forall j | 0 <= j < |outs| + 1 ensures (outs + [x])[j] in s2 && Eval(s2, r2, (outs + [x])[j]) == Eval(s0, r0, ins[j]) {
      if j < |outs| {
        assert (outs + [x])[j] == outs[j];
      }
    }
  }

  lemma InputsFoldedStep(s0: Store, r0: map<Id, nat>, s1: Store, r1: map<Id, nat>, s2: Store, r2: map<Id, nat>,
                         id: Id, outs: seq<Id>, x: Id)
    requires InputsFolded(s0, r0, s1, r1, id, outs) && |outs| < |s0[id].inputs|
    requires FoldResult(s1, r1, s2, r2, s0[id].inputs[|outs|], x)
    ensures InputsFolded(s0, r0, s2, r2, id, outs + [x])
  {
    var i := s0[id].inputs[|outs|];
    assert i in s0 && r0[i] < r0[id] && r1[i] == r0[i];
    FoldedTrans(s0, s1, s2);
    RankKeptTrans(s0, r0, s1, r1, r2);
    KeepsValuesTrans(s0, r0, s1, r1, s2, r2);
    var outs2 := outs + [x];
    forall j | 0 <= j < |outs2| ensures outs2[j] in s2 && r2[outs2[j]] < r0[id] {
      if j < |outs| {
        assert outs2[j] == outs[j];
      }
    }
    InputsNormalStep(s0, r0, s1, r1, s2, r2, id, outs, x);
    if Traced(s0) {
      InputsValuesStep(s0, r0, s1, r1, s2, r2, id, outs, x);
    }
  }

  lemma InputsValuesStep(s0: Store, r0: map<Id, nat>, s1: Store, r1: map<Id, nat>, s2: Store, r2: map<Id, nat>,
                         id: Id, outs: seq<Id>, x: Id)
    requires Ranked(s0, r0) && Ranked(s1, r1) && Ranked(s2, r2) && id in s0 && |outs| < |s0[id].inputs|
    requires Traced(s0) && KeepsValues(s0, r0, s1, r1) && Folded(s0, s1) && forall m | m in s0 :: m in s1
    requires forall j | 0 <= j < |outs| :: outs[j] in s1 && Eval(s1, r1, outs[j]) == Eval(s0, r0, s0[id].inputs[j])
    requires AllArith(s0) ==> forall j | 0 <= j < |outs| :: IsConstLeaf(s1[outs[j]]) && s1[outs[j]].value.Some?
    requires var i := s0[id].inputs[|outs|];
      && i in s1 && x in s2 && Folded(s1, s2) && KeepsValues(s1, r1, s2, r2)
      && Eval(s2, r2, x) == Eval(s1, r1, i)
      && (AllArith(s1) ==> IsConstLeaf(s2[x]) && s2[x].value.Some?)
    ensures forall j | 0 <= j < |outs| + 1 :: (outs + [x])[j] in s2 && Eval(s2, r2, (outs + [x])[j]) == Eval(s0, r0, s0[id].inputs[j])
    ensures AllArith(s0) ==> forall j | 0 <= j < |outs| + 1 :: IsConstLeaf(s2[(outs + [x])[j]]) && s2[(outs + [x])[j]].value.Some?
  {
    var outs2 := outs + [x];
    assert Traced(s1);
    EvalsAppend(s0, r0, s1, r1, s2, r2, s0[id].inputs, outs, x);
    if AllArith(s0) {
      FoldedKeepsArith(s0, s1);
      forall j | 0 <= j < |outs2| ensures IsConstLeaf(s2[outs2[j]]) && s2[outs2[j]].value.Some? {
        if j < |outs| {
          assert outs2[j] == outs[j];
        }
      }
    }
  }

  lemma InputsNormalStep(s0: Store, r0: map<Id, nat>, s1: Store, r1: map<Id, nat>, s2: Store, r2: map<Id, nat>,
                         id: Id, outs: seq<Id>, x: Id)
    requires Ranked(s0, r0) && Ranked(s1, r1) && Ranked(s2, r2) && id in s0 && |outs| < |s0[id].inputs|
    requires RankKept(s0, r0, r1) && RankKept(s1, r1, r2) && forall m | m in s0 :: m in s1
    requires forall j | 0 <= j < |outs| :: outs[j] in s1
    requires InputsNormal(s0, r0, s1, r1, id, outs)
    requires var i := s0[id].inputs[|outs|];
      && i in s1 && x in s2 && Normal(s2, r2, x) && NormalKept(s1, r1, s2)
      && (Normal(s1, r1, i) ==> x == i && s2 == s1)
    ensures forall j | 0 <= j < |outs| + 1 :: (outs + [x])[j] in s2
    ensures InputsNormal(s0, r0, s2, r2, id, outs + [x])
  {
    var i := s0[id].inputs[|outs|];
    var outs2 := outs + [x];
    NormalKeptTrans(s0, r0, s1, r1, s2);
    forall j | 0 <= j < |outs2| ensures Normal(s2, r2, outs2[j]) {
      if j < |outs| {
        assert outs2[j] == outs[j];
        NormalStays(s1, r1, s2, r2, outs[j]);
      }
    }
    if Normal(s0, r0, id) && s0[id].op != Const {
      NormalStays(s0, r0, s1, r1, i);
      assert s0[id].inputs[..|outs2|] == outs + [i];
    }
  }

  /// The state of `helper(id)` once the node has been rewired to its folded
  /// inputs (line 27).
  ghost predicate Rewound(s0: Store, r0: map<Id, nat>, s3: Store, r3: map<Id, nat>, id: Id) {
    && Ranked(s0, r0) && Ranked(s3, r3) && id in s0 && s0[id].op != Const
    && Folded(s0, s3) && RankKept(s0, r0, r3) && UntouchedFrom(s0, r0, s3, r0[id] + 1)
    && KeepsValues(s0, r0, s3, r3)
    && (Traced(s0) ==> Eval(s3, r3, id) == Eval(s0, r0, id))
    && (Traced(s0) && AllArith(s0) ==>
          forall k | 0 <= k < |s3[id].inputs| :: IsConstLeaf(s3[s3[id].inputs[k]]) && s3[s3[id].inputs[k]].value.Some?)
    && RewiredNormal(s0, r0, s3, r3, id)
  }

  /// Node `id` of `s3` has as inputs the folds of its inputs in `s0`, with
  /// nothing left to fold under them and the same values.
  ghost predicate RewiredNormal(s0: Store, r0: map<Id, nat>, s3: Store, r3: map<Id, nat>, id: Id)
    requires Ranked(s0, r0) && Ranked(s3, r3) && id in s0 && id in s3
  {
    && NormalKept(s0, r0, s3)
    && (Normal(s0, r0, id) ==> s3 == s0)
    && |s3[id].inputs| == |s0[id].inputs|
    && forall k | 0 <= k < |s0[id].inputs| ::
         && Normal(s3, r3, s3[id].inputs[k])
         && (Traced(s0) ==> Eval(s3, r3, s3[id].inputs[k]) == Eval(s0, r0, s0[id].inputs[k]))
  }

  /// The rewiring `node.inputs = optimized_inputs` keeps the store traced
  /// and every value.
  lemma RewireKeepsValues(s0: Store, r0: map<Id, nat>, s2: Store, r2: map<Id, nat>, s3: Store, id: Id, outs: seq<Id>)
    requires InputsFolded(s0, r0, s2, r2, id, outs) && |outs| == |s0[id].inputs| && s0[id].op != Const
    requires Ranked(s3, r2) && s3 == s2[id := s2[id].(inputs := outs)]
    ensures Rewound(s0, r0, s3, r2, id)
  {
    assert s2[id] == s0[id];
    assert Folded(s2, s3);
    FoldedTrans(s0, s2, s3);
    if Traced(s0) {
      EvalRewired(s2, s3, r2, id, outs);
      assert TracedNode(s3[id]);
      assert KeepsValues(s2, r2, s3, r2);
      KeepsValuesTrans(s0, r0, s2, r2, s3, r2);
    }
    RewireNormal(s0, r0, s2, r2, s3, id, outs);
  }

  lemma RewireNormal(s0: Store, r0: map<Id, nat>, s2: Store, r2: map<Id, nat>, s3: Store, id: Id, outs: seq<Id>)
    requires Ranked(s0, r0) && Ranked(s2, r2) && id in s0 && id in s2 && s2[id] == s0[id] && RankKept(s0, r0, r2)
    requires s0[id].op != Const && |outs| == |s0[id].inputs| && forall j | 0 <= j < |outs| :: outs[j] in s2 && r2[outs[j]] < r0[id]
    requires InputsNormal(s0, r0, s2, r2, id, outs)
    requires Traced(s0) ==> forall j | 0 <= j < |outs| :: Eval(s2, r2, outs[j]) == Eval(s0, r0, s0[id].inputs[j])
    requires Ranked(s3, r2) && s3 == s2[id := s2[id].(inputs := outs)]
    requires Traced(s0) ==> forall m | m in s2 :: Eval(s3, r2, m) == Eval(s2, r2, m)
    ensures RewiredNormal(s0, r0, s3, r2, id)
  {
    forall k | 0 <= k < |outs| ensures Normal(s3, r2, outs[k]) {
      NormalBelow(s2, r2, s3, outs[k], r2[id]);
    }
    if Normal(s0, r0, id) {
      assert outs == s0[id].inputs[..|outs|] == s0[id].inputs;
      assert s3 == s2;
    }
  }

  /// What the fold of a node whose inputs are all constants computes: the
  /// sum for an addition, the product for a multiplication; any other
  /// operator keeps the node.
  function FoldOp(op: Op, values: seq<Option<real>>): (r: Result<Option<real>, Error>)
    ensures r.Ok? ==> op == Add || op == Mul
    ensures op == Add ==> (r.Ok? <==> Sum(values).Ok?) && (r.Ok? ==> r.value == Some(Sum(values).value))
    ensures op == Mul ==> r == Product(values)
  {
    match op
    case Add => (match Sum(values) case Ok(v) => Ok(Some(v)) case Err(e) => Err(e))
    case Mul => Product(values)
    case _ => Err(UnknownOp(op))
  }

  /// Lines 32-52 on the values of the constant inputs.
  method ComputeFold(op: Op, values: seq<Option<real>>) returns (r: Result<Option<real>, Error>)
    ensures r == FoldOp(op, values)
  {
    if op == Add {
      var sum := Sum(values);
      if sum.Ok? {
        return Ok(Some(sum.value));
      }
      return Err(sum.error);
    } else if op == Mul {
      r := MulFold(values);
    } else {
      r := Err(UnknownOp(op));
    }
  }

  /// On a traced graph a node whose inputs are all constants folds into the
  /// value it evaluates to.
  lemma FoldedValue(s: Store, r: map<Id, nat>, id: Id)
    requires Ranked(s, r) && id in s && Traced(s)
    requires forall k | 0 <= k < |s[id].inputs| :: s[s[id].inputs[k]].op == Const
    requires FoldOp(s[id].op, Values(s, s[id].inputs)).Ok?
    ensures FoldOp(s[id].op, Values(s, s[id].inputs)).value.Some?
    ensures Eval(s, r, id) == Ok(FoldOp(s[id].op, Values(s, s[id].inputs)).value.value)
  {
    var outs := s[id].inputs;
    assert TracedNode(s[id]) && TracedNode(s[outs[0]]) && TracedNode(s[outs[1]]);
    var a, b := s[outs[0]].value.value, s[outs[1]].value.value;
    assert Values(s, outs) == [Some(a), Some(b)];
    FoldPair(a, b);
    EvalBinary(s, r, id, a, b);
  }

  /// On a traced graph of additions and multiplications the rewired node has
  /// constant inputs and folds.
  lemma ArithFolds(s0: Store, r0: map<Id, nat>, s3: Store, r3: map<Id, nat>, id: Id)
    requires Rewound(s0, r0, s3, r3, id) && Traced(s0) && AllArith(s0)
    ensures forall k | 0 <= k < |s3[id].inputs| :: s3[s3[id].inputs[k]].op == Const
    ensures FoldOp(s3[id].op, Values(s3, s3[id].inputs)).Ok?
  {
    var outs := s3[id].inputs;
    assert TracedNode(s3[id]);
    var a, b := s3[outs[0]].value.value, s3[outs[1]].value.value;
    assert Values(s3, outs) == [Some(a), Some(b)];
    FoldPair(a, b);
  }

  /// When the fold fails, `helper` returns the rewired node itself.
  lemma KeepRewired(s0: Store, r0: map<Id, nat>, s3: Store, r3: map<Id, nat>, id: Id)
    requires Rewound(s0, r0, s3, r3, id) && !Folds(s3, id)
    requires Traced(s0) && AllArith(s0) ==> IsConstLeaf(s3[id]) && s3[id].value.Some?
    ensures FoldResult(s0, r0, s3, r3, id, id)
  {
    assert Normal(s3, r3, id);
  }

  /// Adding a fresh constant folds the store and keeps every value.
  lemma AddConstKeeps(s: Store, r: map<Id, nat>, t: Store, rt: map<Id, nat>, x: Id, value: Option<real>)
    requires Ranked(s, r) && Ranked(t, rt) && x !in s && t == s[x := ConstNode(value, 0)]
    ensures Folded(s, t) && forall m | m in s :: m in t && t[m] == s[m]
    ensures Traced(s) && value.Some? ==> KeepsValues(s, r, t, rt) && Eval(t, rt, x) == Ok(value.value)
  {
    if Traced(s) && value.Some? {
      EvalExtends(s, r, t, rt);
    }
  }

  lemma FoldIntoConst(s0: Store, r0: map<Id, nat>, s3: Store, r3: map<Id, nat>, s4: Store, r4: map<Id, nat>,
                      id: Id, x: Id, value: Option<real>)
    requires Rewound(s0, r0, s3, r3, id)
    requires Traced(s0) ==> value.Some? && Eval(s3, r3, id) == Ok(value.value)
    requires Ranked(s4, r4) && Created(s3, s4, x, Const, [], value)
    requires RankKept(s3, r3, r4) && r4[x] == 0
    requires Folds(s3, id) && value == FoldOp(s3[id].op, Values(s3, s3[id].inputs)).value
    ensures FoldResult(s0, r0, s4, r4, id, x)
  {
    CreatedLeaf(s3, s4, x, Const, value);
    AddConstKeeps(s3, r3, s4, r4, x, value);
    FoldedTrans(s0, s3, s4);
    RankKeptTrans(s0, r0, s3, r3, r4);
    if Traced(s0) {
      KeepsValuesTrans(s0, r0, s3, r3, s4, r4);
    }
    FoldIntoConstDecided(s0, r0, s3, r3, s4, r4, id, x, value);
  }

  lemma FoldIntoConstDecided(s0: Store, r0: map<Id, nat>, s3: Store, r3: map<Id, nat>, s4: Store, r4: map<Id, nat>,
                             id: Id, x: Id, value: Option<real>)
    requires Ranked(s0, r0) && Ranked(s3, r3) && id in s0 && id in s3 && s0[id].op != Const && RankKept(s0, r0, r3)
    requires RewiredNormal(s0, r0, s3, r3, id) && Ranked(s4, r4) && RankKept(s3, r3, r4)
    requires forall m | m in s0 :: m in s3
    requires x !in s3 && s4 == s3[x := ConstNode(value, 0)]
    requires Traced(s0) ==> forall m | m in s3 :: Eval(s4, r4, m) == Eval(s3, r3, m)
    requires Folds(s3, id) && value == FoldOp(s3[id].op, Values(s3, s3[id].inputs)).value
    ensures Decided(s0, r0, s4, r4, id, x)
  {
    RankKeptTrans(s0, r0, s3, r3, r4);
    assert NormalKept(s3, r3, s4);
    NormalKeptTrans(s0, r0, s3, r3, s4);
    var ins := s3[id].inputs;
    assert Values(s4, ins) == Values(s3, ins);
    RewiredExtended(s0, r0, s3, r3, s4, r4, id);
  }

  /// Adding a node keeps the rewired node's inputs as they were.
  lemma RewiredExtended(s0: Store, r0: map<Id, nat>, s3: Store, r3: map<Id, nat>, s4: Store, r4: map<Id, nat>, id: Id)
    requires Ranked(s0, r0) && Ranked(s3, r3) && Ranked(s4, r4) && id in s0 && id in s3 && RankKept(s3, r3, r4)
    requires RewiredNormal(s0, r0, s3, r3, id) && NormalKept(s3, r3, s4)
    requires forall m | m in s3 :: m in s4 && s4[m] == s3[m]
    requires Traced(s0) ==> forall m | m in s3 :: Eval(s4, r4, m) == Eval(s3, r3, m)
    ensures forall k | 0 <= k < |s0[id].inputs| ::
      && Normal(s4, r4, s4[id].inputs[k])
      && (Traced(s0) ==> Eval(s4, r4, s4[id].inputs[k]) == Eval(s0, r0, s0[id].inputs[k]))
  {
    var ins := s3[id].inputs;
    forall k | 0 <= k < |ins| ensures Normal(s4, r4, ins[k]) {
      NormalStays(s3, r3, s4, r4, ins[k]);
    }
  }

  // ---------------------------------------------------------------------
  // helper(node), exactly
  // ---------------------------------------------------------------------

  /// `helper(id)` (lines 20-56) on store `s`, where `next` is the id the next
  /// node created gets: the node it returns, the store it leaves and the next
  /// id then. A constant is returned as it is; otherwise the inputs are
  /// folded in order, each on the store the previous ones left, `id` is
  /// rewired to their results (line 27), and the rewired node is replaced by
  /// a fresh constant exactly when it folds. (The inputs' folds never touch
  /// `id`, which sits above them, so its record is that of `s`.) `s0` and
  /// `r0` fix the ranks the recursion descends.
  ghost function FoldSpec(s0: Store, r0: map<Id, nat>, s: Store, next: Id, id: Id): (res: (Id, Store, Id))
    requires Ranked(s0, r0) && Lower(s0, r0, s, id)
    decreases Level(s0, r0, id), 1
    ensures s.Keys <= res.1.Keys && res.0 in res.1
  {
    if s[id].op == Const then (id, s, next)
    else
      var (outs, s1, n1) := FoldUpTo(s0, r0, s, next, id, |s[id].inputs|);
      FoldOutcome(s1[id := s[id].(inputs := outs)], n1, id)
  }

  /// Lines 29-56 on the rewired node `id` of `s`: a fresh constant holding
  /// the sum or product of the inputs' values when the node folds, the node
  /// itself when it does not (an input that is not a constant, an operator
  /// other than add and mul, or a failed sum or product).
  ghost function FoldOutcome(s: Store, next: Id, id: Id): (res: (Id, Store, Id))
    requires id in s && forall k | 0 <= k < |s[id].inputs| :: s[id].inputs[k] in s
    ensures s.Keys <= res.1.Keys && res.0 in res.1
  {
    if Folds(s, id) then (next, s[next := ConstNode(FoldOp(s[id].op, Values(s, s[id].inputs)).value, 0)], next + 1)
    else (id, s, next)
  }

  /// Line 26 over the first `n` inputs of `id`: each input folded on the
  /// store the previous ones left. (An input not below `id`, which a folded
  /// store never has, is kept.)
  ghost function FoldUpTo(s0: Store, r0: map<Id, nat>, s: Store, next: Id, id: Id, n: nat): (res: (seq<Id>, Store, Id))
    requires Ranked(s0, r0) && Lower(s0, r0, s, id) && n <= |s[id].inputs|
    decreases Level(s0, r0, id), 0, n
    ensures s.Keys <= res.1.Keys
    ensures |res.0| == n && forall k | 0 <= k < n :: res.0[k] in res.1
  {
    if n == 0 then ([], s, next)
    else
      var (outs, s1, n1) := FoldUpTo(s0, r0, s, next, id, n - 1);
      var i := s[id].inputs[n - 1];
      if Lower(s0, r0, s1, i) then
        var (x, s2, n2) := FoldSpec(s0, r0, s1, n1, i);
        (outs + [x], s2, n2)
      else (outs + [i], s1, n1)
  }

  /// `optimize(graph)` (lines 10-58): `helper` on the root of store `s`,
  /// whose next fresh id is `next`.
  ghost function Folding(s: Store, rank: map<Id, nat>, next: Id, root: Id): (Id, Store, Id)
    requires Ranked(s, rank) && root in s
  {
    FoldedLower(s, rank, s, rank, root);
    FoldSpec(s, rank, s, next, root)
  }

  /// In a store folded from `s0`, every node sits above its inputs by the
  /// ranks of `s0`.
  lemma FoldedLower(s0: Store, r0: map<Id, nat>, s: Store, r: map<Id, nat>, x: Id)
    requires Ranked(s0, r0) && Ranked(s, r) && Folded(s0, s) && RankKept(s0, r0, r) && x in s
    ensures Lower(s0, r0, s, x)
  {
    if x !in s0 {
      assert s[x].inputs == [];
    }
  }

  /// One more input: its fold is appended, on the store the others left.
  lemma FoldUpToStep(s0: Store, r0: map<Id, nat>, s: Store, next: Id, id: Id, outs: seq<Id>,
                     s1: Store, n1: Id, x: Id, s2: Store, n2: Id)
    requires Ranked(s0, r0) && Lower(s0, r0, s, id) && |outs| < |s[id].inputs|
    requires Gives(FoldUpTo(s0, r0, s, next, id, |outs|), outs, s1, n1)
    requires Lower(s0, r0, s1, s[id].inputs[|outs|])
    requires Gives(FoldSpec(s0, r0, s1, n1, s[id].inputs[|outs|]), x, s2, n2)
    ensures Gives(FoldUpTo(s0, r0, s, next, id, |outs| + 1), outs + [x], s2, n2)
  {
  }

  /// `helper(node)` (lines 20-56).
  method Fold(g: Graph, id: Id, ghost base: Store, ghost baseRank: map<Id, nat>) returns (r: Id)
    requires g.Valid() && id in g.nodes
    requires Ranked(base, baseRank) && Folded(base, g.nodes) && RankKept(base, baseRank, g.rank)
    modifies g
    decreases g.rank[id], 2
    ensures g.Valid() && FoldResult(old(g.nodes), old(g.rank), g.nodes, g.rank, id, r)
    ensures Lower(base, baseRank, old(g.nodes), id)
    ensures Gives(FoldSpec(base, baseRank, old(g.nodes), old(g.nextId), id), r, g.nodes, g.nextId)
  {
    FoldedLower(base, baseRank, g.nodes, g.rank, id);
    if g.nodes[id].op == Const {
      return id;
    }
    ghost var s0, r0 := g.nodes, g.rank;
    var outs := FoldInputs(g, id, base, baseRank);
    ghost var s2, r2 := g.nodes, g.rank;
    g.SetInputs(id, outs);
    RewireKeepsValues(s0, r0, s2, r2, g.nodes, id, outs);
    assert g.nodes == s2[id := s0[id].(inputs := outs)];
    r := FoldRewired(g, id, s0, r0);
  }

  /// Lines 29-56 of `helper(node)`, once the inputs are folded.
  method FoldRewired(g: Graph, id: Id, ghost s0: Store, ghost r0: map<Id, nat>) returns (r: Id)
    requires g.Valid() && Rewound(s0, r0, g.nodes, g.rank, id)
    modifies g
    ensures g.Valid() && FoldResult(s0, r0, g.nodes, g.rank, id, r)
    ensures Gives(FoldOutcome(old(g.nodes), old(g.nextId), id), r, g.nodes, g.nextId)
  {
    ghost var s3, r3 := g.nodes, g.rank;
    if Traced(s0) && AllArith(s0) {
      ArithFolds(s0, r0, s3, r3, id);
    }
    var outs := g.nodes[id].inputs;
    var allConst := forall k | 0 <= k < |outs| :: g.nodes[outs[k]].op == Const;
    var folded: Result<Option<real>, Error> := Err(TypeError);
    if allConst {
      folded := ComputeFold(g.nodes[id].op, Values(g.nodes, outs));
    }
    assert folded.Ok? <==> Folds(s3, id);
    if folded.Ok? {
      if Traced(s0) {
        FoldedValue(s3, r3, id);
      }
      r := g.NewNode(Const, [], folded.value);
      CreatedLeaf(s3, g.nodes, r, Const, folded.value);
      FoldIntoConst(s0, r0, s3, r3, g.nodes, g.rank, id, r, folded.value);
    } else {
      KeepRewired(s0, r0, s3, r3, id);
      r := id;
    }
  }

  /// The loop `[helper(inp) for inp in node.inputs]` (line 26).
  method FoldInputs(g: Graph, id: Id, ghost base: Store, ghost baseRank: map<Id, nat>) returns (outs: seq<Id>)
    requires g.Valid() && id in g.nodes
    requires Ranked(base, baseRank) && Folded(base, g.nodes) && RankKept(base, baseRank, g.rank)
    requires Lower(base, baseRank, g.nodes, id)
    modifies g
    decreases g.rank[id], 1
    ensures g.Valid() && InputsFolded(old(g.nodes), old(g.rank), g.nodes, g.rank, id, outs)
    ensures |outs| == |old(g.nodes)[id].inputs|
    ensures Gives(FoldUpTo(base, baseRank, old(g.nodes), old(g.nextId), id, |old(g.nodes)[id].inputs|), outs, g.nodes, g.nextId)
  {
    ghost var s0, r0, n0 := g.nodes, g.rank, g.nextId;
    var ins := g.nodes[id].inputs;
    InputsFoldedStart(s0, r0, id);
    outs := [];
    while |outs| < |ins|
      invariant g.Valid() && ins == s0[id].inputs
      invariant InputsFolded(s0, r0, g.nodes, g.rank, id, outs)
      invariant Gives(FoldUpTo(base, baseRank, s0, n0, id, |outs|), outs, g.nodes, g.nextId)
      decreases |ins| - |outs|
    {
      outs := FoldNext(g, id, outs, base, baseRank, s0, r0, n0);
    }
  }

  /// One turn of the loop of line 26: the next input's `helper`.
  method FoldNext(g: Graph, id: Id, outs: seq<Id>, ghost base: Store, ghost baseRank: map<Id, nat>,
                  ghost s0: Store, ghost r0: map<Id, nat>, ghost n0: Id) returns (outs2: seq<Id>)
    requires g.Valid() && Ranked(base, baseRank) && Folded(base, s0) && RankKept(base, baseRank, r0)
    requires Lower(base, baseRank, s0, id)
    requires InputsFolded(s0, r0, g.nodes, g.rank, id, outs) && |outs| < |s0[id].inputs|
    requires Gives(FoldUpTo(base, baseRank, s0, n0, id, |outs|), outs, g.nodes, g.nextId)
    modifies g
    decreases r0[id], 0
    ensures g.Valid() && InputsFolded(s0, r0, g.nodes, g.rank, id, outs2) && |outs2| == |outs| + 1
    ensures Gives(FoldUpTo(base, baseRank, s0, n0, id, |outs| + 1), outs2, g.nodes, g.nextId)
  {
    ghost var s1, r1, n1 := g.nodes, g.rank, g.nextId;
    FoldedTrans(base, s0, s1);
    RankKeptTrans(base, baseRank, s0, r0, r1);
    assert g.nodes[id] == s0[id];
    var x := Fold(g, g.nodes[id].inputs[|outs|], base, baseRank);
    InputsFoldedStep(s0, r0, s1, r1, g.nodes, g.rank, id, outs, x);
    FoldUpToStep(base, baseRank, s0, n0, id, outs, s1, n1, x, g.nodes, g.nextId);
    outs2 := outs + [x];
  }

  /// `optimize(graph)`: fold the graph under the root and return the root's
  /// replacement. On a traced graph the result has the value the root had;
  /// on a traced graph of additions and multiplications it is a constant.
  method Optimize(g: Graph, root: Id) returns (r: Id)
    requires g.Valid() && root in g.nodes
    modifies g
    ensures g.Valid() && r in g.nodes && RankKept(old(g.nodes), old(g.rank), g.rank)
    ensures forall m | m in old(g.nodes) :: m in g.nodes
    ensures Traced(old(g.nodes)) ==>
      Traced(g.nodes) && Eval(g.nodes, g.rank, r) == Eval(old(g.nodes), old(g.rank), root)
    ensures Traced(old(g.nodes)) && AllArith(old(g.nodes)) ==>
      IsConstLeaf(g.nodes[r]) && g.nodes[r].value.Some? && AllArith(g.nodes)
    ensures old(g.nodes)[root].op == Const ==> r == root && g.nodes == old(g.nodes)
    ensures Normal(g.nodes, g.rank, r)
    ensures Normal(old(g.nodes), old(g.rank), root) ==> r == root && g.nodes == old(g.nodes)
    ensures r != root <==> Folds(g.nodes, root)
    ensures FoldResult(old(g.nodes), old(g.rank), g.nodes, g.rank, root, r)
    ensures Gives(Folding(old(g.nodes), old(g.rank), old(g.nextId), root), r, g.nodes, g.nextId)
  {
    r := Fold(g, root, g.nodes, g.rank);
    if Traced(old(g.nodes)) && AllArith(old(g.nodes)) {
      FoldedKeepsArith(old(g.nodes), g.nodes);
    }
  }

  // ---------------------------------------------------------------------
  // A worked case: `add(div(5, 4), 3)`
  // ---------------------------------------------------------------------

  /// `helper` on a node of two inputs, from what the calls on its inputs give.
  lemma FoldSpecPair(s0: Store, r0: map<Id, nat>, s: Store, next: Id, id: Id,
                     x0: Id, t0: Store, n0: Id, x1: Id, t1: Store, n1: Id)
    requires Ranked(s0, r0) && Lower(s0, r0, s, id) && |s[id].inputs| == 2 && s[id].op != Const
    requires Lower(s0, r0, s, s[id].inputs[0])
    requires Gives(FoldSpec(s0, r0, s, next, s[id].inputs[0]), x0, t0, n0)
    requires Lower(s0, r0, t0, s[id].inputs[1])
    requires Gives(FoldSpec(s0, r0, t0, n0, s[id].inputs[1]), x1, t1, n1)
    ensures x0 in t1 && x1 in t1
    ensures FoldSpec(s0, r0, s, next, id) == FoldOutcome(t1[id := s[id].(inputs := [x0, x1])], n1, id)
  {
    assert [] + [x0] == [x0] && [x0] + [x1] == [x0, x1];
    assert Gives(FoldUpTo(s0, r0, s, next, id, 1), [x0], t0, n0);
    assert Gives(FoldUpTo(s0, r0, s, next, id, 2), [x0, x1], t1, n1);
  }

  /// Constants 5 (0), 4 (1) and 3 (3), the quotient `5 / 4` (2) and the sum
  /// (4).
  function DivSum(): Store {
    map[0 := ConstNode(Some(5.0), 1), 1 := ConstNode(Some(4.0), 1),
        2 := Node(Div, [0, 1], None, None, 1, map[]),
        3 := ConstNode(Some(3.0), 1),
        4 := Node(Add, [2, 3], None, None, 0, map[])]
  }

  function DivSumRank(): map<Id, nat> {
    map[0 := 0, 1 := 0, 2 := 1, 3 := 0, 4 := 2]
  }

  lemma DivSumRanked()
    ensures Ranked(DivSum(), DivSumRank())
  {
  }

  /// The quotient does not fold, even over two constants: only add and mul
  /// fold (line 52). It is returned with the store unchanged.
  lemma DivKept()
    ensures Ranked(DivSum(), DivSumRank()) && Lower(DivSum(), DivSumRank(), DivSum(), 2)
    ensures Gives(FoldSpec(DivSum(), DivSumRank(), DivSum(), 5, 2), 2, DivSum(), 5)
  {
    var s, r := DivSum(), DivSumRank();
    DivSumRanked();
    assert s[2 := s[2].(inputs := [0, 1])] == s;
    FoldSpecPair(s, r, s, 5, 2, 0, s, 5, 1, s, 5);
  }

  /// The sum over the quotient and 3 does not fold: an input is not a
  /// constant (line 30).
  lemma SumOverDivKept()
    ensures 4 in DivSum() && forall k | 0 <= k < |DivSum()[4].inputs| :: DivSum()[4].inputs[k] in DivSum()
    ensures FoldOutcome(DivSum(), 5, 4) == (4, DivSum(), 5)
  {
    var s := DivSum();
    assert s[s[4].inputs[0]].op == Div;
  }

  /// Folding the sum: the quotient comes back unfolded, so the sum does not
  /// fold either; the store comes back as it was and the sum is returned
  /// itself.
  lemma DivBlocksFold()
    ensures Ranked(DivSum(), DivSumRank()) && 4 in DivSum()
    ensures Folding(DivSum(), DivSumRank(), 5, 4) == (4, DivSum(), 5)
  {
    var s, r := DivSum(), DivSumRank();
    DivKept();
    SumOverDivKept();
    assert s[4 := s[4].(inputs := [2, 3])] == s;
    FoldSpecPair(s, r, s, 5, 4, 2, s, 5, 3, s, 5);
  }
}
