/// Facts about evaluation that every rewriting pass relies on: evaluation
/// reads only operators, values and inputs; it survives new nodes, changed
/// reference counts and rank bookkeeping; and rewiring a node to inputs that
/// evaluate alike (or better) evaluates alike (or better).
module GraphFacts {
  import opened Wrappers
  import opened Tracer

  /// Every node of `s` is in `t` with the same operator, value and inputs;
  /// reference counts, gradients and metadata may differ.
  ghost predicate Extends(s: Store, t: Store) {
    forall m | m in s :: m in t && t[m].op == s[m].op && t[m].value == s[m].value && t[m].inputs == s[m].inputs
  }

  /// `b` is `a`, or `a` failed: `b` is at least as defined as `a`.
  predicate Refines(b: Result<real, Error>, a: Result<real, Error>) {
    a.Ok? ==> b == a
  }

  lemma {:induction false} EvalInputsCongruent(s: Store, rs: map<Id, nat>, x: Id, t: Store, rt: map<Id, nat>, y: Id, k: nat)
    requires Ranked(s, rs) && Ranked(t, rt) && x in s && y in t
    requires |s[x].inputs| == |t[y].inputs| && k <= |s[x].inputs|
    requires forall j | k <= j < |s[x].inputs| :: Eval(s, rs, s[x].inputs[j]) == Eval(t, rt, t[y].inputs[j])
    ensures EvalInputs(s, rs, x, k) == EvalInputs(t, rt, y, k)
    decreases |s[x].inputs| - k
  {
    if k < |s[x].inputs| {
      EvalInputsCongruent(s, rs, x, t, rt, y, k + 1);
    }
  }

  /// Two nodes with the same operator and value whose inputs evaluate alike,
  /// position by position, evaluate alike.
  lemma EvalCongruent(s: Store, rs: map<Id, nat>, x: Id, t: Store, rt: map<Id, nat>, y: Id)
    requires Ranked(s, rs) && Ranked(t, rt) && x in s && y in t
    requires s[x].op == t[y].op && s[x].value == t[y].value && |s[x].inputs| == |t[y].inputs|
    requires forall j | 0 <= j < |s[x].inputs| :: Eval(s, rs, s[x].inputs[j]) == Eval(t, rt, t[y].inputs[j])
    ensures Eval(s, rs, x) == Eval(t, rt, y)
  {
    EvalInputsCongruent(s, rs, x, t, rt, y, 0);
  }

  lemma {:induction false} EvalInputsRefine(s: Store, rs: map<Id, nat>, x: Id, t: Store, rt: map<Id, nat>, y: Id, k: nat)
    requires Ranked(s, rs) && Ranked(t, rt) && x in s && y in t
    requires |s[x].inputs| == |t[y].inputs| && k <= |s[x].inputs|
    requires forall j | k <= j < |s[x].inputs| :: Refines(Eval(t, rt, t[y].inputs[j]), Eval(s, rs, s[x].inputs[j]))
    ensures EvalInputs(s, rs, x, k).Ok? ==> EvalInputs(t, rt, y, k) == EvalInputs(s, rs, x, k)
    decreases |s[x].inputs| - k
  {
    if k < |s[x].inputs| {
      EvalInputsRefine(s, rs, x, t, rt, y, k + 1);
    }
  }

  /// Two nodes with the same operator and value whose inputs are, position
  /// by position, at least as defined: the second is at least as defined.
  lemma EvalRefineCongruent(s: Store, rs: map<Id, nat>, x: Id, t: Store, rt: map<Id, nat>, y: Id)
    requires Ranked(s, rs) && Ranked(t, rt) && x in s && y in t
    requires s[x].op == t[y].op && s[x].value == t[y].value && |s[x].inputs| == |t[y].inputs|
    requires forall j | 0 <= j < |s[x].inputs| :: Refines(Eval(t, rt, t[y].inputs[j]), Eval(s, rs, s[x].inputs[j]))
    ensures Refines(Eval(t, rt, y), Eval(s, rs, x))
  {
    EvalInputsRefine(s, rs, x, t, rt, y, 0);
  }

  /// Evaluation of the nodes of `s` is unchanged in any store extending it,
  /// under any ranking.
  lemma {:induction false} EvalExtendsAt(s: Store, rs: map<Id, nat>, t: Store, rt: map<Id, nat>, m: Id)
    requires Ranked(s, rs) && Ranked(t, rt) && Extends(s, t) && m in s
    ensures Eval(t, rt, m) == Eval(s, rs, m)
    decreases rs[m]
  {
    forall j | 0 <= j < |s[m].inputs| ensures Eval(s, rs, s[m].inputs[j]) == Eval(t, rt, t[m].inputs[j]) {
      EvalExtendsAt(s, rs, t, rt, s[m].inputs[j]);
    }
    EvalCongruent(s, rs, m, t, rt, m);
  }

  lemma EvalExtends(s: Store, rs: map<Id, nat>, t: Store, rt: map<Id, nat>)
    requires Ranked(s, rs) && Ranked(t, rt) && Extends(s, t)
    ensures forall m | m in s :: Eval(t, rt, m) == Eval(s, rs, m)
  {
    forall m | m in s ensures Eval(t, rt, m) == Eval(s, rs, m) {
      EvalExtendsAt(s, rs, t, rt, m);
    }
  }

  /// `t` is `s` with the inputs of node `id` replaced by `ins`, one for one.
  ghost predicate Rewired(s: Store, t: Store, id: Id, ins: seq<Id>) {
    && id in s && t == s[id := s[id].(inputs := ins)] && |ins| == |s[id].inputs|
    && forall k | 0 <= k < |ins| :: ins[k] in s
  }

  lemma {:induction false} EvalRewiredAt(s: Store, t: Store, r: map<Id, nat>, id: Id, ins: seq<Id>, m: Id)
    requires Ranked(s, r) && Ranked(t, r) && Rewired(s, t, id, ins) && m in s
    requires forall k | 0 <= k < |ins| :: Eval(s, r, ins[k]) == Eval(s, r, s[id].inputs[k])
    ensures Eval(t, r, m) == Eval(s, r, m)
    decreases r[m]
  {
    forall j | 0 <= j < |s[m].inputs| ensures Eval(s, r, s[m].inputs[j]) == Eval(t, r, t[m].inputs[j]) {
      if m == id {
        EvalRewiredAt(s, t, r, id, ins, ins[j]);
      } else {
        EvalRewiredAt(s, t, r, id, ins, s[m].inputs[j]);
      }
    }
    EvalCongruent(s, r, m, t, r, m);
  }

  /// Rewiring a node to inputs that evaluate like the ones they replace
  /// changes the value of no node.
  lemma EvalRewired(s: Store, t: Store, r: map<Id, nat>, id: Id, ins: seq<Id>)
    requires Ranked(s, r) && Ranked(t, r) && Rewired(s, t, id, ins)
    requires forall k | 0 <= k < |ins| :: Eval(s, r, ins[k]) == Eval(s, r, s[id].inputs[k])
    ensures forall m | m in s :: Eval(t, r, m) == Eval(s, r, m)
  {
    forall m | m in s ensures Eval(t, r, m) == Eval(s, r, m) {
      EvalRewiredAt(s, t, r, id, ins, m);
    }
  }

  lemma {:induction false} EvalRewiredRefinesAt(s: Store, t: Store, r: map<Id, nat>, id: Id, ins: seq<Id>, m: Id)
    requires Ranked(s, r) && Ranked(t, r) && Rewired(s, t, id, ins) && m in s
    requires forall k | 0 <= k < |ins| :: Refines(Eval(s, r, ins[k]), Eval(s, r, s[id].inputs[k]))
    ensures Refines(Eval(t, r, m), Eval(s, r, m))
    decreases r[m]
  {
    forall j | 0 <= j < |s[m].inputs| ensures Refines(Eval(t, r, t[m].inputs[j]), Eval(s, r, s[m].inputs[j])) {
      if m == id {
        EvalRewiredRefinesAt(s, t, r, id, ins, ins[j]);
      } else {
        EvalRewiredRefinesAt(s, t, r, id, ins, s[m].inputs[j]);
      }
    }
    EvalRefineCongruent(s, r, m, t, r, m);
  }

  /// Rewiring a node to inputs that are at least as defined as the ones they
  /// replace leaves every node at least as defined.
  lemma EvalRewiredRefines(s: Store, t: Store, r: map<Id, nat>, id: Id, ins: seq<Id>)
    requires Ranked(s, r) && Ranked(t, r) && Rewired(s, t, id, ins)
    requires forall k | 0 <= k < |ins| :: Refines(Eval(s, r, ins[k]), Eval(s, r, s[id].inputs[k]))
    ensures forall m | m in s :: Refines(Eval(t, r, m), Eval(s, r, m))
  {
    forall m | m in s ensures Refines(Eval(t, r, m), Eval(s, r, m)) {
      EvalRewiredRefinesAt(s, t, r, id, ins, m);
    }
  }

  // ---------------------------------------------------------------------
  // Specifying a recursive pass over a changing store
  // ---------------------------------------------------------------------

  /// `res` is the result `x`, store `t` and next id `n`.
  ghost predicate Gives<T>(res: (T, Store, Id), x: T, t: Store, n: Id) {
    res.0 == x && res.1 == t && res.2 == n
  }

  /// The rank `x` had in the store `s0` the rewrite started from, 0 for a
  /// node created since: what the specifications of the passes recurse on.
  ghost function Level(s0: Store, r0: map<Id, nat>, x: Id): nat
    requires Ranked(s0, r0)
  {
    if x in s0 then r0[x] else 0
  }

  /// In `s`, the inputs of `x` sit below it by `Level`.
  ghost predicate Lower(s0: Store, r0: map<Id, nat>, s: Store, x: Id)
    requires Ranked(s0, r0)
  {
    x in s && forall k | 0 <= k < |s[x].inputs| :: s[x].inputs[k] in s && Level(s0, r0, s[x].inputs[k]) < Level(s0, r0, x)
  }
}
