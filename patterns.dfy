/// The algebraic rewrites of src/optimizations/patterns.py: `x * 0 = 0`
/// and `x * 1 = x`, tried in that order. Each pattern looks only at the
/// operator of a node and at the values its inputs hold, so both are
/// functions of those two.
module Patterns {
  import opened Wrappers
  import opened Tracer
  import opened GraphFacts
  import ConstantFolding

  /// Python's `any(i.value == v for i in inputs if i.value is not None)`,
  /// on the values of the inputs.
  function AnyIs(values: seq<Option<real>>, v: real): (b: bool)
    ensures b <==> exists k :: 0 <= k < |values| && values[k] == Some(v)
  {
    if values == [] then false
    else if values[0] == Some(v) then true
    else
      assert forall k | 1 <= k < |values| :: values[k] == values[1..][k - 1];
      AnyIs(values[1..], v)
  }

  /// The position `next(i for i in inputs if i.value != 1)` stops at: the
  /// first input whose value is not 1 (a missing value is not 1), or None
  /// when the generator runs dry.
  function FirstNotOne(values: seq<Option<real>>): (r: Option<nat>)
    ensures r.None? <==> forall k | 0 <= k < |values| :: values[k] == Some(1.0)
    ensures r.Some? ==> r.value < |values| && values[r.value] != Some(1.0)
    ensures r.Some? ==> forall j | 0 <= j < r.value :: values[j] == Some(1.0)
  {
    if values == [] then None
    else if values[0] != Some(1.0) then Some(0)
    else
      match FirstNotOne(values[1..])
      case None =>
        assert forall k | 1 <= k < |values| :: values[k] == values[1..][k - 1];
        None
      case Some(i) =>
        assert values[i + 1] == values[1..][i];
        assert forall j | 1 <= j < i + 1 :: values[j] == values[1..][j - 1];
        Some(i + 1)
  }

  /// The outcome of trying the two patterns on a node, in order: no match,
  /// `x * 0` (a fresh `constant(0)`), `x * 1` (the input at `index`, the
  /// existing node), or the replacement raising.
  datatype Rewrite = Keep | ToZero | Forward(index: nat) | Raise(error: Error)

  /// The first pattern that matches a node with operator `op` whose inputs
  /// hold `values`, and what its replacement produces.
  function Match(op: Op, values: seq<Option<real>>): (r: Rewrite)
    ensures op != Mul ==> r == Keep
    ensures r == ToZero <==> op == Mul && exists k :: 0 <= k < |values| && values[k] == Some(0.0)
    ensures r.Raise? <==> op == Mul && |values| > 0 && forall k | 0 <= k < |values| :: values[k] == Some(1.0)
    ensures r.Raise? ==> r.error == StopIteration
    ensures r.Forward? ==>
      && op == Mul && r.index < |values|
      && (forall k | 0 <= k < |values| :: values[k] != Some(0.0))
      && (exists k :: 0 <= k < |values| && values[k] == Some(1.0))
      && values[r.index] != Some(1.0)
      && (forall j | 0 <= j < r.index :: values[j] == Some(1.0))
    ensures r == Keep <==>
      op != Mul || forall k | 0 <= k < |values| :: values[k] != Some(0.0) && values[k] != Some(1.0)
  {
    if op == Mul && AnyIs(values, 0.0) then ToZero
    else if op == Mul && AnyIs(values, 1.0) then
      match FirstNotOne(values)
      case Some(i) => Forward(i)
      case None => Raise(StopIteration)
    else Keep
  }

  /// A node's rewrite, read off the store.
  function MatchNode(s: Store, id: Id): (r: Rewrite)
    requires id in s && forall k | 0 <= k < |s[id].inputs| :: s[id].inputs[k] in s
    ensures r.Forward? ==> r.index < |s[id].inputs|
  {
    Match(s[id].op, ConstantFolding.Values(s, s[id].inputs))
  }

  /// On a traced graph, a multiplication matched by `x * 0` evaluates to 0
  /// unless one of its inputs raises: the fresh constant 0 is at least as
  /// defined as the node it replaces.
  lemma ZeroRefines(s: Store, rank: map<Id, nat>, id: Id)
    requires Ranked(s, rank) && id in s && Traced(s)
    requires MatchNode(s, id) == ToZero
    ensures Refines(Ok(0.0), Eval(s, rank, id))
    ensures (forall k | 0 <= k < |s[id].inputs| :: Eval(s, rank, s[id].inputs[k]).Ok?) ==> Eval(s, rank, id) == Ok(0.0)
  {
    var ins := s[id].inputs;
    assert TracedNode(s[id]) && |ins| == 2;
    var values := ConstantFolding.Values(s, ins);
    var z :| 0 <= z < 2 && values[z] == Some(0.0);
    assert TracedNode(s[ins[z]]) && s[ins[z]].op == Const;
    assert Eval(s, rank, ins[z]) == Ok(0.0);
    match Eval(s, rank, ins[0])
    case Err(e) =>
      EvalInputErrorPropagates(s, rank, id, 0, e);
    case Ok(a) =>
      match Eval(s, rank, ins[1])
      case Err(e) =>
        EvalInputErrorPropagates(s, rank, id, 1, e);
      case Ok(b) =>
        EvalBinary(s, rank, id, a, b);
        assert a == 0.0 || b == 0.0;
  }

  /// On a traced graph, the input `x * 1` forwards evaluates exactly like
  /// the multiplication it replaces, errors included.
  lemma ForwardKeeps(s: Store, rank: map<Id, nat>, id: Id)
    requires Ranked(s, rank) && id in s && Traced(s)
    requires MatchNode(s, id).Forward?
    ensures Eval(s, rank, s[id].inputs[MatchNode(s, id).index]) == Eval(s, rank, id)
  {
    var ins := s[id].inputs;
    assert TracedNode(s[id]) && |ins| == 2;
    var values := ConstantFolding.Values(s, ins);
    var k := MatchNode(s, id).index;
    var o :| 0 <= o < 2 && values[o] == Some(1.0);
    assert o != k;
    assert TracedNode(s[ins[o]]) && s[ins[o]].op == Const;
    assert Eval(s, rank, ins[o]) == Ok(1.0);
    match Eval(s, rank, ins[k])
    case Err(e) =>
      EvalInputErrorPropagates(s, rank, id, k, e);
    case Ok(v) =>
      if k == 0 {
        EvalBinary(s, rank, id, v, 1.0);
      } else {
        EvalBinary(s, rank, id, 1.0, v);
      }
  }

  /// `x * 0` comes first: a multiplication with both a 0 and a 1 among its
  /// inputs becomes 0.
  lemma ZeroBeforeOne()
    ensures Match(Mul, [Some(1.0), Some(0.0)]) == ToZero
    ensures Match(Mul, [Some(0.0), Some(1.0)]) == ToZero
  {
    assert [Some(1.0), Some(0.0)][1] == Some(0.0);
    assert [Some(0.0), Some(1.0)][0] == Some(0.0);
  }

  /// `mul(1, 1)`: the `x * 1` pattern matches but its replacement finds no
  /// input other than 1 and raises.
  lemma OneTimesOneRaises()
    ensures Match(Mul, [Some(1.0), Some(1.0)]) == Raise(StopIteration)
  {
  }

  /// `x * 1` with the computed input first or second forwards that input;
  /// an input without a value counts as "not 1".
  lemma ForwardsFirstNonOne()
    ensures Match(Mul, [None, Some(1.0)]) == Forward(0)
    ensures Match(Mul, [Some(1.0), None]) == Forward(1)
    ensures Match(Mul, [Some(1.0), Some(2.0)]) == Forward(1)
  {
    assert [None, Some(1.0)][1] == Some(1.0);
    assert [Some(1.0), None][0] == Some(1.0);
    assert [Some(1.0), Some(2.0)][0] == Some(1.0);
  }
}
