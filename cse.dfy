/// Common subexpression elimination (src/optimizations/cse.py): a node whose
/// operator, processed inputs and value were already seen is replaced by the
/// node recorded first for them.
module Cse {
  import opened Wrappers
  import opened Tracer
  import opened GraphFacts

  /// The dictionary key `(node.op, tuple(inp.id for inp in new_inputs), node.value)`.
  datatype Key = Key(op: Op, ids: seq<Id>, value: Option<real>)

  type Table = map<Key, Id>

  // ---------------------------------------------------------------------
  // Heights: merged nodes sit at the same height, so the pass is ranked by
  // the height of the original graph
  // ---------------------------------------------------------------------

  /// The rank of `m` is exactly one above its highest input (0 for a leaf).
  ghost predicate HeightOk(s: Store, h: map<Id, nat>, m: Id)
    requires m in s && forall k | 0 <= k < |s[m].inputs| :: s[m].inputs[k] in h
  {
    m in h && h[m] == RankAbove(h, s[m].inputs)
  }

  /// Every rank is an exact height.
  ghost predicate Heighted(s: Store, h: map<Id, nat>) {
    Ranked(s, h) && forall m | m in s :: HeightOk(s, h, m)
  }

  ghost function Height(s: Store, rank: map<Id, nat>, id: Id): nat
    requires Ranked(s, rank) && id in s
    decreases rank[id], 1
  {
    HeightFrom(s, rank, id, 0)
  }

  ghost function HeightFrom(s: Store, rank: map<Id, nat>, id: Id, k: nat): nat
    requires Ranked(s, rank) && id in s && k <= |s[id].inputs|
    decreases rank[id], 0, |s[id].inputs| - k
  {
    if k == |s[id].inputs| then 0
    else
      var here := Height(s, rank, s[id].inputs[k]) + 1;
      var rest := HeightFrom(s, rank, id, k + 1);
      if here > rest then here else rest
  }

  ghost function Heights(s: Store, rank: map<Id, nat>): map<Id, nat>
    requires Ranked(s, rank)
  {
    map m | m in s :: Height(s, rank, m)
  }

  lemma {:induction false} HeightFromAbove(s: Store, rank: map<Id, nat>, id: Id, k: nat)
    requires Ranked(s, rank) && id in s && k <= |s[id].inputs|
    ensures HeightFrom(s, rank, id, k) == RankAbove(Heights(s, rank), s[id].inputs[k..])
    decreases |s[id].inputs| - k
  {
    var ins := s[id].inputs;
    if k < |ins| {
      HeightFromAbove(s, rank, id, k + 1);
      assert ins[k..][1..] == ins[k + 1..];
    }
  }

  /// The heights of a ranked graph are a ranking, and they are exact.
  lemma HeightsHeighted(s: Store, rank: map<Id, nat>)
    requires Ranked(s, rank)
    ensures Heighted(s, Heights(s, rank))
  {
    var h := Heights(s, rank);
    forall m | m in s ensures HeightOk(s, h, m) {
      HeightFromAbove(s, rank, m, 0);
      assert s[m].inputs[0..] == s[m].inputs;
    }
  }

  /// Inputs of equal heights, position by position, give equal heights.
  lemma {:induction false} AboveAlike(h: map<Id, nat>, a: seq<Id>, b: seq<Id>)
    requires |a| == |b| && forall k | 0 <= k < |a| :: a[k] in h && b[k] in h && h[a[k]] == h[b[k]]
    ensures RankAbove(h, a) == RankAbove(h, b)
  {
    if a != [] {
      AboveAlike(h, a[1..], b[1..]);
    }
  }

  // ---------------------------------------------------------------------
  // What the pass keeps
  // ---------------------------------------------------------------------

  /// `t` is `s` with some inputs redirected: same nodes, each with the same
  /// operator, value, gradient, count and metadata, and as many inputs.
  ghost predicate Relinked(s: Store, t: Store) {
    && t.Keys == s.Keys
    && forall m | m in s :: |t[m].inputs| == |s[m].inputs| && t[m] == s[m].(inputs := t[m].inputs)
  }

  /// `ids` and the first inputs `ins` name nodes of the same heights and
  /// values, position by position.
  ghost predicate Alike(t: Store, h: map<Id, nat>, ids: seq<Id>, ins: seq<Id>)
    requires Ranked(t, h)
  {
    && |ids| <= |ins|
    && forall k | 0 <= k < |ids| ::
         ids[k] in t && ins[k] in t && h[ids[k]] == h[ins[k]] && Eval(t, h, ids[k]) == Eval(t, h, ins[k])
  }

  /// Node `y`, recorded under `key`, has the key's operator and value, and
  /// its inputs are alike the key's.
  ghost predicate Entry(t: Store, h: map<Id, nat>, key: Key, y: Id)
    requires Ranked(t, h)
  {
    && y in t && t[y].op == key.op && t[y].value == key.value
    && |key.ids| == |t[y].inputs| && Alike(t, h, key.ids, t[y].inputs)
  }

  ghost predicate TableOk(t: Store, h: map<Id, nat>, table: Table) {
    Ranked(t, h) && forall key | key in table :: Entry(t, h, key, table[key])
  }

  /// Entries are only ever added: the node recorded first for a key stays.
  ghost predicate Grows(table: Table, table2: Table) {
    forall key | key in table :: key in table2 && table2[key] == table[key]
  }

  /// What `helper(id)` does, from `s` to `t`, returning `x`: inputs are
  /// redirected only at or below `id`'s height, every node keeps its value,
  /// and `x` has `id`'s height, operator and value, and evaluates like it; a
  /// leaf is returned as it is.
  ghost predicate Merged(s: Store, t: Store, h: map<Id, nat>, id: Id, x: Id) {
    && Heighted(s, h) && Heighted(t, h) && Relinked(s, t) && id in s
    && (forall m | m in s && h[m] > h[id] :: t[m] == s[m])
    && (forall m | m in s :: Eval(t, h, m) == Eval(s, h, m))
    && x in t && h[x] == h[id] && t[x].op == s[id].op && t[x].value == s[id].value
    && Eval(t, h, x) == Eval(s, h, id)
    && (s[id].inputs == [] ==> x == id && t == s)
  }

  /// The state of the input loop of `helper(id)` once `outs` hold the merged
  /// first inputs.
  ghost predicate MergingInputs(s0: Store, t: Store, h: map<Id, nat>, id: Id, outs: seq<Id>) {
    && Heighted(s0, h) && Heighted(t, h) && Relinked(s0, t) && id in s0
    && (forall m | m in s0 && h[m] >= h[id] :: t[m] == s0[m])
    && (forall m | m in s0 :: Eval(t, h, m) == Eval(s0, h, m))
    && |outs| <= |s0[id].inputs|
    && Alike(t, h, outs, s0[id].inputs)
  }

  lemma RewireRelinks(t: Store, id: Id, outs: seq<Id>)
    requires id in t && |outs| == |t[id].inputs|
    ensures Relinked(t, t[id := t[id].(inputs := outs)])
  {
  }

  lemma RelinkedTrans(s0: Store, s1: Store, s2: Store)
    requires Relinked(s0, s1) && Relinked(s1, s2)
    ensures Relinked(s0, s2)
  {
  }

  lemma MergingStart(s0: Store, h: map<Id, nat>, id: Id)
    requires Heighted(s0, h) && id in s0
    ensures MergingInputs(s0, s0, h, id, [])
  {
  }

  lemma AlikeAppend(t1: Store, t2: Store, h: map<Id, nat>, outs: seq<Id>, ins: seq<Id>, x: Id)
    requires Ranked(t1, h) && Ranked(t2, h) && Alike(t1, h, outs, ins) && |outs| < |ins|
    requires forall m | m in t1 :: m in t2 && Eval(t2, h, m) == Eval(t1, h, m)
    requires x in t2 && ins[|outs|] in t2 && h[x] == h[ins[|outs|]] && Eval(t2, h, x) == Eval(t2, h, ins[|outs|])
    ensures Alike(t2, h, outs + [x], ins)
  {
    forall k | 0 <= k < |outs| + 1
      ensures (outs + [x])[k] in t2 && ins[k] in t2 && h[(outs + [x])[k]] == h[ins[k]]
      ensures Eval(t2, h, (outs + [x])[k]) == Eval(t2, h, ins[k])
    {
      if k < |outs| {
        assert (outs + [x])[k] == outs[k];
      }
    }
  }

  lemma MergingStep(s0: Store, t1: Store, t2: Store, h: map<Id, nat>, id: Id, outs: seq<Id>, x: Id)
    requires MergingInputs(s0, t1, h, id, outs) && |outs| < |s0[id].inputs|
    requires Merged(t1, t2, h, s0[id].inputs[|outs|], x)
    ensures MergingInputs(s0, t2, h, id, outs + [x])
  {
    var ins := s0[id].inputs;
    var i := ins[|outs|];
    assert h[i] < h[id];
    RelinkedTrans(s0, t1, t2);
    assert Eval(t2, h, i) == Eval(t1, h, i) == Eval(s0, h, i);
    AlikeAppend(t1, t2, h, outs, ins, x);
  }

  lemma GrowsAdd(table: Table, key: Key, y: Id)
    requires key !in table
    ensures Grows(table, table[key := y])
  {
  }

  /// The lookup hit (line 29): the node recorded for the key stands for `id`.
  lemma MergeHit(s0: Store, t: Store, h: map<Id, nat>, table: Table, id: Id, outs: seq<Id>)
    requires MergingInputs(s0, t, h, id, outs) && |outs| == |s0[id].inputs| && s0[id].inputs != []
    requires TableOk(t, h, table) && Key(s0[id].op, outs, s0[id].value) in table
    ensures Merged(s0, t, h, id, table[Key(s0[id].op, outs, s0[id].value)])
  {
    var ins := s0[id].inputs;
    var y := table[Key(s0[id].op, outs, s0[id].value)];
    assert t[id] == s0[id];
    assert Entry(t, h, Key(s0[id].op, outs, s0[id].value), y);
    forall k | 0 <= k < |ins| ensures Eval(t, h, t[id].inputs[k]) == Eval(t, h, t[y].inputs[k]) {
      assert Eval(t, h, outs[k]) == Eval(t, h, ins[k]);
    }
    EvalCongruent(t, h, id, t, h, y);
    AboveAlike(h, t[y].inputs, ins);
  }

  /// The lookup miss (lines 31-33): `id` takes the merged inputs and is
  /// recorded under its key.
  lemma AlikeAfter(t: Store, t2: Store, h: map<Id, nat>, ids: seq<Id>, ins: seq<Id>)
    requires Ranked(t, h) && Ranked(t2, h) && Alike(t, h, ids, ins)
    requires forall m | m in t :: m in t2 && Eval(t2, h, m) == Eval(t, h, m)
    ensures Alike(t2, h, ids, ins)
  {
  }

  lemma AlikeTrans(t: Store, h: map<Id, nat>, a: seq<Id>, b: seq<Id>, c: seq<Id>)
    requires Ranked(t, h) && Alike(t, h, a, b) && Alike(t, h, b, c) && |a| == |b|
    ensures Alike(t, h, a, c)
  {
  }

  lemma AlikeSym(t: Store, h: map<Id, nat>, a: seq<Id>, b: seq<Id>)
    requires Ranked(t, h) && Alike(t, h, a, b) && |a| == |b|
    ensures Alike(t, h, b, a)
  {
  }

  /// Rewiring `id` to inputs of the same heights keeps the heights exact.
  lemma RewireHeighted(t: Store, t2: Store, h: map<Id, nat>, id: Id, outs: seq<Id>)
    requires Heighted(t, h) && id in t && t2 == t[id := t[id].(inputs := outs)]
    requires |outs| == |t[id].inputs|
    requires forall k | 0 <= k < |outs| :: outs[k] in t && h[outs[k]] == h[t[id].inputs[k]]
    ensures Heighted(t2, h)
  {
    AboveAlike(h, outs, t[id].inputs);
    forall m | m in t2 ensures HeightOk(t2, h, m) {
      assert HeightOk(t, h, m);
    }
  }

  /// Rewiring `id` to inputs alike its own changes no value.
  lemma RewireAlike(t: Store, t2: Store, h: map<Id, nat>, id: Id, outs: seq<Id>)
    requires Ranked(t, h) && Ranked(t2, h) && id in t && t2 == t[id := t[id].(inputs := outs)]
    requires |outs| == |t[id].inputs| && Alike(t, h, outs, t[id].inputs)
    ensures forall m | m in t :: m in t2 && Eval(t2, h, m) == Eval(t, h, m)
  {
    assert Rewired(t, t2, id, outs);
    EvalRewired(t, t2, h, id, outs);
  }

  /// The lookup miss (lines 31-33), for the node: `id` takes the merged
  /// inputs and keeps its value, and so does every other node.
  lemma MergeMissNode(s0: Store, t: Store, t2: Store, h: map<Id, nat>, id: Id, outs: seq<Id>)
    requires MergingInputs(s0, t, h, id, outs) && |outs| == |s0[id].inputs| && s0[id].inputs != []
    requires t2 == t[id := t[id].(inputs := outs)]
    ensures Ranked(t2, h) && Merged(s0, t2, h, id, id)
    ensures forall m | m in t :: m in t2 && Eval(t2, h, m) == Eval(t, h, m)
  {
    assert t[id] == s0[id];
    MissShape(s0, t, t2, h, id, outs);
    RewireAlike(t, t2, h, id, outs);
  }

  lemma MissShape(s0: Store, t: Store, t2: Store, h: map<Id, nat>, id: Id, outs: seq<Id>)
    requires Heighted(t, h) && Relinked(s0, t) && id in t && t2 == t[id := t[id].(inputs := outs)]
    requires |outs| == |t[id].inputs|
    requires forall k | 0 <= k < |outs| :: outs[k] in t && h[outs[k]] == h[t[id].inputs[k]]
    requires forall m | m in s0 && h[m] >= h[id] :: t[m] == s0[m]
    ensures Heighted(t2, h) && Relinked(s0, t2)
    ensures forall m | m in s0 && h[m] > h[id] :: t2[m] == s0[m]
  {
    RewireHeighted(t, t2, h, id, outs);
    RewireRelinks(t, id, outs);
    RelinkedTrans(s0, t, t2);
    forall m | m in s0 && h[m] > h[id] ensures t2[m] == s0[m] {
      assert m != id && t2[m] == t[m];
    }
  }

  /// The lookup miss (lines 31-33), for the dictionary: recording `id`
  /// under its new key keeps every entry sound.
  lemma MergeMissTable(t: Store, t2: Store, h: map<Id, nat>, table: Table, id: Id, outs: seq<Id>, key: Key)
    requires Ranked(t, h) && Ranked(t2, h) && TableOk(t, h, table) && id in t
    requires |outs| == |t[id].inputs| && Alike(t, h, outs, t[id].inputs)
    requires t2 == t[id := t[id].(inputs := outs)]
    requires forall m | m in t :: m in t2 && Eval(t2, h, m) == Eval(t, h, m)
    requires key == Key(t[id].op, outs, t[id].value)
    ensures TableOk(t2, h, table[key := id])
  {
    var ins := t[id].inputs;
    AlikeAfter(t, t2, h, outs, ins);
    var table2 := table[key := id];
    forall k | k in table2 ensures Entry(t2, h, k, table2[k]) {
      var y := table2[k];
      if k == key {
        AlikeSym(t2, h, outs, ins);
        AlikeTrans(t2, h, outs, ins, outs);
      } else {
        assert Entry(t, h, k, y);
        AlikeAfter(t, t2, h, k.ids, t[y].inputs);
        if y == id {
          AlikeSym(t2, h, outs, ins);
          AlikeTrans(t2, h, k.ids, ins, outs);
        }
      }
    }
  }

  /// The inputs of `id` sit below it in `h`.
  ghost predicate Below(s: Store, h: map<Id, nat>, id: Id)
    requires id in s && id in h
  {
    forall k | 0 <= k < |s[id].inputs| :: s[id].inputs[k] in s && s[id].inputs[k] in h && h[s[id].inputs[k]] < h[id]
  }

  /// `res` is the node `x`, store `t` and dictionary `tb`.
  ghost predicate Leaves<T>(res: (T, Store, Table), x: T, t: Store, tb: Table) {
    res.0 == x && res.1 == t && res.2 == tb
  }

  /// `helper(id)` (lines 22-33) on store `s` and dictionary `table`: the
  /// node returned, and the store and dictionary left behind. A leaf comes
  /// back as it is. Otherwise the inputs are merged in order and the key
  /// `(op, merged input ids, value)` looked up: on a hit the node recorded
  /// for it comes back, on a miss `id` takes the merged inputs, is recorded
  /// and comes back. (The merges of the inputs never touch `id`, which sits
  /// above them, so its operator, value and record are those of `s`.)
  ghost function MergeSpec(s: Store, h: map<Id, nat>, table: Table, id: Id): (Id, Store, Table)
    requires id in s && id in h && Below(s, h, id)
    decreases h[id], 1
  {
    if s[id].inputs == [] then (id, s, table)
    else
      var (outs, s1, t1) := MergeUpTo(s, h, table, id, |s[id].inputs|);
      var key := Key(s[id].op, outs, s[id].value);
      if key in t1 then (t1[key], s1, t1)
      else (id, s1[id := s[id].(inputs := outs)], t1[key := id])
  }

  /// Line 25 over the first `n` inputs of `id`: each input merged on the
  /// store and dictionary the previous ones left. (An input that is not
  /// ranked below `id` there, which a ranked store never has, is kept.)
  ghost function MergeUpTo(s: Store, h: map<Id, nat>, table: Table, id: Id, n: nat): (seq<Id>, Store, Table)
    requires id in s && id in h && Below(s, h, id) && n <= |s[id].inputs|
    decreases h[id], 0, n
  {
    if n == 0 then ([], s, table)
    else
      var (outs, s1, t1) := MergeUpTo(s, h, table, id, n - 1);
      var i := s[id].inputs[n - 1];
      if i in s1 && Below(s1, h, i) then
        var (x, s2, t2) := MergeSpec(s1, h, t1, i);
        (outs + [x], s2, t2)
      else (outs + [i], s1, t1)
  }

  lemma MergeUpToStep(s0: Store, h: map<Id, nat>, table: Table, id: Id, outs: seq<Id>,
                      t1: Store, tb1: Table, y: Id, t2: Store, tb2: Table)
    requires id in s0 && id in h && Below(s0, h, id) && |outs| < |s0[id].inputs|
    requires Leaves(MergeUpTo(s0, h, table, id, |outs|), outs, t1, tb1)
    requires Heighted(t1, h) && s0[id].inputs[|outs|] in t1
    requires Leaves(MergeSpec(t1, h, tb1, s0[id].inputs[|outs|]), y, t2, tb2)
    ensures Leaves(MergeUpTo(s0, h, table, id, |outs| + 1), outs + [y], t2, tb2)
  {
    assert Below(t1, h, s0[id].inputs[|outs|]);
  }

  /// `optimize(root)` (lines 16-35): `helper(root)` on an empty dictionary,
  /// with the nodes ranked by height; the node returned and the store left.
  ghost function Eliminated(s: Store, rank: map<Id, nat>, root: Id): (Id, Store)
    requires Ranked(s, rank) && root in s
  {
    HeightsHeighted(s, rank);
    var (x, t, _) := MergeSpec(s, Heights(s, rank), map[], root);
    (x, t)
  }

  /// `helper(node)` (lines 22-33).
  method Merge(g: Graph, table: Table, id: Id) returns (x: Id, table2: Table, ghost key: Key)
    requires g.Valid() && Heighted(g.nodes, g.rank) && TableOk(g.nodes, g.rank, table) && id in g.nodes
    modifies g
    decreases g.rank[id], 2
    ensures g.Valid() && g.rank == old(g.rank) && g.nextId == old(g.nextId)
    ensures Merged(old(g.nodes), g.nodes, g.rank, id, x)
    ensures TableOk(g.nodes, g.rank, table2) && Grows(table, table2)
    ensures old(g.nodes)[id].inputs == [] ==> table2 == table
    ensures old(g.nodes)[id].inputs != [] ==>
      key.op == old(g.nodes)[id].op && key.value == old(g.nodes)[id].value && key in table2 && table2[key] == x
    ensures Leaves(MergeSpec(old(g.nodes), g.rank, table, id), x, g.nodes, table2)
  {
    if g.nodes[id].inputs == [] {
      return id, table, Key(Const, [], None);
    }
    ghost var s0 := g.nodes;
    var outs;
    outs, table2 := MergeInputs(g, table, id);
    ghost var s1, t1 := g.nodes, table2;
    x, table2, key := Record(g, table2, id, outs, s0);
    assert Leaves(MergeUpTo(s0, g.rank, table, id, |s0[id].inputs|), outs, s1, t1);
  }

  /// The loop `[helper(inp) for inp in node.inputs]` (line 25).
  method MergeInputs(g: Graph, table: Table, id: Id) returns (outs: seq<Id>, table2: Table)
    requires g.Valid() && Heighted(g.nodes, g.rank) && TableOk(g.nodes, g.rank, table) && id in g.nodes
    modifies g
    decreases g.rank[id], 1
    ensures g.Valid() && g.rank == old(g.rank) && g.nextId == old(g.nextId)
    ensures MergingInputs(old(g.nodes), g.nodes, g.rank, id, outs) && |outs| == |old(g.nodes)[id].inputs|
    ensures TableOk(g.nodes, g.rank, table2) && Grows(table, table2)
    ensures Leaves(MergeUpTo(old(g.nodes), g.rank, table, id, |old(g.nodes)[id].inputs|), outs, g.nodes, table2)
  {
    ghost var s0 := g.nodes;
    var ins := g.nodes[id].inputs;
    MergingStart(s0, g.rank, id);
    outs := [];
    table2 := table;
    while |outs| < |ins|
      invariant g.Valid() && g.rank == old(g.rank) && g.nextId == old(g.nextId)
      invariant MergingInputs(s0, g.nodes, g.rank, id, outs)
      invariant TableOk(g.nodes, g.rank, table2) && Grows(table, table2)
      invariant Leaves(MergeUpTo(s0, g.rank, table, id, |outs|), outs, g.nodes, table2)
      decreases |ins| - |outs|
    {
      var y;
      y, table2 := MergeNext(g, table, table2, id, outs, s0);
      outs := outs + [y];
    }
  }

  /// One turn of the loop of line 25: the next input's `helper`.
  method MergeNext(g: Graph, table: Table, table1: Table, id: Id, outs: seq<Id>, ghost s0: Store)
    returns (y: Id, table2: Table)
    requires g.Valid() && MergingInputs(s0, g.nodes, g.rank, id, outs) && |outs| < |s0[id].inputs|
    requires TableOk(g.nodes, g.rank, table1) && Grows(table, table1)
    requires Below(s0, g.rank, id) && Leaves(MergeUpTo(s0, g.rank, table, id, |outs|), outs, g.nodes, table1)
    modifies g
    decreases g.rank[id], 0
    ensures g.Valid() && g.rank == old(g.rank) && g.nextId == old(g.nextId)
    ensures MergingInputs(s0, g.nodes, g.rank, id, outs + [y])
    ensures TableOk(g.nodes, g.rank, table2) && Grows(table, table2)
    ensures Leaves(MergeUpTo(s0, g.rank, table, id, |outs| + 1), outs + [y], g.nodes, table2)
  {
    ghost var t1 := g.nodes;
    ghost var unused;
    assert g.nodes[id] == s0[id];
    y, table2, unused := Merge(g, table1, g.nodes[id].inputs[|outs|]);
    MergingStep(s0, t1, g.nodes, g.rank, id, outs, y);
    MergeUpToStep(s0, g.rank, table, id, outs, t1, table1, y, g.nodes, table2);
  }

  /// Lines 26-33: look the key up; on a hit return the recorded node, on a
  /// miss rewire `id` and record it.
  method Record(g: Graph, table: Table, id: Id, outs: seq<Id>, ghost s0: Store) returns (x: Id, table2: Table, ghost key: Key)
    requires g.Valid() && MergingInputs(s0, g.nodes, g.rank, id, outs)
    requires |outs| == |s0[id].inputs| && s0[id].inputs != []
    requires TableOk(g.nodes, g.rank, table)
    modifies g
    ensures g.Valid() && g.rank == old(g.rank) && g.nextId == old(g.nextId)
    ensures Merged(s0, g.nodes, g.rank, id, x)
    ensures TableOk(g.nodes, g.rank, table2) && Grows(table, table2)
    ensures key.op == s0[id].op && key.value == s0[id].value && key in table2 && table2[key] == x
    ensures key == Key(s0[id].op, outs, s0[id].value)
    ensures key in table ==> x == table[key] && g.nodes == old(g.nodes) && table2 == table
    ensures key !in table ==>
      x == id && g.nodes == old(g.nodes)[id := s0[id].(inputs := outs)] && table2 == table[key := id]
  {
    assert g.nodes[id] == s0[id];
    var k := Key(g.nodes[id].op, outs, g.nodes[id].value);
    key := k;
    if k in table {
      MergeHit(s0, g.nodes, g.rank, table, id, outs);
      return table[k], table, k;
    }
    ghost var t := g.nodes;
    MergeMissNode(s0, t, t[id := t[id].(inputs := outs)], g.rank, id, outs);
    MergeMissTable(t, t[id := t[id].(inputs := outs)], g.rank, table, id, outs, k);
    g.SetInputs(id, outs);
    GrowsAdd(table, k, id);
    table2 := table[k := id];
    x := id;
  }

  /// `optimize(graph)`: merge common subexpressions under the root and return
  /// the root's replacement. Only inputs are redirected, every node keeps its
  /// value, and the result evaluates like the root.
  method Optimize(g: Graph, root: Id) returns (r: Id)
    requires g.Valid() && root in g.nodes
    modifies g
    ensures g.Valid() && Relinked(old(g.nodes), g.nodes) && g.nextId == old(g.nextId)
    ensures forall m | m in old(g.nodes) :: Eval(g.nodes, g.rank, m) == Eval(old(g.nodes), old(g.rank), m)
    ensures r in g.nodes && Eval(g.nodes, g.rank, r) == Eval(old(g.nodes), old(g.rank), root)
    ensures g.nodes[r].op == old(g.nodes)[root].op && g.nodes[r].value == old(g.nodes)[root].value
    ensures old(g.nodes)[root].inputs == [] ==> r == root && g.nodes == old(g.nodes)
    ensures Traced(old(g.nodes)) ==> Traced(g.nodes)
    ensures (r, g.nodes) == Eliminated(old(g.nodes), old(g.rank), root)
  {
    ghost var s0, r0 := g.nodes, g.rank;
    HeightsHeighted(g.nodes, g.rank);
    g.Rerank(Heights(g.nodes, g.rank));
    var table;
    ghost var key;
    r, table, key := Merge(g, map[], root);
    EvalExtends(s0, r0, s0, g.rank);
    RelinkedTraced(s0, g.nodes);
  }

  lemma RelinkedTraced(s: Store, t: Store)
    requires Relinked(s, t)
    ensures Traced(s) ==> Traced(t)
  {
    if Traced(s) {
      forall m | m in t ensures TracedNode(t[m]) {
        assert TracedNode(s[m]);
      }
    }
  }

  // ---------------------------------------------------------------------
  // A worked case: `(a + b) * (a + b)` with the sum built twice
  // ---------------------------------------------------------------------

  /// Leaves `a` (0) and `b` (1), two nodes `a + b` (2 and 3) and their
  /// product (4).
  function Twice(): Store {
    map[0 := ConstNode(Some(2.0), 2), 1 := ConstNode(Some(3.0), 2),
        2 := Node(Add, [0, 1], None, None, 1, map[]),
        3 := Node(Add, [0, 1], None, None, 1, map[]),
        4 := Node(Mul, [2, 3], None, None, 0, map[])]
  }

  function TwiceRank(): map<Id, nat> {
    map[0 := 0, 1 := 0, 2 := 1, 3 := 1, 4 := 2]
  }

  lemma TwiceSums()
    ensures Ranked(Twice(), TwiceRank())
    ensures Height(Twice(), TwiceRank(), 2) == 1 && Height(Twice(), TwiceRank(), 3) == 1
  {
    var s, rank := Twice(), TwiceRank();
    assert Height(s, rank, 0) == 0 && Height(s, rank, 1) == 0;
    assert HeightFrom(s, rank, 2, 1) == 1 && HeightFrom(s, rank, 3, 1) == 1;
  }

  lemma TwiceHeights()
    ensures Ranked(Twice(), TwiceRank()) && Heights(Twice(), TwiceRank()) == TwiceRank()
  {
    var s, rank := Twice(), TwiceRank();
    TwiceSums();
    assert Height(s, rank, 0) == 0 && Height(s, rank, 1) == 0;
    assert HeightFrom(s, rank, 4, 1) == 2;
    assert Height(s, rank, 4) == 2;
  }

  /// `helper` on a node of two inputs, from what the calls on its inputs give.
  lemma MergePair(s: Store, h: map<Id, nat>, table: Table, id: Id,
                  x0: Id, s0: Store, t0: Table, x1: Id, s1: Store, t1: Table)
    requires id in s && id in h && Below(s, h, id) && |s[id].inputs| == 2
    requires s[id].inputs[0] in s && Below(s, h, s[id].inputs[0])
    requires Leaves(MergeSpec(s, h, table, s[id].inputs[0]), x0, s0, t0)
    requires s[id].inputs[1] in s0 && Below(s0, h, s[id].inputs[1])
    requires Leaves(MergeSpec(s0, h, t0, s[id].inputs[1]), x1, s1, t1)
    ensures var key := Key(s[id].op, [x0, x1], s[id].value);
      MergeSpec(s, h, table, id) ==
        if key in t1 then (t1[key], s1, t1) else (id, s1[id := s[id].(inputs := [x0, x1])], t1[key := id])
  {
    assert [] + [x0] == [x0] && [x0] + [x1] == [x0, x1];
    assert MergeUpTo(s, h, table, id, 1) == ([x0], s0, t0);
    assert MergeUpTo(s, h, table, id, 2) == ([x0, x1], s1, t1);
  }

  /// The second sum is found under the first one's key, so the product
  /// takes the first sum for both of its inputs and is recorded.
  lemma TwiceMerged()
    ensures Ranked(Twice(), TwiceRank())
    ensures Eliminated(Twice(), TwiceRank(), 4) == (4, Twice()[4 := Node(Mul, [2, 2], None, None, 0, map[])])
  {
    TwiceHeights();
    var s, h := Twice(), TwiceRank();
    HeightsHeighted(s, h);
    TwiceSumsMerged();
    MergePair(s, h, map[], 4, 2, s, map[Key(Add, [0, 1], None) := 2], 2, s, map[Key(Add, [0, 1], None) := 2]);
  }

  /// The first sum is recorded; the second is found under its key.
  lemma TwiceSumsMerged()
    ensures Ranked(Twice(), TwiceRank())
    ensures Leaves(MergeSpec(Twice(), TwiceRank(), map[], 2), 2, Twice(), map[Key(Add, [0, 1], None) := 2])
    ensures Leaves(MergeSpec(Twice(), TwiceRank(), map[Key(Add, [0, 1], None) := 2], 3), 2, Twice(), map[Key(Add, [0, 1], None) := 2])
  {
    TwiceFirstSum();
    var s, h := Twice(), TwiceRank();
    var t1 := map[Key(Add, [0, 1], None) := 2];
    MergePair(s, h, t1, 3, 0, s, t1, 1, s, t1);
  }

  lemma TwiceFirstSum()
    ensures Ranked(Twice(), TwiceRank())
    ensures Leaves(MergeSpec(Twice(), TwiceRank(), map[], 2), 2, Twice(), map[Key(Add, [0, 1], None) := 2])
  {
    var s, h := Twice(), TwiceRank();
    assert s[2 := s[2].(inputs := [0, 1])] == s;
    MergePair(s, h, map[], 2, 0, s, map[], 1, s, map[]);
  }
}
