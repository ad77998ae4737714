# jax-autodiff core, modelled in Dafny

This project models the scalar core of jax-autodiff, a small tracing
autodiff library with a graph optimizer. It covers:

- the graph IR built by the tracer (`constant`, `add`, `mul`, `div` and
  `Node(...)` with reference counts), the evaluator, and `Node.release`;
- reverse-mode differentiation (`topological_sort`, `compute_gradients`)
  and its second evaluator;
- the optimization passes: constant folding, common-subexpression
  elimination, dead-code marking, operation fusion and the algebraic
  patterns `x * 0` and `x * 1`;
- the compiler that chains those passes, and `apply_patterns`.

The Python objects live in a heap and are shared. The model keeps that heap
as an arena: the class `Tracer.Graph` holds a map from node identities to
node records. A node names its inputs by identity. A pass that assigns
`node.inputs` in place is therefore seen by every consumer of that node, as
in the source. A ghost rank map witnesses that the graph is acyclic. Every
constructor keeps that witness valid, and so does every pass.

Exceptions are values of `Tracer.Error`, and every operation that can raise
returns a `Result` or an error outcome. Division by zero, a missing value in
arithmetic, an operator without a rule, a failed unpacking and an exhausted
`next(...)` are all error results, never preconditions.

Modules, one per source file:

| file | module | models |
|---|---|---|
| wrappers.dfy | `Wrappers` | `Option` and `Result` |
| tracer.dfy | `Tracer` | src/core/tracer.py |
| graph_facts.dfy | `GraphFacts` | facts about `evaluate` that the passes share |
| autodiff.dfy | `Autodiff` | src/core/autodiff.py |
| constant_folding.dfy | `ConstantFolding` | src/optimizations/constant_folding.py |
| cse.dfy | `Cse` | src/optimizations/cse.py |
| dead_code.dfy | `DeadCode` | src/optimizations/dead_code.py |
| fusion.dfy | `Fusion` | src/optimizations/fusion.py |
| patterns.dfy | `Patterns` | src/optimizations/patterns.py |
| compiler.dfy | `Compiler` | src/core/compiler.py |

Main results:

- Constant folding, CSE and `apply_patterns` preserve what `evaluate` computes.
  - Constant folding and CSE do so on any store the tracer builds.
  - `apply_patterns` does so on such stores where no node raises.
  - These hypotheses are about the whole store (every node in the arena),
    not only the nodes the root reaches.
- Constant folding is specified exactly by `ConstantFolding.FoldSpec`, a
  function that follows `helper` step by step. It gives the node returned,
  the store left behind and the next fresh id. The method is proved to
  produce exactly that. A node folds exactly when its rewired inputs are
  all constants and its sum or product succeeds. Nothing is left to fold
  under the result. On `add(div(5, 4), 3)` the quotient does not fold, so
  the sum does not fold either, and the store comes back unchanged.
  - In a traced store made only of constants, additions and
    multiplications, the root therefore folds to one constant.
  - `Compiler.compile` then reduces such a graph to a constant holding its
    value. `compile` runs each pass, in order, on the stage the previous one
    left. Its ghost trace records every stage, and `Compiler.PassDoes`
    states what each pass did. This includes the `(2 + 3) * 4` example and the `2 + 3` test.
- CSE and `apply_patterns` are each specified exactly by a function that
  follows `helper` step by step: the node returned, the store left behind,
  and (for CSE) the dictionary. The method is proved to produce exactly
  that. On `mul(add(a, b), add(a, b))`, CSE gives the product the inputs
  `[s, s]`, where `s` is the first sum. On `mul(x, 1) + y`, `apply_patterns`
  rewires the sum to `x` and `y`.
- `topological_sort` lists exactly the reachable nodes, without duplicates,
  inputs first and root last.
- The gradient rules of `compute_gradients`:
  - add passes the gradient to each input, once per occurrence;
  - mul credits each operand with the gradient times the other operand;
  - the root keeps its seed;
  - every reachable node gets a gradient;
  - nothing unreachable changes.
- Fusion's replacement map, as written, sends an intermediate group member
  to the fused node. The fused node computes only the group's last member,
  so this is wrong (see Findings). The model uses the corrected map.
  `replace_node` is specified exactly by the function `Fusion.Replaced`: each
  node is kept, replaced by its fused node, or copied over its replaced
  inputs. The method is proved to build nodes that realize that description.

## Model

| member | source | states |
|---|---|---|
| Tracer.Graph.NewNode | src/core/tracer.py:14-43 | `Node(op, inputs, value)`: a fresh id. Each node argument gains one reference, in order. Each literal argument becomes a fresh constant holding one reference. The new node has count 0, no gradient and empty metadata. Existing nodes keep everything but their counts, and acyclicity is kept |
| Tracer.Graph.Constant | src/core/tracer.py:70-72 | `constant(v)` adds exactly one fresh leaf holding `v` with count 0 and changes nothing else |
| Tracer.Graph.Add | src/core/tracer.py:74-80 | `add(a, b)` creates an add node over the two arguments, wrapping literals in constants; traced shape is kept |
| Tracer.Graph.Mul | src/core/tracer.py:82-88 | `mul(a, b)` creates a mul node over the two arguments, wrapping literals in constants; traced shape is kept |
| Tracer.Graph.Div | src/core/tracer.py:90-96 | `div(a, b)` creates a div node over the two arguments, wrapping literals in constants; traced shape is kept |
| Tracer.Graph.SetInputs | src/core/compiler.py:58 | the in-place `node.inputs = ...` changes that one field of that one node |
| Tracer.Graph.SetGrad | src/core/autodiff.py:46 | the in-place `node.grad = ...` changes that one field of that one node |
| Tracer.Graph.SetMetadata | src/optimizations/fusion.py:158 | the in-place `node.metadata = ...` changes that one field of that one node |
| Tracer.Graph.Release | src/core/tracer.py:45-54 | `release()` leaves every field but the counts as it was, and the counts become the recursive release of the node |
| Tracer.ReleaseDecrements | src/core/tracer.py:51-54 | release never raises a count, and lowers each input's count by at least the number of times it occurs among the inputs |
| Tracer.ReleaseStaysBelow | src/core/tracer.py:45-54 | release touches only nodes the released node reaches, and not the released node itself |
| Tracer.ReachInputs | src/core/tracer.py:112 | the nodes a node reaches include itself and everything its inputs reach |
| Tracer.ReachBelow | src/core/tracer.py:112 | everything a node reaches is in the graph and ranks no higher, so evaluation terminates |
| Tracer.Apply | src/core/tracer.py:129-137 | the scalar operators succeed exactly for add, mul and div over two operands or more, division only by a non-zero divisor; any other operator raises a ValueError |
| Tracer.EvalInputsValues | src/core/tracer.py:112 | the input list succeeds exactly when every input evaluates, and then holds their values in input order |
| Tracer.EvalDefined | src/core/tracer.py:98-137 | `evaluate` succeeds exactly on a node carrying a value, or on an add/mul/div over two or more inputs that all evaluate, without a zero divisor |
| Tracer.Trace | src/core/tracer.py:139-151 | `trace` returns a literal as it is and a node's carried value; a value-less node traces only if it is an operator node over two or more inputs |
| Tracer.EvalShortCircuits | src/core/tracer.py:108-109 | a node carrying a value evaluates to that value whatever its inputs are |
| Tracer.EvalBinary | src/core/tracer.py:129-137 | on scalar inputs a, b: add gives a+b, mul a*b, div a/b or ZeroDivisionError when b is 0, any other operator a ValueError |
| Tracer.EvalInputErrorPropagates | src/core/tracer.py:112 | the first input whose evaluation raises makes the node raise the same error |
| GraphFacts.EvalCongruent | src/core/tracer.py:98-137 | two nodes with equal operator and value whose inputs evaluate alike evaluate alike |
| GraphFacts.EvalExtends | src/core/tracer.py:98-137 | adding nodes and changing counts, gradients or metadata never changes what an existing node evaluates to |
| GraphFacts.EvalRewired | src/core/tracer.py:98-137 | redirecting a node's inputs to nodes that evaluate alike changes no node's evaluation anywhere in the graph |
| GraphFacts.EvalRewiredRefines | src/core/tracer.py:98-137 | redirecting inputs to nodes at least as defined leaves every node at least as defined, with the same value where it had one |
| Autodiff.Visit | src/core/autodiff.py:23-29 | the recursive `visit` produces the visited set and order of the depth-first post-order specification |
| Autodiff.TopologicalSort | src/core/autodiff.py:10-32 | the method returns the depth-first post-order from the root |
| Autodiff.TopoSortFacts | src/core/autodiff.py:10-32 | the order holds exactly the nodes the root reaches, each once; every input of a listed node comes earlier; the root comes last |
| Autodiff.AdEvalIgnoresValue | src/core/autodiff.py:98-108 | this evaluator looks at the operator first: a node other than a constant is recomputed from its inputs whatever value it carries |
| Autodiff.AdEvalAgrees | src/core/autodiff.py:99-109 | on traced graphs the autodiff evaluator and the tracer's evaluator succeed on the same nodes with the same values |
| Autodiff.Bump | src/core/autodiff.py:67 | `inp.grad += d` changes only that node's gradient; it raises TypeError exactly when either side is None |
| Autodiff.Times | src/core/autodiff.py:88-89 | the credit `node.grad * value` exists exactly when both exist and is their product |
| Autodiff.Zipped | src/core/autodiff.py:96 | `zip(node.inputs, grads)` pairs the first min(len) gradients, in order |
| Autodiff.HookOf | src/core/autodiff.py:93-94 | a `grad_fn` entry is called exactly when it is a gradient function; a missing entry is skipped |
| Autodiff.Propagate | src/core/autodiff.py:60-97 | one turn of the reverse loop changes gradients only |
| Autodiff.InitGrads | src/core/autodiff.py:51-57 | every listed node without a gradient gets 0.0; every other gradient and every other field is kept |
| Autodiff.AddRule | src/core/autodiff.py:61-67 | an add node credits each input with its gradient once per occurrence of that input, without error |
| Autodiff.MulRule | src/core/autodiff.py:68-89 | a mul node over defined operands a, b credits a with grad*value(b) and b with grad*value(a), without error |
| Autodiff.HookRule | src/core/autodiff.py:90-97 | any other operator: no gradient function changes nothing; a true value that is not callable raises TypeError; a gradient function's results are added to the inputs position by position, as far as `zip` pairs them |
| Autodiff.Backward | src/core/autodiff.py:59-97 | the reverse loop over the sorted nodes changes gradients only |
| Autodiff.Gradients | src/core/autodiff.py:34-97 | `compute_gradients` changes gradients only |
| Autodiff.GradientsSteps | src/core/autodiff.py:34-59 | `compute_gradients` seeds the root, sorts exactly the reachable nodes with the root last, gives them gradients, then runs the reverse loop over that order |
| Autodiff.CreditRepeat | src/core/autodiff.py:63-67 | crediting the same gradient to a list of inputs credits each node its number of occurrences times |
| Autodiff.RepeatedScales | src/core/autodiff.py:63-67 | adding g n times is g*n, so an input used twice by an add receives twice the gradient |
| Autodiff.BumpFromCredits | src/core/autodiff.py:63-67 | with all gradients present, crediting a list succeeds and each node grows by its own share |
| Autodiff.BackwardConsts | src/core/autodiff.py:90-91 | constants contribute nothing: a reverse pass over constants changes nothing |
| Autodiff.GradientsKeepSeed | src/core/autodiff.py:43-46 | after `compute_gradients` the root's gradient is the seed |
| Autodiff.GradientsReachAll | src/core/autodiff.py:51-57 | after `compute_gradients` every node the root reaches has a gradient |
| Autodiff.GradientsFrame | src/core/autodiff.py:34-97 | `compute_gradients` leaves every node the root does not reach exactly as it was |
| Autodiff.AddScenario | tests/test_autodiff.py:11-18 | for `add(a, b)` seeded with 1 both inputs get gradient 1 |
| Autodiff.MulScenario | tests/test_autodiff.py:20-27 | for `mul(a, b)` seeded with 1, a gets b's value and b gets a's value |
| Autodiff.BumpGrad | src/core/autodiff.py:67 | the in-place bump does what `Bump` specifies |
| Autodiff.BumpEach | src/core/autodiff.py:63-67 | the loop over the inputs bumps in order, stopping at the first error |
| Autodiff.PropagateNode | src/core/autodiff.py:61-97 | the in-place body of the reverse loop does what `Propagate` specifies |
| Autodiff.InitGradients | src/core/autodiff.py:51-57 | the in-place initialization loop does what `InitGrads` specifies |
| Autodiff.Backpropagate | src/core/autodiff.py:60-97 | the reversed loop applies `Propagate` from the last listed node to the first, stopping at an error |
| Autodiff.ComputeGradients | src/core/autodiff.py:34-97 | `compute_gradients` seeds the root, sorts, initializes and back-propagates, with the results above |
| ConstantFolding.Sum | src/optimizations/constant_folding.py:33-40 | summing the input values succeeds exactly when every value is present, else TypeError |
| ConstantFolding.Product | src/optimizations/constant_folding.py:41-50 | the product fails with IndexError on no inputs, and with TypeError when one of several values is missing; a single input is passed through |
| ConstantFolding.ProductErrPersists | src/optimizations/constant_folding.py:44-46 | once the running product fails, the rest of the loop keeps that error |
| ConstantFolding.MulFold | src/optimizations/constant_folding.py:41-50 | the multiplication loop computes `Product` |
| ConstantFolding.FoldOp | src/optimizations/constant_folding.py:33-55 | only add and mul fold; add folds exactly when `Sum` does, to its value; mul folds as `Product` |
| ConstantFolding.ComputeFold | src/optimizations/constant_folding.py:32-55 | the try block computes `FoldOp` |
| ConstantFolding.FoldedValue | src/optimizations/constant_folding.py:30-50 | on a traced node over constants, a fold that succeeds yields a value, and that value is what `evaluate` gives |
| ConstantFolding.Fold | src/optimizations/constant_folding.py:20-56 | `helper(node)` returns, leaves and advances exactly what `FoldSpec` gives. A constant is returned as it is. Otherwise the inputs are folded in order, each on the store the previous ones left. The node is rewired to their results, then replaced by a fresh constant exactly when it folds. It only rewires inputs and adds constants. A node with nothing left to fold under it is returned untouched. Nothing is left to fold under the result. On a traced store every old node keeps its value and the result has the node's value |
| ConstantFolding.FoldRewired | src/optimizations/constant_folding.py:29-56 | on the rewired node, the result, store and next id are those of `FoldOutcome`. The node becomes a fresh constant holding the fold exactly when all its inputs are constants and the fold succeeds; otherwise it is returned itself |
| ConstantFolding.FoldInputs | src/optimizations/constant_folding.py:26 | the input list comprehension gives exactly what `FoldUpTo` gives: each input's `helper` on the store the previous ones left. Each result has nothing left to fold under it and the input's value. Nodes with nothing left to fold stay untouched |
| ConstantFolding.FoldNext | src/optimizations/constant_folding.py:26 | one turn of the comprehension extends the results by the next input's `helper`, as `FoldUpTo` one input further gives |
| ConstantFolding.FoldUpToStep | src/optimizations/constant_folding.py:26 | folding one more input appends its `helper` result, computed on the store the earlier inputs left |
| ConstantFolding.NormalStays | src/optimizations/constant_folding.py:20-56 | a node with nothing left to fold under it stays so in any later store that leaves such nodes untouched |
| ConstantFolding.ArithFolds | src/optimizations/constant_folding.py:29-50 | in a traced store of constants, additions and multiplications, a rewired node has constant inputs and its fold succeeds |
| ConstantFolding.Optimize | src/optimizations/constant_folding.py:10-58 | the pass returns, leaves and advances exactly what `Folding` gives: `helper` on the root. It keeps the frame of `helper`: only rewiring and new constants, and untouched nodes with nothing to fold. The root is replaced exactly when it folds after rewiring. Nothing is left to fold under the result. A root with nothing to fold comes back with the store unchanged. On a traced store the result evaluates to the root's old value; on a traced store of add/mul nodes it is a constant leaf holding a value |
| ConstantFolding.FoldSpecPair | src/optimizations/constant_folding.py:20-56 | `helper` on a node of two inputs rewires it to its inputs' results, taken in order, and then tries to fold it |
| ConstantFolding.DivKept | src/optimizations/constant_folding.py:51-52 | `div(5, 4)` does not fold, even over two constants: it is returned with the store unchanged |
| ConstantFolding.SumOverDivKept | src/optimizations/constant_folding.py:29-56 | a sum one of whose inputs is not a constant is returned itself |
| ConstantFolding.DivBlocksFold | src/optimizations/constant_folding.py:10-58 | on `add(div(5, 4), 3)` the pass returns the sum itself and leaves the store as it was |
| Cse.Merge | src/optimizations/cse.py:22-33 | `helper(node)` returns the node, store and dictionary `MergeSpec` gives: a leaf as it is; otherwise the inputs merged in order, then on a hit the recorded node, on a miss the node rewired and recorded under its key. It also changes no node's evaluation, returns a node with the same operator, value and evaluation, and only adds to the dictionary |
| Cse.MergeInputs | src/optimizations/cse.py:25 | the input list comprehension gives exactly what `MergeUpTo` gives: each input merged in order on what the previous merges left |
| Cse.MergeNext | src/optimizations/cse.py:25 | one turn of the comprehension extends the merged inputs by the next input's `helper` result |
| Cse.MergeUpToStep | src/optimizations/cse.py:25 | merging one more input appends that input's `helper` result and its store and dictionary |
| Cse.Record | src/optimizations/cse.py:26-33 | the key is the operator, the merged input ids and the value. A key already in the dictionary returns the node recorded under it with the store and dictionary unchanged. A new key rewires the node to the merged inputs, records it and returns it |
| Cse.Optimize | src/optimizations/cse.py:10-35 | the pass returns and leaves exactly what `Eliminated` gives, `helper` on the root with an empty dictionary. It redirects inputs only; every node evaluates as before; the result evaluates like the root; a leaf root is returned with the store unchanged; traced shape is kept |
| Cse.MergePair | src/optimizations/cse.py:22-33 | `helper` on a node of two inputs follows from the results on its inputs: a hit returns the recorded node, a miss rewires and records the node |
| Cse.TwiceSumsMerged | src/optimizations/cse.py:26-33 | of two equal sums `a + b`, the first is recorded and the second returns the first |
| Cse.TwiceMerged | examples/optimization_demo.py:12-16 | on `mul(add(a, b), add(a, b))` the pass returns the product rewired to the first sum twice and changes nothing else |
| Cse.RelinkedTraced | src/optimizations/cse.py:25-29 | redirecting inputs keeps the tracer's node shapes |
| DeadCode.Mark | src/optimizations/dead_code.py:21-26 | `mark(node)` marks the node, adds only nodes it reaches, and every newly marked node has its inputs marked |
| DeadCode.ClosedHoldsReach | src/optimizations/dead_code.py:21-26 | a marked set closed under inputs holds everything the marked node reaches |
| DeadCode.Optimize | src/optimizations/dead_code.py:9-30 | the pass returns the root, and the marked set is exactly what the root reaches |
| Fusion.FusionPairs | src/optimizations/fusion.py:12-17 | the fusable pairs are mul→add, mul→mul, mul→div and add→add |
| Fusion.Chain | src/optimizations/fusion.py:102-111 | the group built at a node ends at that node, and each member is a fusable first input of the next |
| Fusion.BuildGroup | src/optimizations/fusion.py:103-111 | the `while` loop builds `Chain` |
| Fusion.Visit | src/optimizations/fusion.py:92-114 | `visit(node)` marks the node and only what it reaches, and appends the groups of the newly visited nodes |
| Fusion.FindFusionCandidates | src/optimizations/fusion.py:79-117 | each candidate is the chain of two or more ending at a distinct reachable node, and every such chain is listed |
| Fusion.ChainFusable | src/optimizations/fusion.py:19-44 | every candidate group passes `can_fuse` link by link and starts with a fusion-table pair |
| Fusion.Without | src/optimizations/fusion.py:68 | the filter `if inp != ops[0]` removes exactly the occurrences of the first op |
| Fusion.Later | src/optimizations/fusion.py:68 | the later members contribute exactly their inputs other than the first op |
| Fusion.FusedInputs | src/optimizations/fusion.py:68 | the fused inputs start with the first op's inputs, followed by the later members' inputs that are not the first op |
| Fusion.CreateFusedOp | src/optimizations/fusion.py:46-77 | no ops raise IndexError. An unfusable group returns its first op and changes nothing. A fusable group adds one fused node with the tagged operator, fused inputs and metadata |
| Fusion.MappingMisroutes | src/optimizations/fusion.py:138-142 | the as-written map sends an intermediate member to the fused node, which does not compute it |
| Fusion.OutputMappingSends | src/optimizations/fusion.py:138-142 | the corrected map sends each group's last member to that group's fused node |
| Fusion.MappingLatest | src/optimizations/fusion.py:138-142 | the map as written sends each group member to the fused node of the last group holding it |
| Fusion.MappingKeys | src/optimizations/fusion.py:138-142 | the map as written holds exactly the members of the groups |
| Fusion.OutputMappingKeys | src/optimizations/fusion.py:138-142 | the corrected map holds exactly the groups' last members |
| Fusion.Replacements | src/optimizations/fusion.py:138-142 | creates one fused node per group and returns the corrected map over them |
| Fusion.FusedReplacements | src/optimizations/fusion.py:138-142 | every node the corrected map replaces is replaced by a fused node that stands for it |
| Fusion.FuseNext | src/optimizations/fusion.py:139-140 | one turn of the group loop creates the group's fused node and keeps those made before |
| Fusion.FusedMap | src/optimizations/fusion.py:138-142 | the corrected map holds exactly each group's last member, sent to that group's fresh fused node |
| Fusion.OutputMappingFixes | src/optimizations/fusion.py:138-142 | on the counterexample graph the corrected map replaces only the group's output |
| Fusion.ReplaceNode | src/optimizations/fusion.py:145-161 | `replace_node` returns a node realizing `Replaced`: a visited node gives its replacement or itself, a replaced node its replacement; otherwise the inputs are replaced in order, and the node is kept when none changed or copied with its operator and metadata, no value, over the new inputs. The visited set grows as `Replaced` says |
| Fusion.ReplaceInputs | src/optimizations/fusion.py:155 | the comprehension replaces the inputs in order, each call seeing what the earlier ones visited, as `ReplacedUpTo` says |
| Fusion.KeptIff | src/optimizations/fusion.py:156 | the new inputs equal the old ones exactly when every input was kept |
| Fusion.Rebuild | src/optimizations/fusion.py:157-159 | the copy is a fresh node with the original's operator and metadata, the new inputs and no value or gradient; each input gains one reference per occurrence and nothing else changes |
| Fusion.ReplacedLeaf | src/optimizations/fusion.py:145-161 | a leaf neither visited nor replaced is kept |
| Fusion.ReplacedPair | src/optimizations/fusion.py:145-161 | a node of two inputs is kept when both inputs are kept, and is otherwise copied over their replacements |
| Fusion.SampleReplacedAsWritten | src/optimizations/fusion.py:138-161 | with the map as written, the sample root `(x*y + z) * (x*y)` is copied over the fused node twice |
| Fusion.SampleReplacedCorrected | src/optimizations/fusion.py:145-161 | with the corrected map, the sample root is copied over the fused node and `x*y` |
| Fusion.FuseGroups | src/optimizations/fusion.py:137-163 | once groups are found the store changes; the fused nodes stand for their groups; the result realizes `Replaced` on the root with the corrected map |
| Fusion.GroupsFused | src/optimizations/fusion.py:137-163 | rebuilding keeps every fused node standing for its group, and a root ending a chain is replaced by its group's fused node |
| Fusion.Optimize | src/optimizations/fusion.py:119-165 | the store changes exactly when some reachable chain exists, and an unchanged store returns the root. Otherwise the result realizes `Replaced` on the root with the corrected map, and each replaced node maps to the fused node of its chain. A root that ends a chain becomes its fused node |
| Patterns.AnyIs | src/optimizations/patterns.py:24 | `any(i.value == v ...)` holds exactly when some input value is v |
| Patterns.FirstNotOne | src/optimizations/patterns.py:30 | `next(...)` stops at the first input whose value is not 1, and runs dry exactly when all are 1 |
| Patterns.Match | src/optimizations/patterns.py:21-31 | only mul matches. `x * 0` comes first, and a 0 input always gives 0. `x * 1` with no 0 forwards the first non-1 input, and raises StopIteration exactly when every input is 1 |
| Patterns.MatchNode | src/optimizations/patterns.py:21-31 | a forwarded input exists among the node's inputs |
| Patterns.ZeroRefines | src/optimizations/patterns.py:22-26 | the constant 0 is at least as defined as the product it replaces, and equal to it when the inputs evaluate |
| Patterns.ForwardKeeps | src/optimizations/patterns.py:27-31 | the forwarded input evaluates exactly as the product it replaces, errors included |
| Patterns.ZeroBeforeOne | src/optimizations/patterns.py:21-31 | a product of 0 and 1 becomes 0 whatever the order |
| Patterns.OneTimesOneRaises | src/optimizations/patterns.py:30 | `mul(1, 1)` raises StopIteration |
| Patterns.ForwardsFirstNonOne | src/optimizations/patterns.py:30 | an input without a value counts as not 1 and is forwarded |
| Compiler.Simplify | src/core/compiler.py:56-63 | `helper(node)` returns, leaves and advances exactly what `Simplified` gives: the inputs simplified in order, an error ending the loop; the node rewired to their results; then the first matching pattern's replacement or the node itself. It only rewires inputs and adds zero constants; only StopIteration escapes; a leaf is returned untouched; on a store where no node raises, values are kept |
| Compiler.SimplifyInputs | src/core/compiler.py:57 | the input comprehension gives exactly what `SimplifiedUpTo` gives: each input's `helper` on what the previous ones left, up to the first error |
| Compiler.SimplifyNext | src/core/compiler.py:57 | one turn of the comprehension extends the results by the next input's `helper`, or ends with its error |
| Compiler.SimplifiedUpToErr | src/core/compiler.py:57 | once an input raises, the remaining inputs are not simplified and the error is the comprehension's |
| Compiler.SimplifyRewired | src/core/compiler.py:59-63 | on the rewired node, the result, store and next id are those of `Outcome`: the node itself, a fresh zero constant, the forwarded input, or StopIteration |
| Compiler.ZeroFor | src/core/compiler.py:61-62 | `x * 0` creates exactly one fresh constant 0 and returns it |
| Compiler.InPlace | src/core/compiler.py:59-63 | the patterns other than `x * 0` leave the rewired store as it is, and return the node, the forwarded input or StopIteration |
| Compiler.ApplyPatterns | src/core/compiler.py:44-65 | the pass returns and leaves exactly what `Patterned` gives, `helper` on the root. It keeps acyclicity; only StopIteration escapes; a leaf root is unchanged; on a traced store where no node raises every node and the result keep their values |
| Compiler.SimplifiedLeaf | src/core/compiler.py:56-63 | `helper` on a leaf returns it and changes nothing |
| Compiler.SimplifiedPair | src/core/compiler.py:56-63 | `helper` on a node of two inputs rewires it to its inputs' results and tries the patterns on it |
| Compiler.TimesOneProduct | src/optimizations/patterns.py:27-31 | in `mul(x, 1) + y`, the product's `helper` forwards `x` and changes nothing |
| Compiler.TimesOneSimplified | src/core/compiler.py:44-65 | on `mul(x, 1) + y`, `apply_patterns` rewires the sum to `x` and `y` in place and returns it |
| Compiler.LeafNotFused | src/optimizations/fusion.py:119-135 | a node without inputs ends no fusion chain, so fusion returns it unchanged |
| Compiler.RunPass | src/core/compiler.py:18-25 | each pass does what `PassDoes` states for it. Folding is exactly `Folding`; CSE is exactly `Eliminated`; dead code returns the root and changes nothing; fusion meets every guarantee of `Fusion.Optimize` (gathered in `Fusion.Fuses`); the patterns are exactly `Patterned`. Only the pattern pass raises. A constant leaf passes every pass unchanged. Folding a traced add/mul graph gives a constant leaf holding the root's value |
| Compiler.Compiler.constructor | src/core/compiler.py:18-25 | the passes are folding, CSE, dead code, fusion, patterns, in that order |
| Compiler.Compiler.Compile | src/core/compiler.py:27-42 | the ghost trace starts at the input graph, and each stage comes from the one before by the next pass, as `PassDoes` states. The run ends with the last stage after the last pass, or with the error of the first pass that raises. Only a pattern pass raises. With no passes the root is returned. Folding first on a traced add/mul graph returns a constant leaf holding the original root's value |
| Compiler.ChainedStep | src/core/compiler.py:37-42 | a pass that returns extends the chain of stages by the stage it leaves |
| Compiler.PairGraph | tests/test_compiler.py:12-14 | tracing `add(constant(2), constant(3))` gives a traced graph of additions and constants whose root evaluates to 5 |
| Compiler.CompileSum | tests/test_compiler.py:11-18 | compiling `add(constant(2), constant(3))` returns a constant holding 5 |
| Compiler.CompileProduct | examples/basic_usage.py:11-17 | compiling `mul(add(constant(2), constant(3)), constant(4))` returns a constant holding 20 |

## Findings

| source | as written | input that shows it | evidently intended | confidence | as-written member | corrected member |
|---|---|---|---|---|---|---|
| src/optimizations/fusion.py:138-142 | every member of a fusion group is mapped to the fused node, but the fused node computes only the group's last member | `(x*y + z) * (x*y)` with x=2, y=3, z=1. The group `[x*y, x*y+z]` is fused, and the outer product's second input `x*y` is redirected to the fused node. The product then computes 7*7 = 49 instead of 7*6 = 42 | only the group's last member is replaced by the fused node | not executed | Fusion.MappingMisroutes | Fusion.FusedReplacements |

`Fusion.Mapping` models the map as written. `Fusion.MappingMisroutes`
shows, on the sample graph, that this map fails the replacement property, and
`Fusion.SampleReplacedAsWritten` that `replace_node` then rebuilds the root
over the fused node twice; `Fusion.SampleReplacedCorrected` gives the
corrected rebuild.
`Fusion.OutputMapping` is the corrected map; `Fusion.Replacements` and
`Fusion.Optimize` use it. `Fusion.FusedReplacements` proves the property for
the corrected map in general, and `Fusion.OutputMappingFixes` on the sample.

## Left out

- Tensors, torch and the Metal backend are not modelled: only the scalar branches of `evaluate` and `compute_gradients` are.
- Values are Dafny `real`s, not IEEE floats: rounding, infinities and NaN are not modelled.
- The transforms (`grad`, `jit`, `vmap`), visualization, logging and the Metal device probe in fusion are not part of this model.
- The uuid node identity is a counter, and the unused `buffer` field is dropped.
- `grad_fn` entries are tags into a parameter of gradient functions; what such a function computes is given from outside.
- Fused operators have no rule in `evaluate`, so a fused graph cannot be evaluated. Fusion is proved structurally instead: by `Replaced` and `Realizes`, and by the weaker relation `Stands`, under which the result is the original node itself, a fused node for it, or a copy over inputs that stand for its inputs.
- Fusion.Optimize: proved with the corrected output-only replacement map (see Findings), not the map as written.
- Cse.Optimize: re-ranks the graph with a ghost height map; this changes no runtime state.
- DeadCode.Optimize: also returns the marked set, which the source builds but discards, so the marking can be stated.
- No general chain-rule theorem relates `compute_gradients` to derivatives; the per-operator rules and whole-run frame facts are proved instead.
- Compiler.Simplify: value preservation is proved only for traced stores where every node evaluates without error. Elsewhere `x * 0` may turn a raising product into 0; `Patterns.ZeroRefines` states that node-level refinement.
- Compiler.ApplyPatterns: value preservation, as for `Compiler.Simplify`, is proved only for traced stores where every node evaluates without error. The hypothesis covers the whole store: a div by zero or a fused node anywhere in the arena, even one the root does not reach, leaves the value claims unstated. Fusion leaves fused nodes in the store before the pattern pass.
- ConstantFolding.Optimize: the fold-to-a-constant claim assumes the whole store is constants, additions and multiplications, not only the nodes the root reaches; which nodes fold is stated on every store.
- ConstantFolding.Optimize: folding to a single constant is proved only for stores made of constants, additions and multiplications; evaluation preservation holds for any traced store.
- Compiler.Compiler.Compile: the folding-to-a-constant result is stated only when folding is the first pass, as in the default pass list.
- Compiler.RunPass: for fusion and the patterns, `PassDoes` does not state the next fresh id, and fusion's map from chain ends to fused nodes is only said to exist.
- The `Pattern` class of patterns.py is folded into `Patterns.Match`, which applies the two patterns in their list order.
