# Verified core of intel_extension_for_pytorch

A Dafny model of the parts of the extension's Python layer that carry real algorithms, and proofs about them.
Floating-point numbers are reals, tensors are sequences of rows, collectives are exact sums and concatenations, and
`torch.round` rounds halves to even (section 4.3.1 of IEEE 754-2008). `dafny verify dfyconfig.toml` verifies everything.

| file | what it models |
|---|---|
| `TraceIds.dfy`, `OpSequence.dfy` | how a prepared model numbers tensors in its first call, and checks later calls against the recorded ops |
| `QuantGraph.dfy`, `Dataflow.dfy`, `FusionPatterns.dfy`, `FusionMeaning.dfy` | the node graph rebuilt from these ids, tensors seen through Identity nodes, the fusion walks, and what they mean on the graph |
| `ConsumerCheck.dfy`, `Recipe.dfy` | the check of an op's consumers, and the default recipe that decides where fake quant goes |
| `RecipeCounterexamples.dfy` | four first calls, as the tracer records them, that show where the recipe's guarantees end |
| `PoolSync.dfy` | the pass that gives a tree of pooling ops one scale |
| `SmoothQuant.dfy`, `SmoothWiring.dfy` | SmoothQuant observers that share per-channel observers by reference |
| `Rounding.dfy`, `Nibbles.dfy`, `Nf4.dfy`, `WeightCodec.dfy`, `BlockCodec.dfy` | weight-only quantisation to INT8, INT4 and NF4, per channel and per block |
| `LinearAlgebra.dfy`, `Multiples.dfy`, `Sharding.dfy`, `TensorParallel.dfy`, `ShardedAttention.dfy`, `SharedQk.dfy` | tensor-parallel sharding of linears, MLPs, LM heads and attention |
| `Fx.dfy`, `ConcatModules.dfy`, `ConcatRewrite.dfy`, `ConcatLinear.dfy` | fx graphs with an evaluator, and the edit that `concat_linear` makes for one group of linears |
| `ConcatGroups.dfy`, `ConcatOrder.dfy`, `ConcatSteps.dfy`, `ConcatPass.dfy` | the whole pass: its groups, what every round keeps, and the loop over all rounds |
| `ConcatSharing.dfy`, `ConcatFirstUse.dfy`, `ConcatExample.dfy` | what becomes of other uses of a replaced module, over the whole pass, in one edit, and on a graph |
| `GraphCapture.dfy` | double-checked locking around graph capture, as interleaved thread steps |
| `BlockedWeight.dfy` | blocking and unblocking of weights as reshape and permute |
| `Lamb.dfy` | the LAMB optimizer |

## What turned out false, and when it holds

- *Exactly one fake quant per conv/gemm input.* It holds for every recorded argument, because the int8-only ops return
  one float tensor per activation (`AlwaysExactlyOnce`; `ExactlyOnce` needs this of the argument's own producer only).
  If a module is activated several times, its ops keep the record of the first activation: another argument is
  fake-quantised exactly once if and only if it and the recorded one agree about coming from an op that quantises its
  own output (`RecipeGuarantee`). `SecondActivationLosesQuant` is a first call after which they do not.
- *All consumers are checked.* The check returns at the first Identity it meets. It can be trusted exactly if it looks
  at every consumer downstream, or can never succeed (`TrustworthyExactly`). `EarlyReturn` is a family of graphs on
  which it cannot, and `EarlyReturnMissesConsumer` a first call that leaves such a graph.
- *The recipe always finishes.* A fusion walk raises when it asks for a conv/gemm, sigmoid and multiplication in the
  mirrored operand order. If ops have the tensor arguments that the recipe indexes, it fails exactly if one of its walks
  meets such a multiplication (`SucceedsExactly`, `ResetsRaise`); `MirrorRaises` is a first call on which it does.
- *The other operand of a fused addition keeps its fake quant only behind a quantisable op.* The op asked about an operand
  is its own producer unless the operand is the second one and its producer is listed first (`AsksOwnProducer`,
  `AskedIsOperand`): then the other producer is asked. `EarlierOperandKept` is a family of graphs on which an unquantised
  op's result therefore keeps its fake quant, and `AskedKeepsQuant` a first call that leaves such a graph.
- *An element-wise op behind a fused in-place addition counts as quantisable.* The walk finds the addition but then asks
  about the element-wise op itself, so right behind an in-place addition it never does (`InplaceAddForgotten`).
- *The pooling sync always finishes.* It succeeds exactly if the root of every tree with a starting pool has a scale for
  its first argument and every op of the tree has an output (`Sync`).
- *Every group can be concatenated.* `concat_linear` raises when a group has no partner for its first linear, or when a
  bias is compared with a missing one. `ConcatLinearPass` returns `ok` exactly when no group does so.
- *`concat_linear` keeps all values.* It does, under every meaning of the rest of the graph, if no other node calls the
  first module of a rewritten group or reads one of its parameters; calls on the group's own input and linears that an
  earlier group merges are harmless (`Unshared`). Any other use never gets its value back, whatever later rounds do, if
  this value can be seen: a call with at least one row, or a parameter that exists. So where linears have outputs and
  these values can be seen, the pass keeps all values if and only if no module is shared (`ConcatLinearPass`). In one
  edit the first other use changes exactly if its arguments tell the two modules apart (`FirstUseChangesExactly`).
  `RewriteShared` runs the pass on a graph where it changes a call and a `get_attr` node.
- *Per-block dequantisation of 4-bit codes.* The zero that pads an odd width starts a block of its own if the block size
  divides the width, and then has no scale. `DequantizeBlocksExactly` states exactly when the code raises, and
  `OneBlockBack` when one block therefore differs from the per-channel form.
- *The same codes after a second quantisation.* With symmetric quantisation and given zero points, quantisation and
  dequantisation use different offsets. `RecodeExactly` and `BlockRecodeExactly` state exactly when they agree.
  Per-channel INT8 quantisation also uses such zero points, which the per-block one ignores (`OneBlockGiven`).
- *Shared query/key sharding.* With an odd number of heads per rank on several ranks two ranks hold the same head
  (`OddOverlaps`); with an even number the ids are a permutation (`EvenIsPermutation`). Sharding an output projection
  that has a bias raises, because a plain tensor is assigned to a registered parameter (`OutProjectionReduce`).
- *Heads are covered.* With `num_heads // num_kv_heads` query heads per key/value head, the ranks cover all heads
  exactly if the division is exact (`HeadsCovered`).
- *SmoothQuant leaves outputs unchanged.* It does for all activations exactly if activation and weight are both
  quantised, or neither, or if every channel has a zero weight or the factor one (`ConvertLinear`, `KeptExactly`). Only
  the weight is quantised, for instance, if the activation's producer quantises it. An op that is no linear but shares
  a linear's activation has its input scaled too, or raises. Whichever of its arguments this activation is, the first
  one is scaled, with quantisation parameters for one argument only: an op with several arguments raises if the last
  observed one is a linear's activation and the first one is to be quantised (`ConvertInput`).
- *A second identical call is accepted.* It is exactly if every activation of a module runs ops interchangeable with
  those of its first activation, so always if no module is activated twice (`CallTwice`).

Where the code and its comments disagree the model follows the code: the error built for more ranks than key/value heads
is never raised, and `validate_cur_op` raises for an unknown index with a different error than the one it catches.

## Model

| member | source | states |
|---|---|---|
| `TraceIds.Tracer.constructor` | intel_extension_for_pytorch/quantization/_quantization_state.py:54-88 | a fresh tracer has no ids and a trivially traced graph |
| `TraceIds.Tracer.Identify` | intel_extension_for_pytorch/quantization/_quantization_state.py:829-859 | a tensor keeps its id or gets the next unused one; a non-tensor gets none; the graph stays traced |
| `TraceIds.Tracer.IdentifyAll` | intel_extension_for_pytorch/quantization/_quantization_state.py:861-890 | every argument gets its own or the next unused id, in order; all earlier ids stay |
| `TraceIds.Tracer.BeforeOp` | intel_extension_for_pytorch/quantization/_quantization_state.py:892-938 | the recorded op has exactly the ids of its arguments as inputs; an op of a later activation is not recorded again |
| `TraceIds.Tracer.RecordOutput` | intel_extension_for_pytorch/quantization/_quantization_state.py:956-968 | an output gets the next id, larger than all inputs, also when an in-place op returns its input |
| `TraceIds.Tracer.AfterOp` | intel_extension_for_pytorch/quantization/_quantization_state.py:970-975 | all tensors of the result get the next ids in order, each with its position in this activation, behind those of earlier activations |
| `TraceIds.RelabelledFresh` | intel_extension_for_pytorch/quantization/_quantization_state.py:956-975 | after an op every tensor it returned carries an id that no tensor had before, also one it was given |
| `TraceIds.Tracer.MarkComplete` | intel_extension_for_pytorch/quantization/_quantization_state.py:178-185 | the counter advances by one and the trace is unchanged |
| `TraceIds.Tracer.ResetToNewCall` | intel_extension_for_pytorch/quantization/_quantization_state.py:153-159 | the counter restarts and the trace is unchanged |
| `TraceIds.OutputTraced` | intel_extension_for_pytorch/quantization/_quantization_state.py:956-975 | adding a fresh output id to any op of any module keeps the whole graph traced |
| `OpSequence.Interception.FirstRun` | intel_extension_for_pytorch/quantization/_quantize_utils.py:279-423 | the first call records exactly what `Recording` says, and counters of active modules are not disturbed by child calls |
| `OpSequence.Interception.FirstModule` | intel_extension_for_pytorch/quantization/_quantization_state.py:103-110 | a first activation is accepted iff its counter ends at the last recorded index |
| `OpSequence.Interception.Replay` | intel_extension_for_pytorch/quantization/_quantize_utils.py:279-423 | a later call is accepted iff every event matches the records; the caller's counter moves by its own ops only |
| `OpSequence.Interception.ReplayEvent` | intel_extension_for_pytorch/quantization/_quantization_state.py:164-185 | an op is accepted iff the record at the current index is related to it |
| `OpSequence.Interception.ReplayModule` | intel_extension_for_pytorch/quantization/_quantization_state.py:103-110 | an activation finishes without error iff it and all activations below it ran exactly their recorded ops |
| `OpSequence.Interception.CallTwice` | intel_extension_for_pytorch/quantization/_quantize_utils.py:279-423 | two identical calls are accepted iff every activation of a module runs ops interchangeable with those of its first one; always if no module is activated twice |
| `OpSequence.RelatedExactly` | intel_extension_for_pytorch/quantization/_quantization_state_utils.py:150-164 | comparing with a record is comparing the types of modules and the names of functions, up to two spellings of an op; an op always matches its own record, and the order of two modules or two functions does not matter |
| `OpSequence.AcceptedExactly` | intel_extension_for_pytorch/quantization/_quantization_state.py:164-176 | after any successful first call, an identical one is accepted iff all activations conform to the first ones |
| `OpSequence.RecordsFirsts` | intel_extension_for_pytorch/quantization/_quantization_state.py:900-938 | if all activations conform, the first call succeeds and records exactly every module's first activation |
| `OpSequence.RecordsStay` | intel_extension_for_pytorch/quantization/_quantization_state.py:900-938 | recorded ops are never replaced by later activations |
| `OpSequence.RunMatchesMeaning` | intel_extension_for_pytorch/quantization/_quantization_state.py:164-185 | checking op by op with interleaved counters equals comparing whole op sequences, at every nesting depth |
| `OpSequence.RecordingContiguous` | intel_extension_for_pytorch/quantization/_quantization_state.py:900-938 | recorded indices are exactly 0..n-1 in every module |
| `OpSequence.RecordingOwn` | intel_extension_for_pytorch/quantization/_quantization_state.py:900-938 | a module's record is made of its own ops, whatever its children did |
| `OpSequence.RecordingFrame` | intel_extension_for_pytorch/quantization/_quantization_state.py:900-938 | modules that are not called keep their records |
| `QuantGraph.MatchNodes` | intel_extension_for_pytorch/quantization/_utils.py:393-407 | the nested loops find exactly the nodes that feed and are fed |
| `QuantGraph.ConnectNodes` | intel_extension_for_pytorch/quantization/_utils.py:346-407 | `pre_nodes` and `post_nodes` of every node are exactly its producers and consumers |
| `QuantGraph.FeedsDeeper` | intel_extension_for_pytorch/quantization/_utils.py:393-407 | every edge of a traced graph goes strictly deeper, so all walks over it end |
| `QuantGraph.Pre` | intel_extension_for_pytorch/quantization/_utils.py:393-407 | producers, each of smaller depth |
| `QuantGraph.Post` | intel_extension_for_pytorch/quantization/_utils.py:393-407 | consumers, each of larger depth |
| `Dataflow.DownstreamByPost` | intel_extension_for_pytorch/quantization/_utils.py:517-528 | the recursive walk below a node meets exactly the tensors downstream of it |
| `Dataflow.DownstreamIsRoot` | intel_extension_for_pytorch/quantization/_utils.py:517-528 | a tensor is downstream of an op iff the tensor it carries, seen through Identity nodes, is one of its outputs |
| `FusionPatterns.FindSwish` | intel_extension_for_pytorch/quantization/_recipe.py:250-289 | finds a conv or gemm iff it completes a swish in this operand order, and raises iff the order is mirrored |
| `FusionPatterns.FusedAt` | intel_extension_for_pytorch/quantization/_recipe.py:179-192 | where the element-wise walk ends: what it finds and when it raises, exactly |
| `FusionPatterns.FindFusedEltwise` | intel_extension_for_pytorch/quantization/_recipe.py:174-202 | the walk answers what its last op answers, however long it is |
| `FusionPatterns.FusedAddExactly` | intel_extension_for_pytorch/quantization/_recipe.py:205-247 | finds the first of two producers that leads through Identity nodes to a given op; an Identity listed first decides alone |
| `FusionPatterns.QuantizableBefore` | intel_extension_for_pytorch/quantization/_recipe.py:292-366 | the answer of the op behind the Identity nodes |
| `FusionPatterns.QuantizableHere` | intel_extension_for_pytorch/quantization/_recipe.py:305-366 | raises iff this unquantised op is a mirrored swish, or an element-wise op whose walk ends at one |
| `FusionPatterns.ResetsRaise` | intel_extension_for_pytorch/quantization/_recipe.py:384-612 | for an op whose arguments are tensors, the optimisation step raises iff one of its walks meets a mirrored swish |
| `FusionMeaning.FusedMeans` | intel_extension_for_pytorch/quantization/_recipe.py:174-202 | unless it raises, the element-wise walk finds exactly the op that a chain of element-wise ops and Identity nodes fuses with |
| `FusionMeaning.HereMeans` | intel_extension_for_pytorch/quantization/_recipe.py:305-366 | unless it raises, an op is quantisable iff it has a qconfig or completes a fusion with a quantised partner |
| `FusionMeaning.BeforeMeans` | intel_extension_for_pytorch/quantization/_recipe.py:292-304 | the same through Identity nodes |
| `FusionMeaning.ReluResets` | intel_extension_for_pytorch/quantization/_recipe.py:559-583 | a relu loses its fake quant iff it has no producer, fuses with one, or no quantisable op stands before it |
| `FusionMeaning.PoolOrFlattenResets` | intel_extension_for_pytorch/quantization/_recipe.py:584-612 | a pooling or flatten op loses it iff no quantisable op stands before it, or a flatten method feeds something else than quantisable ops |
| `FusionMeaning.AddResetsMeans` | intel_extension_for_pytorch/quantization/_recipe.py:384-512 | which operands of an addition lose it: the fused one, the other one depending on what fuses, what follows and what is asked about it; without a fusion all, unless both producers are quantisable and not both additions |
| `FusionMeaning.ResetsExactly` | intel_extension_for_pytorch/quantization/_recipe.py:550-612 | all of this together: exactly the arguments that `Loses` names, a relation on the graph |
| `FusionMeaning.AsksOwnProducer` | intel_extension_for_pytorch/quantization/_recipe.py:403-417 | the op asked about an operand computes it unless it is the second operand and its producer is listed first |
| `FusionMeaning.AskedIsOperand` | intel_extension_for_pytorch/quantization/_recipe.py:403-427 | otherwise the answer is whether a quantisable op stands before the operand |
| `FusionMeaning.EarlierOperandKept` | intel_extension_for_pytorch/quantization/_recipe.py:403-427 | a family of graphs on which an unquantised op's result keeps its fake quant |
| `FusionMeaning.InplaceAddForgotten` | intel_extension_for_pytorch/quantization/_recipe.py:312-331 | an element-wise op behind an in-place addition never counts as quantisable |
| `FusionPatterns.WalksExactly` | intel_extension_for_pytorch/quantization/_recipe.py:550-612 | the same for all ops together; without a mirrored swish nothing raises |
| `FusionPatterns.TwoProducers` | intel_extension_for_pytorch/quantization/_recipe.py:403-417 | if both operands have producers, the lookup by operand index is in range |
| `ConsumerCheck.PassesExactly` | intel_extension_for_pytorch/quantization/_utils.py:462-505 | the check succeeds iff it can, and all arguments of the quantisable consumers it looks at are quantised |
| `ConsumerCheck.InspectedIsQuantized` | intel_extension_for_pytorch/quantization/_utils.py:462-505 | a successful check is right about every consumer it looked at |
| `ConsumerCheck.TrustworthyExactly` | intel_extension_for_pytorch/quantization/_utils.py:462-505 | the check is right about all consumers for every recipe state iff it looks at every consumer downstream, or can never succeed |
| `Recipe.ObserveNode` | intel_extension_for_pytorch/quantization/_quantization_state.py:977-1018 | the observed ids of a node |
| `Recipe.ObservesExactly` | intel_extension_for_pytorch/quantization/_quantization_state.py:977-1018 | a module observes its input, a functional conv or linear its input and weight, any other op all tensors |
| `Recipe.ObservesOutputExactly` | intel_extension_for_pytorch/quantization/_quantization_state.py:1118-1120 | the output is observed for pools, relus and flattens with a quantization configuration, and for no other op |
| `Recipe.Calibrate` | intel_extension_for_pytorch/quantization/_quantization_state.py:1134-1137 | the scale tables hold exactly the observed ids of their module |
| `Recipe.RecipeState.Init` | intel_extension_for_pytorch/quantization/_recipe.py:99-171 | every argument's planned dtype, whatever other nodes wrote to the shared infos |
| `Recipe.RecipeState.InitNode` | intel_extension_for_pytorch/quantization/_recipe.py:106-123 | the same for one node, all other nodes' lists untouched |
| `Recipe.RecipeState.Optimize` | intel_extension_for_pytorch/quantization/_recipe.py:550-614 | finishes iff no fusion walk raises; then exactly the arguments that keep their fake quant by `Loses` have the dtype the op wants, all others their original one |
| `Recipe.OptimizedExactly` | intel_extension_for_pytorch/quantization/_recipe.py:522-612 | the plan after both steps in terms of the graph: observed float32 arguments of quantisable ops that `Loses` does not name |
| `Recipe.RecipeState.ResetPost` | intel_extension_for_pytorch/quantization/_utils.py:517-536 | exactly the arguments downstream of a node, through Identity nodes, stop quantising |
| `Recipe.RecipeState.SetNodeOutputQuantized` | intel_extension_for_pytorch/quantization/_utils.py:508-582 | finishes iff every int8-only op has an argument, and a result if it fires; exactly the ops of `Firing` quantise their first results, exactly their consumers fall back, and int8-only ops are closed |
| `Recipe.RecipeState.SettleNode` | intel_extension_for_pytorch/quantization/_utils.py:530-582 | one op: it fires iff its input is quantised and the check of its consumers fails |
| `Recipe.RecipeState.Fire` | intel_extension_for_pytorch/quantization/_utils.py:573-582 | an op that quantises its own output makes all consumers stop, and every guarantee reached so far survives |
| `Recipe.FiresExactly` | intel_extension_for_pytorch/quantization/_utils.py:534-582 | an op quantises its own output iff it cannot leave int8, its input is quantised when its turn comes, and some consumer that the check looks at does not quantise, or the check cannot succeed |
| `Recipe.FiresOnlyIfPlanned` | intel_extension_for_pytorch/quantization/_utils.py:573-577 | only an op whose input was planned to be quantised fires |
| `Recipe.RecipeState.GetDefaultRecipe` | intel_extension_for_pytorch/quantization/_recipe.py:515-614 | finishes iff `Succeeds`, and establishes `RecipeGuarantee` |
| `Recipe.SucceedsExactly` | intel_extension_for_pytorch/quantization/_recipe.py:515-614 | if ops have the arguments and results that are indexed, the recipe finishes iff no walk is blocked, for instance without a mirrored swish |
| `Recipe.RecipeState.ArgQuantInfos` | intel_extension_for_pytorch/quantization/_quantization_state_utils.py:479-528 | an argument is quantised iff it has a scale, is float32 and its own force dtype is quantised |
| `Recipe.ArgDtype` | intel_extension_for_pytorch/quantization/_quantization_state_utils.py:495-521 | the per-consumer dtype wins over the shared one |
| `Recipe.ReceivedFromRoot` | intel_extension_for_pytorch/quantization/_quantization_state.py:634-704 | a tensor carries one fake quant iff it is, seen through Identity nodes, the first result of some activation of an op that quantises its own output |
| `Recipe.ArgumentQuantizedOnce` | intel_extension_for_pytorch/quantization/_quantization_state_utils.py:495-521 | what an op computes with in any activation is fake-quantised once iff the tensor and the recorded argument agree about coming from such an op |
| `Recipe.EdgeQuantizedOnce` | intel_extension_for_pytorch/quantization/_utils.py:508-582 | no recorded argument is fake-quantised twice; a planned one is exactly once iff it is no later result of such an op |
| `Recipe.RecipeHolds` | intel_extension_for_pytorch/quantization/_recipe.py:515-614 | the marks of a finished recipe have all guarantees: which ops fire, exactly which arguments are quantised by their consumers and with which dtype, once per recorded and per later argument, int8-only ops closed |
| `Recipe.ExactlyOnce` | intel_extension_for_pytorch/quantization/_recipe.py:515-614 | an observed float32 conv/gemm input whose producer returned it first is fake-quantised exactly once, whatever the rest of the graph does |
| `Recipe.AlwaysExactlyOnce` | intel_extension_for_pytorch/quantization/_recipe.py:515-614 | with the results PyTorch ops have, every observed float32 conv/gemm input is fake-quantised exactly once |
| `Recipe.SettleOneMore` | intel_extension_for_pytorch/quantization/_utils.py:517-528 | one more op that fires changes the plan exactly for the arguments that carry its outputs |
| `Recipe.FireKeepsProgress` | intel_extension_for_pytorch/quantization/_utils.py:551-582 | the invariant that every round of the last pass keeps |
| `RecipeCounterexamples.TraceEarly` | intel_extension_for_pytorch/quantization/_quantization_state.py:861-975 | a first call that leaves the graph of `EarlyReturnMissesConsumer` |
| `RecipeCounterexamples.EarlyReturn` | intel_extension_for_pytorch/quantization/_utils.py:462-505 | a family of graphs on which the check accepts too early |
| `RecipeCounterexamples.EarlyReturnMissesConsumer` | intel_extension_for_pytorch/quantization/_utils.py:462-505 | a graph of this family |
| `RecipeCounterexamples.TraceAgain` | intel_extension_for_pytorch/quantization/_quantization_state.py:900-975 | a first call that activates a submodule twice and leaves the graph of `SecondActivationLosesQuant` |
| `RecipeCounterexamples.SecondActivationLosesQuant` | intel_extension_for_pytorch/quantization/_quantization_state_utils.py:495-521 | on this graph a conv misses a fake quant in its second activation |
| `RecipeCounterexamples.TraceMirror` | intel_extension_for_pytorch/quantization/_quantization_state.py:861-975 | a first call that leaves the graph of `MirrorRaises` |
| `RecipeCounterexamples.MirrorRaises` | intel_extension_for_pytorch/quantization/_recipe.py:279-288 | on this graph the recipe raises |
| `RecipeCounterexamples.TraceAsked` | intel_extension_for_pytorch/quantization/_quantization_state.py:861-975 | a first call that leaves the graph of `AskedKeepsQuant` |
| `RecipeCounterexamples.AskedKeepsQuant` | intel_extension_for_pytorch/quantization/_recipe.py:403-427 | on this graph an addition's operand keeps its fake quant although no quantisable op stands before it |
| `PoolSync.TreeOps` | intel_extension_for_pytorch/quantization/_utils.py:410-437 | a tree grows through pools and flattens and through no other op, so Identity nodes end it |
| `PoolSync.FindTreeRoot` | intel_extension_for_pytorch/quantization/_utils.py:433-451 | the upward walk ends at the root of the tree |
| `PoolSync.CollectBelow` | intel_extension_for_pytorch/quantization/_utils.py:433-437 | the downward walk succeeds iff every op below has an output, and collects exactly their first outputs |
| `PoolSync.TreeOutputs` | intel_extension_for_pytorch/quantization/_utils.py:433-451 | root and walk together reach exactly the outputs of the tree |
| `PoolSync.ScaleSync.Sync` | intel_extension_for_pytorch/quantization/_utils.py:439-459 | succeeds iff everything that a starting pool reads is there; then every stored scale of a started tree is the scale of the root's input, all others are unchanged |
| `PoolSync.PoolStarts` | intel_extension_for_pytorch/quantization/_utils.py:442-444 | in calibrated tables exactly the quantisable pools start their trees: the comparison of the scales never skips one |
| `PoolSync.RootHasScale` | intel_extension_for_pytorch/quantization/_utils.py:453-455 | in calibrated tables a root's scale can be read iff the root is quantisable and its first argument is a tensor |
| `PoolSync.PoolTreesSynced` | intel_extension_for_pytorch/quantization/_utils.py:439-459 | so in every tree with a quantisable pool the root's first input has a scale, and each stored output scale is that one |
| `PoolSync.ScaleSync.WriteScale` | intel_extension_for_pytorch/quantization/_utils.py:428-431 | exactly the stored scales of the given ids are overwritten |
| `PoolSync.SyncStep` | intel_extension_for_pytorch/quantization/_utils.py:453-459 | one more visited pool keeps this, in whatever order the nodes come |
| `SmoothQuant.FactorsCancel` | intel_extension_for_pytorch/quantization/_smooth_quant.py:106-115 | the two sides' factors of a channel multiply to one |
| `SmoothQuant.MagnitudeIsLargest` | intel_extension_for_pytorch/quantization/_smooth_quant.py:106-112 | the magnitude of a channel is that of its largest value plus 1e-6 |
| `SmoothQuant.MagnitudesShared` | intel_extension_for_pytorch/quantization/_smooth_quant.py:113-115 | where exponents add up, the scaled magnitudes are x^(1-alpha) w^(1-alpha) and x^alpha w^alpha, equal for alpha one half |
| `SmoothQuant.DotCancel` | intel_extension_for_pytorch/quantization/_quantization_state.py:391-425 | cancelling factors leave every output of a linear unchanged |
| `SmoothQuant.KeptExactly` | intel_extension_for_pytorch/quantization/_quantization_state.py:391-476 | all four cases of quantised activation and weight: the output is kept for all activations iff both or neither are quantised, or every channel has a zero weight or the factor one |
| `SmoothWiring.QuantState.InsertInput` | intel_extension_for_pytorch/quantization/_quantization_state.py:996-1018 | an activation gets one observer, whoever reads it |
| `SmoothWiring.QuantState.Wire` | intel_extension_for_pytorch/quantization/_quantization_state.py:1091-1111 | the entry a linear adds, or the observer it takes over |
| `SmoothWiring.QuantState.InsertLinear` | intel_extension_for_pytorch/quantization/_quantization_state.py:1069-1111 | after any sequence of linears, shared or not, every linear and its activation point at each other's per-channel observers |
| `SmoothWiring.QuantState.Observe` | intel_extension_for_pytorch/quantization/_smooth_quant.py:87-93 | observing keeps the wiring and widens one observer to the extremes of both, for everyone who shares it |
| `SmoothWiring.CalculateAct` | intel_extension_for_pytorch/quantization/_smooth_quant.py:96-129 | one factor per known weight observer, from that observer and the activation's own |
| `SmoothWiring.CalculateWeights` | intel_extension_for_pytorch/quantization/_smooth_quant.py:232-249 | every weight's factor, from its own and its activation's observer |
| `SmoothWiring.QuantState.Attach` | intel_extension_for_pytorch/quantization/_utils.py:203-232 | whatever factor a linear selects cancels its own weight factor |
| `SmoothWiring.WiredBalanced` | intel_extension_for_pytorch/quantization/_quantization_state.py:1069-1111 | the wiring alone implies this |
| `SmoothWiring.OneMoreWired` | intel_extension_for_pytorch/quantization/_quantization_state.py:1092-1111 | one more linear keeps all earlier ones wired |
| `SmoothWiring.QuantState.MapFactors` | intel_extension_for_pytorch/quantization/_utils.py:1376-1388 | an op gets the factors of its last observed argument, none if that one is no linear's activation |
| `SmoothWiring.QuantState.ConvertInput` | intel_extension_for_pytorch/quantization/_quantization_state.py:391-425 | the factors are those of the last observed argument, the first argument is scaled; raises iff the factor is missing or does not fit, or there are several arguments |
| `SmoothWiring.QuantState.ConvertLinear` | intel_extension_for_pytorch/quantization/_quantization_state.py:374-476 | nothing raises, and each side is scaled iff it is quantised, by factors that cancel |
| `Rounding.RoundExactly` | intel_extension_for_pytorch/quantization/_quantize_utils.py:913-931 | the nearest integer, or the even one of two |
| `Rounding.RoundMonotone` | intel_extension_for_pytorch/quantization/_quantize_utils.py:913-931 | rounding to even is monotone |
| `Nibbles.BitsAreArithmetic` | intel_extension_for_pytorch/quantization/_quantize_utils.py:934-937 | the shifts and masks are the arithmetic of the model, on all bytes |
| `Nibbles.Unpack` | intel_extension_for_pytorch/quantization/_quantize_utils.py:974-978 | two interleaved passes fill the buffer with the unpacked codes |
| `Nibbles.UnpackPacked` | intel_extension_for_pytorch/quantization/_quantize_utils.py:934-937 | unpacking gives back the codes and the appended zero |
| `Nibbles.PackUnpacked` | intel_extension_for_pytorch/quantization/_quantize_utils.py:974-978 | packing what was unpacked gives back the bytes |
| `Nf4.MapToNf4` | intel_extension_for_pytorch/quantization/_quantize_utils.py:831-838 | the overwriting loop gives every element above the lowest threshold its code |
| `Nf4.MapFromNf4` | intel_extension_for_pytorch/quantization/_quantize_utils.py:841-846 | the overwriting loop gives every code its level |
| `Nf4.NearestIsLargest` | intel_extension_for_pytorch/quantization/_quantize_utils.py:791-838 | the code is the largest index whose threshold is below the value |
| `Nf4.NearestMonotone` | intel_extension_for_pytorch/quantization/_quantize_utils.py:831-838 | codes are monotone in the value |
| `Nf4.NearestError` | intel_extension_for_pytorch/quantization/_quantize_utils.py:791-828 | on [-1, 1] the level is within 0.152 of the value |
| `Nf4.NearestLevel` | intel_extension_for_pytorch/quantization/_quantize_utils.py:791-828 | no other level is nearer to a value than that of its code, up to 1e-15 |
| `Nf4.LevelNearest` | intel_extension_for_pytorch/quantization/_quantize_utils.py:791-828 | every level has its own code |
| `WeightCodec.ComputedSpans` | intel_extension_for_pytorch/quantization/_quantize_utils.py:883-911 | computed scales span the row, with the zero point of its lower end |
| `WeightCodec.EndsAttained` | intel_extension_for_pytorch/quantization/_quantize_utils.py:886-889 | the ends of a row are zero or elements of it |
| `WeightCodec.ScaleIsLeast` | intel_extension_for_pytorch/quantization/_quantize_utils.py:890-911 | the computed scale is the least one that covers the row, and exact unless it is the float32 epsilon |
| `WeightCodec.LargestFillsSpan` | intel_extension_for_pytorch/quantization/_quantize_utils.py:913-931 | symmetric: the elements with the largest magnitude have the extreme codes |
| `WeightCodec.EndsFillRange` | intel_extension_for_pytorch/quantization/_quantize_utils.py:913-931 | asymmetric: the lower end has the lowest code, the upper end the highest or the one below |
| `WeightCodec.ClampOnHalves` | intel_extension_for_pytorch/quantization/_quantize_utils.py:893-931 | the unclamped code exceeds the range only by one, only above, and only if both roundings were exact halves |
| `WeightCodec.RoundTripError` | intel_extension_for_pytorch/quantization/_quantize_utils.py:883-986 | INT8 and INT4, symmetric and asymmetric: every element comes back to within half a scale, clamping included |
| `WeightCodec.ZeroExact` | intel_extension_for_pytorch/quantization/_quantize_utils.py:883-986 | zero comes back exactly |
| `WeightCodec.Nf4Normalised` | intel_extension_for_pytorch/quantization/_quantize_utils.py:908-911 | NF4 quotients lie in [-1, 1] |
| `WeightCodec.Nf4Error` | intel_extension_for_pytorch/quantization/_quantize_utils.py:932-997 | NF4 elements come back to within 0.152 scales |
| `WeightCodec.Recode` | intel_extension_for_pytorch/quantization/_quantize_utils.py:913-997 | a code's value has that code |
| `WeightCodec.RecodeExactly` | intel_extension_for_pytorch/quantization/_quantize_utils.py:913-997 | all codes survive a second quantisation iff the offsets agree |
| `WeightCodec.LoadStored` | intel_extension_for_pytorch/quantization/_quantize_utils.py:934-938 | what is stored is read back, with the padding of odd widths |
| `WeightCodec.DequantizeElements` | intel_extension_for_pytorch/quantization/_quantize_utils.py:941-997 | at every width, each element comes back as the value of its own code |
| `WeightCodec.Requantize` | intel_extension_for_pytorch/quantization/_quantize_utils.py:913-997 | requantising a dequantised row gives the identical bytes for INT8, INT4 and NF4, odd widths included |
| `BlockCodec.BlockCodesRefine` | intel_extension_for_pytorch/quantization/_quantize_utils.py:1103-1172 | complete blocks plus remainder compute "element j uses the parameters of block j / group" |
| `BlockCodec.BlockParamsAt` | intel_extension_for_pytorch/quantization/_quantize_utils.py:1044-1101 | each block's parameters are those of its own elements |
| `BlockCodec.BlockValuesRefine` | intel_extension_for_pytorch/quantization/_quantize_utils.py:1221-1260 | with one column per block dequantisation never raises and computes the simple form |
| `BlockCodec.DequantizeBlocksExactly` | intel_extension_for_pytorch/quantization/_quantize_utils.py:1199-1260 | dequantising a stored row gives the simple form iff the padding fits, and raises otherwise |
| `BlockCodec.BlockRoundTrip` | intel_extension_for_pytorch/quantization/_quantize_utils.py:1035-1260 | the whole round trip per block: when it works, and what each element becomes |
| `BlockCodec.AllElementsNear` | intel_extension_for_pytorch/quantization/_quantize_utils.py:1044-1142 | that value is near the element, measured by its own block's scale |
| `BlockCodec.OneBlock` | intel_extension_for_pytorch/quantization/_quantize_utils.py:1035-1172 | a block at least as wide as the row: parameters and codes are those of the per-channel form |
| `BlockCodec.OneBlockBack` | intel_extension_for_pytorch/quantization/_quantize_utils.py:1199-1260 | dequantisation is that of the per-channel form too, unless an odd 4-bit row fills its block; then it raises |
| `BlockCodec.OneBlockGiven` | intel_extension_for_pytorch/quantization/_quantize_utils.py:1103-1142 | with given parameters both forms give the same codes for all rows iff symmetric INT8 has no other zero point than 0 |
| `BlockCodec.BlockRecodeExactly` | intel_extension_for_pytorch/quantization/_quantize_utils.py:1103-1142 | per block, codes survive a second quantisation iff given zero points of symmetric quantisation are the implied ones |
| `Multiples.TimesIsProduct` | intel_extension_for_pytorch/transformers/tensor_parallel.py:160-175 | head and block offsets of the model are ordinary products |
| `Multiples.QuoIsDivision` | intel_extension_for_pytorch/quantization/_quantize_utils.py:1103-1106 | block numbers and remainders of the model are `//` and `%` |
| `Sharding.CutLoop` | intel_extension_for_pytorch/transformers/tensor_parallel.py:152-158 | the descending loop computes the cut points |
| `Sharding.CutRanks` | intel_extension_for_pytorch/transformers/tensor_parallel.py:652-669 | the key/value head ranges of all ranks |
| `Sharding.CutBlocks` | intel_extension_for_pytorch/transformers/tensor_parallel.py:217-253 | the column ranges of all ranks, in whole blocks if the size allows |
| `Sharding.CutClosed` | intel_extension_for_pytorch/transformers/tensor_parallel.py:152-158 | closed form: only the last ranks get one unit more |
| `Sharding.CutsPartition` | intel_extension_for_pytorch/transformers/tensor_parallel.py:152-158 | an exact partition whose shares differ by at most one unit |
| `Sharding.BlockCutsPartition` | intel_extension_for_pytorch/transformers/tensor_parallel.py:217-253 | both cases partition the whole size exactly, whole blocks stay on one rank |
| `TensorParallel.ColumnShardPiece` | intel_extension_for_pytorch/transformers/tensor_parallel.py:391-393 | a column shard computes its piece of the output |
| `TensorParallel.RowReduce` | intel_extension_for_pytorch/transformers/tensor_parallel.py:444-448 | the sum over ranks of row shards with divided bias is the full layer |
| `TensorParallel.MlpSharded` | intel_extension_for_pytorch/transformers/tensor_parallel.py:584-616 | a sharded MLP with any elementwise activation is the full MLP, for every world size and width |
| `TensorParallel.LmHeadGather` | intel_extension_for_pytorch/transformers/tensor_parallel.py:474-488 | the gathered LM head is the full one |
| `TensorParallel.LmHeadReduce` | intel_extension_for_pytorch/transformers/tensor_parallel.py:474-488 | the reduced LM head is the full one |
| `ShardedAttention.HeadColumns` | intel_extension_for_pytorch/transformers/tensor_parallel.py:160-188 | the loop over ranks computes the query column ranges |
| `ShardedAttention.HeadsCovered` | intel_extension_for_pytorch/transformers/tensor_parallel.py:147-188 | the ranks cover all heads iff the number of query heads is a multiple of the key/value heads |
| `ShardedAttention.RankHeads` | intel_extension_for_pytorch/transformers/tensor_parallel.py:147-188 | a rank computes exactly the query heads of its key/value heads, each with its own key/value head |
| `ShardedAttention.AttentionSharded` | intel_extension_for_pytorch/transformers/tensor_parallel.py:491-557 | sharded attention is unsharded attention, for every world size and head count |
| `ShardedAttention.HeadRangesWithin` | intel_extension_for_pytorch/transformers/tensor_parallel.py:189-215 | the three column ranges of a fused projection lie in order within its output |
| `ShardedAttention.FusedShardOut` | intel_extension_for_pytorch/transformers/tensor_parallel.py:189-215 | a fused shard computes its query, key and value columns in this order |
| `ShardedAttention.FusedShardHeads` | intel_extension_for_pytorch/transformers/tensor_parallel.py:189-215 | a rank's shard of a fused projection computes the query, key and value heads of that rank |
| `SharedQk.CollectHeadIds` | intel_extension_for_pytorch/transformers/tensor_parallel.py:268-283 | the while loop builds the head ids of a rank |
| `SharedQk.EvenIds` | intel_extension_for_pytorch/transformers/tensor_parallel.py:268-283 | with even heads per rank: a run of heads in both halves |
| `SharedQk.EvenIsPermutation` | intel_extension_for_pytorch/transformers/tensor_parallel.py:268-283 | with even heads per rank: every head is held exactly once over all ranks |
| `SharedQk.OddOverlaps` | intel_extension_for_pytorch/transformers/tensor_parallel.py:268-283 | with odd heads per rank and several ranks it is not |
| `SharedQk.ValueShardGathers` | intel_extension_for_pytorch/transformers/tensor_parallel.py:284-302 | a value shard computes the heads of its ids, in their order |
| `SharedQk.OutProjectionReduce` | intel_extension_for_pytorch/transformers/tensor_parallel.py:304-343 | raises iff the projection has a bias and there are several ranks; otherwise the sum over ranks of the output shards, fed these heads, is the full projection |
| `ConcatModules.CanConcatExactly` | intel_extension_for_pytorch/fx/concat_linear.py:54-73 | when two layers can be concatenated, and when the question raises |
| `ConcatModules.ConcatShape` | intel_extension_for_pytorch/fx/concat_linear.py:11-36 | the concatenated linear is well shaped and has all output channels |
| `ConcatModules.ConcatThenSplit` | intel_extension_for_pytorch/fx/concat_linear.py:11-36 | splitting its output at the original widths gives each layer's own output |
| `ConcatRewrite.GroupPreserves` | intel_extension_for_pytorch/fx/concat_linear.py:95-111 | the edit for one group keeps the graph in order and every value available under its new name |
| `ConcatRewrite.SuffixSimulates` | intel_extension_for_pytorch/fx/concat_linear.py:106-109 | along the rest of the graph all values stay the same |
| `ConcatRewrite.HeadValues` | intel_extension_for_pytorch/fx/concat_linear.py:95-105 | the values right behind the inserted nodes |
| `ConcatRewrite.EvalGetItems` | intel_extension_for_pytorch/fx/concat_linear.py:100-105 | the getitems, inserted in reverse, add exactly the split's items |
| `ConcatLinear.FxGraph.InsertAfter` | intel_extension_for_pytorch/fx/concat_linear.py:96-105 | a new node right behind a position |
| `ConcatLinear.FxGraph.ReplaceAllUses` | intel_extension_for_pytorch/fx/concat_linear.py:107-107 | all uses are redirected, nothing else changes |
| `ConcatLinear.FxGraph.Erase` | intel_extension_for_pytorch/fx/concat_linear.py:108-109 | one node is gone, nothing else changes |
| `ConcatLinear.FxGraph.InsertSplit` | intel_extension_for_pytorch/fx/concat_linear.py:96-105 | split and getitems behind the first layer |
| `ConcatLinear.FxGraph.RedirectLayers` | intel_extension_for_pytorch/fx/concat_linear.py:106-109 | interleaved replacing and erasing equals one simultaneous rewrite |
| `ConcatLinear.FxGraph.ConcatGroup` | intel_extension_for_pytorch/fx/concat_linear.py:95-111 | all edits of one group together, and the new module |
| `ConcatLinear.RewriteThenReplace` | intel_extension_for_pytorch/fx/concat_linear.py:107-107 | redirecting one more name composes |
| `ConcatLinear.RewriteThenErase` | intel_extension_for_pytorch/fx/concat_linear.py:108-109 | erasing one more node composes |
| `ConcatGroups.Collect` | intel_extension_for_pytorch/fx/concat_linear.py:38-52 | every input of a linear once, with all its linears in execution order |
| `ConcatPass.Compare` | intel_extension_for_pytorch/fx/concat_linear.py:54-73 | comparing modules of the edited graph is comparing those of the original |
| `ConcatPass.Choose` | intel_extension_for_pytorch/fx/concat_linear.py:87-93 | the first member and its partners, or the error a comparison raises |
| `ConcatGroups.PartnersComplete` | intel_extension_for_pytorch/fx/concat_linear.py:89-93 | no fitting member is left out |
| `ConcatPass.RewriteGroup` | intel_extension_for_pytorch/fx/concat_linear.py:83-111 | one round fails iff its group does, and otherwise keeps the progress of all earlier rounds |
| `ConcatPass.RewriteGroups` | intel_extension_for_pytorch/fx/concat_linear.py:83-111 | the same for all rounds |
| `ConcatSteps.StepInvariant` | intel_extension_for_pytorch/fx/concat_linear.py:95-111 | later groups stay intact although their inputs may have been renamed: nodes keep order and ops, exactly the merged linears are gone, modules only grow |
| `ConcatSteps.StepValues` | intel_extension_for_pytorch/fx/concat_linear.py:95-111 | if no module is shared, one round keeps every value under its name so far |
| `ConcatPass.ConcatLinearPass` | intel_extension_for_pytorch/fx/concat_linear.py:10-124 | succeeds iff no group raises; then the graph is in order, only linears are renamed, and under every meaning of the other nodes: all values are kept if no module is shared, visible spoilt uses all change, and where all uses are visible the values are kept iff no module is shared |
| `ConcatSharing.StepWidened` | intel_extension_for_pytorch/fx/concat_linear.py:95-111 | the round spoils the other uses of the module it replaces, and keeps spoilt what earlier rounds spoilt, also if it redirects or merges them |
| `ConcatSharing.SpoiltDiffers` | intel_extension_for_pytorch/fx/concat_linear.py:95-111 | a spoilt call or `get_attr` has another value than the visible one it had |
| `ConcatGroups.SharedSpoils` | intel_extension_for_pytorch/fx/concat_linear.py:83-111 | if nothing raises and linears have outputs, a shared module has a spoilt use, though its users may themselves be rewritten |
| `ConcatModules.ConcatGrows` | intel_extension_for_pytorch/fx/concat_linear.py:11-36 | the concatenation has more outputs than its first layer iff another layer has outputs; otherwise it is the first layer |
| `ConcatFirstUse.DistinguishedExactly` | intel_extension_for_pytorch/fx/concat_linear.py:95-111 | replacing the first module by the concatenation changes what a call or `get_attr` computes iff its arguments distinguish them |
| `ConcatFirstUse.FirstUseChangesExactly` | intel_extension_for_pytorch/fx/concat_linear.py:95-111 | in one edit, wherever it stands, the first node that is no layer but uses the replaced module changes its value iff its arguments distinguish the modules |
| `ConcatExample.SharedGroups` | intel_extension_for_pytorch/fx/concat_linear.py:38-52 | the groups of a graph whose only rewritten group starts with a shared module |
| `ConcatExample.RewriteShared` | intel_extension_for_pytorch/fx/concat_linear.py:10-124 | on this graph the pass succeeds, and neither the other call nor the `get_attr` node keeps its value |
| `GraphCapture.RunHolds` | intel_extension_for_pytorch/cpu/graph_capture.py:46-117 | the invariant of every interleaving: who holds the lock, which model belongs to which method |
| `GraphCapture.AtMostOnce` | intel_extension_for_pytorch/cpu/graph_capture.py:54-117 | generation starts at most once and the method changes at most once |
| `GraphCapture.ChosenByOutcome` | intel_extension_for_pytorch/cpu/graph_capture.py:67-117 | in every interleaving: JIT iff a trace succeeded, Dynamo iff a compilation succeeded, eager inference iff one failed, compilation only after a failed trace, nothing tried in training |
| `GraphCapture.ChosenNeedsNoLock` | intel_extension_for_pytorch/cpu/graph_capture.py:54-58 | once a method is chosen, a call that starts never waits for the lock, whatever the other threads do |
| `GraphCapture.OuterCallsBypass` | intel_extension_for_pytorch/cpu/graph_capture.py:48-49 | in every interleaving, exactly the calls that start under an outer trace run the function directly |
| `GraphCapture.OnlyOuterCalls` | intel_extension_for_pytorch/cpu/graph_capture.py:48-49 | if every call is under an outer trace, no graph is generated and the lock is never taken |
| `GraphCapture.CallsRunTheFinalModel` | intel_extension_for_pytorch/cpu/graph_capture.py:54-117 | every call outside an outer trace, on whichever path, runs the model that stays in place; in training the function |
| `GraphCapture.FallbackKeepsOriginal` | intel_extension_for_pytorch/cpu/graph_capture.py:98-117 | if eager inference is chosen, both captures were tried and failed, and the model is and stays the original one |
| `GraphCapture.LockHolderMoves` | intel_extension_for_pytorch/cpu/graph_capture.py:61-66 | at most one thread is inside the lock, and it can always move |
| `BlockedWeight.PermuteBack` | intel_extension_for_pytorch/transformers/optimize.py:1333-1352 | permuting by inverse permutations is the identity, for every shape |
| `BlockedWeight.BlocksExactly` | intel_extension_for_pytorch/transformers/optimize.py:1330-1338 | a matrix can be blocked iff the blocks divide its sides and the second is even |
| `BlockedWeight.BlockElement` | intel_extension_for_pytorch/transformers/optimize.py:1330-1338 | which row and column each blocked element comes from |
| `BlockedWeight.UnpackBlock` | intel_extension_for_pytorch/transformers/optimize.py:1330-1352 | unpacking a blocked matrix gives the matrix |
| `BlockedWeight.BlockUnpack` | intel_extension_for_pytorch/transformers/optimize.py:1330-1352 | blocking an unpacked weight by its own sizes gives the weight |
| `BlockedWeight.RepackKeepsMatrix` | intel_extension_for_pytorch/transformers/optimize.py:1340-1359 | re-blocking from any sizes never fails and keeps the matrix |
| `Lamb.Optimizer.Collect` | intel_extension_for_pytorch/optim/_lamb.py:67-95 | lists the parameters with gradients, opens their states and counts the step |
| `Lamb.Optimizer.Impl` | intel_extension_for_pytorch/optim/_functional.py:732-759 | each listed parameter gets one update of its moments and one of itself; all others are untouched |
| `Lamb.Optimizer.Step` | intel_extension_for_pytorch/optim/_lamb.py:48-110 | after any run, step equals the number of gradients seen and the moments are those of exactly these gradients |
| `Lamb.CorrectedIsConvex` | intel_extension_for_pytorch/optim/_functional.py:738-745 | a bias-corrected running average is a convex combination of everything averaged |
| `Lamb.FirstMomentConvex` | intel_extension_for_pytorch/optim/_functional.py:738-745 | so is each element of the first moment in every reachable state, with weights that fall by beta |
| `Lamb.AdamIsRatio` | intel_extension_for_pytorch/optim/_functional.py:736-747 | in every reachable state an element's step is the weighted mean of its gradients over the root of that of their squares plus eps, with weights that sum to one and fall by beta, plus the decay |
| `Lamb.EqualGradients` | intel_extension_for_pytorch/optim/_functional.py:736-747 | after any number of equal gradients g it is g divided by its magnitude plus eps, plus the decay |
| `Lamb.StepHasMomentSign` | intel_extension_for_pytorch/optim/_functional.py:742-744 | without decay it has the sign of the first moment |
| `Lamb.MovesAgainst` | intel_extension_for_pytorch/optim/_functional.py:749-759 | all elements move against their steps by one factor, lr times the ratio of the norms, or lr if one is zero |
| `Lamb.MoveLength` | intel_extension_for_pytorch/optim/_functional.py:749-759 | with both norms nonzero, the squared move is lr squared times the squared length of the parameter |

## Left out

- Floating-point rounding other than `torch.round`, casts to bfloat16, autocast, and integer overflow of tensors: values are reals and integers.
- Which arguments a fusion pattern resets is part of the recipe (`FusionMeaning.Loses`), but that its patterns are the ones oneDNN fuses is not stated.
- LSTM, embedding-bag and interaction ops in the recipe, and dynamic quantisation configurations (`StaticQConfigs`).
- Weight tensors of modules in the recipe: only activations travel along the graph.
- Saving and loading the quantisation state as JSON, which also breaks the sharing of tensor infos.
- The scales that observers compute from histograms: a scale is a value, and its presence is what matters.
- `OpSequence`: ops are identified by their names, and re-entrant module calls are excluded.
- The `world_size == 1` shortcuts of the sharding code, biases of `None` wrapped into parameters, and the assignment of the sharded tensors to modules, except where a bias is refused.
- Convolutions sharded by channels: their cut points are those of `Sharding.CutLoop`.
- `ConcatPass.ConcatLinearPass`: nodes are numbered in execution order, a linear has one positional argument, only module calls have a module's name as target, a `get_attr` names an attribute of one module, and copying the model beforehand is not modelled.
- Empty rows in the weight codec, on which `torch.min` raises, and rows as parts of a tensor: rows are quantised one by one. Zero points are integers, as the code computes them.
- `GraphCapture`: logging and assignments do not raise; what the captured models compute is not modelled.
- `SmoothWiring.QuantState.Attach`: activation scales and zero points are not modelled, only the scaling factors; both observers have the same alpha.
- The fused kernels of LAMB, sparse gradients and parameter groups with different settings.
- Prepacking, fused ops, kernels and everything under `csrc`: opaque foreign code.
- Launchers, build scripts, the `xpu` package and the model-specific optimisations: option plumbing.
