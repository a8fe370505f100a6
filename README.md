# Layered feed-forward network with back-propagation

This project models `neural_net.cpp`: a small fully connected, layered
feed-forward network trained by back-propagation with momentum.

- **Construction.** A `Net` is built from a topology, which lists how many neurons each layer has.
  - Layer `l` gets `topology[l] + 1` neurons. The last one is the bias neuron.
  - Neuron `j` records its position `j`.
  - Each neuron owns one outgoing `Connection` per non-bias neuron of the next layer. Neurons of the output layer own none.
  - Every connection starts with no recorded change. Its weight is `rand() / RAND_MAX`.
- **Forward pass.** The inputs become the outputs of the input layer's non-bias neurons. Then every later layer's non-bias neurons are recomputed, first layer first. Each one becomes the transfer function of the sum, over the whole previous layer (bias included), of output times the weight of the connection indexed by the neuron's position.
- **Backward pass.** It has three phases, in this order:
  - the output gradients, computed from the targets;
  - the hidden gradients, from the last hidden layer back to layer 1;
  - the momentum update. Each non-bias neuron steps its own column of the previous layer's connections.
- **Results.** `getResults` returns the outputs of the non-bias output neurons.

The model has three modules:

- `Neurons` (`neurons.dfy`): the `Connection` and `Neuron` values, and what a single neuron does. Each loop of the source is a method. The two summing loops are proved against recursive specification functions: `InputSum` for the forward sum and `Dow` for `sumDOW`. The construction and weight-update loops are proved element by element against `RandomWeight` and `StepColumn`. The module also holds the closed form of the momentum rule.
- `Layers` (`layers.dfy`): the shape invariant and the per-layer loops of the source. It also holds the predicates and step lemmas that state what each pass does to a sequence of layers.
- `Network` (`network.dfy`): the `Net` class. Its field `layers` is reassigned by the constructor, `FeedForward` and `BackProp`. Its invariant `Valid()` is the construction shape, kept by every method.

A neuron is a value, as in the source's `vector<Neuron>`. A neuron operation that changes a neuron, or the previous layer, returns the new value. The caller stores it back into the layer.

## Model

| member | source | states |
|---|---|---|
| Neurons.RandomWeight | neural_net.cpp:41-43 | a fresh weight lies in [0, 1]; it is 0 exactly when the generator returned 0, and 1 exactly when it returned RAND_MAX |
| Neurons.NewNeuron | neural_net.cpp:106-113 | the neuron keeps its position and gets exactly `numOutputs` connections; connection `c` has change 0 and the weight of generator call `firstDraw + c` |
| Neurons.FeedForward | neural_net.cpp:92-104 | only the output changes; it becomes the transfer function of the weighted sum over the whole previous layer, bias included, read from connection `myIndex` |
| Neurons.InputSumReadsOneColumn | neural_net.cpp:98-100 | the weighted sum depends only on the previous layer's outputs and on the weights in column `myIndex` |
| Neurons.TransferFunctionDerivative | neural_net.cpp:87-90 | `1 - x*x` is at most 1; it is zero exactly at x = ±1, and positive exactly for -1 < x < 1 |
| Neurons.CalcOutputGradients | neural_net.cpp:71-75 | only the gradient changes; it is zero exactly when the output equals the target or is saturated; for an unsaturated output it is positive exactly when the target lies above the output |
| Neurons.SumDOW | neural_net.cpp:61-69 | returns the sum of weight times next-layer gradient over every next-layer neuron except the bias; it reads only connections that exist |
| Neurons.DowReadsOnlyPrefix | neural_net.cpp:65-66 | the sum reads only the first `|next| - 1` weights and gradients, so the next layer's bias gradient never matters |
| Neurons.CalcHiddenGradients | neural_net.cpp:77-80 | only the gradient changes; it becomes the carried-back sum times the transfer derivative at the neuron's output |
| Neurons.MomentumStep | neural_net.cpp:54-57 | the new change equals eta*out*grad plus alpha times the old change; the weight grows by exactly the new change |
| Neurons.StepColumn | neural_net.cpp:53-57 | connection `j` takes one momentum step; every other connection, and the output, gradient and position, are unchanged |
| Neurons.UpdateInputWeights | neural_net.cpp:50-59 | every neuron of the previous layer, bias included, steps exactly its connection `myIndex` with this neuron's gradient; nothing else changes |
| Neurons.MomentumClosedForm | neural_net.cpp:54-57 | after any history of updates, the last change is the initial change times alpha^n, plus the sum of the gradient steps, each discounted by alpha per later update |
| Neurons.WeightAccumulatesChanges | neural_net.cpp:56-57 | after any history of updates, the weight is the initial weight plus every change recorded along the way |
| Layers.ShapedConnectsTo | neural_net.cpp:194-196 | in a shaped network, every neuron of a layer owns a connection to each non-bias neuron of the next layer |
| Layers.ShapedFedBy | neural_net.cpp:194-196 | in a shaped network, layer `l`'s non-bias neurons sit at their own positions and are reachable from layer `l - 1`, so the forward and update indexing is in bounds |
| Layers.NewLayer | neural_net.cpp:195-197 | builds `topology[l] + 1` neurons at positions 0.., each with `numOutputs` fresh connections drawn from consecutive generator calls |
| Layers.SetInputs | neural_net.cpp:205-207 | input `i` becomes the output of input neuron `i`; the bias neuron and every other field stay |
| Layers.FeedLayerForward | neural_net.cpp:212-214 | every non-bias neuron is recomputed from the previous layer; the bias neuron and every weight and gradient stay |
| Layers.CalcLayerOutputGradients | neural_net.cpp:161-163 | every non-bias output neuron gets its gradient from its own target; the bias neuron stays |
| Layers.CalcLayerHiddenGradients | neural_net.cpp:172-175 | every neuron of the hidden layer, bias included, gets its gradient carried back from the next layer; only gradients change |
| Layers.UpdateLayerInputWeights | neural_net.cpp:184-186 | every connection into a non-bias neuron takes exactly one momentum step with that neuron's gradient; connections into the bias column, outputs and gradients stay |
| Layers.ForwardStart | neural_net.cpp:205-207 | storing the inputs starts the forward pass: only input outputs changed, and bias neurons are kept |
| Layers.ForwardStep | neural_net.cpp:209-215 | recomputing layer `k` keeps layers `1..k-1` fed forward, feeds layer `k`, and leaves the later layers and every bias neuron untouched |
| Layers.OutputsDifferShaped | neural_net.cpp:201-216 | a change of outputs alone keeps the construction shape |
| Layers.OutputStart | neural_net.cpp:159-163 | setting the output gradients starts the backward pass and leaves every other layer as it was |
| Layers.HiddenStep | neural_net.cpp:165-176 | setting hidden layer `k`'s gradients keeps the output gradients and every hidden gradient set after it; layers below `k` are untouched |
| Layers.GradientsDifferShaped | neural_net.cpp:159-176 | a change of gradients alone keeps the construction shape |
| Layers.WeightsStep | neural_net.cpp:178-187 | stepping the connections into layer `k` keeps those already stepped and leaves layers below `k - 1` untouched |
| Layers.WeightsDifferShaped | neural_net.cpp:178-187 | a change of connection values alone, with the same number of connections, keeps the construction shape |
| Layers.OutcomeHidden | neural_net.cpp:165-187 | hidden gradients computed before any weight changed still match the gradients left after the weight update |
| Layers.OutcomeWeights | neural_net.cpp:178-187 | the momentum steps start from the connections and outputs as they were before the backward pass |
| Layers.BackPropOutcome | neural_net.cpp:159-187 | over the whole backward pass, outputs stay; output, hidden and input-layer gradients are as specified; every connection into a non-bias neuron takes one step from the pre-call weights |
| Network.BuildStep | neural_net.cpp:192-197 | appending the next layer keeps every earlier layer's shape and each connection's weight from its own generator call |
| Network.Net.constructor | neural_net.cpp:190-199 | the network has the construction shape for the topology; connection `c` of neuron `j` of layer `l` has change 0 and the weight of generator call `DrawIndex(l, j, c)`, so weights lie in [0, 1] |
| Network.Net.FeedForward | neural_net.cpp:201-216 | keeps the shape; the inputs are copied; only outputs change; bias neurons are kept; every layer from 1 on is fed forward from the final state of the layer before |
| Network.Net.BackProp | neural_net.cpp:142-188 | keeps the shape and every output; output gradients come from the targets, and hidden gradients from the weights before the call; input-layer and output-bias gradients stay; then every connection into a non-bias neuron takes exactly one momentum step |
| Network.Net.GetResults | neural_net.cpp:133-140 | returns `|output layer| - 1` values, equal in order to the non-bias output neurons' outputs |

## Left out

- The transfer function `tanh` (neural_net.cpp:82-85) is the constructor parameter `transfer`, kept in a `const` field of the network, so one function serves for the network's lifetime. Nothing is proved about its values.
- Floating point: every `double` is a Dafny `real`. IEEE rounding and NaN are not modelled.
- `rand()` is the constructor parameter `rand`, where `rand(k)` is the result of the k-th call this constructor makes, together with the bound `randMax` (RAND_MAX). The source's generator is process-wide, so a second network built in the same process continues its sequence; the model counts each constructor's calls from 0. Seeding is not modelled.
- The error measurement in `backProp` is not modelled (neural_net.cpp:144-157). This covers `m_error`, its `sqrt`, `m_recentAverageError` and `m_recentAverageSmoothingFactor`. None of them is read by the rest of the core. The last two are never initialised. The average divides by zero when the output layer has no non-bias neuron.
- Network.Net.constructor: the outputs and gradients of new neurons are arbitrary, since the source never initialises them. The bias neurons' outputs therefore stay arbitrary; they are not set to 1.0. `FeedForward` and `BackProp` are proved never to change them.
- Network.Net.FeedForward: the source's `assert` on the input count becomes a precondition. A network with no layers is excluded: the source would index an empty vector.
- Network.Net.BackProp: requires at least two layers. With one layer, the source's unsigned `size() - 2` wraps around and the loop indexes out of bounds; with none, `back()` is undefined.
- Network.Net.BackProp: requires at least as many targets as non-bias output neurons, because the source reads `targetVals[n]` for each of them unchecked.
- Network.Net.GetResults: requires at least one layer, for the same reason as `FeedForward`. The result is returned instead of being written into an out-parameter.
- Aliasing: neurons are values, so the in-place updates through references to a layer become computed layers that are stored back. The per-neuron loops over a layer are module-level methods in `Layers`.
- The source's 32-bit `unsigned` counters and topology entries are unbounded `nat`s. Apart from the cases the preconditions above exclude, their wrap-around matters only in the constructor case below.
- Network.Net.constructor: does not model a topology entry of 4294967295 (UINT_MAX). The source's neuron loop `neuronNum <= topology[layerNum]` then never ends, and the constructor keeps adding neurons until allocation fails. The model instead returns a layer of 2^32 neurons.
- `main` (neural_net.cpp:219-237) is a sample driver, not part of this model.
