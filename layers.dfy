/**
 * Whole layers: the shape a network of layers keeps, the per-layer loops of
 * the forward and backward passes, and the facts about sequences of layers
 * that those passes establish.
 */
module Layers {
  import opened Neurons

  // ---------------------------------------------------------------- shape

  /**
   * How many outgoing connections a neuron of layer `l` owns: one per
   * non-bias neuron of the next layer, none in the output layer.
   */
  function NumOutputs(topology: seq<nat>, l: nat): (n: nat)
    requires l < |topology|
  {
    if l == |topology| - 1 then 0 else topology[l + 1]
  }

  /**
   * The shape a network built from `topology` has, and keeps: one layer
   * per entry, each with its configured neurons plus a bias neuron, every
   * neuron knowing its own position and owning one connection per
   * non-bias neuron of the next layer.
   */
  ghost predicate Shaped(layers: seq<Layer>, topology: seq<nat>)
  {
    && |layers| == |topology|
    && (forall l :: 0 <= l < |layers| ==> |layers[l]| == topology[l] + 1)
    && (forall l, j :: 0 <= l < |layers| && 0 <= j < |layers[l]| ==>
          layers[l][j].myIndex == j && |layers[l][j].outputWeights| == NumOutputs(topology, l))
  }

  /** Every connection of the layer has never been updated and has a weight in [0, 1]. */
  ghost predicate FreshLayer(layer: Layer)
  {
    forall j, c :: 0 <= j < |layer| && 0 <= c < |layer[j].outputWeights| ==>
      layer[j].outputWeights[c].deltaWeight == 0.0 && 0.0 <= layer[j].outputWeights[c].weight <= 1.0
  }

  /** Every neuron of `layer` owns a connection to each non-bias neuron of `nextLayer`. */
  ghost predicate ConnectsTo(layer: Layer, nextLayer: Layer)
  {
    |nextLayer| >= 1 &&
    forall n :: 0 <= n < |layer| ==> |nextLayer| - 1 <= |layer[n].outputWeights|
  }

  /**
   * `layer` ends in a bias neuron, each of its other neurons sits at its
   * own position, and `prevLayer` connects to each of them.
   */
  ghost predicate FedBy(layer: Layer, prevLayer: Layer)
  {
    ConnectsTo(prevLayer, layer) &&
    forall j :: 0 <= j < |layer| - 1 ==> layer[j].myIndex == j
  }

  /** In a shaped network every layer before the last connects to the next. */
  lemma ShapedConnectsTo(layers: seq<Layer>, topology: seq<nat>, l: nat)
    requires Shaped(layers, topology) && l + 1 < |layers|
    ensures ConnectsTo(layers[l], layers[l + 1])
  {
    assert |layers[l + 1]| == topology[l + 1] + 1;
  }

  /** In a shaped network each layer after the first is fed by the layer before it. */
  lemma ShapedFedBy(layers: seq<Layer>, topology: seq<nat>, l: nat)
    requires Shaped(layers, topology) && 1 <= l < |layers|
    ensures FedBy(layers[l], layers[l - 1])
  {
    ShapedConnectsTo(layers, topology, l - 1);
  }

  // ---------------------------------------------------------------- per-layer loops

  /**
   * Builds a layer of `numNeurons` neurons, each at its own position with
   * `numOutputs` fresh connections; the generator is called once per
   * connection, neuron by neuron, starting with call number `firstDraw`.
   */
  method NewLayer(numNeurons: nat, numOutputs: nat, rand: nat -> nat, randMax: nat, firstDraw: nat)
    returns (layer: Layer)
    requires DrawsInRange(rand, randMax)
    ensures |layer| == numNeurons
    ensures forall j :: 0 <= j < numNeurons ==> layer[j].myIndex == j && |layer[j].outputWeights| == numOutputs
    ensures forall j, c :: 0 <= j < numNeurons && 0 <= c < numOutputs ==>
      layer[j].outputWeights[c] == Connection(RandomWeight(rand(firstDraw + j * numOutputs + c), randMax), 0.0)
    ensures FreshLayer(layer)
  {
    layer := [];
    var draws := firstDraw;
    for neuronNum := 0 to numNeurons
      invariant |layer| == neuronNum && draws == firstDraw + neuronNum * numOutputs
      invariant forall j :: 0 <= j < neuronNum ==> layer[j].myIndex == j && |layer[j].outputWeights| == numOutputs
      invariant forall j, c :: 0 <= j < neuronNum && 0 <= c < numOutputs ==>
        layer[j].outputWeights[c] == Connection(RandomWeight(rand(firstDraw + j * numOutputs + c), randMax), 0.0)
      invariant FreshLayer(layer)
    {
      var neuron := NewNeuron(numOutputs, neuronNum, rand, randMax, draws);
      layer := layer + [neuron];
      draws := draws + numOutputs;
    }
  }

  /**
   * Stores the inputs, in order, as the outputs of the input layer's
   * non-bias neurons; the bias neuron and everything else stay.
   */
  method SetInputs(inputLayer: Layer, inputVals: seq<real>) returns (r: Layer)
    requires |inputVals| == |inputLayer| - 1
    ensures |r| == |inputLayer| && r[|r| - 1] == inputLayer[|inputLayer| - 1]
    ensures forall j :: 0 <= j < |inputVals| ==> r[j] == inputLayer[j].(outputVal := inputVals[j])
  {
    r := inputLayer;
    for i := 0 to |inputVals|
      invariant |r| == |inputLayer|
      invariant forall k :: 0 <= k < i ==> r[k] == inputLayer[k].(outputVal := inputVals[k])
      invariant forall k :: i <= k < |r| ==> r[k] == inputLayer[k]
    {
      r := r[i := r[i].(outputVal := inputVals[i])];
    }
  }

  /**
   * Recomputes every neuron of `layer` but its bias neuron from `prevLayer`,
   * in order; the bias neuron and everything but the outputs stay.
   */
  method FeedLayerForward(layer: Layer, prevLayer: Layer, transfer: real -> real) returns (r: Layer)
    requires FedBy(layer, prevLayer)
    ensures |r| == |layer| && r[|r| - 1] == layer[|layer| - 1]
    ensures forall j :: 0 <= j < |r| - 1 ==>
      r[j] == layer[j].(outputVal := transfer(InputSum(prevLayer, j, |prevLayer|)))
    ensures forall j :: 0 <= j < |r| ==> r[j] == layer[j].(outputVal := r[j].outputVal)
    ensures FedForwardFrom(r, prevLayer, transfer)
  {
    r := layer;
    for n := 0 to |layer| - 1
      invariant |r| == |layer|
      invariant forall k :: 0 <= k < n ==> r[k] == layer[k].(outputVal := transfer(InputSum(prevLayer, k, |prevLayer|)))
      invariant forall k :: n <= k < |r| ==> r[k] == layer[k]
    {
      var updated := FeedForward(r[n], prevLayer, transfer);
      r := r[n := updated];
    }
  }

  /**
   * Sets the gradient of every output neuron but the bias neuron from its
   * target; the bias neuron stays as it is.
   */
  method CalcLayerOutputGradients(outputLayer: Layer, targetVals: seq<real>) returns (r: Layer)
    requires |outputLayer| >= 1 && |targetVals| >= |outputLayer| - 1
    ensures |r| == |outputLayer| && r[|r| - 1] == outputLayer[|outputLayer| - 1]
    ensures forall j :: 0 <= j < |r| - 1 ==> r[j] == CalcOutputGradients(outputLayer[j], targetVals[j])
  {
    r := outputLayer;
    for n := 0 to |outputLayer| - 1
      invariant |r| == |outputLayer|
      invariant forall k :: 0 <= k < n ==> r[k] == CalcOutputGradients(outputLayer[k], targetVals[k])
      invariant forall k :: n <= k < |r| ==> r[k] == outputLayer[k]
    {
      r := r[n := CalcOutputGradients(r[n], targetVals[n])];
    }
  }

  /**
   * Sets the gradient of every neuron of a hidden layer, its bias neuron
   * included, from the gradients of the next layer.
   */
  method CalcLayerHiddenGradients(hiddenLayer: Layer, nextLayer: Layer) returns (r: Layer)
    requires ConnectsTo(hiddenLayer, nextLayer)
    ensures |r| == |hiddenLayer|
    ensures forall j :: 0 <= j < |r| ==>
      r[j] == hiddenLayer[j].(gradient := Dow(hiddenLayer[j].outputWeights, nextLayer, |nextLayer| - 1)
                                          * TransferFunctionDerivative(hiddenLayer[j].outputVal))
    ensures GradientsCarried(hiddenLayer, r, nextLayer)
    ensures forall j :: 0 <= j < |r| ==> r[j] == hiddenLayer[j].(gradient := r[j].gradient)
  {
    r := hiddenLayer;
    for n := 0 to |hiddenLayer|
      invariant |r| == |hiddenLayer|
      invariant forall k :: 0 <= k < n ==>
        r[k] == hiddenLayer[k].(gradient := Dow(hiddenLayer[k].outputWeights, nextLayer, |nextLayer| - 1)
                                            * TransferFunctionDerivative(hiddenLayer[k].outputVal))
      invariant forall k :: n <= k < |r| ==> r[k] == hiddenLayer[k]
    {
      var updated := CalcHiddenGradients(r[n], nextLayer);
      r := r[n := updated];
    }
  }

  /**
   * Every non-bias neuron of `layer` applies its update to `prevLayer`.
   * Because neuron `j` writes only connection `j`, each connection leading
   * to a non-bias neuron takes exactly one momentum step, with that
   * neuron's gradient; every other connection, and everything else about
   * the previous layer, stays.
   */
  method UpdateLayerInputWeights(layer: Layer, prevLayer: Layer) returns (newPrev: Layer)
    requires FedBy(layer, prevLayer)
    ensures |newPrev| == |prevLayer|
    ensures forall n :: 0 <= n < |prevLayer| ==>
      newPrev[n] == prevLayer[n].(outputWeights := newPrev[n].outputWeights)
      && |newPrev[n].outputWeights| == |prevLayer[n].outputWeights|
    ensures WeightsStepped(prevLayer, newPrev, layer)
    ensures forall n, c :: 0 <= n < |prevLayer| && |layer| - 1 <= c < |prevLayer[n].outputWeights| ==>
      newPrev[n].outputWeights[c] == prevLayer[n].outputWeights[c]
  {
    newPrev := prevLayer;
    for j := 0 to |layer| - 1
      invariant |newPrev| == |prevLayer|
      invariant forall n :: 0 <= n < |prevLayer| ==>
        newPrev[n] == prevLayer[n].(outputWeights := newPrev[n].outputWeights)
        && |newPrev[n].outputWeights| == |prevLayer[n].outputWeights|
      invariant forall n, c :: 0 <= n < |prevLayer| && 0 <= c < j ==>
        newPrev[n].outputWeights[c] == MomentumStep(prevLayer[n].outputWeights[c], prevLayer[n].outputVal, layer[c].gradient)
      invariant forall n, c :: 0 <= n < |prevLayer| && j <= c < |prevLayer[n].outputWeights| ==>
        newPrev[n].outputWeights[c] == prevLayer[n].outputWeights[c]
    {
      assert layer[j].myIndex == j;
      ghost var mid := newPrev;
      newPrev := UpdateInputWeights(layer[j], newPrev);
      forall n | 0 <= n < |prevLayer|
        ensures newPrev[n] == prevLayer[n].(outputWeights := newPrev[n].outputWeights)
        ensures |newPrev[n].outputWeights| == |prevLayer[n].outputWeights|
        ensures newPrev[n].outputWeights[j] ==
          MomentumStep(prevLayer[n].outputWeights[j], prevLayer[n].outputVal, layer[j].gradient)
        ensures forall c :: 0 <= c < |prevLayer[n].outputWeights| && c != j ==>
          newPrev[n].outputWeights[c] == mid[n].outputWeights[c]
      {
        assert newPrev[n] == StepColumn(mid[n], j, layer[j].gradient);
      }
    }
  }

  // ---------------------------------------------------------------- what the passes change

  /** `after` has the layers and neurons of `before`; at most their outputs differ. */
  ghost predicate OnlyOutputsDiffer(before: seq<Layer>, after: seq<Layer>)
  {
    && |after| == |before|
    && (forall l :: 0 <= l < |before| ==> |after[l]| == |before[l]|)
    && (forall l, j :: 0 <= l < |before| && 0 <= j < |before[l]| ==>
          after[l][j] == before[l][j].(outputVal := after[l][j].outputVal))
  }

  /** `after` has the layers and neurons of `before`; at most their gradients differ. */
  ghost predicate OnlyGradientsDiffer(before: seq<Layer>, after: seq<Layer>)
  {
    && |after| == |before|
    && (forall l :: 0 <= l < |before| ==> |after[l]| == |before[l]|)
    && (forall l, j :: 0 <= l < |before| && 0 <= j < |before[l]| ==>
          after[l][j] == before[l][j].(gradient := after[l][j].gradient))
  }

  /**
   * `after` has the layers and neurons of `before`; at most the values of
   * their connections differ, not how many there are.
   */
  ghost predicate OnlyWeightsDiffer(before: seq<Layer>, after: seq<Layer>)
  {
    && |after| == |before|
    && (forall l :: 0 <= l < |before| ==> |after[l]| == |before[l]|)
    && (forall l, j :: 0 <= l < |before| && 0 <= j < |before[l]| ==>
          after[l][j] == before[l][j].(outputWeights := after[l][j].outputWeights)
          && |after[l][j].outputWeights| == |before[l][j].outputWeights|)
  }

  /** Every layer's last (bias) neuron is as it was. */
  ghost predicate BiasKept(before: seq<Layer>, after: seq<Layer>)
  {
    |after| == |before| &&
    forall l :: 0 <= l < |before| && |before[l]| == |after[l]| >= 1 ==>
      after[l][|after[l]| - 1] == before[l][|before[l]| - 1]
  }

  /**
   * Each non-bias neuron of `layer` holds the transfer function of its
   * weighted input from `prevLayer`.
   */
  ghost predicate FedForwardFrom(layer: Layer, prevLayer: Layer, transfer: real -> real)
  {
    ConnectsTo(prevLayer, layer) &&
    forall j :: 0 <= j < |layer| - 1 ==> layer[j].outputVal == transfer(InputSum(prevLayer, j, |prevLayer|))
  }

  /** Layer `l` is fed forward from layer `l - 1`. */
  ghost predicate LayerFedForward(layers: seq<Layer>, l: nat, transfer: real -> real)
  {
    1 <= l < |layers| && FedForwardFrom(layers[l], layers[l - 1], transfer)
  }

  /** Each non-bias output neuron's gradient is computed from its target and its output in `before`. */
  ghost predicate OutputGradientsSet(before: seq<Layer>, after: seq<Layer>, targetVals: seq<real>)
  {
    var o := |after| - 1;
    |before| == |after| >= 1 && |before[o]| == |after[o]| && |targetVals| >= |after[o]| - 1 &&
    forall j :: 0 <= j < |after[o]| - 1 ==>
      after[o][j].gradient == (targetVals[j] - before[o][j].outputVal) * TransferFunctionDerivative(before[o][j].outputVal)
  }

  /**
   * Each neuron of a hidden layer, bias included, has in `after` the
   * gradient carried back from the gradients of `next` along the weights
   * the neuron had in `before`.
   */
  ghost predicate GradientsCarried(before: Layer, after: Layer, next: Layer)
  {
    |after| == |before| && |next| >= 1 &&
    forall j :: 0 <= j < |after| ==>
      |next| - 1 <= |before[j].outputWeights| &&
      after[j].gradient == Dow(before[j].outputWeights, next, |next| - 1) * TransferFunctionDerivative(after[j].outputVal)
  }

  /** Hidden layer `l`'s gradients are carried back from layer `l + 1` in `after`. */
  ghost predicate HiddenGradientsSet(before: seq<Layer>, after: seq<Layer>, l: nat)
  {
    l + 1 < |after| == |before| && GradientsCarried(before[l], after[l], after[l + 1])
  }

  /**
   * Every connection from `prevBefore` to a non-bias neuron of `layer`
   * has taken exactly one momentum step, driven by that neuron's gradient,
   * and is found in `prevAfter`.
   */
  ghost predicate WeightsStepped(prevBefore: Layer, prevAfter: Layer, layer: Layer)
  {
    |prevAfter| == |prevBefore| && ConnectsTo(prevBefore, layer) && ConnectsTo(prevAfter, layer) &&
    forall n, c :: 0 <= n < |prevAfter| && 0 <= c < |layer| - 1 ==>
      prevAfter[n].outputWeights[c] ==
        MomentumStep(prevBefore[n].outputWeights[c], prevBefore[n].outputVal, layer[c].gradient)
  }

  /** The connections of layer `l - 1` into layer `l` have each taken one momentum step from `before`. */
  ghost predicate InputWeightsUpdated(before: seq<Layer>, after: seq<Layer>, l: nat)
  {
    1 <= l < |after| == |before| && WeightsStepped(before[l - 1], after[l - 1], after[l])
  }

  // ---------------------------------------------------------------- bookkeeping lemmas

  /** `updated` is `layers` with layer `k` replaced by `layer`. */
  ghost predicate Replaces(updated: seq<Layer>, layers: seq<Layer>, k: nat, layer: Layer)
  {
    && |updated| == |layers|
    && k < |layers|
    && updated[k] == layer
    && forall i :: 0 <= i < |layers| && i != k ==> updated[i] == layers[i]
  }

  lemma UnchangedLayers(layers: seq<Layer>)
    ensures OnlyOutputsDiffer(layers, layers) && OnlyGradientsDiffer(layers, layers)
    ensures OnlyWeightsDiffer(layers, layers) && BiasKept(layers, layers)
  {
  }

  /** Storing a layer whose neurons differ from those of `before` only in their outputs. */
  lemma ReplaceOutputs(before: seq<Layer>, layers: seq<Layer>, i: nat, layer: Layer, updated: seq<Layer>)
    requires OnlyOutputsDiffer(before, layers) && Replaces(updated, layers, i, layer)
    requires |layer| == |before[i]|
    requires forall k :: 0 <= k < |layer| ==> layer[k] == before[i][k].(outputVal := layer[k].outputVal)
    ensures OnlyOutputsDiffer(before, updated)
  {
  }

  /** Storing a layer whose neurons differ from those of `before` only in their gradients. */
  lemma ReplaceGradients(before: seq<Layer>, layers: seq<Layer>, i: nat, layer: Layer, updated: seq<Layer>)
    requires OnlyGradientsDiffer(before, layers) && Replaces(updated, layers, i, layer)
    requires |layer| == |before[i]|
    requires forall k :: 0 <= k < |layer| ==> layer[k] == before[i][k].(gradient := layer[k].gradient)
    ensures OnlyGradientsDiffer(before, updated)
  {
  }

  /** Storing a layer whose neurons differ from those of `before` only in their connections' values. */
  lemma ReplaceWeights(before: seq<Layer>, layers: seq<Layer>, i: nat, layer: Layer, updated: seq<Layer>)
    requires OnlyWeightsDiffer(before, layers) && Replaces(updated, layers, i, layer)
    requires |layer| == |before[i]|
    requires forall k :: 0 <= k < |layer| ==>
      layer[k] == before[i][k].(outputWeights := layer[k].outputWeights)
      && |layer[k].outputWeights| == |before[i][k].outputWeights|
    ensures OnlyWeightsDiffer(before, updated)
  {
  }

  lemma OutputsDifferShaped(before: seq<Layer>, after: seq<Layer>, topology: seq<nat>)
    requires Shaped(before, topology) && OnlyOutputsDiffer(before, after)
    ensures Shaped(after, topology)
  {
    forall l, j | 0 <= l < |after| && 0 <= j < |after[l]|
      ensures after[l][j].myIndex == j && |after[l][j].outputWeights| == NumOutputs(topology, l)
    {
      assert after[l][j] == before[l][j].(outputVal := after[l][j].outputVal);
    }
  }

  lemma GradientsDifferShaped(before: seq<Layer>, after: seq<Layer>, topology: seq<nat>)
    requires Shaped(before, topology) && OnlyGradientsDiffer(before, after)
    ensures Shaped(after, topology)
  {
    forall l, j | 0 <= l < |after| && 0 <= j < |after[l]|
      ensures after[l][j].myIndex == j && |after[l][j].outputWeights| == NumOutputs(topology, l)
    {
      assert after[l][j] == before[l][j].(gradient := after[l][j].gradient);
    }
  }

  lemma WeightsDifferShaped(before: seq<Layer>, after: seq<Layer>, topology: seq<nat>)
    requires Shaped(before, topology) && OnlyWeightsDiffer(before, after)
    ensures Shaped(after, topology)
  {
    forall l, j | 0 <= l < |after| && 0 <= j < |after[l]|
      ensures after[l][j].myIndex == j && |after[l][j].outputWeights| == NumOutputs(topology, l)
    {
      assert after[l][j] == before[l][j].(outputWeights := after[l][j].outputWeights);
    }
  }

  /**
   * Storing layer `k`, freshly computed from layer `k - 1`, keeps the
   * layers before it fed forward and makes layer `k` fed forward too.
   */
  lemma FedForwardStep(layers: seq<Layer>, k: nat, layer: Layer, transfer: real -> real, updated: seq<Layer>)
    requires 1 <= k < |layers| && Replaces(updated, layers, k, layer)
    requires forall l :: 1 <= l < k ==> LayerFedForward(layers, l, transfer)
    requires FedForwardFrom(layer, layers[k - 1], transfer)
    ensures forall l :: 1 <= l <= k ==> LayerFedForward(updated, l, transfer)
  {
    forall l | 1 <= l <= k
      ensures LayerFedForward(updated, l, transfer)
    {
      assert updated[l - 1] == layers[l - 1];
      if l < k {
        assert updated[l] == layers[l] && LayerFedForward(layers, l, transfer);
      }
    }
  }

  /**
   * Storing hidden layer `k`, its gradients carried back from layer `k + 1`,
   * keeps the output gradients and every hidden gradient set so far, and
   * sets layer `k`'s.
   */
  lemma HiddenGradientsStep(before: seq<Layer>, layers: seq<Layer>, k: nat, hiddenLayer: Layer,
                            targetVals: seq<real>, updated: seq<Layer>)
    requires 1 <= k < |layers| - 1 && Replaces(updated, layers, k, hiddenLayer)
    requires OutputGradientsSet(before, layers, targetVals)
    requires forall l :: k < l < |layers| - 1 ==> HiddenGradientsSet(before, layers, l)
    requires |before| == |layers| && layers[k] == before[k]
    requires GradientsCarried(layers[k], hiddenLayer, layers[k + 1])
    ensures OutputGradientsSet(before, updated, targetVals)
    ensures forall l :: k <= l < |layers| - 1 ==> HiddenGradientsSet(before, updated, l)
  {
    assert updated[|updated| - 1] == layers[|layers| - 1];
    forall l | k <= l < |layers| - 1
      ensures HiddenGradientsSet(before, updated, l)
    {
      assert updated[l + 1] == layers[l + 1];
      if l > k {
        assert updated[l] == layers[l] && HiddenGradientsSet(before, layers, l);
      }
    }
  }

  /**
   * Storing layer `k - 1` after layer `k`'s update keeps the connections
   * already updated and makes layer `k - 1`'s connections updated.
   */
  lemma InputWeightsStep(graded: seq<Layer>, layers: seq<Layer>, k: nat, prevLayer: Layer, updated: seq<Layer>)
    requires 1 <= k < |layers| == |graded| && Replaces(updated, layers, k - 1, prevLayer)
    requires forall l :: k < l < |layers| ==> InputWeightsUpdated(graded, layers, l)
    requires layers[k - 1] == graded[k - 1]
    requires WeightsStepped(layers[k - 1], prevLayer, layers[k])
    ensures forall l :: k <= l < |layers| ==> InputWeightsUpdated(graded, updated, l)
  {
    forall l | k <= l < |layers|
      ensures InputWeightsUpdated(graded, updated, l)
    {
      assert updated[l] == layers[l];
      if l > k {
        assert updated[l - 1] == layers[l - 1] && InputWeightsUpdated(graded, layers, l);
      }
    }
  }

  /** Gradients play no part in a momentum step's starting point, so steps from `graded` are steps from `prevBefore`. */
  lemma SteppedIgnoresGradients(prevBefore: Layer, prevGraded: Layer, prevAfter: Layer, layer: Layer)
    requires |prevGraded| == |prevBefore|
    requires forall n :: 0 <= n < |prevBefore| ==> prevGraded[n] == prevBefore[n].(gradient := prevGraded[n].gradient)
    requires WeightsStepped(prevGraded, prevAfter, layer)
    ensures WeightsStepped(prevBefore, prevAfter, layer)
  {
    forall n, c | 0 <= n < |prevAfter| && 0 <= c < |layer| - 1
      ensures prevAfter[n].outputWeights[c] ==
        MomentumStep(prevBefore[n].outputWeights[c], prevBefore[n].outputVal, layer[c].gradient)
    {
      var target, source := layer[c], prevAfter[n];
      assert prevGraded[n] == prevBefore[n].(gradient := prevGraded[n].gradient);
    }
  }

  /** Across both phases of the backward pass, outputs stay and gradients are those of the first phase. */
  lemma OutcomeKeepsOutputs(before: seq<Layer>, graded: seq<Layer>, after: seq<Layer>)
    requires OnlyGradientsDiffer(before, graded) && OnlyWeightsDiffer(graded, after)
    ensures forall l, j :: 0 <= l < |after| && 0 <= j < |after[l]| ==>
      |after| == |before| && |after[l]| == |before[l]| &&
      after[l][j].outputVal == before[l][j].outputVal && after[l][j].gradient == graded[l][j].gradient
  {
    forall l, j | 0 <= l < |after| && 0 <= j < |after[l]|
      ensures after[l][j].outputVal == before[l][j].outputVal && after[l][j].gradient == graded[l][j].gradient
    {
      assert after[l][j] == graded[l][j].(outputWeights := after[l][j].outputWeights);
      assert graded[l][j] == before[l][j].(gradient := graded[l][j].gradient);
    }
  }

  /** A hidden layer's gradients, set in the first phase, survive the weight updates of the second. */
  lemma OutcomeHidden(before: seq<Layer>, graded: seq<Layer>, after: seq<Layer>, l: nat)
    requires OnlyGradientsDiffer(before, graded) && OnlyWeightsDiffer(graded, after)
    requires HiddenGradientsSet(before, graded, l)
    ensures HiddenGradientsSet(before, after, l)
  {
    OutcomeKeepsOutputs(before, graded, after);
    var next, nextGraded := after[l + 1], graded[l + 1];
    forall j | 0 <= j < |after[l]|
      ensures Dow(before[l][j].outputWeights, next, |next| - 1) == Dow(before[l][j].outputWeights, nextGraded, |next| - 1)
    {
      forall n | 0 <= n < |next| - 1
        ensures next[n].gradient == nextGraded[n].gradient
      {
        assert next[n].gradient == after[l + 1][n].gradient;
      }
      DowReadsOnlyPrefix(before[l][j].outputWeights, next, before[l][j].outputWeights, nextGraded, |next| - 1);
    }
  }

  /** The momentum steps taken in the second phase start from the weights as they were before the first. */
  lemma OutcomeWeights(before: seq<Layer>, graded: seq<Layer>, after: seq<Layer>, l: nat)
    requires OnlyGradientsDiffer(before, graded) && InputWeightsUpdated(graded, after, l)
    ensures InputWeightsUpdated(before, after, l)
  {
    SteppedIgnoresGradients(before[l - 1], graded[l - 1], after[l - 1], after[l]);
  }

  /**
   * The outcome of the backward pass, stated against the layers as they
   * were before it (`before`), from the facts about its two phases:
   * gradients first (`before` to `graded`), then weights (`graded` to
   * `after`).
   */
  lemma BackPropOutcome(before: seq<Layer>, graded: seq<Layer>, after: seq<Layer>, targetVals: seq<real>)
    requires HiddenPassed(before, graded, targetVals, 0) && WeightsPassed(graded, after, 0)
    ensures forall l, j :: 0 <= l < |after| && 0 <= j < |after[l]| ==>
      |after| == |before| && |after[l]| == |before[l]| && after[l][j].outputVal == before[l][j].outputVal
    ensures OutputGradientsSet(before, after, targetVals)
    ensures var o := |after| - 1; after[o][|after[o]| - 1].gradient == before[o][|after[o]| - 1].gradient
    ensures forall l :: 1 <= l < |after| - 1 ==> HiddenGradientsSet(before, after, l)
    ensures forall j :: 0 <= j < |after[0]| ==> after[0][j].gradient == before[0][j].gradient
    ensures forall l :: 1 <= l < |after| ==> InputWeightsUpdated(before, after, l)
  {
    OutcomeKeepsOutputs(before, graded, after);
    forall l | 1 <= l < |after| - 1
      ensures HiddenGradientsSet(before, after, l)
    {
      OutcomeHidden(before, graded, after, l);
    }
    forall l | 1 <= l < |after|
      ensures InputWeightsUpdated(before, after, l)
    {
      OutcomeWeights(before, graded, after, l);
    }
  }

  // ---------------------------------------------------------------- the passes, one layer at a time

  /**
   * The forward pass has stored the inputs and recomputed layers `1` to
   * `k - 1`; layers from `k` on are still as they were in `before`.
   */
  ghost predicate ForwardPassed(before: seq<Layer>, ls: seq<Layer>, inputVals: seq<real>, transfer: real -> real, k: nat)
  {
    && OnlyOutputsDiffer(before, ls)
    && BiasKept(before, ls)
    && 1 <= |ls| && k <= |ls| && |inputVals| <= |ls[0]|
    && (forall i :: 0 <= i < |inputVals| ==> ls[0][i].outputVal == inputVals[i])
    && (forall l :: 1 <= l < k ==> LayerFedForward(ls, l, transfer))
    && (forall l :: k <= l < |ls| ==> ls[l] == before[l])
  }

  /** Storing the inputs in the input layer starts the forward pass. */
  lemma ForwardStart(before: seq<Layer>, input: Layer, inputVals: seq<real>, transfer: real -> real, updated: seq<Layer>)
    requires 1 <= |before| && Replaces(updated, before, 0, input)
    requires |input| == |before[0]| == |inputVals| + 1 && input[|input| - 1] == before[0][|before[0]| - 1]
    requires forall j :: 0 <= j < |inputVals| ==> input[j] == before[0][j].(outputVal := inputVals[j])
    ensures ForwardPassed(before, updated, inputVals, transfer, 1)
  {
    UnchangedLayers(before);
    forall j | 0 <= j < |input|
      ensures input[j] == before[0][j].(outputVal := input[j].outputVal)
    {
      if j < |inputVals| {
        assert input[j] == before[0][j].(outputVal := inputVals[j]);
      }
    }
    ReplaceOutputs(before, before, 0, input, updated);
    forall l | 0 <= l < |before| && |before[l]| == |updated[l]| >= 1
      ensures updated[l][|updated[l]| - 1] == before[l][|before[l]| - 1]
    {
    }
    forall i | 0 <= i < |inputVals|
      ensures updated[0][i].outputVal == inputVals[i]
    {
      assert updated[0][i] == input[i];
    }
  }

  /** Storing layer `k`, recomputed from layer `k - 1`, advances the forward pass by one layer. */
  lemma ForwardStep(before: seq<Layer>, ls: seq<Layer>, inputVals: seq<real>, transfer: real -> real, k: nat,
                    layer: Layer, updated: seq<Layer>)
    requires 1 <= k < |ls| && ForwardPassed(before, ls, inputVals, transfer, k) && Replaces(updated, ls, k, layer)
    requires |layer| == |ls[k]| >= 1 && layer[|layer| - 1] == ls[k][|ls[k]| - 1]
    requires forall j :: 0 <= j < |layer| ==> layer[j] == ls[k][j].(outputVal := layer[j].outputVal)
    requires FedForwardFrom(layer, ls[k - 1], transfer)
    ensures ForwardPassed(before, updated, inputVals, transfer, k + 1)
  {
    assert ls[k] == before[k];
    ReplaceOutputs(before, ls, k, layer, updated);
    FedForwardStep(ls, k, layer, transfer, updated);
    forall l | 0 <= l < |before| && |before[l]| == |updated[l]| >= 1
      ensures updated[l][|updated[l]| - 1] == before[l][|before[l]| - 1]
    {
      if l != k {
        assert updated[l] == ls[l];
      }
    }
    assert updated[0] == ls[0];
    forall l | k + 1 <= l < |updated|
      ensures updated[l] == before[l]
    {
      assert updated[l] == ls[l];
    }
  }

  /**
   * The backward pass has set the output gradients and the gradients of
   * hidden layers `k + 1` to `|ls| - 2`; layers `0` to `k` are still as
   * they were in `before`.
   */
  ghost predicate HiddenPassed(before: seq<Layer>, ls: seq<Layer>, targetVals: seq<real>, k: nat)
  {
    && OnlyGradientsDiffer(before, ls)
    && 2 <= |ls| && k < |ls| - 1
    && OutputGradientsSet(before, ls, targetVals)
    && (var o := |ls| - 1; 1 <= |ls[o]| && ls[o][|ls[o]| - 1] == before[o][|ls[o]| - 1])
    && (forall l :: k < l < |ls| - 1 ==> HiddenGradientsSet(before, ls, l))
    && (forall l :: 0 <= l <= k ==> ls[l] == before[l])
  }

  /** Storing the output layer with its gradients set from the targets starts the backward pass. */
  lemma OutputStart(before: seq<Layer>, outputLayer: Layer, targetVals: seq<real>, updated: seq<Layer>)
    requires 2 <= |before| && Replaces(updated, before, |before| - 1, outputLayer)
    requires var o := |before| - 1;
      && |outputLayer| == |before[o]| >= 1 && |targetVals| >= |outputLayer| - 1
      && outputLayer[|outputLayer| - 1] == before[o][|before[o]| - 1]
      && forall j :: 0 <= j < |outputLayer| - 1 ==> outputLayer[j] == CalcOutputGradients(before[o][j], targetVals[j])
    ensures HiddenPassed(before, updated, targetVals, |before| - 2)
  {
    var o := |before| - 1;
    UnchangedLayers(before);
    forall j | 0 <= j < |outputLayer|
      ensures outputLayer[j] == before[o][j].(gradient := outputLayer[j].gradient)
    {
      if j < |outputLayer| - 1 {
        assert outputLayer[j] == CalcOutputGradients(before[o][j], targetVals[j]);
      }
    }
    ReplaceGradients(before, before, o, outputLayer, updated);
    forall l | 0 <= l <= |before| - 2
      ensures updated[l] == before[l]
    {
    }
  }

  /** Storing hidden layer `k` with its gradients carried back from layer `k + 1` moves the backward pass one layer down. */
  lemma HiddenStep(before: seq<Layer>, ls: seq<Layer>, targetVals: seq<real>, k: nat, hiddenLayer: Layer, updated: seq<Layer>)
    requires 1 <= k && HiddenPassed(before, ls, targetVals, k) && Replaces(updated, ls, k, hiddenLayer)
    requires |hiddenLayer| == |ls[k]|
    requires forall j :: 0 <= j < |hiddenLayer| ==> hiddenLayer[j] == ls[k][j].(gradient := hiddenLayer[j].gradient)
    requires GradientsCarried(ls[k], hiddenLayer, ls[k + 1])
    ensures HiddenPassed(before, updated, targetVals, k - 1)
  {
    assert ls[k] == before[k];
    ReplaceGradients(before, ls, k, hiddenLayer, updated);
    HiddenGradientsStep(before, ls, k, hiddenLayer, targetVals, updated);
    assert updated[|ls| - 1] == ls[|ls| - 1];
    forall l | 0 <= l <= k - 1
      ensures updated[l] == before[l]
    {
      assert updated[l] == ls[l];
    }
  }

  /**
   * The momentum update has stepped the connections into layers `k + 1`
   * to `|ls| - 1`; layers `0` to `k - 1` are still as they were in `graded`.
   */
  ghost predicate WeightsPassed(graded: seq<Layer>, ls: seq<Layer>, k: nat)
  {
    && OnlyWeightsDiffer(graded, ls)
    && k < |ls|
    && (forall l :: k < l < |ls| ==> InputWeightsUpdated(graded, ls, l))
    && (forall l :: 0 <= l < k ==> ls[l] == graded[l])
  }

  /** Nothing is updated before the momentum update starts at the output layer. */
  lemma WeightsStart(graded: seq<Layer>)
    requires 1 <= |graded|
    ensures WeightsPassed(graded, graded, |graded| - 1)
  {
    UnchangedLayers(graded);
  }

  /** Storing layer `k - 1` with its connections into layer `k` stepped moves the update one layer down. */
  lemma WeightsStep(graded: seq<Layer>, ls: seq<Layer>, k: nat, prevLayer: Layer, updated: seq<Layer>)
    requires 1 <= k && WeightsPassed(graded, ls, k) && Replaces(updated, ls, k - 1, prevLayer)
    requires |prevLayer| == |ls[k - 1]|
    requires forall n :: 0 <= n < |prevLayer| ==>
      prevLayer[n] == ls[k - 1][n].(outputWeights := prevLayer[n].outputWeights)
      && |prevLayer[n].outputWeights| == |ls[k - 1][n].outputWeights|
    requires WeightsStepped(ls[k - 1], prevLayer, ls[k])
    ensures WeightsPassed(graded, updated, k - 1)
  {
    assert ls[k - 1] == graded[k - 1];
    ReplaceWeights(graded, ls, k - 1, prevLayer, updated);
    InputWeightsStep(graded, ls, k, prevLayer, updated);
    forall l | 0 <= l < k - 1
      ensures updated[l] == graded[l]
    {
      assert updated[l] == ls[l];
    }
  }
}
