/**
 * The network: layers of neurons built from a topology, the forward pass,
 * and the backward pass that computes every gradient before it changes
 * any weight.
 */
module Network {
  import opened Neurons
  import opened Layers

  /**
   * How many times the constructor has called the generator before it
   * builds layer `l`: once per connection of every earlier layer.
   */
  function DrawsBefore(topology: seq<nat>, l: nat): (n: nat)
    requires l <= |topology|
  {
    if l == 0 then 0
    else DrawsBefore(topology, l - 1) + (topology[l - 1] + 1) * NumOutputs(topology, l - 1)
  }

  /** The number of the generator call that produces connection `c` of neuron `j` of layer `l`. */
  function DrawIndex(topology: seq<nat>, l: nat, j: nat, c: nat): (k: nat)
    requires l < |topology|
  {
    DrawsBefore(topology, l) + j * NumOutputs(topology, l) + c
  }

  /**
   * `built` holds the first layers the constructor builds from `topology`:
   * their shape, and every connection's weight from the generator call
   * that produced it.
   */
  ghost predicate BuiltFrom(built: seq<Layer>, topology: seq<nat>, rand: nat -> nat, randMax: nat)
  {
    && |built| <= |topology|
    && (forall l :: 0 <= l < |built| ==> |built[l]| == topology[l] + 1 && FreshLayer(built[l]))
    && (forall l, j :: 0 <= l < |built| && 0 <= j < |built[l]| ==>
          built[l][j].myIndex == j && |built[l][j].outputWeights| == NumOutputs(topology, l))
    && (forall l, j, c :: 0 <= l < |built| && 0 <= j < |built[l]| && 0 <= c < |built[l][j].outputWeights| ==>
          0 < randMax && rand(DrawIndex(topology, l, j, c)) <= randMax &&
          built[l][j].outputWeights[c] == Connection(RandomWeight(rand(DrawIndex(topology, l, j, c)), randMax), 0.0))
  }

  /** Appending the next layer, built from the generator calls that follow, keeps the layers built so far. */
  lemma BuildStep(built: seq<Layer>, topology: seq<nat>, rand: nat -> nat, randMax: nat, layer: Layer)
    requires BuiltFrom(built, topology, rand, randMax) && |built| < |topology| && DrawsInRange(rand, randMax)
    requires |layer| == topology[|built|] + 1 && FreshLayer(layer)
    requires forall j :: 0 <= j < |layer| ==>
      layer[j].myIndex == j && |layer[j].outputWeights| == NumOutputs(topology, |built|)
    requires forall j, c :: 0 <= j < |layer| && 0 <= c < NumOutputs(topology, |built|) ==>
      layer[j].outputWeights[c] == Connection(RandomWeight(rand(DrawIndex(topology, |built|, j, c)), randMax), 0.0)
    ensures BuiltFrom(built + [layer], topology, rand, randMax)
  {
    var next: seq<Layer> := built + [layer];
    forall l | 0 <= l < |next|
      ensures |next[l]| == topology[l] + 1 && FreshLayer(next[l])
    {
      if l < |built| {
        assert next[l] == built[l];
      }
    }
    forall l, j | 0 <= l < |next| && 0 <= j < |next[l]|
      ensures next[l][j].myIndex == j && |next[l][j].outputWeights| == NumOutputs(topology, l)
    {
      if l < |built| {
        assert next[l] == built[l];
      }
    }
    forall l, j, c | 0 <= l < |next| && 0 <= j < |next[l]| && 0 <= c < |next[l][j].outputWeights|
      ensures 0 < randMax && rand(DrawIndex(topology, l, j, c)) <= randMax
      ensures next[l][j].outputWeights[c] == Connection(RandomWeight(rand(DrawIndex(topology, l, j, c)), randMax), 0.0)
    {
      if l < |built| {
        assert next[l] == built[l];
      } else {
        assert next[l] == layer;
      }
    }
  }

  class Net {
    var layers: seq<Layer>
    /** The topology the network was built from; the network itself does not keep it. */
    ghost var topology: seq<nat>
    /** The transfer function every neuron applies to its weighted input, fixed for the network's lifetime. */
    const transfer: real -> real

    ghost predicate Valid()
      reads this
    {
      Shaped(layers, topology)
    }

    /**
     * Builds one layer per topology entry, each with its configured
     * neurons plus a bias neuron. Every connection starts with no recorded
     * change and a weight drawn from the generator, `rand(k)` being what
     * the k-th call this constructor makes returns.
     */
    constructor (topology: seq<nat>, transfer: real -> real, rand: nat -> nat, randMax: nat)
      requires DrawsInRange(rand, randMax)
      ensures Valid() && this.topology == topology && this.transfer == transfer
      ensures forall l, j, c :: 0 <= l < |layers| && 0 <= j < |layers[l]| && 0 <= c < |layers[l][j].outputWeights| ==>
        layers[l][j].outputWeights[c] == Connection(RandomWeight(rand(DrawIndex(topology, l, j, c)), randMax), 0.0)
      ensures forall l :: 0 <= l < |layers| ==> FreshLayer(layers[l])
    {
      var built: seq<Layer> := [];
      var draws := 0;
      var layerNum := 0;
      while layerNum < |topology|
        invariant layerNum <= |topology| && |built| == layerNum && draws == DrawsBefore(topology, layerNum)
        invariant BuiltFrom(built, topology, rand, randMax)
      {
        var numOutputs := if layerNum == |topology| - 1 then 0 else topology[layerNum + 1];
        var layer := NewLayer(topology[layerNum] + 1, numOutputs, rand, randMax, draws);
        BuildStep(built, topology, rand, randMax, layer);
        draws := draws + (topology[layerNum] + 1) * numOutputs;
        built := built + [layer];
        layerNum := layerNum + 1;
      }
      layers := built;
      this.topology := topology;
      this.transfer := transfer;
    }

    /**
     * The forward pass: the inputs become the outputs of the input layer's
     * non-bias neurons, then every later layer's non-bias neurons are
     * recomputed from the layer before, first layer first. Bias neurons,
     * weights and gradients are left as they are.
     */
    method FeedForward(inputVals: seq<real>)
      requires Valid() && |layers| >= 1
      requires |inputVals| == |layers[0]| - 1
      modifies this`layers
      ensures Valid()
      ensures OnlyOutputsDiffer(old(layers), layers)
      ensures forall i :: 0 <= i < |inputVals| ==> layers[0][i].outputVal == inputVals[i]
      ensures BiasKept(old(layers), layers)
      ensures forall l :: 1 <= l < |layers| ==> LayerFedForward(layers, l, transfer)
    {
      var ls := layers;
      ghost var before: seq<Layer> := ls;
      assert |ls[0]| == topology[0] + 1;
      var input := SetInputs(ls[0], inputVals);
      ForwardStart(before, input, inputVals, transfer, ls[0 := input]);
      ls := ls[0 := input];

      for layerNum := 1 to |ls|
        invariant ForwardPassed(before, ls, inputVals, transfer, layerNum)
      {
        OutputsDifferShaped(before, ls, topology);
        ShapedFedBy(ls, topology, layerNum);
        var layer := FeedLayerForward(ls[layerNum], ls[layerNum - 1], transfer);
        ForwardStep(before, ls, inputVals, transfer, layerNum, layer, ls[layerNum := layer]);
        ls := ls[layerNum := layer];
      }
      OutputsDifferShaped(before, ls, topology);
      layers := ls;
    }

    /**
     * The backward pass: the output neurons' gradients from the targets,
     * then the hidden layers' gradients from the last hidden layer back to
     * the first, and only then the momentum update, each non-bias neuron
     * of layers `|layers| - 1` down to 1 updating its own connection index
     * in the layer before. Outputs never change, the input layer's
     * gradients are never written, and every hidden gradient is computed
     * from the weights as they were before the call.
     */
    method BackProp(targetVals: seq<real>)
      requires Valid() && |layers| >= 2
      requires |targetVals| >= |layers[|layers| - 1]| - 1
      modifies this`layers
      ensures Valid()
      ensures forall l, j :: 0 <= l < |layers| && 0 <= j < |layers[l]| ==>
        layers[l][j].outputVal == old(layers)[l][j].outputVal
      ensures OutputGradientsSet(old(layers), layers, targetVals)
      ensures var o := |layers| - 1; layers[o][|layers[o]| - 1].gradient == old(layers)[o][|layers[o]| - 1].gradient
      ensures forall l :: 1 <= l < |layers| - 1 ==> HiddenGradientsSet(old(layers), layers, l)
      ensures forall j :: 0 <= j < |layers[0]| ==> layers[0][j].gradient == old(layers)[0][j].gradient
      ensures forall l :: 1 <= l < |layers| ==> InputWeightsUpdated(old(layers), layers, l)
    {
      var ls := layers;
      ghost var before: seq<Layer> := ls;
      var last := |ls| - 1;

      // output layer gradients
      assert |ls[last]| == topology[last] + 1;
      var outputLayer := CalcLayerOutputGradients(ls[last], targetVals);
      OutputStart(before, outputLayer, targetVals, ls[last := outputLayer]);
      ls := ls[last := outputLayer];

      // hidden layer gradients, last hidden layer first
      var layerNum := last - 1;
      while layerNum > 0
        invariant 0 <= layerNum && HiddenPassed(before, ls, targetVals, layerNum)
      {
        GradientsDifferShaped(before, ls, topology);
        ShapedConnectsTo(ls, topology, layerNum);
        var hiddenLayer := CalcLayerHiddenGradients(ls[layerNum], ls[layerNum + 1]);
        HiddenStep(before, ls, targetVals, layerNum, hiddenLayer, ls[layerNum := hiddenLayer]);
        ls := ls[layerNum := hiddenLayer];
        layerNum := layerNum - 1;
      }

      // momentum update of every connection, output layer first
      ghost var graded: seq<Layer> := ls;
      GradientsDifferShaped(before, ls, topology);
      WeightsStart(graded);
      layerNum := last;
      while layerNum > 0
        invariant 0 <= layerNum && WeightsPassed(graded, ls, layerNum)
      {
        WeightsDifferShaped(graded, ls, topology);
        ShapedFedBy(ls, topology, layerNum);
        var prevLayer := UpdateLayerInputWeights(ls[layerNum], ls[layerNum - 1]);
        WeightsStep(graded, ls, layerNum, prevLayer, ls[layerNum - 1 := prevLayer]);
        ls := ls[layerNum - 1 := prevLayer];
        layerNum := layerNum - 1;
      }
      WeightsDifferShaped(graded, ls, topology);
      BackPropOutcome(before, graded, ls, targetVals);
      layers := ls;
    }

    /** The outputs of the output layer's non-bias neurons, in order. */
    method GetResults() returns (resultVals: seq<real>)
      requires Valid() && |layers| >= 1
      ensures |resultVals| == |layers[|layers| - 1]| - 1
      ensures forall n :: 0 <= n < |resultVals| ==> resultVals[n] == layers[|layers| - 1][n].outputVal
    {
      resultVals := [];
      var outputLayer := layers[|layers| - 1];
      assert |outputLayer| == topology[|layers| - 1] + 1;
      for n := 0 to |outputLayer| - 1
        invariant |resultVals| == n
        invariant forall k :: 0 <= k < n ==> resultVals[k] == outputLayer[k].outputVal
      {
        resultVals := resultVals + [outputLayer[n].outputVal];
      }
    }
  }
}
