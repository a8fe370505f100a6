/**
 * Connections, neurons and layers of a layered feed-forward network, and
 * what a single neuron does during a forward or a backward pass.
 *
 * A neuron is a value: a layer stores its neurons by value, and a neuron
 * operation that changes the neuron (or, for the weight update, the
 * previous layer) returns the changed value for the network to store back.
 */
module Neurons {

  /** Learning rate and momentum factor, shared by every neuron. */
  const Eta: real := 0.15
  const Alpha: real := 0.5

  /** One outgoing edge: its weight and the last change applied to it. */
  datatype Connection = Connection(weight: real, deltaWeight: real)

  /**
   * A neuron: its output, its gradient, its position in its own layer and
   * one outgoing connection per non-bias neuron of the next layer, indexed
   * by that neuron's position.
   */
  datatype Neuron = Neuron(outputVal: real, gradient: real, myIndex: nat, outputWeights: seq<Connection>)

  /** Neurons in order; in a network the last one is the bias neuron. */
  type Layer = seq<Neuron>

  /** Every neuron of `layer` has an outgoing connection with index `j`. */
  predicate FeedsColumn(layer: Layer, j: nat)
  {
    forall n :: 0 <= n < |layer| ==> j < |layer[n].outputWeights|
  }

  // ---------------------------------------------------------------- construction

  /**
   * The weight a fresh connection receives from one call of the
   * pseudo-random generator, whose results lie in [0, randMax].
   */
  function RandomWeight(draw: nat, randMax: nat): (w: real)
    requires 0 < randMax && draw <= randMax
    ensures 0.0 <= w <= 1.0
    ensures w == 0.0 <==> draw == 0
    ensures w == 1.0 <==> draw == randMax
  {
    draw as real / randMax as real
  }

  /** `rand(k)` is what the k-th call of the generator returns. */
  ghost predicate DrawsInRange(rand: nat -> nat, randMax: nat)
  {
    0 < randMax && forall k :: rand(k) <= randMax
  }

  /**
   * Builds the neuron at position `myIndex` with `numOutputs` fresh
   * connections; the generator is called once per connection, in order,
   * starting with call number `firstDraw`. The output and the gradient
   * are left as they are found (the source never initialises them).
   */
  method NewNeuron(numOutputs: nat, myIndex: nat, rand: nat -> nat, randMax: nat, firstDraw: nat)
    returns (neuron: Neuron)
    requires DrawsInRange(rand, randMax)
    ensures neuron.myIndex == myIndex
    ensures |neuron.outputWeights| == numOutputs
    ensures forall c :: 0 <= c < numOutputs ==>
      neuron.outputWeights[c] == Connection(RandomWeight(rand(firstDraw + c), randMax), 0.0)
  {
    var conns: seq<Connection> := [];
    for c := 0 to numOutputs
      invariant |conns| == c
      invariant forall i :: 0 <= i < c ==>
        conns[i] == Connection(RandomWeight(rand(firstDraw + i), randMax), 0.0)
    {
      conns := conns + [Connection(0.0, 0.0)];
      conns := conns[c := conns[c].(weight := RandomWeight(rand(firstDraw + c), randMax))];
    }
    var out: real := *;
    var grad: real := *;
    neuron := Neuron(out, grad, myIndex, conns);
  }

  // ---------------------------------------------------------------- forward pass

  /**
   * The weighted input of the neuron at position `j` of the next layer,
   * over the first `k` neurons of `prevLayer`, summed from the front.
   */
  function InputSum(prevLayer: Layer, j: nat, k: nat): (sum: real)
    requires k <= |prevLayer| && FeedsColumn(prevLayer, j)
  {
    if k == 0 then 0.0
    else InputSum(prevLayer, j, k - 1) + prevLayer[k - 1].outputVal * prevLayer[k - 1].outputWeights[j].weight
  }

  /**
   * Recomputes the neuron's output from every neuron of the previous
   * layer, its bias neuron included; nothing but the output changes.
   */
  method FeedForward(neuron: Neuron, prevLayer: Layer, transfer: real -> real) returns (r: Neuron)
    requires FeedsColumn(prevLayer, neuron.myIndex)
    ensures r == neuron.(outputVal := transfer(InputSum(prevLayer, neuron.myIndex, |prevLayer|)))
  {
    var sum := 0.0;
    for n := 0 to |prevLayer|
      invariant sum == InputSum(prevLayer, neuron.myIndex, n)
    {
      sum := sum + prevLayer[n].outputVal * prevLayer[n].outputWeights[neuron.myIndex].weight;
    }
    r := neuron.(outputVal := transfer(sum));
  }

  /**
   * The weighted input of neuron `j` reads only the outputs of the previous
   * layer and the connections with index `j`: two layers that agree there
   * give the same sum.
   */
  lemma {:induction false} InputSumReadsOneColumn(a: Layer, b: Layer, j: nat, k: nat)
    requires k <= |a| && k <= |b| && FeedsColumn(a, j) && FeedsColumn(b, j)
    requires forall n :: 0 <= n < k ==>
      a[n].outputVal == b[n].outputVal && a[n].outputWeights[j].weight == b[n].outputWeights[j].weight
    ensures InputSum(a, j, k) == InputSum(b, j, k)
  {
    if k > 0 {
      InputSumReadsOneColumn(a, b, j, k - 1);
    }
  }

  // ---------------------------------------------------------------- backward pass

  /**
   * Derivative of the hyperbolic tangent written in terms of its output:
   * it is at most 1, positive exactly strictly inside (-1, 1) and zero
   * exactly at the saturated outputs 1 and -1.
   */
  function TransferFunctionDerivative(x: real): (r: real)
    ensures r <= 1.0
    ensures r == 0.0 <==> x == 1.0 || x == -1.0
    ensures r > 0.0 <==> -1.0 < x < 1.0
  {
    SquareFacts(x);
    1.0 - x * x
  }

  lemma SquareFacts(x: real)
    ensures x * x >= 0.0
    ensures x * x != 1.0 || x == 1.0 || x == -1.0
    ensures x * x < 1.0 <==> -1.0 < x < 1.0
  {
    var d := (x - 1.0) * (x + 1.0);
    assert x * x == d + 1.0;
    if x > 1.0 {
      PositiveProduct(x - 1.0, x + 1.0);
    } else if x < -1.0 {
      PositiveProduct(1.0 - x, -1.0 - x);
      assert d == (1.0 - x) * (-1.0 - x);
    } else if -1.0 < x < 1.0 {
      PositiveProduct(1.0 - x, x + 1.0);
      assert d == -((1.0 - x) * (x + 1.0));
    }
    if x > 0.0 {
      PositiveProduct(x, x);
    } else if x < 0.0 {
      PositiveProduct(-x, -x);
      assert x * x == (-x) * (-x);
    }
  }

  lemma PositiveProduct(a: real, b: real)
    requires a > 0.0 && b > 0.0
    ensures a * b > 0.0
  {
  }

  /**
   * Gradient of an output neuron against its target. Only the gradient
   * changes; it is zero exactly when the output already equals the target
   * or is saturated, and for an unsaturated output it is positive exactly
   * when the target lies above the output.
   */
  function CalcOutputGradients(neuron: Neuron, targetVal: real): (r: Neuron)
    ensures r == neuron.(gradient := r.gradient)
    ensures r.gradient == 0.0 <==>
      targetVal == neuron.outputVal || neuron.outputVal == 1.0 || neuron.outputVal == -1.0
    ensures -1.0 < neuron.outputVal < 1.0 ==> (r.gradient > 0.0 <==> targetVal > neuron.outputVal)
  {
    var delta := targetVal - neuron.outputVal;
    var d := TransferFunctionDerivative(neuron.outputVal);
    ProductSign(delta, d);
    neuron.(gradient := delta * d)
  }

  lemma ProductSign(a: real, b: real)
    ensures a * b == 0.0 <==> a == 0.0 || b == 0.0
    ensures b > 0.0 ==> (a * b > 0.0 <==> a > 0.0)
  {
    if a > 0.0 && b > 0.0 {
      assert a * b > 0.0;
    } else if a < 0.0 && b > 0.0 {
      assert a * b < 0.0;
    } else if a != 0.0 && b < 0.0 {
      assert a * b != 0.0;
    }
  }

  /**
   * Σ weights[n].weight * nextLayer[n].gradient over the first `k`
   * positions, summed from the front.
   */
  function Dow(weights: seq<Connection>, nextLayer: Layer, k: nat): (sum: real)
    requires k <= |weights| && k <= |nextLayer|
  {
    if k == 0 then 0.0
    else Dow(weights, nextLayer, k - 1) + weights[k - 1].weight * nextLayer[k - 1].gradient
  }

  /**
   * The sum of the neuron's outgoing weights times the gradients they lead
   * to, over every neuron of the next layer except its last (bias) neuron.
   */
  method SumDOW(neuron: Neuron, nextLayer: Layer) returns (sum: real)
    requires 1 <= |nextLayer| && |nextLayer| - 1 <= |neuron.outputWeights|
    ensures sum == Dow(neuron.outputWeights, nextLayer, |nextLayer| - 1)
  {
    sum := 0.0;
    for n := 0 to |nextLayer| - 1
      invariant sum == Dow(neuron.outputWeights, nextLayer, n)
    {
      sum := sum + neuron.outputWeights[n].weight * nextLayer[n].gradient;
    }
  }

  /**
   * What SumDOW reads: the first `k` weights and the gradients of the
   * first `k` neurons of the next layer, so the next layer's bias neuron
   * (position `k` = size - 1) and any longer weight list never matter.
   */
  lemma {:induction false} DowReadsOnlyPrefix(w1: seq<Connection>, n1: Layer, w2: seq<Connection>, n2: Layer, k: nat)
    requires k <= |w1| && k <= |n1| && k <= |w2| && k <= |n2|
    requires forall n :: 0 <= n < k ==> w1[n].weight == w2[n].weight && n1[n].gradient == n2[n].gradient
    ensures Dow(w1, n1, k) == Dow(w2, n2, k)
  {
    if k > 0 {
      DowReadsOnlyPrefix(w1, n1, w2, n2, k - 1);
    }
  }

  /**
   * Gradient of a hidden neuron from the gradients of the next layer,
   * carried back along the neuron's own outgoing weights; only the
   * gradient changes.
   */
  method CalcHiddenGradients(neuron: Neuron, nextLayer: Layer) returns (r: Neuron)
    requires 1 <= |nextLayer| && |nextLayer| - 1 <= |neuron.outputWeights|
    ensures r == neuron.(gradient := Dow(neuron.outputWeights, nextLayer, |nextLayer| - 1)
                                      * TransferFunctionDerivative(neuron.outputVal))
  {
    var dow := SumDOW(neuron, nextLayer);
    r := neuron.(gradient := dow * TransferFunctionDerivative(neuron.outputVal));
  }

  // ---------------------------------------------------------------- weight update

  /**
   * One momentum step on a connection whose source neuron has output
   * `sourceOut` and whose target neuron has gradient `gradient`.
   */
  function MomentumStep(c: Connection, sourceOut: real, gradient: real): (r: Connection)
    ensures r.weight - c.weight == r.deltaWeight
    ensures r.deltaWeight - Alpha * c.deltaWeight == Eta * sourceOut * gradient
  {
    var newDelta := Eta * sourceOut * gradient + Alpha * c.deltaWeight;
    Connection(c.weight + newDelta, newDelta)
  }

  /**
   * The source neuron after the target neuron at position `j` has applied
   * its update: connection `j` takes one momentum step, and nothing else
   * about the neuron changes.
   */
  function StepColumn(source: Neuron, j: nat, gradient: real): (r: Neuron)
    requires j < |source.outputWeights|
    ensures r.outputVal == source.outputVal && r.gradient == source.gradient && r.myIndex == source.myIndex
    ensures |r.outputWeights| == |source.outputWeights|
    ensures r.outputWeights[j] == MomentumStep(source.outputWeights[j], source.outputVal, gradient)
    ensures forall c :: 0 <= c < |source.outputWeights| && c != j ==> r.outputWeights[c] == source.outputWeights[c]
  {
    var w := source.outputWeights;
    source.(outputWeights := w[j := MomentumStep(w[j], source.outputVal, gradient)])
  }

  /**
   * The neuron's update of its incoming weights: every neuron of the
   * previous layer, bias included, steps its connection `myIndex` with
   * this neuron's gradient. Returns the updated previous layer.
   */
  method UpdateInputWeights(neuron: Neuron, prevLayer: Layer) returns (newPrev: Layer)
    requires FeedsColumn(prevLayer, neuron.myIndex)
    ensures |newPrev| == |prevLayer|
    ensures forall n :: 0 <= n < |prevLayer| ==> newPrev[n] == StepColumn(prevLayer[n], neuron.myIndex, neuron.gradient)
  {
    newPrev := prevLayer;
    for n := 0 to |prevLayer|
      invariant |newPrev| == |prevLayer|
      invariant forall i :: 0 <= i < n ==> newPrev[i] == StepColumn(prevLayer[i], neuron.myIndex, neuron.gradient)
      invariant forall i :: n <= i < |prevLayer| ==> newPrev[i] == prevLayer[i]
    {
      var source := newPrev[n];
      var conn := source.outputWeights[neuron.myIndex];
      var oldDeltaWeight := conn.deltaWeight;
      var newDeltaWeight := Eta * source.outputVal * neuron.gradient + Alpha * oldDeltaWeight;
      conn := conn.(deltaWeight := newDeltaWeight);
      conn := conn.(weight := conn.weight + newDeltaWeight);
      assert conn == MomentumStep(prevLayer[n].outputWeights[neuron.myIndex], source.outputVal, neuron.gradient);
      newPrev := newPrev[n := source.(outputWeights := source.outputWeights[neuron.myIndex := conn])];
      assert newPrev[n] == StepColumn(prevLayer[n], neuron.myIndex, neuron.gradient);
    }
  }

  // ---------------------------------------------------------------- momentum over time

  /**
   * A connection after a history of updates, oldest first; each entry is
   * the source neuron's output and the target neuron's gradient.
   */
  function Trained(c: Connection, history: seq<(real, real)>): (r: Connection)
  {
    if history == [] then c
    else
      var last := history[|history| - 1];
      MomentumStep(Trained(c, history[..|history| - 1]), last.0, last.1)
  }

  function Pow(a: real, n: nat): (p: real)
  {
    if n == 0 then 1.0 else a * Pow(a, n - 1)
  }

  /**
   * Σ Alpha^(|history|-1-i) * Eta * out_i * gradient_i: the plain gradient
   * steps of the history, each discounted once per later update.
   */
  function Discounted(history: seq<(real, real)>): (sum: real)
  {
    if history == [] then 0.0
    else Pow(Alpha, |history| - 1) * (Eta * history[0].0 * history[0].1) + Discounted(history[1..])
  }

  lemma {:induction false} DiscountedAppend(history: seq<(real, real)>, x: (real, real))
    ensures Discounted(history + [x]) == Alpha * Discounted(history) + Eta * x.0 * x.1
  {
    if history == [] {
      assert [x][1..] == [];
    } else {
      assert (history + [x])[1..] == history[1..] + [x];
      DiscountedAppend(history[1..], x);
      var p := Pow(Alpha, |history| - 1);
      assert Pow(Alpha, |history|) == Alpha * p;
    }
  }

  /**
   * Closed form of the momentum rule: after any history of updates the
   * last change of a connection is its initial change discounted by
   * Alpha per update, plus the discounted sum of the history's gradient
   * steps. From a fresh connection (change 0) only the sum remains.
   */
  lemma {:induction false} MomentumClosedForm(c: Connection, history: seq<(real, real)>)
    ensures Trained(c, history).deltaWeight == Pow(Alpha, |history|) * c.deltaWeight + Discounted(history)
  {
    if history != [] {
      var front := history[..|history| - 1];
      var last := history[|history| - 1];
      MomentumClosedForm(c, front);
      DiscountedAppend(front, last);
      assert front + [last] == history;
    }
  }

  /**
   * The weight of a connection after a history of updates is its initial
   * weight plus the change recorded after each update.
   */
  function AppliedChanges(c: Connection, history: seq<(real, real)>): (sum: real)
  {
    if history == [] then 0.0
    else AppliedChanges(c, history[..|history| - 1]) + Trained(c, history).deltaWeight
  }

  lemma {:induction false} WeightAccumulatesChanges(c: Connection, history: seq<(real, real)>)
    ensures Trained(c, history).weight == c.weight + AppliedChanges(c, history)
  {
    if history != [] {
      WeightAccumulatesChanges(c, history[..|history| - 1]);
    }
  }
}
