/**
 The forward pass of one dense (fully-connected) layer: every neuron takes the
 dot product of the input vector with its own weight row and adds its bias.

 Numbers are exact reals. The sums are left folds starting from zero, in the
 order Python's `sum` adds the terms of a generator.
 */
module DenseLayer {

  /** Dot product of `inputs` with the first |inputs| entries of `row`,
      summed left to right: ((0 + x0*w0) + x1*w1) + ... */
  function Dot(inputs: seq<real>, row: seq<real>): real
    requires |inputs| <= |row|
    decreases |inputs|
  {
    if |inputs| == 0 then 0.0
    else Dot(inputs[..|inputs| - 1], row) + inputs[|inputs| - 1] * row[|inputs| - 1]
  }

  /** One neuron: dot product of the inputs with its weight row, plus its bias. */
  function Neuron(inputs: seq<real>, row: seq<real>, bias: real): real
    requires |inputs| <= |row|
  {
    Dot(inputs, row) + bias
  }

  /** What the script needs to index without error: one bias per neuron at
      least, and every weight row at least as long as the inputs. */
  predicate WellShaped(inputs: seq<real>, weights: seq<seq<real>>, biases: seq<real>)
  {
    && |weights| <= |biases|
    && forall i :: 0 <= i < |weights| ==> |inputs| <= |weights[i]|
  }

  /** The layer's output vector, built neuron by neuron as the script's list
      grows, and characterised pointwise in the ensures. */
  function Layer(inputs: seq<real>, weights: seq<seq<real>>, biases: seq<real>): (r: seq<real>)
    requires WellShaped(inputs, weights, biases)
    ensures |r| == |weights|
    ensures forall i :: 0 <= i < |weights| ==> r[i] == Dot(inputs, weights[i]) + biases[i]
    decreases |weights|
  {
    if |weights| == 0 then []
    else
      var n := |weights| - 1;
      Layer(inputs, weights[..n], biases) + [Neuron(inputs, weights[n], biases[n])]
  }

  /** The loop of the script: for each neuron in order, compute its value and
      append it to `outputs`. */
  method Forward(inputs: seq<real>, weights: seq<seq<real>>, biases: seq<real>)
    returns (outputs: seq<real>)
    requires WellShaped(inputs, weights, biases)
    ensures |outputs| == |weights|
    ensures forall i :: 0 <= i < |weights| ==> outputs[i] == Dot(inputs, weights[i]) + biases[i]
    ensures outputs == Layer(inputs, weights, biases)
  {
    outputs := [];
    var i := 0;
    while i < |weights|
      invariant 0 <= i <= |weights|
      invariant |outputs| == i
      invariant outputs == Layer(inputs, weights[..i], biases)
    {
      var res := Neuron(inputs, weights[i], biases[i]);
      assert weights[..i + 1][..i] == weights[..i];
      outputs := outputs + [res];
      i := i + 1;
    }
    assert weights[..i] == weights;
  }

  /** After k neurons, the partial output is exactly the first k entries of
      the full layer: outputs come in neuron order. */
  lemma LayerPrefix(inputs: seq<real>, weights: seq<seq<real>>, biases: seq<real>, k: nat)
    requires WellShaped(inputs, weights, biases)
    requires k <= |weights|
    ensures Layer(inputs, weights[..k], biases) == Layer(inputs, weights, biases)[..k]
  {
  }

  /** Entries of a weight row past the length of the inputs are never read. */
  lemma {:induction false} DotIgnoresRowTail(inputs: seq<real>, row: seq<real>, extra: seq<real>)
    requires |inputs| <= |row|
    ensures Dot(inputs, row + extra) == Dot(inputs, row)
    decreases |inputs|
  {
    if |inputs| > 0 {
      DotIgnoresRowTail(inputs[..|inputs| - 1], row, extra);
    }
  }

  /** Biases past the number of neurons are never read. */
  lemma LayerIgnoresBiasTail(inputs: seq<real>, weights: seq<seq<real>>, biases: seq<real>, extra: seq<real>)
    requires WellShaped(inputs, weights, biases)
    ensures WellShaped(inputs, weights, biases + extra)
    ensures Layer(inputs, weights, biases + extra) == Layer(inputs, weights, biases)
  {
  }

  /** The first |inputs| entries of `row`, the only ones a neuron reads,
      are zero; entries past them may be anything. */
  predicate ZeroWhereRead(inputs: seq<real>, row: seq<real>)
    requires |inputs| <= |row|
  {
    forall j :: 0 <= j < |inputs| ==> row[j] == 0.0
  }

  /** A weight row that is zero wherever it is read contributes nothing. */
  lemma {:induction false} DotZeroRow(inputs: seq<real>, row: seq<real>)
    requires |inputs| <= |row|
    requires ZeroWhereRead(inputs, row)
    ensures Dot(inputs, row) == 0.0
    decreases |inputs|
  {
    if |inputs| > 0 {
      DotZeroRow(inputs[..|inputs| - 1], row);
    }
  }

  /** A neuron whose weight row is zero on the first |inputs| entries
      outputs its bias. */
  lemma ZeroRowGivesBias(inputs: seq<real>, weights: seq<seq<real>>, biases: seq<real>, i: nat)
    requires WellShaped(inputs, weights, biases)
    requires i < |weights|
    requires ZeroWhereRead(inputs, weights[i])
    ensures Layer(inputs, weights, biases)[i] == biases[i]
  {
    DotZeroRow(inputs, weights[i]);
  }

  /** Weights and biases that are zero wherever they are read produce an
      all-zero output, one entry per neuron, whatever the inputs. */
  lemma ZeroLayer(inputs: seq<real>, weights: seq<seq<real>>, biases: seq<real>)
    requires WellShaped(inputs, weights, biases)
    requires forall i :: 0 <= i < |weights| ==> ZeroWhereRead(inputs, weights[i])
    requires forall i :: 0 <= i < |weights| ==> biases[i] == 0.0
    ensures Layer(inputs, weights, biases) == seq(|weights|, _ => 0.0)
  {
    var r := Layer(inputs, weights, biases);
    forall i | 0 <= i < |weights| ensures r[i] == 0.0 {
      DotZeroRow(inputs, weights[i]);
    }
  }

  /** The single-neuron expression on row 0 and bias 0 is the first output of
      the multi-neuron layer. */
  lemma SingleNeuronIsFirstOutput(inputs: seq<real>, weights: seq<seq<real>>, biases: seq<real>)
    requires WellShaped(inputs, weights, biases)
    requires 0 < |weights|
    ensures Neuron(inputs, weights[0], biases[0]) == Layer(inputs, weights, biases)[0]
  {
  }

  /** A layer of one neuron is that neuron alone. */
  lemma SingleNeuronLayer(inputs: seq<real>, row: seq<real>, bias: real)
    requires |inputs| <= |row|
    ensures WellShaped(inputs, [row], [bias])
    ensures Layer(inputs, [row], [bias]) == [Neuron(inputs, row, bias)]
  {
  }

  /** A dot product over four inputs written out term by term. */
  lemma DotOfFour(x: seq<real>, w: seq<real>)
    requires |x| == 4 && 4 <= |w|
    ensures Dot(x, w) == x[0] * w[0] + x[1] * w[1] + x[2] * w[2] + x[3] * w[3]
  {
    assert x[..3][..2][..1][..0] == [];
    assert x[..3][..2][..1] == x[..1];
    assert x[..3][..2] == x[..2];
    assert Dot(x[..1], w) == x[0] * w[0];
    assert Dot(x[..2], w) == x[0] * w[0] + x[1] * w[1];
    assert Dot(x[..3], w) == x[0] * w[0] + x[1] * w[1] + x[2] * w[2];
  }

  /** The single-neuron data of the script: 4 inputs, one neuron. */
  lemma SingleNeuronExample()
    ensures Neuron([1.0, 2.0, 3.0, 2.5], [0.2, 0.8, -0.5, 1.0], 2.0) == 4.8
  {
    DotOfFour([1.0, 2.0, 3.0, 2.5], [0.2, 0.8, -0.5, 1.0]);
  }

  /** The three-neuron data of the script: 4 inputs, 3 neurons. */
  lemma ThreeNeuronExample()
    ensures Layer([1.0, 2.0, 3.0, 2.5],
                  [[0.2, 0.8, -0.5, 1.0], [0.5, -0.91, 0.26, -0.5], [-0.26, -0.27, 0.17, 0.87]],
                  [2.0, 3.0, 0.5])
            == [4.8, 1.21, 2.385]
  {
    var x := [1.0, 2.0, 3.0, 2.5];
    var w := [[0.2, 0.8, -0.5, 1.0], [0.5, -0.91, 0.26, -0.5], [-0.26, -0.27, 0.17, 0.87]];
    var b := [2.0, 3.0, 0.5];
    assert WellShaped(x, w, b);
    DotOfFour(x, w[0]);
    DotOfFour(x, w[1]);
    DotOfFour(x, w[2]);
  }
}
