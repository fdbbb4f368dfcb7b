# Dense layer forward pass

This project models the one computation in the repository: the forward pass of
a single fully-connected ("dense") neural-network layer, written as a
top-level script in `p1.py`. Each neuron takes the dot product of the input
vector with its own weight row and adds its own bias. The layer's output holds
one value per neuron, in neuron order. The script also has a commented-out
variant for a single neuron.

Everything is in one module, `DenseLayer` (`dense_layer.dfy`):

- `Dot(inputs, row)` is the generator sum `sum(inputs[j] * row[j] for j in range(len(inputs)))`.
  It is a left fold from zero over the first `|inputs|` entries of `row`, in the
  order Python's `sum` adds the terms.
- `Neuron(inputs, row, bias)` is that sum plus the bias. This is the
  single-neuron expression (p1.py:7) and the body of the loop (p1.py:22).
- `WellShaped` states what the script needs so that no index is out of range.
  There must be at least one bias per weight row, and every weight row must be
  at least as long as the inputs.
- `Layer` is the specification of the whole output vector. It is built neuron
  by neuron, and its contract describes it entry by entry.
- `Forward` is the script's `for` loop (p1.py:20-24). It grows `outputs` one
  `append` at a time and is proved equal to `Layer`.

The values are exact `real` numbers, not floating point. The hardcoded lists of
the script become parameters. The script's own data is proved by two concrete
lemmas.

## Model

| member | source | states |
|---|---|---|
| DenseLayer.Dot | p1.py:22 | the generator sum over `j in range(len(inputs))` of `inputs[j]*row[j]`, a left fold from 0 in the order Python's `sum` adds the terms; defined only when the row is at least as long as the inputs |
| DenseLayer.Neuron | p1.py:7 | the single-neuron value: that sum plus the bias |
| DenseLayer.WellShaped | p1.py:21-22 | the exact condition under which the loop indexes without an out-of-range error: at least one bias per weight row, and every weight row at least as long as the inputs |
| DenseLayer.Layer | p1.py:20-24 | the output has exactly one entry per weight row, whatever the input length, and entry `i` is the dot product of the inputs with row `i` plus `biases[i]` |
| DenseLayer.Forward | p1.py:20-24 | the loop that appends one neuron value per iteration returns a list of length `len(weights)` whose entry `i` is `sum(inputs[j]*weights[i][j]) + biases[i]`, equal to the `Layer` specification; its invariant says that after `i` iterations `outputs` holds exactly the first `i` neuron values |
| DenseLayer.LayerPrefix | p1.py:21-24 | the outputs of the first `k` neurons alone are exactly the first `k` entries of the full output, so outputs come in neuron order and each neuron is independent of the later ones |
| DenseLayer.DotIgnoresRowTail | p1.py:22 | weight-row entries past the length of the inputs never affect a neuron's sum, because the index only ranges over `range(len(inputs))` |
| DenseLayer.LayerIgnoresBiasTail | p1.py:21-22 | biases past the number of weight rows are never read and do not change the output |
| DenseLayer.DotZeroRow | p1.py:22 | a weight row that is zero on its first `len(inputs)` entries (the only ones p1.py:22 reads) gives a dot product of zero for any inputs |
| DenseLayer.ZeroRowGivesBias | p1.py:22 | a neuron whose weight row is zero on its first `len(inputs)` entries outputs exactly its bias |
| DenseLayer.ZeroLayer | p1.py:20-24 | weights that are zero wherever they are read, with zero biases for every neuron, give an all-zero output with one entry per neuron |
| DenseLayer.SingleNeuronIsFirstOutput | p1.py:7 | the single-neuron expression applied to weight row 0 and bias 0 equals the first output of the multi-neuron loop |
| DenseLayer.SingleNeuronLayer | p1.py:7 | a layer with one weight row and one bias outputs the single-neuron value alone |
| DenseLayer.SingleNeuronExample | p1.py:3-7 | for inputs `[1.0, 2.0, 3.0, 2.5]`, weights `[0.2, 0.8, -0.5, 1.0]` and bias `2.0`, the single neuron outputs exactly `4.8` |
| DenseLayer.ThreeNeuronExample | p1.py:12-24 | for the script's three-neuron data the output is exactly `[4.8, 1.21, 2.385]` |

`DotOfFour` is a helper: it writes a four-term dot product out term by term for
the two concrete lemmas.

## Left out

- The `print` calls (p1.py:8, p1.py:26) are output I/O. The model returns the
  result instead.
- IEEE-754 floating-point rounding is not modelled. The values are exact reals,
  so the concrete results are exact, with no tolerance.
- The script's top-level globals (`inputs`, `weights`, `biases`, `outputs`)
  become parameters and a return value. The inputs are immutable `seq` values,
  so the computation only reads its inputs, by construction, and needs no
  separate contract.
- There is no dimension-mismatch error. The script has no dimension check
  (p1.py:21-22 just index): it fails only when an index is out of range, and it
  silently accepts weight rows longer than the inputs and extra biases. The
  model follows the script and adds no typed mismatch error. The condition for indexing
  without error is the `WellShaped` precondition, and `DotIgnoresRowTail` and
  `LayerIgnoresBiasTail` show that the extra entries are ignored.
- Determinism and idempotence hold by construction: `Layer` is a mathematical
  function, and `Forward` is proved equal to it.
