/**
 * The fixed three-layer network of game.js (class NeuralNetwork):
 * `weights_ih` is hidden by input, `weights_ho` output by hidden, and the
 * two biases are column vectors. The network is kept as a value; `predict`
 * returns the network with its activation cache filled in beside the output.
 * The activation function `sigmoid` is a parameter: its body (`Math.exp`)
 * is not part of this model.
 */
module Networks {
  import opened Options
  import opened Draws
  import opened Matrices

  datatype Network = Network(
    inputNodes: nat,
    hiddenNodes: nat,
    outputNodes: nat,
    weightsIH: Mat,
    weightsHO: Mat,
    biasH: Mat,
    biasO: Mat,
    hiddenActivations: Option<Mat>,
    outputActivations: Option<Mat>)
  {
    /** The four matrices have the shapes the topology fixes at construction. */
    predicate Valid()
    {
      && weightsIH.Valid() && weightsIH.rows == hiddenNodes && weightsIH.cols == inputNodes
      && weightsHO.Valid() && weightsHO.rows == outputNodes && weightsHO.cols == hiddenNodes
      && biasH.Valid() && biasH.rows == hiddenNodes && biasH.cols == 1
      && biasO.Valid() && biasO.rows == outputNodes && biasO.cols == 1
    }

    /** Same topology and same weights and biases; the activation cache may differ. */
    predicate SameWeights(other: Network)
    {
      && inputNodes == other.inputNodes && hiddenNodes == other.hiddenNodes && outputNodes == other.outputNodes
      && weightsIH == other.weightsIH && weightsHO == other.weightsHO
      && biasH == other.biasH && biasO == other.biasO
    }
  }

  /** Number of `Math.random()` calls `new NeuralNetwork(i, h, o)` makes: one per weight and bias. */
  function InitDraws(inputNodes: nat, hiddenNodes: nat, outputNodes: nat): nat
  {
    hiddenNodes * inputNodes + outputNodes * hiddenNodes + hiddenNodes + outputNodes
  }

  predicate InRange(m: Mat, lo: real, hi: real)
    requires m.Valid()
  {
    forall i, j :: 0 <= i < m.rows && 0 <= j < m.cols ==> lo <= m.data[i][j] < hi
  }

  /**
   * `new NeuralNetwork(i, h, o)`: the four matrices randomized in the order
   * weights_ih, weights_ho, bias_h, bias_o, from draw `k` on; no activations yet.
   */
  function NewNetwork(inputNodes: nat, hiddenNodes: nat, outputNodes: nat, rng: nat -> real, k: nat): (net: Network)
    requires Uniform(rng)
    ensures net.Valid()
    ensures net.inputNodes == inputNodes && net.hiddenNodes == hiddenNodes && net.outputNodes == outputNodes
    ensures net.hiddenActivations.None? && net.outputActivations.None?
    ensures InRange(net.weightsIH, -1.0, 0.4) && InRange(net.weightsHO, -1.0, 0.4)
    ensures InRange(net.biasH, -1.0, 0.4) && InRange(net.biasO, -1.0, 0.4)
  {
    var k1 := k + hiddenNodes * inputNodes;
    var k2 := k1 + outputNodes * hiddenNodes;
    var k3 := k2 + hiddenNodes;
    Network(inputNodes, hiddenNodes, outputNodes,
      RandomFill(hiddenNodes, inputNodes, rng, k),
      RandomFill(outputNodes, hiddenNodes, rng, k1),
      RandomFill(hiddenNodes, 1, rng, k2),
      RandomFill(outputNodes, 1, rng, k3),
      None, None)
  }

  // ----------------------------------------------------------------- predict

  /** One layer as a formula: unit i outputs sigmoid(row i of `w` dotted with `x`, plus bias i). */
  function Layer(w: Mat, b: Mat, x: seq<real>, sigmoid: real -> real): (y: seq<real>)
    requires w.Valid() && b.Valid() && b.rows == w.rows && b.cols == 1 && |x| == w.cols
    ensures |y| == w.rows
  {
    seq(w.rows, i requires 0 <= i < w.rows => sigmoid(Dot(w.data[i], x) + b.data[i][0]))
  }

  datatype Prediction = Prediction(net: Network, output: seq<real>)

  /**
   * `predict(inputArray)`: `fromArray`, `multiply`, `add` of the bias and
   * `map(sigmoid)`, twice; the hidden and output matrices are cached in the
   * network. With an input of the wrong length `multiply` yields undefined
   * and the following `add` throws: None.
   */
  function Predict(net: Network, x: seq<real>, sigmoid: real -> real): (r: Option<Prediction>)
    requires net.Valid()
    ensures r.Some? <==> |x| == net.inputNodes
    ensures r.Some? ==> r.value.net.Valid() && r.value.net.SameWeights(net)
  {
    var inputs := FromArray(x);
    match Multiply(net.weightsIH, inputs)
    case None => None
    case Some(h) =>
      var hidden := MapEntries(Plus(h, net.biasH), sigmoid);
      var output := MapEntries(Plus(Multiply(net.weightsHO, hidden).value, net.biasO), sigmoid);
      Some(Prediction(net.(hiddenActivations := Some(hidden), outputActivations := Some(output)), ToArray(output)))
  }

  /** A one-column matrix flattens to its column. */
  lemma ToArrayOfColumn(m: Mat)
    requires m.Valid() && m.cols == 1
    ensures ToArray(m) == Column(m, 0)
  {
    var c := Column(m, 0);
    forall i | 0 <= i < |m.data| ensures m.data[i] == [c[i]] {
      assert |m.data[i]| == 1;
    }
    FlattenSingletons(m.data, c);
  }

  /** The hidden layer `predict` computes is the formula `Layer`, as a column. */
  lemma HiddenIsLayer(net: Network, x: seq<real>, sigmoid: real -> real)
    requires net.Valid() && |x| == net.inputNodes
    ensures Multiply(net.weightsIH, FromArray(x)).Some?
    ensures Column(MapEntries(Plus(Multiply(net.weightsIH, FromArray(x)).value, net.biasH), sigmoid), 0)
         == Layer(net.weightsIH, net.biasH, x, sigmoid)
  {
    ColumnFromArray(x);
  }

  /**
   * `predict` on an input of `inputNodes` values returns exactly `outputNodes`
   * values: sigmoid(W_ho . sigmoid(W_ih . x + b_h) + b_o), entry by entry.
   */
  lemma PredictIsForward(net: Network, x: seq<real>, sigmoid: real -> real)
    requires net.Valid() && |x| == net.inputNodes
    ensures Predict(net, x, sigmoid).Some?
    ensures |Predict(net, x, sigmoid).value.output| == net.outputNodes
    ensures Predict(net, x, sigmoid).value.output
         == Layer(net.weightsHO, net.biasO, Layer(net.weightsIH, net.biasH, x, sigmoid), sigmoid)
  {
    HiddenIsLayer(net, x, sigmoid);
    var hidden := MapEntries(Plus(Multiply(net.weightsIH, FromArray(x)).value, net.biasH), sigmoid);
    var output := MapEntries(Plus(Multiply(net.weightsHO, hidden).value, net.biasO), sigmoid);
    ToArrayOfColumn(output);
  }

  /** The same network state and input give the same output (the cache does not feed back). */
  lemma PredictIgnoresCache(net: Network, other: Network, x: seq<real>, sigmoid: real -> real)
    requires net.Valid() && other.Valid() && net.SameWeights(other) && |x| == net.inputNodes
    ensures Predict(net, x, sigmoid).Some? && Predict(other, x, sigmoid).Some?
    ensures Predict(net, x, sigmoid).value.output == Predict(other, x, sigmoid).value.output
  {
    PredictIsForward(net, x, sigmoid);
    PredictIsForward(other, x, sigmoid);
  }

  // -------------------------------------------------------------------- copy

  /** `copy()`: a new network (its random initial weights overwritten) with the four matrices copied; the cache starts empty. */
  function Copy(net: Network): (c: Network)
    requires net.Valid()
    ensures c.Valid() && c.SameWeights(net)
    ensures c.hiddenActivations.None? && c.outputActivations.None?
  {
    net.(hiddenActivations := None, outputActivations := None)
  }

  /** A copy predicts exactly what its original predicts. */
  lemma CopyPredictsAlike(net: Network, x: seq<real>, sigmoid: real -> real)
    requires net.Valid() && |x| == net.inputNodes
    ensures Predict(Copy(net), x, sigmoid).Some?
    ensures Predict(Copy(net), x, sigmoid).value.output == Predict(net, x, sigmoid).value.output
  {
    PredictIgnoresCache(Copy(net), net, x, sigmoid);
  }

  // ------------------------------------------------------------------ mutate

  /**
   * The inner `mutate(val)`: draw r; when r < rate the value gains
   * (second draw)*0.1 - 0.05 (two draws spent), otherwise it is kept (one draw).
   */
  function MutateValue(v: real, rate: real, rng: nat -> real, k: nat): (real, nat)
  {
    if rng(k) < rate then (v + rng(k + 1) * 0.1 - 0.05, k + 2) else (v, k + 1)
  }

  /** `row.map(mutate)`, left to right. */
  function MutateRow(row: seq<real>, rate: real, rng: nat -> real, k: nat): (seq<real>, nat)
  {
    if row == [] then ([], k)
    else
      var (v, k1) := MutateValue(row[0], rate, rng, k);
      var (rest, k2) := MutateRow(row[1..], rate, rng, k1);
      ([v] + rest, k2)
  }

  /** `data.map(row => row.map(mutate))`, row by row. */
  function MutateRows(g: seq<seq<real>>, rate: real, rng: nat -> real, k: nat): (seq<seq<real>>, nat)
  {
    if g == [] then ([], k)
    else
      var (row, k1) := MutateRow(g[0], rate, rng, k);
      var (rest, k2) := MutateRows(g[1..], rate, rng, k1);
      ([row] + rest, k2)
  }

  /** `m.map(mutate)`. */
  function MutateMat(m: Mat, rate: real, rng: nat -> real, k: nat): (Mat, nat)
  {
    var (g, k1) := MutateRows(m.data, rate, rng, k);
    (Mat(m.rows, m.cols, g), k1)
  }

  /** `mutate(rate)`: weights_ih, weights_ho, bias_h and bias_o, in that order, each through `map(mutate)`. */
  function Mutated(net: Network, rate: real, rng: nat -> real, k: nat): (Network, nat)
  {
    var (ih, k1) := MutateMat(net.weightsIH, rate, rng, k);
    var (ho, k2) := MutateMat(net.weightsHO, rate, rng, k1);
    var (bh, k3) := MutateMat(net.biasH, rate, rng, k2);
    var (bo, k4) := MutateMat(net.biasO, rate, rng, k3);
    (net.(weightsIH := ih, weightsHO := ho, biasH := bh, biasO := bo), k4)
  }

  /** `row` and `row'` have the same length and each entry is either kept or moved by a delta in [-0.05, 0.05). */
  predicate NearRow(row: seq<real>, row': seq<real>)
  {
    |row'| == |row| &&
    forall j :: 0 <= j < |row| ==> row'[j] == row[j] || row[j] - 0.05 <= row'[j] < row[j] + 0.05
  }

  predicate Near(m: Mat, m': Mat)
  {
    m'.rows == m.rows && m'.cols == m.cols && |m'.data| == |m.data| &&
    forall i :: 0 <= i < |m.data| ==> NearRow(m.data[i], m'.data[i])
  }

  lemma {:induction false} MutateRowNear(row: seq<real>, rate: real, rng: nat -> real, k: nat)
    requires Uniform(rng)
    ensures NearRow(row, MutateRow(row, rate, rng, k).0)
    ensures k + |row| <= MutateRow(row, rate, rng, k).1 <= k + 2 * |row|
  {
    if row != [] {
      var (v, k1) := MutateValue(row[0], rate, rng, k);
      MutateRowNear(row[1..], rate, rng, k1);
      var row' := MutateRow(row, rate, rng, k).0;
      assert row' == [v] + MutateRow(row[1..], rate, rng, k1).0;
      forall j | 0 <= j < |row| ensures row'[j] == row[j] || row[j] - 0.05 <= row'[j] < row[j] + 0.05 {
        if j > 0 {
          assert row'[j] == MutateRow(row[1..], rate, rng, k1).0[j - 1];
        }
      }
    }
  }

  lemma {:induction false} MutateRowsNear(g: seq<seq<real>>, rate: real, rng: nat -> real, k: nat)
    requires Uniform(rng)
    ensures |MutateRows(g, rate, rng, k).0| == |g|
    ensures forall i :: 0 <= i < |g| ==> NearRow(g[i], MutateRows(g, rate, rng, k).0[i])
  {
    if g != [] {
      var (row, k1) := MutateRow(g[0], rate, rng, k);
      MutateRowNear(g[0], rate, rng, k);
      MutateRowsNear(g[1..], rate, rng, k1);
      var g' := MutateRows(g, rate, rng, k).0;
      assert g' == [row] + MutateRows(g[1..], rate, rng, k1).0;
      forall i | 0 <= i < |g| ensures NearRow(g[i], g'[i]) {
        if i > 0 {
          assert g'[i] == MutateRows(g[1..], rate, rng, k1).0[i - 1];
        }
      }
    }
  }

  lemma MutateMatNear(m: Mat, rate: real, rng: nat -> real, k: nat)
    requires m.Valid() && Uniform(rng)
    ensures MutateMat(m, rate, rng, k).0.Valid() && Near(m, MutateMat(m, rate, rng, k).0)
  {
    MutateRowsNear(m.data, rate, rng, k);
  }

  /**
   * `mutate(rate)` keeps the topology, the four shapes and the cache, and
   * moves every entry of every matrix by nothing or by a delta in [-0.05, 0.05).
   */
  lemma MutatedNear(net: Network, rate: real, rng: nat -> real, k: nat)
    requires net.Valid() && Uniform(rng)
    ensures Mutated(net, rate, rng, k).0.Valid()
    ensures var net' := Mutated(net, rate, rng, k).0;
      && net'.inputNodes == net.inputNodes && net'.hiddenNodes == net.hiddenNodes && net'.outputNodes == net.outputNodes
      && net'.hiddenActivations == net.hiddenActivations && net'.outputActivations == net.outputActivations
      && Near(net.weightsIH, net'.weightsIH) && Near(net.weightsHO, net'.weightsHO)
      && Near(net.biasH, net'.biasH) && Near(net.biasO, net'.biasO)
  {
    var (ih, k1) := MutateMat(net.weightsIH, rate, rng, k);
    var (ho, k2) := MutateMat(net.weightsHO, rate, rng, k1);
    var (bh, k3) := MutateMat(net.biasH, rate, rng, k2);
    MutateMatNear(net.weightsIH, rate, rng, k);
    MutateMatNear(net.weightsHO, rate, rng, k1);
    MutateMatNear(net.biasH, rate, rng, k2);
    MutateMatNear(net.biasO, rate, rng, k3);
  }

  lemma {:induction false} MutateRowZero(row: seq<real>, rng: nat -> real, k: nat)
    requires Uniform(rng)
    ensures MutateRow(row, 0.0, rng, k) == (row, k + |row|)
  {
    if row != [] {
      MutateRowZero(row[1..], rng, k + 1);
      assert row == [row[0]] + row[1..];
    }
  }

  lemma {:induction false} MutateRowsZero(g: seq<seq<real>>, rng: nat -> real, k: nat)
    requires Uniform(rng)
    ensures MutateRows(g, 0.0, rng, k).0 == g
  {
    if g != [] {
      MutateRowZero(g[0], rng, k);
      MutateRowsZero(g[1..], rng, k + |g[0]|);
    }
  }

  /** `mutate(0)` changes no weight and no bias: every first draw is >= 0. */
  lemma MutatedZero(net: Network, rng: nat -> real, k: nat)
    requires Uniform(rng)
    ensures Mutated(net, 0.0, rng, k).0 == net
  {
    var (ih, k1) := MutateMat(net.weightsIH, 0.0, rng, k);
    var (ho, k2) := MutateMat(net.weightsHO, 0.0, rng, k1);
    var (bh, k3) := MutateMat(net.biasH, 0.0, rng, k2);
    MutateRowsZero(net.weightsIH.data, rng, k);
    MutateRowsZero(net.weightsHO.data, rng, k1);
    MutateRowsZero(net.biasH.data, rng, k2);
    MutateRowsZero(net.biasO.data, rng, k3);
  }

  /** `row.map(mutate)` as a loop: entry by entry, left to right, one or two draws each. */
  method MutateEntries(row: seq<real>, rate: real, rng: nat -> real, k: nat) returns (row': seq<real>, k': nat)
    ensures (row', k') == MutateRow(row, rate, rng, k)
  {
    row' := [];
    k' := k;
    var j := 0;
    while j < |row|
      invariant 0 <= j <= |row|
      invariant MutateRow(row, rate, rng, k).0 == row' + MutateRow(row[j..], rate, rng, k').0
      invariant MutateRow(row, rate, rng, k).1 == MutateRow(row[j..], rate, rng, k').1
    {
      assert row[j..][1..] == row[j + 1..];
      var v := row[j];
      if rng(k') < rate {
        v := v + rng(k' + 1) * 0.1 - 0.05;
        k' := k' + 2;
      } else {
        k' := k' + 1;
      }
      row' := row' + [v];
      j := j + 1;
    }
    assert row[j..] == [];
    assert row' + [] == row';
  }

  /** `m.map(mutate)`: the rows in order, each through `MutateEntries`. */
  method MutateMatrix(m: Mat, rate: real, rng: nat -> real, k: nat) returns (m': Mat, k': nat)
    ensures (m', k') == MutateMat(m, rate, rng, k)
  {
    var rows: seq<seq<real>> := [];
    var c := k;
    var i := 0;
    while i < |m.data|
      invariant 0 <= i <= |m.data|
      invariant MutateRows(m.data, rate, rng, k).0 == rows + MutateRows(m.data[i..], rate, rng, c).0
      invariant MutateRows(m.data, rate, rng, k).1 == MutateRows(m.data[i..], rate, rng, c).1
    {
      assert m.data[i..][1..] == m.data[i + 1..];
      var row;
      row, c := MutateEntries(m.data[i], rate, rng, c);
      rows := rows + [row];
      i := i + 1;
    }
    assert m.data[i..] == [];
    assert rows + [] == rows;
    m', k' := Mat(m.rows, m.cols, rows), c;
  }

  /** `mutate(rate)`: the four matrices in turn. */
  method Mutate(net: Network, rate: real, rng: nat -> real, k: nat) returns (net': Network, k': nat)
    ensures (net', k') == Mutated(net, rate, rng, k)
  {
    var ih, k1 := MutateMatrix(net.weightsIH, rate, rng, k);
    var ho, k2 := MutateMatrix(net.weightsHO, rate, rng, k1);
    var bh, k3 := MutateMatrix(net.biasH, rate, rng, k2);
    var bo, k4 := MutateMatrix(net.biasO, rate, rng, k3);
    net', k' := net.(weightsIH := ih, weightsHO := ho, biasH := bh, biasO := bo), k4;
  }
}
