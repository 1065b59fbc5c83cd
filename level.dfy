/**
 * One layer of the hard-threshold feedforward network. A level owns scratch `inputs` and `outputs`
 * buffers that every feed-forward overwrites in place, and its weights and biases.
 */
module Level {
  import opened Values

  /** The plain-JSON shape of a saved level. */
  datatype LevelData = LevelData(inputs: seq<real>, outputs: seq<real>, biases: seq<real>, weights: seq<seq<real>>)

  /** What a feed-forward depends on: the two counts, the biases and the weight rows. */
  datatype Params = Params(inputCount: nat, outputCount: nat, biases: seq<Number>, weights: seq<seq<Number>>)
  {
    /** Every input has a weight row; a row may be short, its missing entries read as `undefined`. */
    predicate WellFormed()
    {
      inputCount <= |weights|
    }
  }

  /** `Math.random() * 2 - 1` for the draw `u`. */
  function Spread(u: real): (r: real)
    ensures 0.0 <= u < 1.0 ==> -1.0 <= r < 1.0
  {
    u * 2.0 - 1.0
  }

  /** The inputs buffer after copying `given` into `n` slots: missing entries are `undefined`, extra ones ignored. */
  function Fill(given: seq<Number>, n: nat): (r: seq<Number>)
    ensures |r| == n
    ensures forall i :: 0 <= i < n && i < |given| ==> r[i] == given[i]
    ensures forall i :: |given| <= i < n ==> r[i] == NaN
  {
    seq(n, i requires 0 <= i < n => At(given, i))
  }

  /**
   * The running sum of the first `n` products input[j] * weight[j][i], accumulated left to right. It is
   * a number exactly when every input and every weight it multiplies is one.
   */
  function WeightedSum(inputs: seq<Number>, weights: seq<seq<Number>>, i: int, n: nat): (r: Number)
    requires n <= |inputs| && n <= |weights|
    ensures r.Num? <==> forall j :: 0 <= j < n ==> inputs[j].Num? && At(weights[j], i).Num?
  {
    if n == 0 then Num(0.0)
    else Add(WeightedSum(inputs, weights, i, n - 1), Mul(inputs[n - 1], At(weights[n - 1], i)))
  }

  /** The same sum over plain reals, for inputs and weights that are all defined. */
  function RealSum(inputs: seq<real>, weights: seq<seq<real>>, i: nat, n: nat): real
    requires n <= |inputs| && n <= |weights|
    requires forall j :: 0 <= j < n ==> i < |weights[j]|
  {
    if n == 0 then 0.0
    else RealSum(inputs, weights, i, n - 1) + inputs[n - 1] * weights[n - 1][i]
  }

  /** Output i of the threshold: 1 when the weighted sum strictly exceeds the bias, else 0. */
  function Neuron(inputs: seq<Number>, weights: seq<seq<Number>>, biases: seq<Number>, i: int): (r: Number)
    requires |inputs| <= |weights|
    ensures r == Num(1.0) <==> Greater(WeightedSum(inputs, weights, i, |inputs|), At(biases, i))
    ensures r == Num(0.0) || r == Num(1.0)
  {
    if Greater(WeightedSum(inputs, weights, i, |inputs|), At(biases, i)) then Num(1.0) else Num(0.0)
  }

  /** The outputs buffer after a feed-forward of `given` through a level with parameters `p`. */
  function Forward(p: Params, given: seq<Number>): (r: seq<Number>)
    requires p.WellFormed()
    ensures |r| == p.outputCount
    ensures forall i :: 0 <= i < |r| ==> r[i] == Num(0.0) || r[i] == Num(1.0)
  {
    var inputs := Fill(given, p.inputCount);
    seq(p.outputCount, i requires 0 <= i < p.outputCount => Neuron(inputs, p.weights, p.biases, i))
  }

  /** On defined inputs and weights the slot arithmetic is ordinary real arithmetic. */
  lemma {:induction false} WeightedSumIsRealSum(xs: seq<real>, ws: seq<seq<real>>, i: nat, n: nat)
    requires n <= |xs| && n <= |ws|
    requires forall j :: 0 <= j < n ==> i < |ws[j]|
    ensures WeightedSum(Nums(xs), seq(|ws|, j requires 0 <= j < |ws| => Nums(ws[j])), i, n)
            == Num(RealSum(xs, ws, i, n))
  {
    if n > 0 {
      WeightedSumIsRealSum(xs, ws, i, n - 1);
    }
  }

  /**
   * The threshold law on fully defined data: output i is 1 exactly when the sum of input[j] * weight[j][i]
   * is strictly greater than bias[i]; a sum equal to the bias gives 0.
   */
  lemma ThresholdLaw(given: seq<real>, ws: seq<seq<real>>, bs: seq<real>, inputCount: nat, outputCount: nat, i: nat)
    requires inputCount == |given| <= |ws|
    requires i < outputCount && i < |bs|
    requires forall j :: 0 <= j < inputCount ==> i < |ws[j]|
    ensures var p := Params(inputCount, outputCount, Nums(bs), seq(|ws|, j requires 0 <= j < |ws| => Nums(ws[j])));
            Forward(p, Nums(given))[i] == (if RealSum(given, ws, i, inputCount) > bs[i] then Num(1.0) else Num(0.0))
  {
    var wn := seq(|ws|, j requires 0 <= j < |ws| => Nums(ws[j]));
    assert Fill(Nums(given), inputCount) == Nums(given);
    WeightedSumIsRealSum(given, ws, i, inputCount);
  }

  /** An input slot that is `undefined` (a given vector that is too short) silences every neuron. */
  lemma UndefinedInputSilences(p: Params, given: seq<Number>, i: nat)
    requires p.WellFormed() && i < p.outputCount
    requires exists j :: 0 <= j < p.inputCount && At(given, j) == NaN
    ensures Forward(p, given)[i] == Num(0.0)
  {
    var inputs := Fill(given, p.inputCount);
    assert !WeightedSum(inputs, p.weights, i, p.inputCount).Num?;
  }

  /**
   * A bias slot that is `undefined` silences its neuron whatever the inputs: `sum > undefined` is false.
   * After `#randomize` this is the case for every output index at or beyond `inputCount`.
   */
  lemma UndefinedBiasSilences(p: Params, given: seq<Number>, i: nat)
    requires p.WellFormed() && i < p.outputCount && At(p.biases, i) == NaN
    ensures Forward(p, given)[i] == Num(0.0)
  {
    assert !Greater(WeightedSum(Fill(given, p.inputCount), p.weights, i, p.inputCount), NaN);
  }

  class Level {
    const inputCount: nat
    const outputCount: nat
    var inputs: array<Number>
    var outputs: array<Number>
    var biases: seq<Number>
    var weights: seq<seq<Number>>

    ghost predicate Valid()
      reads this
    {
      inputs.Length == inputCount && outputs.Length == outputCount && inputs != outputs
      && Snapshot().WellFormed()
    }

    /** The parameters a feed-forward reads. */
    function Snapshot(): Params
      reads this
    {
      Params(inputCount, outputCount, biases, weights)
    }

    /**
     * Empty buffers of the two widths, `inputCount` weight rows of `outputCount` entries, then the random
     * fill: draw `rand(k)` is the k-th `Math.random()` value, weights first row by row, then the biases.
     */
    constructor(inputCount: nat, outputCount: nat, rand: nat -> real)
      ensures Valid() && fresh(inputs) && fresh(outputs)
      ensures this.inputCount == inputCount && this.outputCount == outputCount
      ensures forall k :: 0 <= k < inputCount ==> inputs[k] == NaN
      ensures forall k :: 0 <= k < outputCount ==> outputs[k] == NaN
      ensures |weights| == inputCount
      ensures forall r :: 0 <= r < inputCount ==> |weights[r]| == outputCount
      ensures forall r, c :: 0 <= r < inputCount && 0 <= c < outputCount ==>
                weights[r][c] == Num(Spread(rand(r * outputCount + c)))
      ensures |biases| == if inputCount < outputCount then outputCount else inputCount
      ensures forall j :: 0 <= j < inputCount ==> biases[j] == Num(Spread(rand(inputCount * outputCount + j)))
      ensures forall j :: inputCount <= j < |biases| ==> biases[j] == NaN
    {
      this.inputCount := inputCount;
      this.outputCount := outputCount;
      inputs := new Number[inputCount](_ => NaN);
      outputs := new Number[outputCount](_ => NaN);
      biases := seq(outputCount, _ => NaN);
      weights := seq(inputCount, _ => seq(outputCount, _ => NaN));
      new;
      Randomize(rand);
    }

    /**
     * `#randomize`: every weight of the `inputs.Length` x `outputs.Length` grid gets a draw, then
     * biases 0 .. weights.length - 1 do. That is inputCount biases, not outputCount: the biases array
     * grows when inputCount is larger, and keeps `undefined` slots when it is smaller.
     */
    method Randomize(rand: nat -> real)
      requires inputs.Length == inputCount && outputs.Length == outputCount
      requires |weights| == inputCount && |biases| == outputCount
      requires forall j :: 0 <= j < outputCount ==> biases[j] == NaN
      modifies this
      ensures inputs == old(inputs) && outputs == old(outputs)
      ensures |weights| == inputCount
      ensures forall r :: 0 <= r < inputCount ==> |weights[r]| == outputCount
      ensures forall r, c :: 0 <= r < inputCount && 0 <= c < outputCount ==>
                weights[r][c] == Num(Spread(rand(r * outputCount + c)))
      ensures |biases| == if inputCount < outputCount then outputCount else inputCount
      ensures forall j :: 0 <= j < inputCount ==> biases[j] == Num(Spread(rand(inputCount * outputCount + j)))
      ensures forall j :: inputCount <= j < |biases| ==> biases[j] == NaN
    {
      var k: nat := 0;
      for i := 0 to inputs.Length
        invariant inputs == old(inputs) && outputs == old(outputs) && biases == old(biases)
        invariant k == i * outputCount && |weights| == inputCount
        invariant forall r :: 0 <= r < i ==> |weights[r]| == outputCount
        invariant forall r, c :: 0 <= r < i && 0 <= c < outputCount ==>
                    weights[r][c] == Num(Spread(rand(r * outputCount + c)))
      {
        var row := seq(outputCount, _ => NaN);
        for j := 0 to outputs.Length
          invariant k == i * outputCount + j && |row| == outputCount
          invariant forall c :: 0 <= c < j ==> row[c] == Num(Spread(rand(i * outputCount + c)))
        {
          row := row[j := Num(Spread(rand(k)))];
          k := k + 1;
        }
        weights := weights[i := row];
      }
      RandomizeBiases(rand, k);
    }

    /** The bias loop of `#randomize`, drawing from `rand(first)` on; it runs to `weights.length`. */
    method RandomizeBiases(rand: nat -> real, first: nat)
      requires |weights| == inputCount && |biases| == outputCount
      requires forall j :: 0 <= j < outputCount ==> biases[j] == NaN
      modifies this`biases
      ensures |biases| == if inputCount < outputCount then outputCount else inputCount
      ensures forall j :: 0 <= j < inputCount ==> biases[j] == Num(Spread(rand(first + j)))
      ensures forall j :: inputCount <= j < |biases| ==> biases[j] == NaN
    {
      var k := first;
      for j := 0 to |weights|
        invariant k == first + j
        invariant |biases| == if j < outputCount then outputCount else j
        invariant forall b :: 0 <= b < j ==> biases[b] == Num(Spread(rand(first + b)))
        invariant forall b :: j <= b < |biases| ==> biases[b] == NaN
      {
        if j < |biases| {
          biases := biases[j := Num(Spread(rand(k)))];
        } else {
          biases := biases + [Num(Spread(rand(k)))];
        }
        k := k + 1;
      }
    }

    /**
     * `fromJSON`: a level sized by the saved buffers, whose freshly randomised parameters are then
     * replaced by copies of the saved ones (new buffer arrays, no sharing with `data`).
     * A saved level with fewer weight rows than inputs is excluded (its feed-forward would throw).
     */
    static method FromJSON(data: LevelData, rand: nat -> real) returns (level: Level)
      requires |data.inputs| <= |data.weights|
      ensures fresh(level) && fresh(level.inputs) && fresh(level.outputs) && level.Valid()
      ensures level.inputCount == |data.inputs| && level.outputCount == |data.outputs|
      ensures level.inputs[..] == Nums(data.inputs) && level.outputs[..] == Nums(data.outputs)
      ensures level.biases == Nums(data.biases)
      ensures |level.weights| == |data.weights|
      ensures forall r :: 0 <= r < |data.weights| ==> level.weights[r] == Nums(data.weights[r])
    {
      level := new Level(|data.inputs|, |data.outputs|, rand);
      var ins := Nums(data.inputs);
      var outs := Nums(data.outputs);
      level.inputs := new Number[|ins|](i requires 0 <= i < |ins| => ins[i]);
      level.outputs := new Number[|outs|](i requires 0 <= i < |outs| => outs[i]);
      level.biases := Nums(data.biases);
      level.weights := seq(|data.weights|, r requires 0 <= r < |data.weights| => Nums(data.weights[r]));
      assert level.inputs[..] == ins;
      assert level.outputs[..] == outs;
    }

    /**
     * `feedForward`: copies the given inputs into the inputs buffer, thresholds each output into the
     * outputs buffer, and returns that very buffer. Weights and biases are not touched.
     */
    method FeedForward(given: seq<Number>) returns (r: array<Number>)
      requires Valid()
      modifies inputs, outputs
      ensures r == outputs
      ensures inputs[..] == Fill(given, inputCount)
      ensures outputs[..] == Forward(Snapshot(), given)
    {
      for i := 0 to inputs.Length
        invariant forall k :: 0 <= k < i ==> inputs[k] == At(given, k)
      {
        inputs[i] := At(given, i);
      }
      assert inputs[..] == Fill(given, inputCount);
      ghost var expected := Forward(Snapshot(), given);
      for i := 0 to outputs.Length
        invariant inputs[..] == Fill(given, inputCount)
        invariant forall k :: 0 <= k < i ==> outputs[k] == expected[k]
      {
        var sum := Num(0.0);
        for j := 0 to inputs.Length
          invariant sum == WeightedSum(inputs[..], weights, i, j)
        {
          sum := Add(sum, Mul(inputs[j], At(weights[j], i)));
        }
        if Greater(sum, At(biases, i)) {
          outputs[i] := Num(1.0);
        } else {
          outputs[i] := Num(0.0);
        }
      }
      assert outputs[..] == expected;
      r := outputs;
    }
  }
}
