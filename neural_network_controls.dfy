/**
 * The network-driven control: the sensor's readings are turned into one input per ray, fed through the
 * car's network, and the first four outputs become the four signals.
 */
module NeuralNetworkControls {
  import opened Values
  import opened Helpers
  import opened Level
  import opened Network
  import opened Controls

  /** The input for one reading: 0 when the ray touches nothing, else `1 - offset`. */
  function Input(reading: Option<Touch>): (r: real)
    ensures reading.None? ==> r == 0.0
    ensures reading.Some? ==> r + reading.value.offset == 1.0
  {
    match reading
    case None => 0.0
    case Some(touch) => 1.0 - touch.offset
  }

  /** A touch taken from a segment intersection gives an input in [0, 1]. */
  lemma InputInUnitRange(reading: Option<Touch>)
    requires reading.Some? ==> 0.0 <= reading.value.offset <= 1.0
    ensures 0.0 <= Input(reading) <= 1.0
  {
  }

  /** A closer obstacle (smaller offset) gives a strictly larger input, and no obstacle the smallest one. */
  lemma CloserIsLarger(a: Touch, b: Touch)
    requires a.offset < b.offset
    ensures Input(Some(a)) > Input(Some(b))
    ensures b.offset <= 1.0 ==> Input(None) <= Input(Some(b))
  {
  }

  /** The readings mapped to inputs, one per reading, in order. */
  function Inputs(readings: seq<Option<Touch>>): (r: seq<Number>)
    ensures |r| == |readings|
    ensures forall i :: 0 <= i < |readings| ==> r[i] == Num(Input(readings[i]))
  {
    seq(|readings|, i requires 0 <= i < |readings| => Num(Input(readings[i])))
  }

  /** `Boolean(outputs[k])` for k = 0 .. 3; a missing output is `undefined`, that is false. */
  function Decode(outputs: seq<Number>): (f: Flags)
    ensures f.forward <==> Truthy(At(outputs, 0))
    ensures f.left <==> Truthy(At(outputs, 1))
    ensures f.right <==> Truthy(At(outputs, 2))
    ensures f.reverse <==> Truthy(At(outputs, 3))
  {
    Flags(Truthy(At(outputs, 0)), Truthy(At(outputs, 1)), Truthy(At(outputs, 2)), Truthy(At(outputs, 3)))
  }

  /** Signals beyond the network's width stay off. */
  lemma ShortOutputsStayOff(outputs: seq<Number>)
    ensures |outputs| <= 3 ==> !Decode(outputs).reverse
    ensures |outputs| <= 2 ==> !Decode(outputs).right && !Decode(outputs).reverse
    ensures |outputs| <= 1 ==> !Decode(outputs).left && !Decode(outputs).right && !Decode(outputs).reverse
    ensures |outputs| == 0 ==> Decode(outputs) == Idle
  {
  }

  /** On a network's 0/1 outputs, signal k is on exactly when output k is 1. */
  lemma DecodeThresholds(outputs: seq<Number>)
    requires |outputs| >= 4
    requires forall i :: 0 <= i < |outputs| ==> outputs[i] == Num(0.0) || outputs[i] == Num(1.0)
    ensures Decode(outputs) == Flags(outputs[0] == Num(1.0), outputs[1] == Num(1.0),
                                     outputs[2] == Num(1.0), outputs[3] == Num(1.0))
  {
  }

  class NeuralNetworkControls {
    var isForward: bool
    var isLeft: bool
    var isRight: bool
    var isRevers: bool

    /** Every signal starts off. */
    constructor()
      ensures Signals() == Idle
    {
      isForward, isLeft, isRight, isRevers := false, false, false, false;
    }

    /** `forward`: the flag the last `update` decoded from output 0. */
    function Forward(): (r: bool)
      reads this
      ensures r == isForward
    {
      isForward
    }

    /** `left`: the flag the last `update` decoded from output 1. */
    function Left(): (r: bool)
      reads this
      ensures r == isLeft
    {
      isLeft
    }

    /** `right`: the flag the last `update` decoded from output 2. */
    function Right(): (r: bool)
      reads this
      ensures r == isRight
    {
      isRight
    }

    /** `reverse`: the flag the last `update` decoded from output 3 (the field is spelled `isRevers`). */
    function Reverse(): (r: bool)
      reads this
      ensures r == isRevers
    {
      isRevers
    }

    /** The four getters together, in the order of the control interface. */
    function Signals(): (s: Flags)
      reads this
      ensures s.forward == isForward && s.left == isLeft && s.right == isRight && s.reverse == isRevers
    {
      Flags(Forward(), Left(), Right(), Reverse())
    }

    /**
     * `update`: the four signals become the decoded network answer for the readings. Neither the network
     * nor its levels change; only the levels' scratch buffers are overwritten, each with what the network's
     * feed-forward leaves in it.
     */
    method Update(readings: seq<Option<Touch>>, network: Network)
      requires network.Valid() && |network.levels| >= 1 && this !in network.Repr
      modifies this, network.Repr
      ensures Signals() == Decode(Propagate(Inputs(readings), old(network.Parameters())))
      ensures unchanged(network) && unchanged(network.levels)
      ensures network.Fed(Inputs(readings), old(network.Parameters()))
    {
      var offsets := Inputs(readings);
      ghost var ps := network.Parameters();
      var outputs := network.FeedForward(offsets);
      var answer := outputs[..];
      assert answer == Propagate(offsets, ps) && network.Fed(offsets, ps);
      SetSignals(answer);
    }

    /** The four assignments of `update`: signal k is whether output k is truthy. */
    method SetSignals(answer: seq<Number>)
      modifies this
      ensures Signals() == Decode(answer)
    {
      isForward := Truthy(At(answer, 0));
      isLeft := Truthy(At(answer, 1));
      isRight := Truthy(At(answer, 2));
      isRevers := Truthy(At(answer, 3));
    }
  }
}
