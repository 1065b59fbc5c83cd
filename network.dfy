/** The feedforward network: a chain of levels, each feeding its outputs buffer to the next. */
module Network {
  import opened Values
  import opened Level

  /**
   * The network's output for `given`: the left fold of level feed-forwards, first level innermost. With
   * at least one level it is as wide as the last level's outputs, every entry 0 or 1.
   */
  function Propagate(given: seq<Number>, ps: seq<Params>): (r: seq<Number>)
    requires forall k :: 0 <= k < |ps| ==> ps[k].WellFormed()
    ensures |ps| >= 1 ==> |r| == ps[|ps| - 1].outputCount
    ensures |ps| >= 1 ==> forall i :: 0 <= i < |r| ==> r[i] == Num(0.0) || r[i] == Num(1.0)
  {
    if ps == [] then given
    else Forward(ps[|ps| - 1], Propagate(given, ps[..|ps| - 1]))
  }

  /** With one level the network is exactly that level. */
  lemma PropagateSingle(given: seq<Number>, p: Params)
    requires p.WellFormed()
    ensures Propagate(given, [p]) == Forward(p, given)
  {
    assert [p][..0] == [];
  }

  /** Feeding one more level is one more feed-forward of the previous result. */
  lemma PropagateSnoc(given: seq<Number>, ps: seq<Params>, i: nat)
    requires i < |ps| && forall k :: 0 <= k < |ps| ==> ps[k].WellFormed()
    ensures Propagate(given, ps[..i + 1]) == Forward(ps[i], Propagate(given, ps[..i]))
  {
    assert ps[..i + 1][..i] == ps[..i];
  }

  /** The level widths the constructor derives from `neurons`. */
  function LevelCount(neurons: seq<nat>): (n: nat)
    ensures |neurons| == 0 ==> n == 0
    ensures |neurons| > 0 ==> n == |neurons| - 1
  {
    if |neurons| == 0 then 0 else |neurons| - 1
  }

  /**
   * The inputs fed level by level, each the feed-forward of the one before, are the network's answers
   * for the prefixes of `ps`.
   */
  lemma ChainAnswers(given: seq<Number>, ps: seq<Params>, fed: seq<seq<Number>>)
    requires |fed| == |ps| + 1 && fed[0] == given && forall k :: 0 <= k < |ps| ==> ps[k].WellFormed()
    requires forall k :: 0 <= k < |ps| ==> fed[k + 1] == Forward(ps[k], fed[k])
    ensures forall k :: 0 <= k <= |ps| ==> fed[k] == Propagate(given, ps[..k])
  {
    forall k | 0 <= k <= |ps|
      ensures fed[k] == Propagate(given, ps[..k])
    {
      ChainAnswer(given, ps, fed, k);
    }
  }

  lemma {:induction false} ChainAnswer(given: seq<Number>, ps: seq<Params>, fed: seq<seq<Number>>, k: nat)
    requires |fed| == |ps| + 1 && fed[0] == given && forall k :: 0 <= k < |ps| ==> ps[k].WellFormed()
    requires forall k :: 0 <= k < |ps| ==> fed[k + 1] == Forward(ps[k], fed[k])
    requires k <= |ps|
    ensures fed[k] == Propagate(given, ps[..k])
  {
    if k == 0 {
      assert ps[..0] == [];
    } else {
      ChainAnswer(given, ps, fed, k - 1);
      PropagateSnoc(given, ps, k - 1);
    }
  }

  /** Two levels whose four buffers are distinct arrays. */
  ghost predicate Disjoint(a: Level, b: Level)
    reads a, b
  {
    a.inputs != b.inputs && a.inputs != b.outputs && a.outputs != b.inputs && a.outputs != b.outputs
  }

  /** Every level is sound, holds its buffers in `R` but is not in it, and no two levels share a buffer. */
  ghost predicate Sound(ls: seq<Level>, R: set<object>)
    reads ls
  {
    (forall k :: 0 <= k < |ls| ==> ls[k].Valid() && ls[k].inputs in R && ls[k].outputs in R && ls[k] !in R)
    && (forall j, k :: 0 <= j < k < |ls| ==> Disjoint(ls[j], ls[k]))
  }

  /** A sound level whose buffers are new to `R` extends sound levels. */
  lemma SoundSnoc(ls: seq<Level>, R: set<object>, level: Level)
    requires Sound(ls, R) && level.Valid()
    requires level !in R && level.inputs !in R && level.outputs !in R
    ensures Sound(ls + [level], R + {level.inputs, level.outputs})
  {
    var longer := ls + [level];
    assert forall k :: 0 <= k < |ls| ==> longer[k] == ls[k];
  }

  class Network {
    var levels: seq<Level>
    /** The scratch buffers of the levels: what a feed-forward overwrites. */
    ghost var Repr: set<object>

    /**
     * Every level is sound, each level's outputs are as wide as the next level's inputs, `Repr` holds
     * every level's buffers but neither the network nor a level itself, and no two levels share a buffer.
     */
    ghost predicate Valid()
      reads this, levels
    {
      (forall k :: 0 <= k < |levels| ==> levels[k].Valid())
      && (forall k :: 0 <= k < |levels| ==>
            levels[k].inputs in Repr && levels[k].outputs in Repr && levels[k] !in Repr)
      && (forall k :: 0 <= k < |levels| - 1 ==> levels[k].outputCount == levels[k + 1].inputCount)
      && (forall j, k :: 0 <= j < k < |levels| ==> Disjoint(levels[j], levels[k]))
      && this !in Repr
    }

    /** The parameters of every level, in order. */
    ghost function Parameters(): (ps: seq<Params>)
      reads this, levels
      requires Valid()
      ensures |ps| == |levels|
      ensures forall k :: 0 <= k < |ps| ==> ps[k] == levels[k].Snapshot() && ps[k].WellFormed()
    {
      seq(|levels|, k requires 0 <= k < |levels| reads this, levels => levels[k].Snapshot())
    }

    /**
     * Every level's buffers hold what feeding `given` through the parameters `ps` leaves there: level k
     * has the answer of the first k levels as its inputs and that of the first k + 1 as its outputs.
     */
    ghost predicate Fed(given: seq<Number>, ps: seq<Params>)
      reads this, levels
      reads set k | 0 <= k < |levels| :: levels[k].inputs, set k | 0 <= k < |levels| :: levels[k].outputs
    {
      |ps| == |levels| && (forall k :: 0 <= k < |ps| ==> ps[k].WellFormed())
      && forall k :: 0 <= k < |levels| ==>
           levels[k].inputs[..] == Fill(Propagate(given, ps[..k]), levels[k].inputCount)
           && levels[k].outputs[..] == Propagate(given, ps[..k + 1])
    }

    /**
     * One level of widths neurons[i] -> neurons[i + 1] for every consecutive pair; level i draws its
     * random weights and biases from `rand(i)`.
     */
    constructor(neurons: seq<nat>, rand: nat -> nat -> real)
      ensures Valid() && fresh(levels) && fresh(Repr)
      ensures |levels| == LevelCount(neurons)
      ensures forall k :: 0 <= k < |levels| ==>
                levels[k].inputCount == neurons[k] && levels[k].outputCount == neurons[k + 1]
    {
      var ls: seq<Level> := [];
      ghost var R: set<object> := {};
      var i := 0;
      while i < |neurons| - 1
        invariant 0 <= i <= LevelCount(neurons) && |ls| == i
        invariant fresh(ls) && fresh(R)
        invariant Sound(ls, R)
        invariant forall k :: 0 <= k < i ==> ls[k].inputCount == neurons[k] && ls[k].outputCount == neurons[k + 1]
      {
        var level := NewLevel(neurons[i], neurons[i + 1], rand(i));
        SoundSnoc(ls, R, level);
        ls := ls + [level];
        R := R + {level.inputs, level.outputs};
        i := i + 1;
      }
      levels := ls;
      Repr := R;
    }

    /** A fresh level of the given widths, with fresh buffers; the draws behind it do not matter here. */
    static method NewLevel(inputCount: nat, outputCount: nat, rand: nat -> real) returns (level: Level)
      ensures fresh(level) && fresh(level.inputs) && fresh(level.outputs) && level.Valid()
      ensures level.inputCount == inputCount && level.outputCount == outputCount
    {
      level := new Level(inputCount, outputCount, rand);
    }

    /**
     * `feedForward`: feeds `given` to the first level and each level's outputs to the next; the result is
     * the last level's outputs buffer itself. Every level's two buffers are overwritten: level k holds
     * the answer of the levels before it as its inputs and its own answer as its outputs. The source
     * reads `levels[0]` unconditionally, so a network needs at least one level.
     */
    method FeedForward(given: seq<Number>) returns (r: array<Number>)
      requires Valid() && |levels| >= 1
      modifies Repr
      ensures Valid() && Parameters() == old(Parameters())
      ensures r == levels[|levels| - 1].outputs
      ensures r[..] == Propagate(given, Parameters())
      ensures forall k :: 0 <= k < |levels| ==>
                levels[k].inputs[..] == Fill(Propagate(given, Parameters()[..k]), levels[k].inputCount)
                && levels[k].outputs[..] == Propagate(given, Parameters()[..k + 1])
      ensures Fed(given, Parameters())
    {
      ghost var ps := Parameters();
      r := Chain(levels, given, ps, Repr);
      assert Parameters() == ps;
    }

    /**
     * The loop of `feedForward` over the levels `ls`, whose parameters are `ps`: level k takes the answer
     * of the levels before it and leaves its own answer in its outputs buffer.
     */
    static method Chain(ls: seq<Level>, given: seq<Number>, ghost ps: seq<Params>, ghost buffers: set<object>)
      returns (r: array<Number>)
      requires |ls| >= 1 && |ps| == |ls|
      requires forall k :: 0 <= k < |ls| ==> ls[k].Valid() && ls[k].Snapshot() == ps[k] && ps[k].WellFormed()
      requires forall k :: 0 <= k < |ls| ==> ls[k].inputs in buffers && ls[k].outputs in buffers && ls[k] !in buffers
      requires forall j, k :: 0 <= j < k < |ls| ==> Disjoint(ls[j], ls[k])
      modifies buffers
      ensures r == ls[|ls| - 1].outputs
      ensures r[..] == Propagate(given, ps)
      ensures forall k :: 0 <= k < |ls| ==>
                ls[k].inputs[..] == Fill(Propagate(given, ps[..k]), ps[k].inputCount)
                && ls[k].outputs[..] == Propagate(given, ps[..k + 1])
    {
      r := ls[0].outputs;
      var input := given;
      ghost var fed := [given];
      for i := 0 to |ls|
        invariant |fed| == i + 1 && fed[0] == given && input == fed[i]
        invariant i > 0 ==> r == ls[i - 1].outputs
        invariant forall k :: 0 <= k < |ls| ==> ls[k].Snapshot() == ps[k]
        invariant forall k :: 0 <= k < i ==>
                    ls[k].inputs[..] == Fill(fed[k], ps[k].inputCount) && ls[k].outputs[..] == fed[k + 1]
        invariant forall k :: 0 <= k < i ==> fed[k + 1] == Forward(ps[k], fed[k])
      {
        r := Step(ls, ps, buffers, i, input);
        input := r[..];
        fed := fed + [input];
      }
      ChainAnswers(given, ps, fed);
      assert ps[..|ps|] == ps;
    }

    /** One pass of the loop of `feedForward`: level i is fed `input`; every other level's buffers keep their contents. */
    static method Step(ls: seq<Level>, ghost ps: seq<Params>, ghost buffers: set<object>, i: nat, input: seq<Number>)
      returns (r: array<Number>)
      requires i < |ls| && |ps| == |ls|
      requires forall k :: 0 <= k < |ls| ==> ls[k].Valid() && ls[k].Snapshot() == ps[k] && ps[k].WellFormed()
      requires forall k :: 0 <= k < |ls| ==> ls[k].inputs in buffers && ls[k].outputs in buffers && ls[k] !in buffers
      requires forall j, k :: 0 <= j < k < |ls| ==> Disjoint(ls[j], ls[k])
      modifies ls[i].inputs, ls[i].outputs
      ensures r == ls[i].outputs
      ensures ls[i].inputs[..] == Fill(input, ps[i].inputCount) && r[..] == Forward(ps[i], input)
      ensures forall k :: 0 <= k < |ls| && k != i ==>
                ls[k].inputs[..] == old(ls[k].inputs[..]) && ls[k].outputs[..] == old(ls[k].outputs[..])
    {
      var level := ls[i];
      assert forall k :: 0 <= k < |ls| && k != i ==> Disjoint(ls[k], level) || Disjoint(level, ls[k]);
      r := level.FeedForward(input);
    }
  }
}
