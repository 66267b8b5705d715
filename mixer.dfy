/*
 * Combining signals: a mixer that sums its input buffers, each weighted by
 * its own gain, and an amplifier that scales one buffer in place.
 */
module Mixer {

  /** One input of the mixer: a buffer and the gain it is mixed with. */
  datatype Input = Input(channel: seq<real>, gain: real)

  /** Pairs the mixer's channels with their gains, in order. */
  function Zip(channels: seq<seq<real>>, gains: seq<real>): (r: seq<Input>)
    requires |channels| == |gains|
    ensures |r| == |channels|
    ensures forall k :: 0 <= k < |r| ==> r[k].channel == channels[k] && r[k].gain == gains[k]
  {
    seq(|channels|, k requires 0 <= k < |channels| => Input(channels[k], gains[k]))
  }

  /**
   * The contribution of one input to sample `j` of the mix.  A buffer too
   * short to have sample `j` contributes nothing; the mixer's callers never
   * hand it one.
   */
  function Term(x: Input, j: nat): (r: real)
    ensures x.gain == 0.0 ==> r == 0.0
    ensures x.gain == 1.0 && j < |x.channel| ==> r == x.channel[j]
  {
    if j < |x.channel| then x.channel[j] * x.gain else 0.0
  }

  /** No input buffer is shorter than `n`. */
  ghost predicate Covers(inputs: seq<Input>, n: nat)
  {
    forall k :: 0 <= k < |inputs| ==> n <= |inputs[k].channel|
  }

  /**
   * Sample `j` of the mix: the sum over the inputs of buffer sample times
   * gain, first input first.  A single input is mixed as itself.
   */
  function Mix(inputs: seq<Input>, j: nat): (r: real)
    ensures |inputs| == 1 ==> r == Term(inputs[0], j)
    decreases |inputs|
  {
    if inputs == [] then 0.0
    else Mix(inputs[..|inputs| - 1], j) + Term(inputs[|inputs| - 1], j)
  }

  /** Inputs that all contribute nothing to sample `j` mix to silence there. */
  lemma {:induction false} MixSilent(inputs: seq<Input>, j: nat)
    requires forall k :: 0 <= k < |inputs| ==> Term(inputs[k], j) == 0.0
    ensures Mix(inputs, j) == 0.0
    decreases |inputs|
  {
    if inputs != [] {
      var init := inputs[..|inputs| - 1];
      assert forall k :: 0 <= k < |init| ==> init[k] == inputs[k];
      MixSilent(init, j);
    }
  }

  /** Mixing two groups of inputs together gives the sum of the two mixes. */
  lemma {:induction false} MixAppend(a: seq<Input>, b: seq<Input>, j: nat)
    ensures Mix(a + b, j) == Mix(a, j) + Mix(b, j)
    decreases |b|
  {
    if b == [] {
      assert a + b == a;
    } else {
      var b' := b[..|b| - 1];
      assert (a + b)[..|a + b| - 1] == a + b';
      assert (a + b)[|a + b| - 1] == b[|b| - 1];
      MixAppend(a, b', j);
    }
  }

  /** The mix of the first `i + 1` inputs adds input `i`'s term to the mix of the first `i`. */
  lemma MixPrefixStep(inputs: seq<Input>, i: nat)
    requires i < |inputs|
    ensures forall j: nat :: Mix(inputs[..i + 1], j) == Mix(inputs[..i], j) + Term(inputs[i], j)
  {
    assert inputs[..i + 1][..i] == inputs[..i];
  }

  /**
   * Adding input `i` into buffers that hold the mix of the inputs before it
   * gives the mix of the inputs up to it.
   */
  lemma MixColumn(inputs: seq<Input>, i: nat, before: seq<real>, after: seq<real>)
    requires i < |inputs| && |after| == |before| <= |inputs[i].channel|
    requires forall j :: 0 <= j < |before| ==> before[j] == Mix(inputs[..i], j)
    requires forall j :: 0 <= j < |after| ==> after[j] == before[j] + inputs[i].channel[j] * inputs[i].gain
    ensures forall j :: 0 <= j < |after| ==> after[j] == Mix(inputs[..i + 1], j)
  {
    MixPrefixStep(inputs, i);
  }

  /** Taking input `i` out of the mix takes exactly its own term out of the sum. */
  lemma MixRemove(inputs: seq<Input>, i: nat, j: nat)
    requires i < |inputs|
    ensures Mix(inputs, j) == Mix(inputs[..i] + inputs[i + 1..], j) + Term(inputs[i], j)
  {
    var before := inputs[..i];
    var after := inputs[i + 1..];
    assert inputs == before + ([inputs[i]] + after);
    MixAppend(before, [inputs[i]] + after, j);
    MixAppend([inputs[i]], after, j);
    assert [inputs[i]][..0] == [];
    MixAppend(before, after, j);
  }

  /**
   * The mix does not depend on the order of its inputs: any rearrangement of
   * the same inputs gives the same sample.
   */
  lemma {:induction false} MixReorder(a: seq<Input>, b: seq<Input>, j: nat)
    requires multiset(a) == multiset(b)
    ensures Mix(a, j) == Mix(b, j)
    decreases |a|
  {
    if a == [] {
      assert |b| == |multiset(b)| == 0;
    } else {
      var init := a[..|a| - 1];
      var last := a[|a| - 1];
      assert last in multiset(b);
      var i :| 0 <= i < |b| && b[i] == last;
      var rest := b[..i] + b[i + 1..];
      RemoveMatching(a, b, i);
      MixReorder(init, rest, j);
      MixRemove(b, i, j);
      assert Mix(a, j) == Mix(init, j) + Term(last, j);
    }
  }

  /** Removing the last element of `a` and an equal element of its rearrangement `b` leaves rearrangements. */
  lemma RemoveMatching<T>(a: seq<T>, b: seq<T>, i: nat)
    requires multiset(a) == multiset(b) && a != [] && i < |b| && b[i] == a[|a| - 1]
    ensures multiset(a[..|a| - 1]) == multiset(b[..i] + b[i + 1..])
  {
    RemoveOne(a, |a| - 1);
    assert a[..|a| - 1] + a[|a|..] == a[..|a| - 1];
    RemoveOne(b, i);
  }

  lemma RemoveOne<T>(s: seq<T>, i: nat)
    requires i < |s|
    ensures multiset(s[..i] + s[i + 1..]) == multiset(s) - multiset{s[i]}
  {
    assert s == s[..i] + [s[i]] + s[i + 1..];
  }

  /** The mixer: its inputs in the order they were added. */
  class SimpleMixer {
    var channels: seq<seq<real>>
    var gains: seq<real>

    ghost predicate Valid()
      reads this
    {
      |channels| == |gains|
    }

    ghost function Inputs(): seq<Input>
      reads this
      requires Valid()
    {
      Zip(channels, gains)
    }

    constructor ()
      ensures Valid() && channels == [] && gains == []
    {
      channels := [];
      gains := [];
    }

    /** Adds one input after the existing ones. */
    method AddInput(channel: seq<real>, gain: real)
      requires Valid()
      modifies this
      ensures Valid()
      ensures channels == old(channels) + [channel] && gains == old(gains) + [gain]
      ensures Inputs() == old(Inputs()) + [Input(channel, gain)]
    {
      channels := channels + [channel];
      gains := gains + [gain];
    }

    /**
     * The mix of all inputs, as long as the first input.  There must be an
     * input, and no input may be shorter than the first.
     */
    method Process() returns (output: seq<real>)
      requires Valid()
      requires |channels| > 0
      requires forall k :: 0 <= k < |channels| ==> |channels[0]| <= |channels[k]|
      ensures |output| == |channels[0]|
      ensures Covers(Inputs(), |output|)
      ensures forall j :: 0 <= j < |output| ==> output[j] == Mix(Inputs(), j)
    {
      var channels, gains := this.channels, this.gains;
      var bufferSize := |channels[0]|;
      ghost var inputs := Zip(channels, gains);
      assert Covers(inputs, bufferSize);
      var mixed := new real[bufferSize](_ => 0.0);
      var i := 0;
      while i < |channels|
        invariant 0 <= i <= |channels|
        invariant forall j :: 0 <= j < bufferSize ==> mixed[j] == Mix(inputs[..i], j)
      {
        var channel := channels[i];
        assert inputs[i] == Input(channel, gains[i]) && bufferSize <= |channel|;
        ghost var before := mixed[..];
        Accumulate(mixed, channel, gains[i]);
        MixColumn(inputs, i, before, mixed[..]);
        i := i + 1;
      }
      assert inputs[..|channels|] == inputs;
      output := mixed[..];
    }
  }

  /** Adds `channel` times `gain` into `mixed`, sample by sample (the inner loop of the mixer). */
  method Accumulate(mixed: array<real>, channel: seq<real>, gain: real)
    requires mixed.Length <= |channel|
    modifies mixed
    ensures forall j :: 0 <= j < mixed.Length ==> mixed[j] == old(mixed[j]) + channel[j] * gain
  {
    var j := 0;
    while j < mixed.Length
      invariant 0 <= j <= mixed.Length
      invariant forall k :: 0 <= k < j ==> mixed[k] == old(mixed[k]) + channel[k] * gain
      invariant forall k :: j <= k < mixed.Length ==> mixed[k] == old(mixed[k])
    {
      mixed[j] := mixed[j] + channel[j] * gain;
      j := j + 1;
    }
  }

  /** `s` with every sample multiplied by `volume`. */
  function Scaled(s: seq<real>, volume: real): (r: seq<real>)
    ensures |r| == |s|
    ensures forall i :: 0 <= i < |s| ==> r[i] == s[i] * volume
  {
    seq(|s|, i requires 0 <= i < |s| => s[i] * volume)
  }

  /** Volume 1 leaves a buffer as it is; volume 0 silences it. */
  lemma ScaledUnitAndZero(s: seq<real>)
    ensures Scaled(s, 1.0) == s
    ensures forall i :: 0 <= i < |s| ==> Scaled(s, 0.0)[i] == 0.0
  {
  }

  /** Scaling twice is scaling once by the product; a non-zero volume is undone by its inverse. */
  lemma ScaledCompose(s: seq<real>, v: real, w: real)
    ensures Scaled(Scaled(s, v), w) == Scaled(s, v * w)
    ensures v != 0.0 ==> Scaled(Scaled(s, v), 1.0 / v) == s
  {
    forall i | 0 <= i < |s| ensures Scaled(Scaled(s, v), w)[i] == Scaled(s, v * w)[i] {
      assert s[i] * v * w == s[i] * (v * w);
    }
    if v != 0.0 {
      forall i | 0 <= i < |s| ensures Scaled(Scaled(s, v), 1.0 / v)[i] == s[i] {
        assert s[i] * v * (1.0 / v) == s[i] * (v * (1.0 / v));
      }
    }
  }

  /** The final gain stage. */
  class SimpleAmp {
    const volume: real

    constructor (volume: real)
      ensures this.volume == volume
    {
      this.volume := volume;
    }

    /** Multiplies every sample of `buffer` by the volume, in place. */
    method Process(buffer: array<real>)
      modifies buffer
      ensures buffer[..] == Scaled(old(buffer[..]), volume)
    {
      var i := 0;
      while i < buffer.Length
        invariant 0 <= i <= buffer.Length
        invariant forall k :: 0 <= k < i ==> buffer[k] == old(buffer[k]) * volume
        invariant forall k :: i <= k < buffer.Length ==> buffer[k] == old(buffer[k])
      {
        buffer[i] := buffer[i] * volume;
        i := i + 1;
      }
      assert forall k :: 0 <= k < buffer.Length ==> buffer[..][k] == Scaled(old(buffer[..]), volume)[k];
    }
  }
}
