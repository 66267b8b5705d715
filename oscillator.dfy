/*
 * The wavetable oscillator: reads one cycle of a stored waveform at a rate
 * set by the note's frequency, and blends two waveforms of the table by a
 * fixed "warp" amount.  The table itself is loaded elsewhere and passed in.
 */
module Oscillator {
  import opened Numeric

  /** Number of samples in one stored cycle of every waveform. */
  const WaveTableLength: nat := 4096

  datatype Wave = Wave(samples: seq<real>)

  datatype WaveTable = WaveTable(waves: seq<Wave>)

  /** The floating-point remainder `x % y`: it takes the sign of `x` and is smaller than `y` in size. */
  function FMod(x: real, y: real): (r: real)
    requires 0.0 < y
    ensures 0.0 <= x ==> 0.0 <= r < y
    ensures x < 0.0 ==> -y < r <= 0.0
  {
    var q := Trunc(x / y);
    RemainderBounds(x, y, q);
    x - q as real * y
  }

  lemma RemainderBounds(x: real, y: real, q: int)
    requires 0.0 < y && q == Trunc(x / y)
    ensures 0.0 <= x ==> 0.0 <= x - q as real * y < y
    ensures x < 0.0 ==> -y < x - q as real * y <= 0.0
  {
    if 0.0 <= x {
      assert 0.0 <= x / y;
      QuotientBounds(x, y, q as real, q as real + 1.0);
      assert (q as real + 1.0) * y == q as real * y + y;
    } else {
      assert x / y < 0.0;
      QuotientBounds(x, y, q as real - 1.0, q as real);
      assert (q as real - 1.0) * y == q as real * y - y;
    }
  }

  /** Bounds on a quotient `x / y` carry over to `x` as multiples of `y`. */
  lemma QuotientBounds(x: real, y: real, lo: real, hi: real)
    requires 0.0 < y && lo <= x / y <= hi
    ensures lo * y <= x <= hi * y
    ensures lo < x / y ==> lo * y < x
    ensures x / y < hi ==> x < hi * y
  {
    var f := x / y;
    assert f * y == x;
    MulLeft(y, lo, f);
    MulLeft(y, f, hi);
  }

  /** A positive factor can be cancelled from both sides of an equation. */
  lemma Cancel(y: real, a: real, b: real)
    requires 0.0 < y && a * y == b * y
    ensures a == b
  {
    MulLeft(y, a, b);
    MulLeft(y, b, a);
  }

  /** The oscillator: everything it needs per sample, fixed at construction. */
  datatype WaveTableOscillator = WaveTableOscillator(
    sampleRate: real,
    samplesPerCycle: real,
    scaleFactor: real,
    scaledWarp: real,
    waveIndexA: real,
    waveIndexB: real)

  /**
   * What construction guarantees: a cycle of positive length, a scale that
   * maps one cycle onto exactly the whole table, and the first two waves.
   */
  predicate WellFormed(o: WaveTableOscillator)
  {
    0.0 < o.samplesPerCycle && o.scaleFactor * o.samplesPerCycle == WaveTableLength as real
    && o.waveIndexA == 0.0 && o.waveIndexB == 1.0
  }

  /**
   * An oscillator at `frequency` for output at `sampleRate`, blending the
   * first two waves of the table by `waveWarp`.
   */
  function New(frequency: real, sampleRate: real, waveWarp: real): (o: WaveTableOscillator)
    requires 0.0 < frequency && 0.0 < sampleRate
    ensures WellFormed(o)
    ensures o.samplesPerCycle * frequency == sampleRate
    ensures o.sampleRate == sampleRate && o.scaledWarp == waveWarp
  {
    var samplesPerCycle := sampleRate / frequency;
    var scaleFactor := WaveTableLength as real / samplesPerCycle;
    WaveTableOscillator(sampleRate, samplesPerCycle, scaleFactor, waveWarp, 0.0, 1.0)
  }

  /**
   * The table position of `time`: how far into its current cycle the sample
   * lies, stretched onto the table.  It is always a valid position, for any
   * time at all.
   */
  function TableIndex(o: WaveTableOscillator, time: real): (k: nat)
    requires WellFormed(o)
    ensures k < WaveTableLength
  {
    IndexAt(o, CycleOffset(o, time))
  }

  /** How many samples into its current cycle the sample at `time` lies. */
  function CycleOffset(o: WaveTableOscillator, time: real): (offset: real)
    requires 0.0 < o.samplesPerCycle
    ensures offset < o.samplesPerCycle
    ensures 0.0 <= SampleOffset(o, time) ==> 0.0 <= offset
  {
    FMod(SampleOffset(o, time), o.samplesPerCycle)
  }

  /** How many samples since time zero `time` is, at the oscillator's sample rate. */
  function SampleOffset(o: WaveTableOscillator, time: real): (r: real)
    ensures 0.0 <= time && 0.0 <= o.sampleRate ==> 0.0 <= r
  {
    time * o.sampleRate
  }

  /**
   * The table position of a sample `offset` samples into the cycle: below
   * the table length, and 0 for an offset at or before the cycle's start.
   */
  function IndexAt(o: WaveTableOscillator, offset: real): (k: nat)
    requires WellFormed(o) && offset < o.samplesPerCycle
    ensures k < WaveTableLength
    ensures offset <= 0.0 ==> k == 0
  {
    PositionInTable(o, offset);
    AsIndex(offset * o.scaleFactor)
  }

  lemma PositionInTable(o: WaveTableOscillator, offset: real)
    requires WellFormed(o) && offset < o.samplesPerCycle
    ensures 0.0 <= offset ==> offset * o.scaleFactor < WaveTableLength as real
    ensures offset <= 0.0 ==> offset * o.scaleFactor <= 0.0
  {
    assert 0.0 < o.scaleFactor by {
      if o.scaleFactor <= 0.0 {
        MulLeft(o.samplesPerCycle, o.scaleFactor, 0.0);
      }
    }
    if 0.0 <= offset {
      MulLeft(o.scaleFactor, offset, o.samplesPerCycle);
    } else {
      MulLeft(o.scaleFactor, offset, 0.0);
    }
  }

  /** A table that has the two waves the oscillator reads, each holding at least a full cycle. */
  predicate Readable(table: WaveTable)
  {
    2 <= |table.waves| && forall w :: 0 <= w < 2 ==> WaveTableLength <= |table.waves[w].samples|
  }

  /**
   * The oscillator's output at `time`: the samples of the two waves at the
   * table position, blended by the warp.  Warp 0 gives wave 1, warp 1 gives
   * wave 0, and a warp in between gives a value in between.
   */
  function Process(o: WaveTableOscillator, table: WaveTable, time: real): (r: real)
    requires WellFormed(o) && Readable(table)
    ensures var k := TableIndex(o, time);
      var sampleA := table.waves[0].samples[k];
      var sampleB := table.waves[1].samples[k];
      (o.scaledWarp == 0.0 ==> r == sampleB)
      && (o.scaledWarp == 1.0 ==> r == sampleA)
      && (0.0 <= o.scaledWarp <= 1.0 ==> Min(sampleA, sampleB) <= r <= Max(sampleA, sampleB))
  {
    var k := TableIndex(o, time);
    var sampleA := table.waves[AsIndex(o.waveIndexA)].samples[k];
    var sampleB := table.waves[AsIndex(o.waveIndexB)].samples[k];
    var delta := sampleA - sampleB;
    BlendBetween(sampleA, sampleB, delta, o.scaledWarp);
    sampleB + delta * o.scaledWarp
  }

  /** Moving from `b` toward `a` by the fraction `w` of `delta == a - b`. */
  lemma BlendBetween(a: real, b: real, delta: real, w: real)
    requires delta == a - b
    ensures w == 0.0 ==> b + delta * w == b
    ensures w == 1.0 ==> b + delta * w == a
    ensures 0.0 <= w <= 1.0 ==> Min(a, b) <= b + delta * w <= Max(a, b)
  {
    if 0.0 <= w <= 1.0 {
      FractionOf(delta, w);
    }
  }

  /** A fraction in [0, 1] of an amount lies between zero and that amount. */
  lemma FractionOf(c: real, w: real)
    requires 0.0 <= w <= 1.0
    ensures 0.0 <= c ==> 0.0 <= c * w <= c
    ensures c < 0.0 ==> c <= c * w <= 0.0
  {
    if 0.0 < c {
      MulLeft(c, 0.0, w);
      MulLeft(c, w, 1.0);
      assert w * c == c * w;
    } else if c < 0.0 {
      var m := -c;
      MulLeft(m, 0.0, w);
      MulLeft(m, w, 1.0);
      assert w * m == -(c * w);
    }
  }

  /** Adding one divisor to the dividend adds one to the quotient. */
  lemma DivShift(x: real, y: real)
    requires 0.0 < y
    ensures (x + y) / y == x / y + 1.0
  {
    var f := x / y;
    var g := (x + y) / y;
    assert g * y == x + y;
    assert f * y == x;
    assert (f + 1.0) * y == f * y + y;
    Cancel(y, g, f + 1.0);
  }

  /** The remainder repeats with period `y` over non-negative values. */
  lemma FModPeriodic(x: real, y: real)
    requires 0.0 <= x && 0.0 < y
    ensures FMod(x + y, y) == FMod(x, y)
  {
    DivShift(x, y);
    var q := Trunc(x / y);
    assert 0.0 <= x / y;
    assert Trunc((x + y) / y) == q + 1;
    assert (q as real + 1.0) * y == q as real * y + y;
  }

  /**
   * The table position repeats every cycle: a time one period
   * (samplesPerCycle / sampleRate seconds) later reads the same position.
   */
  lemma TableIndexPeriodic(o: WaveTableOscillator, time: real)
    requires WellFormed(o) && 0.0 < o.sampleRate && 0.0 <= time
    ensures TableIndex(o, time + o.samplesPerCycle / o.sampleRate) == TableIndex(o, time)
  {
    CycleOffsetPeriodic(o, time);
  }

  /** The offset into the cycle is the same one period later. */
  lemma CycleOffsetPeriodic(o: WaveTableOscillator, time: real)
    requires 0.0 < o.samplesPerCycle && 0.0 < o.sampleRate && 0.0 <= time
    ensures CycleOffset(o, time + o.samplesPerCycle / o.sampleRate) == CycleOffset(o, time)
  {
    var later := time + o.samplesPerCycle / o.sampleRate;
    OneCycleMoreSamples(o, time);
    FModShift(SampleOffset(o, later), SampleOffset(o, time), o.samplesPerCycle);
  }

  /** One period later, the sample count is one cycle's worth of samples larger. */
  lemma OneCycleMoreSamples(o: WaveTableOscillator, time: real)
    requires 0.0 < o.sampleRate && 0.0 <= time
    ensures 0.0 <= SampleOffset(o, time)
    ensures SampleOffset(o, time + o.samplesPerCycle / o.sampleRate) == SampleOffset(o, time) + o.samplesPerCycle
  {
    ShiftTime(time, o.sampleRate, o.samplesPerCycle);
    MulLeft(o.sampleRate, 0.0, time);
  }

  /** The remainder of a dividend one divisor larger is the same. */
  lemma FModShift(x: real, z: real, y: real)
    requires 0.0 <= z && 0.0 < y && x == z + y
    ensures FMod(x, y) == FMod(z, y)
  {
    FModPeriodic(z, y);
  }

  lemma ShiftTime(time: real, rate: real, span: real)
    requires 0.0 < rate
    ensures (time + span / rate) * rate == time * rate + span
  {
    var p := span / rate;
    assert p * rate == span;
    assert (time + p) * rate == time * rate + p * rate;
  }
}
