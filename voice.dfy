/*
 * A voice: the synthesis of one block of samples for one note.  Every sample
 * is the envelope's level at the sample's time multiplied by the
 * oscillator's output at that time.  The oscillator is a parameter here (any
 * function of time); so is the base-2 exponential of the pitch conversion.
 */
module Voice {
  import opened Notes
  import opened Envelope
  import opened Numeric

  datatype Option<T> = None | Some(value: T)

  /** MIDI pitch of the A above middle C, and its frequency in hertz. */
  const A4Pitch: int := 69
  const A4Frequency: real := 440.0

  /** A byte read as a signed 8-bit value (Rust `u8 as i8`): two's complement. */
  function AsSigned(b: byte): (r: int)
    ensures -128 <= r < 128
    ensures (r - b as int) % 256 == 0
    ensures b < 128 ==> r == b as int
  {
    if b < 128 then b as int else b as int - 256
  }

  /**
   * The distance in semitones from A4, computed in signed 8-bit arithmetic.
   * `None` is the overflow of that subtraction, which Rust reports as a
   * panic; it happens only for bytes that are not MIDI pitches.
   */
  function SemitonesFromA4(pitch: byte): (r: Option<int>)
    ensures pitch < 128 ==> r == Some(pitch as int - A4Pitch)
    ensures r.None? <==> 128 <= pitch <= 196
    ensures r.Some? ==> -128 <= r.value < 128
  {
    var d := AsSigned(pitch) - A4Pitch;
    if -128 <= d then Some(d) else None
  }

  /** The equal-tempered frequency of `pitch`, given the base-2 exponential `exp2`. */
  function MidiPitchToFreq(pitch: byte, exp2: real -> real): (r: Option<real>)
    ensures r.Some? <==> SemitonesFromA4(pitch).Some?
  {
    match SemitonesFromA4(pitch)
    case None => None
    case Some(k) => Some(exp2(k as real / 12.0) * A4Frequency)
  }

  /** Pitch 69 sounds at 440 Hz: its exponent is zero, whatever else `exp2` does. */
  lemma A4Is440(exp2: real -> real)
    requires exp2(0.0) == 1.0
    ensures MidiPitchToFreq(69, exp2) == Some(A4Frequency)
  {
    assert SemitonesFromA4(69) == Some(0);
  }

  /** The time of sample `i` of a block starting at `start`. */
  function SampleTime(start: real, timePerSample: real, i: nat): real
  {
    start + timePerSample * (i as real)
  }

  /** Consecutive samples of a block are one time step apart. */
  lemma SampleTimeSpacing(start: real, timePerSample: real, i: nat)
    ensures SampleTime(start, timePerSample, i + 1) - SampleTime(start, timePerSample, i) == timePerSample
    ensures SampleTime(start, timePerSample, 0) == start
  {
    assert timePerSample * ((i + 1) as real) == timePerSample * (i as real) + timePerSample;
  }

  /** Sample times of a block that starts at a non-negative time are non-negative and not before its start. */
  lemma SampleTimeBounds(start: real, timePerSample: real, i: nat)
    requires 0.0 <= start && 0.0 <= timePerSample
    ensures start <= SampleTime(start, timePerSample, i)
  {
    MulNonNegative(timePerSample, i as real);
  }

  /** A note whose envelope can be evaluated at its current time and later. */
  predicate Playable(note: Note)
  {
    InDomain(note.time, note.on, note.offTime)
  }

  /**
   * Sample `i` of the block: the envelope's level at the sample's time times
   * the oscillator there.  With a sustain level in [0, 1] (and, once the
   * gate is closed, a `maxAlpha` at least the sustain level) the envelope
   * never amplifies the oscillator.
   */
  function Sample(note: Note, settings: AdsrState, timePerSample: real, osc: real -> real, i: nat): (r: real)
    requires Playable(note) && 0.0 <= timePerSample
    ensures 0.0 <= settings.sustain <= 1.0 && (note.on || settings.sustain <= settings.maxAlpha) ==>
      Abs(r) <= Abs(osc(SampleTime(note.time, timePerSample, i)))
  {
    var t := SampleTime(note.time, timePerSample, i);
    SampleTimeBounds(note.time, timePerSample, i);
    var level := Level(settings, t, note.on, note.offTime);
    if 0.0 <= settings.sustain <= 1.0 && (note.on || settings.sustain <= settings.maxAlpha) then
      Attenuates(level, osc(t));
      level * osc(t)
    else
      level * osc(t)
  }

  /** The first `n` samples of the block, in order. */
  function Samples(note: Note, settings: AdsrState, timePerSample: real, osc: real -> real, n: nat): (r: seq<real>)
    requires Playable(note) && 0.0 <= timePerSample
    ensures |r| == n
    ensures forall i :: 0 <= i < n ==> r[i] == Sample(note, settings, timePerSample, osc, i)
  {
    seq(n, i requires 0 <= i < n => Sample(note, settings, timePerSample, osc, i))
  }

  /**
   * One block of `bufferLen` samples for `note`.  A new envelope is built
   * from the settings for every block, so `maxAlpha` starts at 1 each time;
   * within the block the one envelope is used for every sample in order,
   * and the state it carries from one sample to the next never changes a
   * level.
   */
  method Play(note: Note, attack: real, decay: real, sustain: real, release: real,
              sampleRate: real, bufferLen: nat, osc: real -> real)
    returns (output: seq<real>)
    requires Playable(note) && 0.0 < sampleRate
    ensures output == Samples(note, Initial(attack, decay, sustain, release), 1.0 / sampleRate, osc, bufferLen)
  {
    var timePerSample := 1.0 / sampleRate;
    var envelope := new Adsr(attack, decay, sustain, release);
    ghost var settings := Initial(attack, decay, sustain, release);
    output := [];
    var i := 0;
    while i < bufferLen
      invariant 0 <= i <= bufferLen
      invariant Carries(envelope.State(), settings, note.on)
      invariant output == Samples(note, settings, timePerSample, osc, i)
    {
      var time := SampleTime(note.time, timePerSample, i);
      SampleTimeBounds(note.time, timePerSample, i);
      ghost var before := envelope.State();
      var alpha := envelope.Process(time, note.on, note.offTime);
      PlayStep(note, settings, timePerSample, osc, i, before, time, alpha);
      output := output + [alpha * osc(time)];
      i := i + 1;
    }
  }

  /**
   * One step of the block loop: the envelope, whatever it carried from the
   * earlier samples, produces sample i, and still carries only that.
   */
  lemma PlayStep(note: Note, settings: AdsrState, timePerSample: real, osc: real -> real, i: nat,
                 state: AdsrState, time: real, alpha: real)
    requires Playable(note) && 0.0 <= timePerSample
    requires Carries(state, settings, note.on)
    requires time == SampleTime(note.time, timePerSample, i) && note.time <= time
    requires alpha == Level(state, time, note.on, note.offTime)
    ensures Carries(Step(state, time, note.on), settings, note.on)
    ensures Samples(note, settings, timePerSample, osc, i) + [alpha * osc(time)]
      == Samples(note, settings, timePerSample, osc, i + 1)
  {
    CarriedLevel(state, settings, time, note.on, note.offTime);
    StepCarries(state, settings, time, note.on);
    assert alpha * osc(time) == Sample(note, settings, timePerSample, osc, i);
    assert Samples(note, settings, timePerSample, osc, i) + [alpha * osc(time)]
      == Samples(note, settings, timePerSample, osc, i + 1);
  }
}
