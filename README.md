# SynthOne core in Dafny

A model of the signal and note-lifecycle core of SynthOne, a small
polyphonic VST synthesizer written in Rust. The model covers:

- the note registry: MIDI note-on and note-off, the per-block clock advance,
  and the purge of notes whose release is over;
- the ADSR envelope and its one piece of state, `max_alpha`;
- block synthesis for one voice: envelope times oscillator, sample by sample;
- the wavetable oscillator's table-index and blend arithmetic;
- the mixer, which sums buffers with a gain per input, and the amplifier,
  which scales a buffer in place;
- the low-pass filter's cutoff arithmetic and its in-place mask loop over
  the spectrum.

Samples, times and frequencies are `f32` in the program. Here they are
exact `real`s. Rust's float-to-integer casts and the float remainder `%` are
written out in `numeric.dfy` and `oscillator.dfy`: `as usize` truncates and
sends negatives to 0, and `%` truncates toward zero, taking the sign of the
dividend.

Files and modules:

- `numeric.dfy` (`Numeric`): min, max, truncation, and `as usize`.
- `notes.dfy` (`Notes`):
  - `Note` and the `Notebook` class, whose map field its methods reassign.
  - Every method is tied to a specification function on maps: `Insert`,
    `Release`, `Advance` and `Purge`.
  - `EndBlock` is the advance-then-purge that the block orchestrator
    performs after one block; `EndBlocks` repeats it over a run of blocks
    and is used to state the lifetime of a released note.
- `envelope.dfy` (`Envelope`):
  - `Level`, the envelope as a function, and `Step`, its state change.
  - The `Adsr` class, whose `Process` is proved against both.
- `voice.dfy` (`Voice`):
  - The pitch-to-frequency conversion, with the exponential as a parameter.
  - `Play`, the per-sample loop, proved against `Samples`, with the
    oscillator as a parameter.
- `oscillator.dfy` (`Oscillator`): the wavetable oscillator. It is a value,
  and its `process` is a function of the oscillator, the table and the time.
- `mixer.dfy` (`Mixer`):
  - The `SimpleMixer` class, whose nested accumulation loops run over an
    array and are proved against `Mix`.
  - The `SimpleAmp` class, which scales an `array` in place.
- `filter.dfy` (`Filter`): the filter value and the mask loop over the
  spectrum `array`.

The oscillator's blend computes `sample_b + (sample_a - sample_b) * warp`,
so warp 0 yields wave index 1 (`sample_b`) and warp 1 yields wave index 0
(`Oscillator.Process`).

Two facts the proofs bring out:

- `max_alpha` never changes a level. `Voice.Play` builds a new envelope for
  every block, so `max_alpha` is 1 at the start of each block. While the
  gate is open, `max_alpha` is written but never read. While it is closed,
  it is read but never written. So the release always starts from the
  sustain level when the sustain level is at most 1. `Envelope.RunLevelIsFresh`
  and `Voice.Play` state this. Through `Voice.Play` the level therefore
  stays in [0, 1] for a sustain level in [0, 1]. The envelope component on
  its own can go below zero: a release that starts below the sustain level
  (an attack cut short) still falls at the rate sustain/release, and
  `Envelope.ReleaseFromBelowSustainUndershoots` exhibits a level of -0.3.
- In exact arithmetic the table index is always below 4096. The comment at
  `src/dsp/oscillator.rs:104` worries about this case. `Oscillator.TableIndex`
  states the bound.

## Model

| member | source | states |
|---|---|---|
| Notes.FromMidi | src/notes.rs:19-27 | the new note takes the event's key and velocity, its clock and release stamp are 0, and its gate is open |
| Notes.UpdateTime | src/notes.rs:29-31 | the clock moves by exactly `delta`; pitch, velocity, gate and release stamp are unchanged |
| Notes.TurnOff | src/notes.rs:33-36 | the gate closes and the release stamp equals the current clock; pitch, velocity and clock are unchanged |
| Notes.Insert | src/notes.rs:51-53 | after note-on the key set gains the event's key, that entry is the fresh note, every other entry is unchanged, and keying by pitch and consistent clocks are preserved |
| Notes.Release | src/notes.rs:55-59 | a note-off for an absent pitch changes nothing; for a present pitch only that note is turned off; the key set is unchanged; the invariants are preserved |
| Notes.Advance | src/notes.rs:65-69 | every note, and only those, has its clock advanced by `delta`; the key set is unchanged; a non-negative advance keeps clocks consistent |
| Notes.Purge | src/notes.rs:74-77 | a note survives exactly when its gate is open or it was released less than `threshold` ago; a gated-on note is never removed; survivors are unchanged; the key set only shrinks |
| Notes.ReleaseIdempotent | src/notes.rs:33-36 | two note-offs for the same pitch with no block in between leave the same registry as one |
| Notes.ReleaseAgainRestamps | src/notes.rs:33-36 | a second note-off after a block of `delta` seconds moves the release stamp to the new clock, so the note's age restarts at 0 |
| Notes.EndBlock | src/dsp/mod.rs:67-72 | after one block, exactly the notes whose advanced clock still passes the purge remain, each with its clock advanced by the block's duration; held notes are never dropped; keying by pitch is preserved, and consistent clocks too for a non-negative duration |
| Notes.EndBlocks | src/dsp/mod.rs:67-72 | over a run of blocks no note appears, a held note is never dropped, a note changes nothing but its clock, and keying by pitch and (for non-negative durations) consistent clocks are preserved |
| Notes.ReleasedNoteLifetime | src/notes.rs:29-36 | after a note-off, and through any non-empty run of blocks of non-negative durations (each an advance followed by a purge), the note is present exactly while the total elapsed time is below the threshold; while present, its gate stays closed, its stamp stays put and its age is that total |
| Notes.ListOneMore | src/notes.rs:61-63 | copying one more pending note keeps the copy exact: every copied note is stored under its pitch, no pitch is copied twice, and every pitch not pending has been copied |
| Notes.Notebook.constructor | src/notes.rs:45-49 | a new notebook is empty |
| Notes.Notebook.NoteOn | src/notes.rs:51-53 | the new registry is `Insert` of the old one |
| Notes.Notebook.NoteOff | src/notes.rs:55-59 | the new registry is `Release` of the old one at the event's key |
| Notes.Notebook.GetNotes | src/notes.rs:61-63 | the result lists every stored note exactly once, each equal to the stored entry, with no duplicate and nothing missing |
| Notes.Notebook.UpdateNoteTimes | src/notes.rs:65-69 | the new registry is `Advance` of the old one |
| Notes.Notebook.PurgeOldNotes | src/notes.rs:74-77 | the new registry is `Purge` of the old one |
| Numeric.Min | src/dsp/envelope.rs:47 | `f32::min` on numbers: the result is one of the two values and at most both |
| Numeric.Max | src/dsp/oscillator.rs:110-111 | the larger of two samples: one of the two and at least both (used to state the blend bound) |
| Numeric.Trunc | src/dsp/oscillator.rs:102 | rounding toward zero: the result lies within 1 of `x`, toward zero |
| Numeric.AsIndex | src/dsp/oscillator.rs:107-108 | `as usize`: a negative value gives 0, otherwise the integer part |
| Envelope.Initial | src/dsp/envelope.rs:19-27 | a new envelope has the given durations and sustain level and `max_alpha` 1 |
| Envelope.Level | src/dsp/envelope.rs:31-55 | the level of each branch, defined without division by zero whenever the clock is non-negative and the release stamp is not in the future; with a sustain level in [0, 1] the level stays in [0, 1] while the gate is open, or after the gate closes when `max_alpha` is at least the sustain level |
| Envelope.AttackRamp | src/dsp/envelope.rs:35-36 | during the attack the level lies in [0, 1) |
| Envelope.DecayRamp | src/dsp/envelope.rs:39-40 | during the decay, with a sustain level in [0, 1], the level lies in [sustain, 1], and strictly above the sustain level when that is below 1 |
| Envelope.ReleaseRamp | src/dsp/envelope.rs:47-51 | during the release, with a non-negative sustain level, the level lies in [start - sustain, start] |
| Envelope.Step | src/dsp/envelope.rs:35-37 | only a level produced with the gate open during the attack is stored as `max_alpha`; every other call changes nothing; the settings never change |
| Envelope.AttackPhase | src/dsp/envelope.rs:35-37 | during the attack the level is `time/attack`, which lies in [0, 1) and is 0 at note-on |
| Envelope.DecayPhase | src/dsp/envelope.rs:39-40 | during the decay the level is `1 - (time - attack)/decay * (1 - sustain)` |
| Envelope.DecayStart | src/dsp/envelope.rs:39-40 | the decay starts from exactly 1 at the end of a non-negative attack |
| Envelope.DecayAboveSustain | src/dsp/envelope.rs:39-40 | during the decay, with a sustain level in [0, 1), the level lies in (sustain, 1] |
| Envelope.SustainPhase | src/dsp/envelope.rs:41-42 | after attack and decay, with the gate open, the level is the sustain level |
| Envelope.ReleaseFromBelowSustainUndershoots | src/dsp/envelope.rs:47-51 | a release starting below the sustain level passes below zero: the level is -0.3 half-way through a one-second release from 0.1 with sustain 0.8 |
| Envelope.ReleasePhase | src/dsp/envelope.rs:47-51 | the release starts at `min(max_alpha, sustain)` and falls at the rate `sustain/release`, whatever level it starts from |
| Envelope.SilentAfterRelease | src/dsp/envelope.rs:32 | once `release` seconds have passed since the gate closed, the level is 0 |
| Envelope.GateOnIgnoresMaxAlpha | src/dsp/envelope.rs:34-43 | with the gate open, `max_alpha` plays no part in the level |
| Envelope.StepCarries | src/dsp/envelope.rs:35-37 | a step keeps the settings; with the gate closed it changes nothing |
| Envelope.CarriedLevel | src/dsp/envelope.rs:31-55 | an envelope whose settings are unchanged, and whose state is unchanged while the gate is closed, gives the same level as the one it started as |
| Envelope.RunCarries | src/dsp/envelope.rs:35-37 | any run of calls with a fixed gate keeps the settings, and with the gate closed it changes nothing |
| Envelope.RunLevelIsFresh | src/dsp/envelope.rs:31-55 | whatever levels an envelope produced before with the same gate, its next level equals that of a fresh envelope |
| Envelope.Adsr.constructor | src/dsp/envelope.rs:19-27 | the object's state is `Initial` of its arguments |
| Envelope.Adsr.Process | src/dsp/envelope.rs:31-55 | returns `Level` of the old state and moves to `Step` of it |
| Voice.AsSigned | src/dsp/voice.rs:20 | the `u8 as i8` cast: congruent to the byte mod 256, in [-128, 128), and unchanged below 128 |
| Voice.SemitonesFromA4 | src/dsp/voice.rs:15-20 | for a MIDI pitch (below 128) the distance from A4 is `pitch - 69`; the `i8` subtraction overflows exactly for bytes 128..196 |
| Voice.MidiPitchToFreq | src/dsp/voice.rs:15-21 | a frequency exists exactly when the semitone distance does not overflow |
| Voice.A4Is440 | src/dsp/voice.rs:15-21 | pitch 69 sounds at 440 Hz for any exponential with `exp2(0) = 1` |
| Voice.SampleTimeSpacing | src/dsp/voice.rs:38-51 | sample 0 is at the note's clock and consecutive samples are exactly one time step apart |
| Voice.Sample | src/dsp/voice.rs:51-53 | sample `i` is the level times the oscillator at the sample's time; with a sustain level in [0, 1] (and `max_alpha` at least the sustain level once the gate is closed) it is never larger in magnitude than the oscillator's output |
| Voice.SampleTimeBounds | src/dsp/voice.rs:51 | no sample of a block is timed before the note's current clock |
| Voice.Samples | src/dsp/voice.rs:50-56 | the block has `n` samples, and sample `i` is the level at `note.time + i * timePerSample` times the oscillator at that time |
| Voice.PlayStep | src/dsp/voice.rs:51-55 | one loop step: the carried envelope yields exactly sample `i`, and it still carries only its initial settings |
| Voice.Play | src/dsp/voice.rs:35-58 | the block equals `Samples` for a fresh envelope (`max_alpha` 1) and a time step of `1/sampleRate` |
| Oscillator.FMod | src/dsp/oscillator.rs:102 | the float remainder takes the sign of the dividend and is smaller than the divisor in size |
| Oscillator.New | src/dsp/oscillator.rs:79-96 | for a positive frequency and sample rate, `samplesPerCycle * frequency = sampleRate` and `scaleFactor * samplesPerCycle = 4096`; the waves are 0 and 1, and the warp is stored unchanged |
| Oscillator.SampleOffset | src/dsp/oscillator.rs:101 | the number of samples since time zero is non-negative for a non-negative time and sample rate |
| Oscillator.CycleOffset | src/dsp/oscillator.rs:102 | the offset into the current cycle is below the cycle length, and non-negative for a non-negative sample count |
| Oscillator.IndexAt | src/dsp/oscillator.rs:104-105 | an offset into the cycle maps to a table position below 4096, and to 0 at or before the cycle's start |
| Oscillator.TableIndex | src/dsp/oscillator.rs:101-105 | the table position is below 4096 for every time, in exact arithmetic |
| Oscillator.TableIndexPeriodic | src/dsp/oscillator.rs:101-105 | for a non-negative time, a time one period (`samplesPerCycle/sampleRate`) later reads the same table position |
| Oscillator.FModPeriodic | src/dsp/oscillator.rs:102 | for non-negative values, the remainder repeats with period `y` |
| Oscillator.Process | src/dsp/oscillator.rs:100-112 | warp 0 gives wave 1's sample, warp 1 gives wave 0's sample, and a warp in [0, 1] gives a value between the two samples |
| Oscillator.BlendBetween | src/dsp/oscillator.rs:110-111 | the blend `b + (a - b) * w` is `b` at 0, `a` at 1, and between them for `w` in [0, 1] |
| Mixer.Term | src/dsp/mixer.rs:37 | an input's contribution to a sample is 0 at gain 0 and the channel's own sample at gain 1 |
| Mixer.Mix | src/dsp/mixer.rs:35-39 | a single input is mixed as itself |
| Mixer.MixSilent | src/dsp/mixer.rs:35-39 | inputs that all contribute nothing to a sample mix to silence there |
| Mixer.Zip | src/dsp/mixer.rs:35 | input `k` pairs channel `k` with gain `k` |
| Mixer.MixAppend | src/dsp/mixer.rs:35-39 | mixing two groups of inputs gives the sum of their mixes |
| Mixer.MixPrefixStep | src/dsp/mixer.rs:35-39 | adding input `i` to the mix adds exactly its term |
| Mixer.MixColumn | src/dsp/mixer.rs:36-38 | one pass of the inner loop turns the mix of the first `i` inputs into the mix of the first `i + 1` |
| Mixer.MixRemove | src/dsp/mixer.rs:35-39 | taking input `i` out of the mix takes out exactly its term |
| Mixer.MixReorder | src/dsp/mixer.rs:35-39 | in exact arithmetic the mix does not depend on the order of the inputs |
| Mixer.SimpleMixer.constructor | src/dsp/mixer.rs:16-21 | a new mixer has no inputs |
| Mixer.SimpleMixer.AddInput | src/dsp/mixer.rs:25-28 | appends one channel and one gain, keeping the two lists the same length and the earlier entries unchanged |
| Mixer.SimpleMixer.Process | src/dsp/mixer.rs:30-42 | given at least one input, and no input shorter than the first, the output is as long as the first input and each sample is the sum over the inputs of sample times gain |
| Mixer.Accumulate | src/dsp/mixer.rs:36-38 | each output sample gains the channel's sample times the gain |
| Mixer.Scaled | src/dsp/mixer.rs:60-64 | the scaled buffer has the same length and every sample is the old one times the volume |
| Mixer.ScaledUnitAndZero | src/dsp/mixer.rs:60-64 | volume 1 leaves a buffer as it is, and volume 0 silences it |
| Mixer.ScaledCompose | src/dsp/mixer.rs:60-64 | scaling twice is scaling by the product, and a non-zero volume is undone by its inverse |
| Mixer.SimpleAmp.constructor | src/dsp/mixer.rs:56-58 | stores the volume |
| Mixer.SimpleAmp.Process | src/dsp/mixer.rs:60-64 | every sample is multiplied by the volume in place, and the length is unchanged |
| Filter.Unscale | src/dsp/filter.rs:50 | the bin divided by the factor: multiplying back gives the original |
| Filter.Scale | src/dsp/filter.rs:55 | scaling by 0 gives the zero bin, and by 1 the bin itself |
| Filter.New | src/dsp/filter.rs:15-26 | the cutoff in hertz is `frequencyNorm` of half the sample rate, and the sample rate is stored |
| Filter.SpectrumSize | src/dsp/filter.rs:36-37 | the forward transform of `n` real samples yields `n/2 + 1` bins, at least one |
| Filter.BinWidth | src/dsp/filter.rs:43 | the width of one bin is positive for a positive sample rate |
| Filter.CutoffBucket | src/dsp/filter.rs:43-44 | the first cut bin is the one whose frequency range holds a non-negative cutoff (`k * width <= cutoff < k * width + width`), and bin 0 for a cutoff of 0 or below |
| Filter.CutoffIsFractionOfSpectrum | src/dsp/filter.rs:43-44 | the cutoff bin is `frequencyNorm * spectrumSize` cast to an index, i.e. its floor for a non-negative norm |
| Filter.NormExtremes | src/dsp/filter.rs:43-56 | a norm of 0 or below cuts every bin; a norm of 1 or above cuts none |
| Filter.Masked | src/dsp/filter.rs:47-57 | the masked spectrum has the same length, every bin from the cutoff on is zero, and every bin below it is the original divided by the block length |
| Filter.MaskExtremes | src/dsp/filter.rs:47-57 | a cutoff of 0 zeroes every bin; a cutoff past the last bin only normalises |
| Filter.MaskSpectrum | src/dsp/filter.rs:42-57 | the loop leaves the spectrum equal to `Masked` of the old one, at the cutoff bin computed from the filter |

## Left out

- f32 rounding is not modelled; everything is exact real arithmetic. The
  index bound, the periodicity of the index, the cutoff formula and the
  order-independence of the mix hold in exact arithmetic only. In `f32`,
  `unscaled_sample_offset * scale_factor` may round up to 4096 and index
  past the table.
- `as usize` is modelled for the values the code produces. Its saturation at
  the top of `usize` and its mapping of NaN to 0 are not modelled.
- Infinities and NaN are not modelled. A zero sample rate, a zero frequency
  or a zero block length make the Rust code divide by zero. Exact reals
  cannot express that, so these members require the divisor to be non-zero:
  - Envelope.Level: requires `InDomain`, a non-negative clock and a release
    stamp not in the future. Outside it, `f32` division can produce infinity
    or NaN. `Insert`, `Release`, `Purge`, and `Advance` by a non-negative
    duration all preserve `Notes.WellTimed`. That predicate gives `InDomain`
    for every stored note.
  - Envelope.Adsr.Process: requires `InDomain`, for the same reason as
    Envelope.Level.
  - Voice.Play: requires `0 < sampleRate` and a note with a consistent clock
    (`Playable`).
  - Oscillator.New: requires a positive frequency and sample rate.
  - Filter.CutoffBucket: requires a positive sample rate.
  - Filter.MaskSpectrum: requires a positive sample rate and a non-empty
    block.
- `f32::min` with NaN operands is not modelled; `Numeric.Min` is the
  ordinary minimum.
- Voice.SemitonesFromA4 models the overflow of `pitch as i8 - 69` as `None`.
  That is the panic of a debug build. A release build wraps instead, and the
  wrap is not modelled. MIDI pitches (0..127) never overflow.
- Voice.MidiPitchToFreq takes the base-2 exponential as a parameter
  `exp2`. Only `exp2(0) = 1` is assumed, which is enough for pitch 69.
- Voice.Play takes the oscillator as a function of time. The Sine
  oscillator it builds uses `sin` and is not part of this model. Nor is
  the frequency it passes to that oscillator.
- Voice.Play reads the envelope settings, the sample rate and the block
  length as plain parameters. The plugin's parameter store (locks, atomic
  floats, the host parameter protocol) is not part of this model.
- Voice.Play calls `Process` on an envelope that the Rust code binds
  without `mut`. The model treats that envelope as mutable, as the call
  requires.
- The wave table loading (`WaveTable::new`: embedded JSON deserialisation)
  is not modelled. The table is a parameter of `Oscillator.Process`, and
  `Readable` states what `process` needs of it: two waves of at least 4096
  samples each.
- The Sine oscillator (`src/dsp/oscillator.rs:20-34`) uses `sin` and is not
  modelled.
- The forward and inverse real FFTs of the filter are not modelled. The
  model starts from the spectrum the forward transform produces and ends
  with the spectrum handed to the inverse one. Only the spectrum's size,
  `n/2 + 1`, is taken from the transform.
- The block orchestrator (`src/dsp/mod.rs`) is not part of this model. It
  works on the host's audio buffers and takes locks. Its sequence of
  advance-then-purge after each block, with threshold 0.5, is what
  `Notes.EndBlock` models, with the threshold as a parameter.
- MIDI event decoding (`src/lib.rs`) is not modelled. Note events arrive
  already decoded as `MidiEvent` values, so `key` is `data[1]` and
  `velocity` is `data[2]`. The host glue, the logger, the editor and the
  plugin state are not part of this model.
- Notes.Notebook.GetNotes returns the notes in an unspecified order, like
  the iteration order of the Rust `HashMap`. The model picks any pending key
  at each step and states no order.
- Notes.ReleasedNoteLifetime requires at least one block after the
  note-off. With none, no purge has happened yet and the note is still
  present whatever the threshold.
