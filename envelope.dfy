/*
 * The ADSR amplitude envelope: a piecewise-linear function of the time since
 * note-on, the gate, and the time the gate closed.  Its one piece of state,
 * `maxAlpha`, records the last level reached while ramping up during the
 * attack, so that a release starting early ramps down from there rather than
 * from the sustain level.
 */
module Envelope {
  import opened Numeric

  /** The value of an envelope: its four settings and its `maxAlpha`. */
  datatype AdsrState = AdsrState(attack: real, decay: real, sustain: real, release: real, maxAlpha: real)

  /** The state of a freshly built envelope. */
  function Initial(attack: real, decay: real, sustain: real, release: real): (s: AdsrState)
    ensures s.maxAlpha == 1.0
    ensures s.attack == attack && s.decay == decay && s.sustain == sustain && s.release == release
  {
    AdsrState(attack, decay, sustain, release, 1.0)
  }

  /**
   * When an envelope may be asked for a level: the clock is not negative
   * and, with the gate closed, the gate did not close in the future.  Each
   * strict `<` guard below then implies that the divisor it protects is
   * positive, so no phase divides by zero, whatever the durations.
   */
  predicate InDomain(time: real, on: bool, timeOff: real)
  {
    0.0 <= time && (!on ==> timeOff <= time)
  }

  /**
   * The amplitude of the envelope at `time`.  With the gate open: a ramp
   * from 0 to 1 over the attack, a ramp from 1 to the sustain level over the
   * decay, then the sustain level.  With the gate closed: a ramp down from
   * the lower of `maxAlpha` and the sustain level, at the rate
   * sustain/release, and silence once `release` seconds have passed.
   */
  function Level(s: AdsrState, time: real, on: bool, timeOff: real): (r: real)
    requires InDomain(time, on, timeOff)
    ensures 0.0 <= s.sustain <= 1.0 && (on || s.sustain <= s.maxAlpha) ==> 0.0 <= r <= 1.0
  {
    if on then
      if time < s.attack then AttackRamp(s.attack, time)
      else if time < s.attack + s.decay then DecayRamp(s, time)
      else s.sustain
    else
      var sinceOff := time - timeOff;
      if sinceOff < s.release then ReleaseRamp(Min(s.maxAlpha, s.sustain), s.sustain, s.release, sinceOff)
      else 0.0
  }

  /** The attack ramp: from 0 at note-on towards 1 at the end of the attack. */
  function AttackRamp(attack: real, time: real): (r: real)
    requires 0.0 <= time < attack
    ensures 0.0 <= r < 1.0
  {
    AttackBounds(attack, time);
    time * (1.0 / attack)
  }

  /** The decay ramp: from 1 at the end of the attack towards the sustain level. */
  function DecayRamp(s: AdsrState, time: real): (r: real)
    requires s.attack <= time < s.attack + s.decay
    ensures 0.0 <= s.sustain <= 1.0 ==> s.sustain <= r <= 1.0
    ensures 0.0 <= s.sustain < 1.0 ==> s.sustain < r
  {
    DecayBounds(s.attack, s.decay, s.sustain, time);
    1.0 - (time - s.attack) * ((1.0 - s.sustain) / s.decay)
  }

  /** The release ramp: down from `start` at the rate sustain/release. */
  function ReleaseRamp(start: real, sustain: real, release: real, sinceOff: real): (r: real)
    requires 0.0 <= sinceOff < release
    ensures 0.0 <= sustain ==> start - sustain <= r <= start
  {
    ReleaseBounds(sustain, release, sinceOff);
    start - sinceOff * (sustain / release)
  }

  lemma AttackBounds(attack: real, time: real)
    requires 0.0 <= time < attack
    ensures 0.0 <= time * (1.0 / attack) < 1.0
  {
    assert time * (1.0 / attack) == time / attack;
  }

  lemma DecayBounds(attack: real, decay: real, sustain: real, time: real)
    requires attack <= time < attack + decay
    ensures 0.0 < decay
    ensures time == attack ==> 1.0 - (time - attack) * ((1.0 - sustain) / decay) == 1.0
    ensures 0.0 <= sustain <= 1.0 ==> sustain <= 1.0 - (time - attack) * ((1.0 - sustain) / decay) <= 1.0
    ensures 0.0 <= sustain < 1.0 ==> sustain < 1.0 - (time - attack) * ((1.0 - sustain) / decay)
  {
    var f := (time - attack) / decay;
    FractionBelowOne(time - attack, decay);
    if 0.0 <= sustain <= 1.0 {
      GapAtMost(f, sustain);
    }
    if 0.0 <= sustain < 1.0 {
      GapBelow(f, sustain);
    }
    assert (time - attack) * ((1.0 - sustain) / decay) == f * (1.0 - sustain);
  }

  /** A fraction f in [0, 1) of the gap between a sustain level in [0, 1] and full level stays within that gap. */
  lemma GapAtMost(f: real, sustain: real)
    requires 0.0 <= f < 1.0 && 0.0 <= sustain <= 1.0
    ensures 0.0 <= f * (1.0 - sustain) <= 1.0 - sustain
  {
    MulNonNegative(f, 1.0 - sustain);
    MulNonNegative(1.0 - f, 1.0 - sustain);
    assert (1.0 - f) * (1.0 - sustain) == (1.0 - sustain) - f * (1.0 - sustain);
  }

  lemma GapBelow(f: real, sustain: real)
    requires 0.0 <= f < 1.0 && 0.0 <= sustain < 1.0
    ensures f * (1.0 - sustain) < 1.0 - sustain
  {
    MulPositive(1.0 - f, 1.0 - sustain);
    assert (1.0 - f) * (1.0 - sustain) == (1.0 - sustain) - f * (1.0 - sustain);
  }

  lemma FractionBelowOne(x: real, d: real)
    requires 0.0 <= x < d
    ensures 0.0 <= x / d < 1.0
  {
    assert x / d * d == x;
  }

  lemma Reassociate(x: real, d: real, g: real)
    requires d != 0.0
    ensures x * (g / d) == x / d * g
  {
  }

  lemma ReleaseBounds(sustain: real, release: real, sinceOff: real)
    requires 0.0 <= sinceOff < release
    ensures 0.0 <= sustain ==> 0.0 <= sinceOff * (sustain / release) <= sustain
  {
    var f := sinceOff / release;
    assert 0.0 <= f < 1.0;
    assert sinceOff * (sustain / release) == f * sustain;
  }

  /**
   * The envelope after producing its level at `time`: only a level produced
   * during the attack is remembered.
   */
  function Step(s: AdsrState, time: real, on: bool): (r: AdsrState)
    requires 0.0 <= time
    ensures r.attack == s.attack && r.decay == s.decay && r.sustain == s.sustain && r.release == s.release
    ensures r.maxAlpha != s.maxAlpha ==> on && time < s.attack
    ensures on && time < s.attack ==> r.maxAlpha == Level(s, time, true, 0.0)
  {
    if on && time < s.attack then s.(maxAlpha := Level(s, time, true, 0.0)) else s
  }

  /** With the gate open during the attack, the level is time/attack, in [0, 1). */
  lemma AttackPhase(s: AdsrState, time: real)
    requires 0.0 <= time < s.attack
    ensures Level(s, time, true, 0.0) == time / s.attack
    ensures 0.0 <= Level(s, time, true, 0.0) < 1.0
    ensures Level(s, 0.0, true, 0.0) == 0.0
  {
    assert time * (1.0 / s.attack) == time / s.attack;
  }

  /** During the decay the level falls linearly, at the rate (1 - sustain)/decay. */
  lemma DecayPhase(s: AdsrState, time: real)
    requires 0.0 <= time && s.attack <= time < s.attack + s.decay
    ensures Level(s, time, true, 0.0) == 1.0 - (time - s.attack) / s.decay * (1.0 - s.sustain)
  {
    assert Level(s, time, true, 0.0) == DecayRamp(s, time);
    Reassociate(time - s.attack, s.decay, 1.0 - s.sustain);
  }

  /** The decay starts from exactly 1 at the end of a non-negative attack. */
  lemma DecayStart(s: AdsrState)
    requires 0.0 <= s.attack < s.attack + s.decay
    ensures Level(s, s.attack, true, 0.0) == 1.0
  {
    assert Level(s, s.attack, true, 0.0) == DecayRamp(s, s.attack);
    DecayBounds(s.attack, s.decay, s.sustain, s.attack);
  }

  /** For a sustain level in [0, 1), the decay stays strictly above the sustain level and at most 1. */
  lemma DecayAboveSustain(s: AdsrState, time: real)
    requires 0.0 <= time && s.attack <= time < s.attack + s.decay
    requires 0.0 <= s.sustain < 1.0
    ensures s.sustain < Level(s, time, true, 0.0) <= 1.0
  {
    assert Level(s, time, true, 0.0) == DecayRamp(s, time);
  }

  /** Once attack and decay are over, the level is the sustain level for as long as the gate is open. */
  lemma SustainPhase(s: AdsrState, time: real)
    requires 0.0 <= time && s.attack <= time && s.attack + s.decay <= time
    ensures Level(s, time, true, 0.0) == s.sustain
  {
  }

  /**
   * During the release the level starts from min(maxAlpha, sustain) and
   * falls at the rate sustain/release whatever level it starts from.
   */
  lemma ReleasePhase(s: AdsrState, timeOff: real, t1: real, t2: real)
    requires 0.0 <= timeOff <= t1 <= t2 < timeOff + s.release
    ensures Level(s, timeOff, false, timeOff) == Min(s.maxAlpha, s.sustain)
    ensures Level(s, t1, false, timeOff) - Level(s, t2, false, timeOff) == (t2 - t1) * (s.sustain / s.release)
  {
  }

  /**
   * A release that starts below the sustain level still falls at the rate
   * sustain/release, so it passes below zero before the release time is
   * over: an envelope whose attack was cut short at 0.1 gives -0.3 half-way
   * through a one-second release with sustain 0.8.
   */
  lemma ReleaseFromBelowSustainUndershoots()
    ensures Level(AdsrState(1.0, 1.0, 0.8, 1.0, 0.1), 2.5, false, 2.0) == -0.3
  {
  }

  /** Once `release` seconds have passed since the gate closed, the envelope is silent. */
  lemma SilentAfterRelease(s: AdsrState, time: real, timeOff: real)
    requires 0.0 <= time && timeOff <= time && s.release <= time - timeOff
    ensures Level(s, time, false, timeOff) == 0.0
  {
  }

  /** With the gate open, `maxAlpha` plays no part in the level. */
  lemma GateOnIgnoresMaxAlpha(s: AdsrState, peak: real, time: real)
    requires 0.0 <= time
    ensures Level(s.(maxAlpha := peak), time, true, 0.0) == Level(s, time, true, 0.0)
  {
  }

  /**
   * `r` is what an envelope built as `s` can have become while the gate
   * stayed as `on`: the same settings, and with the gate closed the same
   * `maxAlpha` too.
   */
  predicate Carries(r: AdsrState, s: AdsrState, on: bool)
  {
    r.(maxAlpha := s.maxAlpha) == s && (!on ==> r == s)
  }

  /** Producing a level keeps an envelope within what it can have become. */
  lemma StepCarries(r: AdsrState, s: AdsrState, time: real, on: bool)
    requires 0.0 <= time && Carries(r, s, on)
    ensures Carries(Step(r, time, on), s, on)
  {
  }

  /**
   * What an envelope has become never changes its level: with the gate open
   * `maxAlpha` is never read, and with it closed `maxAlpha` is never written.
   */
  lemma CarriedLevel(r: AdsrState, s: AdsrState, time: real, on: bool, timeOff: real)
    requires InDomain(time, on, timeOff) && Carries(r, s, on)
    ensures Level(r, time, on, timeOff) == Level(s, time, on, timeOff)
  {
    if on {
      GateOnIgnoresMaxAlpha(s, r.maxAlpha, time);
    }
  }

  /** The envelope after producing its levels at `times`, in order, with a fixed gate. */
  function Run(s: AdsrState, times: seq<real>, on: bool): AdsrState
    requires NonNegative(times)
    decreases |times|
  {
    if times == [] then s
    else Step(Run(s, times[..|times| - 1], on), times[|times| - 1], on)
  }

  /** A run changes no setting of the envelope, and with the gate closed it changes nothing at all. */
  lemma {:induction false} RunCarries(s: AdsrState, times: seq<real>, on: bool)
    requires NonNegative(times)
    ensures Carries(Run(s, times, on), s, on)
    decreases |times|
  {
    if times != [] {
      var init := times[..|times| - 1];
      assert NonNegative(init) by {
        forall i | 0 <= i < |init| ensures 0.0 <= init[i] {
          assert init[i] == times[i];
        }
      }
      RunCarries(s, init, on);
      StepCarries(Run(s, init, on), s, times[|times| - 1], on);
    }
  }

  /**
   * Whatever levels an envelope produced before, as long as the gate did
   * not change, its level at `time` is that of the envelope it started as.
   */
  lemma RunLevelIsFresh(s: AdsrState, times: seq<real>, time: real, on: bool, timeOff: real)
    requires NonNegative(times)
    requires InDomain(time, on, timeOff)
    ensures Level(Run(s, times, on), time, on, timeOff) == Level(s, time, on, timeOff)
  {
    RunCarries(s, times, on);
    CarriedLevel(Run(s, times, on), s, time, on, timeOff);
  }

  /** The envelope object: its settings are fixed when built; only `maxAlpha` changes. */
  class Adsr {
    const attack: real
    const decay: real
    const sustain: real
    const release: real
    var maxAlpha: real

    ghost function State(): AdsrState
      reads this
    {
      AdsrState(attack, decay, sustain, release, maxAlpha)
    }

    constructor (attack: real, decay: real, sustain: real, release: real)
      ensures State() == Initial(attack, decay, sustain, release)
    {
      this.attack := attack;
      this.decay := decay;
      this.sustain := sustain;
      this.release := release;
      this.maxAlpha := 1.0;
    }

    /** The level at `time` since note-on; records it as `maxAlpha` during the attack. */
    method Process(time: real, on: bool, timeOff: real) returns (alpha: real)
      requires InDomain(time, on, timeOff)
      modifies this
      ensures alpha == Level(old(State()), time, on, timeOff)
      ensures State() == Step(old(State()), time, on)
    {
      alpha := 0.0;
      if on {
        if time < attack {
          alpha := time * (1.0 / attack);
          maxAlpha := alpha;
        } else if time < attack + decay {
          alpha := 1.0 - (time - attack) * ((1.0 - sustain) / decay);
        } else {
          alpha := sustain;
        }
      } else {
        var start := Min(maxAlpha, sustain);
        var sinceOff := time - timeOff;
        if sinceOff < release {
          alpha := start - sinceOff * (sustain / release);
        }
      }
    }
  }
}
