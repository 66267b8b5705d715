/*
 * The note registry: every note the synthesizer is currently sounding (or
 * still releasing), keyed by its MIDI pitch.  Note-on and note-off events
 * arrive from the host; once per audio block the registry advances every
 * note's clock and drops the notes that have been released for long enough.
 *
 * Times are seconds, modelled as exact reals.
 */
module Notes {
  import opened Numeric

  /** An unsigned 8-bit value (Rust `u8`). */
  newtype byte = x: int | 0 <= x < 256

  /** A decoded MIDI channel-voice event: status byte, key, velocity. */
  datatype MidiEvent = MidiEvent(status: byte, key: byte, velocity: byte)

  /**
   * One note.  `time` is the time since its note-on, `offTime` the value
   * `time` had when the gate closed, `on` whether the gate is still open.
   */
  datatype Note = Note(number: byte, velocity: byte, time: real, offTime: real, on: bool)

  /** The note a note-on event starts: clock at zero, gate open. */
  function FromMidi(e: MidiEvent): (n: Note)
    ensures n.number == e.key && n.velocity == e.velocity
    ensures n.on && n.time == 0.0 && n.offTime == 0.0
  {
    Note(e.key, e.velocity, 0.0, 0.0, true)
  }

  /** The note `delta` seconds later. */
  function UpdateTime(n: Note, delta: real): (r: Note)
    ensures r.time - n.time == delta
    ensures r.number == n.number && r.velocity == n.velocity
    ensures r.on == n.on && r.offTime == n.offTime
  {
    n.(time := n.time + delta)
  }

  /** The note with its gate closed now: the release is stamped with the current time. */
  function TurnOff(n: Note): (r: Note)
    ensures !r.on && r.offTime == r.time
    ensures r.number == n.number && r.velocity == n.velocity && r.time == n.time
  {
    n.(on := false, offTime := n.time)
  }

  /** Seconds since the gate closed (meaningful once `on` is false). */
  function Age(n: Note): real
  {
    n.time - n.offTime
  }

  /** Whether a purge with threshold `threshold` keeps the note. */
  predicate Keeps(n: Note, threshold: real)
  {
    n.on || Age(n) < threshold
  }

  /** Every note is stored under its own pitch. */
  ghost predicate KeyedByPitch(m: map<byte, Note>)
  {
    forall p :: p in m ==> m[p].number == p
  }

  /**
   * The clocks are consistent: no note has a negative clock, and no release
   * stamp lies in a note's future.  This is what the envelope needs in order
   * never to divide by zero.
   */
  ghost predicate WellTimed(m: map<byte, Note>)
  {
    forall p :: p in m ==> 0.0 <= m[p].time && m[p].offTime <= m[p].time
  }

  /** The registry after a note-on event. */
  function Insert(m: map<byte, Note>, e: MidiEvent): (r: map<byte, Note>)
    ensures r.Keys == m.Keys + {e.key}
    ensures r[e.key] == FromMidi(e)
    ensures forall p :: p in m && p != e.key ==> r[p] == m[p]
    ensures KeyedByPitch(m) ==> KeyedByPitch(r)
    ensures WellTimed(m) ==> WellTimed(r)
  {
    m[e.key := FromMidi(e)]
  }

  /** The registry after a note-off event for `pitch`; a stray note-off changes nothing. */
  function Release(m: map<byte, Note>, pitch: byte): (r: map<byte, Note>)
    ensures pitch !in m ==> r == m
    ensures r.Keys == m.Keys
    ensures pitch in m ==> r[pitch] == TurnOff(m[pitch])
    ensures forall p :: p in m && p != pitch ==> r[p] == m[p]
    ensures KeyedByPitch(m) ==> KeyedByPitch(r)
    ensures WellTimed(m) ==> WellTimed(r)
  {
    if pitch in m then m[pitch := TurnOff(m[pitch])] else m
  }

  /** The registry `delta` seconds later. */
  function Advance(m: map<byte, Note>, delta: real): (r: map<byte, Note>)
    ensures r.Keys == m.Keys
    ensures forall p :: p in m ==> r[p] == UpdateTime(m[p], delta)
    ensures KeyedByPitch(m) ==> KeyedByPitch(r)
    ensures WellTimed(m) && 0.0 <= delta ==> WellTimed(r)
  {
    map p | p in m :: UpdateTime(m[p], delta)
  }

  /** The registry without the notes released at least `threshold` seconds ago. */
  function Purge(m: map<byte, Note>, threshold: real): (r: map<byte, Note>)
    ensures r.Keys <= m.Keys
    ensures forall p :: p in m ==> (p in r <==> Keeps(m[p], threshold))
    ensures forall p :: p in m && m[p].on ==> p in r
    ensures forall p :: p in r ==> r[p] == m[p]
    ensures KeyedByPitch(m) ==> KeyedByPitch(r)
    ensures WellTimed(m) ==> WellTimed(r)
  {
    map p | p in m && Keeps(m[p], threshold) :: m[p]
  }

  /**
   * What the block orchestrator does to the registry after each block of
   * synthesis: advance every clock by the block's duration, then purge.
   */
  function EndBlock(m: map<byte, Note>, delta: real, threshold: real): (r: map<byte, Note>)
    ensures r.Keys <= m.Keys
    ensures forall p :: p in m ==> (p in r <==> Keeps(UpdateTime(m[p], delta), threshold))
    ensures forall p :: p in r ==> r[p] == UpdateTime(m[p], delta)
    ensures forall p :: p in m && m[p].on ==> p in r
    ensures KeyedByPitch(m) ==> KeyedByPitch(r)
    ensures WellTimed(m) && 0.0 <= delta ==> WellTimed(r)
  {
    Purge(Advance(m, delta), threshold)
  }

  /**
   * The registry after a run of blocks of the given durations.  A held note
   * is never dropped, no note appears, and a note changes only its clock.
   */
  function EndBlocks(m: map<byte, Note>, deltas: seq<real>, threshold: real): (r: map<byte, Note>)
    ensures r.Keys <= m.Keys
    ensures forall p :: p in m && m[p].on ==> p in r
    ensures forall p :: p in r ==>
      r[p].number == m[p].number && r[p].velocity == m[p].velocity && r[p].on == m[p].on && r[p].offTime == m[p].offTime
    ensures KeyedByPitch(m) ==> KeyedByPitch(r)
    ensures WellTimed(m) && NonNegative(deltas) ==> WellTimed(r)
    decreases |deltas|
  {
    if deltas == [] then m
    else
      var init := deltas[..|deltas| - 1];
      assert NonNegative(deltas) ==> NonNegative(init) by {
        if NonNegative(deltas) {
          forall i | 0 <= i < |init| ensures 0.0 <= init[i] {
            assert init[i] == deltas[i];
          }
        }
      }
      EndBlock(EndBlocks(m, init, threshold), deltas[|deltas| - 1], threshold)
  }

  function Sum(s: seq<real>): real
    decreases |s|
  {
    if s == [] then 0.0 else Sum(s[..|s| - 1]) + s[|s| - 1]
  }

  /**
   * A note released and then carried through blocks of non-negative
   * durations is still present exactly while the total time since its
   * release is below the threshold; while present its gate stays closed,
   * its release stamp stays put and its age is that total.
   */
  lemma {:induction false} ReleasedNoteLifetime(m: map<byte, Note>, pitch: byte, deltas: seq<real>, threshold: real)
    requires pitch in m
    requires NonNegative(deltas)
    requires deltas != []
    ensures var r := EndBlocks(Release(m, pitch), deltas, threshold);
      (pitch in r <==> Sum(deltas) < threshold)
      && (pitch in r ==> !r[pitch].on && r[pitch].offTime == m[pitch].time && Age(r[pitch]) == Sum(deltas))
    decreases |deltas|
  {
    var init := deltas[..|deltas| - 1];
    var d := deltas[|deltas| - 1];
    var before := EndBlocks(Release(m, pitch), init, threshold);
    assert EndBlocks(Release(m, pitch), deltas, threshold) == EndBlock(before, d, threshold);
    if init == [] {
      assert before == Release(m, pitch);
      assert Sum(deltas) == Sum(init) + d;
    } else {
      assert NonNegative(init) by {
        forall i | 0 <= i < |init| ensures 0.0 <= init[i] {
          assert init[i] == deltas[i];
        }
      }
      ReleasedNoteLifetime(m, pitch, init, threshold);
      if pitch in before {
        assert Age(Advance(before, d)[pitch]) == Sum(init) + d;
      } else {
        assert threshold <= Sum(init);
      }
    }
  }

  /** The state of one note-off event applied twice without a block in between: the second one changes nothing. */
  lemma ReleaseIdempotent(m: map<byte, Note>, pitch: byte)
    ensures Release(Release(m, pitch), pitch) == Release(m, pitch)
  {
  }

  /** A second note-off after a block moves the release stamp forward to the current clock. */
  lemma ReleaseAgainRestamps(m: map<byte, Note>, pitch: byte, delta: real)
    requires pitch in m
    ensures var r := Release(Advance(Release(m, pitch), delta), pitch);
      pitch in r && r[pitch].offTime == m[pitch].time + delta && Age(r[pitch]) == 0.0
  {
  }

  /**
   * `r` lists the notes of `m` whose pitches are not `pending`, each once:
   * the state of the copy loop of `Notebook.GetNotes`.
   */
  ghost predicate ListsAllBut(m: map<byte, Note>, r: seq<Note>, pending: set<byte>)
  {
    && pending <= m.Keys
    && |r| + |pending| == |m.Keys|
    && (forall i :: 0 <= i < |r| ==> r[i].number in m && r[i].number !in pending && m[r[i].number] == r[i])
    && (forall p :: p in m && p !in pending ==> exists i :: 0 <= i < |r| && r[i].number == p)
    && (forall i, j :: 0 <= i < j < |r| ==> r[i].number != r[j].number)
  }

  /** Copying one more pending note keeps the list exact. */
  lemma ListOneMore(m: map<byte, Note>, r: seq<Note>, pending: set<byte>, p: byte)
    requires KeyedByPitch(m) && ListsAllBut(m, r, pending) && p in pending
    ensures ListsAllBut(m, r + [m[p]], pending - {p})
  {
    var r' := r + [m[p]];
    forall q | q in m && q !in pending - {p} ensures exists i :: 0 <= i < |r'| && r'[i].number == q {
      if q == p {
        assert r'[|r|].number == q;
      } else {
        var i :| 0 <= i < |r| && r[i].number == q;
        assert r'[i].number == q;
      }
    }
  }

  /**
   * The registry of notes.  The map is keyed by pitch and every note sits
   * under its own pitch, so there is at most one note per pitch.
   */
  class Notebook {
    var notes: map<byte, Note>

    ghost predicate Valid()
      reads this
    {
      KeyedByPitch(notes)
    }

    constructor ()
      ensures Valid() && notes == map[]
    {
      notes := map[];
    }

    /** Starts (or restarts) the note at the event's key. */
    method NoteOn(e: MidiEvent)
      requires Valid()
      modifies this
      ensures Valid()
      ensures notes == Insert(old(notes), e)
    {
      notes := notes[e.key := FromMidi(e)];
    }

    /** Closes the gate of the note at the event's key, if there is one. */
    method NoteOff(e: MidiEvent)
      requires Valid()
      modifies this
      ensures Valid()
      ensures notes == Release(old(notes), e.key)
    {
      if e.key in notes {
        notes := notes[e.key := TurnOff(notes[e.key])];
      }
    }

    /** A copy of every stored note, each exactly once, in no particular order. */
    method GetNotes() returns (r: seq<Note>)
      requires Valid()
      ensures |r| == |notes|
      ensures forall i :: 0 <= i < |r| ==> r[i].number in notes && notes[r[i].number] == r[i]
      ensures forall p :: p in notes ==> exists i :: 0 <= i < |r| && r[i].number == p
      ensures forall i, j :: 0 <= i < j < |r| ==> r[i].number != r[j].number
    {
      r := [];
      var pending := notes.Keys;
      while pending != {}
        invariant ListsAllBut(notes, r, pending)
        decreases pending
      {
        var p :| p in pending;
        ListOneMore(notes, r, pending, p);
        r := r + [notes[p]];
        pending := pending - {p};
      }
    }

    /** Advances the clock of every note by `delta` seconds. */
    method UpdateNoteTimes(delta: real)
      requires Valid()
      modifies this
      ensures Valid()
      ensures notes == Advance(old(notes), delta)
    {
      var pending := notes.Keys;
      while pending != {}
        invariant pending <= notes.Keys
        invariant notes.Keys == old(notes).Keys
        invariant forall p :: p in notes ==> notes[p] == if p in pending then old(notes)[p] else UpdateTime(old(notes)[p], delta)
        decreases pending
      {
        var p :| p in pending;
        notes := notes[p := UpdateTime(notes[p], delta)];
        pending := pending - {p};
      }
    }

    /** Drops every note whose gate is closed and whose release began at least `threshold` seconds ago. */
    method PurgeOldNotes(threshold: real)
      requires Valid()
      modifies this
      ensures Valid()
      ensures notes == Purge(old(notes), threshold)
    {
      notes := map p | p in notes && (notes[p].on || notes[p].time - notes[p].offTime < threshold) :: notes[p];
    }
  }
}
