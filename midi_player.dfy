/**
 * The note scheduler and the active-note index of the front end.  The
 * scheduler keeps the list of handles it registered with the host
 * transport; rescheduling clears every one of them before registering one
 * handle per note that starts at or after the start time.  The
 * active-note index lists the pitches sounding at a given time.
 */
module MidiPlayer {
  import opened Common
  import opened NoteData
  import opened ToneTransport
  import MockMidi

  // ---------------------------------------------------------------------
  // Pure part
  // ---------------------------------------------------------------------

  /** `notes.filter(note => note.time >= startTime)`. */
  function NotesFrom(notes: seq<MidiNote>, startTime: real): seq<MidiNote>
    decreases |notes|
  {
    if notes == [] then []
    else (if notes[0].time >= startTime then [notes[0]] else []) + NotesFrom(notes[1..], startTime)
  }

  /**
   * The filter keeps every note starting at or after the start time as
   * often as it occurs and drops every other note.
   */
  lemma {:induction false} NotesFromCounts(notes: seq<MidiNote>, startTime: real, n: MidiNote)
    ensures multiset(NotesFrom(notes, startTime))[n] == if n.time >= startTime then multiset(notes)[n] else 0
    decreases |notes|
  {
    if notes != [] {
      NotesFromCounts(notes[1..], startTime, n);
      assert notes == [notes[0]] + notes[1..];
      assert multiset(notes) == multiset{notes[0]} + multiset(notes[1..]);
    }
  }

  /** So the filter is no longer than its input, and only late enough notes are scheduled. */
  lemma {:induction false} NotesFromLate(notes: seq<MidiNote>, startTime: real)
    ensures |NotesFrom(notes, startTime)| <= |notes|
    ensures forall i :: 0 <= i < |NotesFrom(notes, startTime)| ==> NotesFrom(notes, startTime)[i].time >= startTime
    decreases |notes|
  {
    if notes != [] {
      NotesFromLate(notes[1..], startTime);
    }
  }

  /** Filtering a concatenation filters each part. */
  lemma {:induction false} NotesFromAppend(a: seq<MidiNote>, b: seq<MidiNote>, startTime: real)
    ensures NotesFrom(a + b, startTime) == NotesFrom(a, startTime) + NotesFrom(b, startTime)
    decreases |a|
  {
    if a == [] {
      assert a + b == b;
    } else {
      var head := if a[0].time >= startTime then [a[0]] else [];
      assert (a + b)[0] == a[0];
      assert (a + b)[1..] == a[1..] + b;
      NotesFromAppend(a[1..], b, startTime);
      calc {
        NotesFrom(a + b, startTime);
        head + NotesFrom(a[1..] + b, startTime);
        head + (NotesFrom(a[1..], startTime) + NotesFrom(b, startTime));
        (head + NotesFrom(a[1..], startTime)) + NotesFrom(b, startTime);
      }
    }
  }

  /** A list whose every note starts at or after the start time is kept whole; one whose every note starts before it is dropped. */
  lemma {:induction false} NotesFromUniform(notes: seq<MidiNote>, startTime: real)
    ensures (forall i :: 0 <= i < |notes| ==> notes[i].time >= startTime) ==> NotesFrom(notes, startTime) == notes
    ensures (forall i :: 0 <= i < |notes| ==> notes[i].time < startTime) ==> NotesFrom(notes, startTime) == []
    decreases |notes|
  {
    if notes != [] {
      NotesFromUniform(notes[1..], startTime);
      assert forall i :: 0 <= i < |notes[1..]| ==> notes[1..][i] == notes[i + 1];
      assert [notes[0]] + notes[1..] == notes;
    }
  }

  /** Sounding at t: both ends of the note are included. */
  predicate IsActive(n: MidiNote, t: real) {
    n.time <= t <= n.time + n.duration
  }

  /** `notes.filter(sounding at t).map(note => note.midi)`. */
  function ActiveIn(notes: seq<MidiNote>, t: real): (r: seq<int>)
    ensures |r| <= |notes|
    decreases |notes|
  {
    if notes == [] then []
    else (if IsActive(notes[0], t) then [notes[0].midi] else []) + ActiveIn(notes[1..], t)
  }

  /** A pitch is listed exactly when some note with that pitch sounds at t. */
  lemma {:induction false} ActiveInMembership(notes: seq<MidiNote>, t: real, m: int)
    ensures m in ActiveIn(notes, t) <==> exists i :: 0 <= i < |notes| && IsActive(notes[i], t) && notes[i].midi == m
    decreases |notes|
  {
    if notes != [] {
      ActiveInMembership(notes[1..], t, m);
      if exists i :: 0 <= i < |notes| && IsActive(notes[i], t) && notes[i].midi == m {
        var i :| 0 <= i < |notes| && IsActive(notes[i], t) && notes[i].midi == m;
        if i > 0 {
          assert notes[1..][i - 1] == notes[i];
        }
      }
      if m in ActiveIn(notes[1..], t) {
        var i :| 0 <= i < |notes[1..]| && IsActive(notes[1..][i], t) && notes[1..][i].midi == m;
        assert notes[i + 1] == notes[1..][i];
      }
    }
  }

  lemma {:induction false} ActiveInAppend(a: seq<MidiNote>, b: seq<MidiNote>, t: real)
    ensures ActiveIn(a + b, t) == ActiveIn(a, t) + ActiveIn(b, t)
    decreases |a|
  {
    if a == [] {
      assert a + b == b;
    } else {
      var head := if IsActive(a[0], t) then [a[0].midi] else [];
      assert (a + b)[0] == a[0];
      assert (a + b)[1..] == a[1..] + b;
      ActiveInAppend(a[1..], b, t);
      calc {
        ActiveIn(a + b, t);
        head + ActiveIn(a[1..] + b, t);
        head + (ActiveIn(a[1..], t) + ActiveIn(b, t));
        (head + ActiveIn(a[1..], t)) + ActiveIn(b, t);
        ActiveIn(a, t) + ActiveIn(b, t);
      }
    }
  }

  /** calculateActiveNotes: nothing without data, otherwise over all tracks. */
  function ActiveNotes(midi: Option<MidiData>, t: real): (r: seq<int>)
    ensures midi.None? ==> r == []
  {
    if midi.None? then [] else ActiveIn(AllNotes(midi.value.tracks), t)
  }

  /** Track by track, in note order: the active pitches of the first track come first. */
  lemma ActiveNotesByTrack(d: MidiData, t: real)
    requires d.tracks != []
    ensures ActiveNotes(Some(d), t)
         == ActiveIn(d.tracks[0].notes, t) + ActiveNotes(Some(d.(tracks := d.tracks[1..])), t)
  {
    ActiveInAppend(d.tracks[0].notes, AllNotes(d.tracks[1..]), t);
  }

  /** A pitch is listed exactly when some note of some track with that pitch sounds at t. */
  lemma ActiveNotesMembership(d: MidiData, t: real, m: int)
    ensures m in ActiveNotes(Some(d), t)
        <==> exists k, i :: 0 <= k < |d.tracks| && 0 <= i < |d.tracks[k].notes|
               && IsActive(d.tracks[k].notes[i], t) && d.tracks[k].notes[i].midi == m
  {
    var all := AllNotes(d.tracks);
    ActiveInMembership(all, t, m);
    if m in ActiveNotes(Some(d), t) {
      var j :| 0 <= j < |all| && IsActive(all[j], t) && all[j].midi == m;
      AllNotesMembership(d.tracks, all[j]);
      var k :| 0 <= k < |d.tracks| && all[j] in d.tracks[k].notes;
      var i :| 0 <= i < |d.tracks[k].notes| && d.tracks[k].notes[i] == all[j];
    }
    if exists k, i :: 0 <= k < |d.tracks| && 0 <= i < |d.tracks[k].notes|
         && IsActive(d.tracks[k].notes[i], t) && d.tracks[k].notes[i].midi == m {
      var k, i :| 0 <= k < |d.tracks| && 0 <= i < |d.tracks[k].notes|
        && IsActive(d.tracks[k].notes[i], t) && d.tracks[k].notes[i].midi == m;
      var n := d.tracks[k].notes[i];
      AllNotesMembership(d.tracks, n);
      var j :| 0 <= j < |all| && all[j] == n;
    }
  }

  /** With the default melody, at t = 1 the first note is ending and the second starting: both count. */
  lemma DefaultMelodyActiveAtOne()
    ensures ActiveNotes(Some(MockMidi.MockData(MockMidi.DefaultMelody)), 1.0) == [60, 64]
  {
    DefaultMelodyNotes();
  }

  /** Half-way through the first note, only its pitch is lit. */
  lemma DefaultMelodyActiveAtHalf()
    ensures ActiveNotes(Some(MockMidi.MockData(MockMidi.DefaultMelody)), 0.5) == [60]
  {
    DefaultMelodyNotes();
  }

  /** In the rest between 4 s and 4.5 s, nothing is lit. */
  lemma DefaultMelodyActiveInRest()
    ensures ActiveNotes(Some(MockMidi.MockData(MockMidi.DefaultMelody)), 4.25) == []
  {
    DefaultMelodyNotes();
  }

  // ---------------------------------------------------------------------
  // The scheduler
  // ---------------------------------------------------------------------

  function ToSchedule(n: MidiNote): ScheduledNote {
    ScheduledNote(n.time, n.midi, n.duration)
  }

  class Player {
    var initialized: bool
    var scheduled: seq<nat>          // handles registered and not yet cleared, in registration order
    var activeNotes: seq<int>
    const clock: HostClock

    /** Every remembered handle is live on the host transport. */
    ghost predicate Valid()
      reads this, clock
    {
      clock.Valid() && forall i :: 0 <= i < |scheduled| ==> scheduled[i] in clock.events
    }

    /** The handles are fresh, numbered from `first`, and the i-th plays the i-th note at its absolute time. */
    ghost predicate SchedulesExactly(toPlay: seq<MidiNote>, first: nat)
      reads this, clock
    {
      |scheduled| == |toPlay|
      && forall i :: 0 <= i < |scheduled| ==>
           scheduled[i] == first + i && scheduled[i] in clock.events
           && clock.events[scheduled[i]] == ToSchedule(toPlay[i])
    }

    /** The live callbacks are the earlier ones minus the handles this player held, plus its new handles. */
    ghost predicate Replaced(oldEvents: map<nat, ScheduledNote>, oldScheduled: seq<nat>)
      reads this, clock
    {
      (forall h :: h in clock.events <==> (h in oldEvents && h !in oldScheduled) || h in scheduled)
      && forall h :: h in clock.events && h !in scheduled ==> h in oldEvents && clock.events[h] == oldEvents[h]
    }

    constructor (clock: HostClock)
      requires clock.Valid()
      ensures Valid() && this.clock == clock
      ensures !initialized && scheduled == [] && activeNotes == []
    {
      this.clock := clock;
      initialized := false;
      scheduled := [];
      activeNotes := [];
    }

    /** The synthesiser is ready once the audio context has started; a failure leaves the player uninitialised. */
    method Initialize(audioReady: bool)
      modifies this`initialized
      ensures initialized == (old(initialized) || audioReady)
    {
      if audioReady {
        initialized := true;
      }
    }

    /** Clear every remembered handle, then forget them all. */
    method ClearScheduled()
      requires Valid()
      modifies clock`events, this`scheduled
      ensures Valid() && scheduled == []
      ensures Replaced(old(clock.events), old(scheduled))
    {
      var i := 0;
      while i < |scheduled|
        invariant 0 <= i <= |scheduled|
        invariant scheduled == old(scheduled)
        invariant clock.Valid()
        invariant forall h :: h in clock.events <==> h in old(clock.events) && h !in scheduled[..i]
        invariant forall h :: h in clock.events ==> clock.events[h] == old(clock.events)[h]
      {
        clock.Clear(scheduled[i]);
        assert scheduled[..i + 1] == scheduled[..i] + [scheduled[i]];
        i := i + 1;
      }
      assert scheduled[..i] == scheduled;
      scheduled := [];
    }

    /** The scheduling loop: one fresh handle per note, in order, with nothing else removed. */
    method ScheduleAll(toPlay: seq<MidiNote>)
      requires Valid() && scheduled == []
      modifies clock`events, clock`next, this`scheduled
      ensures Valid()
      ensures SchedulesExactly(toPlay, old(clock.next)) && clock.next == old(clock.next) + |toPlay|
      ensures forall h :: h in clock.events <==> h in old(clock.events) || h in scheduled
      ensures forall h :: h in clock.events && h !in scheduled ==> h in old(clock.events) && clock.events[h] == old(clock.events)[h]
    {
      var i := 0;
      while i < |toPlay|
        invariant 0 <= i <= |toPlay|
        invariant clock.Valid() && clock.next == old(clock.next) + i
        invariant |scheduled| == i
        invariant forall j :: 0 <= j < i ==>
          scheduled[j] == old(clock.next) + j && scheduled[j] in clock.events && clock.events[scheduled[j]] == ToSchedule(toPlay[j])
        invariant forall h :: h in clock.events <==> h in old(clock.events) || h in scheduled
        invariant forall h :: h in clock.events && h !in scheduled ==> h in old(clock.events) && clock.events[h] == old(clock.events)[h]
      {
        var h := clock.Schedule(toPlay[i].time, toPlay[i].midi, toPlay[i].duration);
        scheduled := scheduled + [h];
        i := i + 1;
      }
    }

    /**
     * playMIDINotes: nothing before initialisation; otherwise clear the old
     * handles, then register one handle per note starting at or after
     * `startTime`, at the note's absolute time.
     */
    method PlayMidiNotes(notes: seq<MidiNote>, startTime: real)
      requires Valid()
      modifies clock`events, clock`next, this`scheduled
      ensures Valid()
      ensures !initialized ==> unchanged(clock) && scheduled == old(scheduled)
      ensures initialized ==>
        SchedulesExactly(NotesFrom(notes, startTime), old(clock.next))
        && Replaced(old(clock.events), old(scheduled))
        && clock.next == old(clock.next) + |NotesFrom(notes, startTime)|
    {
      if !initialized {
        return;
      }
      ClearScheduled();
      ScheduleAll(NotesFrom(notes, startTime));
    }

    /** The playback effect: schedule from the current time when playing; otherwise clear everything and light no key. */
    method OnPlaybackChange(midi: Option<MidiData>, isPlaying: bool, currentTime: real)
      requires Valid()
      modifies clock`events, clock`next, this`scheduled, this`activeNotes
      ensures Valid()
      ensures midi.None? || !initialized ==>
        unchanged(clock) && scheduled == old(scheduled) && activeNotes == old(activeNotes)
      ensures midi.Some? && initialized && isPlaying ==>
        SchedulesExactly(NotesFrom(AllNotes(midi.value.tracks), currentTime), old(clock.next))
        && Replaced(old(clock.events), old(scheduled)) && activeNotes == old(activeNotes)
        && clock.next == old(clock.next) + |NotesFrom(AllNotes(midi.value.tracks), currentTime)|
      ensures midi.Some? && initialized && !isPlaying ==>
        scheduled == [] && activeNotes == [] && Replaced(old(clock.events), old(scheduled))
        && clock.next == old(clock.next)
    {
      if midi.None? || !initialized {
        return;
      }
      if isPlaying {
        PlayMidiNotes(AllNotes(midi.value.tracks), currentTime);
      } else {
        ClearScheduled();
        activeNotes := [];
      }
    }

    /** The active-note effect: refresh the lit keys once data is present and the player is ready. */
    method UpdateActive(midi: Option<MidiData>, currentTime: real)
      modifies this`activeNotes
      ensures midi.Some? && initialized ==> activeNotes == ActiveNotes(midi, currentTime)
      ensures midi.None? || !initialized ==> activeNotes == old(activeNotes)
    {
      if midi.Some? && initialized {
        activeNotes := ActiveNotes(midi, currentTime);
      }
    }

    /**
     * handleSeek: with data and a ready player, move the host transport;
     * while playing, also clear and reschedule from the new time.
     */
    method HandleSeek(newTime: real, midi: Option<MidiData>, isPlaying: bool)
      requires Valid()
      modifies clock`seconds, clock`events, clock`next, this`scheduled
      ensures Valid()
      ensures midi.None? || !initialized ==> unchanged(clock) && scheduled == old(scheduled)
      ensures midi.Some? && initialized ==> clock.seconds == newTime
      ensures midi.Some? && initialized && !isPlaying ==>
        scheduled == old(scheduled) && clock.events == old(clock.events) && clock.next == old(clock.next)
      ensures midi.Some? && initialized && isPlaying ==>
        SchedulesExactly(NotesFrom(AllNotes(midi.value.tracks), newTime), old(clock.next))
        && Replaced(old(clock.events), old(scheduled))
        && clock.next == old(clock.next) + |NotesFrom(AllNotes(midi.value.tracks), newTime)|
    {
      if midi.Some? && initialized {
        clock.SetSeconds(newTime);
        if isPlaying {
          ClearScheduled();
          PlayMidiNotes(AllNotes(midi.value.tracks), newTime);
        }
      }
    }
  }

  /** The default melody as one list: its only track's notes. */
  lemma DefaultMelodyNotes()
    ensures AllNotes(MockMidi.MockData(MockMidi.DefaultMelody).tracks) == MockMidi.MelodyNotes()
  {
    var notes := MockMidi.MelodyNotes();
    assert AllNotes(MockMidi.MockData(MockMidi.DefaultMelody).tracks) == notes + [];
    assert notes + [] == notes;
  }

  /** From 0 s on, every note of the default melody is scheduled. */
  lemma DefaultMelodyFromStart()
    ensures NotesFrom(AllNotes(MockMidi.MockData(MockMidi.DefaultMelody).tracks), 0.0) == MockMidi.MelodyNotes()
  {
    DefaultMelodyNotes();
    var notes := MockMidi.MelodyNotes();
    assert forall i :: 0 <= i < |notes| ==> notes[i].time >= 0.0;
    NotesFromUniform(notes, 0.0);
  }

  /** From 4 s on, the default melody has four notes left, the ones at 4.5, 5.5, 6.5 and 7.5 s. */
  lemma DefaultMelodyFrom()
    ensures NotesFrom(AllNotes(MockMidi.MockData(MockMidi.DefaultMelody).tracks), 4.0) == MockMidi.MelodyNotes()[4..]
  {
    DefaultMelodyNotes();
    var notes := MockMidi.MelodyNotes();
    var early, late := notes[..4], notes[4..];
    assert notes == early + late;
    assert forall i :: 0 <= i < |early| ==> early[i].time < 4.0;
    assert forall i :: 0 <= i < |late| ==> late[i].time >= 4.0;
    NotesFromUniform(early, 4.0);
    NotesFromUniform(late, 4.0);
    NotesFromAppend(early, late, 4.0);
  }

  /** Three notes a second apart; from 1.5 s on only the last one is left to play. */
  lemma ThreeNotesFrom(notes: seq<MidiNote>)
    requires notes == [MidiNote(60, 0.0, 1.0, 80), MidiNote(64, 1.0, 1.0, 75), MidiNote(67, 2.0, 1.0, 82)]
    ensures NotesFrom(notes, 0.0) == notes
    ensures NotesFrom(notes, 1.5) == [notes[2]]
  {
    NotesFromUniform(notes, 0.0);
    assert notes == notes[..2] + notes[2..];
    NotesFromAppend(notes[..2], notes[2..], 1.5);
    NotesFromUniform(notes[..2], 1.5);
    NotesFromUniform(notes[2..], 1.5);
  }

  /** Three notes a second apart, on one piano track. */
  function ThreeNoteData(): MidiData {
    MidiData(3.0, [Track("Piano", [MidiNote(60, 0.0, 1.0, 80), MidiNote(64, 1.0, 1.0, 75), MidiNote(67, 2.0, 1.0, 82)], None)], None, None)
  }

  /** A ready player that starts playing the three notes from 0 holds the handles 0, 1 and 2. */
  method PlayScenario() returns (clock: HostClock, player: Player)
    ensures fresh(clock) && fresh(player) && player.clock == clock && player.Valid() && player.initialized
    ensures player.scheduled == [0, 1, 2] && clock.next == 3
  {
    clock := new HostClock();
    player := new Player(clock);
    player.Initialize(true);
    var d := ThreeNoteData();
    var notes := d.tracks[0].notes;
    assert AllNotes(d.tracks) == notes;
    ThreeNotesFrom(notes);
    player.OnPlaybackChange(Some(d), true, 0.0);
    assert player.SchedulesExactly(notes, 0);
    assert player.scheduled[0] == 0 && player.scheduled[1] == 1 && player.scheduled[2] == 2;
  }

  /** Play three notes from 0, then seek to 1.5 s while playing: only the last note stays scheduled. */
  method SeekScenario()
  {
    var clock, player := PlayScenario();
    var d := ThreeNoteData();
    var notes := d.tracks[0].notes;
    assert AllNotes(d.tracks) == notes;
    ThreeNotesFrom(notes);
    player.HandleSeek(1.5, Some(d), true);
    assert player.SchedulesExactly([notes[2]], 3);
    assert player.scheduled == [3];
    assert clock.events[3] == ScheduledNote(2.0, 67, 1.0);
    assert 0 !in clock.events && 2 !in clock.events;
    assert clock.seconds == 1.5;
  }
}
