/**
 * The note data exchanged between the servers and the front end:
 * `{ duration, tracks: [{ name, notes: [{ midi, time, duration, velocity }] }], bpm }`.
 * Times and durations are in seconds.  A track produced by the integrated
 * server's merge also carries the name of the stem it was transcribed from.
 */
module NoteData {
  import opened Common

  datatype MidiNote = MidiNote(midi: int, time: real, duration: real, velocity: int)

  datatype Track = Track(name: string, notes: seq<MidiNote>, stem: Option<string>)

  /** `bpm` and `ticks_per_beat` are absent from the front end's mock datasets. */
  datatype MidiData = MidiData(duration: real, tracks: seq<Track>, bpm: Option<real>, ticksPerBeat: Option<nat>)

  /** `tracks.flatMap(track => track.notes)`: every note, track by track. */
  function AllNotes(tracks: seq<Track>): (r: seq<MidiNote>)
    ensures |tracks| == 0 ==> r == []
    decreases |tracks|
  {
    if tracks == [] then [] else tracks[0].notes + AllNotes(tracks[1..])
  }

  lemma AllNotesSnoc(tracks: seq<Track>, t: Track)
    ensures AllNotes(tracks + [t]) == AllNotes(tracks) + t.notes
  {
    AllNotesAppend(tracks, [t]);
    assert AllNotes([t]) == t.notes + AllNotes([]);
  }

  /** The number of notes over all tracks. */
  function TotalNotes(tracks: seq<Track>): nat
    decreases |tracks|
  {
    if tracks == [] then 0 else |tracks[0].notes| + TotalNotes(tracks[1..])
  }

  lemma {:induction false} AllNotesLength(tracks: seq<Track>)
    ensures |AllNotes(tracks)| == TotalNotes(tracks)
    decreases |tracks|
  {
    if tracks != [] {
      AllNotesLength(tracks[1..]);
    }
  }

  lemma {:induction false} AllNotesAppend(a: seq<Track>, b: seq<Track>)
    ensures AllNotes(a + b) == AllNotes(a) + AllNotes(b)
    decreases |a|
  {
    if a == [] {
      assert a + b == b;
    } else {
      assert (a + b)[1..] == a[1..] + b;
      AllNotesAppend(a[1..], b);
    }
  }

  /** A note of AllNotes comes from some track, and every track's notes are in it. */
  lemma {:induction false} AllNotesMembership(tracks: seq<Track>, n: MidiNote)
    ensures n in AllNotes(tracks) <==> exists t :: 0 <= t < |tracks| && n in tracks[t].notes
    decreases |tracks|
  {
    if tracks != [] {
      AllNotesMembership(tracks[1..], n);
      if n in AllNotes(tracks[1..]) {
        var t :| 0 <= t < |tracks[1..]| && n in tracks[1..][t].notes;
        assert n in tracks[t + 1].notes;
      }
      if exists t :: 0 <= t < |tracks| && n in tracks[t].notes {
        var t :| 0 <= t < |tracks| && n in tracks[t].notes;
        if t > 0 {
          assert n in tracks[1..][t - 1].notes;
        }
      }
    }
  }
}
