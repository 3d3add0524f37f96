/**
 * The integrated server's request logic around the MIDI reader: the MIDI
 * upload's name check, and the merge of the per-stem transcriptions into
 * one piece of note data.  Separation and transcription themselves happen
 * before the merge; each stem arrives as the outcome of its transcription
 * and, on success, the MIDI file that transcription wrote, already parsed.
 */
module IntegratedServer {
  import opened Common
  import opened NoteData
  import opened MidiReader
  import opened UploadRules

  /** /upload-midi accepts names whose lower-case form ends in ".mid" or ".midi". */
  predicate IsMidiName(filename: string) {
    EndsWith(Lower(filename), ".mid") || EndsWith(Lower(filename), ".midi")
  }

  /**
   * /upload-midi: a refused name is answered 400 (the HTTPException passes
   * through the handler); a failure while saving (`saved` false) is 500.
   */
  function UploadMidi(filename: string, saved: bool): (r: UploadReply)
    ensures r == Refused(400) <==> !IsMidiName(filename)
    ensures r == Refused(500) <==> IsMidiName(filename) && !saved
    ensures r.Stored? <==> IsMidiName(filename) && saved
    ensures r.Stored? ==> r.filename == filename
  {
    if !IsMidiName(filename) then Refused(400)
    else if !saved then Refused(500)
    else Stored(filename)
  }

  /** Both spellings of the MIDI extension are accepted in any case. */
  lemma MidiNameExamples()
    ensures IsMidiName("Song.MID") && IsMidiName("take2.midi") && IsMidiName(".mid")
  {
    var a, b := "Song.MID", "take2.midi";
    assert Lower(a) == "song.mid";
    assert Lower(a)[4..] == ".mid";
    assert Lower(b) == b;
    assert b[5..] == ".midi";
    assert Lower(".mid") == ".mid";
  }

  /** A name that merely contains ".mid", or lacks the dot, is refused. */
  lemma NonMidiNameExamples()
    ensures !IsMidiName("song.mid.wav") && !IsMidiName("mid")
  {
    var c := "song.mid.wav";
    assert Lower(c) == c;
    assert c[8..][1] == 'w';
    assert c[7..][0] == 'd';
    assert Lower("mid") == "mid";
  }

  // ---------------------------------------------------------------------
  // Merging the stems
  // ---------------------------------------------------------------------

  /** What the transcription of one stem gave: a failure, or its audio duration and the MIDI file it wrote. */
  datatype StemResult = StemFailed | StemTranscribed(duration: real, midi: MidiFile)

  datatype Stem = Stem(name: string, result: StemResult)

  /** The merged note data and the `total_notes` of the metadata. */
  datatype Merged = Merged(midiData: MidiData, totalNotes: nat)

  /** The tracks of one stem, each tagged with the stem's name. */
  function Tagged(tracks: seq<Track>, stem: string): (r: seq<Track>)
    ensures |r| == |tracks|
    ensures forall i :: 0 <= i < |r| ==> r[i].stem == Some(stem)
    ensures forall i :: 0 <= i < |r| ==> r[i].name == tracks[i].name && r[i].notes == tracks[i].notes
  {
    seq(|tracks|, i requires 0 <= i < |tracks| => tracks[i].(stem := Some(stem)))
  }

  /** Tagging leaves every note where it was. */
  lemma {:induction false} TaggedKeepsNotes(tracks: seq<Track>, stem: string)
    ensures AllNotes(Tagged(tracks, stem)) == AllNotes(tracks)
    decreases |tracks|
  {
    if tracks != [] {
      TaggedKeepsNotes(tracks[1..], stem);
      assert Tagged(tracks, stem)[1..] == Tagged(tracks[1..], stem);
    }
  }

  /** What one stem adds to the merge: nothing if its transcription failed, else its file's tracks, tagged. */
  function StemTracks(stem: Stem): Result<seq<Track>, string> {
    match stem.result
    case StemFailed => Success([])
    case StemTranscribed(_, midi) =>
      match ReadSpec(midi, Integrated)
      case Failure(e) => Failure(e)
      case Success(d) => Success(Tagged(d.tracks, stem.name))
  }

  /** One pass of the merge loop: read the stem's file, if any, and tag its tracks. */
  method ReadStem(stem: Stem) returns (r: Result<seq<Track>, string>)
    ensures r == StemTracks(stem)
  {
    if stem.result.StemFailed? {
      return Success([]);
    }
    var read := ReadMidiFile(stem.result.midi, Integrated);
    if read.Failure? {
      return Failure(read.error);
    }
    var tagged := AppendTagged([], read.value.tracks, stem.name);
    assert [] + Tagged(read.value.tracks, stem.name) == Tagged(read.value.tracks, stem.name);
    return Success(tagged);
  }

  /**
   * The merged track list after the first n stems, in stem order; a MIDI
   * file the reader rejects aborts the whole request with its error.
   */
  function MergedTracks(stems: seq<Stem>, n: nat): Result<seq<Track>, string>
    requires n <= |stems|
    decreases n
  {
    if n == 0 then Success([])
    else match MergedTracks(stems, n - 1)
      case Failure(e) => Failure(e)
      case Success(prev) =>
        match StemTracks(stems[n - 1])
        case Failure(e) => Failure(e)
        case Success(tracks) => Success(prev + tracks)
  }

  /** The largest audio duration among the transcribed stems, starting from 0. */
  function MaxStemDuration(stems: seq<Stem>, n: nat): real
    requires n <= |stems|
    decreases n
  {
    if n == 0 then 0.0
    else if stems[n - 1].result.StemTranscribed? then Max(MaxStemDuration(stems, n - 1), stems[n - 1].result.duration)
    else MaxStemDuration(stems, n - 1)
  }

  /**
   * The merge's result: the tagged tracks, the longest stem, and the fixed
   * 120 BPM and 480 ticks per beat.  The merged duration covers every
   * transcribed stem.
   */
  function MergeSpec(stems: seq<Stem>): (r: Result<Merged, string>)
    ensures r.Success? ==> r.value.midiData.duration >= 0.0
    ensures r.Success? ==> forall k :: 0 <= k < |stems| && stems[k].result.StemTranscribed? ==>
      stems[k].result.duration <= r.value.midiData.duration
  {
    MaxStemDurationBounds(stems, |stems|);
    match MergedTracks(stems, |stems|)
    case Failure(e) => Failure(e)
    case Success(tracks) =>
      Success(Merged(MidiData(MaxStemDuration(stems, |stems|), tracks, Some(120.0), Some(480)), TotalNotes(tracks)))
  }

  /** Once a stem's file is rejected, the merge fails with that error whatever follows. */
  lemma {:induction false} MergeFailureSticks(stems: seq<Stem>, i: nat, n: nat)
    requires i <= n <= |stems| && MergedTracks(stems, i).Failure?
    ensures MergedTracks(stems, n) == MergedTracks(stems, i)
    decreases n
  {
    if n > i {
      MergeFailureSticks(stems, i, n - 1);
    }
  }

  /** The inner loop of the merge: tag each track of one stem and append it. */
  method AppendTagged(midiTracks: seq<Track>, tracks: seq<Track>, stem: string) returns (r: seq<Track>)
    ensures r == midiTracks + Tagged(tracks, stem)
  {
    r := midiTracks;
    var j := 0;
    while j < |tracks|
      invariant 0 <= j <= |tracks|
      invariant r == midiTracks + Tagged(tracks[..j], stem)
    {
      assert Tagged(tracks[..j + 1], stem) == Tagged(tracks[..j], stem) + [tracks[j].(stem := Some(stem))];
      r := r + [tracks[j].(stem := Some(stem))];
      j := j + 1;
    }
    assert tracks[..j] == tracks;
  }

  /** The merge loop of /transcribe: each transcribed stem's file is read and its tracks tagged and appended. */
  method CollectTracks(stems: seq<Stem>) returns (r: Result<seq<Track>, string>)
    ensures r == MergedTracks(stems, |stems|)
  {
    var midiTracks: seq<Track> := [];
    var i := 0;
    while i < |stems|
      invariant 0 <= i <= |stems|
      invariant MergedTracks(stems, i) == Success(midiTracks)
    {
      var tracks := ReadStem(stems[i]);
      if tracks.Failure? {
        MergeFailureSticks(stems, i + 1, |stems|);
        return Failure(tracks.error);
      }
      midiTracks := midiTracks + tracks.value;
      i := i + 1;
    }
    return Success(midiTracks);
  }

  /** The loop computing max_duration over the transcribed stems. */
  method LongestStem(stems: seq<Stem>) returns (maxDuration: real)
    ensures maxDuration == MaxStemDuration(stems, |stems|)
  {
    maxDuration := 0.0;
    var k := 0;
    while k < |stems|
      invariant 0 <= k <= |stems|
      invariant maxDuration == MaxStemDuration(stems, k)
    {
      if stems[k].result.StemTranscribed? {
        maxDuration := Max(maxDuration, stems[k].result.duration);
      }
      k := k + 1;
    }
  }

  /** The merge step of /transcribe. */
  method MergeStems(stems: seq<Stem>) returns (r: Result<Merged, string>)
    ensures r == MergeSpec(stems)
  {
    var tracks := CollectTracks(stems);
    if tracks.Failure? {
      return Failure(tracks.error);
    }
    var maxDuration := LongestStem(stems);
    r := Success(Merged(MidiData(maxDuration, tracks.value, Some(120.0), Some(480)), TotalNotes(tracks.value)));
  }

  /** Every merged track carries the name of a stem that was transcribed. */
  lemma {:induction false} MergedTracksTagged(stems: seq<Stem>, n: nat)
    requires n <= |stems| && MergedTracks(stems, n).Success?
    ensures forall t :: t in MergedTracks(stems, n).value ==>
      t.stem.Some? && exists k :: 0 <= k < n && stems[k].name == t.stem.value && stems[k].result.StemTranscribed?
    decreases n
  {
    if n > 0 {
      MergedTracksTagged(stems, n - 1);
      var prev := MergedTracks(stems, n - 1).value;
      forall t | t in MergedTracks(stems, n).value
        ensures t.stem.Some? && exists k :: 0 <= k < n && stems[k].name == t.stem.value && stems[k].result.StemTranscribed?
      {
        if t !in prev {
          assert stems[n - 1].result.StemTranscribed?;
          var d := ReadSpec(stems[n - 1].result.midi, Integrated).value;
          var tagged := Tagged(d.tracks, stems[n - 1].name);
          assert MergedTracks(stems, n).value == prev + tagged;
          var j :| 0 <= j < |tagged| && tagged[j] == t;
          assert t.stem == Some(stems[n - 1].name);
        }
      }
    }
  }

  /** The merged duration is at least 0, at least every transcribed stem's duration, and one of them unless 0. */
  lemma {:induction false} MaxStemDurationBounds(stems: seq<Stem>, n: nat)
    requires n <= |stems|
    ensures MaxStemDuration(stems, n) >= 0.0
    ensures forall k :: 0 <= k < n && stems[k].result.StemTranscribed? ==> stems[k].result.duration <= MaxStemDuration(stems, n)
    ensures MaxStemDuration(stems, n) == 0.0
      || exists k :: 0 <= k < n && stems[k].result.StemTranscribed? && MaxStemDuration(stems, n) == stems[k].result.duration
    decreases n
  {
    if n > 0 {
      MaxStemDurationBounds(stems, n - 1);
    }
  }

  /** `total_notes` counts every note of every merged track. */
  lemma MergeTotalNotes(stems: seq<Stem>)
    requires MergeSpec(stems).Success?
    ensures MergeSpec(stems).value.totalNotes == |AllNotes(MergeSpec(stems).value.midiData.tracks)|
    ensures MergeSpec(stems).value.midiData.bpm == Some(120.0) && MergeSpec(stems).value.midiData.ticksPerBeat == Some(480)
  {
    AllNotesLength(MergeSpec(stems).value.midiData.tracks);
  }

  /** The notes of the merge are those the reader found in each transcribed stem, stem after stem. */
  lemma MergedNotes(stems: seq<Stem>, n: nat)
    requires n <= |stems| && MergedTracks(stems, n).Success?
    ensures n > 0 && stems[n - 1].result.StemTranscribed? ==>
      AllNotes(MergedTracks(stems, n).value)
        == AllNotes(MergedTracks(stems, n - 1).value) + AllNotes(ReadSpec(stems[n - 1].result.midi, Integrated).value.tracks)
    ensures n > 0 && stems[n - 1].result.StemFailed? ==>
      MergedTracks(stems, n).value == MergedTracks(stems, n - 1).value
  {
    if n > 0 && stems[n - 1].result.StemTranscribed? {
      var prev := MergedTracks(stems, n - 1).value;
      var d := ReadSpec(stems[n - 1].result.midi, Integrated).value;
      AllNotesAppend(prev, Tagged(d.tracks, stems[n - 1].name));
      TaggedKeepsNotes(d.tracks, stems[n - 1].name);
    }
  }

  /** When no stem was transcribed, the merge is empty, lasts 0 and has no notes. */
  lemma {:induction false} NothingTranscribed(stems: seq<Stem>, n: nat)
    requires n <= |stems|
    requires forall k :: 0 <= k < |stems| ==> stems[k].result.StemFailed?
    ensures MergedTracks(stems, n) == Success([]) && MaxStemDuration(stems, n) == 0.0
    decreases n
  {
    if n > 0 {
      NothingTranscribed(stems, n - 1);
      assert StemTracks(stems[n - 1]) == Success([]);
      assert MergedTracks(stems, n - 1).value + [] == [];
    }
  }
}
