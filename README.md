# MIDICOM core, modelled in Dafny

MIDICOM turns audio into MIDI and shows the result as a piano roll.

The back end has several jobs:
- It checks uploaded file names.
- It transcribes each separated stem into notes: onsets and pitch samples are grouped into notes, each note gets a velocity and a MIDI pitch, and its times are snapped to a grid.
- It reads the MIDI files it wrote into JSON note data.
- It merges the per-stem results into one piece.

There are two back ends. The integrated server (`backend/app_integrated.py`) and the legacy server (`backend/app.py`) share the reader but differ in how an unclosed note ends. They also differ in which upload names they accept.

The front end has five parts:
- It loads a mock piece when no server is used.
- It keeps a playback transport: play, pause, stop, seek, and a playhead that advances each frame.
- It schedules the notes from the current time on the Tone.js transport.
- It reports which notes sound at the playhead.
- It draws the piano roll, with zoom, scrolling, auto-centring, a draggable playhead and a horizontal scrollbar.

Modules, one per file:

| module | file | what it covers |
|---|---|---|
| `Common` | `common.dfy` | Option/Result, JS and Python rounding and truncation, number rendering, lower-casing, substring tests |
| `NoteData` | `note_data.dfy` | the JSON note data (`MidiData`, `Track`, `MidiNote`) and `flatMap(track => track.notes)` |
| `MidiReader` | `midi_reader.dfy` | `read_midi_file` of both servers, as a specification and as the source's loops |
| `UploadRules` | `upload_rules.dfy` | `os.path.splitext` and the audio-extension check of `/transcribe` |
| `IntegratedServer` | `integrated_server.dfy` | `/upload-midi` and the stem merge of `/transcribe` |
| `LegacyServer` | `legacy_server.dfy` | `/upload-midi` and `/download` |
| `Transcriber` | `transcriber.dfy` | `MIDITranscriber`: grouping, velocity, pitch, quantisation, `transcribe` |
| `MockMidi` | `mock_midi.dfy` | `useMIDI`: the mock data chosen by file name |
| `ToneTransport` | `host_clock.dfy` | the part of `Tone.Transport` the hooks use: a clock and a table of scheduled events |
| `Playback` | `playback.dfy` | `usePlayback` as a class |
| `MidiPlayer` | `midi_player.dfy` | `useMIDIPlayer` as a class over the transport |
| `PianoRoll` | `piano_roll.dfy` | `PianoRoll.jsx`: coordinate maps, note names, time format, note extraction, and the view state as a class |

Times and coordinates are `real`, so float rounding is not modelled. Python's `round` is modelled as round-half-even. JavaScript's `Math.round` rounds halves up. `int()` truncates toward zero. `%` in JavaScript takes the sign of the dividend. Each of these is written out.

Parsing a MIDI file (mido) and writing one (pretty_midi) are library work:
- A parsed file is the input: ticks per beat, plus tracks of delta-timed messages.
- The written file is a parameter.

Detected onsets and pitch samples are inputs, and so are `log2`, the clock and the dependency check.

## Model

| member | source | states |
|---|---|---|
| `MidiReader.FirstTempoFrom` | backend/app_integrated.py:89-92 | the tempo found in a track is absent exactly when the track has no set_tempo, and otherwise is the tempo of its first set_tempo: no earlier message sets a tempo |
| `MidiReader.FileTempoFrom` | backend/app_integrated.py:85-94 | the file's tempo is the default 500000 or the first set_tempo of some track |
| `MidiReader.FileTempoIsFirstNonDefault` | backend/app_integrated.py:85-94 | for every file, a tempo other than 500000 is the first set_tempo of some track, and every earlier track has no set_tempo or a first one equal to 500000 |
| `MidiReader.NoSetTempoMeansDefault` | backend/app_integrated.py:85-94 | a file without set_tempo is read at tempo 500000 |
| `MidiReader.LaterTempoInTrackIgnored` | backend/app_integrated.py:88-94 | only a track's first set_tempo counts, and a first set_tempo equal to the default does not stop the search in later tracks |
| `MidiReader.FindTempo` | backend/app_integrated.py:85-94 | the nested loop with its two breaks computes the file tempo |
| `MidiReader.Bpm` | backend/app_integrated.py:97 | the BPM is non-negative and within 0.005 of 60000000 / tempo (rounded to two decimals) |
| `MidiReader.DefaultTempoIs120Bpm` | backend/app_integrated.py:85 | the default tempo reads as exactly 120 BPM |
| `MidiReader.AbsTickMonotonic` | backend/app_integrated.py:108-111 | absolute ticks never decrease along a track |
| `MidiReader.CloseIndexFromSound` | backend/app_integrated.py:118-124 | the closing search stops at the first note_off or zero-velocity note_on of the same pitch, and finds none exactly when no such message follows |
| `MidiReader.ClosedNoteEndsAtCloser` | backend/app_integrated.py:115-126 | a closed note ends at the absolute tick of its closing message, in both servers |
| `MidiReader.UnclosedNote` | backend/app_integrated.py:118-126 | an unclosed note lasts to the end of its track in the integrated server and 0 ticks in the legacy one |
| `MidiReader.VariantsAgreeOnClosedNotes` | backend/app.py:106-113 | the two servers' durations agree exactly when the note is closed, or nothing after it takes time |
| `MidiReader.IndexOf` | backend/app_integrated.py:116 | `list.index`: the first position holding a value equal to the message |
| `MidiReader.AsWrittenAgreesWithoutEarlierCopy` | backend/app_integrated.py:116-126 | the search from `track.index(msg)` is right when no earlier message equals the note_on |
| `MidiReader.AsWrittenRepeatedNote` | backend/app_integrated.py:116-126 | a repeated identical note_on is measured from the first copy: 480 ticks instead of 240 |
| `MidiReader.SecondsIsProduct` | backend/app_integrated.py:130-131 | ticks convert to seconds by multiplication with the tick length |
| `MidiReader.SecondsMonotonic` | backend/app_integrated.py:130-131 | the conversion is monotonic, non-negative and positive for a positive tick count |
| `MidiReader.NameUpToDefault` | backend/app_integrated.py:106 | a track without track_name is named "Track i+1" |
| `MidiReader.NameUpToLast` | backend/app_integrated.py:140-141 | the last track_name before the end names the track |
| `MidiReader.MaxEndBounds` | backend/app_integrated.py:149-151 | the total duration is non-negative, is at least every note's end, and is 0 or some note's end |
| `MidiReader.SecondsPerTick` | backend/app_integrated.py:101-102 | the tick length is positive when BPM and ticks per beat are |
| `MidiReader.ClosingTicks` | backend/app_integrated.py:115-124 | the closing loop ends at the note's start plus its duration in ticks, in either server's form; it searches after the note_on itself rather than after `track.index(msg)` (see Left out) |
| `MidiReader.MessageNote` | backend/app_integrated.py:113-138 | the note one message adds: a sounding note_on with a positive duration, in seconds |
| `MidiReader.ScanTrack` | backend/app_integrated.py:105-147 | one pass over a track gives the track's notes and name, or nothing when it has no notes |
| `MidiReader.ExtendDuration` | backend/app_integrated.py:149-151 | the running maximum over a kept track's notes extends the maximum over all earlier notes |
| `MidiReader.ScanNextTrack` | backend/app_integrated.py:105-151 | each step of the track loop keeps the invariant "tracks kept so far, and their maximum note end" |
| `MidiReader.ScanTracks` | backend/app_integrated.py:105-151 | the track loop keeps exactly the tracks with notes, in order, and reports their latest note end |
| `MidiReader.ReadMidiFile` | backend/app_integrated.py:70-162 | the reader returns the specified data, or raises on a zero tempo or a zero BPM/ticks per beat; durations use the corrected closing search (see Left out) |
| `MidiReader.ReadSpec` | backend/app_integrated.py:70-158 | a successful read had a positive tempo and positive ticks per beat, and reports a positive BPM and the file's own ticks per beat |
| `MidiReader.NotesUpToPositive` | backend/app_integrated.py:126-138 | every kept note starts at or after 0 and lasts a positive time |
| `MidiReader.NotesUpToAscending` | backend/app_integrated.py:110-138 | a track's notes come out in ascending start time |
| `MidiReader.ReadTracksNonEmpty` | backend/app_integrated.py:143-147 | there are at most as many kept tracks as tracks, each with notes and without a stem tag |
| `MidiReader.ReadNotesWellFormed` | backend/app_integrated.py:126-158 | in a successful read every note starts at or after 0, lasts a positive time and ends by the reported duration |
| `MidiReader.VariantsAgreeWhenAllClosed` | backend/app.py:62-153 | the two servers read a file in which every sounding note_on is closed identically |
| `MidiReader.TempoAndErrors` | backend/app_integrated.py:85-102 | no set_tempo means 120 BPM; zero ticks per beat fails; a zero tempo raises "division by zero" |
| `MidiReader.ReadExampleClosed` | backend/app_integrated.py:105-158 | a one-beat note at 480 ticks per beat starts and lasts half a second, under the track's own name |
| `MidiReader.ReadExampleUnclosed` | backend/app.py:104-114 | an unclosed note sounds to the end of the track in the integrated server and is dropped by the legacy one |
| `NoteData.AllNotesLength` | frontend/src/hooks/useMIDIPlayer.js:90 | flattening the tracks keeps every note: the length is the total note count |
| `NoteData.AllNotesAppend` | frontend/src/hooks/useMIDIPlayer.js:90 | flattening distributes over concatenation of track lists |
| `NoteData.AllNotesMembership` | frontend/src/hooks/useMIDIPlayer.js:90 | a note is in the flattened list exactly when some track holds it |
| `UploadRules.SplitExt` | backend/app_integrated.py:263 | splitext divides the name without loss, and the extension is empty or a dot followed by no dot or slash |
| `UploadRules.SplitExtJoin` | backend/app_integrated.py:263 | a root followed by an extension splits back into that root and extension |
| `UploadRules.DotNameHasNoExtension` | backend/app_integrated.py:263 | a name made only of a dot and an extension (".wav") has no extension |
| `UploadRules.AudioNameCheck` | backend/app_integrated.py:259-269 | the name is accepted exactly when it is non-empty and its lower-cased extension is an audio one; otherwise 400 |
| `UploadRules.AudioNameByExtension` | backend/app.py:239-250 | root + extension is accepted exactly when the lower-cased extension is .wav, .mp3, .flac, .m4a or .ogg |
| `UploadRules.AudioNameWithoutExtensionRefused` | backend/app.py:243-250 | a name without an extension is refused with 400 |
| `IntegratedServer.UploadMidi` | backend/app_integrated.py:549-573 | 400 exactly for a name not ending in .mid/.midi (any case), 500 exactly when saving fails, otherwise stored under the given name |
| `IntegratedServer.MidiNameExamples` | backend/app_integrated.py:550 | "Song.MID", "take2.midi" and ".mid" are MIDI names |
| `IntegratedServer.NonMidiNameExamples` | backend/app_integrated.py:550 | "song.mid.wav" and "mid" are not |
| `IntegratedServer.Tagged` | backend/app_integrated.py:325-327 | tagging keeps every track's name and notes and sets its stem |
| `IntegratedServer.TaggedKeepsNotes` | backend/app_integrated.py:325-327 | tagging leaves the flattened notes unchanged |
| `IntegratedServer.ReadStem` | backend/app_integrated.py:320-336 | a transcribed stem contributes the reader's tracks; a failed one contributes nothing |
| `IntegratedServer.MergeFailureSticks` | backend/app_integrated.py:312-336 | once reading a stem's MIDI raises, the whole merge fails with that error |
| `IntegratedServer.AppendTagged` | backend/app_integrated.py:325-327 | the inner loop appends the stem's tracks, tagged, after those collected so far |
| `IntegratedServer.CollectTracks` | backend/app_integrated.py:312-336 | the stem loop collects the tagged tracks of the transcribed stems in stem order |
| `IntegratedServer.LongestStem` | backend/app_integrated.py:339-342 | the duration loop computes the maximum duration over successful stems |
| `IntegratedServer.MergeStems` | backend/app_integrated.py:308-363 | the merge gives the combined data at 120 BPM and 480 ticks per beat, or the reader's error |
| `IntegratedServer.MergedTracksTagged` | backend/app_integrated.py:320-327 | every merged track is tagged with the name of a stem that was transcribed |
| `IntegratedServer.MaxStemDurationBounds` | backend/app_integrated.py:339-342 | the combined duration is at least every successful stem's and is 0 or one of them |
| `IntegratedServer.MergeTotalNotes` | backend/app_integrated.py:344-363 | total_notes counts every merged note; the BPM is 120 and ticks per beat 480 |
| `IntegratedServer.MergeSpec` | backend/app_integrated.py:320-349 | the merged duration is non-negative and at least the duration of every transcribed stem |
| `IntegratedServer.MergedNotes` | backend/app_integrated.py:312-336 | a transcribed stem appends exactly its read notes; a failed stem appends nothing |
| `IntegratedServer.NothingTranscribed` | backend/app_integrated.py:312-342 | if every transcription fails, the merge has no tracks and duration 0 |
| `LegacyServer.UploadMidiAsWritten` | backend/app.py:193-218 | the 400 for a wrong name is caught and answered 500; a .mid name (any case) that saves is stored |
| `LegacyServer.UploadMidi` | backend/app.py:195-218 | intended reply: 400 exactly for a non-.mid name, 500 exactly when saving fails, otherwise stored |
| `LegacyServer.UploadAsWrittenDiffers` | backend/app.py:193-218 | the two replies agree on MIDI names and differ (500 against 400) on every other name |
| `LegacyServer.UploadWavExample` | backend/app.py:195-218 | "song.wav" is answered 500 where 400 is meant |
| `LegacyServer.MidiNameExamples` | backend/app.py:195 | "Song.MID" is accepted and "take2.midi" is not |
| `LegacyServer.DownloadPath` | backend/app.py:448-453 | only "stems" and "midi" have a path: temp_stems/stems_NAME.json or temp_midi/midi_NAME.json |
| `LegacyServer.DownloadPathInjective` | backend/app.py:448-451 | different names never share a download path |
| `LegacyServer.DownloadTypesDisjoint` | backend/app.py:448-451 | a stems path is never a midi path |
| `LegacyServer.DownloadFile` | backend/app.py:447-462 | 400 exactly for an unknown type, 404 exactly for a missing file, otherwise the file under the name TYPE_NAME |
| `LegacyServer.DownloadExamples` | backend/app.py:447-462 | an existing midi download is served, a missing stems one is 404, an "audio" one is 400 |
| `Transcriber.EstimateVelocity` | backend/transcribe_to_midi.py:238-257 | the velocity is a MIDI velocity, and with the frequency factor in [0.5, 1.5] it lies in [40, 120] |
| `Transcriber.VelocityLandmarks` | backend/transcribe_to_midi.py:248-257 | 440 Hz gives 80; up to 220 Hz gives 40; from 660 Hz gives 120 |
| `Transcriber.VelocityMonotonic` | backend/transcribe_to_midi.py:251-257 | a higher frequency never gives a lower velocity |
| `Transcriber.FreqToMidi` | backend/transcribe_to_midi.py:234-235 | a non-positive frequency maps to 0 |
| `Transcriber.FreqToMidiScale` | backend/transcribe_to_midi.py:236 | 440 Hz is MIDI 69, and doubling the frequency adds 12 semitones |
| `Transcriber.ClosestUpTo` | backend/transcribe_to_midi.py:191-192 | argmin: no pitch sample is closer to the onset, and no earlier one is as close |
| `Transcriber.SearchLeft` | backend/transcribe_to_midi.py:202 | searchsorted (left): every earlier onset is below the value and the one found is not |
| `Transcriber.OnsetNoteRule` | backend/transcribe_to_midi.py:189-221 | an onset yields a note exactly when some pitch sample lies within 0.2 s of it and the note lasts at least the minimum duration |
| `Transcriber.OnsetNote` | backend/transcribe_to_midi.py:189-221 | a note starts at its onset, ends at the estimated end, lasts at least the minimum, has a velocity in [40,120], and takes the frequency of a pitch sample within 0.2 s of the onset |
| `Transcriber.NoteEndRule` | backend/transcribe_to_midi.py:202-206 | a note ends 0.05 s before the first onset at least 0.1 s later, or 1 s after its start when there is none |
| `Transcriber.NoteEnd` | backend/transcribe_to_midi.py:202-206 | a note ends at least 0.05 s after its onset |
| `Transcriber.GroupSpec` | backend/transcribe_to_midi.py:174-224 | grouping fails exactly when there are onsets but no pitch samples, and gives no notes for no onsets |
| `Transcriber.NoteForOnset` | backend/transcribe_to_midi.py:190-221 | the argmin loop and the searchsorted loop give the specified note for one onset |
| `Transcriber.GroupNotes` | backend/transcribe_to_midi.py:174-224 | the onset loop computes the specified grouping |
| `Transcriber.OnsetNoteFits` | backend/transcribe_to_midi.py:209-221 | a grouped note starts at its onset and lasts at least the minimum duration |
| `Transcriber.GroupedShape` | backend/transcribe_to_midi.py:187-224 | there are at most as many notes as onsets, each starting at an onset and lasting at least the minimum |
| `Transcriber.GroupedAscending` | backend/transcribe_to_midi.py:189-221 | with sorted onsets the notes come out in ascending start time |
| `Transcriber.GroupExample` | backend/transcribe_to_midi.py:174-224 | onsets 0 and 0.5 s at 440 and 880 Hz give A4 ending at 0.45 s and A5 ending at 1.5 s |
| `Transcriber.SnapRule` | backend/transcribe_to_midi.py:277-280 | a snapped time is a multiple of the interval and at most half an interval away |
| `Transcriber.Snap` | backend/transcribe_to_midi.py:277 | a time already on the grid is left where it is |
| `Transcriber.Quantize` | backend/transcribe_to_midi.py:275-284 | a quantised note lasts at least the minimum and keeps its pitch, velocity and frequency |
| `Transcriber.QuantizeRule` | backend/transcribe_to_midi.py:275-284 | a quantised note starts on the grid within half an interval, lasts at least the minimum, and keeps pitch, velocity and frequency; its end is the snapped end (on the grid, within half an interval of the old end) unless that is closer than the minimum to the start, in which case it is the start plus the minimum |
| `Transcriber.QuantizeAll` | backend/transcribe_to_midi.py:259-287 | quantisation keeps the note count and is the identity when quantize_ms <= 0 |
| `Transcriber.QuantizeAllRule` | backend/transcribe_to_midi.py:271-284 | each quantised note lasts at least the minimum, keeps its pitch and moves its start by at most half an interval; its end is the snapped end, within half an interval of the old end, or the start plus the minimum when the snapped end is too close |
| `Transcriber.QuantizeNotes` | backend/transcribe_to_midi.py:259-287 | the in-place loop over the note array leaves it equal to the quantised notes |
| `Transcriber.CreateMidiAsWritten` | backend/transcribe_to_midi.py:289-318 | create_midi returns only for an empty list (0 notes) and raises for any other |
| `Transcriber.CreateMidi` | backend/transcribe_to_midi.py:289-318 | the intended create_midi writes every note and returns the note count |
| `Transcriber.TranscribeSpec` | backend/transcribe_to_midi.py:320-381 | missing dependencies fail first, then a missing input file |
| `Transcriber.Transcribe` | backend/transcribe_to_midi.py:320-381 | transcribe returns the specified result, step by step |
| `Transcriber.TranscribeAsWrittenNeverSucceeds` | backend/transcribe_to_midi.py:299-307 | with create_midi as written no transcription succeeds; where the intended one would, it fails with the unbound-name error |
| `Transcriber.TranscribeSuccessNeeds` | backend/transcribe_to_midi.py:324-359 | a success needs dependencies, an existing input, successful detection and audio of non-zero length |
| `Transcriber.DensityTimesDuration` | backend/transcribe_to_midi.py:358-359 | note density times duration is the note count |
| `Transcriber.TranscribeSucceeds` | backend/transcribe_to_midi.py:345-377 | a success reports at least one note, at most one per onset, a consistent density, and notes of at least the minimum duration |
| `Transcriber.TranscribeNoNotes` | backend/transcribe_to_midi.py:346-349 | with no onsets, or no onset that yields a note, transcription fails with "no notes" |
| `MockMidi.KeepLowerAlnumSound` | frontend/src/hooks/useMIDI.js:23 | the filter keeps only [a-z0-9], never lengthens, and keeps a clean name unchanged |
| `MockMidi.Normalize` | frontend/src/hooks/useMIDI.js:23 | the search key is no longer than the file name and holds only [a-z0-9] |
| `MockMidi.NormalizeIdempotent` | frontend/src/hooks/useMIDI.js:23 | normalising a normalised name changes nothing |
| `MockMidi.NormalizeIgnoresCase` | frontend/src/hooks/useMIDI.js:23 | lower-casing first changes nothing |
| `MockMidi.NormalizeAppend` | frontend/src/hooks/useMIDI.js:23 | normalisation distributes over concatenation |
| `MockMidi.SelectDataset` | frontend/src/hooks/useMIDI.js:25-131 | chords exactly when "chord"/"accordi" occurs; otherwise scale for "scale"/"scala"; otherwise drums for "drum"/"batteria"; otherwise the melody |
| `MockMidi.MockData` | frontend/src/hooks/useMIDI.js:25-131 | each mock piece is one untagged track whose notes lie within its duration and have MIDI pitch and velocity |
| `MockMidi.DatasetShapes` | frontend/src/hooks/useMIDI.js:25-131 | chords: 12 s, 12 notes; scale: 8 s, 15 notes; drums: 4 s, 16 notes; melody: 8 s, 8 notes |
| `MockMidi.GetMockMidiData` | frontend/src/hooks/useMIDI.js:22-132 | the result is a well-formed one-track piece, the chord piece whenever the normalised name mentions chords |
| `MockMidi.LoadMock` | frontend/src/hooks/useMIDI.js:8-150 | no file (or an empty name) clears the data; otherwise the mock piece for that name is loaded |
| `MockMidi.ChordsTakePrecedence` | frontend/src/hooks/useMIDI.js:25 | a name starting with "chord" selects chords whatever follows |
| `MockMidi.PlainNameIsMelody` | frontend/src/hooks/useMIDI.js:111-131 | "songmid" selects the default melody |
| `MockMidi.DrumSelectsDrums` | frontend/src/hooks/useMIDI.js:80 | "drum" selects the drum pattern |
| `MockMidi.ScaleBeforeDrums` | frontend/src/hooks/useMIDI.js:53-80 | "drumscale" selects the scale, because the scale test comes first |
| `MockMidi.FileNameExamples` | frontend/src/hooks/useMIDI.js:22-131 | "song.mid" loads the melody, "D.R.U.M" the drums, "Drum-Scale" the scale |
| `ToneTransport.HostClock.Schedule` | frontend/src/hooks/useMIDIPlayer.js:75-82 | scheduling adds one event under a fresh id and keeps every other event |
| `ToneTransport.HostClock.Clear` | frontend/src/hooks/useMIDIPlayer.js:60-62 | clearing removes exactly that id |
| `ToneTransport.HostClock.SetSeconds` | frontend/src/hooks/useMIDIPlayer.js:141 | setting the position sets the transport clock |
| `Playback.LoadedDuration` | frontend/src/hooks/usePlayback.js:15 | `duration \|\| 10`: the data's duration, or 10 s when it is 0 |
| `Playback.FramePosition` | frontend/src/hooks/usePlayback.js:41-42 | the frame position is the paused time plus elapsed time, capped at the duration |
| `Playback.FramePositionMonotonic` | frontend/src/hooks/usePlayback.js:41-42 | a later frame never shows an earlier position |
| `Playback.Transport.Load` | frontend/src/hooks/usePlayback.js:13-34 | new data rewinds to 0 with its duration and resets the clock; no data also stops playback |
| `Playback.Transport.Tick` | frontend/src/hooks/usePlayback.js:37-59 | a frame advances the playhead and requests another frame; reaching the end stops and rewinds to 0 |
| `Playback.Transport.OnPlayingChanged` | frontend/src/hooks/usePlayback.js:62-77 | starting records the start time and runs one frame; stopping cancels the pending frame |
| `Playback.Transport.Play` | frontend/src/hooks/usePlayback.js:79-97 | with audio ready, play starts from the current time and moves the clock there; otherwise nothing changes |
| `Playback.Transport.Pause` | frontend/src/hooks/usePlayback.js:99-103 | pause stops and remembers the current time |
| `Playback.Transport.Stop` | frontend/src/hooks/usePlayback.js:105-109 | stop stops and rewinds to 0 |
| `Playback.Transport.Seek` | frontend/src/hooks/usePlayback.js:111-121 | seek moves the playhead, the resume point and the clock to the new time |
| `MidiPlayer.NotesFromCounts` | frontend/src/hooks/useMIDIPlayer.js:66 | the filter keeps every copy of each note starting at or after the start time, and no other note |
| `MidiPlayer.NotesFromLate` | frontend/src/hooks/useMIDIPlayer.js:66 | every kept note starts at or after the start time |
| `MidiPlayer.NotesFromAppend` | frontend/src/hooks/useMIDIPlayer.js:66 | the filter distributes over concatenation |
| `MidiPlayer.NotesFromUniform` | frontend/src/hooks/useMIDIPlayer.js:66 | all notes late enough are all kept; all too early give nothing |
| `MidiPlayer.ActiveInMembership` | frontend/src/hooks/useMIDIPlayer.js:91-95 | a pitch is active exactly when some note of it spans the time, both ends included |
| `MidiPlayer.ActiveInAppend` | frontend/src/hooks/useMIDIPlayer.js:91-95 | active pitches distribute over concatenation |
| `MidiPlayer.ActiveNotes` | frontend/src/hooks/useMIDIPlayer.js:87-98 | no data means no active notes |
| `MidiPlayer.ActiveNotesByTrack` | frontend/src/hooks/useMIDIPlayer.js:90-97 | the active pitches are the first track's followed by the rest's |
| `MidiPlayer.ActiveNotesMembership` | frontend/src/hooks/useMIDIPlayer.js:87-98 | a pitch is active exactly when a note of it in some track spans the time |
| `MidiPlayer.DefaultMelodyActiveAtOne` | frontend/src/hooks/useMIDIPlayer.js:87-98 | at 1 s the mock melody sounds C4 and E4, the first note's end being included |
| `MidiPlayer.DefaultMelodyActiveAtHalf` | frontend/src/hooks/useMIDIPlayer.js:87-98 | at 0.5 s only C4 sounds |
| `MidiPlayer.DefaultMelodyActiveInRest` | frontend/src/hooks/useMIDIPlayer.js:87-98 | at 4.25 s nothing sounds |
| `MidiPlayer.Player.Initialize` | frontend/src/hooks/useMIDIPlayer.js:11-48 | the player becomes ready once audio is ready, and stays ready |
| `MidiPlayer.Player.ClearScheduled` | frontend/src/hooks/useMIDIPlayer.js:59-63 | clearing removes exactly the player's scheduled events from the transport and forgets their ids |
| `MidiPlayer.Player.ScheduleAll` | frontend/src/hooks/useMIDIPlayer.js:70-83 | one event per note, in order, at the note's absolute time; other events are untouched |
| `MidiPlayer.Player.PlayMidiNotes` | frontend/src/hooks/useMIDIPlayer.js:51-84 | when ready, the old events are replaced by one per note starting at or after the start time; when not ready nothing changes |
| `MidiPlayer.Player.OnPlaybackChange` | frontend/src/hooks/useMIDIPlayer.js:111-133 | playing schedules all notes from the current time; stopping clears the events and the active notes |
| `MidiPlayer.Player.UpdateActive` | frontend/src/hooks/useMIDIPlayer.js:101-108 | when ready with data, the active notes are those sounding at the current time |
| `MidiPlayer.Player.HandleSeek` | frontend/src/hooks/useMIDIPlayer.js:136-155 | a seek moves the transport clock and, while playing, reschedules from the new time |
| `MidiPlayer.DefaultMelodyFromStart` | frontend/src/hooks/useMIDIPlayer.js:66 | playing the mock melody from 0 schedules all eight notes |
| `MidiPlayer.DefaultMelodyFrom` | frontend/src/hooks/useMIDIPlayer.js:66 | playing it from 4 s schedules its last four notes |
| `MidiPlayer.ThreeNotesFrom` | frontend/src/hooks/useMIDIPlayer.js:66 | from 1.5 s a note that started at 1 s and still sounds is not scheduled |
| `MidiPlayer.PlayScenario` | frontend/src/hooks/useMIDIPlayer.js:51-133 | initialising and starting playback of three notes schedules them as ids 0, 1, 2 |
| `PianoRoll.PixelsPerBeatPositive` | frontend/src/components/PianoRoll.jsx:175-186 | the beat width is positive for a positive zoom |
| `PianoRoll.TimeToPixels` | frontend/src/components/PianoRoll.jsx:175-186 | time 0 lies at the scrolled edge of the key column; with a positive zoom on a canvas wider than the key column, exactly the non-negative times lie at or right of it |
| `PianoRoll.PixelsToTime` | frontend/src/components/PianoRoll.jsx:189-199 | an x coordinate maps to a non-negative time exactly when it lies at or right of the scrolled edge of the key column |
| `PianoRoll.TimePixelsRoundTrip` | frontend/src/components/PianoRoll.jsx:175-199 | pixelsToTime undoes timeToPixels |
| `PianoRoll.PitchToY` | frontend/src/components/PianoRoll.jsx:231-245 | on 0..127 the rows lie between −scrollY and 127·20 − scrollY, with pitch 127 at the top |
| `PianoRoll.PixelsTimeRoundTrip` | frontend/src/components/PianoRoll.jsx:175-199 | timeToPixels undoes pixelsToTime |
| `PianoRoll.TimeToPixelsMonotonic` | frontend/src/components/PianoRoll.jsx:175-186 | later times lie strictly further right |
| `PianoRoll.YToPitch` | frontend/src/components/PianoRoll.jsx:248-260 | the pitch under a y coordinate is clamped into 0..127 |
| `PianoRoll.PitchYRoundTrip` | frontend/src/components/PianoRoll.jsx:231-260 | the pitch under a key's centre line is that key |
| `PianoRoll.YToPitchBand` | frontend/src/components/PianoRoll.jsx:231-260 | every y within half a key of a key's line maps to that key |
| `PianoRoll.NoteNameExamples` | frontend/src/components/PianoRoll.jsx:166-171 | 60 is C4, 69 is A4, 61 is C#4, 0 is C-1 and 127 is G9 |
| `PianoRoll.MidiToNoteName` | frontend/src/components/PianoRoll.jsx:166-171 | a non-negative number is named by the pitch class of m mod 12 and the octave m div 12 − 1; a negative number that is not a multiple of 12 starts with "undefined" |
| `PianoRoll.IntToStringInjective` | frontend/src/components/PianoRoll.jsx:168-170 | different octave numbers render differently |
| `PianoRoll.NoteNameInjective` | frontend/src/components/PianoRoll.jsx:166-171 | different non-negative MIDI numbers get different names |
| `PianoRoll.FormatTimeIsMinutesSeconds` | frontend/src/components/PianoRoll.jsx:8-13 | a non-negative time renders as whole minutes, a colon and two-digit whole seconds |
| `PianoRoll.FormatTime` | frontend/src/components/PianoRoll.jsx:8-13 | every label holds the ':' between minutes and seconds |
| `PianoRoll.ToRollNote` | frontend/src/components/PianoRoll.jsx:143-155 | a drawn note keeps the pitch, start and velocity, ends at start + duration and records its track |
| `PianoRoll.CollectFaithful` | frontend/src/components/PianoRoll.jsx:138-162 | every extracted note comes from some note of the track it names |
| `PianoRoll.CollectComplete` | frontend/src/components/PianoRoll.jsx:138-162 | every note of every track is extracted |
| `PianoRoll.SortByStart` | frontend/src/components/PianoRoll.jsx:159-161 | the sort by start time gives a sorted permutation of its input |
| `PianoRoll.PushTrackNotes` | frontend/src/components/PianoRoll.jsx:142-156 | the inner loop appends a track's notes in order |
| `PianoRoll.CollectNotes` | frontend/src/components/PianoRoll.jsx:138-158 | the track loop collects every track's notes, track by track |
| `PianoRoll.ExtractNotesFromMidi` | frontend/src/components/PianoRoll.jsx:138-162 | extraction gives every note of the data exactly once, sorted by start time |
| `PianoRoll.MinPitch` | frontend/src/components/PianoRoll.jsx:77 | `Math.min` over the pitches: a lower bound attained by some note |
| `PianoRoll.MaxPitch` | frontend/src/components/PianoRoll.jsx:78 | `Math.max` over the pitches: an upper bound attained by some note |
| `PianoRoll.AutoCentreScrollY` | frontend/src/components/PianoRoll.jsx:76-117 | the auto-centred scroll lies in [0, max(0, 2560 - height)] and is 0 without notes |
| `PianoRoll.CentredPitchPosition` | frontend/src/components/PianoRoll.jsx:79-100 | when no clamp applies, the middle pitch sits half a view plus the padding below the top |
| `PianoRoll.ScrollbarVisibleIffZoomed` | frontend/src/components/PianoRoll.jsx:202-220 | with MIDI present the horizontal scrollbar shows exactly when the zoom exceeds 1 |
| `PianoRoll.ScrollbarVisible` | frontend/src/components/PianoRoll.jsx:202-220 | the scrollbar shows only with data on a non-zero width, and always shows then when the zoom exceeds 1 |
| `PianoRoll.NoScrollbarWithoutMidi` | frontend/src/components/PianoRoll.jsx:202-205 | without MIDI there is no scrollbar |
| `PianoRoll.MaxScrollX` | frontend/src/components/PianoRoll.jsx:1092-1095 | the leftmost scroll offset is never positive |
| `PianoRoll.ScrollbarDragDelta` | frontend/src/components/PianoRoll.jsx:727-738 | a scrollbar drag moves the view in the pointer's direction, and not at all when nothing overflows |
| `PianoRoll.TimelineClickTime` | frontend/src/components/PianoRoll.jsx:948-955 | without a duration a click does nothing; a click inside the bar seeks within [0, duration] |
| `PianoRoll.Viewport.constructor` | frontend/src/components/PianoRoll.jsx:26-37 | the view starts at zoom 1.95, unscrolled, empty and not dragging |
| `PianoRoll.Viewport.Load` | frontend/src/components/PianoRoll.jsx:63-122 | new data shows its notes sorted, resets scrollX and auto-centres with 10% padding; the zoom stays in range |
| `PianoRoll.Viewport.CentreOnNotes` | frontend/src/components/PianoRoll.jsx:1055-1075 | the centre button centres with 30% padding, within the scroll range |
| `PianoRoll.Viewport.Wheel` | frontend/src/components/PianoRoll.jsx:799-822 | Ctrl/Meta zooms within [0.1, 10]; Shift scrolls sideways by 50 px, never past time 0; otherwise it scrolls vertically within [0, 1960] |
| `PianoRoll.Viewport.ZoomOut` | frontend/src/components/PianoRoll.jsx:917 | "−" zooms out by 0.8, not below 0.1 |
| `PianoRoll.Viewport.ZoomReset` | frontend/src/components/PianoRoll.jsx:924 | "100%" sets zoom 1 |
| `PianoRoll.Viewport.ZoomIn` | frontend/src/components/PianoRoll.jsx:931 | "+" zooms in by 1.25, not above 5 |
| `PianoRoll.Viewport.ScrollLeft` | frontend/src/components/PianoRoll.jsx:1086-1119 | the left arrow (shown when zoomed, enabled while scrollX < 0) scrolls 50 px, never past 0 |
| `PianoRoll.Viewport.ScrollRight` | frontend/src/components/PianoRoll.jsx:1086-1129 | the right arrow (shown when zoomed, enabled above the leftmost offset) scrolls 50 px, never past that offset |
| `PianoRoll.Viewport.PlayheadDragTime` | frontend/src/components/PianoRoll.jsx:751-753 | a playhead drag seeks within [0, duration \|\| 10] |
| `PianoRoll.Viewport.MouseDown` | frontend/src/components/PianoRoll.jsx:692-722 | a press on the scrollbar strip starts a scrollbar drag; on the handle, a playhead drag; elsewhere, a canvas drag recording the start point |
| `PianoRoll.Viewport.MouseMove` | frontend/src/components/PianoRoll.jsx:724-780 | a scrollbar drag moves scrollX within [leftmost, 0]; a playhead drag asks for a seek; a canvas drag pans, with scrollX never positive |
| `PianoRoll.Viewport.MouseUp` | frontend/src/components/PianoRoll.jsx:782-788 | releasing the pointer ends every drag |
| `PianoRoll.PlayheadHitWindow` | frontend/src/components/PianoRoll.jsx:709-711 | the handle's hit window is centred scrollX to the right of where the playhead is drawn |
| `PianoRoll.Viewport.OnPlayhead` | frontend/src/components/PianoRoll.jsx:709-711 | a press hits the handle exactly when x is within half a handle of timeToPixels taken with twice the scroll offset, and y is within the handle's height |
| `PianoRoll.PlayheadDragRoundTrip` | frontend/src/components/PianoRoll.jsx:709-753 | dragging to the handle's hit position for a time within the duration seeks exactly to that time |

## Left out

- Reading and writing MIDI files (mido, pretty_midi): a parsed file is the reader's input, and a file that was written is a parameter of the transcriber.
- Audio loading, onset detection and pitch detection (librosa, CREPE), and stem separation: their outputs are inputs to the model.
- `np.log2` is a parameter, with the properties the lemmas need stated as preconditions.
- Float arithmetic: all times, frequencies and coordinates are exact reals.
- Python's unbounded `int` is kept; JavaScript numbers are not modelled as doubles.
- Lower-casing covers ASCII letters only. Unicode case mapping is not modelled.
- HTTP detail messages, logging, metadata files, `/health`, `/status`, `/stems`, `/midi/{filename}` and the other endpoints outside the core are left out.
- Only the status codes and stored names of `/upload-midi` and `/download` are modelled.
- The full `/transcribe` pipeline is not modelled. Saving the upload, timestamps and separation are I/O; only the name check and the stem merge are modelled.
- Canvas drawing, the auto-centre message and its timers, the 200 ms redraw guard, and the mock loader's 500 ms delay are left out.
- React effect scheduling and stale closures are left out. Each effect or handler is one method call on the current state.
- Tone.js sound synthesis is left out. The callbacks that trigger notes are not modelled; only what is scheduled, and when, is kept.
- `requestAnimationFrame` is modelled as a pending-frame flag, and `Tone.now()` as a time parameter.
- Creating and disposing of the Tone.js synth is left out. The unmount cleanup clears the scheduled events as `MidiPlayer.Player.ClearScheduled` does.
- `PianoRoll.Viewport.MouseMove`: a playhead drag asks for a seek on every move; the 16 ms throttle (`Date.now`) is not modelled.
- `PianoRoll.Viewport.Wheel`: the 16 ms throttle is not modelled; every wheel event is handled.
- `MidiReader.ClosingTicks`: the closing search starts right after the note_on being read, not after `track.index(msg)` as in backend/app_integrated.py:116 and backend/app.py:107-108, which is the first message equal to the note_on, delta time included. The two differ only on a track with an earlier identical note_on. `MidiReader.DurationTicksAsWritten` models the search as written, and `MidiReader.AsWrittenRepeatedNote` shows a case where they differ (see Findings).
- `MidiReader.ReadMidiFile`: it equals `MidiReader.ReadSpec`, which measures every duration with the corrected search above. On a track with a repeated identical note_on, the source as written gives the later copy the duration measured from the first copy.
- `Transcriber.SearchLeft`: the result is the first position at or above the value, which equals `np.searchsorted` only on sorted onsets (librosa returns them sorted).
- `Transcriber.EstimateVelocity`: the `time` argument is ignored by the source and left out.
- The fixed 2000 × 600 canvas and 400-pixel key column are constants, because the source sets them on every load.
- The electron shell, the audio-player hook, `apiService.js` and `audioService.js` are not part of this model.

## Findings

| source | as written | input that shows it | evidently intended | confidence | as-written member | corrected member |
|---|---|---|---|---|---|---|
| backend/app_integrated.py:116 (and backend/app.py:107-110) | the search for a note's closing message starts after `track.index(msg)`, the first message equal to the note_on (mido messages compare by value, delta time included) | a track `note_on(60, 80, t=0), note_off(60, t=480), note_on(60, 80, t=0), note_off(60, t=240)`: the second note is given 480 ticks instead of 240 | the search starts right after the note_on being read | not executed | `MidiReader.AsWrittenRepeatedNote` | `MidiReader.ClosedNoteEndsAtCloser` |
| backend/transcribe_to_midi.py:300-306 | the loop variable is `note_data` but the body reads `note[...]`, so `note` is read before it is assigned | any non-empty note list: `create_midi` raises UnboundLocalError, `transcribe` catches it and no transcription ever succeeds | the body reads `note_data` | not executed | `Transcriber.TranscribeAsWrittenNeverSucceeds` | `Transcriber.TranscribeSucceeds` |
| backend/app.py:193-218 | the 400 raised for a non-.mid name is caught by `except Exception` and re-raised as 500 | uploading "song.wav" is answered 500 | 400, as the other handlers do by re-raising HTTPException first | not executed | `LegacyServer.UploadWavExample` | `LegacyServer.UploadMidi` |
