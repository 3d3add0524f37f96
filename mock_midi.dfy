/**
 * The front end's stand-in for MIDI loading: the file name is normalised
 * (ASCII lower case, everything outside [a-z0-9] removed) and picks one of
 * four built-in datasets by keyword, in a fixed order of precedence.
 */
module MockMidi {
  import opened Common
  import opened NoteData

  predicate IsLowerAlnum(c: char) {
    'a' <= c <= 'z' || '0' <= c <= '9'
  }

  /** Removes every character outside [a-z0-9], keeping the order of the rest. */
  function KeepLowerAlnum(s: string): string
    decreases |s|
  {
    if s == [] then []
    else (if IsLowerAlnum(s[0]) then [s[0]] else []) + KeepLowerAlnum(s[1..])
  }

  /** The result is no longer than the input, holds only [a-z0-9], and a string already in that form is kept whole. */
  lemma {:induction false} KeepLowerAlnumSound(s: string)
    ensures |KeepLowerAlnum(s)| <= |s|
    ensures forall i :: 0 <= i < |KeepLowerAlnum(s)| ==> IsLowerAlnum(KeepLowerAlnum(s)[i])
    ensures (forall i :: 0 <= i < |s| ==> IsLowerAlnum(s[i])) ==> KeepLowerAlnum(s) == s
    decreases |s|
  {
    if s != [] {
      KeepLowerAlnumSound(s[1..]);
      if forall i :: 0 <= i < |s| ==> IsLowerAlnum(s[i]) {
        assert forall i :: 0 <= i < |s[1..]| ==> IsLowerAlnum(s[1..][i]);
        assert s == [s[0]] + s[1..];
      }
    }
  }

  lemma {:induction false} KeepLowerAlnumAppend(a: string, b: string)
    ensures KeepLowerAlnum(a + b) == KeepLowerAlnum(a) + KeepLowerAlnum(b)
    decreases |a|
  {
    if a != [] {
      var head := if IsLowerAlnum(a[0]) then [a[0]] else [];
      assert (a + b)[0] == a[0];
      assert (a + b)[1..] == a[1..] + b;
      KeepLowerAlnumAppend(a[1..], b);
      calc {
        KeepLowerAlnum(a + b);
        head + KeepLowerAlnum(a[1..] + b);
        head + (KeepLowerAlnum(a[1..]) + KeepLowerAlnum(b));
        (head + KeepLowerAlnum(a[1..])) + KeepLowerAlnum(b);
      }
    } else {
      assert a + b == b;
    }
  }

  /** The base name the keywords are searched in. */
  function Normalize(fileName: string): (key: string)
    ensures |key| <= |fileName|
    ensures forall i :: 0 <= i < |key| ==> IsLowerAlnum(key[i])
  {
    KeepLowerAlnumSound(Lower(fileName));
    KeepLowerAlnum(Lower(fileName))
  }

  /** Normalising twice changes nothing. */
  lemma NormalizeIdempotent(fileName: string)
    ensures Normalize(Normalize(fileName)) == Normalize(fileName)
  {
    var r := Normalize(fileName);
    KeepLowerAlnumSound(Lower(fileName));
    assert Lower(r) == r;
    KeepLowerAlnumSound(r);
  }

  /** Case does not matter: a name and its lower-case form select alike. */
  lemma NormalizeIgnoresCase(fileName: string)
    ensures Normalize(Lower(fileName)) == Normalize(fileName)
  {
    assert Lower(Lower(fileName)) == Lower(fileName);
  }

  /** Normalisation works character by character, so separators cannot hide a keyword. */
  lemma NormalizeAppend(a: string, b: string)
    ensures Normalize(a + b) == Normalize(a) + Normalize(b)
  {
    assert Lower(a + b) == Lower(a) + Lower(b);
    KeepLowerAlnumAppend(Lower(a), Lower(b));
  }

  datatype Dataset = ChordProgression | MajorScale | DrumPattern | DefaultMelody

  predicate ChordKeyword(baseName: string) {
    Contains(baseName, "chord") || Contains(baseName, "accordi")
  }

  predicate ScaleKeyword(baseName: string) {
    Contains(baseName, "scale") || Contains(baseName, "scala")
  }

  predicate DrumKeyword(baseName: string) {
    Contains(baseName, "drum") || Contains(baseName, "batteria")
  }

  /** The keyword chain: chords, then scale, then drums, else the default melody. */
  function SelectDataset(baseName: string): (d: Dataset)
    ensures d == ChordProgression <==> ChordKeyword(baseName)
    ensures d == MajorScale <==> !ChordKeyword(baseName) && ScaleKeyword(baseName)
    ensures d == DrumPattern <==> !ChordKeyword(baseName) && !ScaleKeyword(baseName) && DrumKeyword(baseName)
    ensures d == DefaultMelody <==> !ChordKeyword(baseName) && !ScaleKeyword(baseName) && !DrumKeyword(baseName)
  {
    if ChordKeyword(baseName) then ChordProgression
    else if ScaleKeyword(baseName) then MajorScale
    else if DrumKeyword(baseName) then DrumPattern
    else DefaultMelody
  }

  /** A string lacking one of the characters of `sub` cannot contain `sub`. */
  lemma NotContainsMissingChar(s: string, sub: string, j: nat)
    requires j < |sub|
    requires forall i :: 0 <= i < |s| ==> s[i] != sub[j]
    ensures !Contains(s, sub)
  {
    forall i | 0 <= i <= |s|
      ensures !StartsWith(s[i..], sub)
    {
      if i + j < |s| {
        assert s[i..][j] == s[i + j];
      }
    }
  }

  function ChordNotes(): seq<MidiNote> {
    [ MidiNote(60, 0.0, 2.0, 80), MidiNote(64, 0.0, 2.0, 75), MidiNote(67, 0.0, 2.0, 82),
      MidiNote(65, 2.0, 2.0, 80), MidiNote(69, 2.0, 2.0, 75), MidiNote(72, 2.0, 2.0, 82),
      MidiNote(67, 4.0, 2.0, 80), MidiNote(71, 4.0, 2.0, 75), MidiNote(74, 4.0, 2.0, 82),
      MidiNote(69, 6.0, 2.0, 80), MidiNote(72, 6.0, 2.0, 75), MidiNote(76, 6.0, 2.0, 82) ]
  }

  function ScaleNotes(): seq<MidiNote> {
    [ MidiNote(60, 0.0, 0.5, 80), MidiNote(62, 0.5, 0.5, 75), MidiNote(64, 1.0, 0.5, 80),
      MidiNote(65, 1.5, 0.5, 75), MidiNote(67, 2.0, 0.5, 80), MidiNote(69, 2.5, 0.5, 75),
      MidiNote(71, 3.0, 0.5, 80), MidiNote(72, 3.5, 1.0, 90), MidiNote(71, 4.5, 0.5, 80),
      MidiNote(69, 5.0, 0.5, 75), MidiNote(67, 5.5, 0.5, 80), MidiNote(65, 6.0, 0.5, 75),
      MidiNote(64, 6.5, 0.5, 80), MidiNote(62, 7.0, 0.5, 75), MidiNote(60, 7.5, 0.5, 85) ]
  }

  function DrumNotes(): seq<MidiNote> {
    [ MidiNote(36, 0.0, 0.1, 100), MidiNote(36, 1.0, 0.1, 100), MidiNote(36, 2.0, 0.1, 100),
      MidiNote(36, 3.0, 0.1, 100),
      MidiNote(38, 0.5, 0.1, 80), MidiNote(38, 1.5, 0.1, 80), MidiNote(38, 2.5, 0.1, 80),
      MidiNote(38, 3.5, 0.1, 80),
      MidiNote(42, 0.25, 0.05, 60), MidiNote(42, 0.75, 0.05, 60), MidiNote(42, 1.25, 0.05, 60),
      MidiNote(42, 1.75, 0.05, 60), MidiNote(42, 2.25, 0.05, 60), MidiNote(42, 2.75, 0.05, 60),
      MidiNote(42, 3.25, 0.05, 60), MidiNote(42, 3.75, 0.05, 60) ]
  }

  function MelodyNotes(): seq<MidiNote> {
    [ MidiNote(60, 0.0, 1.0, 80), MidiNote(64, 1.0, 1.0, 75), MidiNote(67, 2.0, 1.0, 82),
      MidiNote(72, 3.0, 1.0, 90), MidiNote(69, 4.5, 1.0, 75), MidiNote(65, 5.5, 1.0, 80),
      MidiNote(62, 6.5, 1.0, 77), MidiNote(60, 7.5, 0.5, 85) ]
  }

  /** A note starts at or after 0, lasts a positive time and ends by `duration`; pitch and velocity are valid MIDI values. */
  predicate NoteFits(n: MidiNote, duration: real) {
    0.0 <= n.time && 0.0 < n.duration && n.time + n.duration <= duration
    && 0 <= n.midi <= 127 && 1 <= n.velocity <= 127
  }

  predicate WellFormed(m: MidiData) {
    forall t, i :: 0 <= t < |m.tracks| && 0 <= i < |m.tracks[t].notes| ==> NoteFits(m.tracks[t].notes[i], m.duration)
  }

  lemma ChordNotesFit() ensures forall i :: 0 <= i < |ChordNotes()| ==> NoteFits(ChordNotes()[i], 12.0) {}
  lemma ScaleNotesFit() ensures forall i :: 0 <= i < |ScaleNotes()| ==> NoteFits(ScaleNotes()[i], 8.0) {}
  lemma DrumNotesFit() ensures forall i :: 0 <= i < |DrumNotes()| ==> NoteFits(DrumNotes()[i], 4.0) {}
  lemma MelodyNotesFit() ensures forall i :: 0 <= i < |MelodyNotes()| ==> NoteFits(MelodyNotes()[i], 8.0) {}

  /** The four built-in datasets, one track each, without tempo information. */
  function MockData(d: Dataset): (m: MidiData)
    ensures |m.tracks| == 1 && m.bpm.None? && m.ticksPerBeat.None? && m.tracks[0].stem.None?
    ensures WellFormed(m)
  {
    match d
    case ChordProgression =>
      ChordNotesFit();
      MidiData(12.0, [Track("Chords", ChordNotes(), None)], None, None)
    case MajorScale =>
      ScaleNotesFit();
      MidiData(8.0, [Track("C Major Scale", ScaleNotes(), None)], None, None)
    case DrumPattern =>
      DrumNotesFit();
      MidiData(4.0, [Track("Drums", DrumNotes(), None)], None, None)
    case DefaultMelody =>
      MelodyNotesFit();
      MidiData(8.0, [Track("Piano", MelodyNotes(), None)], None, None)
  }

  /** Sizes and lengths of the datasets. */
  lemma DatasetShapes()
    ensures MockData(ChordProgression).duration == 12.0 && TotalNotes(MockData(ChordProgression).tracks) == 12
    ensures MockData(MajorScale).duration == 8.0 && TotalNotes(MockData(MajorScale).tracks) == 15
    ensures MockData(DrumPattern).duration == 4.0 && TotalNotes(MockData(DrumPattern).tracks) == 16
    ensures MockData(DefaultMelody).duration == 8.0 && TotalNotes(MockData(DefaultMelody).tracks) == 8
  {
    assert |ChordNotes()| == 12 && |ScaleNotes()| == 15 && |DrumNotes()| == 16 && |MelodyNotes()| == 8;
  }

  function GetMockMidiData(fileName: string): (m: MidiData)
    ensures WellFormed(m) && |m.tracks| == 1
    ensures ChordKeyword(Normalize(fileName)) ==> m == MockData(ChordProgression)
  {
    MockData(SelectDataset(Normalize(fileName)))
  }

  /** The loader: no file name, or an empty one, clears the data. */
  function LoadMock(midiFile: Option<string>): (r: Option<MidiData>)
    ensures r.None? <==> midiFile.None? || midiFile.value == ""
    ensures r.Some? ==> WellFormed(r.value) && r.value == GetMockMidiData(midiFile.value)
  {
    if midiFile.None? || midiFile.value == "" then None
    else Some(GetMockMidiData(midiFile.value))
  }

  /** Chord keywords win over every other keyword. */
  lemma ChordsTakePrecedence(fileName: string, other: string)
    ensures SelectDataset(Normalize("chord" + other + fileName)) == ChordProgression
  {
    assert "chord" + other + fileName == "chord" + (other + fileName);
    NormalizeAppend("chord", other + fileName);
    var n := Normalize("chord" + other + fileName);
    assert Normalize("chord") == "chord";
    assert n[0..][..5] == "chord";
  }

  lemma NormalizeSongMid()
    ensures Normalize("song.mid") == "songmid"
  {
    assert Lower("song.mid") == "song.mid";
    assert KeepLowerAlnum("song.mid") == "songmid";
  }

  lemma NormalizeSeparated()
    ensures Normalize("D.R.U.M") == "drum"
  {
    assert Lower("D.R.U.M") == "d.r.u.m";
    assert KeepLowerAlnum("d.r.u.m") == "drum";
  }

  lemma NormalizeHyphenated()
    ensures Normalize("Drum-Scale") == "drumscale"
  {
    var a, b := "Drum-", "Scale";
    assert a + b == "Drum-Scale";
    NormalizeAppend(a, b);
    NormalizeDrumDash();
    NormalizeScaleWord();
  }

  lemma NormalizeDrumDash()
    ensures Normalize("Drum-") == "drum"
  {
    assert Lower("Drum-") == "drum-";
    assert KeepLowerAlnum("drum-") == "drum";
  }

  lemma NormalizeScaleWord()
    ensures Normalize("Scale") == "scale"
  {
    assert Lower("Scale") == "scale";
    assert KeepLowerAlnum("scale") == "scale";
  }

  lemma SongmidHasNoChordKeyword()
    ensures !ChordKeyword("songmid")
  {
    NotContainsMissingChar("songmid", "chord", 0);
    NotContainsMissingChar("songmid", "accordi", 1);
  }

  lemma SongmidHasNoScaleKeyword()
    ensures !ScaleKeyword("songmid")
  {
    NotContainsMissingChar("songmid", "scale", 1);
    NotContainsMissingChar("songmid", "scala", 1);
  }

  lemma SongmidHasNoDrumKeyword()
    ensures !DrumKeyword("songmid")
  {
    NotContainsMissingChar("songmid", "drum", 1);
    NotContainsMissingChar("songmid", "batteria", 0);
  }

  /** A name with no keyword selects the default melody. */
  lemma PlainNameIsMelody()
    ensures SelectDataset("songmid") == DefaultMelody
  {
    SongmidHasNoChordKeyword();
    SongmidHasNoScaleKeyword();
    SongmidHasNoDrumKeyword();
  }

  lemma DrumSelectsDrums()
    ensures SelectDataset("drum") == DrumPattern
  {
    var n := "drum";
    NotContainsMissingChar(n, "chord", 0);
    NotContainsMissingChar(n, "accordi", 0);
    NotContainsMissingChar(n, "scale", 0);
    NotContainsMissingChar(n, "scala", 0);
    assert n[0..][..4] == "drum";
  }

  /** Scale outranks drums. */
  lemma ScaleBeforeDrums()
    ensures SelectDataset("drumscale") == MajorScale
  {
    DrumscaleHasNoChordKeyword();
    DrumscaleHasScaleKeyword();
  }

  lemma DrumscaleHasNoChordKeyword()
    ensures !ChordKeyword("drumscale")
  {
    NoChordLetters("drumscale");
  }

  /** A name without an 'h' or an 'o' cannot name the chord dataset. */
  lemma NoChordLetters(n: string)
    requires forall i :: 0 <= i < |n| ==> n[i] != 'h' && n[i] != 'o'
    ensures !ChordKeyword(n)
  {
    NotContainsMissingChar(n, "chord", 1);
    NotContainsMissingChar(n, "accordi", 3);
  }

  lemma DrumscaleHasScaleKeyword()
    ensures ScaleKeyword("drumscale")
  {
    var n := "drumscale";
    assert n[4..][..5] == "scale";
  }

  /** File names as the loader sees them: extension, punctuation and case do not hide or create a keyword. */
  lemma FileNameExamples()
    ensures GetMockMidiData("song.mid") == MockData(DefaultMelody)
    ensures GetMockMidiData("D.R.U.M") == MockData(DrumPattern)
    ensures GetMockMidiData("Drum-Scale") == MockData(MajorScale)
  {
    NormalizeSongMid();
    PlainNameIsMelody();
    NormalizeSeparated();
    DrumSelectsDrums();
    NormalizeHyphenated();
    ScaleBeforeDrums();
  }
}
