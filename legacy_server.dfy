/**
 * The legacy server's request logic: the MIDI upload's name check and the
 * type dispatch of the download endpoint.  Its reader is the legacy
 * variant of `MidiReader.ReadMidiFile`, and its /transcribe applies
 * `UploadRules.AudioNameCheck`.
 *
 * The upload handler raises its 400 inside a `try` whose only handler
 * catches every exception and answers 500, so a refused name is reported
 * as a server error.  `UploadMidiAsWritten` models that; `UploadMidi` is
 * the evidently intended reply, which lets the 400 through as the
 * server's other handlers do.
 */
module LegacyServer {
  import opened Common
  import opened UploadRules

  /** /upload-midi accepts names whose lower-case form ends in ".mid". */
  predicate IsMidiName(filename: string) {
    EndsWith(Lower(filename), ".mid")
  }

  /** The upload as written: any exception, the handler's own 400 included, becomes 500. */
  function UploadMidiAsWritten(filename: string, saved: bool): (r: UploadReply)
    ensures r.Refused? ==> r.status == 500
    ensures r.Stored? <==> IsMidiName(filename) && saved
  {
    if !IsMidiName(filename) then Refused(500)
    else if !saved then Refused(500)
    else Stored(filename)
  }

  /**
   * The upload as intended: 400 for a name that is not MIDI, 500 for a
   * failure while saving.  It has the shape of the integrated server's
   * handler; the two differ only in `IsMidiName`, which here accepts ".mid"
   * alone.
   */
  function UploadMidi(filename: string, saved: bool): (r: UploadReply)
    ensures r == Refused(400) <==> !IsMidiName(filename)
    ensures r == Refused(500) <==> IsMidiName(filename) && !saved
    ensures r.Stored? <==> IsMidiName(filename) && saved
    ensures r.Stored? ==> r.filename == filename
  {
    if !IsMidiName(filename) then Refused(400)
    else if !saved then Refused(500)
    else Stored(filename)
  }

  /** The two agree on every name they accept, and differ only in the status of a refused name. */
  lemma UploadAsWrittenDiffers(filename: string, saved: bool)
    ensures IsMidiName(filename) ==> UploadMidiAsWritten(filename, saved) == UploadMidi(filename, saved)
    ensures !IsMidiName(filename) ==>
      UploadMidiAsWritten(filename, saved) == Refused(500) && UploadMidi(filename, saved) == Refused(400)
  {
  }

  /** A WAV file sent to /upload-midi is answered 500 as written, where 400 is meant. */
  lemma UploadWavExample()
    ensures UploadMidiAsWritten("song.wav", true) == Refused(500)
    ensures UploadMidi("song.wav", true) == Refused(400)
  {
    assert Lower("song.wav") == "song.wav";
  }

  /** The legacy server refuses ".midi", which the integrated server accepts. */
  lemma MidiNameExamples()
    ensures IsMidiName("Song.MID") && !IsMidiName("take2.midi")
  {
    assert Lower("Song.MID") == "song.mid";
    assert Lower("take2.midi") == "take2.midi";
  }

  // ---------------------------------------------------------------------
  // Downloads
  // ---------------------------------------------------------------------

  const StemsDir: string := "temp_stems"
  const MidiDir: string := "temp_midi"

  /** The JSON file a download of the given type refers to; None for an unknown type. */
  function DownloadPath(fileType: string, filename: string): (p: Option<string>)
    ensures p.Some? <==> fileType == "stems" || fileType == "midi"
    ensures fileType == "stems" ==> StartsWith(p.value, StemsDir + "/stems_")
    ensures fileType == "midi" ==> StartsWith(p.value, MidiDir + "/midi_")
    ensures p.Some? ==> EndsWith(p.value, ".json")
  {
    if fileType == "stems" then
      var p := StemsDir + "/stems_" + filename + ".json";
      assert p[..|StemsDir| + 7] == StemsDir + "/stems_";
      Some(p)
    else if fileType == "midi" then
      var p := MidiDir + "/midi_" + filename + ".json";
      assert p[..|MidiDir| + 6] == MidiDir + "/midi_";
      Some(p)
    else None
  }

  /** Different names of one type never share a file. */
  lemma DownloadPathInjective(fileType: string, f1: string, f2: string)
    requires DownloadPath(fileType, f1).Some? && DownloadPath(fileType, f1) == DownloadPath(fileType, f2)
    ensures f1 == f2
  {
    var p := DownloadPath(fileType, f1).value;
    var head := if fileType == "stems" then StemsDir + "/stems_" else MidiDir + "/midi_";
    assert p == head + f1 + ".json";
    assert p == head + f2 + ".json";
    assert f1 == p[|head|..|p| - 5];
    assert f2 == p[|head|..|p| - 5];
  }

  /** A stems file and a MIDI file are never the same file. */
  lemma DownloadTypesDisjoint(f1: string, f2: string)
    ensures DownloadPath("stems", f1).value != DownloadPath("midi", f2).value
  {
    assert DownloadPath("stems", f1).value[5] == 's';
    assert DownloadPath("midi", f2).value[5] == 'm';
  }

  /** The reply of /download: the file and its download name, or the status of the refusal. */
  datatype DownloadReply = Serve(path: string, downloadName: string) | Rejected(status: nat)

  /** /download/{file_type}/{filename}; `existing` is the set of files on disk. */
  function DownloadFile(fileType: string, filename: string, existing: set<string>): (r: DownloadReply)
    ensures r == Rejected(400) <==> DownloadPath(fileType, filename).None?
    ensures r == Rejected(404) <==> DownloadPath(fileType, filename).Some? && DownloadPath(fileType, filename).value !in existing
    ensures r.Serve? ==> Some(r.path) == DownloadPath(fileType, filename) && r.path in existing
    ensures r.Serve? ==> r.downloadName == fileType + "_" + filename
  {
    match DownloadPath(fileType, filename)
    case None => Rejected(400)
    case Some(path) =>
      if path !in existing then Rejected(404)
      else Serve(path, fileType + "_" + filename)
  }

  lemma DownloadExamples()
    ensures DownloadFile("midi", "take1", {"temp_midi/midi_take1.json"})
      == Serve("temp_midi/midi_take1.json", "midi_take1")
    ensures DownloadFile("stems", "take1", {"temp_midi/midi_take1.json"}) == Rejected(404)
    ensures DownloadFile("audio", "take1", {"temp_midi/midi_take1.json"}) == Rejected(400)
  {
    assert MidiDir + "/midi_" + "take1" + ".json" == "temp_midi/midi_take1.json";
    assert "midi" + "_" + "take1" == "midi_take1";
    DownloadTypesDisjoint("take1", "take1");
  }
}
