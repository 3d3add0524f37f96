/**
 * Conversion of a parsed MIDI file (tracks of delta-timed messages) into
 * the note data the front end draws: tempo detection, absolute ticks,
 * note_on/note_off pairing, dropping of zero-length notes, conversion of
 * ticks to seconds, track naming and the overall duration.
 *
 * The two servers share this procedure and differ in one point: a note_on
 * that nothing closes lasts to the end of its track in the integrated
 * server, and lasts 0 ticks (and is dropped) in the legacy server.
 *
 * Both servers start the search for the closing message after the FIRST
 * message of the track equal to the note_on (messages compare by value,
 * delta time included).  `DurationTicksAsWritten` models that search;
 * the rest of the model searches after the note_on itself
 * (`DurationTicks`), which is what the code evidently intends.
 */
module MidiReader {
  import opened Common
  import opened NoteData

  datatype Message =
    | NoteOn(delta: nat, channel: nat, note: nat, velocity: nat)
    | NoteOff(delta: nat, channel: nat, note: nat, velocity: nat)
    | SetTempo(delta: nat, tempo: nat)
    | TrackName(delta: nat, name: string)
    | OtherMessage(delta: nat)

  datatype MidiFile = MidiFile(ticksPerBeat: nat, tracks: seq<seq<Message>>)

  /** Which server's copy of the reader. */
  datatype Variant = Integrated | Legacy

  /** Microseconds per beat when the file sets no tempo: 120 beats per minute. */
  const DefaultTempo: nat := 500000

  // ---------------------------------------------------------------------
  // Tempo
  // ---------------------------------------------------------------------

  /** The tempo of the first set_tempo at or after position `from`. */
  function FirstTempoFrom(track: seq<Message>, from: nat): (r: Option<nat>)
    ensures r.None? <==> forall j :: from <= j < |track| ==> !track[j].SetTempo?
    ensures r.Some? ==> exists j :: from <= j < |track| && track[j].SetTempo? && track[j].tempo == r.value
                                   && forall j' :: from <= j' < j ==> !track[j'].SetTempo?
    decreases |track| - from
  {
    if from >= |track| then None
    else if track[from].SetTempo? then Some(track[from].tempo)
    else FirstTempoFrom(track, from + 1)
  }

  /**
   * The tempo the reader settles on: each track contributes its first
   * set_tempo; the scan stops at the first such tempo different from the
   * default.
   */
  function FileTempoFrom(tracks: seq<seq<Message>>, i: nat): (r: nat)
    ensures r == DefaultTempo || exists k :: i <= k < |tracks| && FirstTempoFrom(tracks[k], 0) == Some(r)
    decreases |tracks| - i
  {
    if i >= |tracks| then DefaultTempo
    else match FirstTempoFrom(tracks[i], 0)
      case Some(t) => if t != DefaultTempo then t else FileTempoFrom(tracks, i + 1)
      case None => FileTempoFrom(tracks, i + 1)
  }

  /** Without any set_tempo, the default tempo is used. */
  lemma {:induction false} NoSetTempoMeansDefault(tracks: seq<seq<Message>>, i: nat)
    requires forall k, j :: 0 <= k < |tracks| && 0 <= j < |tracks[k]| ==> !tracks[k][j].SetTempo?
    ensures FileTempoFrom(tracks, i) == DefaultTempo
    decreases |tracks| - i
  {
    if i < |tracks| {
      NoSetTempoMeansDefault(tracks, i + 1);
    }
  }

  /**
   * The tempo rule for every file: a tempo other than the default is the
   * first set_tempo of some track, and every earlier track has either no
   * set_tempo or a first one equal to the default.
   */
  lemma {:induction false} FileTempoIsFirstNonDefault(tracks: seq<seq<Message>>, i: nat)
    ensures FileTempoFrom(tracks, i) != DefaultTempo ==>
      exists k :: i <= k < |tracks| && FirstTempoFrom(tracks[k], 0) == Some(FileTempoFrom(tracks, i))
        && forall k' :: i <= k' < k ==> FirstTempoFrom(tracks[k'], 0) in {None, Some(DefaultTempo)}
    decreases |tracks| - i
  {
    if i < |tracks| {
      FileTempoIsFirstNonDefault(tracks, i + 1);
    }
  }

  /** Only the first set_tempo of a track counts, even when it equals the default and a later one does not. */
  lemma LaterTempoInTrackIgnored(t2: nat)
    requires t2 != DefaultTempo
    ensures FileTempoFrom([[SetTempo(0, DefaultTempo), SetTempo(0, t2)]], 0) == DefaultTempo
    ensures FileTempoFrom([[SetTempo(0, DefaultTempo)], [SetTempo(0, t2)]], 0) == t2
  {
  }

  /** The tempo scan, as nested loops. */
  method FindTempo(tracks: seq<seq<Message>>) returns (tempo: nat)
    ensures tempo == FileTempoFrom(tracks, 0)
  {
    tempo := DefaultTempo;
    var i := 0;
    while i < |tracks|
      invariant 0 <= i <= |tracks|
      invariant tempo == DefaultTempo
      invariant FileTempoFrom(tracks, 0) == FileTempoFrom(tracks, i)
    {
      var track := tracks[i];
      var j := 0;
      while j < |track| && !track[j].SetTempo?
        invariant 0 <= j <= |track|
        invariant FirstTempoFrom(track, 0) == FirstTempoFrom(track, j)
      {
        j := j + 1;
      }
      if j < |track| {
        tempo := track[j].tempo;
      }
      if tempo != DefaultTempo {
        return;
      }
      i := i + 1;
    }
  }

  /** `round(60_000_000 / tempo, 2)`, rounding halves to even. */
  function Bpm(tempo: nat): (bpm: real)
    requires tempo > 0
    ensures bpm >= 0.0
    ensures -0.005 <= bpm - 60000000.0 / tempo as real <= 0.005
  {
    var x := 6000000000.0 / tempo as real;
    assert x >= 0.0;
    RoundHalfEven(x) as real / 100.0
  }

  lemma DefaultTempoIs120Bpm()
    ensures Bpm(DefaultTempo) == 120.0
  {
    assert 6000000000.0 / DefaultTempo as real == 12000.0;
  }

  // ---------------------------------------------------------------------
  // Ticks
  // ---------------------------------------------------------------------

  /** The sum of the delta times of a run of messages. */
  function SumDeltas(s: seq<Message>): nat
    decreases |s|
  {
    if s == [] then 0 else SumDeltas(s[..|s| - 1]) + s[|s| - 1].delta
  }

  lemma {:induction false} SumDeltasAppend(a: seq<Message>, b: seq<Message>)
    ensures SumDeltas(a + b) == SumDeltas(a) + SumDeltas(b)
    decreases |b|
  {
    if b == [] {
      assert a + b == a;
    } else {
      assert (a + b)[..|a + b| - 1] == a + b[..|b| - 1];
      SumDeltasAppend(a, b[..|b| - 1]);
    }
  }

  /** The absolute tick of message k: the running sum of deltas up to and including it. */
  function AbsTick(track: seq<Message>, k: nat): nat
    requires k < |track|
  {
    SumDeltas(track[..k + 1])
  }

  /** Absolute ticks never decrease along a track. */
  lemma AbsTickMonotonic(track: seq<Message>, k1: nat, k2: nat)
    requires k1 <= k2 < |track|
    ensures AbsTick(track, k1) <= AbsTick(track, k2)
  {
    assert track[..k2 + 1] == track[..k1 + 1] + track[k1 + 1..k2 + 1];
    SumDeltasAppend(track[..k1 + 1], track[k1 + 1..k2 + 1]);
  }

  // ---------------------------------------------------------------------
  // Note pairing
  // ---------------------------------------------------------------------

  /** A note_off of the same note, or a note_on of the same note with velocity 0; the channel is not compared. */
  predicate Closes(m: Message, note: nat) {
    (m.NoteOff? && m.note == note) || (m.NoteOn? && m.note == note && m.velocity == 0)
  }

  /** The first position at or after `from` whose message closes `note`. */
  function CloseIndexFrom(track: seq<Message>, from: nat, note: nat): (r: Option<nat>)
    ensures r.Some? ==> from <= r.value < |track|
    decreases |track| - from
  {
    if from >= |track| then None
    else if Closes(track[from], note) then Some(from)
    else CloseIndexFrom(track, from + 1, note)
  }

  /** The search finds the first closing message, and finds nothing only when there is none. */
  lemma {:induction false} CloseIndexFromSound(track: seq<Message>, from: nat, note: nat)
    ensures var r := CloseIndexFrom(track, from, note);
      (r.Some? ==> Closes(track[r.value], note) && forall j :: from <= j < r.value ==> !Closes(track[j], note))
      && (r.None? ==> forall j :: from <= j < |track| ==> !Closes(track[j], note))
    decreases |track| - from
  {
    if from < |track| && !Closes(track[from], note) {
      CloseIndexFromSound(track, from + 1, note);
    }
  }

  /**
   * The length in ticks of a note whose search starts after position i:
   * the deltas after i through the closing message; without one, the rest
   * of the track (integrated) or 0 (legacy).
   */
  function DurationFrom(track: seq<Message>, i: nat, note: nat, variant: Variant): nat
    requires i < |track|
  {
    match CloseIndexFrom(track, i + 1, note)
    case Some(c) => SumDeltas(track[i + 1..c + 1])
    case None => if variant == Integrated then SumDeltas(track[i + 1..]) else 0
  }

  /** The intended duration of the note_on at position k: its search starts right after it. */
  function DurationTicks(track: seq<Message>, k: nat, variant: Variant): nat
    requires k < |track| && track[k].NoteOn?
  {
    DurationFrom(track, k, track[k].note, variant)
  }

  /** A closed note ends at the absolute tick of the message that closes it. */
  lemma ClosedNoteEndsAtCloser(track: seq<Message>, k: nat, variant: Variant)
    requires k < |track| && track[k].NoteOn?
    requires CloseIndexFrom(track, k + 1, track[k].note).Some?
    ensures var c := CloseIndexFrom(track, k + 1, track[k].note).value;
      AbsTick(track, k) + DurationTicks(track, k, variant) == AbsTick(track, c)
  {
    var c := CloseIndexFrom(track, k + 1, track[k].note).value;
    assert track[..c + 1] == track[..k + 1] + track[k + 1..c + 1];
    SumDeltasAppend(track[..k + 1], track[k + 1..c + 1]);
  }

  /** An unclosed note lasts to the end of its track in the integrated server, and 0 ticks in the legacy one. */
  lemma UnclosedNote(track: seq<Message>, k: nat)
    requires k < |track| && track[k].NoteOn?
    requires CloseIndexFrom(track, k + 1, track[k].note).None?
    ensures AbsTick(track, k) + DurationTicks(track, k, Integrated) == SumDeltas(track)
    ensures DurationTicks(track, k, Legacy) == 0
  {
    assert track == track[..k + 1] + track[k + 1..];
    SumDeltasAppend(track[..k + 1], track[k + 1..]);
  }

  /** The servers agree on every closed note. */
  lemma VariantsAgreeOnClosedNotes(track: seq<Message>, k: nat)
    requires k < |track| && track[k].NoteOn?
    ensures DurationTicks(track, k, Integrated) == DurationTicks(track, k, Legacy)
        <==> CloseIndexFrom(track, k + 1, track[k].note).Some? || SumDeltas(track[k + 1..]) == 0
  {
  }

  // ---------------------------------------------------------------------
  // The search as written
  // ---------------------------------------------------------------------

  /** `list.index`: the first position holding a value equal to x. */
  function IndexOf(s: seq<Message>, x: Message): (r: nat)
    requires x in s
    ensures r < |s| && s[r] == x
    ensures forall j :: 0 <= j < r ==> s[j] != x
    decreases |s|
  {
    if s[0] == x then 0 else 1 + IndexOf(s[1..], x)
  }

  /** The duration as the servers compute it: the search starts after the first message equal to the note_on. */
  function DurationTicksAsWritten(track: seq<Message>, k: nat, variant: Variant): nat
    requires k < |track| && track[k].NoteOn?
  {
    DurationFrom(track, IndexOf(track, track[k]), track[k].note, variant)
  }

  /** When no earlier message equals the note_on, the search as written is the intended one. */
  lemma AsWrittenAgreesWithoutEarlierCopy(track: seq<Message>, k: nat, variant: Variant)
    requires k < |track| && track[k].NoteOn?
    requires forall j :: 0 <= j < k ==> track[j] != track[k]
    ensures DurationTicksAsWritten(track, k, variant) == DurationTicks(track, k, variant)
  {
    assert IndexOf(track, track[k]) == k;
  }

  /**
   * A repeated identical note: the second C4 lasts 240 ticks, but the
   * search as written starts after the first C4 and reports 480.
   */
  lemma AsWrittenRepeatedNote(variant: Variant)
    ensures var track := [NoteOn(0, 0, 60, 80), NoteOff(480, 0, 60, 0), NoteOn(0, 0, 60, 80), NoteOff(240, 0, 60, 0)];
      DurationTicks(track, 2, variant) == 240 && DurationTicksAsWritten(track, 2, variant) == 480
  {
    var track := [NoteOn(0, 0, 60, 80), NoteOff(480, 0, 60, 0), NoteOn(0, 0, 60, 80), NoteOff(240, 0, 60, 0)];
    assert IndexOf(track, track[2]) == 0;
    assert CloseIndexFrom(track, 3, 60) == Some(3);
    assert CloseIndexFrom(track, 1, 60) == Some(1);
    assert track[3..4] == [track[3]];
    assert track[1..2] == [track[1]];
    assert SumDeltas([track[3]]) == 240;
    assert SumDeltas([track[1]]) == 480;
  }

  // ---------------------------------------------------------------------
  // Notes, tracks and the file
  // ---------------------------------------------------------------------

  function DefaultTrackName(i: nat): string {
    "Track " + NatToString(i + 1)
  }

  /** A count of ticks in seconds: `ticks * seconds_per_tick`, spelt as repeated addition (see `SecondsIsProduct`). */
  function Seconds(ticks: nat, secondsPerTick: real): real
    decreases ticks
  {
    if ticks == 0 then 0.0 else Seconds(ticks - 1, secondsPerTick) + secondsPerTick
  }

  lemma {:induction false} SecondsIsProduct(ticks: nat, secondsPerTick: real)
    ensures Seconds(ticks, secondsPerTick) == ticks as real * secondsPerTick
    decreases ticks
  {
    if ticks > 0 {
      SecondsIsProduct(ticks - 1, secondsPerTick);
      assert ticks as real * secondsPerTick == (ticks - 1) as real * secondsPerTick + secondsPerTick;
    }
  }

  /** More ticks last longer, and a positive count of positive ticks lasts a positive time. */
  lemma {:induction false} SecondsMonotonic(a: nat, b: nat, secondsPerTick: real)
    requires a <= b && secondsPerTick >= 0.0
    ensures Seconds(a, secondsPerTick) <= Seconds(b, secondsPerTick)
    ensures 0.0 <= Seconds(a, secondsPerTick)
    ensures 0 < a && secondsPerTick > 0.0 ==> 0.0 < Seconds(a, secondsPerTick)
    decreases b
  {
    if a < b {
      SecondsMonotonic(a, b - 1, secondsPerTick);
    } else if a > 0 {
      SecondsMonotonic(a - 1, b - 1, secondsPerTick);
    }
  }

  /** A note of the front end from a note_on, its absolute start tick and its length in ticks. */
  function TickNote(m: Message, start: nat, ticks: nat, secondsPerTick: real): MidiNote
    requires m.NoteOn?
  {
    MidiNote(m.note, Seconds(start, secondsPerTick), Seconds(ticks, secondsPerTick), m.velocity)
  }

  /** The note produced by message k, if any: a sounding note_on whose duration is positive. */
  function NoteAt(track: seq<Message>, k: nat, secondsPerTick: real, variant: Variant): Option<MidiNote>
    requires k < |track|
  {
    if track[k].NoteOn? && track[k].velocity > 0 && DurationTicks(track, k, variant) > 0 then
      Some(TickNote(track[k], AbsTick(track, k), DurationTicks(track, k, variant), secondsPerTick))
    else None
  }

  /** The notes produced by the first n messages, in message order. */
  function NotesUpTo(track: seq<Message>, n: nat, secondsPerTick: real, variant: Variant): seq<MidiNote>
    requires n <= |track|
    decreases n
  {
    if n == 0 then []
    else NotesUpTo(track, n - 1, secondsPerTick, variant) + OptionList(NoteAt(track, n - 1, secondsPerTick, variant))
  }

  /** The track name after the first n messages: the last track_name among them, else the default. */
  function NameUpTo(track: seq<Message>, n: nat, default: string): string
    requires n <= |track|
    decreases n
  {
    if n == 0 then default
    else if track[n - 1].TrackName? then track[n - 1].name
    else NameUpTo(track, n - 1, default)
  }

  /** Without any track_name among the first n messages, the name is the default. */
  lemma {:induction false} NameUpToDefault(track: seq<Message>, n: nat, default: string)
    requires n <= |track|
    requires forall j :: 0 <= j < n ==> !track[j].TrackName?
    ensures NameUpTo(track, n, default) == default
    decreases n
  {
    if n > 0 {
      NameUpToDefault(track, n - 1, default);
    }
  }

  /** With a track_name at j and none after it among the first n messages, the name is j's. */
  lemma {:induction false} NameUpToLast(track: seq<Message>, n: nat, default: string, j: nat)
    requires j < n <= |track|
    requires track[j].TrackName?
    requires forall l :: j < l < n ==> !track[l].TrackName?
    ensures NameUpTo(track, n, default) == track[j].name
    decreases n
  {
    if j < n - 1 {
      NameUpToLast(track, n - 1, default, j);
    }
  }

  /** One track of the file: omitted when it yields no note. */
  function ReadTrack(track: seq<Message>, i: nat, secondsPerTick: real, variant: Variant): Option<Track>
  {
    var notes := NotesUpTo(track, |track|, secondsPerTick, variant);
    if notes == [] then None
    else Some(Track(NameUpTo(track, |track|, DefaultTrackName(i)), notes, None))
  }

  /** Each track of the file read on its own: the track, or None where it is omitted. */
  function TrackOptions(tracks: seq<seq<Message>>, secondsPerTick: real, variant: Variant): (r: seq<Option<Track>>)
    ensures |r| == |tracks|
  {
    seq(|tracks|, i requires 0 <= i < |tracks| => ReadTrack(tracks[i], i, secondsPerTick, variant))
  }

  /** The kept tracks among the first n of the file, in file order. */
  function ReadTracks(tracks: seq<seq<Message>>, n: nat, secondsPerTick: real, variant: Variant): seq<Track>
    requires n <= |tracks|
  {
    Somes(TrackOptions(tracks, secondsPerTick, variant)[..n])
  }

  /** Running maximum of the note ends, starting from 0. */
  function MaxEnd(notes: seq<MidiNote>): real
    decreases |notes|
  {
    if notes == [] then 0.0
    else Max(MaxEnd(notes[..|notes| - 1]), notes[|notes| - 1].time + notes[|notes| - 1].duration)
  }

  lemma MaxEndSnoc(notes: seq<MidiNote>, x: MidiNote)
    ensures MaxEnd(notes + [x]) == Max(MaxEnd(notes), x.time + x.duration)
  {
    assert (notes + [x])[..|notes|] == notes;
  }

  /** The duration is at least 0, bounds every note's end, and is 0 or the end of some note. */
  lemma {:induction false} MaxEndBounds(notes: seq<MidiNote>)
    ensures MaxEnd(notes) >= 0.0
    ensures forall i :: 0 <= i < |notes| ==> notes[i].time + notes[i].duration <= MaxEnd(notes)
    ensures MaxEnd(notes) == 0.0 || exists i :: 0 <= i < |notes| && MaxEnd(notes) == notes[i].time + notes[i].duration
    decreases |notes|
  {
    if notes != [] {
      var prefix := notes[..|notes| - 1];
      MaxEndBounds(prefix);
      assert forall i :: 0 <= i < |prefix| ==> prefix[i] == notes[i];
    }
  }

  /** `60 / bpm / ticks_per_beat`: the length of one tick in seconds. */
  function SecondsPerTick(bpm: real, ticksPerBeat: nat): (spt: real)
    requires bpm > 0.0 && ticksPerBeat > 0
    ensures spt > 0.0
  {
    60.0 / bpm / ticksPerBeat as real
  }

  /**
   * The reader's result, or the error it raises.  A successful read had a
   * positive tempo and positive ticks per beat, and reports a positive BPM
   * and the file's own ticks per beat.
   */
  function ReadSpec(f: MidiFile, variant: Variant): (r: Result<MidiData, string>)
    ensures r.Success? ==> FileTempoFrom(f.tracks, 0) > 0 && f.ticksPerBeat > 0
    ensures r.Success? ==> r.value.ticksPerBeat == Some(f.ticksPerBeat) && r.value.bpm.Some? && r.value.bpm.value > 0.0
  {
    var tempo := FileTempoFrom(f.tracks, 0);
    if tempo == 0 then Failure("division by zero")
    else
      var bpm := Bpm(tempo);
      if bpm == 0.0 || f.ticksPerBeat == 0 then Failure("float division by zero")
      else
        var secondsPerTick := SecondsPerTick(bpm, f.ticksPerBeat);
        var tracks := ReadTracks(f.tracks, |f.tracks|, secondsPerTick, variant);
        Success(MidiData(MaxEnd(AllNotes(tracks)), tracks, Some(bpm), Some(f.ticksPerBeat)))
  }

  // ---------------------------------------------------------------------
  // The reader, as loops
  // ---------------------------------------------------------------------

  /** The closing search: the absolute tick at which the note_on at k stops. */
  method ClosingTicks(track: seq<Message>, k: nat, current: nat, variant: Variant) returns (offTicks: nat)
    requires k < |track| && track[k].NoteOn?
    ensures offTicks == current + DurationTicks(track, k, variant)
  {
    var note := track[k].note;
    offTicks := current;
    var j := k + 1;
    while j < |track|
      invariant k + 1 <= j <= |track|
      invariant CloseIndexFrom(track, k + 1, note) == CloseIndexFrom(track, j, note)
      invariant variant == Integrated ==> offTicks == current + SumDeltas(track[k + 1..j])
      invariant variant == Legacy ==> offTicks == current
    {
      assert track[k + 1..j + 1][..j - k - 1] == track[k + 1..j];
      if variant == Integrated {
        offTicks := offTicks + track[j].delta;
        if Closes(track[j], note) {
          return;
        }
      } else if Closes(track[j], note) {
        offTicks := offTicks + SumDeltas(track[k + 1..j + 1]);
        return;
      }
      j := j + 1;
    }
    assert track[k + 1..j] == track[k + 1..];
  }

  /** The note message k adds, given the absolute tick `current` of that message. */
  method MessageNote(track: seq<Message>, k: nat, current: nat, secondsPerTick: real, variant: Variant)
    returns (note: Option<MidiNote>)
    requires k < |track| && current == AbsTick(track, k)
    ensures note == NoteAt(track, k, secondsPerTick, variant)
  {
    var msg := track[k];
    note := None;
    if msg.NoteOn? && msg.velocity > 0 {
      var offTicks := ClosingTicks(track, k, current, variant);
      var durationTicks := offTicks - current;
      assert durationTicks == DurationTicks(track, k, variant);
      if durationTicks > 0 {
        note := Some(TickNote(msg, current, durationTicks, secondsPerTick));
      }
    }
  }

  /** One pass over a track's messages. */
  method ScanTrack(track: seq<Message>, i: nat, secondsPerTick: real, variant: Variant) returns (t: Option<Track>)
    ensures t == ReadTrack(track, i, secondsPerTick, variant)
  {
    var name := DefaultTrackName(i);
    var notes: seq<MidiNote> := [];
    var current: nat := 0;
    var k := 0;
    while k < |track|
      invariant 0 <= k <= |track|
      invariant current == SumDeltas(track[..k])
      invariant notes == NotesUpTo(track, k, secondsPerTick, variant)
      invariant name == NameUpTo(track, k, DefaultTrackName(i))
    {
      var msg := track[k];
      assert track[..k + 1][..k] == track[..k];
      current := current + msg.delta;
      var note := MessageNote(track, k, current, secondsPerTick, variant);
      if note.Some? {
        notes := notes + [note.value];
      }
      if msg.TrackName? {
        name := msg.name;
      }
      k := k + 1;
    }
    if notes != [] {
      t := Some(Track(name, notes, None));
    } else {
      t := None;
    }
  }

  /** The running maximum over one kept track's note ends. */
  method ExtendDuration(totalDuration: real, notes: seq<MidiNote>, ghost before: seq<MidiNote>) returns (m: real)
    requires totalDuration == MaxEnd(before)
    ensures m == MaxEnd(before + notes)
  {
    m := totalDuration;
    var j := 0;
    assert before + notes[..0] == before;
    while j < |notes|
      invariant 0 <= j <= |notes|
      invariant m == MaxEnd(before + notes[..j])
    {
      assert before + notes[..j + 1] == (before + notes[..j]) + [notes[j]];
      MaxEndSnoc(before + notes[..j], notes[j]);
      m := Max(m, notes[j].time + notes[j].duration);
      j := j + 1;
    }
    assert notes[..j] == notes;
  }

  /** One more track read: its result, when kept, is appended to the earlier ones. */
  lemma ReadTracksStep(tracks: seq<seq<Message>>, i: nat, secondsPerTick: real, variant: Variant)
    requires i < |tracks|
    ensures ReadTracks(tracks, i + 1, secondsPerTick, variant)
      == ReadTracks(tracks, i, secondsPerTick, variant) + OptionList(ReadTrack(tracks[i], i, secondsPerTick, variant))
  {
    var opts := TrackOptions(tracks, secondsPerTick, variant);
    assert opts[i] == ReadTrack(tracks[i], i, secondsPerTick, variant);
    SomesStep(opts, i);
  }

  /** After the first n tracks: the tracks kept so far and the latest note end among them. */
  predicate Scanned(tracks: seq<seq<Message>>, n: nat, secondsPerTick: real, variant: Variant,
                    kept: seq<Track>, totalDuration: real)
  {
    n <= |tracks| && kept == ReadTracks(tracks, n, secondsPerTick, variant) && totalDuration == MaxEnd(AllNotes(kept))
  }

  /** One round of read_midi_file's loop: read track i, keep it when it has notes, extend the duration. */
  method ScanNextTrack(tracks: seq<seq<Message>>, i: nat, secondsPerTick: real, variant: Variant,
                       kept: seq<Track>, totalDuration: real)
    returns (kept': seq<Track>, totalDuration': real)
    requires i < |tracks| && Scanned(tracks, i, secondsPerTick, variant, kept, totalDuration)
    ensures Scanned(tracks, i + 1, secondsPerTick, variant, kept', totalDuration')
  {
    var t := ScanTrack(tracks[i], i, secondsPerTick, variant);
    ReadTracksStep(tracks, i, secondsPerTick, variant);
    kept', totalDuration' := kept, totalDuration;
    if t.Some? {
      AllNotesSnoc(kept, t.value);
      totalDuration' := ExtendDuration(totalDuration, t.value.notes, AllNotes(kept));
      kept' := kept + [t.value];
    }
  }

  /** The loop of read_midi_file over the tracks: the kept tracks and the latest note end among them. */
  method ScanTracks(tracks: seq<seq<Message>>, secondsPerTick: real, variant: Variant)
    returns (kept: seq<Track>, totalDuration: real)
    ensures kept == ReadTracks(tracks, |tracks|, secondsPerTick, variant)
    ensures totalDuration == MaxEnd(AllNotes(kept))
  {
    kept := [];
    totalDuration := 0.0;
    var i := 0;
    while i < |tracks|
      invariant 0 <= i <= |tracks|
      invariant Scanned(tracks, i, secondsPerTick, variant, kept, totalDuration)
    {
      kept, totalDuration := ScanNextTrack(tracks, i, secondsPerTick, variant, kept, totalDuration);
      i := i + 1;
    }
  }

  /** read_midi_file. */
  method ReadMidiFile(f: MidiFile, variant: Variant) returns (r: Result<MidiData, string>)
    ensures r == ReadSpec(f, variant)
  {
    var tempo := FindTempo(f.tracks);
    if tempo == 0 {
      return Failure("division by zero");
    }
    var bpm := Bpm(tempo);
    if bpm == 0.0 || f.ticksPerBeat == 0 {
      return Failure("float division by zero");
    }
    var secondsPerTick := SecondsPerTick(bpm, f.ticksPerBeat);
    var tracks, totalDuration := ScanTracks(f.tracks, secondsPerTick, variant);
    return Success(MidiData(totalDuration, tracks, Some(bpm), Some(f.ticksPerBeat)));
  }

  // ---------------------------------------------------------------------
  // Properties of the result
  // ---------------------------------------------------------------------

  /** With a positive tick length, every kept note starts at or after 0 and lasts a positive time. */
  lemma {:induction false} NotesUpToPositive(track: seq<Message>, n: nat, secondsPerTick: real, variant: Variant)
    requires n <= |track| && secondsPerTick > 0.0
    ensures forall x :: x in NotesUpTo(track, n, secondsPerTick, variant) ==> x.time >= 0.0 && x.duration > 0.0
    decreases n
  {
    if n > 0 {
      NotesUpToPositive(track, n - 1, secondsPerTick, variant);
      NoteAtPositive(track, n - 1, secondsPerTick, variant);
    }
  }

  lemma NoteAtPositive(track: seq<Message>, k: nat, secondsPerTick: real, variant: Variant)
    requires k < |track| && secondsPerTick > 0.0
    ensures NoteAt(track, k, secondsPerTick, variant).Some? ==>
      NoteAt(track, k, secondsPerTick, variant).value.time >= 0.0 && NoteAt(track, k, secondsPerTick, variant).value.duration > 0.0
  {
    if NoteAt(track, k, secondsPerTick, variant).Some? {
      SecondsMonotonic(AbsTick(track, k), AbsTick(track, k), secondsPerTick);
      SecondsMonotonic(DurationTicks(track, k, variant), DurationTicks(track, k, variant), secondsPerTick);
    }
  }

  lemma BoundStep(prev: seq<MidiNote>, produced: Option<MidiNote>, lo: real, hi: real)
    requires forall i :: 0 <= i < |prev| ==> prev[i].time <= lo
    requires lo <= hi && (produced.Some? ==> produced.value.time <= hi)
    ensures forall i :: 0 <= i < |prev + OptionList(produced)| ==> (prev + OptionList(produced))[i].time <= hi
  {
  }

  /** No note produced by the first n messages starts after the absolute tick reached there. */
  lemma {:induction false} NotesUpToBounded(track: seq<Message>, n: nat, secondsPerTick: real, variant: Variant)
    requires n <= |track| && secondsPerTick >= 0.0
    ensures forall i :: 0 <= i < |NotesUpTo(track, n, secondsPerTick, variant)| ==>
      NotesUpTo(track, n, secondsPerTick, variant)[i].time <= Seconds(SumDeltas(track[..n]), secondsPerTick)
    decreases n
  {
    if n > 0 {
      NotesUpToBounded(track, n - 1, secondsPerTick, variant);
      assert track[..n][..n - 1] == track[..n - 1];
      SecondsMonotonic(SumDeltas(track[..n - 1]), SumDeltas(track[..n]), secondsPerTick);
      BoundStep(NotesUpTo(track, n - 1, secondsPerTick, variant), NoteAt(track, n - 1, secondsPerTick, variant),
                Seconds(SumDeltas(track[..n - 1]), secondsPerTick), Seconds(SumDeltas(track[..n]), secondsPerTick));
    }
  }

  predicate Ascending(notes: seq<MidiNote>) {
    forall a, b :: 0 <= a < b < |notes| ==> notes[a].time <= notes[b].time
  }

  lemma AscendingStep(prev: seq<MidiNote>, produced: Option<MidiNote>, bound: real)
    requires Ascending(prev)
    requires forall i :: 0 <= i < |prev| ==> prev[i].time <= bound
    requires produced.Some? ==> bound <= produced.value.time
    ensures Ascending(prev + OptionList(produced))
  {
  }

  /** The note of message k starts at the absolute tick of k. */
  lemma NoteAtStart(track: seq<Message>, k: nat, secondsPerTick: real, variant: Variant)
    requires k < |track|
    ensures NoteAt(track, k, secondsPerTick, variant).Some? ==>
      NoteAt(track, k, secondsPerTick, variant).value.time == Seconds(SumDeltas(track[..k + 1]), secondsPerTick)
  {
  }

  /** Within a track, notes come out in ascending start time. */
  lemma {:induction false} NotesUpToAscending(track: seq<Message>, n: nat, secondsPerTick: real, variant: Variant)
    requires n <= |track| && secondsPerTick >= 0.0
    ensures Ascending(NotesUpTo(track, n, secondsPerTick, variant))
    decreases n
  {
    if n > 0 {
      NotesUpToAscending(track, n - 1, secondsPerTick, variant);
      NotesUpToBounded(track, n - 1, secondsPerTick, variant);
      var bound := Seconds(SumDeltas(track[..n - 1]), secondsPerTick);
      var produced := NoteAt(track, n - 1, secondsPerTick, variant);
      assert produced.Some? ==> bound <= produced.value.time by {
        NoteAtStart(track, n - 1, secondsPerTick, variant);
        assert track[..n][..n - 1] == track[..n - 1];
        SecondsMonotonic(SumDeltas(track[..n - 1]), SumDeltas(track[..n]), secondsPerTick);
      }
      AscendingStep(NotesUpTo(track, n - 1, secondsPerTick, variant), produced, bound);
    }
  }

  /** Every kept track has notes; the file's tracks are kept or omitted in order. */
  lemma {:induction false} ReadTracksNonEmpty(tracks: seq<seq<Message>>, n: nat, secondsPerTick: real, variant: Variant)
    requires n <= |tracks|
    ensures |ReadTracks(tracks, n, secondsPerTick, variant)| <= n
    ensures forall t :: t in ReadTracks(tracks, n, secondsPerTick, variant) ==> t.notes != [] && t.stem.None?
    decreases n
  {
    if n > 0 {
      ReadTracksNonEmpty(tracks, n - 1, secondsPerTick, variant);
      var opts := TrackOptions(tracks, secondsPerTick, variant);
      SomesStep(opts, n - 1);
      var prev := Somes(opts[..n - 1]);
      var kept := opts[n - 1];
      assert kept == ReadTrack(tracks[n - 1], n - 1, secondsPerTick, variant);
      assert kept.Some? ==> kept.value.notes != [] && kept.value.stem.None?;
      forall t | t in prev + OptionList(kept)
        ensures t.notes != [] && t.stem.None?
      {
        if t !in prev {
          assert t == kept.value;
        }
      }
    }
  }

  /** Every note of a successful read starts at or after 0, lasts a positive time and ends by the reported duration. */
  lemma ReadNotesWellFormed(f: MidiFile, variant: Variant)
    requires ReadSpec(f, variant).Success?
    ensures forall k, j :: 0 <= k < |ReadSpec(f, variant).value.tracks| && 0 <= j < |ReadSpec(f, variant).value.tracks[k].notes| ==>
      ReadSpec(f, variant).value.tracks[k].notes[j].time >= 0.0
      && ReadSpec(f, variant).value.tracks[k].notes[j].duration > 0.0
      && ReadSpec(f, variant).value.tracks[k].notes[j].time + ReadSpec(f, variant).value.tracks[k].notes[j].duration
         <= ReadSpec(f, variant).value.duration
  {
    var bpm := Bpm(FileTempoFrom(f.tracks, 0));
    var spt := SecondsPerTick(bpm, f.ticksPerBeat);
    var tracks := ReadTracks(f.tracks, |f.tracks|, spt, variant);
    assert ReadSpec(f, variant).value == MidiData(MaxEnd(AllNotes(tracks)), tracks, Some(bpm), Some(f.ticksPerBeat));
    MaxEndBounds(AllNotes(tracks));
    forall k, j | 0 <= k < |tracks| && 0 <= j < |tracks[k].notes|
      ensures tracks[k].notes[j].time >= 0.0 && tracks[k].notes[j].duration > 0.0
      ensures tracks[k].notes[j].time + tracks[k].notes[j].duration <= MaxEnd(AllNotes(tracks))
    {
      ReadTracksPositive(f.tracks, |f.tracks|, spt, variant, k, j);
      AllNotesMembership(tracks, tracks[k].notes[j]);
    }
  }

  lemma {:induction false} ReadTracksPositive(tracks: seq<seq<Message>>, n: nat, spt: real, variant: Variant, k: nat, j: nat)
    requires n <= |tracks| && spt > 0.0
    requires k < |ReadTracks(tracks, n, spt, variant)| && j < |ReadTracks(tracks, n, spt, variant)[k].notes|
    ensures ReadTracks(tracks, n, spt, variant)[k].notes[j].time >= 0.0
    ensures ReadTracks(tracks, n, spt, variant)[k].notes[j].duration > 0.0
    decreases n
  {
    var opts := TrackOptions(tracks, spt, variant);
    SomesStep(opts, n - 1);
    var prev := Somes(opts[..n - 1]);
    var kept := opts[n - 1];
    var all := ReadTracks(tracks, n, spt, variant);
    assert all == prev + OptionList(kept);
    if k < |prev| {
      assert all[k] == prev[k];
      ReadTracksPositive(tracks, n - 1, spt, variant, k, j);
    } else {
      var notes := NotesUpTo(tracks[n - 1], |tracks[n - 1]|, spt, variant);
      assert kept == ReadTrack(tracks[n - 1], n - 1, spt, variant);
      assert kept.Some? && all[k] == kept.value;
      assert kept.value.notes == notes;
      NotesUpToPositive(tracks[n - 1], |tracks[n - 1]|, spt, variant);
      assert notes[j] in notes;
    }
  }

  /** Every sounding note_on of the track has a matching closing message after it. */
  predicate AllClosed(track: seq<Message>) {
    forall k :: 0 <= k < |track| && track[k].NoteOn? && track[k].velocity > 0
      ==> CloseIndexFrom(track, k + 1, track[k].note).Some?
  }

  /** The two servers return the same data for a file in which every sounding note_on is closed. */
  lemma VariantsAgreeWhenAllClosed(f: MidiFile)
    requires forall t :: 0 <= t < |f.tracks| ==> AllClosed(f.tracks[t])
    ensures ReadSpec(f, Integrated) == ReadSpec(f, Legacy)
  {
    var tempo := FileTempoFrom(f.tracks, 0);
    if tempo != 0 {
      var bpm := Bpm(tempo);
      if bpm != 0.0 && f.ticksPerBeat != 0 {
        var spt := SecondsPerTick(bpm, f.ticksPerBeat);
        ReadTracksAgree(f.tracks, |f.tracks|, spt);
      }
    }
  }

  lemma ReadTracksAgree(tracks: seq<seq<Message>>, n: nat, spt: real)
    requires n <= |tracks|
    requires forall t :: 0 <= t < |tracks| ==> AllClosed(tracks[t])
    ensures ReadTracks(tracks, n, spt, Integrated) == ReadTracks(tracks, n, spt, Legacy)
  {
    var a, b := TrackOptions(tracks, spt, Integrated), TrackOptions(tracks, spt, Legacy);
    forall i | 0 <= i < |tracks|
      ensures a[i] == b[i]
    {
      ReadTrackAgree(tracks[i], i, spt);
    }
    assert a == b;
  }

  lemma ReadTrackAgree(track: seq<Message>, i: nat, spt: real)
    requires AllClosed(track)
    ensures ReadTrack(track, i, spt, Integrated) == ReadTrack(track, i, spt, Legacy)
  {
    NotesUpToAgree(track, |track|, spt);
  }

  lemma {:induction false} NotesUpToAgree(track: seq<Message>, n: nat, spt: real)
    requires n <= |track| && AllClosed(track)
    ensures NotesUpTo(track, n, spt, Integrated) == NotesUpTo(track, n, spt, Legacy)
    decreases n
  {
    if n > 0 {
      NotesUpToAgree(track, n - 1, spt);
      var k := n - 1;
      assert track[k].NoteOn? && track[k].velocity > 0 ==> CloseIndexFrom(track, k + 1, track[k].note).Some?;
      NoteAtAgree(track, k, spt);
    }
  }

  lemma NoteAtAgree(track: seq<Message>, k: nat, spt: real)
    requires k < |track|
    requires track[k].NoteOn? && track[k].velocity > 0 ==> CloseIndexFrom(track, k + 1, track[k].note).Some?
    ensures NoteAt(track, k, spt, Integrated) == NoteAt(track, k, spt, Legacy)
  {
    if track[k].NoteOn? && track[k].velocity > 0 {
      assert DurationTicks(track, k, Integrated) == DurationTicks(track, k, Legacy);
    }
  }

  /** A file without set_tempo is read at 120 BPM; a zero tempo or zero ticks per beat raises. */
  lemma TempoAndErrors(f: MidiFile, variant: Variant)
    ensures ((forall k, j :: 0 <= k < |f.tracks| && 0 <= j < |f.tracks[k]| ==> !f.tracks[k][j].SetTempo?)
             && f.ticksPerBeat > 0) ==> ReadSpec(f, variant).Success? && ReadSpec(f, variant).value.bpm == Some(120.0)
    ensures f.ticksPerBeat == 0 ==> ReadSpec(f, variant).Failure?
    ensures FileTempoFrom(f.tracks, 0) == 0 ==> ReadSpec(f, variant) == Failure("division by zero")
  {
    if forall k, j :: 0 <= k < |f.tracks| && 0 <= j < |f.tracks[k]| ==> !f.tracks[k][j].SetTempo? {
      NoSetTempoMeansDefault(f.tracks, 0);
      DefaultTempoIs120Bpm();
    }
  }

  /** One beat at 120 BPM and 480 ticks per beat lasts half a second; the last track_name names the track. */
  lemma ReadExampleClosed()
    ensures var f := MidiFile(480, [[TrackName(0, "Lead"), NoteOn(480, 0, 60, 90), NoteOff(480, 0, 60, 0)]]);
      ReadSpec(f, Integrated) == Success(MidiData(1.0, [Track("Lead", [MidiNote(60, 0.5, 0.5, 90)], None)], Some(120.0), Some(480)))
  {
    DefaultTempoIs120Bpm();
    var t := [TrackName(0, "Lead"), NoteOn(480, 0, 60, 90), NoteOff(480, 0, 60, 0)];
    var spt := SecondsPerTick(120.0, 480);
    assert FirstTempoFrom(t, 0) == None;
    assert FileTempoFrom([t], 0) == DefaultTempo;
    assert t[..1] == [t[0]] && t[..2] == [t[0], t[1]] && [t[0], t[1]][..1] == [t[0]];
    assert [t[0]][..0] == [];
    assert SumDeltas([t[0]]) == 0;
    assert SumDeltas([t[0], t[1]]) == 480;
    assert AbsTick(t, 1) == 480;
    assert CloseIndexFrom(t, 2, 60) == Some(2);
    assert t[2..3] == [t[2]];
    assert DurationTicks(t, 1, Integrated) == 480;
    SecondsIsProduct(480, spt);
    assert NoteAt(t, 0, spt, Integrated) == None;
    assert NoteAt(t, 1, spt, Integrated) == Some(MidiNote(60, 0.5, 0.5, 90));
    assert NoteAt(t, 2, spt, Integrated) == None;
    assert NotesUpTo(t, 3, spt, Integrated) == [MidiNote(60, 0.5, 0.5, 90)];
    assert NameUpTo(t, 3, DefaultTrackName(0)) == "Lead";
    var tracks := [Track("Lead", [MidiNote(60, 0.5, 0.5, 90)], None)];
    assert ReadTracks([t], 1, spt, Integrated) == tracks;
    assert AllNotes(tracks) == [MidiNote(60, 0.5, 0.5, 90)];
    assert MaxEnd([MidiNote(60, 0.5, 0.5, 90)]) == 1.0;
  }

  /** A note_on that nothing closes lasts to the end of the track in the integrated server, and is dropped by the legacy one. */
  lemma ReadExampleUnclosed()
    ensures var g := MidiFile(480, [[NoteOn(0, 0, 60, 90), OtherMessage(960)]]);
      ReadSpec(g, Integrated).Success? && ReadSpec(g, Integrated).value.tracks == [Track("Track 1", [MidiNote(60, 0.0, 1.0, 90)], None)]
      && ReadSpec(g, Legacy) == Success(MidiData(0.0, [], Some(120.0), Some(480)))
  {
    DefaultTempoIs120Bpm();
    var u := [NoteOn(0, 0, 60, 90), OtherMessage(960)];
    var spt := SecondsPerTick(120.0, 480);
    assert FirstTempoFrom(u, 0) == None;
    assert FileTempoFrom([u], 0) == DefaultTempo;
    assert u[..1] == [u[0]];
    assert AbsTick(u, 0) == 0;
    assert CloseIndexFrom(u, 1, 60) == None;
    assert u[1..] == [u[1]];
    assert SumDeltas([u[1]]) == 960;
    assert DurationTicks(u, 0, Integrated) == 960;
    assert DurationTicks(u, 0, Legacy) == 0;
    SecondsIsProduct(960, spt);
    assert NotesUpTo(u, 2, spt, Integrated) == [MidiNote(60, 0.0, 1.0, 90)];
    assert NotesUpTo(u, 2, spt, Legacy) == [];
    assert NameUpTo(u, 2, DefaultTrackName(0)) == "Track 1";
    assert ReadTracks([u], 1, spt, Legacy) == [];
  }
}
