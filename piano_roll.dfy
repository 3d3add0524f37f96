/**
 * The piano-roll view: the coordinate mapper between (time, pitch) and
 * canvas pixels, the note list the view draws, and the viewport state
 * (zoom and the two scroll offsets) that the wheel, drag and button
 * handlers update.
 *
 * The canvas has fixed dimensions 2000 x 600; a 400-pixel piano-key
 * column sits on the left; 16 bars of 4 beats fill the rest at zoom 1;
 * the grid assumes 120 beats per minute, so a beat lasts half a second;
 * each of the 128 pitch rows is 20 pixels high.
 */
module PianoRoll {
  import opened Common
  import opened NoteData

  const Width: real := 2000.0
  const Height: real := 600.0
  const KeyWidth: real := 400.0
  const KeyHeight: real := 20.0
  const BeatsVisible: real := 64.0      // 16 bars of 4 beats
  const SecondsPerBeat: real := 0.5     // 60 / 120 BPM
  const RollHeight: real := 2560.0      // 128 rows of 20 pixels
  const InitialZoom: real := 1.95
  const MinZoom: real := 0.1
  const MaxZoom: real := 10.0
  const ButtonMaxZoom: real := 5.0
  const ScrollStep: real := 50.0
  const HandleSize: real := 12.0

  // ---------------------------------------------------------------------
  // Coordinate mapper
  // ---------------------------------------------------------------------

  function PixelsPerBeat(width: real, zoom: real): real {
    (width - KeyWidth) * zoom / BeatsVisible
  }

  /** x coordinate of time t (seconds); time 0 sits at the scrolled edge of the key column. */
  function TimeToPixels(t: real, width: real, zoom: real, scrollX: real): (x: real)
    ensures t == 0.0 ==> x == scrollX + KeyWidth
    ensures width > KeyWidth && zoom > 0.0 ==> (x >= scrollX + KeyWidth <==> t >= 0.0)
  {
    t / SecondsPerBeat * PixelsPerBeat(width, zoom) + scrollX + KeyWidth
  }

  /** Time (seconds) at x coordinate px; the canvas is wider than the key column and zoom is positive. */
  function PixelsToTime(px: real, width: real, zoom: real, scrollX: real): (t: real)
    requires width > KeyWidth && zoom > 0.0
    ensures t >= 0.0 <==> px >= scrollX + KeyWidth
  {
    PixelsPerBeatPositive(width, zoom);
    (px - scrollX - KeyWidth) / PixelsPerBeat(width, zoom) * SecondsPerBeat
  }

  lemma PixelsPerBeatPositive(width: real, zoom: real)
    requires width > KeyWidth && zoom > 0.0
    ensures PixelsPerBeat(width, zoom) > 0.0
  {
    assert (width - KeyWidth) * zoom > 0.0;
  }

  /** pixelsToTime undoes timeToPixels for every time. */
  lemma TimePixelsRoundTrip(t: real, width: real, zoom: real, scrollX: real)
    requires width > KeyWidth && zoom > 0.0
    ensures PixelsToTime(TimeToPixels(t, width, zoom, scrollX), width, zoom, scrollX) == t
  {
    var ppb := PixelsPerBeat(width, zoom);
    PixelsPerBeatPositive(width, zoom);
    calc {
      PixelsToTime(TimeToPixels(t, width, zoom, scrollX), width, zoom, scrollX);
      (t / SecondsPerBeat * ppb) / ppb * SecondsPerBeat;
      t;
    }
  }

  /** timeToPixels undoes pixelsToTime for every x coordinate. */
  lemma PixelsTimeRoundTrip(px: real, width: real, zoom: real, scrollX: real)
    requires width > KeyWidth && zoom > 0.0
    ensures TimeToPixels(PixelsToTime(px, width, zoom, scrollX), width, zoom, scrollX) == px
  {
    var ppb := PixelsPerBeat(width, zoom);
    PixelsPerBeatPositive(width, zoom);
    calc {
      TimeToPixels(PixelsToTime(px, width, zoom, scrollX), width, zoom, scrollX);
      ((px - scrollX - KeyWidth) / ppb * SecondsPerBeat) / SecondsPerBeat * ppb + scrollX + KeyWidth;
      px;
    }
  }

  /** Later times are drawn further right. */
  lemma TimeToPixelsMonotonic(t1: real, t2: real, width: real, zoom: real, scrollX: real)
    requires width > KeyWidth && zoom > 0.0 && t1 < t2
    ensures TimeToPixels(t1, width, zoom, scrollX) < TimeToPixels(t2, width, zoom, scrollX)
  {
    var ppb := PixelsPerBeat(width, zoom);
    PixelsPerBeatPositive(width, zoom);
    assert (t2 - t1) / SecondsPerBeat * ppb > 0.0;
  }

  /** y coordinate of the top of pitch p's row: pitch 127 at the top of the roll, pitch 0 at the bottom. */
  function PitchToY(p: int, scrollY: real): (y: real)
    ensures 0 <= p <= 127 ==> -scrollY <= y <= 127.0 * KeyHeight - scrollY
    ensures p == 127 ==> y == -scrollY
  {
    (127 - p) as real * KeyHeight - scrollY
  }

  /** The pitch whose row contains y, clamped to the MIDI range and rounded. */
  function YToPitch(y: real, scrollY: real): (p: int)
    ensures 0 <= p <= 127
  {
    JsRound(Clamp(127.0 - (y + scrollY) / KeyHeight, 0.0, 127.0))
  }

  /** yToPitch undoes pitchToY on the MIDI range. */
  lemma PitchYRoundTrip(p: int, scrollY: real)
    requires 0 <= p <= 127
    ensures YToPitch(PitchToY(p, scrollY), scrollY) == p
  {
    var v := 127.0 - (PitchToY(p, scrollY) + scrollY) / KeyHeight;
    assert v == p as real;
  }

  /** Every y within half a row of pitch p's mark maps back to p. */
  lemma YToPitchBand(p: int, y: real, scrollY: real)
    requires 0 <= p <= 127
    requires PitchToY(p, scrollY) - KeyHeight / 2.0 < y <= PitchToY(p, scrollY) + KeyHeight / 2.0
    ensures YToPitch(y, scrollY) == p
  {
    var v := 127.0 - (y + scrollY) / KeyHeight;
    assert p as real - 0.5 <= v < p as real + 0.5;
    var c := Clamp(v, 0.0, 127.0);
    assert p as real - 0.5 <= c < p as real + 0.5;
  }

  // ---------------------------------------------------------------------
  // Note names and time labels
  // ---------------------------------------------------------------------

  const PitchClassNames: seq<string> := ["C", "C#", "D", "D#", "E", "F", "F#", "G", "G#", "A", "A#", "B"]

  /** JavaScript's `%` on integers: the remainder takes the sign of the dividend. */
  function JsRem(a: int, b: int): (r: int)
    requires b > 0
    ensures 0 <= a ==> r == a % b
    ensures -b < r < b
  {
    if a >= 0 then a % b else -((-a) % b)
  }

  /**
   * midiToNoteName: pitch-class name followed by the octave, MIDI 60 being C4.
   * A negative number whose remainder is not 0 indexes outside the name
   * table, and JavaScript renders the missing entry as "undefined".
   */
  function MidiToNoteName(m: int): (name: string)
    ensures 0 <= m ==> name == PitchClassNames[m % 12] + IntToString(m / 12 - 1)
    ensures m < 0 && m % 12 != 0 ==> |name| >= 9 && name[..9] == "undefined"
  {
    var idx := JsRem(m, 12);
    var octave := Floor12(m) - 1;
    (if 0 <= idx then PitchClassNames[idx] else "undefined") + IntToString(octave)
  }

  /** `Math.floor(m / 12)`. */
  function Floor12(m: int): (r: int)
    ensures 12 * r <= m < 12 * r + 12
  {
    m / 12
  }

  lemma NoteNameExamples()
    ensures MidiToNoteName(60) == "C4"
    ensures MidiToNoteName(69) == "A4"
    ensures MidiToNoteName(61) == "C#4"
    ensures MidiToNoteName(0) == "C-1"
    ensures MidiToNoteName(127) == "G9"
  {
    assert IntToString(4) == "4";
    assert IntToString(-1) == "-1";
    assert IntToString(9) == "9";
  }

  lemma {:induction false} NatToStringInjective(a: nat, b: nat)
    requires NatToString(a) == NatToString(b)
    ensures a == b
    decreases a
  {
    var sa, sb := NatToString(a), NatToString(b);
    if a < 10 && b < 10 {
      assert Digit(a) == sa[0] == sb[0] == Digit(b);
    } else if a >= 10 && b >= 10 {
      assert sa == NatToString(a / 10) + [Digit(a % 10)];
      assert sb == NatToString(b / 10) + [Digit(b % 10)];
      assert sa[..|sa| - 1] == NatToString(a / 10);
      assert sb[..|sb| - 1] == NatToString(b / 10);
      NatToStringInjective(a / 10, b / 10);
      assert Digit(a % 10) == sa[|sa| - 1] == sb[|sb| - 1] == Digit(b % 10);
    }
  }

  /** Equal renderings have the same sign: only negative numbers start with '-'. */
  lemma SameSignRendering(a: int, b: int)
    requires IntToString(a) == IntToString(b)
    ensures a < 0 <==> b < 0
  {
    var s := IntToString(a);
    assert (s[0] == '-') == (a < 0);
    assert (s[0] == '-') == (b < 0);
  }

  /** Two negative numbers with equal renderings have equal magnitudes. */
  lemma NegativeRenderingInjective(a: int, b: int)
    requires a < 0 && b < 0 && IntToString(a) == IntToString(b)
    ensures a == b
  {
    NegativeRendering(a);
    NegativeRendering(b);
    NatToStringInjective(-a, -b);
  }

  /** A negative number renders as a minus sign followed by the rendering of its magnitude. */
  lemma NegativeRendering(a: int)
    requires a < 0
    ensures IntToString(a)[1..] == NatToString(-a)
  {
    assert IntToString(a) == "-" + NatToString(-a);
  }

  lemma IntToStringInjective(a: int, b: int)
    requires IntToString(a) == IntToString(b)
    ensures a == b
  {
    SameSignRendering(a, b);
    if a < 0 {
      NegativeRenderingInjective(a, b);
    } else {
      assert IntToString(a) == NatToString(a) && IntToString(b) == NatToString(b);
      NatToStringInjective(a, b);
    }
  }

  /** The twelve pitch-class names are pairwise distinct. */
  lemma PitchClassNamesDistinct(i: nat, j: nat)
    requires i < 12 && j < 12 && PitchClassNames[i] == PitchClassNames[j]
    ensures i == j
  {
  }

  predicate OctaveLike(o: string) {
    |o| >= 1 && (o[0] == '-' || '0' <= o[0] <= '9')
  }

  /** A name splits uniquely into a pitch class and an octave, since an octave never starts with '#'. */
  lemma SplitNoteName(i: nat, j: nat, o1: string, o2: string)
    requires i < 12 && j < 12 && OctaveLike(o1) && OctaveLike(o2)
    requires PitchClassNames[i] + o1 == PitchClassNames[j] + o2
    ensures i == j && o1 == o2
  {
    var c1, c2 := PitchClassNames[i], PitchClassNames[j];
    var s := c1 + o1;
    assert s == c2 + o2;
    assert 1 <= |c1| <= 2 && 1 <= |c2| <= 2;
    assert |s| >= 2;
    assert s[1] == '#' <==> |c1| == 2 by {
      if |c1| == 2 { assert s[1] == c1[1]; } else { assert s[1] == o1[0]; }
    }
    assert s[1] == '#' <==> |c2| == 2 by {
      if |c2| == 2 { assert s[1] == c2[1]; } else { assert s[1] == o2[0]; }
    }
    assert c1 == s[..|c1|];
    assert c2 == (c2 + o2)[..|c2|];
    PitchClassNamesDistinct(i, j);
    assert o1 == s[|c1|..];
    assert o2 == (c2 + o2)[|c2|..];
  }

  /** On the non-negative MIDI numbers, the note name determines the number. */
  lemma NoteNameInjective(m1: int, m2: int)
    requires 0 <= m1 && 0 <= m2
    requires MidiToNoteName(m1) == MidiToNoteName(m2)
    ensures m1 == m2
  {
    var o1, o2 := IntToString(m1 / 12 - 1), IntToString(m2 / 12 - 1);
    assert MidiToNoteName(m1) == PitchClassNames[m1 % 12] + o1;
    assert MidiToNoteName(m2) == PitchClassNames[m2 % 12] + o2;
    SplitNoteName(m1 % 12, m2 % 12, o1, o2);
    IntToStringInjective(m1 / 12 - 1, m2 / 12 - 1);
  }

  /** JavaScript's `%` on numbers: `x - y * trunc(x / y)`. */
  function JsFmod(x: real, y: real): real
    requires y > 0.0
  {
    x - y * Trunc(x / y) as real
  }

  /** `padStart(2, '0')`. */
  function PadStart2(s: string): (r: string)
    ensures |r| >= 2
  {
    if |s| >= 2 then s else if |s| == 1 then "0" + s else "00"
  }

  /** formatTime: "m:ss"; zero renders as "0:00". */
  function FormatTime(seconds: real): (text: string)
    ensures ':' in text
  {
    if seconds == 0.0 then "0:00"
    else
      var mins := (seconds / 60.0).Floor;
      var secs := JsFmod(seconds, 60.0).Floor;
      IntToString(mins) + ":" + PadStart2(IntToString(secs))
  }

  function TwoDigits(n: nat): string
    requires n < 100
  {
    [Digit(n / 10), Digit(n % 10)]
  }

  /** The whole minutes of a non-negative time are its whole seconds divided by 60. */
  lemma WholeMinutes(seconds: real)
    requires seconds >= 0.0
    ensures (seconds / 60.0).Floor == seconds.Floor / 60
    ensures Trunc(seconds / 60.0) == seconds.Floor / 60
  {
    var total := seconds.Floor;
    var mins := (seconds / 60.0).Floor;
    assert mins as real <= seconds / 60.0 < mins as real + 1.0;
    assert 60 * mins <= total < 60 * mins + 60 by {
      assert 60.0 * mins as real <= seconds < 60.0 * mins as real + 60.0;
    }
  }

  /** The whole part of `seconds % 60` is the whole seconds modulo 60. */
  lemma WholeSecondsOfMinute(seconds: real)
    requires seconds >= 0.0
    ensures JsFmod(seconds, 60.0).Floor == seconds.Floor % 60
  {
    var total := seconds.Floor;
    var mins := (seconds / 60.0).Floor;
    WholeMinutes(seconds);
    var rem := JsFmod(seconds, 60.0);
    assert rem == seconds - 60.0 * mins as real;
    var secs := rem.Floor;
    assert secs as real <= rem < secs as real + 1.0;
    assert secs + 60 * mins <= total < secs + 60 * mins + 1 by {
      assert (secs + 60 * mins) as real <= seconds < (secs + 60 * mins) as real + 1.0;
    }
  }

  /** Padding the rendering of a number below 100 gives its two digits. */
  lemma PaddedTwoDigits(secs: nat)
    requires secs < 100
    ensures PadStart2(IntToString(secs)) == TwoDigits(secs)
  {
    var ss := IntToString(secs);
    if secs < 10 {
      assert ss == [Digit(secs)];
    } else {
      assert ss == NatToString(secs / 10) + [Digit(secs % 10)];
      assert NatToString(secs / 10) == [Digit(secs / 10)];
    }
  }

  /** For a non-negative time, the label is whole minutes and two-digit whole seconds of the elapsed whole seconds. */
  lemma FormatTimeIsMinutesSeconds(seconds: real)
    requires seconds >= 0.0
    ensures var total := seconds.Floor;
            FormatTime(seconds) == NatToString(total / 60) + ":" + TwoDigits(total % 60)
  {
    var total := seconds.Floor;
    if seconds == 0.0 {
      assert total == 0;
      assert NatToString(0) == "0";
    } else {
      WholeMinutes(seconds);
      WholeSecondsOfMinute(seconds);
      PaddedTwoDigits(total % 60);
    }
  }

  // ---------------------------------------------------------------------
  // Notes of the roll
  // ---------------------------------------------------------------------

  /** A note as the roll draws it: end = start + duration, with its track index and name. */
  datatype RollNote = RollNote(pitch: int, start: real, end: real, velocity: int, track: nat, noteName: string)

  function ToRollNote(n: MidiNote, trackIndex: nat): (r: RollNote)
    ensures r.pitch == n.midi && r.start == n.time && r.end == n.time + n.duration
    ensures r.velocity == n.velocity && r.track == trackIndex
  {
    RollNote(n.midi, n.time, n.time + n.duration, n.velocity, trackIndex, MidiToNoteName(n.midi))
  }

  function TrackRollNotes(notes: seq<MidiNote>, trackIndex: nat): (r: seq<RollNote>)
    ensures |r| == |notes|
  {
    seq(|notes|, i requires 0 <= i < |notes| => ToRollNote(notes[i], trackIndex))
  }

  /** The notes of all tracks, track by track, in the order they were pushed. */
  function Collect(tracks: seq<Track>): (r: seq<RollNote>)
    ensures |r| == TotalNotes(tracks)
    decreases |tracks|
  {
    if tracks == [] then []
    else
      TotalNotesSnoc(tracks);
      Collect(tracks[..|tracks| - 1]) + TrackRollNotes(tracks[|tracks| - 1].notes, |tracks| - 1)
  }

  lemma {:induction false} TotalNotesSnoc(tracks: seq<Track>)
    requires tracks != []
    ensures TotalNotes(tracks) == TotalNotes(tracks[..|tracks| - 1]) + |tracks[|tracks| - 1].notes|
    decreases |tracks|
  {
    if |tracks| > 1 {
      assert tracks[1..][..|tracks[1..]| - 1] == tracks[..|tracks| - 1][1..];
      TotalNotesSnoc(tracks[1..]);
    }
  }

  lemma CollectSnoc(tracks: seq<Track>, ti: nat)
    requires ti < |tracks|
    ensures Collect(tracks[..ti + 1]) == Collect(tracks[..ti]) + TrackRollNotes(tracks[ti].notes, ti)
  {
    assert tracks[..ti + 1][..ti] == tracks[..ti];
  }

  /** Each collected note is the converted form of one input note of the track it is tagged with. */
  lemma {:induction false} CollectFaithful(tracks: seq<Track>, k: nat)
    requires k < |Collect(tracks)|
    ensures var r := Collect(tracks)[k];
            r.track < |tracks| &&
            exists i :: 0 <= i < |tracks[r.track].notes| && r == ToRollNote(tracks[r.track].notes[i], r.track)
    decreases |tracks|
  {
    var front := tracks[..|tracks| - 1];
    var last := TrackRollNotes(tracks[|tracks| - 1].notes, |tracks| - 1);
    assert Collect(tracks) == Collect(front) + last;
    if k < |Collect(front)| {
      CollectFaithful(front, k);
      var r := Collect(front)[k];
      assert Collect(tracks)[k] == r;
      assert front[r.track] == tracks[r.track];
    } else {
      var i := k - |Collect(front)|;
      assert Collect(tracks)[k] == last[i];
    }
  }

  /** Every input note of every track appears in the collection, tagged with its track index. */
  lemma {:induction false} CollectComplete(tracks: seq<Track>, t: nat, i: nat)
    requires t < |tracks| && i < |tracks[t].notes|
    ensures ToRollNote(tracks[t].notes[i], t) in Collect(tracks)
    decreases |tracks|
  {
    var front := tracks[..|tracks| - 1];
    var last := TrackRollNotes(tracks[|tracks| - 1].notes, |tracks| - 1);
    assert Collect(tracks) == Collect(front) + last;
    if t < |tracks| - 1 {
      assert front[t] == tracks[t];
      CollectComplete(front, t, i);
    } else {
      assert last[i] == ToRollNote(tracks[t].notes[i], t);
    }
  }

  predicate SortedByStart(s: seq<RollNote>) {
    forall i, j :: 0 <= i < j < |s| ==> s[i].start <= s[j].start
  }

  /** Appending an element that starts no earlier than anything of a sorted list keeps it sorted. */
  lemma InsertStep(n: RollNote, front: seq<RollNote>, last: RollNote, r: seq<RollNote>)
    requires SortedByStart(front + [last]) && last.start > n.start
    requires SortedByStart(r) && multiset(r) == multiset(front) + multiset{n}
    ensures SortedByStart(r + [last])
    ensures multiset(r + [last]) == multiset(front + [last]) + multiset{n}
  {
    forall x | x in r ensures x.start <= last.start {
      assert x in multiset(r);
      if x != n {
        assert x in multiset(front);
        var i :| 0 <= i < |front| && front[i] == x;
        assert (front + [last])[i] == x && (front + [last])[|front|] == last;
      }
    }
    assert forall i :: 0 <= i < |r| ==> r[i] in r;
  }

  /** Place n after the last element whose start is not later than n's (so equal starts keep their order). */
  function InsertByStart(n: RollNote, s: seq<RollNote>): (r: seq<RollNote>)
    requires SortedByStart(s)
    ensures SortedByStart(r)
    ensures multiset(r) == multiset(s) + multiset{n}
    decreases |s|
  {
    if s == [] then [n]
    else if s[|s| - 1].start <= n.start then s + [n]
    else
      var front := s[..|s| - 1];
      var last := s[|s| - 1];
      assert s == front + [last];
      var r' := InsertByStart(n, front);
      InsertStep(n, front, last, r');
      r' + [last]
  }

  /** The stable ascending sort by start time that `notes.sort((a, b) => a.start - b.start)` performs. */
  function SortByStart(s: seq<RollNote>): (r: seq<RollNote>)
    ensures SortedByStart(r)
    ensures multiset(r) == multiset(s)
    ensures |r| == |s|
    decreases |s|
  {
    if s == [] then []
    else
      assert s == s[..|s| - 1] + [s[|s| - 1]];
      var r := InsertByStart(s[|s| - 1], SortByStart(s[..|s| - 1]));
      assert |multiset(r)| == |multiset(s)|;
      r
  }

  /** The inner loop of extractNotesFromMIDI: push one roll note per note of track `ti`. */
  method PushTrackNotes(collected: seq<RollNote>, track: Track, ti: nat) returns (r: seq<RollNote>)
    ensures r == collected + TrackRollNotes(track.notes, ti)
  {
    ghost var pushed := TrackRollNotes(track.notes, ti);
    r := collected;
    var ni := 0;
    while ni < |track.notes|
      invariant 0 <= ni <= |track.notes|
      invariant r == collected + pushed[..ni]
    {
      assert pushed[..ni + 1] == pushed[..ni] + [ToRollNote(track.notes[ni], ti)];
      r := r + [ToRollNote(track.notes[ni], ti)];
      ni := ni + 1;
    }
    assert pushed[..ni] == pushed;
  }

  /** The outer loop of extractNotesFromMIDI: every track's notes, track by track. */
  method CollectNotes(tracks: seq<Track>) returns (collected: seq<RollNote>)
    ensures collected == Collect(tracks)
  {
    collected := [];
    var ti := 0;
    while ti < |tracks|
      invariant 0 <= ti <= |tracks|
      invariant collected == Collect(tracks[..ti])
    {
      collected := PushTrackNotes(collected, tracks[ti], ti);
      CollectSnoc(tracks, ti);
      ti := ti + 1;
    }
    assert tracks[..ti] == tracks;
  }

  /**
   * extractNotesFromMIDI: push one roll note per input note, track by
   * track, then sort the list by start time.
   */
  method ExtractNotesFromMidi(midi: MidiData) returns (notes: seq<RollNote>)
    ensures notes == SortByStart(Collect(midi.tracks))
    ensures |notes| == TotalNotes(midi.tracks)
    ensures SortedByStart(notes)
    ensures multiset(notes) == multiset(Collect(midi.tracks))
  {
    var collected := CollectNotes(midi.tracks);
    notes := SortByStart(collected);
  }

  // ---------------------------------------------------------------------
  // Vertical auto-centring
  // ---------------------------------------------------------------------

  function MinPitch(notes: seq<RollNote>): (m: int)
    requires notes != []
    ensures forall i :: 0 <= i < |notes| ==> m <= notes[i].pitch
    ensures exists i :: 0 <= i < |notes| && m == notes[i].pitch
    decreases |notes|
  {
    if |notes| == 1 then notes[0].pitch
    else
      var m := MinPitch(notes[1..]);
      assert forall i :: 1 <= i < |notes| ==> notes[i] == notes[1..][i - 1];
      if notes[0].pitch <= m then notes[0].pitch else m
  }

  function MaxPitch(notes: seq<RollNote>): (m: int)
    requires notes != []
    ensures forall i :: 0 <= i < |notes| ==> notes[i].pitch <= m
    ensures exists i :: 0 <= i < |notes| && m == notes[i].pitch
    decreases |notes|
  {
    if |notes| == 1 then notes[0].pitch
    else
      var m := MaxPitch(notes[1..]);
      assert forall i :: 1 <= i < |notes| ==> notes[i] == notes[1..][i - 1];
      if notes[0].pitch >= m then notes[0].pitch else m
  }

  /** The unclamped scroll that puts the pitch midpoint at (1/2 + padding) of the viewport height. */
  function CentreTarget(notes: seq<RollNote>, height: real, padding: real): real
    requires notes != []
  {
    var centrePitch := (MinPitch(notes) + MaxPitch(notes)) as real / 2.0;
    (127.0 - centrePitch) * KeyHeight - height / 2.0 - height * padding
  }

  /**
   * The vertical scroll chosen on load (padding 0.1) and by the centre
   * button (padding 0.3): centre first, then clamp into [0, max(0, 2560 - height)];
   * no notes gives 0.
   */
  function AutoCentreScrollY(notes: seq<RollNote>, height: real, padding: real): (s: real)
    ensures 0.0 <= s <= Max(0.0, RollHeight - height)
    ensures notes == [] ==> s == 0.0
  {
    if notes == [] then 0.0
    else Clamp(CentreTarget(notes, height, padding), 0.0, Max(0.0, RollHeight - height))
  }

  /** When no clamping is needed, the midpoint pitch of the notes lands (1/2 + padding) of the way down the viewport. */
  lemma CentredPitchPosition(notes: seq<RollNote>, height: real, padding: real)
    requires notes != []
    requires 0.0 <= CentreTarget(notes, height, padding) <= Max(0.0, RollHeight - height)
    ensures var centrePitch := (MinPitch(notes) + MaxPitch(notes)) as real / 2.0;
            (127.0 - centrePitch) * KeyHeight - AutoCentreScrollY(notes, height, padding)
              == height / 2.0 + height * padding
  {
  }

  // ---------------------------------------------------------------------
  // Horizontal scrollbar and scroll limits
  // ---------------------------------------------------------------------

  /** calculateScrollbarVisibility. */
  function ScrollbarVisible(midiPresent: bool, width: real, zoom: real): (shown: bool)
    ensures shown ==> midiPresent && width != 0.0
    ensures midiPresent && width != 0.0 && zoom > 1.0 ==> shown
  {
    if !midiPresent || width == 0.0 then false
    else
      var available := width - KeyWidth;
      var zoomedPixelsPerBeat := available / BeatsVisible * zoom;
      var totalContentWidth := BeatsVisible * zoomedPixelsPerBeat;
      zoom > 1.0 || totalContentWidth > available
  }

  /** With MIDI present on a canvas wider than the key column, the scrollbar shows exactly when zoom > 1. */
  lemma MulPositive(a: real, b: real)
    requires a > 0.0 && b >= 0.0
    ensures a * b >= 0.0 && (b > 0.0 ==> a * b > 0.0)
  {
  }

  lemma ScrollbarVisibleIffZoomed(width: real, zoom: real)
    requires width > KeyWidth
    ensures ScrollbarVisible(true, width, zoom) <==> zoom > 1.0
  {
    var available := width - KeyWidth;
    assert BeatsVisible * (available / BeatsVisible * zoom) == available * zoom;
    assert available * zoom - available == available * (zoom - 1.0);
    if zoom > 1.0 {
      MulPositive(available, zoom - 1.0);
    } else {
      MulPositive(available, 1.0 - zoom);
    }
  }

  lemma NoScrollbarWithoutMidi(width: real, zoom: real)
    ensures !ScrollbarVisible(false, width, zoom)
  {
  }

  /** The most negative scrollX: the visible width minus the zoomed content width, or 0. */
  function MaxScrollX(width: real, zoom: real): (m: real)
    ensures m <= 0.0
  {
    var available := width - KeyWidth;
    var pixelsPerBeat := available * zoom / BeatsVisible;
    Min(0.0, available - BeatsVisible * pixelsPerBeat)
  }

  /**
   * A scrollbar drag of deltaX pixels scrolls the content by the same
   * fraction of its overflow: a drag to the right moves the view later
   * (the content left), and without overflow nothing moves.
   */
  function ScrollbarDragDelta(deltaX: real, zoom: real): (d: real)
    ensures deltaX >= 0.0 ==> d >= 0.0
    ensures deltaX <= 0.0 ==> d <= 0.0
    ensures MaxScrollX(Width, zoom) == 0.0 ==> d == 0.0
  {
    var available := Width - KeyWidth;
    var overflow := -MaxScrollX(Width, zoom);
    var fraction := deltaX / available;
    assert deltaX >= 0.0 ==> fraction >= 0.0;
    assert deltaX <= 0.0 ==> fraction <= 0.0;
    fraction * overflow
  }

  /** A click on the timeline bar seeks to the same fraction of the duration; without a duration nothing happens. */
  function TimelineClickTime(clickX: real, barWidth: real, duration: real): (t: Option<real>)
    requires barWidth > 0.0
    ensures duration == 0.0 <==> t.None?
    ensures t.Some? && duration > 0.0 && 0.0 <= clickX <= barWidth ==> 0.0 <= t.value <= duration
  {
    if duration == 0.0 then None
    else
      var t := clickX / barWidth * duration;
      assert 0.0 <= clickX <= barWidth && duration > 0.0 ==> t <= duration by {
        if 0.0 <= clickX <= barWidth && duration > 0.0 {
          assert clickX / barWidth <= 1.0;
        }
      }
      Some(t)
  }

  /** `duration || 10`: a zero duration falls back to ten seconds. */
  function DurationOrDefault(duration: real): real {
    if duration == 0.0 then 10.0 else duration
  }

  datatype Rect = Rect(left: real, top: real)

  // ---------------------------------------------------------------------
  // Viewport state
  // ---------------------------------------------------------------------

  /**
   * The view's state: zoom, scroll offsets, the extracted notes and the
   * pointer-drag flags.  Zoom stays in [0.1, 10] and scrollX never
   * becomes positive.  scrollY is clamped by the wheel and by centring
   * but not by a canvas drag.
   */
  class Viewport {
    var zoom: real
    var scrollX: real
    var scrollY: real
    var notes: seq<RollNote>
    var midiPresent: bool
    var isDragging: bool
    var isDraggingPlayhead: bool
    var isDraggingScrollbar: bool
    var dragStartX: real
    var dragStartY: real

    ghost predicate Valid()
      reads this
    {
      MinZoom <= zoom <= MaxZoom && scrollX <= 0.0
    }

    /** The canvas and its controls exist only while MIDI is present and has notes. */
    predicate Shown()
      reads this
    {
      midiPresent && notes != []
    }

    constructor ()
      ensures Valid()
      ensures zoom == InitialZoom && scrollX == 0.0 && scrollY == 0.0
      ensures notes == [] && !midiPresent
      ensures !isDragging && !isDraggingPlayhead && !isDraggingScrollbar
      ensures dragStartX == 0.0 && dragStartY == 0.0
    {
      zoom := InitialZoom;
      scrollX := 0.0;
      scrollY := 0.0;
      notes := [];
      midiPresent := false;
      isDragging := false;
      isDraggingPlayhead := false;
      isDraggingScrollbar := false;
      dragStartX := 0.0;
      dragStartY := 0.0;
    }

    /** New MIDI data: extract and sort the notes, reset scrollX and auto-centre scrollY; zoom is kept. */
    method Load(midi: Option<MidiData>)
      requires Valid()
      modifies this`midiPresent, this`notes, this`scrollX, this`scrollY
      ensures Valid()
      ensures midiPresent == midi.Some?
      ensures midi.Some? ==> notes == SortByStart(Collect(midi.value.tracks))
      ensures midi.Some? ==> scrollX == 0.0 && scrollY == AutoCentreScrollY(notes, Height, 0.1)
      ensures midi.None? ==> notes == old(notes) && scrollX == old(scrollX) && scrollY == old(scrollY)
    {
      midiPresent := midi.Some?;
      if midi.Some? {
        var extracted := ExtractNotesFromMidi(midi.value);
        notes := extracted;
        scrollX := 0.0;
        scrollY := AutoCentreScrollY(extracted, Height, 0.1);
      }
    }

    /** The centre button: like the load-time centring but with 30% padding. */
    method CentreOnNotes()
      requires Valid() && Shown()
      modifies this`scrollY
      ensures Valid()
      ensures scrollY == AutoCentreScrollY(notes, Height, 0.3)
      ensures 0.0 <= scrollY <= RollHeight - Height
    {
      scrollY := AutoCentreScrollY(notes, Height, 0.3);
    }

    /**
     * handleWheel: Ctrl/Meta zooms by 0.9 or 1.1 within [0.1, 10]; Shift
     * scrolls horizontally by 50 pixels, never past time 0; otherwise the
     * wheel scrolls vertically by 0.2 * deltaY within [0, 2560 - 600].
     */
    method Wheel(ctrlOrMeta: bool, shift: bool, deltaY: real)
      requires Valid() && Shown()
      modifies this`zoom, this`scrollX, this`scrollY
      ensures Valid()
      ensures ctrlOrMeta ==>
        zoom == Clamp(old(zoom) * (if deltaY > 0.0 then 0.9 else 1.1), MinZoom, MaxZoom)
        && scrollX == old(scrollX) && scrollY == old(scrollY)
      ensures !ctrlOrMeta && shift ==>
        scrollX == Min(0.0, old(scrollX) - (if deltaY > 0.0 then ScrollStep else -ScrollStep))
        && zoom == old(zoom) && scrollY == old(scrollY)
      ensures !ctrlOrMeta && !shift ==>
        scrollY == Clamp(old(scrollY) + deltaY * 0.2, 0.0, RollHeight - Height)
        && 0.0 <= scrollY <= RollHeight - Height
        && zoom == old(zoom) && scrollX == old(scrollX)
    {
      if ctrlOrMeta {
        var factor := if deltaY > 0.0 then 0.9 else 1.1;
        zoom := Clamp(zoom * factor, MinZoom, MaxZoom);
      } else if shift {
        var scrollDelta := if deltaY > 0.0 then ScrollStep else -ScrollStep;
        scrollX := Min(0.0, scrollX - scrollDelta);
      } else {
        var scrollDelta := deltaY * 0.2;
        var maxScrollY := RollHeight - Height;
        scrollY := Clamp(scrollY + scrollDelta, 0.0, maxScrollY);
      }
    }

    /** "−" button. */
    method ZoomOut()
      requires Valid() && Shown()
      modifies this`zoom
      ensures Valid() && zoom == Max(MinZoom, old(zoom) * 0.8)
    {
      zoom := Max(MinZoom, zoom * 0.8);
    }

    /** "100%" button. */
    method ZoomReset()
      requires Valid() && Shown()
      modifies this`zoom
      ensures Valid() && zoom == 1.0
    {
      zoom := 1.0;
    }

    /** "+" button: its cap is 5, not the wheel's 10. */
    method ZoomIn()
      requires Valid() && Shown()
      modifies this`zoom
      ensures Valid() && zoom == Min(ButtonMaxZoom, old(zoom) * 1.25)
      ensures zoom <= ButtonMaxZoom
    {
      zoom := Min(ButtonMaxZoom, zoom * 1.25);
    }

    /** The left arrow exists when zoom > 1 and is disabled once scrollX reaches 0. */
    method ScrollLeft()
      requires Valid() && Shown()
      modifies this`scrollX
      ensures Valid()
      ensures scrollX == if old(zoom) > 1.0 && old(scrollX) < 0.0 then Min(0.0, old(scrollX) + ScrollStep) else old(scrollX)
    {
      if zoom > 1.0 && scrollX < 0.0 {
        scrollX := Min(0.0, scrollX + ScrollStep);
      }
    }

    /** The right arrow exists when zoom > 1 and is disabled once scrollX reaches its minimum. */
    method ScrollRight()
      requires Valid() && Shown()
      modifies this`scrollX
      ensures Valid()
      ensures var m := MaxScrollX(Width, old(zoom));
              scrollX == if old(zoom) > 1.0 && old(scrollX) > m then Max(m, old(scrollX) - ScrollStep) else old(scrollX)
    {
      var m := MaxScrollX(Width, zoom);
      if zoom > 1.0 && scrollX > m {
        scrollX := Max(m, scrollX - ScrollStep);
      }
    }

    /** The hit-test of handleMouseDown: note that it offsets the drawn playhead by scrollX once more. */
    predicate OnPlayhead(x: real, y: real, currentTime: real)
      reads this
      ensures OnPlayhead(x, y, currentTime) <==>
        -HandleSize / 2.0 <= x - TimeToPixels(currentTime, Width, zoom, 2.0 * scrollX) <= HandleSize / 2.0 && y <= HandleSize
    {
      var playheadX := TimeToPixels(currentTime, Width, zoom, scrollX) + scrollX;
      -HandleSize / 2.0 <= x - playheadX <= HandleSize / 2.0 && y <= HandleSize
    }

    /** The seek target of a playhead drag to x: clamped into [0, duration || 10]. */
    function PlayheadDragTime(x: real, duration: real): (t: real)
      reads this
      requires Valid()
      ensures 0.0 <= t <= DurationOrDefault(duration) || DurationOrDefault(duration) < 0.0
    {
      Clamp(PixelsToTime(x - scrollX, Width, zoom, scrollX), 0.0, DurationOrDefault(duration))
    }

    /** handleMouseDown: start a scrollbar drag, a playhead drag or a canvas drag. */
    method MouseDown(clientX: real, clientY: real, rect: Option<Rect>, currentTime: real)
      requires Valid() && Shown()
      modifies this`isDragging, this`isDraggingPlayhead, this`isDraggingScrollbar, this`dragStartX, this`dragStartY
      ensures Valid()
      ensures rect.None? ==> unchanged(this)
      ensures rect.Some? ==>
        var x, y := clientX - rect.value.left, clientY - rect.value.top;
        var onScrollbar := ScrollbarVisible(midiPresent, Width, zoom) && y >= Height - 10.0 && x >= KeyWidth;
        isDraggingScrollbar == (old(isDraggingScrollbar) || onScrollbar)
        && isDraggingPlayhead == (old(isDraggingPlayhead) || (!onScrollbar && OnPlayhead(x, y, currentTime)))
        && isDragging == (old(isDragging) || (!onScrollbar && !OnPlayhead(x, y, currentTime)))
        && (onScrollbar || !OnPlayhead(x, y, currentTime) ==> dragStartX == clientX && dragStartY == clientY)
        && (!onScrollbar && OnPlayhead(x, y, currentTime) ==> dragStartX == old(dragStartX) && dragStartY == old(dragStartY))
    {
      if rect.None? {
        return;
      }
      var x := clientX - rect.value.left;
      var y := clientY - rect.value.top;
      if ScrollbarVisible(midiPresent, Width, zoom) && y >= Height - 10.0 && x >= KeyWidth {
        isDraggingScrollbar := true;
        dragStartX, dragStartY := clientX, clientY;
        return;
      }
      if OnPlayhead(x, y, currentTime) {
        isDraggingPlayhead := true;
      } else {
        isDragging := true;
        dragStartX, dragStartY := clientX, clientY;
      }
    }

    /**
     * handleMouseMove: a scrollbar drag moves scrollX proportionally within
     * [maxScrollX, 0]; a playhead drag asks for a seek; a canvas drag moves
     * scrollX (never above 0) and scrollY (without any clamp).
     */
    method MouseMove(clientX: real, clientY: real, rect: Option<Rect>, duration: real) returns (seek: Option<real>)
      requires Valid() && Shown()
      modifies this`scrollX, this`scrollY, this`dragStartX, this`dragStartY
      ensures Valid()
      ensures old(isDraggingScrollbar) ==>
        scrollX == Max(MaxScrollX(Width, zoom), Min(0.0, old(scrollX) - ScrollbarDragDelta(clientX - old(dragStartX), zoom)))
        && scrollY == old(scrollY) && dragStartX == clientX && dragStartY == clientY && seek.None?
      ensures !old(isDraggingScrollbar) && isDraggingPlayhead ==>
        scrollX == old(scrollX) && scrollY == old(scrollY)
        && dragStartX == old(dragStartX) && dragStartY == old(dragStartY)
        && seek == (if rect.None? then None else Some(PlayheadDragTime(clientX - rect.value.left, duration)))
      ensures !old(isDraggingScrollbar) && !isDraggingPlayhead && isDragging ==>
        scrollX == Min(0.0, old(scrollX) - (clientX - old(dragStartX)))
        && scrollY == old(scrollY) + (clientY - old(dragStartY))
        && dragStartX == clientX && dragStartY == clientY && seek.None?
      ensures !old(isDraggingScrollbar) && !isDraggingPlayhead && !isDragging ==> unchanged(this) && seek.None?
    {
      seek := None;
      if isDraggingScrollbar {
        var scrollDelta := ScrollbarDragDelta(clientX - dragStartX, zoom);
        scrollX := Max(MaxScrollX(Width, zoom), Min(0.0, scrollX - scrollDelta));
        dragStartX, dragStartY := clientX, clientY;
      } else if isDraggingPlayhead {
        if rect.Some? {
          var x := clientX - rect.value.left;
          seek := Some(PlayheadDragTime(x, duration));
        }
      } else if isDragging {
        var deltaX := clientX - dragStartX;
        var deltaY := clientY - dragStartY;
        scrollX := Min(0.0, scrollX - deltaX);
        scrollY := scrollY + deltaY;
        dragStartX, dragStartY := clientX, clientY;
      }
    }

    /** handleMouseUp / mouse leave: every drag ends. */
    method MouseUp()
      requires Valid()
      modifies this`isDragging, this`isDraggingPlayhead, this`isDraggingScrollbar
      ensures Valid()
      ensures !isDragging && !isDraggingPlayhead && !isDraggingScrollbar
    {
      isDragging, isDraggingPlayhead, isDraggingScrollbar := false, false, false;
    }
  }

  // ---------------------------------------------------------------------
  // Properties of the playhead hit-test and drag
  // ---------------------------------------------------------------------

  /** The playhead is drawn at timeToPixels(t), but the hit-test window is centred scrollX further on. */
  lemma PlayheadHitWindow(v: Viewport, t: real)
    requires v.Valid()
    ensures v.OnPlayhead(TimeToPixels(t, Width, v.zoom, v.scrollX) + v.scrollX, 0.0, t)
    ensures v.OnPlayhead(TimeToPixels(t, Width, v.zoom, v.scrollX), 0.0, t) <==> -HandleSize / 2.0 <= v.scrollX
  {
  }

  /** Dragging the pointer to where the hit-test places time t seeks exactly to t, when t is within the duration. */
  lemma PlayheadDragRoundTrip(v: Viewport, t: real, duration: real)
    requires v.Valid()
    requires 0.0 <= t <= DurationOrDefault(duration)
    ensures v.PlayheadDragTime(TimeToPixels(t, Width, v.zoom, v.scrollX) + v.scrollX, duration) == t
  {
    var x := TimeToPixels(t, Width, v.zoom, v.scrollX) + v.scrollX;
    assert x - v.scrollX == TimeToPixels(t, Width, v.zoom, v.scrollX);
    TimePixelsRoundTrip(t, Width, v.zoom, v.scrollX);
  }
}
