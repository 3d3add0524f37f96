/**
 * The note-level half of the audio-to-MIDI transcriber: how detected
 * onsets and pitch samples are grouped into notes, how a note's velocity
 * is estimated and its frequency turned into a MIDI pitch, how note times
 * are snapped to the quantisation grid, and the order in which a
 * transcription gives up.  Loading the audio, onset and pitch detection
 * and writing the MIDI file are library work: their outcomes are
 * parameters, and the base-2 logarithm is a parameter `log2`.
 */
module Transcriber {
  import opened Common

  /** A note as grouping produces it: times in seconds, MIDI pitch and velocity, and the detected frequency. */
  datatype RawNote = RawNote(start: real, end: real, pitch: int, velocity: int, frequency: real)

  /** The transcriber's settings that shape the notes: min_note_duration (seconds) and quantize_ms. */
  datatype Settings = Settings(minNoteDuration: real, quantizeMs: real)

  // ---------------------------------------------------------------------
  // Velocity and pitch
  // ---------------------------------------------------------------------

  /**
   * estimate_velocity: 80 scaled by frequency / 440 held within [0.5, 1.5],
   * truncated, then clamped to the MIDI range 1..127 (which the factor's
   * bounds already keep it inside: the result lies in 40..120).
   */
  function EstimateVelocity(frequency: real): (v: int)
    ensures 1 <= v <= 127
    ensures 40 <= v <= 120
  {
    var freqFactor := Min(1.5, Max(0.5, frequency / 440.0));
    var beatFactor := 1.0;
    var velocity := Trunc(80.0 * freqFactor * beatFactor);
    var capped := if velocity <= 127 then velocity else 127;
    if capped >= 1 then capped else 1
  }

  /** A4 is played mezzo-forte; an octave below or lower is 40, an octave and a half above or higher is 120. */
  lemma VelocityLandmarks(frequency: real)
    ensures EstimateVelocity(440.0) == 80
    ensures frequency <= 220.0 ==> EstimateVelocity(frequency) == 40
    ensures frequency >= 660.0 ==> EstimateVelocity(frequency) == 120
  {
  }

  /** A higher frequency is never played softer. */
  lemma VelocityMonotonic(f1: real, f2: real)
    requires f1 <= f2
    ensures EstimateVelocity(f1) <= EstimateVelocity(f2)
  {
    var a := Min(1.5, Max(0.5, f1 / 440.0));
    var b := Min(1.5, Max(0.5, f2 / 440.0));
    assert a <= b;
    assert 80.0 * a * 1.0 <= 80.0 * b * 1.0;
  }

  /** freq_to_midi: 12 log2(f / 440) + 69 for a positive frequency, 0 otherwise. */
  function FreqToMidi(frequency: real, log2: real -> real): (m: real)
    ensures frequency <= 0.0 ==> m == 0.0
  {
    if frequency <= 0.0 then 0.0 else 12.0 * log2(frequency / 440.0) + 69.0
  }

  /** 440 Hz is MIDI 69, and doubling a frequency raises it by an octave of 12 semitones. */
  lemma FreqToMidiScale(frequency: real, log2: real -> real)
    requires log2(1.0) == 0.0
    requires frequency > 0.0 && log2(2.0 * frequency / 440.0) == log2(frequency / 440.0) + 1.0
    ensures FreqToMidi(440.0, log2) == 69.0
    ensures FreqToMidi(2.0 * frequency, log2) == FreqToMidi(frequency, log2) + 12.0
  {
    assert 440.0 / 440.0 == 1.0;
  }

  // ---------------------------------------------------------------------
  // Grouping onsets and pitches into notes
  // ---------------------------------------------------------------------

  /** |a - b|. */
  function Distance(a: real, b: real): (d: real)
    ensures d >= 0.0 && (d == a - b || d == b - a)
  {
    if a >= b then a - b else b - a
  }

  /** np.argmin of the distances to t among times[..n]: the first index of the least distance. */
  function ClosestUpTo(times: seq<real>, t: real, n: nat): (c: nat)
    requires 1 <= n <= |times|
    ensures c < n
    ensures forall i :: 0 <= i < n ==> Distance(times[c], t) <= Distance(times[i], t)
    ensures forall i :: 0 <= i < c ==> Distance(times[i], t) > Distance(times[c], t)
    decreases n
  {
    if n == 1 then 0
    else
      var c := ClosestUpTo(times, t, n - 1);
      if Distance(times[n - 1], t) < Distance(times[c], t) then n - 1 else c
  }

  function ClosestIndex(times: seq<real>, t: real): (c: nat)
    requires |times| > 0
    ensures c < |times|
  {
    ClosestUpTo(times, t, |times|)
  }

  /**
   * np.searchsorted with side "left" on an ascending sequence: the first
   * index whose element is at least v, or |xs| when there is none.
   */
  function SearchLeft(xs: seq<real>, v: real): (i: nat)
    ensures i <= |xs|
    ensures forall j :: 0 <= j < i ==> xs[j] < v
    ensures i < |xs| ==> xs[i] >= v
  {
    if xs == [] then 0
    else if xs[0] >= v then 0
    else 1 + SearchLeft(xs[1..], v)
  }

  /** A note ends 0.05 s before the first onset at least 0.1 s after its own, or 1 s after it when there is none. */
  function NoteEnd(onsets: seq<real>, i: nat): (end: real)
    requires i < |onsets|
    ensures end >= onsets[i] + 0.05
  {
    var next := SearchLeft(onsets, onsets[i] + 0.1);
    if next < |onsets| then onsets[next] - 0.05 else onsets[i] + 1.0
  }

  /** The note grouping makes of onset i, if any. */
  function OnsetNote(onsets: seq<real>, i: nat, pitchTimes: seq<real>, frequencies: seq<real>,
                     minDuration: real, log2: real -> real): (r: Option<RawNote>)
    requires i < |onsets| && 0 < |pitchTimes| == |frequencies|
    ensures r.Some? ==> (r.value.start == onsets[i] && r.value.end == NoteEnd(onsets, i)
                         && r.value.end - r.value.start >= minDuration && 40 <= r.value.velocity <= 120)
    ensures r.Some? ==> exists k :: 0 <= k < |pitchTimes| && Distance(pitchTimes[k], onsets[i]) < 0.2
                                     && r.value.frequency == frequencies[k]
  {
    var onset := onsets[i];
    var c := ClosestIndex(pitchTimes, onset);
    if Distance(pitchTimes[c], onset) < 0.2 then
      var frequency := frequencies[c];
      var end := NoteEnd(onsets, i);
      if end - onset >= minDuration then
        Some(RawNote(onset, end, Trunc(FreqToMidi(frequency, log2)), EstimateVelocity(frequency), frequency))
      else None
    else None
  }

  /** An onset yields a note exactly when a pitch sample lies within 0.2 s of it and the note lasts long enough. */
  lemma OnsetNoteRule(onsets: seq<real>, i: nat, pitchTimes: seq<real>, frequencies: seq<real>,
                      minDuration: real, log2: real -> real)
    requires i < |onsets| && 0 < |pitchTimes| == |frequencies|
    ensures OnsetNote(onsets, i, pitchTimes, frequencies, minDuration, log2).Some? <==>
      (exists k :: 0 <= k < |pitchTimes| && Distance(pitchTimes[k], onsets[i]) < 0.2)
      && NoteEnd(onsets, i) - onsets[i] >= minDuration
  {
    var c := ClosestIndex(pitchTimes, onsets[i]);
    if exists k :: 0 <= k < |pitchTimes| && Distance(pitchTimes[k], onsets[i]) < 0.2 {
      var k :| 0 <= k < |pitchTimes| && Distance(pitchTimes[k], onsets[i]) < 0.2;
      assert Distance(pitchTimes[c], onsets[i]) <= Distance(pitchTimes[k], onsets[i]);
    }
  }

  /** On ascending onsets, a note ends at the first later onset (0.1 s or more away) less 0.05 s, or 1 s after its start. */
  lemma NoteEndRule(onsets: seq<real>, i: nat)
    requires i < |onsets|
    ensures (forall j :: 0 <= j < |onsets| ==> onsets[j] < onsets[i] + 0.1) ==> NoteEnd(onsets, i) == onsets[i] + 1.0
    ensures forall j :: (0 <= j < |onsets| && onsets[j] >= onsets[i] + 0.1 &&
      (forall l :: 0 <= l < j ==> onsets[l] < onsets[i] + 0.1)) ==> NoteEnd(onsets, i) == onsets[j] - 0.05
  {
    var next := SearchLeft(onsets, onsets[i] + 0.1);
    if next < |onsets| {
      assert onsets[next] >= onsets[i] + 0.1;
    }
  }

  /** The note each onset yields, if any, in onset order. */
  function Candidates(onsets: seq<real>, pitchTimes: seq<real>, frequencies: seq<real>,
                      minDuration: real, log2: real -> real): (c: seq<Option<RawNote>>)
    requires |pitchTimes| == |frequencies| && (|onsets| > 0 ==> |pitchTimes| > 0)
    ensures |c| == |onsets|
  {
    seq(|onsets|, i requires 0 <= i < |onsets| => OnsetNote(onsets, i, pitchTimes, frequencies, minDuration, log2))
  }

  const EmptyArgminMessage: string := "attempt to get argmin of an empty sequence"

  /** group_notes: the notes of the onsets in order; with an onset but no pitch sample, np.argmin raises. */
  function GroupSpec(onsets: seq<real>, pitchTimes: seq<real>, frequencies: seq<real>,
                     minDuration: real, log2: real -> real): (r: Result<seq<RawNote>, string>)
    requires |pitchTimes| == |frequencies|
    ensures r.Failure? <==> |onsets| > 0 && |pitchTimes| == 0
    ensures |onsets| == 0 ==> r == Success([])
  {
    if |onsets| == 0 then Success([])
    else if |pitchTimes| == 0 then Failure(EmptyArgminMessage)
    else Success(Somes(Candidates(onsets, pitchTimes, frequencies, minDuration, log2)))
  }

  /** The body of group_notes' loop for onset i. */
  method NoteForOnset(onsets: seq<real>, i: nat, pitchTimes: seq<real>, frequencies: seq<real>,
                      minDuration: real, log2: real -> real) returns (note: Option<RawNote>)
    requires i < |onsets| && 0 < |pitchTimes| == |frequencies|
    ensures note == OnsetNote(onsets, i, pitchTimes, frequencies, minDuration, log2)
  {
    var onsetTime := onsets[i];
    var closest := ClosestIndex(pitchTimes, onsetTime);
    note := None;
    if Distance(pitchTimes[closest], onsetTime) < 0.2 {
      var frequency := frequencies[closest];
      var midiNote := FreqToMidi(frequency, log2);
      var nextOnset := SearchLeft(onsets, onsetTime + 0.1);
      var endTime;
      if nextOnset < |onsets| {
        endTime := onsets[nextOnset] - 0.05;
      } else {
        endTime := onsetTime + 1.0;
      }
      assert endTime == NoteEnd(onsets, i);
      var duration := endTime - onsetTime;
      if duration >= minDuration {
        var velocity := EstimateVelocity(frequency);
        note := Some(RawNote(onsetTime, endTime, Trunc(midiNote), velocity, frequency));
      }
    }
  }

  /** The loop of group_notes. */
  method GroupNotes(onsets: seq<real>, pitchTimes: seq<real>, frequencies: seq<real>,
                    minDuration: real, log2: real -> real) returns (r: Result<seq<RawNote>, string>)
    requires |pitchTimes| == |frequencies|
    ensures r == GroupSpec(onsets, pitchTimes, frequencies, minDuration, log2)
  {
    var notes: seq<RawNote> := [];
    ghost var c := if |onsets| > 0 && |pitchTimes| > 0 then Candidates(onsets, pitchTimes, frequencies, minDuration, log2) else [];
    var i := 0;
    while i < |onsets|
      invariant 0 <= i <= |onsets|
      invariant i > 0 ==> |pitchTimes| > 0 && |c| == |onsets| && notes == Somes(c[..i])
      invariant i == 0 ==> notes == []
    {
      if |pitchTimes| == 0 {
        return Failure(EmptyArgminMessage);
      }
      var note := NoteForOnset(onsets, i, pitchTimes, frequencies, minDuration, log2);
      assert c[i] == note;
      SomesStep(c, i);
      if note.Some? {
        notes := notes + [note.value];
      }
      i := i + 1;
    }
    if i > 0 {
      assert c[..i] == c;
    }
    return Success(notes);
  }

  /** The note of one onset: it starts at that onset, lasts at least the minimum, and has a velocity in 40..120. */
  predicate Fits(x: RawNote, onset: real, minDuration: real) {
    x.start == onset && x.end - x.start >= minDuration && 40 <= x.velocity <= 120
  }

  /** A grouped note: it starts at one of the given onsets, lasts at least the minimum, and has a velocity in 40..120. */
  predicate Shaped(x: RawNote, starts: seq<real>, minDuration: real) {
    x.start in starts && x.end - x.start >= minDuration && 40 <= x.velocity <= 120
  }

  /** Every note an onset yields fits that onset. */
  lemma OnsetNoteFits(onsets: seq<real>, i: nat, pitchTimes: seq<real>, frequencies: seq<real>,
                      minDuration: real, log2: real -> real)
    requires i < |onsets| && 0 < |pitchTimes| == |frequencies|
    ensures OnsetNote(onsets, i, pitchTimes, frequencies, minDuration, log2).Some? ==>
      Fits(OnsetNote(onsets, i, pitchTimes, frequencies, minDuration, log2).value, onsets[i], minDuration)
  {
  }

  /** Candidates that fit their onsets give notes shaped by those onsets, at most one per onset. */
  lemma {:induction false} SomesShaped(opts: seq<Option<RawNote>>, onsets: seq<real>, minDuration: real)
    requires |opts| <= |onsets|
    requires forall i :: 0 <= i < |opts| && opts[i].Some? ==> Fits(opts[i].value, onsets[i], minDuration)
    ensures forall j :: 0 <= j < |Somes(opts)| ==> Shaped(Somes(opts)[j], onsets[..|opts|], minDuration)
    decreases |opts|
  {
    if opts != [] {
      var n := |opts|;
      var prefix := opts[..n - 1];
      SomesShaped(prefix, onsets, minDuration);
      var prev := Somes(prefix);
      var all := Somes(opts);
      assert all == prev + OptionList(opts[n - 1]);
      forall j | 0 <= j < |all|
        ensures Shaped(all[j], onsets[..n], minDuration)
      {
        if j < |prev| {
          assert all[j] == prev[j];
          var k :| 0 <= k < n - 1 && onsets[..n - 1][k] == prev[j].start;
          assert onsets[..n][k] == prev[j].start;
        } else {
          assert all[j] == opts[n - 1].value;
          assert onsets[..n][n - 1] == onsets[n - 1];
        }
      }
    }
  }

  predicate StartsAscending(notes: seq<RawNote>) {
    forall a, b :: 0 <= a < b < |notes| ==> notes[a].start <= notes[b].start
  }

  lemma StartsAscendingStep(prev: seq<RawNote>, produced: Option<RawNote>, bound: real)
    requires StartsAscending(prev)
    requires forall j :: 0 <= j < |prev| ==> prev[j].start <= bound
    requires produced.Some? ==> bound <= produced.value.start
    ensures StartsAscending(prev + OptionList(produced))
  {
  }

  /** Candidates that fit ascending onsets give notes in ascending order of start. */
  lemma {:induction false} SomesAscending(opts: seq<Option<RawNote>>, onsets: seq<real>, minDuration: real)
    requires |opts| <= |onsets|
    requires forall a, b :: 0 <= a < b < |onsets| ==> onsets[a] <= onsets[b]
    requires forall i :: 0 <= i < |opts| && opts[i].Some? ==> Fits(opts[i].value, onsets[i], minDuration)
    ensures StartsAscending(Somes(opts))
    decreases |opts|
  {
    if opts != [] {
      var n := |opts|;
      var prefix := opts[..n - 1];
      SomesAscending(prefix, onsets, minDuration);
      SomesShaped(prefix, onsets, minDuration);
      var prev := Somes(prefix);
      forall j | 0 <= j < |prev|
        ensures prev[j].start <= onsets[n - 1]
      {
        var k :| 0 <= k < n - 1 && onsets[..n - 1][k] == prev[j].start;
      }
      StartsAscendingStep(prev, opts[n - 1], onsets[n - 1]);
    }
  }

  /** Without any candidate, there is no note. */
  lemma {:induction false} SomesNone(opts: seq<Option<RawNote>>)
    requires forall i :: 0 <= i < |opts| ==> opts[i].None?
    ensures Somes(opts) == []
    decreases |opts|
  {
    if opts != [] {
      SomesNone(opts[..|opts| - 1]);
    }
  }

  /** Grouping yields at most one note per onset, each starting at an onset, lasting at least the minimum, with a velocity in 40..120. */
  lemma GroupedShape(onsets: seq<real>, pitchTimes: seq<real>, frequencies: seq<real>,
                     minDuration: real, log2: real -> real)
    requires 0 < |pitchTimes| == |frequencies|
    ensures |Somes(Candidates(onsets, pitchTimes, frequencies, minDuration, log2))| <= |onsets|
    ensures forall j :: 0 <= j < |Somes(Candidates(onsets, pitchTimes, frequencies, minDuration, log2))| ==>
      Shaped(Somes(Candidates(onsets, pitchTimes, frequencies, minDuration, log2))[j], onsets, minDuration)
  {
    var c := Candidates(onsets, pitchTimes, frequencies, minDuration, log2);
    forall i | 0 <= i < |c| && c[i].Some?
      ensures Fits(c[i].value, onsets[i], minDuration)
    {
      OnsetNoteFits(onsets, i, pitchTimes, frequencies, minDuration, log2);
    }
    SomesShaped(c, onsets, minDuration);
    assert onsets[..|c|] == onsets;
  }

  /** Ascending onsets give notes in ascending order of start. */
  lemma GroupedAscending(onsets: seq<real>, pitchTimes: seq<real>, frequencies: seq<real>,
                         minDuration: real, log2: real -> real)
    requires 0 < |pitchTimes| == |frequencies|
    requires forall a, b :: 0 <= a < b < |onsets| ==> onsets[a] <= onsets[b]
    ensures StartsAscending(Somes(Candidates(onsets, pitchTimes, frequencies, minDuration, log2)))
  {
    var c := Candidates(onsets, pitchTimes, frequencies, minDuration, log2);
    forall i | 0 <= i < |c| && c[i].Some?
      ensures Fits(c[i].value, onsets[i], minDuration)
    {
      OnsetNoteFits(onsets, i, pitchTimes, frequencies, minDuration, log2);
    }
    SomesAscending(c, onsets, minDuration);
  }

  /** Two onsets 0.5 s apart with pitch samples on them: a 0.45 s A4 and a 1 s A5. */
  lemma GroupExample(log2: real -> real)
    requires log2(1.0) == 0.0 && log2(2.0) == 1.0
    ensures GroupSpec([0.0, 0.5], [0.0, 0.5], [440.0, 880.0], 0.1, log2)
      == Success([RawNote(0.0, 0.45, 69, 80, 440.0), RawNote(0.5, 1.5, 81, 120, 880.0)])
  {
    var onsets := [0.0, 0.5];
    var times := [0.0, 0.5];
    var freqs := [440.0, 880.0];
    assert SearchLeft(onsets[1..], 0.1) == 0;
    assert NoteEnd(onsets, 0) == 0.45;
    assert SearchLeft(onsets[1..][1..], 0.6) == 0;
    assert NoteEnd(onsets, 1) == 1.5;
    assert ClosestIndex(times, 0.0) == 0;
    assert ClosestIndex(times, 0.5) == 1;
    assert 440.0 / 440.0 == 1.0 && 880.0 / 440.0 == 2.0;
    assert FreqToMidi(440.0, log2) == 69.0;
    assert FreqToMidi(880.0, log2) == 81.0;
    assert EstimateVelocity(880.0) == 120;
    assert OnsetNote(onsets, 0, times, freqs, 0.1, log2) == Some(RawNote(0.0, 0.45, 69, 80, 440.0));
    assert OnsetNote(onsets, 1, times, freqs, 0.1, log2) == Some(RawNote(0.5, 1.5, 81, 120, 880.0));
    var c := Candidates(onsets, times, freqs, 0.1, log2);
    assert c == [Some(RawNote(0.0, 0.45, 69, 80, 440.0)), Some(RawNote(0.5, 1.5, 81, 120, 880.0))];
    assert c[..1] == [c[0]] && [c[0]][..0] == [];
    assert Somes(c) == [RawNote(0.0, 0.45, 69, 80, 440.0)] + [RawNote(0.5, 1.5, 81, 120, 880.0)];
    assert [RawNote(0.0, 0.45, 69, 80, 440.0)] + [RawNote(0.5, 1.5, 81, 120, 880.0)]
      == [RawNote(0.0, 0.45, 69, 80, 440.0), RawNote(0.5, 1.5, 81, 120, 880.0)];
  }

  // ---------------------------------------------------------------------
  // Quantisation
  // ---------------------------------------------------------------------

  /** A time rounded, half to even, to the nearest multiple of the interval. */
  function Snap(t: real, interval: real): (r: real)
    requires interval > 0.0
    ensures (t / interval).Floor as real == t / interval ==> r == t
  {
    DivMul(t, interval);
    RoundHalfEven(t / interval) as real * interval
  }

  lemma DivMul(a: real, d: real)
    requires d != 0.0
    ensures (a / d) * d == a
  {
  }

  lemma MulDiv(a: real, d: real)
    requires d != 0.0
    ensures (a * d) / d == a
  {
  }

  lemma ScaleHalf(d: real, c: real)
    requires -0.5 <= d <= 0.5 && c > 0.0
    ensures -0.5 * c <= d * c <= 0.5 * c
  {
  }

  /** A snapped time is a whole number of intervals, at most half an interval from the time. */
  lemma SnapRule(t: real, interval: real)
    requires interval > 0.0
    ensures (Snap(t, interval) / interval).Floor as real == Snap(t, interval) / interval
    ensures Distance(Snap(t, interval), t) <= interval / 2.0
  {
    var x := t / interval;
    var k := RoundHalfEven(x);
    var s := k as real * interval;
    assert Snap(t, interval) == s;
    MulDiv(k as real, interval);
    assert s / interval == k as real;
    assert (k as real).Floor == k;
    DivMul(t, interval);
    var d := k as real - x;
    ScaleHalf(d, interval);
    assert d * interval == s - x * interval;
    assert x * interval == t;
    assert d * interval == s - t;
  }

  /** One note snapped to the grid: both ends snapped, the end pushed out to the minimum length. */
  function Quantize(note: RawNote, interval: real, minDuration: real): (q: RawNote)
    requires interval > 0.0
    ensures q.end - q.start >= minDuration
    ensures q.pitch == note.pitch && q.velocity == note.velocity && q.frequency == note.frequency
  {
    var start := Snap(note.start, interval);
    var end := Snap(note.end, interval);
    if end - start < minDuration then note.(start := start, end := start + minDuration)
    else note.(start := start, end := end)
  }

  /**
   * A quantised note starts on a multiple of the interval, within half an
   * interval of where it started, lasts at least the minimum, and keeps
   * its pitch, velocity and frequency.  Its end is the snapped end, itself
   * a multiple of the interval within half an interval of the old end,
   * unless that would leave the note shorter than the minimum: then it
   * ends exactly the minimum after its start.
   */
  lemma QuantizeRule(note: RawNote, interval: real, minDuration: real)
    requires interval > 0.0
    ensures (Quantize(note, interval, minDuration).start / interval).Floor as real
      == Quantize(note, interval, minDuration).start / interval
    ensures Distance(Quantize(note, interval, minDuration).start, note.start) <= interval / 2.0
    ensures Quantize(note, interval, minDuration).end - Quantize(note, interval, minDuration).start >= minDuration
    ensures Quantize(note, interval, minDuration).pitch == note.pitch
      && Quantize(note, interval, minDuration).velocity == note.velocity
      && Quantize(note, interval, minDuration).frequency == note.frequency
    ensures var q := Quantize(note, interval, minDuration);
      q.end == (if Snap(note.end, interval) - q.start < minDuration then q.start + minDuration else Snap(note.end, interval))
    ensures var q := Quantize(note, interval, minDuration);
      Snap(note.end, interval) - q.start >= minDuration ==>
        (q.end / interval).Floor as real == q.end / interval && Distance(q.end, note.end) <= interval / 2.0
  {
    SnapRule(note.start, interval);
    SnapRule(note.end, interval);
  }

  /** quantize_notes on values: nothing changes for a non-positive quantize_ms. */
  function QuantizeAll(notes: seq<RawNote>, quantizeMs: real, minDuration: real): (r: seq<RawNote>)
    ensures |r| == |notes|
    ensures quantizeMs <= 0.0 ==> r == notes
  {
    if quantizeMs <= 0.0 then notes
    else seq(|notes|, i requires 0 <= i < |notes| => Quantize(notes[i], quantizeMs / 1000.0, minDuration))
  }

  /**
   * After quantisation with a positive quantize_ms, note i is note i
   * snapped to the grid and lasts at least the minimum; its end is the
   * snapped end, or start plus the minimum when the snapped end is too close.
   */
  lemma QuantizeAllRule(notes: seq<RawNote>, quantizeMs: real, minDuration: real, i: nat)
    requires quantizeMs > 0.0 && i < |notes|
    ensures QuantizeAll(notes, quantizeMs, minDuration)[i].end - QuantizeAll(notes, quantizeMs, minDuration)[i].start >= minDuration
    ensures QuantizeAll(notes, quantizeMs, minDuration)[i].pitch == notes[i].pitch
    ensures Distance(QuantizeAll(notes, quantizeMs, minDuration)[i].start, notes[i].start) <= quantizeMs / 2000.0
    ensures var q := QuantizeAll(notes, quantizeMs, minDuration)[i]; var e := Snap(notes[i].end, quantizeMs / 1000.0);
      q.end == (if e - q.start < minDuration then q.start + minDuration else e)
    ensures var q := QuantizeAll(notes, quantizeMs, minDuration)[i]; var e := Snap(notes[i].end, quantizeMs / 1000.0);
      e - q.start >= minDuration ==> Distance(q.end, notes[i].end) <= quantizeMs / 2000.0
  {
    QuantizeRule(notes[i], quantizeMs / 1000.0, minDuration);
  }

  /** quantize_notes, which rewrites each note in place. */
  method QuantizeNotes(notes: array<RawNote>, quantizeMs: real, minDuration: real)
    modifies notes
    ensures notes[..] == QuantizeAll(old(notes[..]), quantizeMs, minDuration)
  {
    if quantizeMs <= 0.0 {
      return;
    }
    var interval := quantizeMs / 1000.0;
    var i := 0;
    while i < notes.Length
      invariant 0 <= i <= notes.Length
      invariant forall j :: 0 <= j < i ==> notes[j] == Quantize(old(notes[j]), interval, minDuration)
      invariant forall j :: i <= j < notes.Length ==> notes[j] == old(notes[j])
    {
      var note := notes[i];
      note := note.(start := Snap(note.start, interval));
      note := note.(end := Snap(note.end, interval));
      if note.end - note.start < minDuration {
        note := note.(end := note.start + minDuration);
      }
      notes[i] := note;
      i := i + 1;
    }
  }

  // ---------------------------------------------------------------------
  // Writing the MIDI file and the whole transcription
  // ---------------------------------------------------------------------

  const UnboundNoteMessage: string := "local variable 'note' referenced before assignment"

  /**
   * create_midi as written: its loop reads the loop-local `note` before the
   * loop ever assigns it, so the first note raises; only an empty list
   * gets through, with 0 notes written.
   */
  function CreateMidiAsWritten(notes: seq<RawNote>): (r: Result<nat, string>)
    ensures r.Success? <==> notes == []
    ensures r.Success? ==> r.value == 0
  {
    if notes == [] then Success(0) else Failure(UnboundNoteMessage)
  }

  /** create_midi as intended: every note is written from its own data and the count returned. */
  function CreateMidi(notes: seq<RawNote>): (r: Result<nat, string>)
    ensures r.Success? && r.value == |notes|
  {
    Success(|notes|)
  }

  datatype MidiWriter = WriterAsWritten | WriterCorrected

  function WriteMidi(writer: MidiWriter, notes: seq<RawNote>): Result<nat, string> {
    if writer == WriterAsWritten then CreateMidiAsWritten(notes) else CreateMidi(notes)
  }

  /** What onset and pitch detection found in the loaded audio. */
  datatype Detection = Detection(audioDuration: real, onsets: seq<real>, pitchTimes: seq<real>, frequencies: seq<real>)

  predicate WellFormed(d: Detection) {
    |d.pitchTimes| == |d.frequencies|
  }

  datatype TranscribeError = MissingDependencies | InputNotFound(path: string) | NoNotes | Raised(message: string)

  /** The statistics of a successful transcription, with the notes written. */
  datatype Transcription = Transcription(
    duration: real, numNotes: nat, noteDensity: real,
    onsetsDetected: nat, pitchDetected: nat, notes: seq<RawNote>)

  const DivisionByZeroMessage: string := "float division by zero"

  /**
   * transcribe: dependencies, then the input file, then (inside the catch-
   * all) detection, grouping, the empty check, quantisation, writing, and
   * the note density, which divides by the audio's duration.
   */
  function TranscribeSpec(settings: Settings, inputPath: string, dependenciesOk: bool, inputExists: bool,
                          detection: Result<Detection, string>, log2: real -> real, writer: MidiWriter)
    : (r: Result<Transcription, TranscribeError>)
    requires detection.Success? ==> WellFormed(detection.value)
    ensures !dependenciesOk ==> r == Failure(MissingDependencies)
    ensures dependenciesOk && !inputExists ==> r == Failure(InputNotFound(inputPath))
  {
    if !dependenciesOk then Failure(MissingDependencies)
    else if !inputExists then Failure(InputNotFound(inputPath))
    else match detection
      case Failure(e) => Failure(Raised(e))
      case Success(d) =>
        match GroupSpec(d.onsets, d.pitchTimes, d.frequencies, settings.minNoteDuration, log2)
        case Failure(e) => Failure(Raised(e))
        case Success(notes) =>
          if notes == [] then Failure(NoNotes)
          else
            var quantized := QuantizeAll(notes, settings.quantizeMs, settings.minNoteDuration);
            match WriteMidi(writer, quantized)
            case Failure(e) => Failure(Raised(e))
            case Success(numNotes) =>
              if d.audioDuration == 0.0 then Failure(Raised(DivisionByZeroMessage))
              else Success(Transcription(d.audioDuration, numNotes, Density(numNotes, d.audioDuration),
                                         |d.onsets|, |d.frequencies|, quantized))
  }

  /** The transcription pipeline, quantising the grouped notes in place. */
  method Transcribe(settings: Settings, inputPath: string, dependenciesOk: bool, inputExists: bool,
                    detection: Result<Detection, string>, log2: real -> real, writer: MidiWriter)
    returns (r: Result<Transcription, TranscribeError>)
    requires detection.Success? ==> WellFormed(detection.value)
    ensures r == TranscribeSpec(settings, inputPath, dependenciesOk, inputExists, detection, log2, writer)
  {
    if !dependenciesOk {
      return Failure(MissingDependencies);
    }
    if !inputExists {
      return Failure(InputNotFound(inputPath));
    }
    if detection.Failure? {
      return Failure(Raised(detection.error));
    }
    var d := detection.value;
    var grouped := GroupNotes(d.onsets, d.pitchTimes, d.frequencies, settings.minNoteDuration, log2);
    if grouped.Failure? {
      return Failure(Raised(grouped.error));
    }
    var notes := grouped.value;
    if notes == [] {
      return Failure(NoNotes);
    }
    var buffer := new RawNote[|notes|](i requires 0 <= i < |notes| => notes[i]);
    assert buffer[..] == notes;
    QuantizeNotes(buffer, settings.quantizeMs, settings.minNoteDuration);
    var quantized := buffer[..];
    var written := WriteMidi(writer, quantized);
    if written.Failure? {
      return Failure(Raised(written.error));
    }
    var numNotes := written.value;
    if d.audioDuration == 0.0 {
      return Failure(Raised(DivisionByZeroMessage));
    }
    r := Success(Transcription(d.audioDuration, numNotes, Density(numNotes, d.audioDuration),
                               |d.onsets|, |d.frequencies|, quantized));
  }

  /** As written, no transcription succeeds: whatever gets past the empty check fails in create_midi. */
  lemma TranscribeAsWrittenNeverSucceeds(settings: Settings, inputPath: string, dependenciesOk: bool, inputExists: bool,
                                         detection: Result<Detection, string>, log2: real -> real)
    requires detection.Success? ==> WellFormed(detection.value)
    ensures TranscribeSpec(settings, inputPath, dependenciesOk, inputExists, detection, log2, WriterAsWritten).Failure?
    ensures TranscribeSpec(settings, inputPath, dependenciesOk, inputExists, detection, log2, WriterCorrected).Success? ==>
      TranscribeSpec(settings, inputPath, dependenciesOk, inputExists, detection, log2, WriterAsWritten)
        == Failure(Raised(UnboundNoteMessage))
  {
  }

  /** Only a run with its dependencies, its input file and a detection can succeed. */
  lemma TranscribeSuccessNeeds(settings: Settings, inputPath: string, dependenciesOk: bool, inputExists: bool,
                               detection: Result<Detection, string>, log2: real -> real, writer: MidiWriter)
    requires detection.Success? ==> WellFormed(detection.value)
    requires TranscribeSpec(settings, inputPath, dependenciesOk, inputExists, detection, log2, writer).Success?
    ensures dependenciesOk && inputExists && detection.Success?
    ensures detection.value.audioDuration != 0.0
  {
  }

  /** Notes per second of audio. */
  function Density(numNotes: nat, duration: real): real
    requires duration != 0.0
  {
    numNotes as real / duration
  }

  /** A reported density times the audio's duration gives back the number of notes. */
  lemma DensityTimesDuration(t: Transcription)
    requires t.duration != 0.0 && t.noteDensity == Density(t.numNotes, t.duration)
    ensures t.noteDensity * t.duration == t.numNotes as real
  {
    DivMul(t.numNotes as real, t.duration);
  }

  /**
   * With the corrected writer, a successful transcription reports as many
   * notes as it wrote (at least one, at most one per onset), each as long
   * as the minimum, with a density of notes per second of audio.
   */
  lemma TranscribeSucceeds(settings: Settings, inputPath: string, d: Detection, log2: real -> real, t: Transcription)
    requires WellFormed(d)
    requires TranscribeSpec(settings, inputPath, true, true, Success(d), log2, WriterCorrected) == Success(t)
    ensures t.numNotes == |t.notes| >= 1
    ensures t.numNotes <= t.onsetsDetected
    ensures t.noteDensity * t.duration == t.numNotes as real
    ensures forall j :: 0 <= j < |t.notes| ==> t.notes[j].end - t.notes[j].start >= settings.minNoteDuration
  {
    assert |d.onsets| > 0 && |d.pitchTimes| > 0;
    var notes := Somes(Candidates(d.onsets, d.pitchTimes, d.frequencies, settings.minNoteDuration, log2));
    assert GroupSpec(d.onsets, d.pitchTimes, d.frequencies, settings.minNoteDuration, log2) == Success(notes);
    GroupedShape(d.onsets, d.pitchTimes, d.frequencies, settings.minNoteDuration, log2);
    var quantized := QuantizeAll(notes, settings.quantizeMs, settings.minNoteDuration);
    assert t == Transcription(d.audioDuration, |quantized|, Density(|quantized|, d.audioDuration),
                              |d.onsets|, |d.frequencies|, quantized);
    DensityTimesDuration(t);
    forall j | 0 <= j < |quantized|
      ensures quantized[j].end - quantized[j].start >= settings.minNoteDuration
    {
      if settings.quantizeMs > 0.0 {
        QuantizeAllRule(notes, settings.quantizeMs, settings.minNoteDuration, j);
      }
    }
  }

  /** With no onset or no note long enough, the transcription reports that no note was found. */
  lemma TranscribeNoNotes(settings: Settings, inputPath: string, detection: Detection, log2: real -> real, writer: MidiWriter)
    requires WellFormed(detection)
    requires |detection.onsets| == 0 || (|detection.pitchTimes| > 0 &&
      forall i :: 0 <= i < |detection.onsets| ==>
        OnsetNote(detection.onsets, i, detection.pitchTimes, detection.frequencies, settings.minNoteDuration, log2).None?)
    ensures TranscribeSpec(settings, inputPath, true, true, Success(detection), log2, writer) == Failure(NoNotes)
  {
    if |detection.onsets| > 0 {
      SomesNone(Candidates(detection.onsets, detection.pitchTimes, detection.frequencies, settings.minNoteDuration, log2));
    }
  }
}
