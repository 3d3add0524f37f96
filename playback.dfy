/**
 * The playback transport of the front end: whether playback runs, the
 * published position, the duration, and the two anchors the per-frame
 * update extrapolates from (the audio-clock time when playback was last
 * anchored, and the position at that moment).  The audio clock reading
 * is passed in as `now`; the host transport's own position is the
 * `seconds` of a shared HostClock.
 */
module Playback {
  import opened Common
  import opened NoteData
  import opened ToneTransport

  /** `midiData.duration || 10`. */
  function LoadedDuration(d: MidiData): (r: real)
    ensures d.duration != 0.0 ==> r == d.duration
    ensures d.duration == 0.0 ==> r == 10.0
  {
    if d.duration == 0.0 then 10.0 else d.duration
  }

  /** The position a frame publishes: extrapolated from the anchors, capped at the duration. */
  function FramePosition(pausedTime: real, startTime: real, now: real, duration: real): (p: real)
    ensures p <= duration
    ensures pausedTime + (now - startTime) <= duration ==> p == pausedTime + (now - startTime)
    ensures pausedTime + (now - startTime) > duration ==> p == duration
  {
    Min(pausedTime + (now - startTime), duration)
  }

  /** Between seeks, the published position never moves backwards as the audio clock advances. */
  lemma FramePositionMonotonic(pausedTime: real, startTime: real, now1: real, now2: real, duration: real)
    requires now1 <= now2
    ensures FramePosition(pausedTime, startTime, now1, duration) <= FramePosition(pausedTime, startTime, now2, duration)
  {
  }

  class Transport {
    var isPlaying: bool
    var currentTime: real
    var duration: real
    var startTime: real        // audio-clock time of the last anchoring
    var pausedTime: real       // position at the last anchoring
    var framePending: bool     // an animation frame is requested
    const clock: HostClock

    constructor (clock: HostClock)
      ensures this.clock == clock
      ensures !isPlaying && currentTime == 0.0 && duration == 0.0
      ensures startTime == 0.0 && pausedTime == 0.0 && !framePending
    {
      this.clock := clock;
      isPlaying := false;
      currentTime := 0.0;
      duration := 0.0;
      startTime := 0.0;
      pausedTime := 0.0;
      framePending := false;
    }

    /**
     * New MIDI data: the duration becomes `duration || 10` and the playhead
     * returns to 0 (the host transport too); clearing the data also stops.
     */
    method Load(midi: Option<MidiData>)
      modifies this`duration, this`currentTime, this`pausedTime, this`isPlaying, clock`seconds
      ensures currentTime == 0.0 && pausedTime == 0.0
      ensures midi.Some? ==> duration == LoadedDuration(midi.value) && isPlaying == old(isPlaying) && clock.seconds == 0.0
      ensures midi.None? ==> duration == 0.0 && !isPlaying && clock.seconds == old(clock.seconds)
      ensures startTime == old(startTime) && framePending == old(framePending)
    {
      if midi.Some? {
        duration := LoadedDuration(midi.value);
        currentTime := 0.0;
        pausedTime := 0.0;
        clock.SetSeconds(0.0);
      } else {
        duration := 0.0;
        currentTime := 0.0;
        pausedTime := 0.0;
        isPlaying := false;
      }
    }

    /**
     * updateCurrentTime, one animation frame: while playing, publish the
     * extrapolated position (never beyond the duration) and ask for another
     * frame; on reaching the duration, stop and rewind to 0.  When not
     * playing, the frame does nothing and asks for no further frame.
     */
    method Tick(now: real)
      modifies this`currentTime, this`isPlaying, this`pausedTime, this`framePending
      ensures !old(isPlaying) ==>
        !framePending && isPlaying == old(isPlaying) && currentTime == old(currentTime) && pausedTime == old(pausedTime)
      ensures old(isPlaying) ==>
        var p := FramePosition(old(pausedTime), startTime, now, duration);
        if p < duration then
          isPlaying && currentTime == p && pausedTime == old(pausedTime) && framePending
        else
          !isPlaying && currentTime == 0.0 && pausedTime == 0.0 && !framePending
    {
      if isPlaying {
        var newTime := FramePosition(pausedTime, startTime, now, duration);
        currentTime := newTime;
        if newTime < duration {
          framePending := true;
        } else {
          isPlaying := false;
          currentTime := 0.0;
          pausedTime := 0.0;
          framePending := false;
        }
      } else {
        framePending := false;
      }
    }

    /**
     * The start/stop effect, run after isPlaying (or the frame callback,
     * which depends on the duration) changes: when playing, re-anchor the
     * start time at `now` and run a frame at once; otherwise cancel the
     * pending frame.
     */
    method OnPlayingChanged(now: real)
      modifies this`startTime, this`currentTime, this`isPlaying, this`pausedTime, this`framePending
      ensures old(isPlaying) ==> startTime == now
      ensures old(isPlaying) ==>
        var p := FramePosition(old(pausedTime), now, now, duration);
        if p < duration then isPlaying && currentTime == p && pausedTime == old(pausedTime) && framePending
        else !isPlaying && currentTime == 0.0 && pausedTime == 0.0 && !framePending
      ensures !old(isPlaying) ==>
        !framePending && startTime == old(startTime) && currentTime == old(currentTime)
        && pausedTime == old(pausedTime) && !isPlaying
    {
      if isPlaying {
        startTime := now;
        Tick(now);
      } else {
        framePending := false;
      }
    }

    /**
     * play: once the audio context runs (`audioReady`; otherwise the error is
     * caught and nothing changes), move the host transport to the current
     * position, anchor (now, currentTime) and start playing.
     */
    method Play(now: real, audioReady: bool)
      modifies this`startTime, this`pausedTime, this`isPlaying, clock`seconds
      ensures !audioReady ==> unchanged(this) && unchanged(clock)
      ensures audioReady ==>
        isPlaying && startTime == now && pausedTime == currentTime && clock.seconds == currentTime
    {
      if !audioReady {
        return;
      }
      clock.SetSeconds(currentTime);
      startTime := now;
      pausedTime := currentTime;
      isPlaying := true;
    }

    /** pause: stop and remember the position; the position itself is kept. */
    method Pause()
      modifies this`isPlaying, this`pausedTime
      ensures !isPlaying && pausedTime == currentTime
    {
      isPlaying := false;
      pausedTime := currentTime;
    }

    /** stop: from any state, stop and rewind to 0. */
    method Stop()
      modifies this`isPlaying, this`currentTime, this`pausedTime
      ensures !isPlaying && currentTime == 0.0 && pausedTime == 0.0
    {
      isPlaying := false;
      currentTime := 0.0;
      pausedTime := 0.0;
    }

    /** seek: jump to t, unclamped; the start-time anchor is left as it was, even while playing. */
    method Seek(t: real)
      modifies this`currentTime, this`pausedTime, clock`seconds
      ensures currentTime == t && pausedTime == t && clock.seconds == t
    {
      currentTime := t;
      pausedTime := t;
      clock.SetSeconds(t);
    }
  }

  /**
   * Playing from 0 a piece of duration 2: the position follows the audio
   * clock, and the frame at or after the end stops and rewinds.
   */
  method PlayToEndScenario()
  {
    var clock := new HostClock();
    var t := new Transport(clock);
    var piano := Track("Piano", [MidiNote(60, 0.0, 1.0, 80), MidiNote(64, 1.0, 1.0, 80)], None);
    t.Load(Some(MidiData(2.0, [piano], Some(120.0), Some(480))));
    assert t.duration == 2.0;
    t.Play(100.0, true);
    t.OnPlayingChanged(100.0);
    assert t.isPlaying && t.currentTime == 0.0;
    t.Tick(100.5);
    assert t.isPlaying && t.currentTime == 0.5;
    t.Tick(101.5);
    assert t.isPlaying && t.currentTime == 1.5;
    t.Tick(102.5);
    assert !t.isPlaying && t.currentTime == 0.0 && !t.framePending;
    t.Tick(103.0);
    assert !t.isPlaying && !t.framePending;
  }

  /** A seek while playing keeps the old start anchor, so the next frame adds the time elapsed since play. */
  method SeekWhilePlayingScenario()
  {
    var clock := new HostClock();
    var t := new Transport(clock);
    t.Load(Some(MidiData(0.0, [], Some(120.0), Some(480))));
    assert t.duration == 10.0;
    t.Play(0.0, true);
    t.OnPlayingChanged(0.0);
    t.Tick(2.0);
    assert t.currentTime == 2.0;
    t.Seek(5.0);
    t.Tick(3.0);
    assert t.currentTime == 8.0;
    t.Pause();
    t.OnPlayingChanged(4.0);
    assert t.currentTime == 8.0 && t.pausedTime == 8.0 && !t.framePending;
  }
}
