/**
 * The audio host's transport as the front end sees it: a position in
 * seconds and a table of live scheduled callbacks, each identified by a
 * handle.  Scheduling hands out a fresh handle; clearing a handle removes
 * its callback, and clearing an unknown handle does nothing.  Sound
 * synthesis itself is not part of this model: a live entry records what
 * the callback would play (pitch, duration) and when.
 */
module ToneTransport {

  datatype ScheduledNote = ScheduledNote(at: real, midi: int, duration: real)

  class HostClock {
    var seconds: real
    var events: map<nat, ScheduledNote>
    var next: nat

    /** Every live handle was handed out before. */
    ghost predicate Valid()
      reads this
    {
      forall h :: h in events ==> h < next
    }

    constructor ()
      ensures Valid() && seconds == 0.0 && events == map[] && next == 0
    {
      seconds := 0.0;
      events := map[];
      next := 0;
    }

    /** Register a callback at absolute transport time `at`; the handle is fresh. */
    method Schedule(at: real, midi: int, duration: real) returns (h: nat)
      requires Valid()
      modifies this`events, this`next
      ensures Valid()
      ensures h == old(next) && next == old(next) + 1
      ensures events == old(events)[h := ScheduledNote(at, midi, duration)]
    {
      h := next;
      events := events[h := ScheduledNote(at, midi, duration)];
      next := next + 1;
    }

    /** Cancel a callback; nothing else is touched. */
    method Clear(h: nat)
      requires Valid()
      modifies this`events
      ensures Valid()
      ensures events == old(events) - {h}
    {
      events := events - {h};
    }

    /** Move the transport position. */
    method SetSeconds(t: real)
      modifies this`seconds
      ensures seconds == t
    {
      seconds := t;
    }
  }
}
