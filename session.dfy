/** The session context the participant screens share: whether the run is active, the
    append-only event log and the start time (null until the intro is dismissed). */
module SessionContext {
  import opened Common
  import opened Json
  import opened Events

  class Session {
    var active: bool
    var events: seq<UserEvent>
    var startTime: Option<int>

    /** Each event's identity is the position at which it was appended, so no two events of
        the log are the same object. */
    ghost predicate Valid()
      reads this
    {
      forall i :: 0 <= i < |events| ==> events[i].ident == i
    }

    constructor ()
      ensures Valid()
      ensures !active && events == [] && startTime == None
    {
      active := false;
      events := [];
      startTime := None;
    }

    /** `setUserEvents(prev => [...prev, e])`: one new object at the end of the log. */
    method Append(tag: Tag, source: Option<string>, data: Option<Data>, timestamp: int, elapsedTime: Option<int>)
      returns (e: UserEvent)
      requires Valid()
      modifies this
      ensures Valid()
      ensures e == UserEvent(|old(events)|, tag, source, data, timestamp, elapsedTime)
      ensures events == old(events) + [e]
      ensures active == old(active) && startTime == old(startTime)
    {
      e := UserEvent(|events|, tag, source, data, timestamp, elapsedTime);
      events := events + [e];
    }

    /** `setSessionActive(b)`. */
    method SetActive(b: bool)
      requires Valid()
      modifies this
      ensures Valid()
      ensures active == b && events == old(events) && startTime == old(startTime)
    {
      active := b;
    }

    /** `setSessionStartTime(t)`. */
    method SetStartTime(t: Option<int>)
      requires Valid()
      modifies this
      ensures Valid()
      ensures startTime == t && active == old(active) && events == old(events)
    {
      startTime := t;
    }
  }
}
