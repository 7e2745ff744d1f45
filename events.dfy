/** Observed interaction events and the rule, shared by the AI panel
    (components/AIPanel.tsx) and the summary route (app/api/summary/route.ts), that decides
    which of them are real user actions. */
module Events {
  import opened Common
  import opened Json

  /** The `type` property of an event as JavaScript sees it: absent, a string, or some other
      value (a number, an object) that is truthy or not and renders as `shown` in a template. */
  datatype Tag = NoTag | StrTag(name: string) | OtherTag(truthy: bool, shown: string)

  /** One captured event. `ident` stands for the object's identity (the source compares the
      latest event with `===`); `source` is the optional origin marker set by debugging tools. */
  datatype UserEvent = UserEvent(
    ident: nat,
    tag: Tag,
    source: Option<string>,
    data: Option<Data>,
    timestamp: int,
    elapsedTime: Option<int>)

  /** One turn of the conversation: `speaker` is "ai" or "user" as the panel records it. */
  datatype Message = Message(speaker: string, text: string, timestamp: int)

  const DevtoolsSource := "react-devtools-bridge"
  const QuestionAskedType := "question_asked"
  const RouteChangeType := "route_change"

  /** `if (e.type)`: JavaScript truthiness of the type property. */
  predicate TagTruthy(t: Tag)
  {
    match t
    case NoTag => false
    case StrTag(s) => s != ""
    case OtherTag(truthy, _) => truthy
  }

  /** `${e.type}` in a template string. */
  function TagText(t: Tag): string
  {
    match t
    case NoTag => "undefined"
    case StrTag(s) => s
    case OtherTag(_, shown) => shown
  }

  /** The filter both consumers apply: not sent by the devtools bridge, not a `question_asked`
      marker, and a type that is a non-empty string. */
  predicate IsRealUserEvent(e: UserEvent)
  {
    && e.source != Some(DevtoolsSource)
    && !(e.tag.StrTag? && e.tag.name == QuestionAskedType)
    && e.tag.StrTag? && |e.tag.name| > 0
  }

  /** `userEvents.filter(isReal)`, defined from the end so that appends are easy to follow. */
  function RealUserEvents(es: seq<UserEvent>): (r: seq<UserEvent>)
    ensures |r| <= |es|
    ensures forall i :: 0 <= i < |r| ==> IsRealUserEvent(r[i])
  {
    if |es| == 0 then []
    else RealUserEvents(es[..|es| - 1]) + (if IsRealUserEvent(es[|es| - 1]) then [es[|es| - 1]] else [])
  }

  /** Filtering distributes over concatenation: survivors keep their relative order. */
  lemma {:induction false} RealUserEventsAppend(a: seq<UserEvent>, b: seq<UserEvent>)
    ensures RealUserEvents(a + b) == RealUserEvents(a) + RealUserEvents(b)
  {
    if |b| == 0 {
      assert a + b == a;
    } else {
      var b' := b[..|b| - 1];
      assert (a + b)[..|a + b| - 1] == a + b';
      assert (a + b)[|a + b| - 1] == b[|b| - 1];
      RealUserEventsAppend(a, b');
    }
  }

  /** Exactly the real events of the log survive, and none of the others. */
  lemma {:induction false} RealUserEventsMembers(es: seq<UserEvent>, e: UserEvent)
    ensures e in RealUserEvents(es) <==> e in es && IsRealUserEvent(e)
  {
    if |es| > 0 {
      RealUserEventsMembers(es[..|es| - 1], e);
      assert es == es[..|es| - 1] + [es[|es| - 1]];
    }
  }

  /** The last survivor is the last real event of the log: every later event was dropped. */
  lemma {:induction false} LastRealUserEvent(es: seq<UserEvent>)
    requires |RealUserEvents(es)| > 0
    ensures exists j :: 0 <= j < |es| && es[j] == RealUserEvents(es)[|RealUserEvents(es)| - 1]
              && IsRealUserEvent(es[j]) && forall k :: j < k < |es| ==> !IsRealUserEvent(es[k])
  {
    var n := |es| - 1;
    if IsRealUserEvent(es[n]) {
      assert RealUserEvents(es)[|RealUserEvents(es)| - 1] == es[n];
    } else {
      assert RealUserEvents(es) == RealUserEvents(es[..n]);
      LastRealUserEvent(es[..n]);
      var j :| 0 <= j < n && es[..n][j] == RealUserEvents(es[..n])[|RealUserEvents(es[..n])| - 1]
                && IsRealUserEvent(es[..n][j]) && forall k :: j < k < n ==> !IsRealUserEvent(es[..n][k]);
      assert es[j] == es[..n][j];
      assert forall k :: j < k < n ==> es[k] == es[..n][k];
    }
  }

  /** The log has no real event exactly when the filter leaves nothing. */
  lemma {:induction false} NoRealUserEvents(es: seq<UserEvent>)
    ensures |RealUserEvents(es)| == 0 <==> forall k :: 0 <= k < |es| ==> !IsRealUserEvent(es[k])
  {
    if |RealUserEvents(es)| > 0 {
      LastRealUserEvent(es);
    } else {
      forall k | 0 <= k < |es| ensures !IsRealUserEvent(es[k]) {
        RealUserEventsMembers(es, es[k]);
      }
    }
  }
}
