/** The assistant panel of components/AIPanel.tsx: it watches the session's event log,
    schedules one contextual question after the latest real user action, asks the chat route
    for it, records and speaks the answer, and answers the participant's own messages.

    React's scheduling is made explicit. `OnEventsChanged` is one run of the effect (React
    runs it, after its cleanup, whenever one of the event log, the session flag, the mute
    flag, the transcript, the assistant state or the walkthrough context has changed);
    `FireTimeout`, `AudioEnded`, `FallbackElapsed` and `GraceElapsed` are the timers and
    audio callbacks; `ReplyArrived` is the end of a chat request. A pending timeout
    remembers what its closure captured when it was scheduled. */
module AIPanel {
  import opened Common
  import opened Events
  import opened SessionContext
  import opened Orchestrator
  import opened ChatRoute

  datatype AIState = Idle | Listening | Speaking | Thinking

  /** The scheduled question timeout and what its closure captured. */
  datatype PendingQuestion = PendingQuestion(
    event: UserEvent,
    delay: nat,
    realEvents: seq<UserEvent>,
    transcript: seq<Message>,
    muted: bool,
    state: AIState)

  /** A chat request on its way: an automatic question, or an answer to the participant,
      with the mute flag of the render that sent it. */
  datatype Flight = Automatic | FromUser(muted: bool)

  /** What the chat request came back with: a failure (a network error, a non-OK status, an
      unreadable body) or a body whose `text` may be absent. */
  datatype ChatReply = Failed | Answered(text: Option<string>)

  /** The wait before asking: shorter after a navigation. */
  function QuestionDelay(e: UserEvent): (d: nat)
    ensures d == 2000 || d == 4000
    ensures d == 2000 <==> e.tag == StrTag(RouteChangeType)
  {
    if e.tag == StrTag(RouteChangeType) then 2000 else 4000
  }

  /** `transcript.map(msg => ({speaker, text}))`: the request's `messages`. */
  function Outgoing(ts: seq<Message>): seq<IncomingMessage>
  {
    seq(|ts|, i requires 0 <= i < |ts| => IncomingMessage(Some(ts[i].speaker), Some(ts[i].text), None))
  }

  /** The `context` of an automatic request. */
  function AutomaticContext(e: UserEvent): string
  {
    "The user just performed a " + TagText(e.tag) + " action. Generate a brief, contextual question about their experience."
  }

  /** What a scheduled question keeps consistent: it is for the last of the real events it
      captured, with the delay its type calls for. */
  predicate WellFormed(p: PendingQuestion)
  {
    && |p.realEvents| > 0
    && p.event == p.realEvents[|p.realEvents| - 1]
    && IsRealUserEvent(p.event)
    && p.delay == QuestionDelay(p.event)
  }

  /** The transcript reaches the chat route intact: when no line is empty, the route keeps
      every line in order, the participant's lines as user turns and the assistant's as
      assistant turns. */
  lemma {:induction false} TranscriptReachesRoute(ts: seq<Message>)
    requires forall i :: 0 <= i < |ts| ==> ts[i].text != ""
    ensures |Converted(Outgoing(ts))| == |ts|
    ensures forall i :: 0 <= i < |ts| ==>
              Converted(Outgoing(ts))[i] == ChatMessage(if ts[i].speaker == "user" then UserRole else Assistant, ts[i].text)
  {
    var ms := Outgoing(ts);
    assert forall i :: 0 <= i < |ms| ==> ContentOf(ms[i]) == ts[i].text;
    ConvertedKeepsAll(ms);
  }

  /** The chat route describes the scheduled event itself as the latest action, because the
      request's events end with it. */
  lemma AutomaticRequestDescribesEvent(p: PendingQuestion)
    requires WellFormed(p)
    ensures EventDescription(Some(p.realEvents))
            == "The user just performed a " + TagText(p.event.tag) + " action"
               + (if p.event.data.Some? then ": " + Json.Stringify(p.event.data.value) else "") + "."
  {
  }

  class Panel {
    const ctx: Session
    const audio: AudioSlot
    const testUrl: Option<string>
    const walkthroughContext: Option<string>
    /** `window.location.href`, used when no test URL is given. */
    const pageHref: string

    var aiState: AIState
    var isMuted: bool
    var transcript: seq<Message>
    var currentQuestion: string
    var lastEvent: Option<UserEvent>
    var pending: Option<PendingQuestion>
    /** Completion callbacks scheduled by the speech fallback timer. */
    var fallbacks: nat
    /** `setTimeout(() => setAIState('idle'), 2000)` timers not yet run. */
    var graceTimers: nat

    ghost predicate Valid()
      reads this, ctx
    {
      && ctx.Valid()
      && (pending.Some? ==> WellFormed(pending.value) && lastEvent == Some(pending.value.event))
    }

    constructor (ctx: Session, audio: AudioSlot, testUrl: Option<string>, walkthroughContext: Option<string>, pageHref: string)
      requires ctx.Valid()
      ensures Valid()
      ensures this.ctx == ctx && this.audio == audio && this.testUrl == testUrl
      ensures this.walkthroughContext == walkthroughContext && this.pageHref == pageHref
      ensures aiState == Idle && !isMuted && transcript == [] && currentQuestion == ""
      ensures lastEvent == None && pending == None && fallbacks == 0 && graceTimers == 0
    {
      this.ctx := ctx;
      this.audio := audio;
      this.testUrl := testUrl;
      this.walkthroughContext := walkthroughContext;
      this.pageHref := pageHref;
      aiState := Idle;
      isMuted := false;
      transcript := [];
      currentQuestion := "";
      lastEvent := None;
      pending := None;
      fallbacks := 0;
      graceTimers := 0;
    }

    /** `testUrl || window.location.href`. */
    function RequestUrl(): string
    {
      if Truthy(testUrl) then testUrl.value else pageHref
    }

    /** The body of the automatic request a scheduled question sends. */
    function AutomaticRequest(p: PendingQuestion): ChatBody
    {
      ChatBody(Some(Outgoing(p.transcript)), Some(p.realEvents), Some(RequestUrl()),
               Some(AutomaticContext(p.event)), walkthroughContext)
    }

    /** One run of the effect, preceded by the cleanup of the previous run. The pending
        timeout is always cleared; a new one is set only when the session is active and the
        last real event differs from the last one processed, which it then becomes. */
    method OnEventsChanged()
      requires Valid()
      modifies this
      ensures Valid()
      ensures var r := RealUserEvents(ctx.events);
              && (!ctx.active || |r| == 0 ==> pending == None && lastEvent == old(lastEvent))
              && (ctx.active && |r| > 0 && old(lastEvent) == Some(r[|r| - 1]) ==> pending == None && lastEvent == old(lastEvent))
              && (ctx.active && |r| > 0 && old(lastEvent) != Some(r[|r| - 1]) ==>
                    && lastEvent == Some(r[|r| - 1])
                    && pending == Some(PendingQuestion(r[|r| - 1], QuestionDelay(r[|r| - 1]), r, transcript, isMuted, aiState)))
      ensures aiState == old(aiState) && isMuted == old(isMuted) && transcript == old(transcript)
      ensures currentQuestion == old(currentQuestion) && fallbacks == old(fallbacks) && graceTimers == old(graceTimers)
    {
      pending := None;
      if !ctx.active || |ctx.events| == 0 {
        return;
      }
      var realUserEvents := RealUserEvents(ctx.events);
      if |realUserEvents| == 0 {
        return;
      }
      var latestEvent := realUserEvents[|realUserEvents| - 1];
      if Some(latestEvent) == lastEvent {
        return;
      }
      lastEvent := Some(latestEvent);
      var delay := if latestEvent.tag == StrTag(RouteChangeType) then 2000 else 4000;
      pending := Some(PendingQuestion(latestEvent, delay, realUserEvents, transcript, isMuted, aiState));
    }

    /** The question timeout fires. With the captured mute flag set, or while the captured
        state was speaking, nothing happens; otherwise the state becomes thinking and the
        automatic request is sent. */
    method FireTimeout() returns (request: Option<ChatBody>, flight: Option<Flight>)
      requires Valid() && pending.Some?
      modifies this
      ensures Valid()
      ensures pending == None && lastEvent == old(lastEvent)
      ensures var p := old(pending.value);
              && (p.muted || p.state == Speaking ==> request == None && flight == None && aiState == old(aiState))
              && (!(p.muted || p.state == Speaking) ==>
                    request == Some(AutomaticRequest(p)) && flight == Some(Automatic) && aiState == Thinking)
      ensures isMuted == old(isMuted) && transcript == old(transcript) && currentQuestion == old(currentQuestion)
      ensures fallbacks == old(fallbacks) && graceTimers == old(graceTimers)
    {
      var p := pending.value;
      pending := None;
      if p.muted || p.state == Speaking {
        return None, None;
      }
      aiState := Thinking;
      request := Some(AutomaticRequest(p));
      flight := Some(Automatic);
    }

    /** `handleAIResponse`: the text becomes the current question, one assistant line and one
        `question_asked` marker are appended, and the text is spoken unless muted. */
    method HandleAIResponse(text: string, muted: bool, now: int, playback: PlaybackStart)
      requires Valid()
      modifies this, ctx, audio
      ensures Valid()
      ensures currentQuestion == text
      ensures transcript == old(transcript) + [Message("ai", text, now)]
      ensures |ctx.events| == |old(ctx.events)| + 1 && ctx.events[..|old(ctx.events)|] == old(ctx.events)
      ensures ctx.events[|ctx.events| - 1]
              == UserEvent(|old(ctx.events)|, StrTag(QuestionAskedType), None, None, now,
                           Some(now - (if ctx.startTime.Some? && ctx.startTime.value != 0 then ctx.startTime.value else now)))
      ensures ctx.active == old(ctx.active) && ctx.startTime == old(ctx.startTime)
      ensures muted ==> aiState == Idle && audio.current == old(audio.current) && fallbacks == old(fallbacks)
      ensures !muted ==> aiState == Speaking
      ensures !muted && playback.Playing? ==> audio.current == Some(playback.handle) && fallbacks == old(fallbacks)
      ensures !muted && playback.StartFailed? ==> audio.current == None && fallbacks == old(fallbacks) + 1
      ensures isMuted == old(isMuted) && lastEvent == old(lastEvent) && pending == old(pending) && graceTimers == old(graceTimers)
    {
      currentQuestion := text;
      transcript := transcript + [Message("ai", text, now)];
      var start := if ctx.startTime.Some? && ctx.startTime.value != 0 then ctx.startTime.value else now;
      var _ := ctx.Append(StrTag(QuestionAskedType), None, None, now, Some(now - start));
      if !muted {
        aiState := Speaking;
        var _, scheduled := audio.SpeakText(false, playback);
        if scheduled {
          fallbacks := fallbacks + 1;
        }
      } else {
        aiState := Idle;
      }
    }

    /** A chat request ends. A failure returns to idle; a text is handled as the assistant's
        turn with the mute flag its sender saw (false for an automatic request, which is only
        sent unmuted). A reply without text returns an automatic request to idle and leaves
        an answer to the participant as it was. */
    method ReplyArrived(flight: Flight, reply: ChatReply, now: int, playback: PlaybackStart)
      requires Valid()
      modifies this, ctx, audio
      ensures Valid()
      ensures reply.Failed? ==> aiState == Idle && transcript == old(transcript) && ctx.events == old(ctx.events)
      ensures reply.Answered? && !Truthy(reply.text) && flight.Automatic? ==>
                aiState == Idle && transcript == old(transcript) && ctx.events == old(ctx.events)
      ensures reply.Answered? && !Truthy(reply.text) && flight.FromUser? ==>
                aiState == old(aiState) && transcript == old(transcript) && ctx.events == old(ctx.events)
      ensures reply.Answered? && Truthy(reply.text) ==>
                && transcript == old(transcript) + [Message("ai", reply.text.value, now)]
                && |ctx.events| == |old(ctx.events)| + 1
                && ctx.events[|ctx.events| - 1].tag == StrTag(QuestionAskedType)
                && aiState == (if flight.FromUser? && flight.muted then Idle else Speaking)
      ensures isMuted == old(isMuted) && lastEvent == old(lastEvent) && pending == old(pending)
    {
      match reply
      case Failed =>
        aiState := Idle;
      case Answered(text) =>
        if Truthy(text) {
          var muted := if flight.FromUser? then flight.muted else false;
          HandleAIResponse(text.value, muted, now, playback);
        } else if flight.Automatic? {
          aiState := Idle;
        }
    }

    /** The completion callback: listening, with the return to idle scheduled. */
    method Complete()
      modifies this
      ensures aiState == Listening && graceTimers == old(graceTimers) + 1
      ensures isMuted == old(isMuted) && transcript == old(transcript) && currentQuestion == old(currentQuestion)
      ensures lastEvent == old(lastEvent) && pending == old(pending) && fallbacks == old(fallbacks)
    {
      aiState := Listening;
      graceTimers := graceTimers + 1;
    }

    /** The playing element ends (or reports an error): the slot is cleared and the
        completion callback runs. */
    method AudioEnded()
      requires Valid() && audio.current.Some?
      modifies this, audio
      ensures Valid()
      ensures audio.current == None
      ensures aiState == Listening && graceTimers == old(graceTimers) + 1
      ensures isMuted == old(isMuted) && transcript == old(transcript) && currentQuestion == old(currentQuestion)
      ensures lastEvent == old(lastEvent) && pending == old(pending) && fallbacks == old(fallbacks)
    {
      var _ := audio.PlaybackEnded();
      Complete();
    }

    /** The fallback timer of a failed playback runs the completion callback. */
    method FallbackElapsed()
      requires Valid() && fallbacks > 0
      modifies this
      ensures Valid()
      ensures fallbacks == old(fallbacks) - 1
      ensures aiState == Listening && graceTimers == old(graceTimers) + 1
      ensures isMuted == old(isMuted) && transcript == old(transcript) && currentQuestion == old(currentQuestion)
      ensures lastEvent == old(lastEvent) && pending == old(pending)
    {
      fallbacks := fallbacks - 1;
      Complete();
    }

    /** The two-second timer after listening: back to idle, whatever the state is by then. */
    method GraceElapsed()
      requires Valid() && graceTimers > 0
      modifies this
      ensures Valid()
      ensures aiState == Idle && graceTimers == old(graceTimers) - 1
      ensures isMuted == old(isMuted) && transcript == old(transcript) && currentQuestion == old(currentQuestion)
      ensures lastEvent == old(lastEvent) && pending == old(pending) && fallbacks == old(fallbacks)
    {
      graceTimers := graceTimers - 1;
      aiState := Idle;
    }

    /** `handleMuteToggle`: the flag flips; muting also forces idle, unmuting leaves the
        state alone. Playing audio is not stopped. */
    method ToggleMute()
      requires Valid()
      modifies this
      ensures Valid()
      ensures isMuted == !old(isMuted)
      ensures old(isMuted) ==> aiState == old(aiState)
      ensures !old(isMuted) ==> aiState == Idle
      ensures transcript == old(transcript) && currentQuestion == old(currentQuestion)
      ensures lastEvent == old(lastEvent) && pending == old(pending)
      ensures fallbacks == old(fallbacks) && graceTimers == old(graceTimers)
    {
      var wasMuted := isMuted;
      isMuted := !wasMuted;
      if !wasMuted {
        aiState := Idle;
      }
    }

    /** `handleUserMessage`: the participant's line is appended, the state becomes thinking,
        and the whole transcript, the unfiltered log and no automatic context are sent. */
    method HandleUserMessage(message: string, now: int) returns (request: ChatBody, flight: Flight)
      requires Valid()
      modifies this
      ensures Valid()
      ensures transcript == old(transcript) + [Message("user", message, now)]
      ensures aiState == Thinking
      ensures request == ChatBody(Some(Outgoing(transcript)), Some(ctx.events), Some(RequestUrl()), None, walkthroughContext)
      ensures flight == FromUser(isMuted)
      ensures isMuted == old(isMuted) && currentQuestion == old(currentQuestion)
      ensures lastEvent == old(lastEvent) && pending == old(pending)
      ensures fallbacks == old(fallbacks) && graceTimers == old(graceTimers)
    {
      var updatedTranscript := transcript + [Message("user", message, now)];
      transcript := updatedTranscript;
      aiState := Thinking;
      request := ChatBody(Some(Outgoing(updatedTranscript)), Some(ctx.events), Some(RequestUrl()), None, walkthroughContext);
      flight := FromUser(isMuted);
    }

    /** The final cleanup when the panel goes away: the timeout is cleared. */
    method Unmount()
      requires Valid()
      modifies this
      ensures Valid()
      ensures pending == None
      ensures aiState == old(aiState) && isMuted == old(isMuted) && transcript == old(transcript)
      ensures lastEvent == old(lastEvent) && fallbacks == old(fallbacks) && graceTimers == old(graceTimers)
    {
      pending := None;
    }
  }

  /** The filter keeps a real event that ends the log as its last survivor. */
  lemma LastSurvivor(es: seq<UserEvent>, e: UserEvent)
    requires IsRealUserEvent(e)
    ensures RealUserEvents(es + [e]) == RealUserEvents(es) + [e]
  {
    assert (es + [e])[..|es|] == es;
  }

  /** Two clicks in a row: the second run of the effect replaces the first click's timeout,
      so the one question left to fire is about the second click and carries the filtered
      log ending with it. */
  method TwoClicksOneQuestion() returns (first: UserEvent, second: UserEvent, scheduled: Option<PendingQuestion>)
    ensures first != second
    ensures scheduled == Some(PendingQuestion(second, 4000, RealUserEvents([first]) + [second], [], false, Idle))
  {
    var ctx := new Session();
    ctx.SetActive(true);
    var audio := new AudioSlot();
    var panel := new Panel(ctx, audio, None, None, "");
    first := ctx.Append(StrTag("click"), None, None, 1000, Some(1000));
    LastSurvivor([], first);
    assert ctx.events == [] + [first];
    panel.OnEventsChanged();
    assert panel.lastEvent == Some(first);
    second := ctx.Append(StrTag("click"), None, None, 1500, Some(1500));
    LastSurvivor([first], second);
    assert ctx.events == [first] + [second];
    panel.OnEventsChanged();
    assert panel.lastEvent == Some(second);
    scheduled := panel.pending;
  }

  /** A run of the effect with the latest event unchanged leaves nothing pending, so a
      timeout cancelled by a cleanup is not set again for the same event. */
  method RerunCancels() returns (pendingAfter: Option<PendingQuestion>, scheduled: bool)
    ensures scheduled && pendingAfter == None
  {
    var ctx := new Session();
    ctx.SetActive(true);
    var audio := new AudioSlot();
    var panel := new Panel(ctx, audio, None, None, "");
    var e := ctx.Append(StrTag("click"), None, None, 10, Some(10));
    LastSurvivor([], e);
    assert ctx.events == [] + [e];
    panel.OnEventsChanged();
    assert panel.lastEvent == Some(e);
    scheduled := panel.pending.Some?;
    panel.ToggleMute();
    panel.OnEventsChanged();
    pendingAfter := panel.pending;
  }

  /** An unmuted answer that plays to the end goes speaking, listening, idle. */
  method SpokenAnswerCycle() returns (states: seq<AIState>)
    ensures states == [Speaking, Listening, Idle]
  {
    var ctx := new Session();
    var audio := new AudioSlot();
    var panel := new Panel(ctx, audio, None, None, "");
    panel.HandleAIResponse("What did you expect?", false, 5000, Playing(7));
    states := [panel.aiState];
    panel.AudioEnded();
    states := states + [panel.aiState];
    panel.GraceElapsed();
    states := states + [panel.aiState];
  }
}
