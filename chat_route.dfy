/** The chat route of app/api/chat/route.ts: it validates the request, builds a system prompt
    and a closing context message from the tested site and the recent events, converts the
    conversation to chat-completion roles and relays the completion. The completion service
    is a parameter: its outcome is passed in, and the messages that would be sent are
    returned so that their shape can be stated. */
module ChatRoute {
  import opened Common
  import opened Json
  import opened Events
  import opened Url
  import DemoConfig

  /** One element of the request's `messages` array: a speaker and a text, or a `content`
      field in its place. Non-string or missing values are None. */
  datatype IncomingMessage = IncomingMessage(speaker: Option<string>, text: Option<string>, content: Option<string>)

  /** The parsed request body. A `messages` value that is missing or not an array is None. */
  datatype ChatBody = ChatBody(
    messages: Option<seq<IncomingMessage>>,
    userEvents: Option<seq<UserEvent>>,
    testUrl: Option<string>,
    context: Option<string>,
    walkthroughContext: Option<string>)

  datatype Role = System | UserRole | Assistant

  datatype ChatMessage = ChatMessage(role: Role, content: string)

  /** What came of the completion request: the request threw, the service answered with a
      non-OK status, or it answered with a body whose first choice may carry a text. */
  datatype Completion = Rejected | NotOk(status: int) | Completed(content: Option<string>)

  datatype ChatResponse = Reply(text: string) | Failure(status: int, error: string)

  const MessagesRequired := "Messages array is required"
  const KeyMissing := "OPENAI_API_KEY not configured"
  const UpstreamFailed := "Failed to generate response"
  const NoResponse := "No response generated"
  const InternalError := "Internal server error"

  const DefaultDomain := "the website"
  const NoRecentActions := "No recent user actions."
  const RecentActionsHeading := "Recent user actions:\n"
  const ExploringDescription := "The user is exploring the website."
  const SiteContextHeading := "\n\nSite-specific context to reference:\n"
  const AdditionalContextHeading := "\n\nAdditional context: "
  const ReferenceHeading := "\n\nReference walkthrough details:\n"

  const SystemPromptHead: string := @"You are Ava, a friendly and empathetic UX research assistant conducting a usability test. You're helping a user test "
  const SystemPromptMiddle: string := @".

Your role:
- Ask thoughtful, non-intrusive questions about their experience
- Wait for natural pauses before speaking (3-5 seconds after actions)
- Be curious and non-judgmental
- Keep responses concise (1-2 sentences)
- Focus on understanding their experience, not testing them

Context about the test:
"
  const SystemPromptTail: string := @"

Guidelines:
- If the user just performed an action (click, navigation, etc.), ask about their expectations or experience
- If they're speaking to you, respond naturally to what they said
- Don't ask too many questions in a row - let them explore
- Be conversational and warm, not robotic
- If they seem stuck or confused, offer gentle guidance



"

  const ContextHead := "You are conducting a usability test for "
  const ContextMiddle: string := "\n\n" + ContextObserving + "\n\nRecent user actions:\n"
  const ContextObserving :=
    "The user is performing usability testing - they're exploring and interacting with the website while you observe and ask questions."
  const ContextTail := ", what should your ideal response be?"

  /** The tested site's name in the prompts: the parsed hostname with its first `www.`
      removed, or "the website" when there is no URL or it does not parse. */
  function Domain(testUrl: Option<string>, parse: Parser): string
  {
    if Truthy(testUrl) then
      match parse(testUrl.value)
      case Some(u) => ReplaceFirst(u.hostname, "www.", "")
      case None => DefaultDomain
    else DefaultDomain
  }

  lemma DomainCases(testUrl: Option<string>, parse: Parser)
    ensures !Truthy(testUrl) ==> Domain(testUrl, parse) == DefaultDomain
    ensures Truthy(testUrl) && parse(testUrl.value).None? ==> Domain(testUrl, parse) == DefaultDomain
    ensures Truthy(testUrl) && parse(testUrl.value).Some? ==>
              var h := parse(testUrl.value).value.hostname;
              && (!Contains(h, "www.") ==> Domain(testUrl, parse) == h)
              && (Contains(h, "www.") ==>
                    exists i :: OccursAt(h, "www.", i) && (forall j :: 0 <= j < i ==> !OccursAt(h, "www.", j))
                                && Domain(testUrl, parse) == h[..i] + h[i + 4..])
  {
    if Truthy(testUrl) && parse(testUrl.value).Some? {
      ReplaceFirstSpec(parse(testUrl.value).value.hostname, "www.", "");
    }
  }

  /** `userEvents?.slice(-10) || []`: the last ten events, or all of them when there are fewer. */
  function RecentEvents(userEvents: Option<seq<UserEvent>>): (r: seq<UserEvent>)
    ensures userEvents.None? ==> r == []
    ensures userEvents.Some? ==> |r| == (if |userEvents.value| <= 10 then |userEvents.value| else 10)
    ensures userEvents.Some? ==> r == userEvents.value[|userEvents.value| - |r|..]
  {
    match userEvents
    case None => []
    case Some(es) => if |es| <= 10 then es else es[|es| - 10..]
  }

  /** `- ${e.type}: ${JSON.stringify(e.data || {})}`. */
  function EventLine(e: UserEvent): string
  {
    "- " + TagText(e.tag) + ": " + Stringify(if e.data.Some? then e.data.value else EmptyObject)
  }

  /** The event digest placed in both prompts. */
  function EventSummary(recent: seq<UserEvent>): string
  {
    if |recent| > 0 then RecentActionsHeading + Join(seq(|recent|, i requires 0 <= i < |recent| => EventLine(recent[i])), "\n")
    else NoRecentActions
  }

  /** The digest reads "No recent user actions." exactly when there are no events, and
      otherwise starts with its heading. */
  lemma EventSummaryCases(recent: seq<UserEvent>)
    ensures EventSummary(recent) == NoRecentActions <==> |recent| == 0
    ensures |recent| > 0 ==> StartsWith(EventSummary(recent), RecentActionsHeading)
  {
    if |recent| > 0 {
      assert EventSummary(recent)[0] == 'R' != NoRecentActions[0];
    }
  }

  /** The sentence about the latest event in the context message. */
  function EventDescription(userEvents: Option<seq<UserEvent>>): string
  {
    if userEvents.Some? && |userEvents.value| > 0 then
      var e := userEvents.value[|userEvents.value| - 1];
      "The user just performed a " + TagText(e.tag) + " action"
        + (if e.data.Some? then ": " + Stringify(e.data.value) else "") + "."
    else ExploringDescription
  }

  /** The walkthrough context the prompts use, None when it is falsy: an explicit non-empty
      value wins; otherwise the demo configuration's for the tested URL, if it has one. */
  function ResolveWalkthrough(explicit: Option<string>, testUrl: Option<string>, parse: Parser): (r: Option<string>)
    ensures Truthy(explicit) ==> r == explicit
    ensures !Truthy(explicit) ==> (r.Some? <==> Truthy(testUrl) && DemoConfig.GetDemoConfig(testUrl, parse).Some?)
    ensures !Truthy(explicit) && r.Some? ==> r.value == DemoConfig.TrendsWalkthrough
    ensures r.Some? ==> r.value != ""
  {
    if Truthy(explicit) then explicit
    else if Truthy(testUrl) then
      match DemoConfig.GetDemoConfig(testUrl, parse)
      case Some(c) => if c.walkthroughContext != "" then Some(c.walkthroughContext) else None
      case None => None
    else None
  }

  /** The system prompt's template: the site's name and the event digest in the fixed text. */
  function PromptBase(domain: string, summary: string): string
  {
    SystemPromptHead + domain + SystemPromptMiddle + summary + SystemPromptTail
  }

  /** The system prompt with the walkthrough and the additional context appended when set. */
  function SystemPromptText(domain: string, summary: string, walkthrough: Option<string>, context: Option<string>): string
  {
    var p := PromptBase(domain, summary);
    var p' := if walkthrough.Some? then p + SiteContextHeading + walkthrough.value else p;
    if Truthy(context) then p' + AdditionalContextHeading + context.value else p'
  }

  /** The context message's template: the site, the latest event, the digest and the closing
      question. */
  function ContextBase(domain: string, description: string, summary: string): string
  {
    ContextOpening(domain) + description + ContextMiddle + summary + ContextClosing(domain)
  }

  function ContextOpening(domain: string): string
  {
    ContextHead + domain + ". "
  }

  function ContextClosing(domain: string): string
  {
    "\n\nAs a usability testing agent for " + domain + ContextTail
  }

  function ContextMessageText(domain: string, description: string, summary: string, walkthrough: Option<string>): string
  {
    var c := ContextBase(domain, description, summary);
    if walkthrough.Some? then c + ReferenceHeading + walkthrough.value else c
  }

  /** `user` is the user role; `ai`, `assistant` and every unrecognised speaker are the assistant. */
  function RoleFor(speaker: Option<string>): (r: Role)
    ensures r != System
    ensures r == UserRole <==> speaker == Some("user")
  {
    if speaker == Some("user") then UserRole else Assistant
  }

  /** `msg.text || msg.content || ''`. */
  function ContentOf(m: IncomingMessage): (c: string)
    ensures c != "" <==> Truthy(m.text) || Truthy(m.content)
    ensures Truthy(m.text) ==> c == m.text.value
  {
    if Truthy(m.text) then m.text.value else if Truthy(m.content) then m.content.value else ""
  }

  /** The conversation in chat-completion form: messages with empty content are skipped. */
  function Converted(ms: seq<IncomingMessage>): (r: seq<ChatMessage>)
    ensures |r| <= |ms|
    ensures forall i :: 0 <= i < |r| ==> r[i].role != System && r[i].content != ""
  {
    if |ms| == 0 then []
    else
      var m := ms[|ms| - 1];
      Converted(ms[..|ms| - 1]) + (if ContentOf(m) == "" then [] else [ChatMessage(RoleFor(m.speaker), ContentOf(m))])
  }

  /** Conversion works message by message, so the kept messages keep their order. */
  lemma {:induction false} ConvertedAppend(a: seq<IncomingMessage>, b: seq<IncomingMessage>)
    ensures Converted(a + b) == Converted(a) + Converted(b)
  {
    if |b| == 0 {
      assert a + b == a;
    } else {
      var b' := b[..|b| - 1];
      assert (a + b)[..|a + b| - 1] == a + b';
      assert (a + b)[|a + b| - 1] == b[|b| - 1];
      ConvertedAppend(a, b');
    }
  }

  /** When every message has content, each is kept, in place, with its mapped role and content. */
  lemma {:induction false} ConvertedKeepsAll(ms: seq<IncomingMessage>)
    requires forall i :: 0 <= i < |ms| ==> ContentOf(ms[i]) != ""
    ensures |Converted(ms)| == |ms|
    ensures forall i :: 0 <= i < |ms| ==> Converted(ms)[i] == ChatMessage(RoleFor(ms[i].speaker), ContentOf(ms[i]))
  {
    if |ms| > 0 {
      ConvertedKeepsAll(ms[..|ms| - 1]);
    }
  }

  /** A message whose `text` and `content` are both falsy is dropped. */
  lemma ConvertedSkipsEmpty(a: seq<IncomingMessage>, m: IncomingMessage, b: seq<IncomingMessage>)
    requires !Truthy(m.text) && !Truthy(m.content)
    ensures Converted(a + [m] + b) == Converted(a + b)
  {
    ConvertedAppend(a + [m], b);
    ConvertedAppend(a, b);
    assert (a + [m])[..|a|] == a;
  }

  /** The list handed to the completion service: the system prompt, the conversation, and the
      context message as the closing user message. */
  function Assemble(system: string, ms: seq<IncomingMessage>, context: string): seq<ChatMessage>
  {
    [ChatMessage(System, system)] + Converted(ms) + [ChatMessage(UserRole, context)]
  }

  /** Exactly one system message, first; then the converted conversation; then the context
      message, last, in the user role. */
  lemma AssembleShape(system: string, ms: seq<IncomingMessage>, context: string)
    ensures var r := Assemble(system, ms, context);
            && |r| == |Converted(ms)| + 2
            && r[0] == ChatMessage(System, system)
            && (forall i :: 0 < i < |r| ==> r[i].role != System)
            && r[1..|r| - 1] == Converted(ms)
            && r[|r| - 1] == ChatMessage(UserRole, context)
  {
    var r := Assemble(system, ms, context);
    var c := Converted(ms);
    assert r[1..|r| - 1] == c;
    forall i | 0 < i < |r| ensures r[i].role != System {
      if i < |r| - 1 {
        assert r[i] == c[i - 1];
      }
    }
  }

  /** The message list for a body with a `messages` array. */
  function Request(b: ChatBody, parse: Parser): seq<ChatMessage>
    requires b.messages.Some?
  {
    var domain := Domain(b.testUrl, parse);
    var summary := EventSummary(RecentEvents(b.userEvents));
    var walkthrough := ResolveWalkthrough(b.walkthroughContext, b.testUrl, parse);
    Assemble(SystemPromptText(domain, summary, walkthrough, b.context), b.messages.value,
             ContextMessageText(domain, EventDescription(b.userEvents), summary, walkthrough))
  }

  /** The context message opens with the site's name. */
  lemma ContextMessageOpens(domain: string, description: string, summary: string, walkthrough: Option<string>)
    ensures StartsWith(ContextMessageText(domain, description, summary, walkthrough), ContextOpening(domain))
  {
    var o := ContextOpening(domain);
    var suffix := if walkthrough.Some? then ReferenceHeading + walkthrough.value else "";
    assert StartsWith(o, o);
    StartsWithExtend(o, description, o);
    StartsWithExtend(o + description, ContextMiddle, o);
    StartsWithExtend(o + description + ContextMiddle, summary, o);
    StartsWithExtend(o + description + ContextMiddle + summary, ContextClosing(domain), o);
    StartsWithExtend(ContextBase(domain, description, summary), suffix, o);
  }

  /** The context message ends with the closing question when no walkthrough context
      resolves, and with the walkthrough context under its heading otherwise. */
  lemma ContextMessageCloses(domain: string, description: string, summary: string, walkthrough: Option<string>)
    ensures walkthrough.None? ==> EndsWith(ContextMessageText(domain, description, summary, walkthrough), ContextTail)
    ensures walkthrough.Some? ==> EndsWith(ContextMessageText(domain, description, summary, walkthrough), ReferenceHeading + walkthrough.value)
  {
    if walkthrough.Some? {
      var suffix := ReferenceHeading + walkthrough.value;
      var c := ContextBase(domain, description, summary);
      assert c + ReferenceHeading + walkthrough.value == c + suffix;
      assert EndsWith(suffix, suffix);
      EndsWithExtend(c, suffix, suffix);
    } else {
      var c := ContextClosing(domain);
      assert EndsWith(c, ContextTail) by {
        EndsWithExtend("\n\nAs a usability testing agent for " + domain, ContextTail, ContextTail);
      }
      EndsWithExtend(ContextOpening(domain) + description + ContextMiddle + summary, c, ContextTail);
      assert ContextMessageText(domain, description, summary, walkthrough) == ContextBase(domain, description, summary);
    }
  }

  /** The context message opens with the site's name and, when no walkthrough context
      resolves, ends with the closing question. */
  lemma ContextMessageBounds(domain: string, description: string, summary: string, walkthrough: Option<string>)
    ensures StartsWith(ContextMessageText(domain, description, summary, walkthrough), ContextOpening(domain))
    ensures walkthrough.None? ==> EndsWith(ContextMessageText(domain, description, summary, walkthrough), ContextTail)
    ensures walkthrough.Some? ==> EndsWith(ContextMessageText(domain, description, summary, walkthrough), ReferenceHeading + walkthrough.value)
  {
    ContextMessageOpens(domain, description, summary, walkthrough);
    ContextMessageCloses(domain, description, summary, walkthrough);
  }

  /** A resolved walkthrough context appears under its heading in the system prompt, and
      closes the context message under its own heading. */
  lemma WalkthroughInBothPrompts(domain: string, description: string, summary: string, walkthrough: Option<string>, context: Option<string>)
    requires walkthrough.Some?
    ensures Contains(SystemPromptText(domain, summary, walkthrough, context), SiteContextHeading + walkthrough.value)
    ensures EndsWith(ContextMessageText(domain, description, summary, walkthrough), ReferenceHeading + walkthrough.value)
  {
    var p := PromptBase(domain, summary);
    var withWalkthrough := p + SiteContextHeading + walkthrough.value;
    OccursAfter(p, SiteContextHeading, walkthrough.value);
    if Truthy(context) {
      OccursExtend(withWalkthrough, AdditionalContextHeading + context.value, SiteContextHeading + walkthrough.value, |p|);
      assert SystemPromptText(domain, summary, walkthrough, context)
          == withWalkthrough + (AdditionalContextHeading + context.value);
    }
    OccursContains(SystemPromptText(domain, summary, walkthrough, context), SiteContextHeading + walkthrough.value, |p|);
    ContextMessageBounds(domain, description, summary, walkthrough);
  }

  /** The `forEach` over the conversation: each message gets its role and content, messages
      without content are skipped, and the context message closes the list. */
  method BuildMessages(systemPrompt: string, ms: seq<IncomingMessage>, contextMessage: string)
    returns (out: seq<ChatMessage>)
    ensures out == Assemble(systemPrompt, ms, contextMessage)
  {
    out := [ChatMessage(System, systemPrompt)];
    var i := 0;
    while i < |ms|
      invariant 0 <= i <= |ms|
      invariant out == [ChatMessage(System, systemPrompt)] + Converted(ms[..i])
    {
      var msg := ms[i];
      var role;
      if msg.speaker == Some("user") {
        role := UserRole;
      } else if msg.speaker == Some("ai") || msg.speaker == Some("assistant") {
        role := Assistant;
      } else {
        role := Assistant;
      }
      var content := ContentOf(msg);
      assert ms[..i + 1][..i] == ms[..i];
      if content != "" {
        out := out + [ChatMessage(role, content)];
      }
      i := i + 1;
    }
    assert ms[..|ms|] == ms;
    out := out + [ChatMessage(UserRole, contextMessage)];
  }

  /** `let resolvedWalkthrough = walkthroughContext; if (!resolvedWalkthrough && testUrl) ...`:
      the explicit value, replaced by the demo configuration's when it is falsy; the prompts
      use it only when it is truthy, which is exactly when the resolution gives a value. */
  method PickWalkthrough(explicit: Option<string>, testUrl: Option<string>, parse: Parser) returns (resolved: Option<string>)
    ensures Truthy(resolved) <==> ResolveWalkthrough(explicit, testUrl, parse).Some?
    ensures Truthy(resolved) ==> resolved == ResolveWalkthrough(explicit, testUrl, parse)
  {
    resolved := explicit;
    if !Truthy(resolved) && Truthy(testUrl) {
      var demo := DemoConfig.GetDemoConfig(testUrl, parse);
      if demo.Some? && demo.value.walkthroughContext != "" {
        resolved := Some(demo.value.walkthroughContext);
      }
    }
  }

  /** The prompt building of the handler: the domain with its fallback, the digest, the
      walkthrough resolution, and the `+=` extensions of both prompts. */
  method BuildPrompts(b: ChatBody, parse: Parser) returns (systemPrompt: string, contextMessage: string)
    ensures var domain := Domain(b.testUrl, parse);
            var summary := EventSummary(RecentEvents(b.userEvents));
            var w := ResolveWalkthrough(b.walkthroughContext, b.testUrl, parse);
            && systemPrompt == SystemPromptText(domain, summary, w, b.context)
            && contextMessage == ContextMessageText(domain, EventDescription(b.userEvents), summary, w)
  {
    var domain := DefaultDomain;
    if Truthy(b.testUrl) {
      var u := parse(b.testUrl.value);
      if u.Some? {
        domain := ReplaceFirst(u.value.hostname, "www.", "");
      }
    }
    assert domain == Domain(b.testUrl, parse);
    var summary := EventSummary(RecentEvents(b.userEvents));
    systemPrompt := PromptBase(domain, summary);

    var resolved := PickWalkthrough(b.walkthroughContext, b.testUrl, parse);
    if Truthy(resolved) {
      systemPrompt := systemPrompt + SiteContextHeading + resolved.value;
    }
    if Truthy(b.context) {
      systemPrompt := systemPrompt + AdditionalContextHeading + b.context.value;
    }

    contextMessage := ContextBase(domain, EventDescription(b.userEvents), summary);
    if Truthy(resolved) {
      contextMessage := contextMessage + ReferenceHeading + resolved.value;
    }
  }

  /** Serving a POST. A body that is not JSON, or a failure of the completion request, gives
      the generic 500; `sent` is the message list handed to the completion service, None when
      the route answers before making the request. */
  method Post(body: Option<ChatBody>, apiKey: Option<string>, parse: Parser, completion: Completion)
    returns (resp: ChatResponse, sent: Option<seq<ChatMessage>>)
    ensures body.None? ==> resp == Failure(500, InternalError) && sent == None
    ensures body.Some? && body.value.messages.None? ==> resp == Failure(400, MessagesRequired) && sent == None
    ensures body.Some? && body.value.messages.Some? && !Truthy(apiKey) ==> resp == Failure(500, KeyMissing) && sent == None
    ensures body.Some? && body.value.messages.Some? && Truthy(apiKey) ==>
              && sent == Some(Request(body.value, parse))
              && (completion.Rejected? ==> resp == Failure(500, InternalError))
              && (completion.NotOk? ==> resp == Failure(completion.status, UpstreamFailed))
              && (completion.Completed? && !Truthy(completion.content) ==> resp == Failure(500, NoResponse))
              && (completion.Completed? && Truthy(completion.content) ==> resp == Reply(Trim(completion.content.value)))
  {
    sent := None;
    if body.None? {
      return Failure(500, InternalError), None;
    }
    var b := body.value;
    if b.messages.None? {
      return Failure(400, MessagesRequired), None;
    }
    if !Truthy(apiKey) {
      return Failure(500, KeyMissing), None;
    }
    var systemPrompt, contextMessage := BuildPrompts(b, parse);
    var out := BuildMessages(systemPrompt, b.messages.value, contextMessage);
    sent := Some(out);

    match completion
    case Rejected =>
      resp := Failure(500, InternalError);
    case NotOk(status) =>
      resp := Failure(status, UpstreamFailed);
    case Completed(content) =>
      if !Truthy(content) {
        resp := Failure(500, NoResponse);
      } else {
        resp := Reply(Trim(content.value));
      }
  }
}
