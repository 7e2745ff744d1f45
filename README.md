# A usability-testing assistant, modelled in Dafny

The system runs an AI-moderated usability test. A participant enters a site's address.
They hear a spoken introduction and then use the site inside a frame. The frame captures
their clicks, navigations, page loads and idle periods into a session log. A side panel
("Ava") turns the latest real action into a spoken question. A five-question survey
follows, then a summary produced by a language model. Administrators log in with a
bearer password, manage projects with ordered test sections, and request cross-session
summaries.

This project models the decision logic of that system:

- **Question scheduler.** The AI panel and the question orchestrator. The panel is a class
  whose methods are the React effects, timers and audio callbacks. The orchestrator supplies
  the question budget, the rotating template choice and the single current-audio slot.
- **Event capture.** The frame's event capture, as a class over the shared session context.
- **Client flows.** The participant flow, the survey stepper, and the admin page with its
  project-creation modal.
- **API routes.** The chat, summary, cross-session summarize, projects, sessions and proxy
  routes, each a function or method over its inputs.
- **Helpers.** Admin request headers, the intro screen's script substitution, and the demo
  host matching.

Anything outside the process becomes a parameter:

- the clock (`now`);
- the URL parser, an uninterpreted partial function, `Url.Parser`;
- database replies (`Store.DbResult`);
- completion and SDK results, and HTTP replies;
- the frame's location reads;
- the rendering of floating-point averages.

The shared modules hold the rest:

- `Common`: JavaScript's truthiness, `trim`, `includes`, `replace`, `join` and number
  rendering, written out over `seq<char>`.
- `Json`: a flat JSON value and its `JSON.stringify`.
- `Events`: the event record and the "real user event" filter that the panel and the
  summary route share.
- `SessionContext`: the shared session state.

## Model

| member | source | states |
|---|---|---|
| Events.RealUserEvents | components/AIPanel.tsx:38-45 | every survivor of the filter is a real user event taken from the log, and the result is no longer than the log |
| Events.IsRealUserEvent | components/AIPanel.tsx:38-45 | the filter test, without a contract: not from the devtools bridge, not `question_asked`, and a non-empty string type (RealUserEventsMembers states what the filter keeps) |
| Events.RealUserEventsAppend | components/AIPanel.tsx:38-45 | filtering distributes over concatenation, so survivors keep their relative order |
| Events.RealUserEventsMembers | components/AIPanel.tsx:38-45 | an event survives iff it is in the log, is not from the devtools bridge, is not `question_asked`, and has a non-empty string type |
| Events.LastRealUserEvent | components/AIPanel.tsx:52 | the last survivor is a real event of the log after which no real event occurs |
| Events.NoRealUserEvents | components/AIPanel.tsx:47-50 | the filter leaves nothing iff no event of the log is real |
| SessionContext.Session.Append | components/AppFrame.tsx:35-39 | the log grows by exactly one event at the end, whose identity is its position; active flag and start time unchanged |
| SessionContext.Session.SetActive | app/page.tsx:38 | sets the active flag only |
| SessionContext.Session.SetStartTime | app/page.tsx:39 | sets the start time only |
| Orchestrator.TemplatesFor | lib/ai-orchestrator.ts:56-57 | the list for the event's type, the click list for any other type, never empty |
| Orchestrator.PickQuestion | lib/ai-orchestrator.ts:62 | the question is `templates[index mod length]` and so always a member of the chosen list |
| Orchestrator.QuestionCountAppend | lib/ai-orchestrator.ts:47 | appending an event raises the `question_asked` count by one exactly for a `question_asked` event |
| Orchestrator.QuestionCount | lib/ai-orchestrator.ts:47 | the number of `question_asked` events, never more than the log holds (QuestionCountAppend gives its step) |
| Orchestrator.RotationCoversTemplates | lib/ai-orchestrator.ts:62-63 | every template of a list is asked within any `length` consecutive counter values |
| Orchestrator.QuestionGenerator.GenerateQuestion | lib/ai-orchestrator.ts:38-71 | null and counter untouched at 10 or more asked questions; otherwise the rotated template and the counter raised by one |
| Orchestrator.AudioSlot.SpeakStart | lib/ai-orchestrator.ts:82-92 | up to the first `await`: muted leaves the slot and schedules the completion; unmuted pauses the previous handle and leaves the slot empty |
| Orchestrator.AudioSlot.SpeakFetched | lib/ai-orchestrator.ts:94-131 | after the fetch: the new handle is stored over whatever the slot then holds, which is reported as overwritten without a pause; a failure empties the slot and schedules the completion |
| Orchestrator.AudioSlot.SpeakText | lib/ai-orchestrator.ts:76-132 | a call with no other call between its two parts: muted leaves the slot and schedules the completion; unmuted pauses the previous handle, then the slot holds the new handle, or is empty with the completion scheduled when the request fails |
| Orchestrator.OverlappingSpeech | lib/ai-orchestrator.ts:88-111 | two calls whose fetches overlap pause nothing, and the second stores its handle over the first, which is lost |
| Orchestrator.AudioSlot.PlaybackEnded | lib/ai-orchestrator.ts:113-123 | end or error of playback empties the slot and completes |
| Orchestrator.AudioSlot.StopAudio | lib/ai-orchestrator.ts:134-139 | the slot is empty afterwards and the previous handle was the one paused |
| AIPanel.QuestionDelay | components/AIPanel.tsx:68 | 2000 ms exactly for `route_change`, 4000 ms otherwise |
| AIPanel.Panel.constructor | components/AIPanel.tsx:21-28 | idle, unmuted, empty transcript, nothing seen and nothing pending |
| AIPanel.Panel.OnEventsChanged | components/AIPanel.tsx:31-123 | clears any pending timeout; schedules nothing when inactive, with no real event, or when the latest real event was already seen; otherwise records it as last seen and schedules one question with its delay and the state captured at scheduling time |
| AIPanel.Panel.FireTimeout | components/AIPanel.tsx:71-99 | muted or speaking at scheduling time: no request and no state change; otherwise `thinking` and the automatic request about the scheduled event |
| AIPanel.Panel.ReplyArrived | components/AIPanel.tsx:101-115 | failure sets idle; an automatic reply without text sets idle; a reply with text is handled as a question |
| AIPanel.Panel.HandleAIResponse | components/AIPanel.tsx:125-152 | exactly one `ai` transcript entry and one `question_asked` event are appended; unmuted starts speaking, muted goes straight to idle |
| AIPanel.Panel.Complete | components/AIPanel.tsx:141-143 | playback completion moves to `listening` and arms the idle timer |
| AIPanel.Panel.AudioEnded | components/AIPanel.tsx:141-143 | the audio slot is empty and the state becomes `listening` |
| AIPanel.Panel.FallbackElapsed | components/AIPanel.tsx:141-143 | a failed playback's fallback completes as a normal end does |
| AIPanel.Panel.GraceElapsed | components/AIPanel.tsx:143 | the two-second timer returns the panel to idle |
| AIPanel.Panel.ToggleMute | components/AIPanel.tsx:195-200 | mute flips; idle is forced only on the unmuted-to-muted edge |
| AIPanel.Panel.HandleUserMessage | components/AIPanel.tsx:154-193 | one `user` entry appended, `thinking`, and a request carrying the whole transcript and log |
| AIPanel.Panel.Unmount | components/AIPanel.tsx:118-122 | effect cleanup leaves no timeout pending |
| AIPanel.TranscriptReachesRoute | components/AIPanel.tsx:89-92 | a transcript of non-empty texts reaches the chat route's messages entry for entry, `user` as user and `ai` as assistant |
| AIPanel.AutomaticRequestDescribesEvent | components/AIPanel.tsx:93 | the chat route describes the scheduled event as the latest one, because the request carries the filtered log |
| AIPanel.Panel.RequestUrl | components/AIPanel.tsx:94 | the test URL when truthy, otherwise the page address, without a contract |
| AIPanel.Panel.AutomaticRequest | components/AIPanel.tsx:88-98 | the automatic request body, without a contract: the transcript, the filtered log, the address, the context naming the event and the walkthrough (AutomaticRequestDescribesEvent) |
| AIPanel.TwoClicksOneQuestion | components/AIPanel.tsx:52-60 | two distinct clicks yield one request about the second |
| AIPanel.RerunCancels | components/AIPanel.tsx:56-65 | a re-run of the effect with an unchanged latest event leaves nothing pending |
| AIPanel.SpokenAnswerCycle | components/AIPanel.tsx:138-144 | an unmuted answer goes `speaking`, `listening`, `idle` |
| AppFrame.EncodedAlphabet | components/AppFrame.tsx:186 | `encodeURIComponent` output uses only unreserved characters, `%` and upper-case hex digits |
| AppFrame.EncodeUnreservedIdentity | components/AppFrame.tsx:186 | text made only of unreserved characters is not changed by the encoding |
| AppFrame.EncodeURIComponent | components/AppFrame.tsx:186 | the encoding, without a contract: unreserved characters kept, every other character as the percent escapes of its UTF-8 bytes (EncodedAlphabet and EncodeUnreservedIdentity state its properties) |
| AppFrame.Frame.constructor | components/AppFrame.tsx:14-17 | no error, no proxy, nothing listening |
| AppFrame.Frame.ShowsError | components/AppFrame.tsx:188 | the error screen condition, without a contract: a failed load while the proxy is not in use (RetryWithProxy proves the retry clears it) |
| AppFrame.Frame.FrameSrc | components/AppFrame.tsx:186 | the frame source is the proxy path with the encoded URL when proxying, the URL itself otherwise |
| AppFrame.Frame.RunEffect | components/AppFrame.tsx:19-25 | listeners and the inactivity timer are armed only while the session is active and the frame is shown; `lastUrl` empty and `lastActionTime` now |
| AppFrame.Frame.SendEvent | components/AppFrame.tsx:27-41 | exactly one event is appended, with elapsed time `now - start` or 0 without a start, and `lastActionTime` becomes now |
| AppFrame.Frame.CheckRouteChange | components/AppFrame.tsx:43-59 | a `route_change {from, to}` event only when the URL differs from a non-empty `lastUrl`; `lastUrl` becomes the URL read; a throwing read changes nothing |
| AppFrame.Frame.HandleMessage | components/AppFrame.tsx:137-142 | a posted object with a truthy type becomes exactly one appended event with its fields, the time and the elapsed time, and the last action is now; anything else changes nothing |
| AppFrame.Frame.HandleLoad | components/AppFrame.tsx:150-154 | clears the error and appends one `page_load` event carrying the test URL |
| AppFrame.Frame.HandleError | components/AppFrame.tsx:157-159 | sets the error flag only |
| AppFrame.Frame.InactivityFired | components/AppFrame.tsx:165-175 | the one-shot timer emits `inactivity` with the idle duration iff strictly more than 30000 ms passed since the last event |
| AppFrame.Frame.RetryWithProxy | components/AppFrame.tsx:199-203 | proxy on, error off, so the error screen is gone and the source is the proxy path |
| AppFrame.FirstAddressIsNotAChange | components/AppFrame.tsx:48-55 | the first observed address emits nothing; a second, different one emits a single route change |
| Survey.QuestionIds | components/PostTestSurvey.tsx:13-19 | exactly five questions with distinct ids `1` to `5` |
| Survey.Stepper.constructor | components/PostTestSurvey.tsx:26-27 | first question, no answers |
| Survey.Stepper.CurrentRating | components/PostTestSurvey.tsx:43-44 | the stored answer for the current question, or 0 |
| Survey.Stepper.HandleRating | components/PostTestSurvey.tsx:29-34 | the rating is stored under the current id, every other answer is kept, and one advance is scheduled with the map as it now stands |
| Survey.Stepper.AdvanceElapsed | components/PostTestSurvey.tsx:34-40 | below the last question the index advances by one; from the last question the completion receives the map holding the final rating |
| Survey.RateAll | components/PostTestSurvey.tsx:29-41 | rating the five questions in turn completes once, with exactly keys `1` to `5`, each valued as given in 1..5 |
| Survey.FiveAnswers | components/PostTestSurvey.tsx:29-41 | the five stored ratings form a dictionary with exactly keys `1` to `5`, every value in 1..5 |
| ParticipantFlow.DemoConfigFor | app/page.tsx:22-25 | no demo configuration for an empty test URL |
| ParticipantFlow.DemoConfigGuardRedundant | app/page.tsx:22-25 | the empty-URL guard agrees with the one inside the demo lookup |
| ParticipantFlow.Flow.constructor | app/page.tsx:17-20 | starts at the URL input with empty URL, answers and conversation |
| ParticipantFlow.Flow.HandleURLSubmit | app/page.tsx:32-35 | stores the URL and moves to the intro |
| ParticipantFlow.Flow.HandleIntroContinue | app/page.tsx:37-41 | activates the session, records the start time and moves to testing |
| ParticipantFlow.Flow.HandleEndSession | app/page.tsx:43-47 | deactivates the session, stores the conversation and moves to the survey |
| ParticipantFlow.Flow.HandleSurveyComplete | app/page.tsx:49-53 | stores the answers and moves to the summary |
| ParticipantFlow.Flow.HandleSummaryClose | app/page.tsx:55-61 | back to the URL input with URL, answers and conversation cleared |
| ParticipantFlow.FullRun | app/page.tsx:32-61 | a full run visits the five screens in order, and the session's start time survives the reset |
| DemoConfig.SomeHostIn | lib/demo-config.ts:188 | true iff some listed host occurs in the text |
| DemoConfig.Candidate | lib/demo-config.ts:187 | inputs not starting with `http` get `https://` before parsing |
| DemoConfig.MatchesTrends | lib/demo-config.ts:184-192 | the host test, without a contract: false for an absent or empty URL, otherwise some listed host in the parsed hostname, or in the raw text when parsing fails (GetDemoConfig states the result through it) |
| DemoConfig.GetDemoConfig | lib/demo-config.ts:184-203 | non-null iff the URL matches, then the fixed intro and walkthrough; never for an absent or empty URL |
| IntroScreen.GetDomain | components/IntroScreen.tsx:14-20 | the hostname without its first `www.`, or the input unchanged when it does not parse |
| IntroScreen.IntroScript | components/IntroScreen.tsx:22-37 | the script, without a contract: a truthy custom script with every `{url}` and then every `{domain}` replaced, otherwise the default welcome (the lemmas below state what it yields) |
| IntroScreen.UrlPass | components/IntroScreen.tsx:27 | for a script of brace-free text and placeholders, the first pass fills exactly the `{url}` fields and leaves the `{domain}` fields as written |
| IntroScreen.DomainPass | components/IntroScreen.tsx:27 | with a brace-free URL, the second pass fills exactly the `{domain}` fields, whatever the site name holds |
| IntroScreen.IntroScriptFillsPlaceholders | components/IntroScreen.tsx:22-28 | such a custom script is spoken with every `{url}` replaced by the URL and every `{domain}` by the site name |
| IntroScreen.SinglePass | components/IntroScreen.tsx:27 | each pattern is replaced in a single pass: with the URL `{` as its own site name, the script `{domain}domain}` is spoken as `{domain}` |
| IntroScreen.PlainScriptUnchanged | components/IntroScreen.tsx:26-28 | a custom script without placeholders is spoken as written |
| IntroScreen.DefaultScriptNamesSite | components/IntroScreen.tsx:30-36 | without a custom script the default welcome names the site right after its fixed opening |
| IntroScreen.Player.constructor | components/IntroScreen.tsx:40-42 | nothing played, nothing speaking |
| IntroScreen.Player.RunEffect | components/IntroScreen.tsx:44-52 | the first run speaks the script and the guard blocks every later run |
| IntroScreen.Player.PlaybackFinished | components/IntroScreen.tsx:53-61 | completion or failure stops speaking and shows the continue button |
| IntroScreen.Player.MountTwice | components/IntroScreen.tsx:44-71 | a doubled effect speaks once, and the button shows only after playback |
| ChatRoute.DomainCases | app/api/chat/route.ts:28-35 | `the website` unless the URL parses, then the hostname with its first `www.` removed |
| ChatRoute.Domain | app/api/chat/route.ts:28-35 | the domain, without a contract (DomainCases states it case by case) |
| ChatRoute.RecentEvents | app/api/chat/route.ts:38 | the last ten events, or all of them when fewer, or none |
| ChatRoute.EventSummaryCases | app/api/chat/route.ts:39-41 | `No recent user actions.` iff there are no recent events, otherwise the heading and the list |
| ChatRoute.EventSummary | app/api/chat/route.ts:39-41 | the digest of the recent events, without a contract (EventSummaryCases states its two cases) |
| ChatRoute.EventDescription | app/api/chat/route.ts:84-87 | the sentence on the latest event, without a contract: its type and, when it has data, the data as JSON; the exploring sentence without events |
| ChatRoute.ResolveWalkthrough | app/api/chat/route.ts:66-72 | an explicit context wins; otherwise the demo walkthrough exactly when the test URL matches |
| ChatRoute.PickWalkthrough | app/api/chat/route.ts:66-72 | the handler's in-place resolution is truthy exactly when the resolution gives a value, and then equals it |
| ChatRoute.RoleFor | app/api/chat/route.ts:115-124 | `user` iff the speaker is `user`, never system |
| ChatRoute.ContentOf | app/api/chat/route.ts:127-132 | the content is non-empty iff the text or the content field is truthy, and a truthy text wins |
| ChatRoute.Converted | app/api/chat/route.ts:111-138 | converted messages are never system messages and never empty |
| ChatRoute.ConvertedAppend | app/api/chat/route.ts:112-138 | conversion distributes over concatenation, so order is kept |
| ChatRoute.ConvertedKeepsAll | app/api/chat/route.ts:127-137 | messages with content are all kept, with their role and content `text`, else `content` |
| ChatRoute.ConvertedSkipsEmpty | app/api/chat/route.ts:129-132 | a message without text and content is skipped |
| ChatRoute.AssembleShape | app/api/chat/route.ts:105-150 | exactly one leading system message, the converted conversation, and one trailing user context message |
| ChatRoute.Assemble | app/api/chat/route.ts:105-140 | the reference message list, without a contract: the system prompt, the converted conversation, the context message (AssembleShape and BuildMessages relate it to the loop) |
| ChatRoute.SystemPromptText | app/api/chat/route.ts:43-81 | the system prompt, without a contract: the base text, then the walkthrough section when resolved, then the additional context when truthy (WalkthroughInBothPrompts) |
| ChatRoute.ContextMessageText | app/api/chat/route.ts:91-102 | the context message, without a contract (ContextMessageBounds, ContextMessageOpens and ContextMessageCloses state its ends) |
| ChatRoute.Request | app/api/chat/route.ts:26-140 | the messages the route sends for a request body, without a contract; Post states its success case through it |
| ChatRoute.ContextMessageBounds | app/api/chat/route.ts:91-102 | the context message opens with the domain sentence and ends with the closing question or the walkthrough |
| ChatRoute.ContextMessageOpens | app/api/chat/route.ts:91-93 | the context message starts with the sentence naming the domain |
| ChatRoute.ContextMessageCloses | app/api/chat/route.ts:96-102 | without a walkthrough the context message ends with the closing question; with one it ends with the reference heading and the walkthrough text |
| ChatRoute.WalkthroughInBothPrompts | app/api/chat/route.ts:74-76 | a resolved walkthrough appears in the system prompt and closes the context message |
| ChatRoute.BuildMessages | app/api/chat/route.ts:105-150 | the loop builds exactly the assembled message list |
| ChatRoute.BuildPrompts | app/api/chat/route.ts:43-102 | both prompts, from the domain, the event digest and the resolved walkthrough |
| ChatRoute.Post | app/api/chat/route.ts:9-207 | 500 on an unreadable body, 400 without messages, 500 without key; otherwise upstream failures pass through, an empty completion is a 500, and the trimmed text is returned |
| SummaryRoute.ActionLineParts | app/api/summary/route.ts:40-43 | one line per real event, numbered from 1, with the rounded seconds of its elapsed time (0 when absent) and its type |
| SummaryRoute.ActionLine | app/api/summary/route.ts:40-43 | one action line, without a contract (ActionLineParts states its parts) |
| SummaryRoute.ActionLines | app/api/summary/route.ts:33-43 | one line per real user event in order, without a contract |
| SummaryRoute.ConversationLines | app/api/summary/route.ts:46-51 | one numbered line per message, with the speaker name, without a contract |
| SummaryRoute.SurveyLines | app/api/summary/route.ts:54-59 | one line per answer with the question text and `n/5`, without a contract |
| SummaryRoute.SpeakerName | app/api/summary/route.ts:48 | `User` iff the speaker is `user`, `Ava` otherwise |
| SummaryRoute.GetQuestionText | app/api/summary/route.ts:132-141 | ids other than `1` to `5` read `Question <id>` |
| SummaryRoute.QuestionTextsMatchSurvey | app/api/summary/route.ts:132-141 | the five fixed texts are the survey's own questions |
| SummaryRoute.SectionsArePlaceholdersIffEmpty | app/api/summary/route.ts:65-72 | a section reads its placeholder iff it has no lines |
| SummaryRoute.Section | app/api/summary/route.ts:65-72 | the joined lines or the placeholder, without a contract (SectionsArePlaceholdersIffEmpty) |
| SummaryRoute.Prompt | app/api/summary/route.ts:61-86 | the system and user messages the route sends, without a contract; Post states that the request carries it |
| SummaryRoute.Post | app/api/summary/route.ts:8-129 | 500 on an unreadable body, 500 without key, the prompt otherwise; the trimmed summary iff the completion has text |
| AdminAuth.CheckAdminAuth | app/api/admin/summarize/route.ts:6-19 | true iff a password is set, the header starts with `Bearer `, and what follows equals the password |
| AdminAuth.CheckAdminAuthExact | app/api/admin/summarize/route.ts:6-19 | equivalently, the header is exactly `Bearer ` followed by the password |
| AdminSummarize.DedupSpec | app/api/admin/summarize/route.ts:81-84 | the insertion-ordered set holds each input once and nothing else |
| AdminSummarize.DedupCardinality | app/api/admin/summarize/route.ts:180 | its length is the number of distinct values |
| AdminSummarize.TallySum | app/api/admin/summarize/route.ts:102-107 | the per-key counts of a list sum to its length |
| AdminSummarize.RatingsPerSession | app/api/admin/summarize/route.ts:91-98 | each question's list is as long as the number of sessions answering it |
| AdminSummarize.AddAnswers | app/api/admin/summarize/route.ts:92-97 | the inner loop keeps the grouping invariant over one session's answers |
| AdminSummarize.GroupedStep | app/api/admin/summarize/route.ts:93-96 | pushing one rating, after creating its list when the id is new, keeps the dictionary in step with the entries and appends a new id to the key order |
| AdminSummarize.Aggregate | app/api/admin/summarize/route.ts:78-99 | events and conversations are the per-session concatenations in order, with non-arrays adding nothing; answers grouped per id in first-seen order; URLs deduplicated |
| AdminSummarize.CountEventTypes | app/api/admin/summarize/route.ts:102-107 | one key per distinct truthy type in first-seen order, each counting that type's occurrences |
| AdminSummarize.EventTypeTotal | app/api/admin/summarize/route.ts:102-107 | the counts sum to the number of events with a truthy type |
| AdminSummarize.ConversationDigestIgnoresTail | app/api/admin/summarize/route.ts:114-120 | the digest uses at most the first 50 messages |
| AdminSummarize.ActionLines | app/api/admin/summarize/route.ts:109-111 | one line per event type with its count, without a contract (CountEventTypes and EventTypeTotal state the counts) |
| AdminSummarize.ConversationLines | app/api/admin/summarize/route.ts:114-120 | numbered lines of at most the first 50 messages, without a contract (ConversationDigestIgnoresTail) |
| AdminSummarize.SessionLineQuotesSummary | app/api/admin/summarize/route.ts:148 | each session line is numbered and ends with the summary or its placeholder |
| AdminSummarize.SessionLines | app/api/admin/summarize/route.ts:148 | one line per session in order, without a contract (SessionLineQuotesSummary) |
| AdminSummarize.ExpectedPrompt | app/api/admin/summarize/route.ts:78-154 | the cross-session prompt built from the reference aggregates, without a contract; Summarize states that the prompt sent equals it |
| AdminSummarize.Summarize | app/api/admin/summarize/route.ts:78-189 | the prompt is the one built from the sessions; an SDK exception is a 500, an empty completion a 500 `No summary generated`; otherwise the trimmed summary with the session, event, message and question-id counts |
| AdminSummarize.Post | app/api/admin/summarize/route.ts:21-190 | 401, missing store, missing key, unreadable body, missing ids, fetch failure and empty result answer in that order; otherwise the prompt is the one built from the fetched sessions, an SDK exception or an empty completion is a 500, and a summary reports the sessions, total events, total messages and distinct question ids |
| ProjectsRoute.BuildQuery | app/api/projects/route.ts:29-40 | a status filter iff a status other than `all` is given; a name search iff the trimmed query is non-empty, on the trimmed text |
| ProjectsRoute.Get | app/api/projects/route.ts:12-63 | 401, then missing store, then the query; a failed fetch is a 500, otherwise the projects or `[]` |
| ProjectsRoute.NewProjectRow | app/api/projects/route.ts:79-88 | status defaults to `draft` only when undefined; config defaults to `{}` |
| ProjectsRoute.SectionsPayloadSpec | app/api/projects/route.ts:124-134 | one row per section carrying the new project's id, `{}` for missing metrics, and the supplied order or the array position |
| ProjectsRoute.SectionsPayload | app/api/projects/route.ts:124-131 | the section rows, without a contract (SectionsPayloadSpec and PositionsWhenUnordered) |
| ProjectsRoute.PositionsWhenUnordered | app/api/projects/route.ts:126-133 | without supplied orders the rows are strictly ordered by position |
| ProjectsRoute.Post | app/api/projects/route.ts:65-162 | 401, missing store, 400 without name, 500 when the insert fails; section failures are not fatal and leave an empty list |
| SessionsRoute.Duration | app/api/sessions/route.ts:33-35 | absent iff no start, otherwise the elapsed time rounded to seconds |
| SessionsRoute.DurationNonNegative | app/api/sessions/route.ts:33-35 | a start not in the future gives a non-negative duration |
| SessionsRoute.Record | app/api/sessions/route.ts:37-46 | the stored row with its `null`, `[]`, `{}` and undefined defaults |
| SessionsRoute.Post | app/api/sessions/route.ts:4-88 | missing store, unreadable body and 400 without URL; the record saved; the mirror written only with a project id and a returned id; success carries the new id |
| AdminApi.TokenStorage.GetAdminToken | lib/admin-api.ts:3-6 | null without a window, the stored token otherwise |
| AdminApi.TokenStorage.SetAdminToken | lib/admin-api.ts:8-11 | stores the token only when there is a window |
| AdminApi.TokenStorage.ClearAdminToken | lib/admin-api.ts:13-16 | removes the token only when there is a window |
| AdminApi.ChooseToken | lib/admin-api.ts:23 | the override unless null or undefined, then the stored token |
| AdminApi.Headers.constructor | lib/admin-api.ts:24 | the initial headers, a repeated name joining its values |
| AdminApi.Headers.Set | lib/admin-api.ts:26 | sets one header, leaves the others |
| AdminApi.BuildHeaders | lib/admin-api.ts:24-30 | SentHeaders: `Authorization: Bearer <token>` when the token is truthy, otherwise the given one if any; the given `Content-Type`, else `application/json` iff there is a body; every other given header kept |
| AdminApi.FailureMessage | lib/admin-api.ts:37-42 | the response text, the status fallback when reading fails, `Request failed` for empty text |
| AdminApi.AdminFetch | lib/admin-api.ts:18-45 | the request carries exactly the headers SentHeaders describes for the chosen token; non-OK throws the failure message, OK resolves to the body |
| AdminPage.ComputeStats | app/admin/page.tsx:129-138 | total is the project count |
| AdminPage.StatsPartition | app/admin/page.tsx:129-138 | the four status counts and the projects without a listed status add up to the total, so the counts sum to at most the total |
| AdminPage.CountStatusPositions | app/admin/page.tsx:133-136 | each count is the number of projects with exactly that status |
| AdminPage.QueryParams | app/admin/page.tsx:114-116 | `status` iff the filter is not `all`; `q` iff the trimmed search is non-empty, trimmed |
| AdminPage.AddedSection | app/admin/page.tsx:428 | exactly one blank section appended |
| AdminPage.UpdatedSection | app/admin/page.tsx:429-430 | only the named field of the section at the index changes |
| AdminPage.RemovedSectionSpec | app/admin/page.tsx:431 | exactly the element at the index is removed, the others kept in order |
| AdminPage.RemovedSection | app/admin/page.tsx:431 | the filtered list, without a contract (RemovedSectionSpec) |
| AdminPage.KeptSectionsMembers | app/admin/page.tsx:451 | a section is kept iff its trimmed title is non-empty |
| AdminPage.KeptSections | app/admin/page.tsx:451 | the kept sections are no more than the drafts and have non-blank titles (KeptSectionsMembers gives both directions) |
| AdminPage.PayloadSectionsSpec | app/admin/page.tsx:450-457 | kept sections have trimmed non-empty titles and order indices 0..k-1 |
| AdminPage.PayloadSections | app/admin/page.tsx:450-457 | the trimmed kept sections with their positions, without a contract (PayloadSectionsSpec) |
| AdminPage.Payload | app/admin/page.tsx:443-458 | the submitted project, without a contract: every text field trimmed except the status, and the payload sections |
| AdminPage.CreateProjectModal.constructor | app/admin/page.tsx:406-414 | empty fields, status `draft` |
| AdminPage.CreateProjectModal.OnOpenChanged | app/admin/page.tsx:416-426 | closing resets every field but the status |
| AdminPage.CreateProjectModal.AddSection | app/admin/page.tsx:428 | the sections become the appended list, nothing else changes |
| AdminPage.CreateProjectModal.UpdateSection | app/admin/page.tsx:429-430 | the sections become the updated list, nothing else changes |
| AdminPage.CreateProjectModal.RemoveSection | app/admin/page.tsx:431 | the sections become the shortened list, nothing else changes |
| AdminPage.CreateProjectModal.HandleSubmit | app/admin/page.tsx:433-475 | a blank name sets the error and sends nothing; otherwise the trimmed payload is sent and the result or its error is recorded |
| AdminPage.Page.constructor | app/admin/page.tsx:62-67 | the stored token, when truthy, authenticates the page on mount |
| AdminPage.Page.CurrentStats | app/admin/page.tsx:129-138 | statistics of the loaded projects |
| AdminPage.Page.HandleLogin | app/admin/page.tsx:87-107 | an empty password sets an error and sends nothing; success stores the token and logs in; failure shows the message |
| AdminPage.Page.FetchProjects | app/admin/page.tsx:109-127 | the query from the filter and the search; projects replaced on success, error and toast on failure |
| AdminPage.Page.Logout | app/admin/page.tsx:202-206 | token and password cleared from the page, token cleared from the storage; projects, filters, loading, error and toast unchanged |
| ProxyRoute.InsertBaseSpec | app/api/proxy/route.ts:37-43 | unchanged with `<base` present or without `<head>`; otherwise only the first `<head>` gains the base element |
| ProxyRoute.InsertBase | app/api/proxy/route.ts:37-43 | the rewrite, without a contract (InsertBaseSpec, InsertBaseAddsMarker and InsertBaseIdempotent) |
| ProxyRoute.InsertBaseAddsMarker | app/api/proxy/route.ts:39-42 | rewriting a `<head>` puts a `<base` into the document |
| ProxyRoute.InsertBaseIdempotent | app/api/proxy/route.ts:37-43 | inserting twice equals inserting once |
| ProxyRoute.Get | app/api/proxy/route.ts:3-58 | 400 without URL, 500 on fetch failure, the upstream status passed through, and otherwise the rewritten page as framable HTML |
| ProxyRoute.ServedPageAnchored | app/api/proxy/route.ts:37-50 | every served page holds a base element or has no `<head>` |
| Common.RoundMillisToSeconds | app/api/sessions/route.ts:34 | `Math.round(ms / 1000)`: the nearest second, halves rounded up |
| Common.IndexOf | components/IntroScreen.tsx:16 | the first position where the pattern occurs, with no occurrence before it; none iff it occurs nowhere |
| Common.ReplaceFirst | components/IntroScreen.tsx:16 | `replace` with a plain-string pattern, without a contract (ReplaceFirstSpec) |
| Common.ReplaceFirstSpec | components/IntroScreen.tsx:16 | unchanged without an occurrence; otherwise only the first occurrence is replaced |
| Common.ReplaceAll | components/IntroScreen.tsx:27 | `replace` with a global literal pattern, without a contract (ReplaceAllAbsent, ReplaceAllSplit, ReplaceAllAtFirst) |
| Common.ReplaceAllAbsent | components/IntroScreen.tsx:27 | a text without the pattern is unchanged |
| Common.ReplaceAllSplit | components/IntroScreen.tsx:27 | an occurrence with none starting before it is replaced, and the scan resumes after it |
| Common.ReplaceAllAtFirst | components/IntroScreen.tsx:27 | the text before the first occurrence, the replacement, then the rest replaced in turn |
| Common.ReplaceAllSkips | components/IntroScreen.tsx:27 | text without the pattern's first character is copied through unchanged |
| Common.ReplaceAllLeading | components/IntroScreen.tsx:27 | a text starting with the pattern gets the replacement first |
| Common.Trim | app/admin/page.tsx:444-455 | `trim`, without a contract (TrimSlice, TrimEnds, TrimIdempotent, BlankIffAllWhitespace) |
| Common.TrimSlice | app/admin/page.tsx:444-455 | `trim` returns a contiguous slice of its input, starting after the leading whitespace |
| Common.TrimEnds | app/admin/page.tsx:444-455 | a trimmed text is empty or neither starts nor ends with whitespace |
| Common.TrimIdempotent | app/admin/page.tsx:444-455 | trimming twice equals trimming once |
| Common.BlankIffAllWhitespace | app/admin/page.tsx:434 | `!name.trim()` holds iff the text is all whitespace |
| Json.Stringify | app/api/chat/route.ts:40 | `JSON.stringify` of a flat object: the text is braced |

## Left out

- Network, storage and external services. These are `fetch`, OpenAI, ElevenLabs, the
  Supabase client, and `sessionStorage`. Their results are parameters of the operations
  that use them.
- The speech-to-text and text-to-speech routes, the admin sessions route, the voice input
  component, and the UI-only components. They hold no decision logic beyond what is
  modelled.
- The observer script injected into the frame. It runs inside the tested page, so it is
  not part of this model.
- Real time. Timers, intervals and React's scheduling are explicit methods. The 300 ms
  survey delay becomes the scheduled advances of `Survey.Stepper`. The 350 ms search
  debounce of the admin page is not modelled: `debouncedSearch` is a field the fetch reads.
- Orchestrator.AudioSlot.SpeakText: the muted and fallback delay of `text.length * 50`
  ms is not modelled; only the scheduling of the completion is.
- Orchestrator.AudioSlot.SpeakText: runs its two parts, SpeakStart and SpeakFetched,
  with nothing in between. AIPanel.Panel.HandleAIResponse uses it. So the panel model
  leaves out two replies, an automatic one and one to the participant, whose speech
  fetches overlap. There both calls find the slot empty and both elements play. The
  orchestrator shows this case in OverlappingSpeech.
- AdminSummarize.Post: averages use floating point and `toFixed(1)`, so their rendering
  is a parameter.
- ProxyRoute.Get: the four regular expressions that strip X-Frame-Options and
  Content-Security-Policy markers are a parameter `strip`.
- Real URL parsing (`new URL`). It is an uninterpreted partial function giving origin,
  hostname and pathname.
- IntroScreen.IntroScript: `$` patterns in a replacement string are not expanded. The
  model inserts the URL and domain literally.
- ProxyRoute.Get: the base element is inserted literally. A `$&` or `$'` in the fetched
  URL's path would be expanded by `String.prototype.replace`.
- Object lookups. Keys inherited from the prototype are not modelled.
  Orchestrator.TemplatesFor matches only the four string types by name, so a non-string
  type whose text is a template key, and a prototype name such as `constructor`, get the
  click list. The source's property lookup resolves those differently. JavaScript lists
  integer-like keys of `Object.entries` in numeric order; the model lists every key in
  insertion order.
- AdminApi.Headers: the case-insensitive matching of header names is modelled by giving
  every name in lower case. The source's `Authorization` and `Content-Type` are stored as
  `authorization` and `content-type`.
- The `details` fields of error responses and all console logging.
- Stale closures across components. Each side is modelled as written:
  - the panel passes a click event where the flow expects a conversation;
  - a reply to a user message without text leaves the state `thinking`;
  - the flow declares its demo configuration twice.
- The settings page and the URL input screen. Both import names that the demo
  configuration does not export.
