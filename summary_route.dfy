/** The summary route of app/api/summary/route.ts: it turns a finished session (its event
    log, conversation and questionnaire answers) into numbered digests inside a fixed
    analysis prompt and relays the completion. The completion service is a parameter. */
module SummaryRoute {
  import opened Common
  import opened Json
  import opened Events
  import opened Url
  import ChatRoute
  import Survey

  /** The parsed request body; `surveyAnswers` is given as its `Object.entries` list. */
  datatype SummaryBody = SummaryBody(
    userEvents: Option<seq<UserEvent>>,
    conversationHistory: Option<seq<Message>>,
    surveyAnswers: Option<seq<(string, int)>>,
    testUrl: Option<string>)

  datatype Response = Summarised(summary: string) | Failure(status: int, error: string)

  /** The route's answer and the messages it handed to the completion service, if any. */
  datatype Outcome = Outcome(response: Response, sent: Option<seq<ChatRoute.ChatMessage>>)

  const KeyMissing := "OPENAI_API_KEY not configured"
  const UpstreamFailed := "Failed to generate summary"
  const NoSummary := "No summary generated"
  const InternalError := "Internal server error"

  const NoActions := "No user actions recorded."
  const NoConversation := "No conversation recorded."
  const NoSurvey := "No survey responses."

  const SystemPrompt: string := @"You are an expert UX researcher analyzing usability test results. Your task is to provide a comprehensive, insightful summary of a usability testing session."
  const PromptHead: string := @"Analyze this usability testing session for "
  const ActionsHeading: string := @" and provide a comprehensive summary.

**User Actions Performed:**
"
  const ConversationHeading: string := @"

**Conversation History:**
"
  const SurveyHeading: string := @"

**Post-Test Survey Results:**
"
  const PromptTail: string := @"

Please provide a detailed analysis covering:
1. **Overall Experience**: What was the user's overall experience? What were their main goals?
2. **Intuitive Flows**: Which parts of the website were easy to use? What worked well?
3. **Pain Points**: Where did the user struggle? What was confusing or difficult?
4. **Key Insights**: What are the most important findings from this test?
5. **Recommendations**: What specific improvements would you suggest?

Format your response in clear sections with headers. Be specific and reference actual user actions and quotes from the conversation."

  /** `N. [Ts] type` with the payload when there is one; T is the elapsed time in whole
      seconds, a missing time counting as 0. */
  function ActionLine(idx: nat, e: UserEvent): string
  {
    var ms := if e.elapsedTime.Some? then e.elapsedTime.value else 0;
    NatToString(idx + 1) + ". [" + IntToString(RoundMillisToSeconds(ms)) + "s] " + TagText(e.tag)
      + (if e.data.Some? then ": " + Stringify(e.data.value) else "")
  }

  /** One line per real event, numbered from 1 in log order. */
  function ActionLines(userEvents: Option<seq<UserEvent>>): seq<string>
  {
    var r := RealUserEvents(if userEvents.Some? then userEvents.value else []);
    seq(|r|, i requires 0 <= i < |r| => ActionLine(i, r[i]))
  }

  /** Each action line names its number, the rounded time and the type of the real event at
      that position. */
  lemma ActionLineParts(userEvents: Option<seq<UserEvent>>, i: nat)
    requires i < |ActionLines(userEvents)|
    ensures var r := RealUserEvents(if userEvents.Some? then userEvents.value else []);
            var ms := if r[i].elapsedTime.Some? then r[i].elapsedTime.value else 0;
            |ActionLines(userEvents)| == |r|
            && exists secs :: 1000 * secs - 500 <= ms < 1000 * secs + 500
                 && StartsWith(ActionLines(userEvents)[i],
                               NatToString(i + 1) + ". [" + IntToString(secs) + "s] " + TagText(r[i].tag))
  {
    var r := RealUserEvents(if userEvents.Some? then userEvents.value else []);
    var ms := if r[i].elapsedTime.Some? then r[i].elapsedTime.value else 0;
    var secs := RoundMillisToSeconds(ms);
    var p := NatToString(i + 1) + ". [" + IntToString(secs) + "s] " + TagText(r[i].tag);
    assert ActionLines(userEvents)[i] == ActionLine(i, r[i]);
    assert ActionLine(i, r[i]) == p + (if r[i].data.Some? then ": " + Stringify(r[i].data.value) else "");
    assert ActionLines(userEvents)[i][..|p|] == p;
  }

  /** `msg.speaker === 'user' ? 'User' : 'Ava'`. */
  function SpeakerName(speaker: string): (r: string)
    ensures r == "User" || r == "Ava"
    ensures r == "User" <==> speaker == "user"
  {
    if speaker == "user" then "User" else "Ava"
  }

  function ConversationLines(history: Option<seq<Message>>): seq<string>
  {
    var ms := if history.Some? then history.value else [];
    seq(|ms|, i requires 0 <= i < |ms| => NatToString(i + 1) + ". " + SpeakerName(ms[i].speaker) + ": " + ms[i].text)
  }

  /** `getQuestionText`: the questionnaire's text for the ids "1" to "5", `Question <id>` for
      any other id. */
  function GetQuestionText(questionId: string): (r: string)
    ensures questionId !in {"1", "2", "3", "4", "5"} ==> r == "Question " + questionId
  {
    var questions := map[
      "1" := "How likely are you to recommend this website to a friend?",
      "2" := "How easy was it to find what you were looking for?",
      "3" := "How likely are you to return to this website?",
      "4" := "How satisfied were you with the overall experience?",
      "5" := "How likely are you to complete a purchase or sign up?"];
    if questionId in questions && questions[questionId] != "" then questions[questionId] else "Question " + questionId
  }

  /** The route's table agrees with the questionnaire the participant answered. */
  lemma QuestionTextsMatchSurvey()
    ensures forall i :: 0 <= i < |Survey.Questions| ==> GetQuestionText(Survey.Questions[i].id) == Survey.Questions[i].text
  {
    assert GetQuestionText("1") == Survey.RecommendText;
    assert GetQuestionText("2") == Survey.FindText;
    assert GetQuestionText("3") == Survey.ReturnText;
    assert GetQuestionText("4") == Survey.SatisfiedText;
    assert GetQuestionText("5") == Survey.PurchaseText;
  }

  function SurveyLines(answers: Option<seq<(string, int)>>): seq<string>
  {
    var es := if answers.Some? then answers.value else [];
    seq(|es|, i requires 0 <= i < |es| => "- " + GetQuestionText(es[i].0) + ": " + IntToString(es[i].1) + "/5")
  }

  /** A digest, or its placeholder sentence when it is empty. */
  function Section(lines: seq<string>, placeholder: string): string
  {
    var joined := Join(lines, "\n");
    if joined == "" then placeholder else joined
  }

  /** The placeholders stand exactly for empty lists: every line is non-empty and starts with
      a digit or a dash, which no placeholder does. */
  lemma SectionsArePlaceholdersIffEmpty(b: SummaryBody)
    ensures Section(ActionLines(b.userEvents), NoActions) == NoActions <==> |ActionLines(b.userEvents)| == 0
    ensures Section(ConversationLines(b.conversationHistory), NoConversation) == NoConversation
            <==> |ConversationLines(b.conversationHistory)| == 0
    ensures Section(SurveyLines(b.surveyAnswers), NoSurvey) == NoSurvey <==> |SurveyLines(b.surveyAnswers)| == 0
  {
    var a := ActionLines(b.userEvents);
    if |a| > 0 {
      var r := RealUserEvents(if b.userEvents.Some? then b.userEvents.value else []);
      assert a[0] == ActionLine(0, r[0]);
      assert NatToString(1) == "1";
      assert a[0][0] == '1';
      JoinHead(a, "\n");
    }
    var c := ConversationLines(b.conversationHistory);
    if |c| > 0 {
      var ms := b.conversationHistory.value;
      assert NatToString(1) == "1";
      assert c[0][0] == '1';
      JoinHead(c, "\n");
    }
    var s := SurveyLines(b.surveyAnswers);
    if |s| > 0 {
      assert s[0][0] == '-';
      JoinHead(s, "\n");
    }
  }

  function UserPrompt(domain: string, actions: string, conversation: string, survey: string): string
  {
    PromptHead + domain + ActionsHeading + actions + ConversationHeading + conversation + SurveyHeading + survey + PromptTail
  }

  /** The two messages sent for a body: the fixed system prompt and the analysis request. */
  function Prompt(b: SummaryBody, parse: Parser): seq<ChatRoute.ChatMessage>
  {
    [ChatRoute.ChatMessage(ChatRoute.System, SystemPrompt),
     ChatRoute.ChatMessage(ChatRoute.UserRole,
       UserPrompt(ChatRoute.Domain(b.testUrl, parse),
                  Section(ActionLines(b.userEvents), NoActions),
                  Section(ConversationLines(b.conversationHistory), NoConversation),
                  Section(SurveyLines(b.surveyAnswers), NoSurvey)))]
  }

  /** Serving a POST: a missing key fails before anything else; an unreadable body or a
      failed request gives the generic 500; an empty completion gives a 500; otherwise the
      trimmed summary is returned. */
  function Post(body: Option<SummaryBody>, apiKey: Option<string>, parse: Parser, completion: ChatRoute.Completion): (o: Outcome)
    ensures body.None? ==> o == Outcome(Failure(500, InternalError), None)
    ensures body.Some? && !Truthy(apiKey) ==> o == Outcome(Failure(500, KeyMissing), None)
    ensures body.Some? && Truthy(apiKey) ==> o.sent == Some(Prompt(body.value, parse))
    ensures o.response.Summarised? <==>
              body.Some? && Truthy(apiKey) && completion.Completed? && Truthy(completion.content)
    ensures o.response.Summarised? ==> o.response.summary == Trim(completion.content.value)
    ensures body.Some? && Truthy(apiKey) && completion.NotOk? ==> o.response == Failure(completion.status, UpstreamFailed)
    ensures body.Some? && Truthy(apiKey) && completion.Completed? && !Truthy(completion.content) ==>
              o.response == Failure(500, NoSummary)
  {
    match body
    case None => Outcome(Failure(500, InternalError), None)
    case Some(b) =>
      if !Truthy(apiKey) then Outcome(Failure(500, KeyMissing), None)
      else
        var sent := Some(Prompt(b, parse));
        match completion
        case Rejected => Outcome(Failure(500, InternalError), sent)
        case NotOk(status) => Outcome(Failure(status, UpstreamFailed), sent)
        case Completed(content) =>
          if Truthy(content) then Outcome(Summarised(Trim(content.value)), sent)
          else Outcome(Failure(500, NoSummary), sent)
  }
}
