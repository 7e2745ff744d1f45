/** The participant's screens, app/page.tsx: address entry, the spoken introduction, the
    test itself, the questionnaire and the summary, in a cycle. The handlers move between
    them and keep the test's address, the conversation and the answers. */
module ParticipantFlow {
  import opened Common
  import opened Events
  import opened Url
  import opened SessionContext
  import DemoConfig

  datatype FlowState = UrlInput | Intro | Testing | SurveyScreen | Summary

  /** `demoConfig`: none without an address, otherwise the demo configuration for it. */
  function DemoConfigFor(testUrl: string, parse: Parser): (r: Option<DemoConfig.Config>)
    ensures testUrl == "" ==> r == None
  {
    if testUrl == "" then None else DemoConfig.GetDemoConfig(Some(testUrl), parse)
  }

  /** The empty-address guard changes nothing: the lookup itself never matches "". */
  lemma DemoConfigGuardRedundant(testUrl: string, parse: Parser)
    ensures DemoConfigFor(testUrl, parse) == DemoConfig.GetDemoConfig(Some(testUrl), parse)
  {
  }

  class Flow {
    const ctx: Session
    var flowState: FlowState
    var testUrl: string
    var surveyAnswers: map<string, int>
    var conversationHistory: seq<Message>

    ghost predicate Valid()
      reads this, ctx
    {
      ctx.Valid()
    }

    constructor (ctx: Session)
      requires ctx.Valid()
      ensures Valid()
      ensures this.ctx == ctx && flowState == UrlInput && testUrl == "" && surveyAnswers == map[] && conversationHistory == []
    {
      this.ctx := ctx;
      flowState := UrlInput;
      testUrl := "";
      surveyAnswers := map[];
      conversationHistory := [];
    }

    /** `handleURLSubmit`: the address is kept and the introduction follows. */
    method HandleURLSubmit(url: string)
      requires Valid()
      modifies this
      ensures Valid()
      ensures testUrl == url && flowState == Intro
      ensures surveyAnswers == old(surveyAnswers) && conversationHistory == old(conversationHistory)
    {
      testUrl := url;
      flowState := Intro;
    }

    /** `handleIntroContinue`: the session starts now and the test begins. */
    method HandleIntroContinue(now: int)
      requires Valid()
      modifies this, ctx
      ensures Valid()
      ensures ctx.active && ctx.startTime == Some(now) && ctx.events == old(ctx.events)
      ensures flowState == Testing
      ensures testUrl == old(testUrl) && surveyAnswers == old(surveyAnswers) && conversationHistory == old(conversationHistory)
    {
      ctx.SetActive(true);
      ctx.SetStartTime(Some(now));
      flowState := Testing;
    }

    /** `handleEndSession`: the session stops, the conversation is kept and the questionnaire
        follows. */
    method HandleEndSession(conversation: seq<Message>)
      requires Valid()
      modifies this, ctx
      ensures Valid()
      ensures !ctx.active && ctx.startTime == old(ctx.startTime) && ctx.events == old(ctx.events)
      ensures conversationHistory == conversation && flowState == SurveyScreen
      ensures testUrl == old(testUrl) && surveyAnswers == old(surveyAnswers)
    {
      ctx.SetActive(false);
      conversationHistory := conversation;
      flowState := SurveyScreen;
    }

    /** `handleSurveyComplete`: the answers are kept and the summary follows. */
    method HandleSurveyComplete(answers: map<string, int>)
      requires Valid()
      modifies this
      ensures Valid()
      ensures surveyAnswers == answers && flowState == Summary
      ensures testUrl == old(testUrl) && conversationHistory == old(conversationHistory)
    {
      surveyAnswers := answers;
      flowState := Summary;
    }

    /** `handleSummaryClose`: back to address entry with the address, answers and
        conversation cleared; the session's log and start time are left as they are. */
    method HandleSummaryClose()
      requires Valid()
      ensures Valid()
      modifies this
      ensures flowState == UrlInput && testUrl == "" && surveyAnswers == map[] && conversationHistory == []
    {
      flowState := UrlInput;
      testUrl := "";
      surveyAnswers := map[];
      conversationHistory := [];
    }
  }

  /** One participant's full run: the screens come in order and the flow ends where it
      started, with the session stopped but its events and start time still held. */
  method FullRun(url: string, conversation: seq<Message>, answers: map<string, int>, now: int)
    returns (screens: seq<FlowState>, clearedUrl: string, stillActive: bool, keptStart: Option<int>)
    ensures screens == [Intro, Testing, SurveyScreen, Summary, UrlInput]
    ensures clearedUrl == "" && !stillActive && keptStart == Some(now)
  {
    var ctx := new Session();
    var flow := new Flow(ctx);
    flow.HandleURLSubmit(url);
    screens := [flow.flowState];
    flow.HandleIntroContinue(now);
    screens := screens + [flow.flowState];
    flow.HandleEndSession(conversation);
    screens := screens + [flow.flowState];
    flow.HandleSurveyComplete(answers);
    screens := screens + [flow.flowState];
    flow.HandleSummaryClose();
    screens := screens + [flow.flowState];
    clearedUrl := flow.testUrl;
    stillActive := ctx.active;
    keptStart := ctx.startTime;
  }
}
