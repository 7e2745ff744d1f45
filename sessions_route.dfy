/** The session save endpoint of app/api/sessions/route.ts: it validates the body, works out
    the session's length, fills in defaults for the stored record, and mirrors the session
    into its project when both ids are known. */
module SessionsRoute {
  import opened Common
  import opened Events
  import opened Store

  const UrlRequired := "testUrl is required"
  const SaveFailed := "Failed to save session"
  const InternalError := "Internal server error"

  /** The parsed body. Each field is None when it is absent or falsy where the route only
      tests truthiness; `sessionStartTime` keeps the number, whose 0 is falsy. */
  datatype SessionBody = SessionBody(
    testUrl: Option<string>,
    userEvents: Option<seq<UserEvent>>,
    conversationHistory: Option<seq<Message>>,
    surveyAnswers: Option<seq<(string, int)>>,
    summary: Option<string>,
    sessionStartTime: Option<int>,
    projectId: Option<string>,
    sentimentScore: Option<int>)

  /** The test_sessions row sent to the database. */
  datatype SessionRecord = SessionRecord(
    projectId: Option<string>,
    testUrl: string,
    userEvents: seq<UserEvent>,
    conversationHistory: seq<Message>,
    surveyAnswers: seq<(string, int)>,
    summary: Option<string>,
    sentimentScore: Option<int>,
    sessionDuration: Option<int>)

  /** The row the database returns; only its id is looked at. */
  datatype SavedRow = SavedRow(id: Option<string>)

  /** The project_sessions row written as a mirror. */
  datatype ProjectSession = ProjectSession(projectId: string, sessionId: string, sentimentScore: Option<int>)

  datatype Response = Saved(sessionId: Option<string>, session: SavedRow) | Failure(status: int, error: string)

  /** `sessionStartTime ? Math.round((Date.now() - sessionStartTime) / 1000) : undefined`, with
      the clock reading passed in: whole seconds, rounded to the nearest, when a non-zero
      start time is known. */
  function Duration(start: Option<int>, now: int): (d: Option<int>)
    ensures d.None? <==> start.None? || start.value == 0
    ensures d.Some? ==> 1000 * d.value - 500 <= now - start.value < 1000 * d.value + 500
  {
    if start.Some? && start.value != 0 then Some(RoundMillisToSeconds(now - start.value)) else None
  }

  /** A session that started before the clock reading has a non-negative length. */
  lemma DurationNonNegative(start: Option<int>, now: int)
    requires start.Some? && start.value != 0 && start.value <= now
    ensures Duration(start, now).Some? && Duration(start, now).value >= 0
  {
  }

  /** The stored record: no project becomes null, missing lists become empty, the answers
      become `{}`, an empty summary is left out, and the duration is computed as above. */
  function Record(b: SessionBody, now: int): (r: SessionRecord)
    requires Truthy(b.testUrl)
    ensures r.testUrl == b.testUrl.value
    ensures r.projectId.Some? <==> Truthy(b.projectId)
    ensures r.userEvents == (if b.userEvents.Some? then b.userEvents.value else [])
    ensures r.conversationHistory == (if b.conversationHistory.Some? then b.conversationHistory.value else [])
    ensures r.surveyAnswers == (if b.surveyAnswers.Some? then b.surveyAnswers.value else [])
    ensures r.summary.Some? <==> Truthy(b.summary)
    ensures r.summary.Some? ==> r.summary == b.summary
    ensures r.sessionDuration == Duration(b.sessionStartTime, now)
    ensures r.sentimentScore == b.sentimentScore
  {
    SessionRecord(
      if Truthy(b.projectId) then b.projectId else None,
      b.testUrl.value,
      if b.userEvents.Some? then b.userEvents.value else [],
      if b.conversationHistory.Some? then b.conversationHistory.value else [],
      if b.surveyAnswers.Some? then b.surveyAnswers.value else [],
      if Truthy(b.summary) then b.summary else None,
      b.sentimentScore,
      Duration(b.sessionStartTime, now))
  }

  /** Serving a POST. `now` is the clock reading and `inserted` the database reply to the
      insert; the mirror's own reply is not a parameter because it never changes the
      response. `record` and `mirror` are the rows written, when they are. */
  method Post(storeConfigured: bool, body: Option<SessionBody>, now: int, inserted: DbResult<SavedRow>)
    returns (resp: Response, record: Option<SessionRecord>, mirror: Option<ProjectSession>)
    ensures !storeConfigured ==> resp == Failure(500, StoreMissing) && record.None?
    ensures storeConfigured && body.None? ==> resp == Failure(500, InternalError) && record.None?
    ensures storeConfigured && body.Some? && !Truthy(body.value.testUrl) ==>
              resp == Failure(400, UrlRequired) && record.None?
    ensures record.Some? <==> storeConfigured && body.Some? && Truthy(body.value.testUrl)
    ensures record.Some? ==> record.value == Record(body.value, now)
    ensures record.Some? && inserted.DbError? ==> resp == Failure(500, SaveFailed) && mirror.None?
    ensures mirror.Some? <==>
              record.Some? && inserted.DbData? && Truthy(body.value.projectId)
              && inserted.data.Some? && Truthy(inserted.data.value.id)
    ensures mirror.Some? ==>
              mirror.value == ProjectSession(body.value.projectId.value, inserted.data.value.id.value, body.value.sentimentScore)
    ensures record.Some? && inserted.DbData? && inserted.data.None? ==> resp == Failure(500, InternalError)
    ensures resp.Saved? <==> record.Some? && inserted.DbData? && inserted.data.Some?
    ensures resp.Saved? ==> resp.session == inserted.data.value && resp.sessionId == inserted.data.value.id
  {
    record, mirror := None, None;
    if !storeConfigured {
      return Failure(500, StoreMissing), record, mirror;
    }
    if body.None? {
      return Failure(500, InternalError), record, mirror;
    }
    var b := body.value;
    if !Truthy(b.testUrl) {
      return Failure(400, UrlRequired), record, mirror;
    }
    record := Some(Record(b, now));
    if inserted.DbError? {
      return Failure(500, SaveFailed), record, mirror;
    }
    var data := inserted.data;
    if Truthy(b.projectId) && data.Some? && Truthy(data.value.id) {
      mirror := Some(ProjectSession(b.projectId.value, data.value.id.value, b.sentimentScore));
    }
    if data.None? {
      // `data.id` on a null reply throws, and the catch answers with the generic error.
      return Failure(500, InternalError), record, mirror;
    }
    resp := Saved(data.value.id, data.value);
  }
}
