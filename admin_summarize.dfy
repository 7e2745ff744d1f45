/** The cross-session summary of app/api/admin/summarize/route.ts: the administrator check,
    the validation steps, the aggregation of several stored sessions (events, conversations,
    survey answers grouped per question, the tested URLs, the tally of event types) and the
    request sent to the completion service. */
module AdminSummarize {
  import opened Common
  import opened Events
  import opened Store
  import opened AdminAuth
  import SummaryRoute

  /** A stored test_sessions row as the route reads it. `userEvents` and `conversation` are
      None when the stored value is falsy or not an array (both contribute nothing);
      `surveyAnswers` is the `Object.entries` of a truthy stored object, None otherwise. */
  datatype SessionRow = SessionRow(
    testUrl: string,
    userEvents: Option<seq<UserEvent>>,
    conversation: Option<seq<Message>>,
    surveyAnswers: Option<seq<(string, int)>>,
    summary: Option<string>)

  /** The parsed body; `sessionIds` is None when it is missing or not an array. */
  datatype SummarizeBody = SummarizeBody(sessionIds: Option<seq<string>>)

  /** The completion client either throws (a failed request) or yields the first choice's
      content, which may be null. */
  datatype SdkResult = SdkThrew | SdkAnswered(content: Option<string>)

  datatype Response =
    | Summarised(summary: string, sessionCount: nat, totalEvents: nat, totalConversations: nat, surveyResponses: nat)
    | Failure(status: int, error: string)

  const KeyMissing := "OPENAI_API_KEY not configured"
  const SessionIdsRequired := "sessionIds array is required"
  const FetchFailed := "Failed to fetch sessions"
  const NoSessions := "No sessions found"
  const NoSummary := "No summary generated"
  const InternalError := "Internal server error"
  const NoSummaryAvailable := "No summary available"

  /** The conversation digest shows at most this many messages. */
  const ConversationLimit := 50

  /** The fixed text of the prompt, between its interpolated values. */
  const Piece0: string := @"Analyze "
  const Piece1: string := @" usability testing sessions for "
  const Piece2: string := @" and provide a comprehensive cross-session summary.

**Aggregated User Actions ("
  const Piece3: string := @" total):**
"
  const Piece4: string := @"

**Conversation History ("
  const Piece5: string := @" total messages, showing first 50):**
"
  const Piece6: string := @"

**Post-Test Survey Results ("
  const Piece7: string := @" questions):**
"
  const Piece8: string := @"

**Individual Session Summaries:**
"
  /** The closing instructions, held one line per constant. */
  const Piece9: string := "\n\n" + AskAnalysis + AskPatterns + AskPainPoints + AskSuccesses + AskInsights
                          + AskRecommendations + "\n" + AskFormat
  const AskAnalysis := "Please provide a detailed cross-session analysis covering:\n"
  const AskPatterns := "1. **Overall Patterns**: What common behaviors and patterns emerged across all sessions?\n"
  const AskPainPoints := "2. **Consistent Pain Points**: What issues were encountered by multiple users?\n"
  const AskSuccesses := "3. **Success Patterns**: What worked well across sessions?\n"
  const AskInsights := "4. **Key Insights**: What are the most important findings when looking at all sessions together?\n"
  const AskRecommendations := "5. **Recommendations**: What specific improvements would you suggest based on the aggregated data?\n"
  const AskFormat := "Format your response in clear sections with headers. Be specific and reference actual patterns from the data."

  // ---------------------------------------------------------------------------------------
  // Reference definitions of the aggregates, all read from the end of the sequence.

  function Items<T>(o: Option<seq<T>>): seq<T>
  {
    if o.Some? then o.value else []
  }

  /** Every session's events, one session after the other. */
  function AllEvents(ss: seq<SessionRow>): seq<UserEvent>
  {
    if |ss| == 0 then [] else AllEvents(ss[..|ss| - 1]) + Items(ss[|ss| - 1].userEvents)
  }

  /** Every session's conversation messages, one session after the other. */
  function AllConversations(ss: seq<SessionRow>): seq<Message>
  {
    if |ss| == 0 then [] else AllConversations(ss[..|ss| - 1]) + Items(ss[|ss| - 1].conversation)
  }

  /** Every session's survey entries, one session after the other. */
  function AllEntries(ss: seq<SessionRow>): seq<(string, int)>
  {
    if |ss| == 0 then [] else AllEntries(ss[..|ss| - 1]) + Items(ss[|ss| - 1].surveyAnswers)
  }

  function Urls(ss: seq<SessionRow>): seq<string>
  {
    if |ss| == 0 then [] else Urls(ss[..|ss| - 1]) + [ss[|ss| - 1].testUrl]
  }

  function EntryKeys(es: seq<(string, int)>): seq<string>
  {
    if |es| == 0 then [] else EntryKeys(es[..|es| - 1]) + [es[|es| - 1].0]
  }

  /** The ratings recorded under question id `k`, in the order they were met. */
  function Ratings(es: seq<(string, int)>, k: string): seq<int>
  {
    if |es| == 0 then []
    else Ratings(es[..|es| - 1], k) + (if es[|es| - 1].0 == k then [es[|es| - 1].1] else [])
  }

  /** The `type` texts of the events whose type is truthy, in log order. */
  function TypeTexts(es: seq<UserEvent>): (r: seq<string>)
    ensures |r| <= |es|
  {
    if |es| == 0 then []
    else TypeTexts(es[..|es| - 1]) + (if TagTruthy(es[|es| - 1].tag) then [TagText(es[|es| - 1].tag)] else [])
  }

  /** The distinct elements in order of first appearance: the key order of a JavaScript
      object filled by these insertions, and the iteration order of a `Set`. */
  function Dedup(xs: seq<string>): seq<string>
  {
    if |xs| == 0 then []
    else
      var d := Dedup(xs[..|xs| - 1]);
      if xs[|xs| - 1] in d then d else d + [xs[|xs| - 1]]
  }

  predicate Distinct(xs: seq<string>)
  {
    forall i, j :: 0 <= i < j < |xs| ==> xs[i] != xs[j]
  }

  /** How many times `k` occurs in `xs`. */
  function Count(xs: seq<string>, k: string): nat
  {
    if |xs| == 0 then 0 else Count(xs[..|xs| - 1], k) + (if xs[|xs| - 1] == k then 1 else 0)
  }

  // ---------------------------------------------------------------------------------------
  // Properties of the reference definitions.

  /** Dedup keeps every element once and invents none. */
  lemma {:induction false} DedupSpec(xs: seq<string>)
    ensures Distinct(Dedup(xs))
    ensures forall x :: x in Dedup(xs) <==> x in xs
  {
    if |xs| > 0 {
      var p := xs[..|xs| - 1];
      DedupSpec(p);
      assert xs == p + [xs[|xs| - 1]];
    }
  }

  lemma {:induction false} CountZero(xs: seq<string>, k: string)
    ensures Count(xs, k) == 0 <==> k !in xs
  {
    if |xs| > 0 {
      var p := xs[..|xs| - 1];
      CountZero(p, k);
      assert xs == p + [xs[|xs| - 1]];
    }
  }

  /** A sequence without repetitions has as many elements as its set. */
  lemma {:induction false} DistinctCardinality(xs: seq<string>)
    requires Distinct(xs)
    ensures |set x | x in xs| == |xs|
  {
    if |xs| > 0 {
      var p := xs[..|xs| - 1];
      var x := xs[|xs| - 1];
      DistinctCardinality(p);
      assert x !in p;
      assert (set y | y in xs) == (set y | y in p) + {x} by {
        assert xs == p + [x];
      }
    }
  }

  /** The number of distinct question ids is the size of the set of ids. */
  lemma DedupCardinality(xs: seq<string>)
    ensures |Dedup(xs)| == |set x | x in xs|
  {
    DedupSpec(xs);
    DistinctCardinality(Dedup(xs));
    assert (set x | x in Dedup(xs)) == (set x | x in xs);
  }

  /** Σ over `keys` of the number of times each occurs in `xs`. */
  function SumCounts(xs: seq<string>, keys: seq<string>): nat
  {
    if |keys| == 0 then 0 else SumCounts(xs, keys[..|keys| - 1]) + Count(xs, keys[|keys| - 1])
  }

  lemma {:induction false} SumCountsStep(xs: seq<string>, x: string, keys: seq<string>)
    ensures SumCounts(xs + [x], keys) == SumCounts(xs, keys) + Count(keys, x)
  {
    if |keys| > 0 {
      SumCountsStep(xs, x, keys[..|keys| - 1]);
      assert (xs + [x])[..|xs + [x]| - 1] == xs;
    }
  }

  lemma {:induction false} CountDistinct(keys: seq<string>, x: string)
    requires Distinct(keys)
    ensures Count(keys, x) == if x in keys then 1 else 0
  {
    if |keys| > 0 {
      var p := keys[..|keys| - 1];
      CountDistinct(p, x);
      assert keys == p + [keys[|keys| - 1]];
      if keys[|keys| - 1] == x {
        assert x !in p;
      }
    }
  }

  /** The tally over the distinct elements adds up to the length: every element is counted
      under exactly one key. */
  lemma {:induction false} TallySum(xs: seq<string>)
    ensures SumCounts(xs, Dedup(xs)) == |xs|
  {
    if |xs| > 0 {
      var p := xs[..|xs| - 1];
      var x := xs[|xs| - 1];
      assert xs == p + [x];
      TallySum(p);
      var d := Dedup(p);
      DedupSpec(p);
      SumCountsStep(p, x, d);
      CountDistinct(d, x);
      if x !in d {
        assert Dedup(xs) == d + [x];
        assert (d + [x])[..|d + [x]| - 1] == d;
        CountZero(p, x);
      }
    }
  }

  /** Σ over `keys` of a tally stored in a map. */
  function Total(counts: map<string, nat>, keys: seq<string>): nat
    requires forall k :: k in keys ==> k in counts
  {
    if |keys| == 0 then 0 else Total(counts, keys[..|keys| - 1]) + counts[keys[|keys| - 1]]
  }

  lemma {:induction false} TotalIsSumCounts(counts: map<string, nat>, keys: seq<string>, xs: seq<string>)
    requires forall k :: k in keys ==> k in counts && counts[k] == Count(xs, k)
    ensures Total(counts, keys) == SumCounts(xs, keys)
  {
    if |keys| > 0 {
      TotalIsSumCounts(counts, keys[..|keys| - 1], xs);
    }
  }

  function SessionsWithKey(ss: seq<SessionRow>, k: string): nat
  {
    if |ss| == 0 then 0
    else SessionsWithKey(ss[..|ss| - 1], k) + (if k in EntryKeys(Items(ss[|ss| - 1].surveyAnswers)) then 1 else 0)
  }

  lemma {:induction false} EntryKeysAppend(a: seq<(string, int)>, b: seq<(string, int)>)
    ensures EntryKeys(a + b) == EntryKeys(a) + EntryKeys(b)
  {
    if |b| > 0 {
      EntryKeysAppend(a, b[..|b| - 1]);
      assert (a + b)[..|a + b| - 1] == a + b[..|b| - 1];
    } else {
      assert a + b == a;
    }
  }

  lemma {:induction false} RatingsAppend(a: seq<(string, int)>, b: seq<(string, int)>, k: string)
    ensures Ratings(a + b, k) == Ratings(a, k) + Ratings(b, k)
  {
    if |b| > 0 {
      RatingsAppend(a, b[..|b| - 1], k);
      assert (a + b)[..|a + b| - 1] == a + b[..|b| - 1];
    } else {
      assert a + b == a;
    }
  }

  lemma {:induction false} RatingsCount(es: seq<(string, int)>, k: string)
    ensures |Ratings(es, k)| == Count(EntryKeys(es), k)
  {
    if |es| > 0 {
      RatingsCount(es[..|es| - 1], k);
    }
  }

  /** Within one stored object every question id occurs once, so each session contributes at
      most one rating per id. */
  predicate OneAnswerPerQuestion(ss: seq<SessionRow>)
  {
    forall i :: 0 <= i < |ss| ==> Distinct(EntryKeys(Items(ss[i].surveyAnswers)))
  }

  /** Each question's list of ratings is as long as the number of sessions that answered it. */
  lemma {:induction false} RatingsPerSession(ss: seq<SessionRow>, k: string)
    requires OneAnswerPerQuestion(ss)
    ensures |Ratings(AllEntries(ss), k)| == SessionsWithKey(ss, k)
  {
    if |ss| > 0 {
      var p := ss[..|ss| - 1];
      var last := Items(ss[|ss| - 1].surveyAnswers);
      assert OneAnswerPerQuestion(p) by {
        forall i | 0 <= i < |p| ensures Distinct(EntryKeys(Items(p[i].surveyAnswers))) {
          assert p[i] == ss[i];
        }
      }
      RatingsPerSession(p, k);
      RatingsAppend(AllEntries(p), last, k);
      RatingsCount(last, k);
      CountDistinct(EntryKeys(last), k);
    }
  }

  // ---------------------------------------------------------------------------------------
  // The aggregation loops.

  /** The survey dictionary and its key order hold exactly the ratings of `entries`. */
  ghost predicate Grouped(answers: map<string, seq<int>>, keys: seq<string>, entries: seq<(string, int)>)
  {
    && keys == Dedup(EntryKeys(entries))
    && (forall k :: k in answers <==> k in keys)
    && (forall k :: k in answers ==> answers[k] == Ratings(entries, k))
  }

  /** What visiting the next session adds to each aggregate. */
  lemma AggregateStep(ss: seq<SessionRow>, i: nat)
    requires i < |ss|
    ensures AllEvents(ss[..i + 1]) == AllEvents(ss[..i]) + Items(ss[i].userEvents)
    ensures AllConversations(ss[..i + 1]) == AllConversations(ss[..i]) + Items(ss[i].conversation)
    ensures AllEntries(ss[..i + 1]) == AllEntries(ss[..i]) + Items(ss[i].surveyAnswers)
    ensures Urls(ss[..i + 1]) == Urls(ss[..i]) + [ss[i].testUrl]
  {
    assert ss[..i + 1][..i] == ss[..i];
  }

  /** What the next element adds to the tallies. */
  lemma TallyStep(xs: seq<string>, x: string)
    ensures Dedup(xs + [x]) == if x in Dedup(xs) then Dedup(xs) else Dedup(xs) + [x]
    ensures forall k :: Count(xs + [x], k) == Count(xs, k) + (if x == k then 1 else 0)
  {
    assert (xs + [x])[..|xs|] == xs;
  }

  lemma EntryStep(es: seq<(string, int)>, e: (string, int))
    ensures EntryKeys(es + [e]) == EntryKeys(es) + [e.0]
    ensures forall q :: Ratings(es + [e], q) == Ratings(es, q) + (if e.0 == q then [e.1] else [])
  {
    assert (es + [e])[..|es|] == es;
  }

  /** The key order after pushing one rating: the id is appended the first time it is met. */
  lemma PushedKeys(answers: map<string, seq<int>>, keys: seq<string>, done: seq<(string, int)>, k: string, v: int)
    requires Grouped(answers, keys, done)
    ensures (if k in answers then keys else keys + [k]) == Dedup(EntryKeys(done + [(k, v)]))
  {
    EntryStep(done, (k, v));
    TallyStep(EntryKeys(done), k);
  }

  /** The lists after pushing one rating: the pushed id's list gains it, the others stay. */
  lemma PushedRatings(answers: map<string, seq<int>>, keys: seq<string>, done: seq<(string, int)>, k: string, v: int)
    requires Grouped(answers, keys, done)
    ensures var created := if k in answers then answers else answers[k := []];
            var answers' := created[k := created[k] + [v]];
            forall q :: q in answers' ==> answers'[q] == Ratings(done + [(k, v)], q)
  {
    EntryStep(done, (k, v));
    var created := if k in answers then answers else answers[k := []];
    if k !in answers {
      DedupSpec(EntryKeys(done));
      RatingsCount(done, k);
      CountZero(EntryKeys(done), k);
    }
    assert created[k] == Ratings(done, k);
  }

  /** Pushing one rating, after creating its list when the id is new, keeps the dictionary
      in step with the entries. */
  lemma GroupedStep(answers: map<string, seq<int>>, keys: seq<string>, done: seq<(string, int)>, k: string, v: int)
    requires Grouped(answers, keys, done)
    ensures var created := if k in answers then answers else answers[k := []];
            Grouped(created[k := created[k] + [v]], if k in answers then keys else keys + [k], done + [(k, v)])
  {
    PushedKeys(answers, keys, done, k, v);
    PushedRatings(answers, keys, done, k, v);
    var created := if k in answers then answers else answers[k := []];
    var answers' := created[k := created[k] + [v]];
    var keys' := if k in answers then keys else keys + [k];
    assert forall q :: q in answers' <==> q in keys';
  }

  /** `GroupedStep` with the new state named, as the loop of `AddAnswers` produces it. */
  lemma GroupedPush(answers: map<string, seq<int>>, keys: seq<string>, done: seq<(string, int)>, k: string, v: int,
                    created: map<string, seq<int>>, answers': map<string, seq<int>>, keys': seq<string>)
    requires Grouped(answers, keys, done)
    requires created == if k in answers then answers else answers[k := []]
    requires keys' == if k in answers then keys else keys + [k]
    requires answers' == created[k := created[k] + [v]]
    ensures Grouped(answers', keys', done + [(k, v)])
  {
    GroupedStep(answers, keys, done, k, v);
  }

  /** `Object.entries(answers).forEach(...)`: each rating is pushed onto its question's list,
      which is created the first time the id is met. */
  method AddAnswers(answers: map<string, seq<int>>, keys: seq<string>, es: seq<(string, int)>, ghost before: seq<(string, int)>)
    returns (answers': map<string, seq<int>>, keys': seq<string>)
    requires Grouped(answers, keys, before)
    ensures Grouped(answers', keys', before + es)
  {
    answers', keys' := answers, keys;
    var j := 0;
    assert before + es[..0] == before;
    while j < |es|
      invariant 0 <= j <= |es|
      invariant Grouped(answers', keys', before + es[..j])
    {
      var (k, v) := es[j];
      ghost var done := before + es[..j];
      ghost var (answers0, keys0) := (answers', keys');
      assert before + es[..j + 1] == done + [(k, v)];
      var created := answers';
      if k !in answers' {
        created := answers'[k := []];
        keys' := keys' + [k];
      }
      answers' := created[k := created[k] + [v]];
      GroupedPush(answers0, keys0, done, k, v, created, answers', keys');
      j := j + 1;
    }
    assert es[..j] == es;
  }

  /** `sessions.forEach(...)`: the URL set, the event and conversation lists and the survey
      dictionary after visiting every session in order. */
  method Aggregate(sessions: seq<SessionRow>)
    returns (events: seq<UserEvent>, conversations: seq<Message>, answers: map<string, seq<int>>,
             answerKeys: seq<string>, testUrls: seq<string>)
    ensures events == AllEvents(sessions)
    ensures conversations == AllConversations(sessions)
    ensures Grouped(answers, answerKeys, AllEntries(sessions))
    ensures testUrls == Dedup(Urls(sessions))
  {
    events, conversations, answers, answerKeys, testUrls := [], [], map[], [], [];
    var i := 0;
    while i < |sessions|
      invariant 0 <= i <= |sessions|
      invariant events == AllEvents(sessions[..i])
      invariant conversations == AllConversations(sessions[..i])
      invariant Grouped(answers, answerKeys, AllEntries(sessions[..i]))
      invariant testUrls == Dedup(Urls(sessions[..i]))
    {
      var s := sessions[i];
      AggregateStep(sessions, i);
      if s.testUrl !in testUrls {
        testUrls := testUrls + [s.testUrl];
      }
      if s.userEvents.Some? {
        events := events + s.userEvents.value;
      }
      if s.conversation.Some? {
        conversations := conversations + s.conversation.value;
      }
      if s.surveyAnswers.Some? {
        answers, answerKeys := AddAnswers(answers, answerKeys, s.surveyAnswers.value, AllEntries(sessions[..i]));
      } else {
        assert AllEntries(sessions[..i + 1]) == AllEntries(sessions[..i]);
      }
      i := i + 1;
    }
    assert sessions[..i] == sessions;
  }

  /** The counters and their key order agree with the type texts seen so far. */
  ghost predicate Tallied(counts: map<string, nat>, keys: seq<string>, ts: seq<string>)
  {
    && keys == Dedup(ts)
    && (forall k :: k in counts <==> k in keys)
    && (forall k :: k in counts ==> counts[k] == Count(ts, k) && counts[k] > 0)
  }

  /** Counting one more type text, creating its counter at 1 when it is new. */
  lemma TallyPush(counts: map<string, nat>, keys: seq<string>, ts: seq<string>, t: string,
                  counts': map<string, nat>, keys': seq<string>)
    requires Tallied(counts, keys, ts)
    requires keys' == if t in counts then keys else keys + [t]
    requires counts' == counts[t := (if t in counts then counts[t] else 0) + 1]
    ensures Tallied(counts', keys', ts + [t])
  {
    TallyStep(ts, t);
    DedupSpec(ts);
    CountZero(ts, t);
  }

  /** `allUserEvents.forEach(...)`: one counter per truthy event type, created at 1 the
      first time the type is met and incremented afterwards. */
  method CountEventTypes(events: seq<UserEvent>) returns (counts: map<string, nat>, typeKeys: seq<string>)
    ensures typeKeys == Dedup(TypeTexts(events))
    ensures forall k :: k in counts <==> k in typeKeys
    ensures forall k :: k in counts ==> counts[k] == Count(TypeTexts(events), k) && counts[k] > 0
  {
    counts, typeKeys := map[], [];
    var i := 0;
    while i < |events|
      invariant 0 <= i <= |events|
      invariant Tallied(counts, typeKeys, TypeTexts(events[..i]))
    {
      var e := events[i];
      assert events[..i + 1][..i] == events[..i];
      assert events[..i + 1][i] == e;
      if TagTruthy(e.tag) {
        var t := TagText(e.tag);
        assert TypeTexts(events[..i + 1]) == TypeTexts(events[..i]) + [t];
        ghost var (counts0, keys0) := (counts, typeKeys);
        var previous := if t in counts then counts[t] else 0;
        if t !in counts {
          typeKeys := typeKeys + [t];
        }
        counts := counts[t := previous + 1];
        TallyPush(counts0, keys0, TypeTexts(events[..i]), t, counts, typeKeys);
      } else {
        assert TypeTexts(events[..i + 1]) == TypeTexts(events[..i]);
      }
      i := i + 1;
    }
    assert events[..i] == events;
  }

  /** The reported tally accounts for every event with a truthy type exactly once. */
  lemma EventTypeTotal(events: seq<UserEvent>, counts: map<string, nat>, typeKeys: seq<string>)
    requires typeKeys == Dedup(TypeTexts(events))
    requires forall k :: k in counts <==> k in typeKeys
    requires forall k :: k in counts ==> counts[k] == Count(TypeTexts(events), k)
    ensures Total(counts, typeKeys) == |TypeTexts(events)|
  {
    TotalIsSumCounts(counts, typeKeys, TypeTexts(events));
    TallySum(TypeTexts(events));
  }

  // ---------------------------------------------------------------------------------------
  // The digests and the prompt.

  function ActionLines(counts: map<string, nat>, keys: seq<string>): seq<string>
    requires forall k :: k in keys ==> k in counts
  {
    seq(|keys|, i requires 0 <= i < |keys| => "- " + keys[i] + ": " + NatToString(counts[keys[i]]) + " occurrence(s)")
  }

  /** The numbered conversation lines over the first 50 messages. */
  function ConversationLines(ms: seq<Message>): seq<string>
  {
    var n := if |ms| < ConversationLimit then |ms| else ConversationLimit;
    seq(n, i requires 0 <= i < n => NatToString(i + 1) + ". " + SummaryRoute.SpeakerName(ms[i].speaker) + ": " + ms[i].text)
  }

  /** Messages after the fiftieth never reach the prompt. */
  lemma ConversationDigestIgnoresTail(ms: seq<Message>, later: seq<Message>)
    requires |ms| >= ConversationLimit
    ensures ConversationLines(ms + later) == ConversationLines(ms)
    ensures |ConversationLines(ms)| == ConversationLimit
  {
    assert forall i :: 0 <= i < |ms| ==> (ms + later)[i] == ms[i];
  }

  /** One survey line per question id; `average` stands for the floating-point mean
      rendered with one decimal. */
  function SurveyLines(answers: map<string, seq<int>>, keys: seq<string>, average: seq<int> -> string): seq<string>
    requires forall k :: k in keys ==> k in answers
  {
    seq(|keys|, i requires 0 <= i < |keys| =>
      "- " + SummaryRoute.GetQuestionText(keys[i]) + ": Average " + average(answers[keys[i]]) + "/5 ("
      + NatToString(|answers[keys[i]]|) + " responses)")
  }

  function SessionLine(i: nat, s: SessionRow): string
  {
    NatToString(i + 1) + ". Session " + NatToString(i + 1) + " (" + s.testUrl + "): "
    + (if Truthy(s.summary) then s.summary.value else NoSummaryAvailable)
  }

  function SessionLines(ss: seq<SessionRow>): seq<string>
  {
    seq(|ss|, i requires 0 <= i < |ss| => SessionLine(i, ss[i]))
  }

  /** Each session's own summary, or its placeholder, is quoted in its numbered line. */
  lemma SessionLineQuotesSummary(i: nat, s: SessionRow)
    ensures EndsWith(SessionLine(i, s), if Truthy(s.summary) then s.summary.value else NoSummaryAvailable)
    ensures StartsWith(SessionLine(i, s), NatToString(i + 1) + ". Session ")
  {
    var tail := if Truthy(s.summary) then s.summary.value else NoSummaryAvailable;
    var head := NatToString(i + 1) + ". Session " + NatToString(i + 1) + " (" + s.testUrl + "): ";
    assert SessionLine(i, s) == head + tail;
    assert (head + tail)[|head + tail| - |tail|..] == tail;
    var h := NatToString(i + 1) + ". Session ";
    assert head == h + (NatToString(i + 1) + " (" + s.testUrl + "): ");
    assert SessionLine(i, s)[..|h|] == h;
  }

  function CrossSessionPrompt(sessionCount: nat, urlList: string, eventCount: nat, actions: string,
                              messageCount: nat, conversation: string, questionCount: nat,
                              survey: string, sessions: string): string
  {
    var p := Piece0 + NatToString(sessionCount) + Piece1 + urlList + Piece2;
    var p := p + NatToString(eventCount) + Piece3 + actions + Piece4;
    var p := p + NatToString(messageCount) + Piece5 + conversation + Piece6;
    p + NatToString(questionCount) + Piece7 + survey + Piece8 + sessions + Piece9
  }


  /** The event-type tally as a dictionary from each type text to its count. */
  function TallyMap(xs: seq<string>): map<string, nat>
  {
    map k | k in Dedup(xs) :: Count(xs, k)
  }

  /** The survey dictionary: each question id met, to its ratings in order. */
  function RatingsMap(es: seq<(string, int)>): map<string, seq<int>>
  {
    map k | k in Dedup(EntryKeys(es)) :: Ratings(es, k)
  }

  /** The prompt the route builds for a non-empty list of sessions. */
  function ExpectedPrompt(ss: seq<SessionRow>, average: seq<int> -> string): string
  {
    var types := TypeTexts(AllEvents(ss));
    var keys := Dedup(EntryKeys(AllEntries(ss)));
    CrossSessionPrompt(
      |ss|, Join(Dedup(Urls(ss)), ", "),
      |AllEvents(ss)|, SummaryRoute.Section(ActionLines(TallyMap(types), Dedup(types)), SummaryRoute.NoActions),
      |AllConversations(ss)|, SummaryRoute.Section(ConversationLines(AllConversations(ss)), SummaryRoute.NoConversation),
      |keys|, SummaryRoute.Section(SurveyLines(RatingsMap(AllEntries(ss)), keys, average), SummaryRoute.NoSurvey),
      Join(SessionLines(ss), "\n\n"))
  }

  // ---------------------------------------------------------------------------------------
  // The handler.

  /** The part of the handler after a non-empty list of sessions came back: the aggregates
      are gathered, the prompt built from them is sent, and the completion's reply decides
      the answer. */
  method Summarize(sessions: seq<SessionRow>, average: seq<int> -> string, completion: SdkResult)
    returns (resp: Response, text: string)
    requires |sessions| > 0
    ensures text == ExpectedPrompt(sessions, average)
    ensures completion.SdkThrew? ==> resp == Failure(500, InternalError)
    ensures completion.SdkAnswered? && !Truthy(completion.content) ==> resp == Failure(500, NoSummary)
    ensures resp.Summarised? <==> completion.SdkAnswered? && Truthy(completion.content)
    ensures resp.Summarised? ==>
              && resp.summary == Trim(completion.content.value)
              && resp.sessionCount == |sessions|
              && resp.totalEvents == |AllEvents(sessions)|
              && resp.totalConversations == |AllConversations(sessions)|
              && resp.surveyResponses == |Dedup(EntryKeys(AllEntries(sessions)))|
  {
    var events, conversations, answers, answerKeys, testUrls := Aggregate(sessions);
    var counts, typeKeys := CountEventTypes(events);
    assert counts == TallyMap(TypeTexts(events));
    assert answers == RatingsMap(AllEntries(sessions));
    text := CrossSessionPrompt(
      |sessions|, Join(testUrls, ", "),
      |events|, SummaryRoute.Section(ActionLines(counts, typeKeys), SummaryRoute.NoActions),
      |conversations|, SummaryRoute.Section(ConversationLines(conversations), SummaryRoute.NoConversation),
      |answerKeys|, SummaryRoute.Section(SurveyLines(answers, answerKeys, average), SummaryRoute.NoSurvey),
      Join(SessionLines(sessions), "\n\n"));
    match completion
    case SdkThrew =>
      resp := Failure(500, InternalError);
    case SdkAnswered(content) =>
      if !Truthy(content) {
        resp := Failure(500, NoSummary);
      } else {
        resp := Summarised(Trim(content.value), |sessions|, |events|, |conversations|, |answerKeys|);
      }
  }

  /** Serving a POST. `password` is the configured administrator password, `header` the
      request's Authorization header, `storeConfigured` whether the database client exists,
      `body` the parsed body (None when it cannot be read), `fetched` the database reply to
      the query for those ids, `average` the rendering of a mean, and `completion` what the
      completion client yields for the prompt. `queried` is the id list sent to the
      database and `prompt` the text sent to the completion service. */
  method Post(password: Option<string>, header: Option<string>, storeConfigured: bool,
              apiKey: Option<string>, body: Option<SummarizeBody>,
              fetched: DbResult<seq<SessionRow>>, average: seq<int> -> string, completion: SdkResult)
    returns (resp: Response, queried: Option<seq<string>>, prompt: Option<string>)
    ensures !CheckAdminAuth(password, header) ==> resp == Failure(401, Unauthorized) && queried.None? && prompt.None?
    ensures CheckAdminAuth(password, header) && !storeConfigured ==>
              resp == Failure(500, StoreMissing) && queried.None? && prompt.None?
    ensures CheckAdminAuth(password, header) && storeConfigured && !Truthy(apiKey) ==>
              resp == Failure(500, KeyMissing) && queried.None? && prompt.None?
    ensures queried.Some? <==>
              CheckAdminAuth(password, header) && storeConfigured && Truthy(apiKey) && body.Some?
              && body.value.sessionIds.Some? && |body.value.sessionIds.value| > 0
    ensures queried.Some? ==> queried == body.value.sessionIds
    ensures CheckAdminAuth(password, header) && storeConfigured && Truthy(apiKey) && body.None? ==>
              resp == Failure(500, InternalError)
    ensures CheckAdminAuth(password, header) && storeConfigured && Truthy(apiKey) && body.Some?
            && (body.value.sessionIds.None? || |body.value.sessionIds.value| == 0) ==>
              resp == Failure(400, SessionIdsRequired)
    ensures queried.Some? && fetched.DbError? ==> resp == Failure(500, FetchFailed) && prompt.None?
    ensures queried.Some? && fetched.DbData? && (fetched.data.None? || |fetched.data.value| == 0) ==>
              resp == Failure(404, NoSessions) && prompt.None?
    ensures prompt.Some? <==> queried.Some? && fetched.DbData? && fetched.data.Some? && |fetched.data.value| > 0
    ensures prompt.Some? ==>
              var ss := fetched.data.value;
              prompt.value == ExpectedPrompt(ss, average)
    ensures prompt.Some? && completion.SdkThrew? ==> resp == Failure(500, InternalError)
    ensures prompt.Some? && completion.SdkAnswered? && !Truthy(completion.content) ==> resp == Failure(500, NoSummary)
    ensures resp.Summarised? <==> prompt.Some? && completion.SdkAnswered? && Truthy(completion.content)
    ensures resp.Summarised? ==>
              var ss := fetched.data.value;
              && resp.summary == Trim(completion.content.value)
              && resp.sessionCount == |ss|
              && resp.totalEvents == |AllEvents(ss)|
              && resp.totalConversations == |AllConversations(ss)|
              && resp.surveyResponses == |Dedup(EntryKeys(AllEntries(ss)))|
  {
    queried, prompt := None, None;
    if !CheckAdminAuth(password, header) {
      return Failure(401, Unauthorized), queried, prompt;
    }
    if !storeConfigured {
      return Failure(500, StoreMissing), queried, prompt;
    }
    if !Truthy(apiKey) {
      return Failure(500, KeyMissing), queried, prompt;
    }
    if body.None? {
      return Failure(500, InternalError), queried, prompt;
    }
    var ids := body.value.sessionIds;
    if ids.None? || |ids.value| == 0 {
      return Failure(400, SessionIdsRequired), queried, prompt;
    }
    queried := ids;
    if fetched.DbError? {
      return Failure(500, FetchFailed), queried, prompt;
    }
    if fetched.data.None? || |fetched.data.value| == 0 {
      return Failure(404, NoSessions), queried, prompt;
    }
    var sessions := fetched.data.value;
    var text;
    resp, text := Summarize(sessions, average, completion);
    prompt := Some(text);
  }
}
