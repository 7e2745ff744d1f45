/** The post-test questionnaire of components/PostTestSurvey.tsx: five questions asked one
    at a time, each rated 1 to 5. A rating is stored at once; the step to the next question
    (or the hand-over of all answers after the last) happens 300 ms later, from values the
    click's closure captured. The timer is the explicit step `AdvanceElapsed`. */
module Survey {
  import opened Common

  datatype Question = Question(id: string, text: string)

  const Questions := [
    Question("1", RecommendText),
    Question("2", FindText),
    Question("3", ReturnText),
    Question("4", SatisfiedText),
    Question("5", PurchaseText)]

  const RecommendText := "How likely are you to recommend this website to a friend?"
  const FindText := "How easy was it to find what you were looking for?"
  const ReturnText := "How likely are you to return to this website?"
  const SatisfiedText := "How satisfied were you with the overall experience?"
  const PurchaseText := "How likely are you to complete a purchase or sign up?"

  /** The ids are "1" to "5", in order, so they are pairwise distinct. */
  lemma QuestionIds()
    ensures |Questions| == 5
    ensures forall i :: 0 <= i < 5 ==> Questions[i].id == ["12345"[i]]
    ensures forall i, j :: 0 <= i < j < |Questions| ==> Questions[i].id != Questions[j].id
  {
  }

  /** A step scheduled by a click: the question index and the answers it captured. */
  datatype Advance = Advance(index: nat, answers: map<string, int>)

  class Stepper {
    var currentIndex: nat
    var answers: map<string, int>
    var scheduled: seq<Advance>

    ghost predicate Valid()
      reads this
    {
      currentIndex < |Questions| && forall k :: 0 <= k < |scheduled| ==> scheduled[k].index < |Questions|
    }

    constructor ()
      ensures Valid()
      ensures currentIndex == 0 && answers == map[] && scheduled == []
    {
      currentIndex := 0;
      answers := map[];
      scheduled := [];
    }

    /** `currentRating`: the stored answer for the question on screen, 0 when there is none. */
    function CurrentRating(): (r: int)
      requires Valid()
      reads this
      ensures Questions[currentIndex].id in answers ==> r == answers[Questions[currentIndex].id]
      ensures Questions[currentIndex].id !in answers ==> r == 0
    {
      var id := Questions[currentIndex].id;
      if id in answers && answers[id] != 0 then answers[id] else 0
    }

    /** `handleRating`: the rating is stored under the current question's id, every other
        answer is kept, and the step is scheduled with the current index and the new answers. */
    method HandleRating(rating: int)
      requires Valid()
      modifies this
      ensures Valid()
      ensures answers == old(answers)[Questions[currentIndex].id := rating]
      ensures forall k :: k in old(answers) && k != Questions[currentIndex].id ==> k in answers && answers[k] == old(answers)[k]
      ensures scheduled == old(scheduled) + [Advance(currentIndex, answers)]
      ensures currentIndex == old(currentIndex)
    {
      var questionId := Questions[currentIndex].id;
      answers := answers[questionId := rating];
      scheduled := scheduled + [Advance(currentIndex, answers)];
    }

    /** The oldest scheduled step runs: below the last question the captured index advances
        by one; from the last question the captured answers are handed to `onComplete`. */
    method AdvanceElapsed() returns (completed: Option<map<string, int>>)
      requires Valid() && |scheduled| > 0
      modifies this
      ensures Valid()
      ensures scheduled == old(scheduled[1..]) && answers == old(answers)
      ensures old(scheduled[0].index) < |Questions| - 1 ==> currentIndex == old(scheduled[0].index) + 1 && completed == None
      ensures old(scheduled[0].index) == |Questions| - 1 ==>
                currentIndex == old(currentIndex) && completed == Some(old(scheduled[0].answers))
    {
      var step := scheduled[0];
      scheduled := scheduled[1..];
      if step.index < |Questions| - 1 {
        currentIndex := step.index + 1;
        completed := None;
      } else {
        completed := Some(step.answers);
      }
    }
  }

  /** Five ratings keyed by the question ids: exactly the five ids, each with a value from 1
      to 5. */
  lemma FiveAnswers(r1: int, r2: int, r3: int, r4: int, r5: int)
    requires 1 <= r1 <= 5 && 1 <= r2 <= 5 && 1 <= r3 <= 5 && 1 <= r4 <= 5 && 1 <= r5 <= 5
    ensures var m := map["1" := r1, "2" := r2, "3" := r3, "4" := r4, "5" := r5];
            && m.Keys == {"1", "2", "3", "4", "5"}
            && forall k :: k in m ==> 1 <= m[k] <= 5
  {
    var m := map["1" := r1, "2" := r2, "3" := r3, "4" := r4, "5" := r5];
    forall k | k in m ensures 1 <= m[k] <= 5 {
      assert k == "1" || k == "2" || k == "3" || k == "4" || k == "5";
    }
  }

  /** Rating each of the five questions in turn, waiting for each step, hands over exactly
      the five answers, keyed "1" to "5"; nothing is handed over before the last one. */
  method RateAll(r1: int, r2: int, r3: int, r4: int, r5: int) returns (early: seq<Option<map<string, int>>>, completed: Option<map<string, int>>)
    requires 1 <= r1 <= 5 && 1 <= r2 <= 5 && 1 <= r3 <= 5 && 1 <= r4 <= 5 && 1 <= r5 <= 5
    ensures early == [None, None, None, None]
    ensures completed == Some(map["1" := r1, "2" := r2, "3" := r3, "4" := r4, "5" := r5])
    ensures completed.value.Keys == {"1", "2", "3", "4", "5"}
    ensures forall k :: k in completed.value ==> 1 <= completed.value[k] <= 5
  {
    QuestionIds();
    var s := new Stepper();
    s.HandleRating(r1);
    var c1 := s.AdvanceElapsed();
    assert s.currentIndex == 1 && s.scheduled == [] && s.answers == map["1" := r1];
    s.HandleRating(r2);
    var c2 := s.AdvanceElapsed();
    assert s.currentIndex == 2 && s.scheduled == [] && s.answers == map["1" := r1, "2" := r2];
    s.HandleRating(r3);
    var c3 := s.AdvanceElapsed();
    assert s.currentIndex == 3 && s.scheduled == [] && s.answers == map["1" := r1, "2" := r2, "3" := r3];
    s.HandleRating(r4);
    var c4 := s.AdvanceElapsed();
    assert s.currentIndex == 4 && s.scheduled == [];
    s.HandleRating(r5);
    completed := s.AdvanceElapsed();
    FiveAnswers(r1, r2, r3, r4, r5);
    early := [c1, c2, c3, c4];
  }
}
