/** The question generator and the single audio-playback slot of lib/ai-orchestrator.ts.
    The module-level variables `questionIndex` and `currentAudio` become fields of two
    classes. Fetching speech and playing it are outside the model: their outcome is a
    parameter, and an audio element is represented by a handle number. */
module Orchestrator {
  import opened Common
  import opened Events

  /** At most this many `question_asked` markers before generation stops. */
  const QuestionBudget := 10

  const RouteChangeTemplates := [
    "What were you expecting to see when you navigated here?",
    "Does this page match what you were looking for?",
    "What do you think you can do on this page?"]
  const ClickTemplates := [
    "What did you expect would happen when you clicked that?",
    "Was that button where you expected to find it?",
    "What are you trying to accomplish here?"]
  const InputFocusTemplates := [
    "What information are you looking to enter here?",
    "Is this field clear about what it's asking for?"]
  const PageLoadTemplates := [
    "What's your first impression of this page?",
    "What would you like to do first?"]
  const InactivityTemplates := [
    "What are you thinking about right now?",
    "Is there something unclear on this page?"]

  /** `questionTemplates[type] || questionTemplates.click`: the list for the event's type, and
      the click list for every type without one. */
  function TemplatesFor(t: Tag): (r: seq<string>)
    ensures |r| > 0
    ensures t == StrTag("route_change") ==> r == RouteChangeTemplates
    ensures t == StrTag("input_focus") ==> r == InputFocusTemplates
    ensures t == StrTag("page_load") ==> r == PageLoadTemplates
    ensures t == StrTag("inactivity") ==> r == InactivityTemplates
    ensures !(t.StrTag? && t.name in {"route_change", "input_focus", "page_load", "inactivity"}) ==> r == ClickTemplates
  {
    match TagText(t)
    case "route_change" => if t.StrTag? then RouteChangeTemplates else ClickTemplates
    case "input_focus" => if t.StrTag? then InputFocusTemplates else ClickTemplates
    case "page_load" => if t.StrTag? then PageLoadTemplates else ClickTemplates
    case "inactivity" => if t.StrTag? then InactivityTemplates else ClickTemplates
    case _ => ClickTemplates
  }

  /** `templates[questionIndex % templates.length]`: always one of the chosen list. */
  function PickQuestion(t: Tag, index: nat): (q: string)
    ensures q in TemplatesFor(t)
    ensures exists k :: 0 <= k < |TemplatesFor(t)| && k == index % |TemplatesFor(t)| && q == TemplatesFor(t)[k]
  {
    TemplatesFor(t)[index % |TemplatesFor(t)|]
  }

  /** `allEvents.filter(e => e.type === 'question_asked').length`. */
  function QuestionCount(es: seq<UserEvent>): (n: nat)
    ensures n <= |es|
  {
    if |es| == 0 then 0
    else QuestionCount(es[..|es| - 1]) + (if es[|es| - 1].tag == StrTag(QuestionAskedType) then 1 else 0)
  }

  /** Each appended `question_asked` marker uses up one question of the budget; any other
      event uses none. */
  lemma QuestionCountAppend(es: seq<UserEvent>, e: UserEvent)
    ensures QuestionCount(es + [e]) == QuestionCount(es) + (if e.tag == StrTag(QuestionAskedType) then 1 else 0)
  {
    assert (es + [e])[..|es|] == es;
  }

  /** Indexing a non-empty list by consecutive numbers modulo its length reaches every
      element within one length. */
  lemma RotationCovers(ts: seq<string>, start: nat, k: nat)
    requires k < |ts|
    ensures exists i :: start <= i < start + |ts| && i % |ts| == k
  {
    var n := |ts|;
    var r := start % n;
    var base := start / n;
    assert start == n * base + r;
    if k >= r {
      var i := start + (k - r);
      assert i == n * base + k;
      MultiplePlusMod(base, k, n);
    } else {
      var i := start + (n - r) + k;
      assert i == n * (base + 1) + k;
      MultiplePlusMod(base + 1, k, n);
    }
  }

  /** Rotation: any run of consecutive indices as long as the list asks every template of it. */
  lemma RotationCoversTemplates(t: Tag, start: nat, q: string)
    requires q in TemplatesFor(t)
    ensures exists i :: start <= i < start + |TemplatesFor(t)| && PickQuestion(t, i) == q
  {
    var ts := TemplatesFor(t);
    var k :| 0 <= k < |ts| && ts[k] == q;
    RotationCovers(ts, start, k);
    var i :| start <= i < start + |ts| && i % |ts| == k;
    assert PickQuestion(t, i) == q;
  }

  lemma MultiplePlusMod(m: nat, k: nat, n: nat)
    requires k < n
    ensures (n * m + k) % n == k
  {
    var x := n * m + k;
    var q, r := x / n, x % n;
    assert x == n * q + r;
    if q > m {
      AtLeastOneMultiple(n, q - m);
    } else if q < m {
      AtLeastOneMultiple(n, m - q);
    }
  }

  lemma AtLeastOneMultiple(n: nat, d: int)
    requires d >= 1
    ensures n * d >= n
  {
  }

  class QuestionGenerator {
    var questionIndex: nat

    constructor ()
      ensures questionIndex == 0
    {
      questionIndex := 0;
    }

    /** `generateQuestion`: null once the budget is used up (the rotating index is then left
        alone); otherwise the template at the rotating index, which then advances by one. */
    method GenerateQuestion(latest: UserEvent, all: seq<UserEvent>) returns (q: Option<string>)
      modifies this
      ensures QuestionCount(all) >= QuestionBudget ==> q == None && questionIndex == old(questionIndex)
      ensures QuestionCount(all) < QuestionBudget ==>
                q == Some(PickQuestion(latest.tag, old(questionIndex))) && questionIndex == old(questionIndex) + 1
    {
      var questionCount := QuestionCount(all);
      if questionCount >= QuestionBudget {
        return None;
      }
      var templates := TemplatesFor(latest.tag);
      var question := templates[questionIndex % |templates|];
      questionIndex := questionIndex + 1;
      q := Some(question);
    }
  }

  /** What came of fetching speech for a text and starting it: a playing element, or a
      failure anywhere on the way (the request, the response, `play()`). */
  datatype PlaybackStart = Playing(handle: nat) | StartFailed

  /** The single `currentAudio` slot. */
  class AudioSlot {
    var current: Option<nat>

    constructor ()
      ensures current == None
    {
      current := None;
    }

    /** The synchronous part of `speakText`, up to its first `await`. When muted the slot is
        not touched and only the completion callback is scheduled. Otherwise the previous
        element is paused and the slot is emptied. */
    method SpeakStart(isMuted: bool) returns (paused: Option<nat>, completionScheduled: bool)
      modifies this
      ensures isMuted ==> paused == None && current == old(current) && completionScheduled
      ensures !isMuted ==> paused == old(current) && current == None && !completionScheduled
    {
      if isMuted {
        return None, true;
      }
      paused := None;
      completionScheduled := false;
      if current.Some? {
        paused := current;
        current := None;
      }
    }

    /** The part of an unmuted `speakText` after the speech has been fetched: the new element
        is stored in the slot without pausing whatever the slot holds by then, which is
        returned as `overwritten`; on a failure the slot is emptied and the completion
        callback is scheduled. */
    method SpeakFetched(start: PlaybackStart) returns (overwritten: Option<nat>, completionScheduled: bool)
      modifies this
      ensures start.Playing? ==> overwritten == old(current) && current == Some(start.handle) && !completionScheduled
      ensures start.StartFailed? ==> overwritten == None && current == None && completionScheduled
    {
      match start
      case Playing(h) =>
        overwritten := current;
        current := Some(h);
        completionScheduled := false;
      case StartFailed =>
        overwritten := None;
        current := None;
        completionScheduled := true;
    }

    /** `speakText` when no other call is in flight between its two parts: the previous
        element is paused, and the new one takes its place without displacing anything. */
    method SpeakText(isMuted: bool, start: PlaybackStart) returns (paused: Option<nat>, completionScheduled: bool)
      modifies this
      ensures isMuted ==> paused == None && current == old(current) && completionScheduled
      ensures !isMuted ==> paused == old(current)
      ensures !isMuted && start.Playing? ==> current == Some(start.handle) && !completionScheduled
      ensures !isMuted && start.StartFailed? ==> current == None && completionScheduled
    {
      paused, completionScheduled := SpeakStart(isMuted);
      if isMuted {
        return;
      }
      var overwritten;
      overwritten, completionScheduled := SpeakFetched(start);
      assert overwritten == None;
    }

    /** The element's `onended` or `onerror` handler: the slot is cleared and the completion
        callback runs. */
    method PlaybackEnded() returns (completes: bool)
      modifies this
      ensures current == None && completes
    {
      current := None;
      completes := true;
    }

    /** `stopAudio`: pauses the current element, if any, and always leaves the slot empty. */
    method StopAudio() returns (paused: Option<nat>)
      modifies this
      ensures current == None && paused == old(current)
    {
      paused := current;
      current := None;
    }
  }

  /** Two unmuted `speakText` calls whose fetches overlap: both find the slot empty, so
      neither pauses anything, and the second stores its element over the first, which
      keeps playing with no handle left to stop it. */
  method OverlappingSpeech() returns (pausedByFirst: Option<nat>, pausedBySecond: Option<nat>, lost: Option<nat>, current: Option<nat>)
    ensures pausedByFirst == None && pausedBySecond == None
    ensures lost == Some(1) && current == Some(2)
  {
    var slot := new AudioSlot();
    var scheduled;
    pausedByFirst, scheduled := slot.SpeakStart(false);
    pausedBySecond, scheduled := slot.SpeakStart(false);
    var first;
    first, scheduled := slot.SpeakFetched(Playing(1));
    lost, scheduled := slot.SpeakFetched(Playing(2));
    current := slot.current;
  }
}
