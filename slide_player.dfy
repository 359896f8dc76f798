/** The script embedded in the pages of `scormServiceNew.ts`: a slide navigator with
    keyboard shortcuts, a quiz that scores the checked answers, and the two SCORM hooks
    (`initializeSCORM` on load, `markComplete` from the completion panel). */
module SlidePlayer {
  import opened Wrappers
  import opened Text
  import opened Request
  import opened SlideDeck
  import opened Lms
  import Bridge

  // ---------------------------------------------------------------------------
  // Navigation

  /** `nextSlide`: one step forward unless on the last slide. */
  function NextIndex(i: int, total: int): int {
    if i < total then i + 1 else i
  }

  /** `previousSlide`: one step back unless on the first slide. */
  function PrevIndex(i: int): int {
    if i > 1 then i - 1 else i
  }

  /** The keydown listener: right arrow and space go forward, left arrow goes back,
      every other key is ignored. */
  function KeyIndex(i: int, total: int, key: string): int {
    if key == "ArrowRight" || key == " " then NextIndex(i, total)
    else if key == "ArrowLeft" then PrevIndex(i)
    else i
  }

  /** The slide shown after a sequence of key presses. */
  function Navigate(i: int, total: int, keys: seq<string>): int
    decreases |keys|
  {
    if keys == [] then i else Navigate(KeyIndex(i, total, keys[0]), total, keys[1..])
  }

  /** Whatever keys are pressed, the index stays between 1 and the number of slides. */
  lemma {:induction false} NavigateStaysInRange(i: int, total: int, keys: seq<string>)
    requires 1 <= i <= total
    ensures 1 <= Navigate(i, total, keys) <= total
    decreases |keys|
  {
    if keys != [] {
      NavigateStaysInRange(KeyIndex(i, total, keys[0]), total, keys[1..]);
    }
  }

  /** Pressing the right arrow `n` times moves `n` slides forward, stopping at the last. */
  lemma {:induction false} ArrowRightsReach(i: int, total: int, n: nat)
    requires 1 <= i <= total
    ensures Navigate(i, total, seq(n, _ => "ArrowRight")) == Min(i + n, total)
    decreases n
  {
    if n > 0 {
      var keys := seq(n, _ => "ArrowRight");
      assert keys[0] == "ArrowRight";
      assert keys[1..] == seq(n - 1, _ => "ArrowRight");
      ArrowRightsReach(NextIndex(i, total), total, n - 1);
    }
  }

  /** Pressing the left arrow `n` times moves `n` slides back, stopping at the first. */
  lemma {:induction false} ArrowLeftsReach(i: int, total: int, n: nat)
    requires 1 <= i <= total
    ensures Navigate(i, total, seq(n, _ => "ArrowLeft")) == if i - n < 1 then 1 else i - n
    decreases n
  {
    if n > 0 {
      var keys := seq(n, _ => "ArrowLeft");
      assert keys[0] == "ArrowLeft";
      assert keys[1..] == seq(n - 1, _ => "ArrowLeft");
      ArrowLeftsReach(PrevIndex(i), total, n - 1);
    }
  }

  /** A step forward is undone by a step back, and a step back by a step forward. */
  lemma NextPrevInverse(i: int, total: int)
    requires 1 <= i <= total
    ensures i < total ==> PrevIndex(NextIndex(i, total)) == i
    ensures i > 1 ==> NextIndex(PrevIndex(i), total) == i
    ensures i == total ==> NextIndex(i, total) == i
    ensures i == 1 ==> PrevIndex(i) == i
  {
  }

  // ---------------------------------------------------------------------------
  // The quiz

  /** `question${n}`: the radio-group name of question `n` and its key in `quizAnswers`. */
  function QuestionName(n: nat): string {
    "question" + NatToDecimal(n)
  }

  lemma QuestionNameInjective(m: nat, n: nat)
    ensures QuestionName(m) == QuestionName(n) <==> m == n
  {
    NatToDecimalInjective(m, n);
    if QuestionName(m) == QuestionName(n) {
      assert QuestionName(m)[8..] == NatToDecimal(m);
      assert QuestionName(n)[8..] == NatToDecimal(n);
    }
  }

  const CorrectAnswer: char := 'A'
  const OptionValues: string := "ABCD"

  /** The score of the checked answers, question by question: five points for each
      answer that is A. */
  function QuizScore(sel: seq<Option<char>>): nat
    decreases |sel|
  {
    if sel == [] then 0
    else QuizScore(sel[..|sel| - 1]) + (if sel[|sel| - 1] == Some(CorrectAnswer) then QuestionPoints else 0)
  }

  /** The questions answered with A. */
  function CorrectIndices(sel: seq<Option<char>>): set<nat> {
    set k: nat | k < |sel| && sel[k] == Some(CorrectAnswer)
  }

  /** The score is five times the number of questions answered with A. */
  lemma {:induction false} QuizScoreCountsCorrect(sel: seq<Option<char>>)
    ensures QuizScore(sel) == QuestionPoints * |CorrectIndices(sel)|
    decreases |sel|
  {
    if sel != [] {
      var n := |sel| - 1;
      var p := sel[..n];
      QuizScoreCountsCorrect(p);
      if sel[n] == Some(CorrectAnswer) {
        assert CorrectIndices(sel) == CorrectIndices(p) + {n};
        assert n !in CorrectIndices(p);
      } else {
        assert CorrectIndices(sel) == CorrectIndices(p);
      }
    }
  }

  /** The score is between 0 and five points per question, and it is the full score
      exactly when every question is answered with A. */
  lemma {:induction false} QuizScoreBounds(sel: seq<Option<char>>)
    ensures QuizScore(sel) <= QuestionPoints * |sel|
    ensures QuizScore(sel) == QuestionPoints * |sel| <==> forall k :: 0 <= k < |sel| ==> sel[k] == Some(CorrectAnswer)
    decreases |sel|
  {
    if sel != [] {
      var n := |sel| - 1;
      var p := sel[..n];
      QuizScoreBounds(p);
      assert forall k :: 0 <= k < n ==> p[k] == sel[k];
    }
  }

  /** `quizAnswers` after `submitQuiz` has gone through the questions of `sel`, starting
      from `m`: each answered question `n` stores its value under `question${n}`. */
  function RecordAnswers(m: map<string, char>, sel: seq<Option<char>>): map<string, char>
    decreases |sel|
  {
    if sel == [] then m
    else
      var r := RecordAnswers(m, sel[..|sel| - 1]);
      match sel[|sel| - 1]
      case Some(v) => r[QuestionName(|sel|) := v]
      case None => r
  }

  /** Every answered question is recorded with the value checked. */
  lemma {:induction false} AnswersRecorded(m: map<string, char>, sel: seq<Option<char>>, q: nat)
    requires q < |sel| && sel[q].Some?
    ensures QuestionName(q + 1) in RecordAnswers(m, sel)
    ensures RecordAnswers(m, sel)[QuestionName(q + 1)] == sel[q].value
    decreases |sel|
  {
    var n := |sel| - 1;
    if q < n {
      var p := sel[..n];
      AnswersRecorded(m, p, q);
      QuestionNameInjective(q + 1, |sel|);
    }
  }

  /** A key that names no answered question keeps whatever it had before. */
  lemma {:induction false} AnswersUntouched(m: map<string, char>, sel: seq<Option<char>>, key: string)
    requires forall q :: 0 <= q < |sel| && sel[q].Some? ==> key != QuestionName(q + 1)
    ensures key in RecordAnswers(m, sel) <==> key in m
    ensures key in m ==> RecordAnswers(m, sel)[key] == m[key]
    decreases |sel|
  {
    if sel != [] {
      var n := |sel| - 1;
      var p := sel[..n];
      assert forall q :: 0 <= q < |p| ==> p[q] == sel[q];
      AnswersUntouched(m, p, key);
    }
  }

  /** From an empty `quizAnswers` (at load or after `resetQuiz`) the keys recorded
      are exactly the names of the answered questions: an unanswered question leaves
      no entry. */
  lemma {:induction false} AnswerKeysFromEmpty(sel: seq<Option<char>>)
    ensures RecordAnswers(map[], sel).Keys == set q | 0 <= q < |sel| && sel[q].Some? :: QuestionName(q + 1)
    decreases |sel|
  {
    if sel != [] {
      var n := |sel| - 1;
      var p := sel[..n];
      AnswerKeysFromEmpty(p);
      assert forall q :: 0 <= q < |p| ==> p[q] == sel[q];
      var before := set q | 0 <= q < |p| && p[q].Some? :: QuestionName(q + 1);
      var after := set q | 0 <= q < |sel| && sel[q].Some? :: QuestionName(q + 1);
      if sel[n].Some? {
        assert after == before + {QuestionName(n + 1)};
      } else {
        assert after == before;
      }
    }
  }

  // ---------------------------------------------------------------------------
  // The SCORM hooks. This script only looks for `API` (SCORM 1.2), on its own
  // window and then on `window.parent`.

  /** The API object `typeof API` and `typeof window.parent.API` select. */
  function PageApi(frames: WindowChain): (r: Option<ApiObject>)
    requires |frames| > 0
    ensures frames[0].api12.Some? ==> r == frames[0].api12
    ensures frames[0].api12.None? ==> r == frames[ParentIndex(frames, 0)].api12
  {
    if frames[0].api12.Some? then frames[0].api12 else frames[ParentIndex(frames, 0)].api12
  }

  /** Only the `API` globals of the page and of its parent count: a SCORM 2004 object
      anywhere, and a SCORM 1.2 object further up, are never seen. */
  lemma PageApiLooksTwoWindows(frames: WindowChain, other: WindowChain)
    requires |frames| > 0 && |other| == |frames|
    requires frames[0].api12 == other[0].api12
    requires HasParent(frames, 0) ==> frames[1].api12 == other[1].api12
    ensures PageApi(frames) == PageApi(other)
  {
  }

  /** Where `findAPI` would find an API object two windows up (on the grandparent), this script finds none. */
  lemma PageApiMissesGrandparent(a: ApiObject)
    ensures var frames := [Frame(None, None), Frame(None, None), Frame(None, Some(a))];
      PageApi(frames) == None && Discover(frames, 0, 0).api == Some(a)
  {
    var frames := [Frame(None, None), Frame(None, None), Frame(None, Some(a))];
    assert Discover(frames, 0, 0) == Discover(frames, 1, 1);
    assert Discover(frames, 1, 1) == Discover(frames, 2, 2);
  }

  const FinishSteps: seq<(string, seq<string>)> := [("LMSFinish", [""]), ("LMSCommit", [""])]
  const InitSteps: seq<(string, seq<string>)> := [("LMSInitialize", [""])]

  const ApiMissingAlert: string := "İçerik tamamlandı! " + "(SCORM API bulunamadı)"

  /** The calls `markComplete` makes on the API it selects. */
  function FinishCalls(api: Option<ApiObject>): seq<LmsCall> {
    match api
    case None => []
    case Some(a) => InvokeAll(a, FinishSteps).calls
  }

  /** The alert `markComplete` shows: success, the caught error, or no API. */
  function FinishAlert(api: Option<ApiObject>): string {
    match api
    case None => ApiMissingAlert
    case Some(a) => if InvokeAll(a, FinishSteps).threw then Bridge.FinishedAfterErrorAlert else Bridge.FinishedAlert
  }

  /** The calls `initializeSCORM` makes. */
  function InitCalls(api: Option<ApiObject>): seq<LmsCall> {
    match api
    case None => []
    case Some(a) => InvokeAll(a, InitSteps).calls
  }

  /** The script never writes a status element, so whatever happens the LMS is told
      neither "completed" nor any other status. */
  lemma {:induction false} NewPageNeverSetsStatus(frames: WindowChain, id: nat, status: string)
    requires |frames| > 0
    ensures var s := Replay(NotInitialized, InitCalls(PageApi(frames)) + FinishCalls(PageApi(frames)), id);
      !(s.Running? && s.status == Some(status)) && !(s.Terminated? && s.status == Some(status))
  {
    var api := PageApi(frames);
    var cs := InitCalls(api) + FinishCalls(api);
    forall k | 0 <= k < |cs|
      ensures !IsStatusWrite(cs[k], status)
    {
      var a := api.value;
      if k < |InitCalls(api)| {
        assert cs[k] == InvokeAll(a, InitSteps).calls[k];
      } else {
        assert cs[k] == InvokeAll(a, FinishSteps).calls[k - |InitCalls(api)|];
      }
    }
    ReplayStatusWritten(NotInitialized, cs, id, status);
  }

  /** With a full SCORM 1.2 API the session is opened on load and closed by the
      button, with no status, and the success alert is shown. */
  lemma NewPageSession(a: ApiObject)
    requires "LMSInitialize" in a.methods && "LMSFinish" in a.methods && "LMSCommit" in a.methods
    ensures Replay(NotInitialized, InitCalls(Some(a)) + FinishCalls(Some(a)), a.id) == Terminated(None)
    ensures FinishAlert(Some(a)) == Bridge.FinishedAlert
  {
    var cs := InitCalls(Some(a)) + FinishCalls(Some(a));
    assert cs == [LmsCall(a.id, "LMSInitialize", [""]), LmsCall(a.id, "LMSFinish", [""]), LmsCall(a.id, "LMSCommit", [""])];
    assert Replay(NotInitialized, cs, a.id) == Replay(Running(None), cs[1..], a.id);
    assert Replay(Running(None), cs[1..], a.id) == Replay(Terminated(None), cs[2..], a.id);
    assert Replay(Terminated(None), cs[2..], a.id) == Replay(Terminated(None), cs[3..], a.id);
  }

  // ---------------------------------------------------------------------------
  // The script's state

  class Player {
    /** `totalSlides`, the number of quiz questions on the page, and the window chain. */
    const totalSlides: nat
    const questionCount: nat
    const frames: WindowChain
    /** The global `currentSlideIndex`. */
    var currentSlideIndex: int
    /** The DOM the script updates: the slide marked active, the two buttons, and the
        two texts of the slide indicator. */
    var activeSlide: int
    var prevDisabled: bool
    var nextDisabled: bool
    var currentText: string
    var totalText: string
    /** The radio button checked in each question, if any, and the global `quizAnswers`. */
    var checked: seq<Option<char>>
    var quizAnswers: map<string, char>
    /** The completion panel: the score shown and whether the panel is visible. */
    var finalScore: nat
    var completionShown: bool
    /** The calls made on API objects and the alerts shown, in order. */
    var calls: seq<LmsCall>
    var alerts: seq<string>

    /** The navigator shows the current slide with its buttons and indicator in step,
        and each question has at most one of its four options checked. */
    predicate Valid()
      reads this
    {
      |frames| > 0
      && 1 <= currentSlideIndex <= totalSlides
      && activeSlide == currentSlideIndex
      && prevDisabled == (currentSlideIndex == 1)
      && nextDisabled == (currentSlideIndex == totalSlides)
      && currentText == NatToDecimal(currentSlideIndex)
      && |checked| == questionCount
      && (forall q :: 0 <= q < |checked| && checked[q].Some? ==> checked[q].value in OptionValues)
    }

    /** The page as loaded: slide 1 active, "Önceki" disabled and the static indicator
        "1 / 5", whatever the number of slides. */
    constructor(d: ContentRequest, frames: WindowChain)
      requires |frames| > 0
      ensures Valid()
      ensures this.frames == frames
      ensures totalSlides == BuildDeck(d).totalSlides
      ensures questionCount == (if d.includeQuiz then ServiceQuizLength(d.numberOfQuestions) else 0)
      ensures currentSlideIndex == 1 && totalText == "5"
      ensures checked == seq(questionCount, _ => None) && quizAnswers == map[]
      ensures finalScore == 0 && !completionShown
      ensures calls == [] && alerts == []
    {
      this.frames := frames;
      totalSlides := if d.includeQuiz then 5 else 4;
      questionCount := if d.includeQuiz then ServiceQuizLength(d.numberOfQuestions) else 0;
      currentSlideIndex := 1;
      activeSlide := 1;
      prevDisabled := true;
      nextDisabled := false;
      currentText := "1";
      totalText := "5";
      checked := seq(if d.includeQuiz then ServiceQuizLength(d.numberOfQuestions) else 0, _ => None);
      quizAnswers := map[];
      finalScore := 0;
      completionShown := false;
      calls := [];
      alerts := [];
    }

    /** `showSlide(index)`: mark slide `index` active, disable "Önceki" on the first
        slide and "Sonraki" on the last, and update the indicator. */
    method ShowSlide(index: int)
      requires 1 <= index <= totalSlides
      modifies this`activeSlide, this`prevDisabled, this`nextDisabled, this`currentText, this`totalText
      ensures activeSlide == index
      ensures prevDisabled == (index == 1) && nextDisabled == (index == totalSlides)
      ensures currentText == NatToDecimal(index) && totalText == NatToDecimal(totalSlides)
    {
      activeSlide := index;
      prevDisabled := index == 1;
      nextDisabled := index == totalSlides;
      currentText := NatToDecimal(index);
      totalText := NatToDecimal(totalSlides);
    }

    /** `nextSlide`: on the last slide nothing changes. */
    method NextSlide()
      requires Valid()
      modifies this`currentSlideIndex, this`activeSlide, this`prevDisabled, this`nextDisabled, this`currentText, this`totalText
      ensures Valid()
      ensures currentSlideIndex == NextIndex(old(currentSlideIndex), totalSlides)
      ensures old(currentSlideIndex) < totalSlides ==> totalText == NatToDecimal(totalSlides)
      ensures old(currentSlideIndex) == totalSlides ==> unchanged(this)
    {
      if currentSlideIndex < totalSlides {
        currentSlideIndex := currentSlideIndex + 1;
        ShowSlide(currentSlideIndex);
      }
    }

    /** `previousSlide`: on the first slide nothing changes. */
    method PreviousSlide()
      requires Valid()
      modifies this`currentSlideIndex, this`activeSlide, this`prevDisabled, this`nextDisabled, this`currentText, this`totalText
      ensures Valid()
      ensures currentSlideIndex == PrevIndex(old(currentSlideIndex))
      ensures old(currentSlideIndex) > 1 ==> totalText == NatToDecimal(totalSlides)
      ensures old(currentSlideIndex) == 1 ==> unchanged(this)
    {
      if currentSlideIndex > 1 {
        currentSlideIndex := currentSlideIndex - 1;
        ShowSlide(currentSlideIndex);
      }
    }

    /** The keydown listener. */
    method KeyDown(key: string)
      requires Valid()
      modifies this`currentSlideIndex, this`activeSlide, this`prevDisabled, this`nextDisabled, this`currentText, this`totalText
      ensures Valid()
      ensures currentSlideIndex == KeyIndex(old(currentSlideIndex), totalSlides, key)
      ensures KeyIndex(old(currentSlideIndex), totalSlides, key) != old(currentSlideIndex) ==>
        totalText == NatToDecimal(totalSlides)
      ensures KeyIndex(old(currentSlideIndex), totalSlides, key) == old(currentSlideIndex) ==> unchanged(this)
      ensures key != "ArrowRight" && key != " " && key != "ArrowLeft" ==> unchanged(this)
    {
      if key == "ArrowRight" || key == " " {
        NextSlide();
      } else if key == "ArrowLeft" {
        PreviousSlide();
      }
    }

    /** The learner checks option `v` of question `q` (a click on a radio button). */
    method SelectAnswer(q: nat, v: char)
      requires Valid() && q < questionCount && v in OptionValues
      modifies this`checked
      ensures Valid()
      ensures checked == old(checked)[q := Some(v)]
    {
      checked := checked[q := Some(v)];
    }

    /** `resetQuiz`: every radio button unchecked and `quizAnswers` emptied. */
    method ResetQuiz()
      requires Valid()
      modifies this`checked, this`quizAnswers
      ensures Valid()
      ensures checked == seq(questionCount, _ => None) && quizAnswers == map[]
    {
      checked := seq(questionCount, _ => None);
      quizAnswers := map[];
    }

    /** `submitQuiz`: goes through the questions in order, records each checked
        answer, adds five points for each A, and shows the completion panel. */
    method SubmitQuiz()
      requires Valid()
      modifies this`quizAnswers, this`finalScore, this`completionShown
      ensures Valid()
      ensures quizAnswers == RecordAnswers(old(quizAnswers), checked)
      ensures finalScore == QuizScore(checked)
      ensures completionShown
    {
      var score: nat := 0;
      var k := 0;
      while k < |checked|
        invariant 0 <= k <= |checked|
        invariant quizAnswers == RecordAnswers(old(quizAnswers), checked[..k])
        invariant score == QuizScore(checked[..k])
      {
        assert checked[..k + 1][..k] == checked[..k];
        if checked[k].Some? {
          quizAnswers := quizAnswers[QuestionName(k + 1) := checked[k].value];
          if checked[k].value == CorrectAnswer {
            score := score + QuestionPoints;
          }
        }
        k := k + 1;
      }
      assert checked[..k] == checked;
      finalScore := score;
      completionShown := true;
    }

    /** Runs the steps on `a` until one is missing, where the `try` catches the TypeError. */
    method Attempt(a: ApiObject, steps: seq<(string, seq<string>)>) returns (threw: bool)
      modifies this`calls
      ensures calls == old(calls) + InvokeAll(a, steps).calls
      ensures threw == InvokeAll(a, steps).threw
    {
      var inv := Invoke(a, steps);
      calls := calls + inv.calls;
      threw := inv.threw;
    }

    /** `markComplete`: `LMSFinish('')` then `LMSCommit('')` on the API selected, and
        an alert saying how it went. */
    method MarkComplete()
      requires Valid()
      modifies this`calls, this`alerts
      ensures calls == old(calls) + FinishCalls(PageApi(frames))
      ensures alerts == old(alerts) + [FinishAlert(PageApi(frames))]
    {
      var api := if frames[0].api12.Some? then frames[0].api12 else frames[ParentIndex(frames, 0)].api12;
      if api.Some? {
        var threw := Attempt(api.value, FinishSteps);
        alerts := alerts + [if threw then Bridge.FinishedAfterErrorAlert else Bridge.FinishedAlert];
      } else {
        alerts := alerts + [ApiMissingAlert];
      }
    }

    /** `initializeSCORM`, the load listener: `LMSInitialize('')` on the API selected. */
    method InitializeScorm()
      requires Valid()
      modifies this`calls
      ensures calls == old(calls) + InitCalls(PageApi(frames))
    {
      var api := if frames[0].api12.Some? then frames[0].api12 else frames[ParentIndex(frames, 0)].api12;
      if api.Some? {
        var _ := Attempt(api.value, InitSteps);
      }
    }
  }
}
