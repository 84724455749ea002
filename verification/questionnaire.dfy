/** The question-by-question stepping of the quiz page
    (src/pages/QuestionnairePage.js): a fixed list of fifteen questions, a
    cursor local to the page, and an answer step that appends to the shared
    answer list and either advances the cursor or switches to the result
    page. */
module Questionnaire {
  import opened State

  const Questions: seq<string> := [
    "Do you experience redness, burning, or a rash after being in sunlight?",
    "Do these symptoms occur only on sun-exposed areas (face, arms, neck)?",
    "Do the symptoms appear within a few hours of sunlight exposure?",
    "Does your skin itch or sting after short time in the sun?",
    "Does your skin react even under weak sunlight or through glass?",
    "Have you started any new medication in the last few weeks?",
    "Did the reaction start or worsen after taking that medicine?",
    "Are you currently using any of these: antibiotics (like doxycycline), NSAIDs, amiodarone, thiazides, sulfa drugs?",
    "Do symptoms improve when the drug is stopped (under medical advice)?",
    "Have you had similar sunlight reactions before?",
    "Does your skin burn easily but rarely tan?",
    "Do you have a family history of sunlight-triggered rashes?",
    "Have you been told by a doctor you have sensitive or photosensitive skin?",
    "Do you need to avoid sunlight because of your medicine or skin reaction?",
    "Do you notice dark spots or peeling after sun exposure?"
  ]

  /** Number of questions; the literal fifteen is what the page counts to. */
  const QuestionCount: nat := 15

  lemma QuestionListLength()
    ensures |Questions| == QuestionCount
  {
  }

  /** The page's own state: the index of the question on screen. */
  datatype QuizView = QuizView(currentQ: nat)

  /** The state the page mounts with. */
  const InitialView: QuizView := QuizView(0)

  /** The cursor always indexes a question. */
  predicate ValidView(v: QuizView) {
    v.currentQ < QuestionCount
  }

  /** The question on screen. */
  function CurrentQuestion(v: QuizView): (q: string)
    requires ValidView(v)
    ensures q in Questions
  {
    QuestionListLength();
    Questions[v.currentQ]
  }

  /** The "Question k of 15" counter. */
  function Counter(v: QuizView): (k: nat)
    requires ValidView(v)
    ensures 1 <= k <= QuestionCount
    ensures k - 1 == v.currentQ
  {
    v.currentQ + 1
  }

  /** The whole-number part of the progress-bar percentage. */
  function ProgressPercent(v: QuizView): (p: nat)
    requires ValidView(v)
    ensures 0 < p <= 100
    ensures v.currentQ == QuestionCount - 1 <==> p == 100
  {
    (v.currentQ + 1) * 100 / QuestionCount
  }

  /** Answering the question on screen with "Yes" (`true`) or "No" (`false`). */
  function HandleAnswer(v: QuizView, app: AppState, answer: bool): (r: (QuizView, AppState))
    ensures |r.1.quizAnswers| == |app.quizAnswers| + 1
    ensures r.1.quizAnswers[..|app.quizAnswers|] == app.quizAnswers
    ensures r.1.quizAnswers[|app.quizAnswers|] == answer
    ensures v.currentQ < QuestionCount - 1 ==>
      r.0.currentQ == v.currentQ + 1 && r.1.page == app.page
    ensures v.currentQ >= QuestionCount - 1 ==>
      r.0 == v && r.1.page == PageResult
    ensures r.1.phoneNumber == app.phoneNumber && r.1.isLoading == app.isLoading
    ensures ValidView(v) ==> ValidView(r.0)
  {
    var app' := app.(quizAnswers := app.quizAnswers + [answer]);
    if v.currentQ < QuestionCount - 1 then
      (QuizView(v.currentQ + 1), app')
    else
      (v, app'.(page := PageResult))
  }

  /** Answering a series of questions, one after another. */
  function AnswerAll(v: QuizView, app: AppState, answers: seq<bool>): (QuizView, AppState)
    decreases |answers|
  {
    if answers == [] then (v, app)
    else
      var (v', app') := HandleAnswer(v, app, answers[0]);
      AnswerAll(v', app', answers[1..])
  }

  /** Fewer answers than questions remain leave the page where it was and
      move the cursor one step per answer; the answers that reach the last
      question switch to the result page. In both cases the answers are
      appended in order. */
  lemma {:induction false} AnswerAllFrom(v: QuizView, app: AppState, answers: seq<bool>)
    requires v.currentQ + |answers| <= QuestionCount
    ensures AnswerAll(v, app, answers).1.quizAnswers == app.quizAnswers + answers
    ensures AnswerAll(v, app, answers).1.phoneNumber == app.phoneNumber
    ensures AnswerAll(v, app, answers).1.isLoading == app.isLoading
    ensures v.currentQ + |answers| < QuestionCount ==>
      AnswerAll(v, app, answers) == (QuizView(v.currentQ + |answers|), app.(quizAnswers := app.quizAnswers + answers))
    ensures v.currentQ + |answers| == QuestionCount && answers != [] ==>
      AnswerAll(v, app, answers).1.page == PageResult
    decreases |answers|
  {
    if answers != [] {
      var (v', app') := HandleAnswer(v, app, answers[0]);
      AnswerAllFrom(v', app', answers[1..]);
      assert app.quizAnswers + answers == app.quizAnswers + [answers[0]] + answers[1..];
    }
  }

  /** From a freshly mounted page, the fifteenth answer, and no earlier one,
      leads to the result page, and the answer list has grown by exactly the
      fifteen answers given. */
  lemma FifteenAnswersReachResult(app: AppState, answers: seq<bool>)
    requires app.page == PageQuiz
    requires |answers| <= QuestionCount
    ensures AnswerAll(InitialView, app, answers).1.page == PageResult <==> |answers| == QuestionCount
    ensures AnswerAll(InitialView, app, answers).1.quizAnswers == app.quizAnswers + answers
  {
    AnswerAllFrom(InitialView, app, answers);
  }
}
