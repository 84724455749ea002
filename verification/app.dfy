/** The root component (src/App.js): which page is rendered for a given
    application state, and the session as a whole — the application state
    together with the local state of the page on screen, driven by user
    events. A page's local state starts afresh whenever a different page
    component takes its place. */
module App {
  import opened State
  import Login
  import Home
  import Questionnaire
  import Result

  /** What is on screen, with the answer list handed to the quiz and result
      pages. */
  datatype Screen =
    | LoadingScreen
    | LoginScreen
    | HomeScreen
    | QuizScreen(answers: seq<bool>)
    | ResultScreen(answers: seq<bool>)

  /** The page routing, behind the loading gate. */
  function Render(app: AppState): (s: Screen)
    ensures app.isLoading <==> s == LoadingScreen
    ensures !app.isLoading && app.page == PageLogin ==> s == LoginScreen
    ensures !app.isLoading && app.page == PageHome ==>
      (s == LoginScreen <==> app.phoneNumber == []) && (s == HomeScreen <==> app.phoneNumber != [])
    ensures !app.isLoading && !IsKnownPage(app.page) ==> s == HomeScreen
    ensures s.QuizScreen? <==> !app.isLoading && app.page == PageQuiz
    ensures s.ResultScreen? <==> !app.isLoading && app.page == PageResult
    ensures s.QuizScreen? || s.ResultScreen? ==> s.answers == app.quizAnswers
  {
    if app.isLoading then LoadingScreen
    else if app.page == PageLogin then LoginScreen
    else if app.page == PageHome then
      (if app.phoneNumber == [] then LoginScreen else HomeScreen)
    else if app.page == PageQuiz then QuizScreen(app.quizAnswers)
    else if app.page == PageResult then ResultScreen(app.quizAnswers)
    else HomeScreen
  }

  /** Two screens are drawn by the same page component. */
  predicate SameComponent(a: Screen, b: Screen) {
    a == b || (a.QuizScreen? && b.QuizScreen?) || (a.ResultScreen? && b.ResultScreen?)
  }

  datatype Session = Session(
    app: AppState,
    login: Login.LoginForm,
    home: Home.HomeView,
    quiz: Questionnaire.QuizView)

  /** The user's actions, plus the end of the start-up loading delay. */
  datatype Event =
    | LoadingDone
    | TypePhone(text: string)
    | SubmitLogin
    | OpenDashboard
    | CloseDashboard
    | StartTest
    | Answer(yes: bool)
    | GoHome
    | Retake

  /** A new session: the initial application state and every page in its
      mount state. */
  function Launch(storedPhone: string): Session {
    Session(Initial(storedPhone), Login.InitialForm, Home.InitialView, Questionnaire.InitialView)
  }

  /** Every page's local state back to its mount state. */
  function Remount(s: Session): Session {
    s.(login := Login.InitialForm, home := Home.InitialView, quiz := Questionnaire.InitialView)
  }

  /** The handler the page on screen runs for the event; an event the page
      on screen has no control for changes nothing. */
  function Handle(s: Session, e: Event): Session {
    var screen := Render(s.app);
    match e
    case LoadingDone => s.(app := s.app.(isLoading := false))
    case TypePhone(text) =>
      if screen == LoginScreen then s.(login := Login.EditInput(s.login, text)) else s
    case SubmitLogin =>
      if screen == LoginScreen then
        var (form, app) := Login.HandleLogin(s.login, s.app);
        s.(login := form, app := app)
      else s
    case OpenDashboard =>
      if screen == HomeScreen then s.(home := Home.OpenDashboard(s.home)) else s
    case CloseDashboard =>
      if screen == HomeScreen then s.(home := Home.CloseDashboard(s.home)) else s
    case StartTest =>
      if screen == HomeScreen then s.(app := Home.StartTest(s.app)) else s
    case Answer(yes) =>
      if screen.QuizScreen? then
        var (view, app) := Questionnaire.HandleAnswer(s.quiz, s.app, yes);
        s.(quiz := view, app := app)
      else s
    case GoHome =>
      if screen.ResultScreen? then s.(app := Result.HandleGoHome(s.app)) else s
    case Retake =>
      if screen.ResultScreen? then s.(app := Result.HandleRetake(s.app)) else s
  }

  /** One event: run the handler, then remount if another page took over. */
  function Step(s: Session, e: Event): Session {
    var next := Handle(s, e);
    if SameComponent(Render(s.app), Render(next.app)) then next else Remount(next)
  }

  /** The page component that has a control for the event. The end of the
      loading delay is not a control and reaches the root at any time. */
  predicate OnScreenFor(e: Event, screen: Screen) {
    match e
    case LoadingDone => true
    case TypePhone(_) => screen == LoginScreen
    case SubmitLogin => screen == LoginScreen
    case OpenDashboard => screen == HomeScreen
    case CloseDashboard => screen == HomeScreen
    case StartTest => screen == HomeScreen
    case Answer(_) => screen.QuizScreen?
    case GoHome => screen.ResultScreen?
    case Retake => screen.ResultScreen?
  }

  /** A control that is not on screen cannot be used: such an event changes
      nothing, and a step that only reaches a page no longer shown leaves the
      session as it was. */
  lemma EventNeedsItsPage(s: Session, e: Event)
    requires !OnScreenFor(e, Render(s.app))
    ensures Handle(s, e) == s
    ensures Step(s, e) == s
  {
  }

  /** When a different page component is rendered after an event, every
      page's local state is back at its mount state (the login form empty,
      the dashboard closed, the quiz at its first question); when the same
      component stays, its local state is the handler's result. The
      application state is the handler's in both cases. */
  lemma StepRemounts(s: Session, e: Event)
    ensures Step(s, e).app == Handle(s, e).app
    ensures !SameComponent(Render(s.app), Render(Step(s, e).app)) ==>
      && Step(s, e).login == Login.InitialForm
      && Step(s, e).home == Home.InitialView
      && Step(s, e).quiz == Questionnaire.InitialView
    ensures SameComponent(Render(s.app), Render(Step(s, e).app)) ==> Step(s, e) == Handle(s, e)
  {
  }

  function Run(s: Session, events: seq<Event>): Session
    decreases |events|
  {
    if events == [] then s else Run(Step(s, events[0]), events[1..])
  }

  function AnswerEvents(answers: seq<bool>): (events: seq<Event>)
    ensures |events| == |answers|
    ensures forall i :: 0 <= i < |answers| ==> events[i] == Answer(answers[i])
  {
    if answers == [] then [] else [Answer(answers[0])] + AnswerEvents(answers[1..])
  }

  /** What holds of every session reachable from `Launch`. The quiz and
      result pages only ever see whole runs of fifteen answers, plus the
      answers given so far on the quiz page: a retake keeps the earlier runs. */
  ghost predicate Inv(s: Session) {
    && IsKnownPage(s.app.page)
    && (s.app.isLoading ==> s.app.page == PageLogin)
    && (s.app.page != PageLogin ==> s.app.phoneNumber != [])
    && Questionnaire.ValidView(s.quiz)
    && (Render(s.app).QuizScreen? ==>
          |s.app.quizAnswers| % Questionnaire.QuestionCount == s.quiz.currentQ)
    && (Render(s.app).ResultScreen? ==>
          |s.app.quizAnswers| % Questionnaire.QuestionCount == 0 && s.app.quizAnswers != [])
  }

  lemma LaunchSatisfiesInv(storedPhone: string)
    ensures Inv(Launch(storedPhone))
    ensures Render(Launch(storedPhone).app) == LoadingScreen
  {
  }

  lemma StepPreservesInv(s: Session, e: Event)
    requires Inv(s)
    ensures Inv(Step(s, e))
  {
    if e.Answer? && Render(s.app).QuizScreen? {
      AnswerKeepsCount(s, e.yes);
    }
  }

  /** On the quiz page, an answer keeps the cursor equal to the answer count
      modulo the number of questions, or completes a run of fifteen. */
  lemma AnswerKeepsCount(s: Session, yes: bool)
    requires Inv(s) && Render(s.app).QuizScreen?
    ensures Inv(Step(s, Answer(yes)))
  {
    var n := |s.app.quizAnswers|;
    AnswerStep(s, yes);
    if s.quiz.currentQ < Questionnaire.QuestionCount - 1 {
      assert (n + 1) % Questionnaire.QuestionCount == s.quiz.currentQ + 1;
    } else {
      assert (n + 1) % Questionnaire.QuestionCount == 0;
    }
  }

  lemma {:induction false} RunPreservesInv(s: Session, events: seq<Event>)
    requires Inv(s)
    ensures Inv(Run(s, events))
    decreases |events|
  {
    if events != [] {
      StepPreservesInv(s, events[0]);
      RunPreservesInv(Step(s, events[0]), events[1..]);
    }
  }

  /** In a reachable session the default route is never taken, a logged-out
      user never gets past the login page, and the result page is handed a
      whole number of fifteen-answer runs. */
  lemma ReachableRouting(storedPhone: string, events: seq<Event>)
    ensures var s := Run(Launch(storedPhone), events);
      && IsKnownPage(s.app.page)
      && (s.app.phoneNumber == [] ==> Render(s.app) in {LoadingScreen, LoginScreen})
      && (Render(s.app).ResultScreen? ==>
            |Render(s.app).answers| % Questionnaire.QuestionCount == 0 && Render(s.app).answers != [])
  {
    LaunchSatisfiesInv(storedPhone);
    RunPreservesInv(Launch(storedPhone), events);
  }

  lemma {:induction false} RunAppend(s: Session, first: seq<Event>, second: seq<Event>)
    ensures Run(s, first + second) == Run(Run(s, first), second)
    decreases |first|
  {
    if first == [] {
      assert first + second == second;
    } else {
      assert (first + second)[1..] == first[1..] + second;
      RunAppend(Step(s, first[0]), first[1..], second);
    }
  }

  /** One answer on the quiz page: the cursor moves on and the page stays,
      or, on the last question, the result page takes over. */
  lemma AnswerStep(s: Session, yes: bool)
    requires Render(s.app).QuizScreen?
    ensures s.quiz.currentQ < Questionnaire.QuestionCount - 1 ==>
      Step(s, Answer(yes)) == s.(quiz := Questionnaire.QuizView(s.quiz.currentQ + 1),
                                 app := s.app.(quizAnswers := s.app.quizAnswers + [yes]))
    ensures s.quiz.currentQ >= Questionnaire.QuestionCount - 1 ==>
      Step(s, Answer(yes)).app == s.app.(quizAnswers := s.app.quizAnswers + [yes], page := PageResult)
  {
  }

  lemma RunAnswersCons(s: Session, answers: seq<bool>)
    requires answers != []
    ensures Run(s, AnswerEvents(answers)) == Run(Step(s, Answer(answers[0])), AnswerEvents(answers[1..]))
  {
    var events := AnswerEvents(answers);
    assert events[0] == Answer(answers[0]);
    assert events[1..] == AnswerEvents(answers[1..]);
  }

  /** The answer to the last question moves to the result page. */
  lemma AnswerLast(s: Session, yes: bool)
    requires Render(s.app).QuizScreen?
    requires s.quiz.currentQ + 1 == Questionnaire.QuestionCount
    ensures Run(s, AnswerEvents([yes])).app
         == s.app.(quizAnswers := s.app.quizAnswers + [yes], page := PageResult)
  {
    RunAnswersCons(s, [yes]);
    assert AnswerEvents([yes][1..]) == [];
    AnswerStep(s, yes);
  }

  /** The first of several remaining answers keeps the quiz page on screen
      with the cursor one further and the answer appended. */
  lemma AnswerNotLast(s: Session, answers: seq<bool>) returns (t: Session)
    requires Render(s.app).QuizScreen?
    requires |answers| > 1 && s.quiz.currentQ + |answers| == Questionnaire.QuestionCount
    ensures Render(t.app).QuizScreen?
    ensures t.quiz.currentQ + |answers[1..]| == Questionnaire.QuestionCount
    ensures t.app == s.app.(quizAnswers := s.app.quizAnswers + [answers[0]])
    ensures Run(s, AnswerEvents(answers)) == Run(t, AnswerEvents(answers[1..]))
  {
    t := Step(s, Answer(answers[0]));
    RunAnswersCons(s, answers);
    AnswerStep(s, answers[0]);
  }

  lemma AppendFirst<T>(prefix: seq<T>, rest: seq<T>)
    requires rest != []
    ensures prefix + [rest[0]] + rest[1..] == prefix + rest
  {
  }

  /** On the quiz page, answering the remaining questions appends the
      answers in order and ends on the result page. */
  lemma {:induction false} AnswerRemaining(s: Session, answers: seq<bool>)
    requires Render(s.app).QuizScreen?
    requires answers != [] && s.quiz.currentQ + |answers| == Questionnaire.QuestionCount
    ensures Run(s, AnswerEvents(answers)).app
         == s.app.(quizAnswers := s.app.quizAnswers + answers, page := PageResult)
    decreases |answers|, 1
  {
    if |answers| == 1 {
      AnswerLast(s, answers[0]);
      assert answers == [answers[0]];
    } else {
      AnswerSeveral(s, answers);
    }
  }

  lemma {:induction false} AnswerSeveral(s: Session, answers: seq<bool>)
    requires Render(s.app).QuizScreen?
    requires |answers| > 1 && s.quiz.currentQ + |answers| == Questionnaire.QuestionCount
    ensures Run(s, AnswerEvents(answers)).app
         == s.app.(quizAnswers := s.app.quizAnswers + answers, page := PageResult)
    decreases |answers|, 0
  {
    var t := AnswerNotLast(s, answers);
    AnswerRemaining(t, answers[1..]);
    AppendFirst(s.app.quizAnswers, answers);
  }

  /** Loading, a phone input with ten digits, and "Start Health Test" lead
      to a fresh quiz for that phone number. */
  lemma LoginThenStart(storedPhone: string, typed: string)
    requires |Login.StripNonDigits(typed)| == Login.PhoneLength
    ensures var s := Run(Launch(storedPhone), [LoadingDone, TypePhone(typed), SubmitLogin, StartTest]);
      && Render(s.app) == QuizScreen([])
      && s.quiz == Questionnaire.InitialView
      && s.app.phoneNumber == Login.StripNonDigits(typed)
  {
    var events := [LoadingDone, TypePhone(typed), SubmitLogin, StartTest];
    var s0 := Launch(storedPhone);
    var s1 := Step(s0, LoadingDone);
    assert Render(s1.app) == LoginScreen;
    var s2 := Step(s1, TypePhone(typed));
    assert s2.login.input == typed && s2.app == s1.app;
    var s3 := Step(s2, SubmitLogin);
    assert s3.app.page == PageHome && s3.app.phoneNumber == Login.StripNonDigits(typed) && !s3.app.isLoading by {
      assert s3.app == Login.HandleLogin(s2.login, s2.app).1;
    }
    assert Render(s3.app) == HomeScreen;
    var s4 := Step(s3, StartTest);
    assert Render(s4.app) == QuizScreen([]) && s4.quiz == Questionnaire.InitialView;
    assert Run(s0, events) == s4 by {
      assert events[1..] == [TypePhone(typed), SubmitLogin, StartTest];
      assert [TypePhone(typed), SubmitLogin, StartTest][1..] == [SubmitLogin, StartTest];
      assert [SubmitLogin, StartTest][1..] == [StartTest];
      assert [StartTest][1..] == [];
      assert Run(s3, [StartTest]) == s4;
      assert Run(s2, [SubmitLogin, StartTest]) == Run(s3, [StartTest]);
      assert Run(s1, [TypePhone(typed), SubmitLogin, StartTest]) == Run(s2, [SubmitLogin, StartTest]);
    }
  }

  /** The whole first assessment: after loading, a phone input with ten
      digits, "Start Health Test" and fifteen answers, the result page shows
      the assessment of exactly those fifteen answers. */
  lemma FirstAssessment(storedPhone: string, typed: string, answers: seq<bool>)
    requires |Login.StripNonDigits(typed)| == Login.PhoneLength
    requires |answers| == Questionnaire.QuestionCount
    ensures var s := Run(Launch(storedPhone),
                         [LoadingDone, TypePhone(typed), SubmitLogin, StartTest] + AnswerEvents(answers));
      && Render(s.app) == ResultScreen(answers)
      && s.app.phoneNumber == Login.StripNonDigits(typed)
  {
    var start := [LoadingDone, TypePhone(typed), SubmitLogin, StartTest];
    RunAppend(Launch(storedPhone), start, AnswerEvents(answers));
    LoginThenStart(storedPhone, typed);
    var q := Run(Launch(storedPhone), start);
    AnswerRemaining(q, answers);
  }

  /** "Retake Test" keeps the earlier answers: the next fifteen answers are
      appended to them, and the result page counts the yes answers of both
      runs together. */
  lemma RetakeAccumulates(s: Session, answers: seq<bool>)
    requires Inv(s) && Render(s.app).ResultScreen?
    requires |answers| == Questionnaire.QuestionCount
    ensures var t := Run(s, [Retake] + AnswerEvents(answers));
      && Render(t.app) == ResultScreen(s.app.quizAnswers + answers)
      && Result.Assess(t.app.quizAnswers).yesCount
           == Result.YesCount(s.app.quizAnswers) + Result.YesCount(answers)
  {
    RunAppend(s, [Retake], AnswerEvents(answers));
    var r := Step(s, Retake);
    assert r.quiz.currentQ == 0;
    assert Run(s, [Retake]) == r;
    AnswerRemaining(r, answers);
    assert multiset(s.app.quizAnswers + answers) == multiset(s.app.quizAnswers) + multiset(answers);
  }

  /** A first run answered all "Yes" followed by a retake answered all "No"
      is still assessed as severe, because the retake is scored together
      with the first run. */
  lemma RetakeAllNoAfterAllYesStaysSevere(s: Session)
    requires Inv(s) && Render(s.app) == ResultScreen(Result.Repeat(true, Questionnaire.QuestionCount))
    ensures var t := Run(s, [Retake] + AnswerEvents(Result.Repeat(false, Questionnaire.QuestionCount)));
      && |t.app.quizAnswers| == 2 * Questionnaire.QuestionCount
      && Result.Assess(t.app.quizAnswers).stage == Result.Severe
  {
    RetakeAccumulates(s, Result.Repeat(false, Questionnaire.QuestionCount));
    Result.RepeatMultiset(true, Questionnaire.QuestionCount);
    Result.RepeatMultiset(false, Questionnaire.QuestionCount);
  }

  /** "Go Back to Home" followed by "Start Health Test" does start afresh. */
  lemma GoHomeThenStartIsFresh(s: Session)
    requires Inv(s) && Render(s.app).ResultScreen?
    ensures var t := Run(s, [GoHome, StartTest]);
      Render(t.app) == QuizScreen([]) && t.quiz == Questionnaire.InitialView
  {
  }
}
