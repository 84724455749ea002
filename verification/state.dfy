/** The application-wide state held by the root component (src/App.js):
    the current page name, the logged-in phone number, the shared list of
    quiz answers and the loading flag. Page names are plain strings in the
    JavaScript, so an unknown name is representable and is routed by a fallback. */
module State {

  const PageLogin: string := "login"
  const PageHome: string := "home"
  const PageQuiz: string := "quiz"
  const PageResult: string := "result"

  /** The page names the program itself ever passes to its page setter. */
  predicate IsKnownPage(page: string) {
    page == PageLogin || page == PageHome || page == PageQuiz || page == PageResult
  }

  datatype AppState = AppState(
    page: string,
    phoneNumber: string,
    quizAnswers: seq<bool>,
    isLoading: bool)

  /** The state on first render. `storedPhone` is what local storage holds
      under 'phone', with an absent entry given as the empty string. */
  function Initial(storedPhone: string): (app: AppState)
    ensures app.page == PageLogin && IsKnownPage(app.page)
    ensures app.quizAnswers == [] && app.isLoading
    ensures app.phoneNumber == storedPhone
  {
    AppState(PageLogin, storedPhone, [], true)
  }
}
