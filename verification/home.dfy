/** The landing page (src/pages/HomePage.js): its dashboard toggle, the phone
    shown in the dashboard, and the "Start Health Test" action. */
module Home {
  import opened State

  /** The page's own state: whether the dashboard panel is open. */
  datatype HomeView = HomeView(dashboardOpen: bool)

  /** The state the page mounts with: dashboard closed. */
  const InitialView: HomeView := HomeView(false)

  function OpenDashboard(v: HomeView): (r: HomeView)
    ensures r.dashboardOpen
  {
    HomeView(true)
  }

  function CloseDashboard(v: HomeView): (r: HomeView)
    ensures !r.dashboardOpen
    ensures r == InitialView
  {
    HomeView(false)
  }

  const PlaceholderPhone: string := "0000000000"

  /** The phone handed to the dashboard: the stored phone, or ten zeros when
      storage holds none (the program treats absent and empty alike). */
  function DisplayPhone(storedPhone: string): (r: string)
    ensures r != []
    ensures storedPhone != [] ==> r == storedPhone
    ensures storedPhone == [] ==> |r| == 10 && forall i :: 0 <= i < |r| ==> r[i] == '0'
  {
    if storedPhone == [] then PlaceholderPhone else storedPhone
  }

  /** "Start Health Test": discard every earlier answer and open the quiz. */
  function StartTest(app: AppState): (r: AppState)
    ensures r.quizAnswers == [] && r.page == PageQuiz
    ensures r.phoneNumber == app.phoneNumber && r.isLoading == app.isLoading
  {
    app.(quizAnswers := [], page := PageQuiz)
  }

  /** Starting twice is the same as starting once. */
  lemma StartTestIdempotent(app: AppState)
    ensures StartTest(StartTest(app)) == StartTest(app)
  {
  }
}
