# PhotoSense assessment flow, modelled in Dafny

A model of the decision logic of a small React application for a
photosensitivity self-assessment. A user logs in with a phone number,
starts a fifteen-question yes/no quiz from the home page, and gets a result
page that counts the "Yes" answers and maps the count to one of three
stages (mild, moderate, severe), each with its own advice and
over-the-counter medication list. A separate dialog keeps a per-user list of
doctors.

Everything is modelled as immutable values and pure functions:

- `state.dfy` (`State`): the root component's state: page name, phone number,
  shared answer list and loading flag.
- `result.dfy` (`Result`): the yes-count, the three-way stage cascade, the
  stage table, and the heading and disclaimer choice. It also holds the
  result page's "Go Home" and "Retake" actions.
- `questionnaire.dfy` (`Questionnaire`): the fixed question list, the page's
  cursor, and the answer step.
- `home.dfy` (`Home`): the dashboard toggle, the phone fallback and
  "Start Health Test".
- `login.dfy` (`Login`): digit stripping and the ten-digit check.
- `app.dfy` (`App`): routing behind the loading gate. It also defines a
  session of events that combines the application state with the local
  state of the page on screen. That local state is reset whenever a
  different page component is rendered, as React does when it mounts a new
  component.
- `doctors.dfy` (`Doctors`): the doctor list's filter, append, delete and
  form-field edit.

Local storage, `window.confirm`, the clock and the start-up timer become
parameters or events. The stored phone is an argument of `App.Launch`. The
confirmation answer, the fresh id and the timestamp are arguments of
`Doctors.Delete` and `Doctors.Submit`. The end of the loading delay is the
`LoadingDone` event.

Answers are `seq<bool>`, because the two quiz buttons only ever submit the
literals `true` and `false`. The program counts entries that are exactly
`true`; on this type that is the multiplicity of `true`.

Behaviour worth knowing:

- The result page has no length check. Any answer list is scored, the empty
  one included.
- "Retake" does not clear the answers. It only switches the page back to the
  quiz, and the quiz page mounts with its cursor at 0. So the next fifteen
  answers are appended to the earlier ones, and the result page then scores
  all of them together (`App.RetakeAccumulates`,
  `App.RetakeAllNoAfterAllYesStaysSevere`). Only "Start Health Test" clears
  the list (`Home.StartTest`, `App.GoHomeThenStartIsFresh`).
- The severe entry's label reads "11–15", but the cascade has no upper
  bound. After a retake the count can exceed 15 and is still severe.

The display prose (questions, treatment advice, medication descriptions,
headings, disclaimers) is kept in text functions. The proofs reason about
which entry is chosen, not about the wording.

## Model

| member | source | states |
|---|---|---|
| State.Initial | src/App.js:10-13 | The application starts on the login page, loading, with no answers and the phone read from storage |
| Result.YesCount | src/pages/ResultPage.js:45 | The yes-count is the number of entries equal to `true`, is at most the list length, and is 0 exactly when no entry is `true` |
| Result.StageFor | src/pages/ResultPage.js:48-54 | The stage is mild iff the count is at most 5, moderate iff it is 6..10, severe iff it is at least 11 |
| Result.StageForIsTheUniqueBand | src/pages/ResultPage.js:6-42 | The three count bands partition the counts, and the cascade selects the one band, so exactly one table entry, that contains the count |
| Result.StageMonotone | src/pages/ResultPage.js:48-54 | A larger count never gives a lower stage number |
| Result.Assess | src/pages/ResultPage.js:44-100 | Any answer list, the empty one included, is assessed. The shown entry is the table row of a band containing the yes-count. The topical heading and sunburn disclaimer appear iff the stage is mild. Mild lists 4 medications and the others list 2 |
| Result.YesCountPointwiseMonotone | src/pages/ResultPage.js:45 | Turning "No" answers into "Yes" never lowers the yes-count |
| Result.AssessMonotone | src/pages/ResultPage.js:45-54 | Turning "No" answers into "Yes" never lowers the assessed stage |
| Result.YesThenNoCount | src/pages/ResultPage.js:45-54 | A run of k "Yes" followed by any number of "No" answers counts exactly k and is staged by k |
| Result.FifteenQuestionScenarios | src/pages/ResultPage.js:48-54 | Over fifteen answers: all "No" is mild, 5 "Yes" is mild, 6 and 10 are moderate, 11 and all "Yes" are severe |
| Result.HandleGoHome | src/pages/ResultPage.js:56 | "Go Back to Home" sets the page to home and leaves the answers, phone and loading flag alone |
| Result.HandleRetake | src/pages/ResultPage.js:57 | "Retake Test" sets the page to quiz and keeps the earlier answers |
| Questionnaire.CurrentQuestion | src/pages/QuestionnairePage.js:38 | With the cursor in range, the question shown is one of the fixed list |
| Questionnaire.Counter | src/pages/QuestionnairePage.js:49-50 | The counter shows a value in 1..15, one more than the cursor |
| Questionnaire.ProgressPercent | src/pages/QuestionnairePage.js:37 | The whole-number progress is in 1..100 and is 100 exactly on the last question |
| Questionnaire.HandleAnswer | src/pages/QuestionnairePage.js:26-35 | An answer is appended: one longer, earlier entries unchanged, last entry the answer. Before the last question the cursor advances and the page stays. On the last question the page becomes result and the cursor stays. A valid cursor stays valid |
| Questionnaire.AnswerAllFrom | src/pages/QuestionnairePage.js:24-35 | A series of answers is appended in order. While questions remain, the cursor moves one per answer and the page stays. The answer to the last question switches to the result page |
| Questionnaire.FifteenAnswersReachResult | src/pages/QuestionnairePage.js:5-35 | From a freshly mounted page, the result page is reached iff exactly fifteen answers are given, and the list grows by exactly those answers |
| Home.OpenDashboard | src/pages/HomePage.js:24 | The menu button opens the dashboard |
| Home.CloseDashboard | src/pages/HomePage.js:59 | Closing the dashboard returns to the mount state, which has the dashboard closed |
| Home.DisplayPhone | src/pages/HomePage.js:9 | The dashboard gets the stored phone, or ten zeros when none is stored |
| Home.StartTest | src/pages/HomePage.js:11-14 | "Start Health Test" empties the answer list whatever it held and opens the quiz. Phone and loading flag are unchanged |
| Home.StartTestIdempotent | src/pages/HomePage.js:11-14 | Starting twice gives the same state as starting once |
| Login.StripNonDigits | src/pages/LoginPage.js:13 | The stripped string holds only '0'..'9' and is no longer than the input |
| Login.StripKeepsEveryDigit | src/pages/LoginPage.js:13 | Each digit occurs as often in the stripped string as in the input, and no other character occurs |
| Login.StripIsSubsequence | src/pages/LoginPage.js:13 | The stripped string is obtained from the input by deleting characters, so order is kept |
| Login.StripAppend | src/pages/LoginPage.js:13 | Stripping a concatenation is the concatenation of the stripped parts |
| Login.StripKeepsDigitStrings | src/pages/LoginPage.js:13 | A string of digits is left unchanged |
| Login.StripIdempotent | src/pages/LoginPage.js:13 | Stripping twice is stripping once |
| Login.EditInput | src/pages/LoginPage.js:47 | Typing replaces the input and keeps the error |
| Login.HandleLoginOutcome | src/pages/LoginPage.js:10-19 | `Login.HandleLogin`, the submit handler: a submit clears the error. It succeeds iff exactly ten digits remain: the phone becomes those digits, taken in order from the input, and the page becomes home. Otherwise the error message is set and the application state is unchanged. The answers and loading flag are never touched |
| Login.LoginIgnoresSeparators | src/pages/LoginPage.js:13-18 | Submitting an input has the same effect on the application as submitting its digits alone |
| Login.StripDropsNonDigits | src/pages/LoginPage.js:13 | A string without digits strips to the empty string |
| Login.SeparatedNumberAccepted | src/pages/LoginPage.js:13-16 | Ten digits with any digit-free separator inserted at any point are accepted, and the phone becomes exactly those ten digits |
| App.Render | src/App.js:28-53 | The loading screen wins over every page. "home" without a phone shows the login page, and with one shows home. Quiz and result get the shared answers. Any unknown page falls back to home |
| App.LaunchSatisfiesInv | src/App.js:10-13 | `App.Launch`, the mount of the root with the stored phone: a new session shows the loading screen and satisfies the session invariant |
| App.EventNeedsItsPage | src/App.js:28-52 | An event whose control belongs to a page that is not on screen (typing or submitting off the login page, dashboard and start controls off the home page, answers off the quiz, result buttons off the result page) changes nothing, in `App.Handle` and in `App.Step` |
| App.StepRemounts | src/App.js:28-52 | `App.Step`: the application state is the handler's. When the rendered page component changes, every page's local state is back at its mount state (empty login form, closed dashboard, quiz cursor 0); when it stays, the local state is the handler's |
| App.StepPreservesInv | src/App.js:28-53 | Every event keeps the session invariant: the page is one of the four known names, and a logged-out user is only ever on the login page. The quiz cursor indexes a question and equals the answer count modulo 15. The result page only sees a non-empty multiple of fifteen answers |
| App.RunPreservesInv | src/App.js:28-53 | Any sequence of events keeps the session invariant |
| App.ReachableRouting | src/App.js:40-51 | In every reachable session the fallback route is never taken. Without a phone, only the loading or login screen shows. The result page is handed a non-empty multiple of fifteen answers |
| App.AnswerStep | src/pages/QuestionnairePage.js:26-35 | One answer on the quiz page either advances the cursor on the same page or, on the last question, moves to the result page with the answer appended |
| App.AnswerKeepsCount | src/pages/QuestionnairePage.js:26-35 | On the quiz page an answer keeps the session invariant: the cursor stays equal to the answer count modulo 15, or a run of fifteen is complete and the result page shows |
| App.AnswerLast | src/pages/QuestionnairePage.js:33-34 | The answer to the last question appends it and moves to the result page |
| App.AnswerNotLast | src/pages/QuestionnairePage.js:30-31 | An answer before the last question keeps the quiz page on screen, moves the cursor one further and appends the answer |
| App.AnswerRemaining | src/pages/QuestionnairePage.js:26-35 | Answering the remaining questions on the quiz page appends them in order and ends on the result page |
| App.LoginThenStart | src/pages/LoginPage.js:10-16 | After loading, a ten-digit phone input and "Start Health Test", the quiz shows with no answers and a fresh cursor, for the stripped phone |
| App.FirstAssessment | src/App.js:40-49 | Loading, login, "Start Health Test" and fifteen answers give a result page handed exactly those fifteen answers |
| App.RetakeAccumulates | src/pages/ResultPage.js:57 | After "Retake Test", fifteen more answers are appended to the earlier ones, and the result page counts the yes answers of both runs together |
| App.RetakeAllNoAfterAllYesStaysSevere | src/pages/ResultPage.js:45-57 | A retake answered all "No" after an all-"Yes" run is scored over 30 answers and is still severe |
| App.GoHomeThenStartIsFresh | src/pages/HomePage.js:11-14 | "Go Back to Home" followed by "Start Health Test" opens an empty quiz at the first question |
| Doctors.UserDoctors | src/components/DoctorRegistration.js:22-24 | The user's view holds exactly the stored records with that phone and role |
| Doctors.UserDoctorsAppend | src/components/DoctorRegistration.js:22-24 | The view of a concatenation is the concatenation of the views, so stored order is kept |
| Doctors.Submit | src/components/DoctorRegistration.js:26-38 | Saving appends exactly one record at the end and leaves the existing ones unchanged. The record carries the form, the user's role and phone, the fresh id and the timestamp |
| Doctors.SubmitExtendsOwnView | src/components/DoctorRegistration.js:22-38 | The new record appears last in its owner's view, and every other user's or role's view is unchanged |
| Doctors.WithoutId | src/components/DoctorRegistration.js:51 | Filtering by id keeps exactly the records with a different id |
| Doctors.Delete | src/components/DoctorRegistration.js:49-52 | A confirmed delete removes every record with that id and keeps all others. A declined delete changes nothing |
| Doctors.WithoutIdAppend | src/components/DoctorRegistration.js:51 | Deleting from a concatenation deletes from each part, so the kept records stay in order |
| Doctors.WithoutAbsentId | src/components/DoctorRegistration.js:51 | Deleting an id no record has changes nothing |
| Doctors.DeleteUndoesSubmit | src/components/DoctorRegistration.js:38-51 | Confirmed deletion of a just-saved record whose id was fresh restores the list as it was |
| Doctors.DeleteIdempotent | src/components/DoctorRegistration.js:49-51 | Deleting the same id twice is deleting it once |
| Doctors.HandleChange | src/components/DoctorRegistration.js:62-67 | Editing a field sets that field and leaves every other field unchanged |
| Doctors.FormHeading | src/components/DoctorRegistration.js:130 | The heading reads "Add Another Doctor" iff the user has at least one record in that role |
| Doctors.HeadingAfterSubmit | src/components/DoctorRegistration.js:26-38 | After saving a doctor, the heading reads "Add Another Doctor" |

## Left out

- Local storage reads and writes (src/App.js:11, 15-19; the doctor list's load and saves) are values and parameters. Serialisation, and storage failures, are not modelled.
- The start-up timer (src/App.js:21-25) is the `LoadingDone` event. Its 1.5-second delay and the clean-up on unmount are not modelled.
- `alert`, `window.confirm` (a boolean argument), `onDoctorAdded`/`onDoctorDeleted` callbacks and `onClose` of the doctor dialog are browser or caller side effects and are not modelled.
- `Date.now()` ids and ISO timestamps are arguments. The model does not assume ids are unique, and a delete removes every record with the id, whoever owns it.
- The browser's `maxLength="10"` on the phone field is enforced by the browser, not by the code, so the model accepts any typed string.
- The doctor dialog is not wired into the session model: no component of the program renders it, so its `userRole`, `phoneNumber` and callbacks are free parameters of the `Doctors` operations.
- The `required` attribute on the phone input (src/pages/LoginPage.js:45) and on every doctor form field (src/components/DoctorRegistration.js:146, 162, 178, 196, 212, 228, 244, 258) is enforced by the browser, which blocks the submit of an empty field. The model has no such check: a login submit on an empty input sets the error message, and `Doctors.Submit` accepts a form with empty fields.
- The stored doctor list is read once per render (src/components/DoctorRegistration.js:19), and the delete handler (49-59) sets no component state. So after a delete the removed record stays listed until something re-renders the dialog, and a save made before that builds on the stale list (38) and writes the deleted record back. The model has no render cycle: `Doctors.Delete` and `Doctors.Submit` both act on the current stored list.
- Questionnaire.ProgressPercent: the JavaScript computes a floating-point percentage; the model states only its whole-number part.
- Animation, styling, the splash screen, the navigation bar, the dashboard, video cards, the drug-allergy page and the profile page hold no decision logic and are not part of this model.
