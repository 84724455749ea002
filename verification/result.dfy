/** The scoring and tier resolution of the result page
    (src/pages/ResultPage.js): count the answers that are exactly `true`,
    map the count to one of three stages by a cascade of upper bounds, and
    select that stage's guidance bundle from a static table. */
module Result {
  import opened State

  datatype Stage = Mild | Moderate | Severe

  /** The stage number shown to the user ("Stage 1" .. "Stage 3"), used as
      the severity order. */
  function Severity(s: Stage): nat {
    match s
    case Mild => 1
    case Moderate => 2
    case Severe => 3
  }

  /** The over-the-counter products the table lists. The displayed prose is
      `MedicationText`; the model reasons only about which products are listed
      and in what order. */
  datatype Medication =
    | AloeVera | Calamine | CeramideMoisturizer | Hydrocortisone
    | Cetirizine | Loratadine
    | Fexofenadine | Diphenhydramine

  function MedicationText(m: Medication): string {
    match m
    case AloeVera => "Aloe vera gel / Aloe lotion - Soothes irritated skin (use fragrance-free)"
    case Calamine => "Calamine lotion - Reduces itching and redness (apply 2-3 times daily)"
    case CeramideMoisturizer => "Moisturizers with ceramides - Repairs skin barrier (good for dryness/peeling)"
    case Hydrocortisone => "0.5–1% Hydrocortisone cream - Reduces inflammation, redness, itching (short-term use only - 3-5 days)"
    case Cetirizine => "Cetirizine - 10 mg once daily (non-sedating antihistamine)"
    case Loratadine => "Loratadine - 10 mg once daily (non-drowsy)"
    case Fexofenadine => "Fexofenadine - 120-180 mg once daily (stronger option for itching)"
    case Diphenhydramine => "Diphenhydramine (Benadryl) - 25 mg at night (causes drowsiness - avoid driving)"
  }

  /** The treatment advice of each table entry, displayed as `TreatmentText`. */
  datatype Treatment = SunProtection | StrictSunAvoidance | SeekConsultation

  function TreatmentText(t: Treatment): string {
    match t
    case SunProtection =>
      "Your risk appears mild. Focus on **daily broad-spectrum SPF 30+**, protective clothing, and avoiding peak sun hours (10 AM - 4 PM). Monitor your skin for changes."
    case StrictSunAvoidance =>
      "You show signs of moderate photosensitivity. Strict sun avoidance and wearing **UV-protective clothing** (UPF rated) are essential. Consult a dermatologist to review medications or conditions."
    case SeekConsultation =>
      "Your responses indicate severe photosensitivity or a high likelihood of a photo-induced condition. You must minimize sun exposure. **Seek immediate consultation** with a healthcare professional to identify and manage the underlying cause."
  }

  /** One entry of the stage table. */
  datatype StageInfo = StageInfo(
    range: string,
    stage: string,
    color: string,
    bgColor: string,
    treatment: Treatment,
    medications: seq<Medication>)

  /** The static stage table. */
  function StageMapping(s: Stage): StageInfo {
    match s
    case Mild =>
      StageInfo("0–5 Yes answers", "Stage 1 (Mild Photosensitivity Risk)",
                "result-mild", "result-bg-mild", SunProtection,
                [AloeVera, Calamine, CeramideMoisturizer, Hydrocortisone])
    case Moderate =>
      StageInfo("6–10 Yes answers", "Stage 2 (Moderate Photosensitivity)",
                "result-moderate", "result-bg-moderate", StrictSunAvoidance,
                [Cetirizine, Loratadine])
    case Severe =>
      StageInfo("11–15 Yes answers", "Stage 3 (Severe Photosensitivity)",
                "result-severe", "result-bg-severe", SeekConsultation,
                [Fexofenadine, Diphenhydramine])
  }

  /** The two texts above and below the medication list: the topical heading
      with the sunburn disclaimer, or the oral heading with the antihistamine
      disclaimer. */
  datatype MedicationNotes = TopicalNotes | OralNotes

  function HeadingText(n: MedicationNotes): string {
    match n
    case TopicalNotes => "Topical Options (Over-the-counter):"
    case OralNotes => "Oral OTC Options (for itching or allergic-type reaction):"
  }

  function DisclaimerText(n: MedicationNotes): string {
    match n
    case TopicalNotes => "These can help with sunburn-like symptoms, itching, redness, and inflammation."
    case OralNotes => "These antihistamines help if the photosensitivity has an allergic or rash component."
  }

  /** Number of answers that are exactly `true`. */
  function YesCount(answers: seq<bool>): (n: nat)
    ensures n == multiset(answers)[true]
    ensures n <= |answers|
    ensures n == 0 <==> true !in answers
  {
    if answers == [] then 0
    else
      assert answers == [answers[0]] + answers[1..];
      (if answers[0] then 1 else 0) + YesCount(answers[1..])
  }

  /** The inclusive count band each stage covers, read as a declarative
      table; the severe band has no upper bound in the code even though its
      label reads "11–15". */
  predicate InBand(s: Stage, yesCount: nat) {
    match s
    case Mild => yesCount <= 5
    case Moderate => 6 <= yesCount <= 10
    case Severe => 11 <= yesCount
  }

  /** The three-way cascade on the yes-count. */
  function StageFor(yesCount: nat): (s: Stage)
    ensures s == Mild <==> yesCount <= 5
    ensures s == Moderate <==> 6 <= yesCount <= 10
    ensures s == Severe <==> 11 <= yesCount
  {
    if yesCount <= 5 then Mild
    else if yesCount <= 10 then Moderate
    else Severe
  }

  /** The bands partition the natural numbers and the cascade picks the one
      band that contains the count: exactly one table entry is selected. */
  lemma StageForIsTheUniqueBand(yesCount: nat)
    ensures InBand(StageFor(yesCount), yesCount)
    ensures forall s: Stage :: InBand(s, yesCount) ==> s == StageFor(yesCount)
  {
  }

  /** More yes answers never give a lower stage. */
  lemma StageMonotone(a: nat, b: nat)
    requires a <= b
    ensures Severity(StageFor(a)) <= Severity(StageFor(b))
  {
  }

  /** Everything the result page shows that depends on the answers. */
  datatype Assessment = Assessment(
    yesCount: nat,
    stage: Stage,
    info: StageInfo,
    notes: MedicationNotes)

  /** The result page's computation over whatever answer list it is given;
      there is no length check, so any list, including the empty one, is
      classified. The notes are chosen by comparing the selected entry with
      the mild entry. */
  function Assess(quizAnswers: seq<bool>): (r: Assessment)
    ensures r.yesCount == multiset(quizAnswers)[true] <= |quizAnswers|
    ensures InBand(r.stage, r.yesCount)
    ensures r.info == StageMapping(r.stage)
    ensures r.notes == TopicalNotes <==> r.stage == Mild
    ensures |r.info.medications| == if r.stage == Mild then 4 else 2
  {
    var n := YesCount(quizAnswers);
    var info := StageMapping(StageFor(n));
    Assessment(n, StageFor(n), info,
               if info == StageMapping(Mild) then TopicalNotes else OralNotes)
  }

  /** `answers` has a `true` wherever `fewer` has one. */
  predicate AtLeastAsManyYes(fewer: seq<bool>, answers: seq<bool>) {
    |fewer| == |answers| && forall i :: 0 <= i < |fewer| ==> fewer[i] ==> answers[i]
  }

  lemma {:induction false} YesCountPointwiseMonotone(fewer: seq<bool>, answers: seq<bool>)
    requires AtLeastAsManyYes(fewer, answers)
    ensures YesCount(fewer) <= YesCount(answers)
    decreases |answers|
  {
    if answers != [] {
      assert AtLeastAsManyYes(fewer[1..], answers[1..]) by {
        forall i | 0 <= i < |fewer[1..]| ensures fewer[1..][i] ==> answers[1..][i] {
          assert fewer[1..][i] == fewer[i + 1];
          assert answers[1..][i] == answers[i + 1];
        }
      }
      YesCountPointwiseMonotone(fewer[1..], answers[1..]);
      assert fewer[0] ==> answers[0];
    }
  }

  /** Turning any "No" answers into "Yes" never lowers the assessed stage. */
  lemma AssessMonotone(fewer: seq<bool>, answers: seq<bool>)
    requires AtLeastAsManyYes(fewer, answers)
    ensures Severity(Assess(fewer).stage) <= Severity(Assess(answers).stage)
  {
    YesCountPointwiseMonotone(fewer, answers);
    StageMonotone(YesCount(fewer), YesCount(answers));
  }

  /** `k` copies of `b`. */
  function Repeat(b: bool, k: nat): (s: seq<bool>)
    ensures |s| == k
    ensures forall i :: 0 <= i < k ==> s[i] == b
  {
    if k == 0 then [] else [b] + Repeat(b, k - 1)
  }

  /** A run of `yes` "Yes" answers followed by `no` "No" answers, in that
      order, counts exactly `yes` and is staged by that count. */
  lemma YesThenNoCount(yes: nat, no: nat)
    ensures Assess(Repeat(true, yes) + Repeat(false, no)).yesCount == yes
    ensures Assess(Repeat(true, yes) + Repeat(false, no)).stage == StageFor(yes)
  {
    RepeatMultiset(true, yes);
    RepeatMultiset(false, no);
    assert multiset(Repeat(true, yes) + Repeat(false, no))
      == multiset(Repeat(true, yes)) + multiset(Repeat(false, no));
  }

  /** The all-no, boundary and all-yes runs of a 15-question assessment. */
  lemma FifteenQuestionScenarios()
    ensures Assess(Repeat(false, 15)).stage == Mild
    ensures Assess(Repeat(true, 5) + Repeat(false, 10)).stage == Mild
    ensures Assess(Repeat(true, 6) + Repeat(false, 9)).stage == Moderate
    ensures Assess(Repeat(true, 10) + Repeat(false, 5)).stage == Moderate
    ensures Assess(Repeat(true, 11) + Repeat(false, 4)).stage == Severe
    ensures Assess(Repeat(true, 15)).stage == Severe
  {
    YesThenNoCount(0, 15);
    assert Repeat(true, 0) + Repeat(false, 15) == Repeat(false, 15);
    YesThenNoCount(5, 10);
    YesThenNoCount(6, 9);
    YesThenNoCount(10, 5);
    YesThenNoCount(11, 4);
    YesThenNoCount(15, 0);
    assert Repeat(true, 15) + Repeat(false, 0) == Repeat(true, 15);
  }

  lemma {:induction false} RepeatMultiset(b: bool, k: nat)
    ensures multiset(Repeat(b, k))[b] == k
    ensures multiset(Repeat(b, k))[!b] == 0
  {
    if k > 0 {
      RepeatMultiset(b, k - 1);
      assert multiset(Repeat(b, k)) == multiset{b} + multiset(Repeat(b, k - 1));
    }
  }

  /** "Go Back to Home": only the page changes. */
  function HandleGoHome(app: AppState): (r: AppState)
    ensures r.page == PageHome
    ensures r.quizAnswers == app.quizAnswers
    ensures r.phoneNumber == app.phoneNumber && r.isLoading == app.isLoading
  {
    app.(page := PageHome)
  }

  /** "Retake Test": only the page changes; the earlier answers are kept. */
  function HandleRetake(app: AppState): (r: AppState)
    ensures r.page == PageQuiz
    ensures r.quizAnswers == app.quizAnswers
    ensures r.phoneNumber == app.phoneNumber && r.isLoading == app.isLoading
  {
    app.(page := PageQuiz)
  }
}
