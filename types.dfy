/** The records of the application (types.ts). */
module Types {
  import opened Wrappers
  import opened Seqs

  /** The ten slider values a prediction is made from. */
  datatype StudentData = StudentData(
    attendance: real,
    assignmentScore: real,
    quizScore: real,
    midtermScore: real,
    participationScore: real,
    studyHours: real,
    extracurricularHours: real,
    previousGPA: real,
    classAttentiveness: real,
    homeworkCompletion: real)

  /** `keyof StudentData`. */
  datatype ParamId =
    | Attendance | AssignmentScore | QuizScore | MidtermScore | ParticipationScore
    | StudyHours | ExtracurricularHours | PreviousGPA | ClassAttentiveness | HomeworkCompletion

  /** `data[id]`. */
  function FieldOf(data: StudentData, id: ParamId): real {
    match id
    case Attendance => data.attendance
    case AssignmentScore => data.assignmentScore
    case QuizScore => data.quizScore
    case MidtermScore => data.midtermScore
    case ParticipationScore => data.participationScore
    case StudyHours => data.studyHours
    case ExtracurricularHours => data.extracurricularHours
    case PreviousGPA => data.previousGPA
    case ClassAttentiveness => data.classAttentiveness
    case HomeworkCompletion => data.homeworkCompletion
  }

  datatype Subject = Subject(subject: string, score: real)

  datatype Resource = Resource(title: string, kind: string, url: string)

  datatype PredictionResult = PredictionResult(
    predictedScore: real,
    performanceLevel: string,
    recommendations: seq<string>,
    strengths: seq<string>,
    weaknesses: seq<string>,
    subjectBreakdown: seq<Subject>,
    suggestedResources: seq<Resource>)

  /** One slider: its field, label (`caption`, since `label` is a keyword) and range. */
  datatype Parameter = Parameter(id: ParamId, caption: string, min: real, max: real, step: real)

  /** One logged prediction. */
  datatype HistoricalEntry = HistoricalEntry(date: string, data: StudentData, prediction: PredictionResult)

  datatype Course = Course(id: string, name: string)

  datatype UserProfile = UserProfile(
    name: string,
    major: string,
    avatarId: int,
    unlockedAchievements: seq<string>,
    courses: seq<Course>,
    learningStyle: string,
    points: int,
    personalBest: real)

  datatype Achievement = Achievement(id: string, name: string, description: string)

  datatype Badge = Badge(id: string, name: string, description: string, pointsRequired: int)

  datatype Sender = User | Bot

  datatype ChatMessage = ChatMessage(id: string, text: string, sender: Sender)

  datatype Flashcard = Flashcard(question: string, answer: string)

  /** What the setup form hands over: subject, duration in minutes and goal. */
  datatype StudySessionSetup = StudySessionSetup(subject: string, duration: int, goal: string)

  /** `SessionResource.type` takes exactly these three values. */
  datatype ResourceType = Concept | Video | Question

  datatype SessionResource = SessionResource(kind: ResourceType, title: string, content: string)

  datatype QuizQuestion = QuizQuestion(question: string, options: seq<string>, correctAnswer: string)

  /** A running session; `quiz` and `quizScore` are the optional fields. */
  datatype SessionState = SessionState(
    setup: StudySessionSetup,
    resources: seq<SessionResource>,
    startTime: int,
    quiz: Option<seq<QuizQuestion>>,
    quizScore: Option<int>)

  /** `StudyTask.priority` takes exactly these three values. */
  datatype Priority = High | Medium | Low

  datatype StudyTask = StudyTask(day: string, subject: string, task: string, time: string, priority: Priority)

  /** What the planner sends to the model; `weeklyHours` is `None` for NaN. */
  datatype PlannerInput = PlannerInput(
    subjects: seq<string>,
    examDates: string,
    weeklyHours: Option<int>,
    weaknesses: seq<string>,
    learningStyle: string)

  /** `DashboardComponentId`: the six dashboard widgets. */
  datatype DashboardComponentId =
    | Main | Radar | StrengthsWeaknesses | Recommendations | BreakdownAndActions | Resources

  /** `DASHBOARD_COMPONENT_IDS`, the default layout order. */
  const DashboardComponentIds: seq<DashboardComponentId> :=
    [Main, Radar, StrengthsWeaknesses, Recommendations, BreakdownAndActions, Resources]

  /** The string literal of each widget id. */
  function ComponentName(id: DashboardComponentId): string {
    match id
    case Main => "main"
    case Radar => "radar"
    case StrengthsWeaknesses => "strengthsWeaknesses"
    case Recommendations => "recommendations"
    case BreakdownAndActions => "breakdownAndActions"
    case Resources => "resources"
  }

  /** The widget id a string literal names, if it names one. */
  function ComponentNamed(s: string): (r: Option<DashboardComponentId>)
    ensures r.Some? ==> ComponentName(r.value) == s
    ensures r.None? ==> forall id :: ComponentName(id) != s
  {
    if s == "main" then Some(Main)
    else if s == "radar" then Some(Radar)
    else if s == "strengthsWeaknesses" then Some(StrengthsWeaknesses)
    else if s == "recommendations" then Some(Recommendations)
    else if s == "breakdownAndActions" then Some(BreakdownAndActions)
    else if s == "resources" then Some(Resources)
    else None
  }

  /** The default layout lists each of the six widgets exactly once. */
  lemma DashboardIdsArePermutation()
    ensures |DashboardComponentIds| == 6
    ensures Distinct(DashboardComponentIds)
    ensures forall id: DashboardComponentId :: id in DashboardComponentIds
  {
    forall id: DashboardComponentId ensures id in DashboardComponentIds {
      var k := match id
        case Main => 0 case Radar => 1 case StrengthsWeaknesses => 2
        case Recommendations => 3 case BreakdownAndActions => 4 case Resources => 5;
      assert DashboardComponentIds[k] == id;
    }
  }

  /** Every widget id is named by its literal, and the literals are distinct. */
  lemma ComponentNameRoundTrip(id: DashboardComponentId)
    ensures ComponentNamed(ComponentName(id)) == Some(id)
  {
  }
}
