/** The constant tables of constants.ts. */
module Constants {
  import opened Wrappers
  import opened Seqs
  import opened Types

  const InitialStudentData: StudentData :=
    StudentData(85.0, 80.0, 75.0, 78.0, 70.0, 4.0, 2.0, 3.2, 80.0, 85.0)

  const Parameters: seq<Parameter> := [
    Parameter(Attendance, "Attendance (%)", 0.0, 100.0, 1.0),
    Parameter(AssignmentScore, "Assignment Score (%)", 0.0, 100.0, 1.0),
    Parameter(QuizScore, "Quiz Score (%)", 0.0, 100.0, 1.0),
    Parameter(MidtermScore, "Midterm Score (%)", 0.0, 100.0, 1.0),
    Parameter(ParticipationScore, "Class Participation (%)", 0.0, 100.0, 1.0),
    Parameter(StudyHours, "Daily Study Hours", 0.0, 10.0, 0.5),
    Parameter(ExtracurricularHours, "Weekly Extracurricular Hours", 0.0, 20.0, 0.5),
    Parameter(PreviousGPA, "Previous GPA (0.0-4.0)", 0.0, 4.0, 0.1),
    Parameter(ClassAttentiveness, "Class Attentiveness (%)", 0.0, 100.0, 1.0),
    Parameter(HomeworkCompletion, "Homework Completion (%)", 0.0, 100.0, 1.0)
  ]

  // POINTS_SYSTEM
  const RunPredictionPoints: nat := 10
  const LogDataPoints: nat := 5
  const UnlockAchievementPoints: nat := 25
  const CompleteStudySessionPoints: nat := 50
  const CompletePomodoroPoints: nat := 20
  const GenerateFlashcardsPoints: nat := 10

  /** `AVATARS.length`. */
  const AvatarCount: nat := 4

  const AchievementsList: seq<Achievement> := [
    Achievement("firstPrediction", "First Steps", "Run your first performance prediction."),
    Achievement("highAchiever", "High Achiever", "Achieve a predicted score of 90% or higher."),
    Achievement("perfectScore", "Stellar Student", "Achieve a predicted score of 95% or higher."),
    Achievement("historian", "Historian", "Log 5 entries in your historical trends."),
    Achievement("sessionMaster", "Session Master", "Complete your first guided study session.")
  ]

  const BadgesList: seq<Badge> := [
    Badge("novice", "Novice Scholar", "Earn 100 Study Points", 100),
    Badge("adept", "Adept Learner", "Earn 250 Study Points", 250),
    Badge("expert", "Expert Analyst", "Earn 500 Study Points", 500),
    Badge("virtuoso", "Academic Virtuoso", "Earn 1000 Study Points", 1000)
  ]

  /** `list.find(a => a.id === id)`: the first achievement with that id. */
  function FindIn(list: seq<Achievement>, id: string): (r: Option<Achievement>)
    ensures r.Some? ==> r.value in list && r.value.id == id
    ensures r.None? ==> forall a :: a in list ==> a.id != id
  {
    if list == [] then None
    else if list[0].id == id then Some(list[0])
    else FindIn(list[1..], id)
  }

  /** `ACHIEVEMENTS_LIST.find(a => a.id === id)`. */
  function FindAchievement(id: string): Option<Achievement> {
    FindIn(AchievementsList, id)
  }

  function AchievementIds(): seq<string> {
    seq(|AchievementsList|, i requires 0 <= i < |AchievementsList| => AchievementsList[i].id)
  }

  /** The catalogue holds five distinct ids. */
  lemma AchievementCatalogue()
    ensures AchievementIds() == ["firstPrediction", "highAchiever", "perfectScore", "historian", "sessionMaster"]
    ensures Distinct(AchievementIds())
  {
  }

  /** `find` succeeds exactly on the catalogue ids. */
  lemma FindAchievementIds(id: string)
    ensures FindAchievement(id).Some? <==> id in AchievementIds()
  {
    var ids := AchievementIds();
    if FindAchievement(id).Some? {
      var a := FindAchievement(id).value;
      var k :| 0 <= k < |AchievementsList| && AchievementsList[k] == a;
      assert ids[k] == id;
    } else {
      forall k | 0 <= k < |ids| ensures ids[k] != id {
        assert AchievementsList[k] in AchievementsList;
      }
    }
  }

  /** 'focused' and 'quickLearner', which components request, are not in the
      catalogue. */
  lemma UnknownAchievements()
    ensures FindAchievement("focused").None? && FindAchievement("quickLearner").None?
  {
  }

  /** Badge thresholds are positive and strictly increasing. */
  lemma BadgeThresholds()
    ensures forall i :: 0 <= i < |BadgesList| ==> BadgesList[i].pointsRequired > 0
    ensures forall i, j :: 0 <= i < j < |BadgesList| ==> BadgesList[i].pointsRequired < BadgesList[j].pointsRequired
  {
  }

  /** The fields the sliders edit, in slider order. */
  function ParameterIds(): seq<ParamId> {
    seq(|Parameters|, i requires 0 <= i < |Parameters| => Parameters[i].id)
  }

  /** Every slider has a non-empty range and a positive step, and the sliders
      cover each field of StudentData exactly once. */
  lemma ParametersWellFormed()
    ensures forall i :: 0 <= i < |Parameters| ==> Parameters[i].min < Parameters[i].max && Parameters[i].step > 0.0
    ensures Distinct(ParameterIds())
    ensures forall id: ParamId :: id in ParameterIds()
  {
    forall id: ParamId ensures id in ParameterIds() {
      var k := match id
        case Attendance => 0 case AssignmentScore => 1 case QuizScore => 2
        case MidtermScore => 3 case ParticipationScore => 4 case StudyHours => 5
        case ExtracurricularHours => 6 case PreviousGPA => 7
        case ClassAttentiveness => 8 case HomeworkCompletion => 9;
      assert ParameterIds()[k] == id;
    }
  }

  /** Every initial slider value lies in its slider's range. */
  lemma InitialDataInRange()
    ensures forall i :: 0 <= i < |Parameters| ==>
      Parameters[i].min <= FieldOf(InitialStudentData, Parameters[i].id) <= Parameters[i].max
  {
  }
}
