/** The study planner (components/StudyPlanner.tsx): the form, the request
    built from it, and the weekly agenda of a generated plan. */
module StudyPlanning {
  import opened Wrappers
  import opened Text
  import opened Types
  import ProfilePage

  const PlanError: string := "Failed to generate a study plan. Please try again."

  /** `.map(s => s.trim()).filter(s => s)`: trimmed pieces, the empty ones
      dropped. */
  function Cleaned(pieces: seq<string>): (r: seq<string>)
    ensures |r| <= |pieces|
  {
    if pieces == [] then [] else CleanPiece(pieces[0]) + Cleaned(pieces[1..])
  }

  /** One piece trimmed, or nothing when that leaves it empty. */
  function CleanPiece(p: string): (r: seq<string>)
    ensures |r| <= 1
  {
    var t := Trim(p);
    if t == [] then [] else [t]
  }

  /** No cleaned piece is empty or padded. */
  lemma {:induction false} CleanedTrimmed(pieces: seq<string>)
    ensures forall i :: 0 <= i < |Cleaned(pieces)| ==> Cleaned(pieces)[i] != [] && Trimmed(Cleaned(pieces)[i])
  {
    if pieces != [] {
      CleanedTrimmed(pieces[1..]);
      TrimSpec(pieces[0]);
      assert Cleaned(pieces) == CleanPiece(pieces[0]) + Cleaned(pieces[1..]);
    }
  }

  /** Cleaning keeps the order of the pieces. */
  lemma {:induction false} CleanedAppend(a: seq<string>, b: seq<string>)
    ensures Cleaned(a + b) == Cleaned(a) + Cleaned(b)
  {
    if a == [] {
      assert a + b == b;
    } else {
      assert (a + b)[1..] == a[1..] + b;
      assert (a + b)[0] == a[0];
      CleanedAppend(a[1..], b);
    }
  }

  /** The subjects sent to the model: the text split on ',' and cleaned. */
  function Subjects(text: string): seq<string> {
    Cleaned(Split(text, ","))
  }

  /** A name that survives the split unchanged. */
  predicate CleanName(n: string) {
    n != [] && Trimmed(n) && ',' !in n
  }

  function JoinNames(names: seq<string>): string {
    Join(names, ", ")
  }

  /** Splitting a list of clean names joined with ", " gives the names back. */
  lemma {:induction false} SubjectsOfJoin(names: seq<string>)
    requires forall i :: 0 <= i < |names| ==> CleanName(names[i])
    ensures Subjects(JoinNames(names)) == names
    decreases |names|
  {
    if |names| == 0 {
      assert Split("", ",") == [""];
      assert IsBlank("");
    } else if |names| == 1 {
      SplitWithout(names[0], ',');
    } else {
      var n := names[0];
      var rest := names[1..];
      var j := JoinNames(rest);
      JoinCons(names, ", ");
      assert JoinNames(names) == n + [','] + ([' '] + j);
      SplitAfterFirst(n, ',', [' '] + j);
      CleanedCons(n, Split([' '] + j, ","));
      LeadingSpaceCleaned(j);
      SubjectsOfJoin(rest);
    }
  }

  lemma CleanedCons(n: string, more: seq<string>)
    requires n != [] && Trimmed(n)
    ensures Cleaned([n] + more) == [n] + Cleaned(more)
  {
    TrimOfTrimmed(n);
    assert ([n] + more)[1..] == more;
  }

  /** A leading space only pads the first piece, which is trimmed anyway. */
  lemma LeadingSpaceCleaned(t: string)
    ensures Cleaned(Split([' '] + t, ",")) == Cleaned(Split(t, ","))
  {
    var pieces := Split(t, [',']);
    SplitPrefix(' ', t, ',');
    var padded := [[' '] + pieces[0]] + pieces[1..];
    assert Split([' '] + t, [',']) == padded;
    assert padded[0] == [' '] + pieces[0] && padded[1..] == pieces[1..];
    CleanPieceLeadingSpace(pieces[0]);
    assert Cleaned(padded) == CleanPiece(pieces[0]) + Cleaned(pieces[1..]);
    assert Cleaned(pieces) == CleanPiece(pieces[0]) + Cleaned(pieces[1..]);
  }

  lemma CleanPieceLeadingSpace(p: string)
    ensures CleanPiece([' '] + p) == CleanPiece(p)
  {
    TrimLeadingSpace(' ', p);
  }

  function SubjectNames(subjects: seq<Subject>): (r: seq<string>)
    ensures |r| == |subjects| && forall i :: 0 <= i < |subjects| ==> r[i] == subjects[i].subject
  {
    if subjects == [] then [] else [subjects[0].subject] + SubjectNames(subjects[1..])
  }

  /** The initial subjects text: the course names joined by ", ", else the
      subjects of the last prediction, else empty. */
  function InitialSubjects(profile: UserProfile, prediction: Option<PredictionResult>): (r: string)
    ensures JoinNames(ProfilePage.Names(profile.courses)) != "" ==> r == JoinNames(ProfilePage.Names(profile.courses))
    ensures JoinNames(ProfilePage.Names(profile.courses)) == "" && prediction.None? ==> r == ""
    ensures JoinNames(ProfilePage.Names(profile.courses)) == "" && prediction.Some? ==>
      r == JoinNames(SubjectNames(prediction.value.subjectBreakdown))
  {
    var fromCourses := JoinNames(ProfilePage.Names(profile.courses));
    if fromCourses != "" then fromCourses
    else if prediction.Some? && JoinNames(SubjectNames(prediction.value.subjectBreakdown)) != "" then
      JoinNames(SubjectNames(prediction.value.subjectBreakdown))
    else ""
  }

  /** With courses whose names are clean, the planner starts from exactly
      those course names. */
  lemma InitialSubjectsAreCourses(profile: UserProfile, prediction: Option<PredictionResult>)
    requires profile.courses != []
    requires forall i :: 0 <= i < |profile.courses| ==> CleanName(profile.courses[i].name)
    ensures Subjects(InitialSubjects(profile, prediction)) == ProfilePage.Names(profile.courses)
  {
    var names := ProfilePage.Names(profile.courses);
    assert CleanName(names[0]);
    JoinNonEmpty(names, ", ");
    SubjectsOfJoin(names);
  }

  /** `prediction?.weaknesses || []`. */
  function Weaknesses(prediction: Option<PredictionResult>): seq<string> {
    if prediction.Some? then prediction.value.weaknesses else []
  }

  /** The planner form; `weeklyHours` is None for `NaN`. */
  datatype PlannerForm = PlannerForm(subjects: string, examDates: string, weeklyHours: Option<int>)

  /** The `fullInput` handed to the model. */
  function Request(form: PlannerForm, profile: UserProfile, prediction: Option<PredictionResult>): (r: PlannerInput)
    ensures r.subjects == Subjects(form.subjects)
    ensures r.weaknesses == (if prediction.Some? then prediction.value.weaknesses else [])
    ensures r.learningStyle == profile.learningStyle && r.examDates == form.examDates && r.weeklyHours == form.weeklyHours
  {
    PlannerInput(Subjects(form.subjects), form.examDates, form.weeklyHours, Weaknesses(prediction), profile.learningStyle)
  }

  const Weekdays: seq<string> := ["Monday", "Tuesday", "Wednesday", "Thursday", "Friday", "Saturday", "Sunday"]

  /** The place of a day name in the week, 7 for a name that is none. */
  function Position(d: string): (r: nat)
    ensures r <= 7
  {
    if d == "Monday" then 0
    else if d == "Tuesday" then 1
    else if d == "Wednesday" then 2
    else if d == "Thursday" then 3
    else if d == "Friday" then 4
    else if d == "Saturday" then 5
    else if d == "Sunday" then 6
    else 7
  }

  lemma PositionOfWeekday(k: nat)
    requires k < 7
    ensures Position(Weekdays[k]) == k
  {
  }

  lemma WeekdayAtPosition(d: string)
    requires Position(d) < 7
    ensures Weekdays[Position(d)] == d
  {
  }

  /** `studyPlan.filter(task => task.day === day)`. */
  function TasksOn(plan: seq<StudyTask>, day: string): (r: seq<StudyTask>)
    ensures forall t :: t in r <==> t in plan && t.day == day
    ensures |r| <= |plan|
  {
    if plan == [] then [] else OnDay(plan[0], day) + TasksOn(plan[1..], day)
  }

  function OnDay(t: StudyTask, day: string): (r: seq<StudyTask>)
    ensures forall u :: u in r <==> u == t && t.day == day
  {
    if t.day == day then [t] else []
  }

  /** A day's tasks keep their plan order. */
  lemma {:induction false} TasksOnAppend(a: seq<StudyTask>, b: seq<StudyTask>, day: string)
    ensures TasksOn(a + b, day) == TasksOn(a, day) + TasksOn(b, day)
  {
    if a == [] {
      assert a + b == b;
    } else {
      assert (a + b)[1..] == a[1..] + b;
      assert (a + b)[0] == a[0];
      TasksOnAppend(a[1..], b, day);
    }
  }

  datatype DayGroup = DayGroup(day: string, tasks: seq<StudyTask>)

  /** The agenda from weekday `k` on: one group per day that has tasks. */
  function AgendaFrom(plan: seq<StudyTask>, k: nat): (r: seq<DayGroup>)
    requires k <= 7
    ensures forall i :: 0 <= i < |r| ==>
      && k <= Position(r[i].day) < 7
      && r[i].tasks == TasksOn(plan, r[i].day) && r[i].tasks != []
    ensures forall i, j :: 0 <= i < j < |r| ==> Position(r[i].day) < Position(r[j].day)
    decreases 7 - k
  {
    if k == 7 then []
    else
      PositionOfWeekday(k);
      GroupOf(Weekdays[k], TasksOn(plan, Weekdays[k])) + AgendaFrom(plan, k + 1)
  }

  /** The group of one day, or none when it has no tasks. */
  function GroupOf(day: string, tasks: seq<StudyTask>): (r: seq<DayGroup>)
    ensures |r| <= 1 && (r != [] ==> r[0] == DayGroup(day, tasks) && tasks != [])
  {
    if tasks == [] then [] else [DayGroup(day, tasks)]
  }

  /** The agenda: Monday to Sunday in order, days without tasks omitted. */
  function Agenda(plan: seq<StudyTask>): seq<DayGroup> {
    AgendaFrom(plan, 0)
  }

  function Flatten(groups: seq<DayGroup>): seq<StudyTask> {
    if groups == [] then [] else groups[0].tasks + Flatten(groups[1..])
  }

  /** A task is on the agenda exactly when it is in the plan and its day is
      one of the seven weekday names; others are never shown. */
  lemma {:induction false} AgendaCoverage(plan: seq<StudyTask>, k: nat, t: StudyTask)
    requires k <= 7
    ensures t in Flatten(AgendaFrom(plan, k)) <==> t in plan && k <= Position(t.day) < 7
    decreases 7 - k
  {
    if k < 7 {
      var day := Weekdays[k];
      var tasks := TasksOn(plan, day);
      var rest := AgendaFrom(plan, k + 1);
      assert AgendaFrom(plan, k) == GroupOf(day, tasks) + rest;
      FlattenHead(day, tasks, rest);
      AgendaCoverage(plan, k + 1, t);
      assert t in tasks <==> t in plan && Position(t.day) == k by {
        PositionOfWeekday(k);
        if Position(t.day) < 7 { WeekdayAtPosition(t.day); }
      }
    }
  }

  lemma FlattenHead(day: string, tasks: seq<StudyTask>, rest: seq<DayGroup>)
    ensures Flatten(GroupOf(day, tasks) + rest) == tasks + Flatten(rest)
  {
    if tasks != [] {
      assert ([DayGroup(day, tasks)] + rest)[1..] == rest;
    } else {
      assert [] + rest == rest;
    }
  }

  /** What the agenda panel shows. An empty plan is still a plan (an array
      is truthy), shown as an agenda without days. */
  datatype AgendaPanel = Loading | AgendaShown(groups: seq<DayGroup>) | Placeholder

  class StudyPlanner {
    var form: PlannerForm
    var isLoading: bool
    var error: Option<string>
    /** The plan slot the planner writes through `setStudyPlan`. */
    var studyPlan: Option<seq<StudyTask>>

    constructor(profile: UserProfile, prediction: Option<PredictionResult>, plan: Option<seq<StudyTask>>)
      ensures form == PlannerForm(InitialSubjects(profile, prediction), "", Some(15))
      ensures !isLoading && error == None && studyPlan == plan
    {
      form := PlannerForm(InitialSubjects(profile, prediction), "", Some(15));
      isLoading := false;
      error := None;
      studyPlan := plan;
    }

    function Panel(): (r: AgendaPanel)
      reads this
      ensures isLoading ==> r == Loading
      ensures !isLoading && studyPlan.Some? ==> r == AgendaShown(Agenda(studyPlan.value))
      ensures !isLoading && studyPlan.None? ==> r == Placeholder
    {
      if isLoading then Loading
      else if studyPlan.Some? then AgendaShown(Agenda(studyPlan.value))
      else Placeholder
    }

    method EditSubjects(text: string)
      modifies this
      ensures form == old(form).(subjects := text)
      ensures isLoading == old(isLoading) && error == old(error) && studyPlan == old(studyPlan)
    {
      form := form.(subjects := text);
    }

    method EditExamDates(text: string)
      modifies this
      ensures form == old(form).(examDates := text)
      ensures isLoading == old(isLoading) && error == old(error) && studyPlan == old(studyPlan)
    {
      form := form.(examDates := text);
    }

    /** The hours box, given `parseInt` of its text (None for `NaN`). */
    method EditWeeklyHours(parsed: Option<int>)
      modifies this
      ensures form == old(form).(weeklyHours := parsed)
      ensures isLoading == old(isLoading) && error == old(error) && studyPlan == old(studyPlan)
    {
      form := form.(weeklyHours := parsed);
    }

    /** The synchronous start of `handleGeneratePlan`: loading, no error, the
        old plan cleared, and the request built from the form. */
    method BeginGenerate(profile: UserProfile, prediction: Option<PredictionResult>) returns (request: PlannerInput)
      modifies this
      ensures isLoading && error == None && studyPlan == None && form == old(form)
      ensures request == Request(form, profile, prediction)
    {
      isLoading := true;
      error := None;
      studyPlan := None;
      request := Request(form, profile, prediction);
    }

    /** The rest of `handleGeneratePlan`, given the plan or None when the
        call failed. */
    method FinishGenerate(plan: Option<seq<StudyTask>>)
      modifies this
      ensures !isLoading && form == old(form)
      ensures plan.Some? ==> studyPlan == plan && error == old(error)
      ensures plan.None? ==> studyPlan == old(studyPlan) && error == Some(PlanError)
    {
      if plan.Some? {
        studyPlan := plan;
      } else {
        error := Some(PlanError);
      }
      isLoading := false;
    }
  }

  /** A failed generation leaves no plan, whatever was shown before, and
      shows the placeholder with the error. */
  method FailedGeneration(planner: StudyPlanner, profile: UserProfile, prediction: Option<PredictionResult>)
    modifies planner
    ensures planner.studyPlan == None && planner.error == Some(PlanError)
    ensures planner.Panel() == Placeholder
  {
    var _ := planner.BeginGenerate(profile, prediction);
    planner.FinishGenerate(None);
  }
}
