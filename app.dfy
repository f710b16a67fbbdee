/** The application shell of App.tsx: the profile, history, layout and
    study-session slots, updated step by step by the event handlers. Each
    handler that awaits an AI call is split into the part that runs before
    the await (`Begin…`) and the part that runs once the call settles
    (`Finish…`), whose argument is the call's outcome (`None` when it
    throws). The browser's storage is three ghost slots, one per key
    ('userProfile', 'studentPerformanceHistory', 'dashboardLayout'), each
    overwritten on every write to its key. */
module AppShell {
  import opened Wrappers
  import opened Types
  import opened Constants
  import opened Gamification
  import opened Persistence

  /** The state slots of the App component that the model follows. */
  datatype AppState = AppState(
    profile: UserProfile,
    history: seq<HistoricalEntry>,
    prediction: Option<PredictionResult>,
    studentData: StudentData,
    isLoading: bool,
    error: Option<string>,
    layout: seq<DashboardComponentId>,
    goal: real,
    isSessionSetupOpen: bool,
    isSessionRunning: bool,
    session: Option<SessionState>,
    isGeneratingQuiz: bool)

  const DefaultProfile: UserProfile := UserProfile("Student", "Undeclared", 0, [], [], "visual", 0, 0.0)

  const InitialState: AppState :=
    AppState(DefaultProfile, [], None, InitialStudentData, false, None, DashboardComponentIds, 90.0,
             false, false, None, false)

  const PredictionError: string := "Failed to get prediction. Please try again later."
  const SessionError: string := "Could not prepare the study session. Please try again."

  /** What the browser's storage holds under the three keys. */
  datatype StoredSlots = StoredSlots(profile: Option<UserProfile>, history: Option<seq<HistoricalEntry>>, layout: Option<Json>)

  /** What the App component renders. */
  datatype Screen =
    | StudySessionView
    | LoadingView(generatingQuiz: bool)
    | QuizView(quiz: seq<QuizQuestion>)
    | ErrorView(message: string)
    | DashboardView

  /** The running session first, then `renderContent`: loading or quiz
      generation, then the quiz, then a (non-empty, hence truthy) error,
      then the dashboard. */
  function ScreenOf(s: AppState): (v: Screen)
    ensures v.StudySessionView? <==> s.isSessionRunning && s.session.Some?
    ensures v.LoadingView? <==> !v.StudySessionView? && (s.isLoading || s.isGeneratingQuiz)
    ensures v.LoadingView? ==> v.generatingQuiz == s.isGeneratingQuiz
    ensures v.QuizView? <==> !v.StudySessionView? && !v.LoadingView? && s.session.Some? && s.session.value.quiz.Some?
    ensures v.QuizView? ==> v.quiz == s.session.value.quiz.value
    ensures v.ErrorView? <==> !v.StudySessionView? && !v.LoadingView? && !v.QuizView? && s.error.Some? && s.error.value != []
    ensures v.ErrorView? ==> v.message == s.error.value
  {
    if s.isSessionRunning && s.session.Some? then StudySessionView
    else if s.isLoading || s.isGeneratingQuiz then LoadingView(s.isGeneratingQuiz)
    else if s.session.Some? && s.session.value.quiz.Some? then QuizView(s.session.value.quiz.value)
    else if s.error.Some? && s.error.value != [] then ErrorView(s.error.value)
    else DashboardView
  }

  /** The state after the mount effect has read the three keys. A history
      or profile entry that does not parse throws, and nothing after it in
      the `try` block takes effect; a layout is taken only when it passes
      the membership check. */
  function Loaded(s: AppState, savedHistory: Read<seq<HistoricalEntry>>, savedProfile: Read<UserProfile>,
                  savedLayout: Read<Json>): AppState
  {
    if savedHistory.Unparsable? then s
    else
      var s1 := if savedHistory.Parsed? then s.(history := savedHistory.value) else s;
      if savedProfile.Unparsable? then s1
      else
        var s2 := if savedProfile.Parsed? then s1.(profile := savedProfile.value) else s1;
        if savedLayout.Parsed? && AcceptedLayout(savedLayout.value).Some? then
          s2.(layout := AcceptedLayout(savedLayout.value).value)
        else s2
  }

  /** Loading changes only history, profile and layout. */
  lemma LoadedFrame(s: AppState, savedHistory: Read<seq<HistoricalEntry>>, savedProfile: Read<UserProfile>,
                    savedLayout: Read<Json>)
    ensures var r := Loaded(s, savedHistory, savedProfile, savedLayout);
      r == s.(history := r.history, profile := r.profile, layout := r.layout)
  {
    if !savedHistory.Unparsable? && !savedProfile.Unparsable? {
      var s1 := if savedHistory.Parsed? then s.(history := savedHistory.value) else s;
      var s2 := if savedProfile.Parsed? then s1.(profile := savedProfile.value) else s1;
      assert s2 == s.(history := s2.history, profile := s2.profile);
    }
  }

  /** The layout becomes the stored one exactly when the earlier reads did
      not throw and the stored value passes the check, and otherwise stays
      as it was. */
  lemma LoadedLayout(s: AppState, savedHistory: Read<seq<HistoricalEntry>>, savedProfile: Read<UserProfile>,
                     savedLayout: Read<Json>)
    ensures var r := Loaded(s, savedHistory, savedProfile, savedLayout);
      && (r.layout != s.layout ==> !savedHistory.Unparsable? && !savedProfile.Unparsable? && savedLayout.Parsed?)
      && (!savedHistory.Unparsable? && !savedProfile.Unparsable? && savedLayout.Parsed? ==>
            r.layout == AcceptedLayout(savedLayout.value).GetOr(s.layout))
  {
  }

  /** A layout written by `handleSetDashboardLayout` is restored by the next
      load. */
  lemma LoadRestoresLayout(s: AppState, savedHistory: Read<seq<HistoricalEntry>>, savedProfile: Read<UserProfile>,
                           layout: seq<DashboardComponentId>)
    requires !savedHistory.Unparsable? && !savedProfile.Unparsable?
    ensures Loaded(s, savedHistory, savedProfile, Parsed(LayoutJson(layout))).layout == layout
  {
    LayoutRoundTrip(layout);
  }

  class App {
    var profile: UserProfile
    var history: seq<HistoricalEntry>
    var prediction: Option<PredictionResult>
    var studentData: StudentData
    var isLoading: bool
    var error: Option<string>
    var layout: seq<DashboardComponentId>
    var goal: real
    var isSessionSetupOpen: bool
    var isSessionRunning: bool
    var session: Option<SessionState>
    var isGeneratingQuiz: bool
    /** The browser's storage under 'userProfile',
        'studentPerformanceHistory' and 'dashboardLayout'. */
    ghost var storedProfile: Option<UserProfile>
    ghost var storedHistory: Option<seq<HistoricalEntry>>
    ghost var storedLayout: Option<Json>

    ghost function Stored(): StoredSlots
      reads this
    {
      StoredSlots(storedProfile, storedHistory, storedLayout)
    }

    /** The stored profile is the current one. */
    ghost predicate ProfileSaved()
      reads this
    {
      storedProfile == Some(profile)
    }

    function State(): AppState
      reads this
    {
      AppState(profile, history, prediction, studentData, isLoading, error, layout, goal,
               isSessionSetupOpen, isSessionRunning, session, isGeneratingQuiz)
    }

    function CurrentScreen(): Screen
      reads this
    {
      ScreenOf(State())
    }

    /** The initial state slots, with storage as a previous visit left it. */
    constructor(ghost savedProfile: Option<UserProfile>, ghost savedHistory: Option<seq<HistoricalEntry>>,
                ghost savedLayout: Option<Json>)
      ensures State() == InitialState
      ensures storedProfile == savedProfile && storedHistory == savedHistory && storedLayout == savedLayout
    {
      profile := DefaultProfile;
      history := [];
      prediction := None;
      studentData := InitialStudentData;
      isLoading := false;
      error := None;
      layout := DashboardComponentIds;
      goal := 90.0;
      isSessionSetupOpen := false;
      isSessionRunning := false;
      session := None;
      isGeneratingQuiz := false;
      storedProfile := savedProfile;
      storedHistory := savedHistory;
      storedLayout := savedLayout;
    }

    /** The mount effect, given what the three reads returned. */
    method Load(savedHistory: Read<seq<HistoricalEntry>>, savedProfile: Read<UserProfile>, savedLayout: Read<Json>)
      modifies this
      ensures State() == Loaded(old(State()), savedHistory, savedProfile, savedLayout)
      ensures Stored() == old(Stored())
    {
      if savedHistory.Unparsable? { return; }
      if savedHistory.Parsed? { history := savedHistory.value; }
      if savedProfile.Unparsable? { return; }
      if savedProfile.Parsed? { profile := savedProfile.value; }
      if savedLayout.Parsed? {
        var accepted := AcceptedLayout(savedLayout.value);
        if accepted.Some? { layout := accepted.value; }
      }
    }

    /** `addPoints(n, _)`: only the points change, and the profile is stored. */
    method AddPoints(n: int)
      modifies this
      ensures State() == old(State()).(profile := Awarded(old(profile), n))
      ensures profile.points == old(profile.points) + n
      ensures Stored() == old(Stored()).(profile := Some(profile))
    {
      profile := profile.(points := profile.points + n);
      storedProfile := Some(profile);
    }

    /** `unlockAchievement(id)`: a no-op for an unlocked or unknown id;
        otherwise the id is appended, 25 points are awarded and the profile
        is stored. */
    method UnlockAchievement(id: string)
      modifies this
      ensures State() == old(State()).(profile := Unlocked(old(profile), id))
      ensures Stored() == if id in old(profile.unlockedAchievements) || FindAchievement(id).None? then old(Stored())
                        else old(Stored()).(profile := Some(profile))
      ensures old(ProfileSaved()) ==> ProfileSaved()
    {
      if id in profile.unlockedAchievements {
        return;
      }
      var achievement := FindAchievement(id);
      if achievement.Some? {
        profile := profile.(unlockedAchievements := profile.unlockedAchievements + [id]);
        storedProfile := Some(profile);
        AddPoints(UnlockAchievementPoints);
      }
    }

    /** `handlePredict` up to its await. */
    method BeginPredict()
      modifies this
      ensures State() == old(State()).(isLoading := true, error := None, prediction := None)
      ensures Stored() == old(Stored())
    {
      isLoading := true;
      error := None;
      prediction := None;
    }

    /** `handlePredict` once `getPerformancePrediction` settles: on success
        the prediction is shown and rewarded (Gamification.AfterPrediction),
        on failure the error is set; loading ends either way. */
    method FinishPredict(result: Option<PredictionResult>)
      modifies this
      ensures result.None? ==>
        State() == old(State()).(error := Some(PredictionError), isLoading := false) && Stored() == old(Stored())
      ensures result.Some? ==>
        State() == old(State()).(prediction := result, isLoading := false,
                                 profile := AfterPrediction(old(profile), result.value.predictedScore))
        && Stored() == old(Stored()).(profile := Some(profile))
    {
      if result.None? {
        error := Some(PredictionError);
        isLoading := false;
        return;
      }
      prediction := result;
      RewardPrediction(result.value.predictedScore);
      isLoading := false;
    }

    /** The rewards `handlePredict` hands out for a predicted `score`. */
    method RewardPrediction(score: real)
      modifies this
      ensures State() == old(State()).(profile := AfterPrediction(old(profile), score))
      ensures Stored() == old(Stored()).(profile := Some(profile))
    {
      // the personal best from before the rewards; nothing changes it while
      // the prediction is awaited, so this is the best the click saw
      var best := profile.personalBest;
      AddPoints(RunPredictionPoints);
      UnlockAchievement("firstPrediction");
      if score > best {
        profile := profile.(personalBest := score);
        storedProfile := Some(profile);
      }
      UnlockWhen(score >= 90.0, "highAchiever");
      UnlockWhen(score >= 95.0, "perfectScore");
    }

    /** `if (cond) unlockAchievement(id)`, with the profile already stored. */
    method UnlockWhen(cond: bool, id: string)
      requires ProfileSaved()
      modifies this
      ensures State() == old(State()).(profile := UnlockedIf(old(profile), cond, id))
      ensures Stored() == old(Stored()).(profile := Some(profile))
      ensures ProfileSaved()
    {
      if cond {
        UnlockAchievement(id);
      }
    }

    /** `handleLogData`, with `date` the current ISO time: nothing without a
        prediction; otherwise one entry is appended, the history and the
        rewarded profile (Gamification.AfterLog) are stored. */
    method LogData(date: string)
      modifies this
      ensures old(prediction).None? ==> State() == old(State()) && Stored() == old(Stored())
      ensures old(prediction).Some? ==>
        State() == old(State()).(
          history := old(history) + [HistoricalEntry(date, old(studentData), old(prediction).value)],
          profile := AfterLog(old(profile), |old(history)| + 1))
        && Stored() == old(Stored()).(history := Some(history), profile := Some(profile))
    {
      if prediction.None? {
        return;
      }
      var entry := HistoricalEntry(date, studentData, prediction.value);
      var updated := history + [entry];
      history := updated;
      storedHistory := Some(updated);
      AddPoints(LogDataPoints);
      if |updated| >= 5 {
        UnlockAchievement("historian");
      }
    }

    /** `handleProfileSave`. */
    method ProfileSave(newProfile: UserProfile)
      modifies this
      ensures State() == old(State()).(profile := newProfile)
      ensures Stored() == old(Stored()).(profile := Some(newProfile))
    {
      profile := newProfile;
      storedProfile := Some(newProfile);
    }

    /** `handleSetDashboardLayout`. */
    method SetDashboardLayout(newLayout: seq<DashboardComponentId>)
      modifies this
      ensures State() == old(State()).(layout := newLayout)
      ensures Stored() == old(Stored()).(layout := Some(LayoutJson(newLayout)))
    {
      layout := newLayout;
      storedLayout := Some(LayoutJson(newLayout));
    }

    /** `setGoal`, the setter of the goal slot. App.tsx declares it but hands
        it to no component, so nothing in the shell calls it. */
    method SetGoal(newGoal: real)
      modifies this
      ensures State() == old(State()).(goal := newGoal) && Stored() == old(Stored())
    {
      goal := newGoal;
    }

    /** The dashboard's `onStartSession`: open the setup form. */
    method OpenSessionSetup()
      modifies this
      ensures State() == old(State()).(isSessionSetupOpen := true) && Stored() == old(Stored())
    {
      isSessionSetupOpen := true;
    }

    /** `handleStartSession` up to its await. */
    method BeginStartSession()
      modifies this
      ensures State() == old(State()).(isSessionSetupOpen := false, isLoading := true) && Stored() == old(Stored())
    {
      isSessionSetupOpen := false;
      isLoading := true;
    }

    /** `handleStartSession` once `getLiveStudyResources` settles, `now`
        being `Date.now()`: on success a session begins with setup,
        resources and start time only, and runs; on failure the error is set
        and the running flag is not touched. */
    method FinishStartSession(setup: StudySessionSetup, now: int, resources: Option<seq<SessionResource>>)
      modifies this
      ensures resources.Some? ==>
        State() == old(State()).(session := Some(SessionState(setup, resources.value, now, None, None)),
                                 isSessionRunning := true, isLoading := false)
      ensures resources.None? ==>
        State() == old(State()).(error := Some(SessionError), isLoading := false)
      ensures Stored() == old(Stored())
    {
      if resources.Some? {
        session := Some(SessionState(setup, resources.value, now, None, None));
        isSessionRunning := true;
      } else {
        error := Some(SessionError);
      }
      isLoading := false;
    }

    /** `handleEndSession` up to its await; `pending` is false when there is
        no session, in which case nothing changes. */
    method BeginEndSession() returns (pending: bool)
      modifies this
      ensures pending <==> old(session).Some?
      ensures !pending ==> State() == old(State())
      ensures pending ==> State() == old(State()).(isSessionRunning := false, isGeneratingQuiz := true)
      ensures Stored() == old(Stored())
    {
      if session.None? {
        return false;
      }
      isSessionRunning := false;
      isGeneratingQuiz := true;
      return true;
    }

    /** `handleEndSession` once `generateSessionQuiz` settles: the quiz is
        attached to the session, or a failure completes the session with a
        bonus of 0; quiz generation ends either way. */
    method FinishEndSession(quiz: Option<seq<QuizQuestion>>)
      modifies this
      ensures quiz.Some? ==>
        State() == old(State()).(isGeneratingQuiz := false,
          session := if old(session).Some? then Some(old(session).value.(quiz := quiz)) else None)
        && Stored() == old(Stored())
      ensures quiz.None? ==>
        State() == old(State()).(isGeneratingQuiz := false, session := None, profile := AfterQuiz(old(profile), 0))
        && Stored() == old(Stored()).(profile := Some(profile))
    {
      if quiz.Some? {
        if session.Some? {
          session := Some(session.value.(quiz := quiz));
        }
      } else {
        QuizComplete(0);
      }
      isGeneratingQuiz := false;
    }

    /** `handleQuizComplete(bonus)`: the session ends and is rewarded
        (Gamification.AfterQuiz). */
    method QuizComplete(bonus: int)
      modifies this
      ensures State() == old(State()).(session := None, profile := AfterQuiz(old(profile), bonus))
      ensures Stored() == old(Stored()).(profile := Some(profile))
    {
      if bonus > 0 {
        AddPoints(bonus);
      }
      session := None;
      AddPoints(CompleteStudySessionPoints);
      UnlockAchievement("sessionMaster");
    }
  }

  /** A full session round: starting with resources runs the session; ending
      it with a quiz shows the quiz; completing the quiz returns to a screen
      without a session and pays the completion reward. */
  method SessionRound(app: App, setup: StudySessionSetup, now: int, resources: seq<SessionResource>,
                      quiz: seq<QuizQuestion>, bonus: int)
    requires !app.isLoading && !app.isGeneratingQuiz
    modifies app
    ensures app.session.None? && !app.isSessionRunning
    ensures app.profile == AfterQuiz(old(app.profile), bonus)
    ensures app.history == old(app.history) && app.layout == old(app.layout)
  {
    app.BeginStartSession();
    app.FinishStartSession(setup, now, Some(resources));
    assert app.CurrentScreen() == StudySessionView;
    var pending := app.BeginEndSession();
    assert pending;
    assert app.CurrentScreen() == LoadingView(true);
    app.FinishEndSession(Some(quiz));
    assert app.CurrentScreen() == QuizView(quiz);
    app.QuizComplete(bonus);
  }
}
