# Learnlytics in Dafny

Learnlytics is a single-page React application for students. The user sets ten
performance sliders and asks a hosted generative-AI model for a predicted score.
The application rewards use with study points, achievements and badges, keeps a
history of logged predictions, and lets the user rearrange the dashboard widgets.
It also runs guided study sessions (a countdown, a chat, flashcards and a closing
quiz), Pomodoro focus timers and AI study plans.

Every prediction, report, quiz and plan comes from the AI service. What is left
on the application's side is a set of small event handlers. This project models
those handlers and proves what they promise:

- the points and achievement rules of the application shell;
- the study-session lifecycle;
- the dashboard layout: its drag reorder and the check on the stored copy;
- the Pomodoro tick machine;
- the string and clock-time utilities behind the explain tags, focus mode and
  the study planner;
- the small form and list operations of the profile, settings, goal, set-up,
  chat, history, badge and subject components.

Modelling conventions:

- **AI calls.** Each awaited call is an argument of type `Option<T>`; `None`
  means the call threw. An async handler is split in two. `Begin…` is the part
  before the `await`. `Finish…` is the part after it and takes the call's
  outcome. The loading flags between the two halves can therefore be observed.
- **Browser storage.** The application shell (`AppShell.App`) holds three ghost
  slots, one per storage key. Each slot is overwritten on every write to its
  key. Reading at load time is a parameter of type `Read<T>`: missing,
  unparsable or parsed.
- **Timers.** A timer tick is an explicit method call (`Tick`).
- **Clock and ids.** The weekday name, the minute of the day, `Date.now()` and
  the ids derived from it are parameters.
- **Components with state.** A component whose state the handlers update is a
  `class` with that state as fields. Pure computations are functions, and the
  lemmas about them state what the source promises.
- **Quiz guard.** The quiz keeps the source's truthiness guard as written: an
  empty-string correct answer does not lock its question
  (`Quiz.EmptyAnswerScoresTwice`).

The load-time check on the stored dashboard layout (App.tsx:93-99) tests
membership only, so a stored layout need not be a permutation of the six
widget ids: duplicates, missing ids and the empty array are accepted
(`Persistence.AcceptedLayout`, `Persistence.LayoutCheckExamples`).

Modules, one per source file:

| module | source |
|---|---|
| `Wrappers`, `Seqs`, `Text` | option type; sequence helpers and `splice`; JavaScript `trim`, `indexOf`, `split`, `join` |
| `Types` | types.ts |
| `Constants` | constants.ts |
| `Gamification`, `Persistence`, `AppShell` | App.tsx |
| `Bands` | the five score bands shared by PredictionDashboard.tsx and SubjectBreakdown.tsx |
| `Dashboard` | components/PredictionDashboard.tsx |
| `Quiz` | components/SessionQuiz.tsx |
| `Session` | components/StudySession.tsx |
| `Pomodoro` | components/PomodoroTimer.tsx |
| `FocusMode` | components/FocusMode.tsx |
| `ProfilePage` | components/Profile.tsx |
| `SettingsPage` | components/Settings.tsx |
| `GoalSetting` | components/GoalSetter.tsx |
| `SessionSetupForm` | components/StudySessionSetup.tsx |
| `StudyPlanning` | components/StudyPlanner.tsx |
| `HistoricalTrends` | components/HistoricalTrends.tsx |
| `BadgeGrid` | components/Badges.tsx |
| `SubjectBars` | components/SubjectBreakdown.tsx |
| `ChatWindow` | components/Chatbot.tsx |

## Model

| member | source | states |
|---|---|---|
| Types.ComponentName | types.ts:135-141 | the literal of each widget id; `ComponentNamed` is its inverse and `ComponentNameRoundTrip` proves the round trip |
| Types.ComponentNamed | types.ts:135-141 | a string names a widget exactly when it is one of the six literals, and then it names the widget with that literal |
| Types.DashboardIdsArePermutation | types.ts:143-150 | the default layout has six entries, no duplicates, and contains every widget id |
| Types.ComponentNameRoundTrip | types.ts:135-150 | every widget id is named by its own literal |
| Constants.FindIn | App.tsx:64 | `find` by id returns a catalogue entry with that id, and nothing exactly when no entry has it |
| Constants.AchievementCatalogue | constants.ts:52-83 | the achievement ids are exactly firstPrediction, highAchiever, perfectScore, historian and sessionMaster, all distinct |
| Constants.FindAchievementIds | constants.ts:52-83 | an achievement lookup succeeds exactly on the catalogue ids |
| Constants.UnknownAchievements | constants.ts:52-83 | 'focused' and 'quickLearner' are not in the catalogue |
| Constants.BadgeThresholds | constants.ts:85-114 | badge thresholds are positive and strictly increasing |
| Constants.ParametersWellFormed | constants.ts:17-28 | every slider has min < max and a positive step; the slider ids are distinct and cover every StudentData field |
| Constants.InitialDataInRange | constants.ts:4-28 | every initial value lies in its slider's [min, max] |
| Gamification.Awarded | App.tsx:50-55 | the `addPoints` updater; `AppShell.App.AddPoints` states it changes only the points, by exactly n |
| Gamification.Unlocked | App.tsx:60-73 | the `unlockAchievement` updater; its contract is `UnlockRewardsOnce`, `UnlockFresh`, `UnlockKeepsDistinct` and `UnlockIdempotent` |
| Gamification.UnlockRewardsOnce | App.tsx:60-73 | an id ends up unlocked iff it was unlocked already or is in the catalogue; no other id changes; at most one id is added, and it is paid 25 points; nothing else in the profile changes |
| Gamification.UnlockFresh | App.tsx:64-68 | a catalogue id not yet unlocked is appended at the end and earns 25 points |
| Gamification.UnlockKeepsDistinct | App.tsx:62-66 | unlocking keeps the unlocked list free of repeats, and a catalogue id then occurs exactly once |
| Gamification.UnlockIdempotent | App.tsx:62 | unlocking the same id twice is the same as unlocking it once |
| Gamification.UnlockRepeated | App.tsx:62-68 | any number (at least one) of unlocks of one id pays out once |
| Gamification.UnlockedIf | App.tsx:128-129 | a conditional unlock; `UnlockStep` gives what it adds and pays |
| Gamification.WithBest | App.tsx:121-127 | the personal-best update; `PredictionRewards` states the new best is max(old, score) |
| Gamification.AfterPrediction | App.tsx:119-129 | the rewards of a prediction; stated by `PredictionRewards`, `PredictionKeepsDistinct` and `PredictionOf96` |
| Gamification.PredictionRewards | App.tsx:119-129 | after a prediction: personal best is max(old, score); firstPrediction is unlocked; highAchiever iff already unlocked or score >= 90; perfectScore iff already unlocked or score >= 95; points grow by 10 plus 25 per new unlock |
| Gamification.PredictionKeepsDistinct | App.tsx:119-129 | a prediction keeps the unlocked list free of repeats |
| Gamification.PredictionOf96 | App.tsx:119-129 | a first prediction of 96 unlocks the three prediction achievements in order and pays 85 points |
| Gamification.AfterLog | App.tsx:157-158 | the rewards of logging; stated by `LogRewards` |
| Gamification.LogRewards | App.tsx:157-158 | logging pays 5 points; historian is unlocked iff already unlocked or the history has at least 5 entries |
| Gamification.AfterQuiz | App.tsx:205-212 | the rewards of quiz completion; stated by `QuizRewards` |
| Gamification.QuizRewards | App.tsx:205-212 | completion pays the bonus when it is positive, plus 50, plus 25 if sessionMaster is new; sessionMaster is unlocked afterwards |
| Persistence.LayoutJson | App.tsx:169 | the stored layout is an array of the widget literals, in layout order |
| Persistence.AcceptedLayout | App.tsx:94-98 | a stored value is accepted iff it is an array whose every element is a widget literal, and then its re-encoding is that value |
| Persistence.LayoutRoundTrip | App.tsx:93-99 | every layout the application stores is read back unchanged, permutation or not |
| Persistence.LayoutCheckExamples | App.tsx:96 | duplicates and the empty array pass the check; a non-array and an unknown id do not |
| AppShell.ScreenOf | App.tsx:229-283 | view priority: running session, then loading or quiz generation, then quiz, then a non-empty error, then the dashboard |
| AppShell.Loaded | App.tsx:83-100 | the state after the mount effect; stated by `LoadedFrame`, `LoadedLayout` and `LoadRestoresLayout` |
| AppShell.LoadedFrame | App.tsx:83-100 | loading changes only history, profile and layout |
| AppShell.LoadedLayout | App.tsx:93-99 | the layout changes only if the earlier reads did not throw and a layout was stored; then it becomes the accepted stored layout, or stays if the check fails |
| AppShell.LoadRestoresLayout | App.tsx:93-99 | a layout written by the layout handler is restored by the next load |
| AppShell.App.constructor | App.tsx:20-41 | the initial slots: default profile, empty history, default layout, goal 90, no session |
| AppShell.App.Load | App.tsx:83-100 | the mount effect yields the loaded state and writes nothing to storage |
| AppShell.App.AddPoints | App.tsx:50-55 | only the points change, by exactly n, and the profile is stored |
| AppShell.App.UnlockAchievement | App.tsx:60-73 | the profile becomes the unlock of the id; storage is written only when the id was new and in the catalogue |
| AppShell.App.BeginPredict | App.tsx:112-115 | loading on, error and prediction cleared |
| AppShell.App.FinishPredict | App.tsx:116-134 | success shows and rewards the prediction; failure sets the error; loading ends both ways |
| AppShell.App.RewardPrediction | App.tsx:119-129 | the profile becomes `AfterPrediction` of the score, and the new profile is stored |
| AppShell.App.UnlockWhen | App.tsx:128-129 | a conditional unlock, keeping the stored profile current |
| AppShell.App.LogData | App.tsx:151-159 | without a prediction nothing changes; otherwise exactly one entry is appended at the end, and history and rewarded profile are stored |
| AppShell.App.ProfileSave | App.tsx:161-165 | the profile is replaced and stored |
| AppShell.App.SetDashboardLayout | App.tsx:167-170 | the layout is replaced and stored |
| AppShell.App.SetGoal | App.tsx:36 | only the goal changes |
| AppShell.App.OpenSessionSetup | App.tsx:265 | only the set-up flag is raised |
| AppShell.App.BeginStartSession | App.tsx:172-174 | set-up closed, loading on |
| AppShell.App.FinishStartSession | App.tsx:175-187 | success starts a running session of setup, resources and start time alone; failure sets the error and never enters the running state |
| AppShell.App.BeginEndSession | App.tsx:190-193 | without a session nothing changes; otherwise running off, quiz generation on |
| AppShell.App.FinishEndSession | App.tsx:194-202 | a generated quiz is attached to the session; a failure behaves as completion with bonus 0 |
| AppShell.App.QuizComplete | App.tsx:205-212 | the session is cleared and the profile becomes `AfterQuiz` of the bonus |
| AppShell.SessionRound | App.tsx:172-212 | starting, ending and completing a session leaves no session and nothing running, rewards the profile by `AfterQuiz` of the bonus, and keeps history and layout |
| Seqs.RemoveAt | components/PredictionDashboard.tsx:45 | `splice(i, 1)` drops exactly the element at i: earlier elements keep their index, later ones move down by one, and the multiset loses just that element |
| Seqs.InsertAt | components/PredictionDashboard.tsx:46 | `splice(j, 0, x)` puts x at index j, with the elements before j unchanged and the rest following it in order |
| Dashboard.Moved | components/PredictionDashboard.tsx:44-46 | the two splices of the drag; stated by `MovedIsPermutation`, `MovedPlacesItem` and `MovedInPlace` |
| Dashboard.MovedIsPermutation | components/PredictionDashboard.tsx:44-46 | a move keeps the length and the multiset of the layout |
| Dashboard.MovedPlacesItem | components/PredictionDashboard.tsx:45-46 | the dragged widget lands at index j, and the others keep their relative order |
| Dashboard.MovedInPlace | components/PredictionDashboard.tsx:44-46 | a move from i to i leaves the layout unchanged |
| Dashboard.DragState.constructor | components/PredictionDashboard.tsx:33-34 | both drag references start unset |
| Dashboard.DragState.DragStart | components/PredictionDashboard.tsx:191 | sets the dragged index only |
| Dashboard.DragState.DragEnter | components/PredictionDashboard.tsx:192 | sets the target index only |
| Dashboard.DragState.DragSort | components/PredictionDashboard.tsx:41-52 | with a reference unset, no layout is produced and nothing changes; otherwise the layout is the move from i to j and both references are reset |
| Dashboard.LevelColor | components/PredictionDashboard.tsx:82-89 | the score colour; stated by `LevelColorClassifies` |
| Dashboard.LevelColorClassifies | components/PredictionDashboard.tsx:82-89 | two scores share a colour iff they share a band; green iff >= 90, red iff < 60 |
| Dashboard.GridSpan | components/PredictionDashboard.tsx:159-173 | radar spans 1 column, strengthsWeaknesses 2, every other widget 3 |
| Bands.Band | components/SubjectBreakdown.tsx:10-16 | each score falls in exactly one of five bands, with inclusive lower bounds 90, 80, 70 and 60 |
| Bands.BandMonotone | components/SubjectBreakdown.tsx:10-16 | a higher score never gets a worse band |
| Bands.BandBoundaries | components/SubjectBreakdown.tsx:11-14 | 90 is in the top band and 89.99 is not; 60 is in band 3 and 59.99 is not |
| Quiz.CorrectCount | components/SessionQuiz.tsx:23-27 | the score of a play-through; stated by `CorrectCountBounds`, and `PlayThrough` ties the quiz to it |
| Quiz.CorrectCountBounds | components/SessionQuiz.tsx:23-27 | at most one point per question; full marks iff every answer equals its correct answer |
| Quiz.SessionQuiz.constructor | components/SessionQuiz.tsx:11-14 | index 0, no selection, no verdict, score 0 |
| Quiz.SessionQuiz.AnswerSelect | components/SessionQuiz.tsx:19-28 | ignored once a truthy answer is selected; otherwise the option is selected and judged by exact match, and the score rises by exactly 1 iff it is correct; the score never exceeds the selections taken |
| Quiz.SessionQuiz.NextQuestion | components/SessionQuiz.tsx:30-34 | offered only after a selection; clears selection and verdict and advances the index by exactly 1 |
| Quiz.SessionQuiz.Finish | components/SessionQuiz.tsx:36-39 | the bonus is 5 times the score |
| Quiz.PlayThrough | components/SessionQuiz.tsx:17-39 | answering every question with a non-empty option and finishing pays 5 per correct answer, at most 5 per question |
| Quiz.EmptyAnswerScoresTwice | components/SessionQuiz.tsx:20 | an empty-string correct answer does not lock the question; selecting it twice scores 2 on one question |
| Pomodoro.PomodoroTimer.constructor | components/PomodoroTimer.tsx:4-8 | 25:00, inactive, work phase, count 0 |
| Pomodoro.PomodoroTimer.Remaining | components/PomodoroTimer.tsx:53 | the remaining seconds; the timer's invariant keeps it within `Total`, and `Tick` lowers it by one |
| Pomodoro.PomodoroTimer.Total | components/PomodoroTimer.tsx:52 | the seconds of the current phase, 1500 or 300; bounds `Remaining` in the invariant |
| Pomodoro.PomodoroTimer.Tick | components/PomodoroTimer.tsx:13-34 | while time is left a tick removes exactly one second (seconds first, else a minute and 59 seconds); at 0:00 work switches to a 5:00 break, counts the session and reports it once; at 0:00 a break switches back to 25:00 work; seconds stay in 0..59 and the remaining time within the phase total |
| Pomodoro.PomodoroTimer.Toggle | components/PomodoroTimer.tsx:41 | flips the active flag and nothing else |
| Pomodoro.PomodoroTimer.Reset | components/PomodoroTimer.tsx:43-48 | inactive 25:00 work phase, session count kept |
| Pomodoro.FirstCompletion | components/PomodoroTimer.tsx:13-34 | from scratch the first completed work phase is reported on tick 1501 |
| Session.Clock | components/StudySession.tsx:30-31 | for t >= 0, minutes·60 + seconds = t and seconds < 60 |
| Session.TagAt | components/StudySession.tsx:64 | one match of the explain pattern at a position: the closing ']' lies after a non-empty name; the rest is `TagAtSpec` |
| Session.SplitFrom | components/StudySession.tsx:65 | `split` with the capturing pattern; stated by `SplitFromCount`, `SplitFromRejoin` and `SplitFromNames` |
| Session.TagAtSpec | components/StudySession.tsx:64 | a tag match opens with `[explain:` and closes at the first ']' after the opening |
| Session.SplitFromCount | components/StudySession.tsx:65 | the split of a text with k tags has 2k + 1 parts |
| Session.SplitFromRejoin | components/StudySession.tsx:65 | wrapping the names back in tags gives the text again |
| Session.SplitFromNames | components/StudySession.tsx:65 | odd-index parts are non-empty names without ']' |
| Session.ExplainParts | components/StudySession.tsx:63-65 | the parts of a resource's content; stated by `ExplainRoundTrip` |
| Session.Rejoin | components/StudySession.tsx:65 | the parts put back with their tags, the inverse `SplitFromRejoin` and `ExplainRoundTrip` use |
| Session.ExplainRoundTrip | components/StudySession.tsx:63-68 | 2k + 1 parts, names at odd indices, and the rejoined parts are the original content |
| Session.StudySession.constructor | components/StudySession.tsx:17-54 | the countdown starts at duration·60; chat, flashcards and flip state start empty |
| Session.StudySession.Tick | components/StudySession.tsx:21-28 | a tick runs only while time is left and subtracts exactly 1; it reports when time is up and nothing else changes |
| Session.StudySession.EditInput | components/StudySession.tsx:135 | only the chat input changes |
| Session.StudySession.SendMessage | components/StudySession.tsx:37-42 | blank input is ignored; otherwise one user message with the input as typed is appended, the input is cleared and the bot is typing |
| Session.StudySession.BotReplied | components/StudySession.tsx:45-49 | the reply is appended and typing ends |
| Session.StudySession.BeginFlashcards | components/StudySession.tsx:56-57 | generation flag raised |
| Session.StudySession.FlashcardsArrived | components/StudySession.tsx:58-60 | success stores the cards and lowers the flag; a failure (no catch) leaves both |
| Session.StudySession.ClickCard | components/StudySession.tsx:148 | clicking the flipped card unflips it, and any other card becomes the single flipped card |
| Session.RunOut | components/StudySession.tsx:20-28 | a session of d minutes ends after exactly d·60 ticks |
| Session.FlipTwice | components/StudySession.tsx:148 | the same card clicked twice leaves none flipped; a second card leaves only it flipped |
| FocusMode.ToNumber | components/FocusMode.tsx:29 | `Number` on a clock-time piece; stated by `DigitsNumber` (see Left out) |
| FocusMode.DigitsNumber | components/FocusMode.tsx:29 | `Number` reads a non-empty digit string as its decimal value |
| FocusMode.Hour24 | components/FocusMode.tsx:30-31 | the AM/PM adjustment; stated by `ClockHours` |
| FocusMode.ClockHours | components/FocusMode.tsx:30-31 | 12 AM is hour 0, 12 PM is 12, other PM hours add 12, AM hours are kept; each period's twelve labels map one-to-one onto its half of the day |
| FocusMode.ParseTime | components/FocusMode.tsx:27-33 | `parseTime`; stated by `ClockTimeParses`, `NoPeriodKeepsHour` and `NoMinutesIsNaN` |
| FocusMode.ClockValue | components/FocusMode.tsx:29-32 | the minutes of an hours/minutes split; `DigitsClockValue` and `ClockValueOf` state it |
| FocusMode.Minutes | components/FocusMode.tsx:30-32 | the adjusted hours·60 + minutes, NaN when either number is NaN; used through `ClockValueOf` |
| FocusMode.ClockTimeParses | components/FocusMode.tsx:27-33 | "hh:mm AM/PM" parses to 24-hour hour·60 + minutes |
| FocusMode.NoPeriodKeepsHour | components/FocusMode.tsx:27-33 | "hh:mm" without a period parses to hour·60 + minutes |
| FocusMode.NoMinutesIsNaN | components/FocusMode.tsx:29-32 | a time without minutes is `NaN` |
| FocusMode.TaskTest | components/FocusMode.tsx:23-38 | the `find` predicate, which may throw; stated by `TaskTestRange` and `OtherDayNeverMatches` |
| FocusMode.TaskTestRange | components/FocusMode.tsx:23-38 | a task of today with range "a - b" matches iff start <= now < end |
| FocusMode.OtherDayNeverMatches | components/FocusMode.tsx:23 | a task of another day never matches |
| FocusMode.FirstMatch | components/FocusMode.tsx:22 | `find` yields the first match, or where the predicate threw, with every earlier test false |
| FocusMode.FirstHigh | components/FocusMode.tsx:41 | the first high-priority task, with no earlier one high |
| FocusMode.CurrentTask | components/FocusMode.tsx:15-42 | no plan or an empty plan gives null; a non-empty plan that does not throw gives one of its tasks |
| FocusMode.CurrentTaskMatches | components/FocusMode.tsx:22-39 | the first matching task in plan order is shown |
| FocusMode.CurrentTaskThrows | components/FocusMode.tsx:25-36 | a task of today without " - " before any match makes the lookup throw |
| FocusMode.CurrentTaskHigh | components/FocusMode.tsx:41 | with no match, the first high-priority task is shown |
| FocusMode.CurrentTaskFirst | components/FocusMode.tsx:41 | with no match and no high-priority task, the first task is shown |
| FocusMode.PomodoroReward | components/FocusMode.tsx:67-70 | a Pomodoro adds exactly 20 points; the 'focused' unlock changes nothing |
| ProfilePage.CourseAdded | components/Profile.tsx:13-19 | accepted iff the input is not blank and its trim is no existing course name; then exactly one course with the trimmed name is appended at the end |
| ProfilePage.WithoutId | components/Profile.tsx:22 | a course survives the filter iff it was there and its id differs |
| ProfilePage.WithoutIdAppend | components/Profile.tsx:22 | filtering keeps the order of the courses |
| ProfilePage.WithoutAbsentId | components/Profile.tsx:22 | removing an id no course has changes nothing |
| ProfilePage.CourseRemoved | components/Profile.tsx:21-23 | exactly the courses with that id go and only the course list changes |
| ProfilePage.RemoveKeepsNamesDistinct | components/Profile.tsx:22 | removal keeps course names distinct |
| ProfilePage.CoursesKeepNamesDistinct | components/Profile.tsx:14-22 | add and remove keep course names distinct |
| ProfilePage.AddThenRemove | components/Profile.tsx:13-23 | removing a course just added under a fresh id gives the profile back |
| ProfilePage.Edited | components/Profile.tsx:39-57 | the name, major and avatar edits; stated by `EditsAreIndependent` and `PickedAvatarShown` |
| ProfilePage.EditsAreIndependent | components/Profile.tsx:13-57 | name, major and avatar edits commute with course removal and do not change whether an add is accepted; edits of different fields (name, major, avatar) commute; repeating an edit changes nothing |
| ProfilePage.JsRemainder | components/Profile.tsx:25 | JavaScript `%` lies in [0, b) and equals the Euclidean remainder for a non-negative dividend, and lies in (-b, 0] for a negative one |
| ProfilePage.AvatarIndex | components/Profile.tsx:25 | the avatar index is id mod 4 and always in range for non-negative ids; a negative id not divisible by 4 selects no avatar |
| ProfilePage.PickedAvatarShown | components/Profile.tsx:25-57 | each of the four avatars the picker sets is the one shown |
| ProfilePage.ProfileEditor.constructor | components/Profile.tsx:11 | the course box starts empty |
| ProfilePage.ProfileEditor.EditCourseInput | components/Profile.tsx:70 | sets the course box |
| ProfilePage.ProfileEditor.CourseAdd | components/Profile.tsx:13-19 | an accepted add returns the new profile and clears the box; a rejected one returns nothing and keeps the box |
| SettingsPage.SettingsDraft.SaveButtonShown | components/Settings.tsx:77 | the Save button shows exactly while the draft is dirty; `EditAndSave` shows it after an edit and not after saving |
| SettingsPage.SettingsDraft.Content | components/Settings.tsx:36-68 | profile and preference tabs show the draft; achievements and badges tabs show the saved profile |
| SettingsPage.SettingsDraft.constructor | components/Settings.tsx:15-17 | the draft is a copy of the saved profile, clean, on the profile tab |
| SettingsPage.SettingsDraft.SetView | components/Settings.tsx:89 | only the tab changes |
| SettingsPage.SettingsDraft.FormChange | components/Settings.tsx:19-22 | the draft is replaced and dirty |
| SettingsPage.SettingsDraft.ChooseStyle | components/Settings.tsx:49 | only the draft's learning style changes, and the draft is dirty |
| SettingsPage.SettingsDraft.Save | components/Settings.tsx:24-27 | the draft is handed over and the page is clean; a clean draft always equals the last saved profile |
| SettingsPage.EditAndSave | components/Settings.tsx:19-27 | a form change followed by choosing the kinesthetic style and saving hands over the edited profile with that style |
| GoalSetting.GoalSetter.constructor | components/GoalSetter.tsx:14-16 | the box shows the goal; no suggestion |
| GoalSetting.GoalSetter.Change | components/GoalSetter.tsx:31-33 | the box holds the typed text |
| GoalSetting.GoalSetter.GoalChanged | components/GoalSetter.tsx:18-20 | a new goal resynchronises the box |
| GoalSetting.GoalSetter.Blur | components/GoalSetter.tsx:22-29 | a number in [0, 100], both ends included, is passed on; anything else passes nothing and reverts the box to the goal |
| GoalSetting.GoalSetter.BeginSuggestion | components/GoalSetter.tsx:36-37 | suggesting on, suggestion cleared |
| GoalSetting.GoalSetter.FinishSuggestion | components/GoalSetter.tsx:38-48 | a suggestion is passed on and shown without range check; a failure passes nothing, keeps the box and sets the fallback message |
| GoalSetting.BlurRoundTrip | components/GoalSetter.tsx:22-29 | a failed edit reverts to the goal, and blurring then passes the goal on |
| GoalSetting.SuggestionSkipsRangeCheck | components/GoalSetter.tsx:39-41 | a suggested 120 is passed on although a typed 120 is refused |
| SessionSetupForm.StartAccepted | components/StudySessionSetup.tsx:17 | the guard of `handleStart`; `SetupForm.Start` hands over a set-up exactly when it holds |
| SessionSetupForm.StartDisabled | components/StudySessionSetup.tsx:59 | the button's disabled test; `DisabledExactlyWhenRefused` proves it is the negated guard |
| SessionSetupForm.DisabledExactlyWhenRefused | components/StudySessionSetup.tsx:59 | Start is disabled exactly when the guard would refuse |
| SessionSetupForm.SetupForm.constructor | components/StudySessionSetup.tsx:12-14 | empty fields, duration 45 |
| SessionSetupForm.SetupForm.EditSubject | components/StudySessionSetup.tsx:39 | only the subject changes |
| SessionSetupForm.SetupForm.EditGoal | components/StudySessionSetup.tsx:54 | only the goal changes |
| SessionSetupForm.SetupForm.ChooseDuration | components/StudySessionSetup.tsx:47-48 | the duration is one of 25, 45, 60, 90 |
| SessionSetupForm.SetupForm.Start | components/StudySessionSetup.tsx:16-20 | a set-up is handed over iff both trimmed fields are non-empty, with subject and goal as typed and the current duration |
| SessionSetupForm.FillAndStart | components/StudySessionSetup.tsx:16-20 | a blank goal starts nothing; padded text is handed over untrimmed |
| StudyPlanning.Cleaned | components/StudyPlanner.tsx:35 | `map(trim).filter(s => s)`: at most as many pieces; `CleanedTrimmed` and `CleanedAppend` give the rest |
| StudyPlanning.CleanedTrimmed | components/StudyPlanner.tsx:35 | no cleaned subject is empty or padded |
| StudyPlanning.CleanedAppend | components/StudyPlanner.tsx:35 | cleaning keeps the order of the pieces |
| StudyPlanning.Subjects | components/StudyPlanner.tsx:35 | the subjects sent to the model; stated by `SubjectsOfJoin` and `InitialSubjectsAreCourses` |
| StudyPlanning.SubjectsOfJoin | components/StudyPlanner.tsx:21-35 | clean names joined with ", " split back into the same names |
| StudyPlanning.InitialSubjects | components/StudyPlanner.tsx:21 | the course names joined by ", " when that text is non-empty; otherwise the subject-breakdown names of the prediction joined by ", ", or '' without a prediction |
| StudyPlanning.InitialSubjectsAreCourses | components/StudyPlanner.tsx:21-35 | with clean course names the planner sends exactly those names |
| StudyPlanning.Weaknesses | components/StudyPlanner.tsx:36 | `prediction?.weaknesses || []`; stated by `Request` |
| StudyPlanning.Request | components/StudyPlanner.tsx:33-38 | the request holds the split subjects, the last prediction's weaknesses or [], and the profile's learning style |
| StudyPlanning.TasksOn | components/StudyPlanner.tsx:92 | a task is listed for a day iff it is in the plan with that day |
| StudyPlanning.TasksOnAppend | components/StudyPlanner.tsx:92 | a day's tasks keep plan order |
| StudyPlanning.AgendaFrom | components/StudyPlanner.tsx:91-93 | the agenda lists weekdays in order Monday to Sunday, omits empty days, and each day holds its filtered tasks |
| StudyPlanning.Agenda | components/StudyPlanner.tsx:91-93 | the agenda from Monday; stated by `AgendaFrom` and `AgendaCoverage` |
| StudyPlanning.AgendaCoverage | components/StudyPlanner.tsx:60-93 | a task is on the agenda iff it is in the plan and its day is a weekday name |
| StudyPlanning.StudyPlanner.constructor | components/StudyPlanner.tsx:20-26 | the form starts with the initial subjects, no exam dates and 15 hours |
| StudyPlanning.StudyPlanner.Panel | components/StudyPlanner.tsx:87-89 | loading, else the agenda of a plan, else the placeholder |
| StudyPlanning.StudyPlanner.EditSubjects | components/StudyPlanner.tsx:49-52 | only the subjects field changes |
| StudyPlanning.StudyPlanner.EditExamDates | components/StudyPlanner.tsx:49-52 | only the exam-dates field changes |
| StudyPlanning.StudyPlanner.EditWeeklyHours | components/StudyPlanner.tsx:51 | only the hours field changes, to the parsed value |
| StudyPlanning.StudyPlanner.BeginGenerate | components/StudyPlanner.tsx:29-38 | loading on, error cleared, old plan cleared, and the request built from the form |
| StudyPlanning.StudyPlanner.FinishGenerate | components/StudyPlanner.tsx:39-46 | success stores the plan; failure sets the error; loading ends |
| StudyPlanning.FailedGeneration | components/StudyPlanner.tsx:28-47 | a failed generation leaves no plan, sets the error and shows the placeholder |
| HistoricalTrends.Reversed | components/HistoricalTrends.tsx:58 | the reverse puts position i at mirror position n-1-i |
| HistoricalTrends.ReversedTwice | components/HistoricalTrends.tsx:58 | reversing twice gives the sequence back |
| HistoricalTrends.LastFive | components/HistoricalTrends.tsx:58 | `slice(-5)`; stated through `TableNewestFirst` |
| HistoricalTrends.TableRows | components/HistoricalTrends.tsx:58 | `slice(-5).reverse()`; stated by `TableNewestFirst` and `LoggedEntryLeads` |
| HistoricalTrends.TableNewestFirst | components/HistoricalTrends.tsx:58 | the table holds the min(5, n) most recent entries, newest first |
| HistoricalTrends.LoggedEntryLeads | components/HistoricalTrends.tsx:58 | a newly logged entry heads the table |
| HistoricalTrends.NoteExactlyWhenTruncated | components/HistoricalTrends.tsx:81 | the note appears iff the table leaves entries out, i.e. n > 5 |
| HistoricalTrends.AnalyseNeedsTwoPoints | components/HistoricalTrends.tsx:18 | the analyse button appears iff n >= 2 |
| HistoricalTrends.AnalysisShown | components/HistoricalTrends.tsx:39 | the analysis shows iff it is a non-empty text |
| HistoricalTrends.ChartSeries | components/HistoricalTrends.tsx:46 | the chart is drawn iff n > 0, with each entry's predicted score in log order |
| HistoricalTrends.ChartGrowsByLog | components/HistoricalTrends.tsx:46 | logging appends the new score to the series |
| BadgeGrid.Progress | components/Badges.tsx:16 | progress is points/required·100 capped at 100, reaching 100 iff the badge is earned |
| BadgeGrid.ProgressMonotone | components/Badges.tsx:16 | more points never mean less progress |
| BadgeGrid.IsUnlocked | components/Badges.tsx:15 | the unlock test; stated by `Cards`, `UnlockMonotone` and `UnlockedArePrefix` |
| BadgeGrid.CardOf | components/Badges.tsx:14-38 | one badge card; stated by `Cards` |
| BadgeGrid.Cards | components/Badges.tsx:14-38 | one card per badge in catalogue order; unlocked iff points >= threshold; a bar only on locked cards, below 100 |
| BadgeGrid.UnlockMonotone | components/Badges.tsx:15 | earning points never locks a badge |
| BadgeGrid.UnlockedArePrefix | components/Badges.tsx:15 | unlocked badges are a prefix of the grid |
| BadgeGrid.GridExtremes | components/Badges.tsx:14-16 | at 0 points every bar is empty; at 1000 every badge is unlocked |
| SubjectBars.BarColorOf | components/SubjectBreakdown.tsx:10-16 | the bar colour is the colour of the score's band |
| SubjectBars.BarColorMonotone | components/SubjectBreakdown.tsx:10-16 | a higher score never gets a worse colour |
| SubjectBars.BarColorBoundaries | components/SubjectBreakdown.tsx:11-14 | 90, 80, 70 and 60 are inclusive lower bounds |
| SubjectBars.Rows | components/SubjectBreakdown.tsx:22-31 | one row per subject, in input order, with its score and band colour |
| ChatWindow.Forwarded | components/Chatbot.tsx:24-25 | input is forwarded iff it is not blank, and then as its non-empty trim |
| ChatWindow.ForwardIdempotent | components/Chatbot.tsx:24-25 | forwarded text forwards unchanged again |
| ChatWindow.PaddedGreeting | components/Chatbot.tsx:24-25 | " hi" is forwarded as "hi" |
| ChatWindow.Chatbot.constructor | components/Chatbot.tsx:13-14 | empty box, not typing |
| ChatWindow.Chatbot.Type | components/Chatbot.tsx:74 | only the box changes |
| ChatWindow.Chatbot.Send | components/Chatbot.tsx:23-29 | forwards the trimmed text, then clears the box and sets typing; blank input changes nothing |
| ChatWindow.Chatbot.MessagesChanged | components/Chatbot.tsx:31-35 | typing is cleared once the last message is from the bot, and otherwise kept |
| ChatWindow.Chatbot.SendDisabled | components/Chatbot.tsx:79 | the disabled test of Send; `SendDisabledExactlyWhenBlank` ties it to `Forwarded` |
| ChatWindow.SendDisabledExactlyWhenBlank | components/Chatbot.tsx:79 | Send is disabled iff sending would forward nothing |
| ChatWindow.Conversation | components/Chatbot.tsx:23-35 | padded text goes out trimmed; typing shows until the bot replies; a second press sends nothing |
| Text.Trim | components/StudySessionSetup.tsx:17 | `trim`: never longer than the input; `TrimSpec` and `TrimIdempotent` give the rest |
| Text.TrimSpec | components/StudySessionSetup.tsx:17 | the trim has no white space at either end, and is empty iff the string is all white space |
| Text.TrimIdempotent | components/Chatbot.tsx:24-25 | trimming twice is trimming once |
| Text.IndexOf | components/FocusMode.tsx:25 | the search `split` performs: an index found leaves room for the separator; `IndexOfSpec` gives first-ness |
| Text.IndexOfSpec | components/FocusMode.tsx:25 | the occurrence found is the first one, and none means there is none |
| Text.Split | components/StudyPlanner.tsx:35 | `split` on a non-empty separator: at least one piece; `JoinSplit` proves the inverse |
| Text.Join | components/StudyPlanner.tsx:21 | `join`; `JoinSplit` proves it inverts `Split`, `SubjectsOfJoin` the planner's case |
| Text.JoinSplit | components/StudyPlanner.tsx:35 | joining the pieces of a split with the same separator gives the string back |

## Left out

- Theme, `matchMedia`, toast messages and their timers, and the report, explainer and settings modals' open flags are not modelled. They are presentation.
- The slider handler (App.tsx:108-110), the report generator (App.tsx:137-149) and the explainer opener (App.tsx:214-217) are not modelled. Each writes one display slot or forwards to the AI service.
- The App-level chat handler (App.tsx:219-227) is not modelled. It races on its stale `chatMessages` closure, which is a scheduling matter; the chat window's own logic is modelled in `ChatWindow`.
- The AI service is not part of this model (services/geminiService.ts). Its prompts, network calls and parsing of model output are foreign calls, and the model takes their outcomes as `Option` arguments.
- JSON encoding of storage is not modelled. Stored values are kept as values, overwritten on every write, and a read is missing, unparsable or parsed.
- AppShell.App.Load: `{...prev, ...loaded}` is modelled as replacing the whole profile, so a stored object with missing fields is not represented.
- The goal setter, study planner and focus mode components are not rendered by any file of the repository available here, and App.tsx never passes `setGoal` on. They are modelled as standalone components whose callbacks are results or parameters.
- StudyPlanning.StudyPlanner: the `studyPlan` slot, owned by the caller through `setStudyPlan`, is held as a field of the planner.
- FocusMode.ToNumber: `Number` is approximated on the strings a clock time is made of. Blank is 0, decimal digits are their value, and everything else is `NaN`. Signs, decimals, exponents and hexadecimal are not read.
- GoalSetting.GoalSetter.Blur: `parseFloat` is a parameter, and a shown goal is assumed to parse back to itself.
- StudyPlanning.StudyPlanner.EditWeeklyHours: `parseInt` is a parameter.
- BadgeGrid.Progress: division and `Math.min` are on exact reals, not IEEE doubles, and the `toFixed` formatting elsewhere is not modelled.
- Session.Clock: the minutes/seconds split is stated for non-negative times only, the only ones the countdown displays; `padStart` formatting is not modelled.
- ProfilePage.JsRemainder: integer ids only; a fractional `avatarId` is not represented.
- Date, `Intl` weekday names, `Date.now()`, ISO dates and the ids made from them are parameters.
- Real timers (`setInterval`, `setTimeout`), effect scheduling, re-renders and React StrictMode double effects are not modelled. Ticks and effects are explicit method calls.
- The video/other branch of resource rendering (components/StudySession.tsx:100-104) is not modelled. Only the content split is.
- Floating-point geometry is not modelled: charts, radial progress and the Pomodoro ring offset (components/PomodoroTimer.tsx:50-54 beyond the two second counts).
- The Settings draft is copied from the profile once, at mount (components/Settings.tsx:16). A later change of the saved profile does not resync it, and the model keeps that behaviour.
