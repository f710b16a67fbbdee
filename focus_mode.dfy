/** Focus mode (components/FocusMode.tsx): picking the study-plan task to
    show now, and the reward for a completed Pomodoro. The weekday name and
    the minute of the day are parameters, read from the clock in the source. */
module FocusMode {
  import opened Wrappers
  import opened Text
  import opened Types
  import opened Constants
  import opened Gamification

  /** A computation that either returns a value or throws (a `TypeError`). */
  datatype Outcome<T> = Returned(value: T) | Threw

  predicate IsDigit(c: char) {
    '0' <= c <= '9'
  }

  predicate AllDigits(s: string) {
    forall i :: 0 <= i < |s| ==> IsDigit(s[i])
  }

  /** The decimal value of a string of digits. */
  function DigitsValue(s: string): nat
    requires AllDigits(s)
  {
    if s == [] then 0
    else DigitsValue(s[..|s| - 1]) * 10 + (s[|s| - 1] - '0') as nat
  }

  /** `Number(s)` on the strings a clock time is made of: surrounding
      whitespace is ignored, a blank string is 0, a string of digits is its
      decimal value, and anything else is `NaN` (None). */
  function ToNumber(s: string): Option<int> {
    var t := Trim(s);
    if t == [] then Some(0)
    else if AllDigits(t) then Some(DigitsValue(t))
    else None
  }

  /** A non-empty string of digits is its own trim, so `Number` reads it as
      its decimal value. */
  lemma DigitsNumber(s: string)
    requires s != [] && AllDigits(s)
    ensures ToNumber(s) == Some(DigitsValue(s))
  {
    assert IsDigit(s[0]) && IsDigit(s[|s| - 1]);
    TrimOfTrimmed(s);
  }

  function Hour24(hours: int, period: Option<string>): int {
    if period == Some("PM") && hours != 12 then hours + 12
    else if period == Some("AM") && hours == 12 then 0
    else hours
  }

  /** The twelve-hour labels 1..12 AM and 1..12 PM name the hours 0..23
      one-to-one: 12 AM is hour 0, 12 PM is hour 12. */
  lemma ClockHours()
    ensures Hour24(12, Some("AM")) == 0 && Hour24(12, Some("PM")) == 12
    ensures forall h :: 1 <= h < 12 ==> Hour24(h, Some("AM")) == h && Hour24(h, Some("PM")) == h + 12
    ensures forall h :: 1 <= h <= 12 ==> 0 <= Hour24(h, Some("AM")) < 12 <= Hour24(h, Some("PM")) < 24
    ensures forall h, k :: 1 <= h <= 12 && 1 <= k <= 12 && Hour24(h, Some("AM")) == Hour24(k, Some("AM")) ==> h == k
    ensures forall h, k :: 1 <= h <= 12 && 1 <= k <= 12 && Hour24(h, Some("PM")) == Hour24(k, Some("PM")) ==> h == k
  {
  }

  /** `parseTime`: "h:mm AM" to minutes after midnight; None when either
      number is `NaN`. A missing period leaves the hour as written. */
  function ParseTime(timeStr: string): Option<int> {
    var words := Split(timeStr, [' ']);
    ClockValue(Split(words[0], [':']), if |words| >= 2 then Some(words[1]) else None)
  }

  /** The value of the hour and minute pieces of a clock time. */
  function ClockValue(parts: seq<string>, period: Option<string>): Option<int>
    requires |parts| >= 1
  {
    Minutes(ToNumber(parts[0]), if |parts| >= 2 then ToNumber(parts[1]) else None, period)
  }

  /** `hours * 60 + minutes` after the period adjustment; `NaN` when either
      number is. */
  function Minutes(hours: Option<int>, minutes: Option<int>, period: Option<string>): Option<int> {
    if hours.None? || minutes.None? then None
    else Some(Hour24(hours.value, period) * 60 + minutes.value)
  }

  /** A well-formed clock time "hh:mm AM" or "hh:mm PM" parses to its hour
      on the 24-hour clock times 60 plus its minutes. */
  lemma ClockTimeParses(hs: string, ms: string, period: string, h: nat, m: nat)
    requires hs != [] && AllDigits(hs) && ms != [] && AllDigits(ms)
    requires h == DigitsValue(hs) && m == DigitsValue(ms)
    requires period == "AM" || period == "PM"
    ensures ParseTime(hs + [':'] + ms + [' '] + period) == Some(Hour24(h, Some(period)) * 60 + m)
  {
    var v := ClockValue([hs, ms], Some(period));
    assert ParseTime(hs + [':'] + ms + [' '] + period) == v by { ClockText(hs, ms, period); }
    assert v == Some(Hour24(h, Some(period)) * 60 + m) by { DigitsClockValue(hs, ms, Some(period), h, m); }
  }

  /** Hour and minute pieces made of digits have the value they spell. */
  lemma DigitsClockValue(hs: string, ms: string, period: Option<string>, h: nat, m: nat)
    requires hs != [] && AllDigits(hs) && ms != [] && AllDigits(ms)
    requires h == DigitsValue(hs) && m == DigitsValue(ms)
    ensures ClockValue([hs, ms], period) == Some(Hour24(h, period) * 60 + m)
  {
    DigitsNumber(hs);
    DigitsNumber(ms);
    ClockValueOf(hs, ms, period, h, m);
  }

  /** A clock time with a period is read as its hour and minute pieces. */
  lemma ClockText(hs: string, ms: string, period: string)
    requires AllDigits(hs) && AllDigits(ms)
    requires period == "AM" || period == "PM"
    ensures ParseTime(hs + [':'] + ms + [' '] + period) == ClockValue([hs, ms], Some(period))
  {
    var time := hs + [':'] + ms;
    ClockWords(hs, ms, period);
    WordsParse(time, period);
    ClockParts(hs, ms);
  }

  lemma WordsParse(time: string, period: string)
    requires Split(time + [' '] + period, [' ']) == [time, period]
    ensures ParseTime(time + [' '] + period) == ClockValue(Split(time, [':']), Some(period))
  {
  }

  lemma ClockValueOf(hs: string, ms: string, period: Option<string>, h: int, m: int)
    requires ToNumber(hs) == Some(h) && ToNumber(ms) == Some(m)
    ensures ClockValue([hs, ms], period) == Some(Hour24(h, period) * 60 + m)
  {
    var parts := [hs, ms];
    assert parts[0] == hs && parts[1] == ms;
    assert ClockValue(parts, period) == Minutes(ToNumber(hs), ToNumber(ms), period);
  }

  /** Digits are neither spaces nor colons. */
  lemma DigitsFree(s: string)
    requires AllDigits(s)
    ensures ' ' !in s && ':' !in s
  {
    forall i | 0 <= i < |s| ensures s[i] != ' ' && s[i] != ':' {
      assert IsDigit(s[i]);
    }
  }

  lemma ClockTextFree(hs: string, ms: string)
    requires AllDigits(hs) && AllDigits(ms)
    ensures ' ' !in hs + [':'] + ms
  {
    var time := hs + [':'] + ms;
    DigitsFree(hs);
    DigitsFree(ms);
    forall i | 0 <= i < |time| ensures time[i] != ' ' {
      if i < |hs| { assert time[i] == hs[i]; }
      else if i > |hs| { assert time[i] == ms[i - |hs| - 1]; }
    }
  }

  lemma ClockWord(hs: string, ms: string)
    requires AllDigits(hs) && AllDigits(ms)
    ensures Split(hs + [':'] + ms, [' ']) == [hs + [':'] + ms]
  {
    ClockTextFree(hs, ms);
    SplitWithout(hs + [':'] + ms, ' ');
  }

  lemma ClockWords(hs: string, ms: string, period: string)
    requires AllDigits(hs) && AllDigits(ms)
    requires period == "AM" || period == "PM"
    ensures Split(hs + [':'] + ms + [' '] + period, [' ']) == [hs + [':'] + ms, period]
  {
    ClockTextFree(hs, ms);
    SplitAfterFirst(hs + [':'] + ms, ' ', period);
    SplitWithout(period, ' ');
  }

  lemma ClockParts(hs: string, ms: string)
    requires AllDigits(hs) && AllDigits(ms)
    ensures Split(hs + [':'] + ms, [':']) == [hs, ms]
  {
    DigitsFree(hs);
    DigitsFree(ms);
    SplitAfterFirst(hs, ':', ms);
    SplitWithout(ms, ':');
  }

  /** A time without a period keeps the hour as written. */
  lemma NoPeriodKeepsHour(hs: string, ms: string, h: nat, m: nat)
    requires hs != [] && AllDigits(hs) && ms != [] && AllDigits(ms)
    requires h == DigitsValue(hs) && m == DigitsValue(ms)
    ensures ParseTime(hs + [':'] + ms) == Some(h * 60 + m)
  {
    NoPeriodValue(hs, ms, h, m);
    NoPeriodHour(ParseTime(hs + [':'] + ms), h, m);
  }

  lemma NoPeriodValue(hs: string, ms: string, h: nat, m: nat)
    requires hs != [] && AllDigits(hs) && ms != [] && AllDigits(ms)
    requires h == DigitsValue(hs) && m == DigitsValue(ms)
    ensures ParseTime(hs + [':'] + ms) == Some(Hour24(h, None) * 60 + m)
  {
    var v := ClockValue([hs, ms], None);
    assert ParseTime(hs + [':'] + ms) == v by { ClockTextNoPeriod(hs, ms); }
    assert v == Some(Hour24(h, None) * 60 + m) by { DigitsClockValue(hs, ms, None, h, m); }
  }

  /** Without a period the hour is not adjusted. */
  lemma NoPeriodHour(r: Option<int>, h: int, m: int)
    requires r == Some(Hour24(h, None) * 60 + m)
    ensures r == Some(h * 60 + m)
  {
  }

  /** A clock time without a period is read as its hour and minute pieces. */
  lemma ClockTextNoPeriod(hs: string, ms: string)
    requires AllDigits(hs) && AllDigits(ms)
    ensures ParseTime(hs + [':'] + ms) == ClockValue([hs, ms], None)
  {
    var time := hs + [':'] + ms;
    ClockWord(hs, ms);
    OneWordParse(time);
    ClockParts(hs, ms);
  }

  lemma OneWordParse(time: string)
    requires Split(time, [' ']) == [time]
    ensures ParseTime(time) == ClockValue(Split(time, [':']), None)
  {
  }

  /** A time without minutes, such as "9 AM", is `NaN`. */
  lemma NoMinutesIsNaN(hs: string, period: string)
    requires AllDigits(hs)
    requires period == "AM" || period == "PM"
    ensures ParseTime(hs + [' '] + period) == None
  {
    DigitsFree(hs);
    SplitAfterFirst(hs, ' ', period);
    SplitWithout(period, ' ');
    SplitWithout(hs, ':');
  }

  /** Whether `task` is the one to show at minute `now` of weekday `today`,
      the predicate of the first `find`; None when it throws, which happens
      when the time range has no " - " and so `endTime` is undefined. */
  function TaskTest(task: StudyTask, today: string, now: int): Option<bool> {
    if task.day != today then Some(false)
    else
      var range := Split(task.time, " - ");
      if |range| < 2 then None
      else
        var start := ParseTime(range[0]);
        var end := ParseTime(range[1]);
        Some(start.Some? && end.Some? && start.value <= now < end.value)
  }

  /** A task of today whose time range is "start - end" matches exactly when
      `now` lies in the half-open range [start, end). */
  lemma TaskTestRange(task: StudyTask, today: string, now: int, a: string, b: string)
    requires task.day == today && task.time == a + " - " + b
    requires '-' !in a && '-' !in b
    ensures TaskTest(task, today, now) ==
      Some(ParseTime(a).Some? && ParseTime(b).Some? && ParseTime(a).value <= now < ParseTime(b).value)
  {
    RangeSplit(a, b);
  }

  /** "start - end" splits on " - " into its two ends when neither contains
      a hyphen. */
  lemma RangeSplit(a: string, b: string)
    requires '-' !in a && '-' !in b
    ensures Split(a + " - " + b, " - ") == [a, b]
  {
    var s := a + " - " + b;
    assert OccursAt(s, " - ", |a|) by { assert s[|a|..|a| + 3] == " - "; }
    forall k: nat | k < |a| ensures !OccursAt(s, " - ", k) {
      if k + 1 < |a| { assert s[k + 1] == a[k + 1]; }
      else { assert s[k + 1] == ' '; }
    }
    IndexOfFirst(s, " - ", |a|);
    assert s[..|a|] == a && s[|a| + 3..] == b;
    NoRangeIn(b);
  }

  lemma NoRangeIn(b: string)
    requires '-' !in b
    ensures Split(b, " - ") == [b]
  {
    forall k: nat ensures !OccursAt(b, " - ", k) {
      if k + 3 <= |b| {
        assert b[k..k + 3][1] == b[k + 1];
        assert b[k + 1] in b;
      }
    }
    IndexOfNone(b, " - ");
  }

  /** The other day's tasks never match. */
  lemma OtherDayNeverMatches(task: StudyTask, today: string, now: int)
    requires task.day != today
    ensures TaskTest(task, today, now) == Some(false)
  {
  }

  /** The outcome of `TaskTest` for every task of the plan, in order. */
  function Tests(plan: seq<StudyTask>, today: string, now: int): (tests: seq<Option<bool>>)
    ensures |tests| == |plan|
    ensures forall j :: 0 <= j < |plan| ==> tests[j] == TaskTest(plan[j], today, now)
  {
    seq(|plan|, j requires 0 <= j < |plan| => TaskTest(plan[j], today, now))
  }

  /** `find` over the test outcomes from position `k` on: the index of the
      first match, none, or the index of the test that threw. */
  datatype Search = Found(index: nat) | NotFound | Stopped(at: nat)

  function FirstMatch(tests: seq<Option<bool>>, k: nat): (r: Search)
    requires k <= |tests|
    ensures r.Found? ==> k <= r.index < |tests| && tests[r.index] == Some(true)
    ensures r.Stopped? ==> k <= r.at < |tests| && tests[r.at].None?
    ensures forall j :: k <= j < |tests| && (r.NotFound? || (r.Found? && j < r.index) || (r.Stopped? && j < r.at)) ==>
      tests[j] == Some(false)
    decreases |tests| - k
  {
    if k == |tests| then NotFound
    else match tests[k]
      case None => Stopped(k)
      case Some(true) => Found(k)
      case Some(false) => FirstMatch(tests, k + 1)
  }

  /** The search stops at the first entry that is not `Some(false)`. */
  lemma {:induction false} FirstMatchAt(tests: seq<Option<bool>>, k: nat, i: nat)
    requires k <= i < |tests| && tests[i] != Some(false)
    requires forall j :: k <= j < i ==> tests[j] == Some(false)
    ensures FirstMatch(tests, k) == if tests[i].None? then Stopped(i) else Found(i)
    decreases i - k
  {
    if k < i {
      FirstMatchAt(tests, k + 1, i);
    }
  }

  /** Every entry `Some(false)`: nothing is found. */
  lemma {:induction false} FirstMatchNone(tests: seq<Option<bool>>, k: nat)
    requires k <= |tests|
    requires forall j :: k <= j < |tests| ==> tests[j] == Some(false)
    ensures FirstMatch(tests, k) == NotFound
    decreases |tests| - k
  {
    if k < |tests| {
      FirstMatchNone(tests, k + 1);
    }
  }

  /** The second `find`: the first high-priority task from position `k`. */
  function FirstHigh(plan: seq<StudyTask>, k: nat): (r: Option<nat>)
    requires k <= |plan|
    ensures r.Some? ==> k <= r.value < |plan| && plan[r.value].priority == High
    ensures forall j :: k <= j < |plan| && (r.None? || j < r.value) ==> plan[j].priority != High
    decreases |plan| - k
  {
    if k == |plan| then None
    else if plan[k].priority == High then Some(k)
    else FirstHigh(plan, k + 1)
  }

  /** `getCurrentTask`: nothing without a plan; otherwise the first task of
      today running now, else the first high-priority task, else the first
      task. A study task object is always truthy, so `||` picks the first
      one found. */
  function CurrentTask(plan: Option<seq<StudyTask>>, today: string, now: int): (r: Outcome<Option<StudyTask>>)
    ensures plan.None? || plan.value == [] ==> r == Returned(None)
    ensures plan.Some? && plan.value != [] && r.Returned? ==> r.value.Some? && r.value.value in plan.value
  {
    if plan.None? || plan.value == [] then Returned(None)
    else
      var tasks := plan.value;
      match FirstMatch(Tests(tasks, today, now), 0)
      case Stopped(_) => Threw
      case Found(i) => Returned(Some(tasks[i]))
      case NotFound =>
        match FirstHigh(tasks, 0)
        case Some(h) => Returned(Some(tasks[h]))
        case None => Returned(Some(tasks[0]))
  }

  /** The task shown is the first one that matches, provided every earlier
      one is cleanly rejected. */
  lemma CurrentTaskMatches(tasks: seq<StudyTask>, today: string, now: int, i: nat)
    requires i < |tasks| && TaskTest(tasks[i], today, now) == Some(true)
    requires forall j :: 0 <= j < i ==> TaskTest(tasks[j], today, now) == Some(false)
    ensures CurrentTask(Some(tasks), today, now) == Returned(Some(tasks[i]))
  {
    FirstMatchAt(Tests(tasks, today, now), 0, i);
  }

  /** The lookup throws when a task of today before any match has a time
      without " - ". */
  lemma CurrentTaskThrows(tasks: seq<StudyTask>, today: string, now: int, i: nat)
    requires i < |tasks| && TaskTest(tasks[i], today, now).None?
    requires forall j :: 0 <= j < i ==> TaskTest(tasks[j], today, now) == Some(false)
    ensures CurrentTask(Some(tasks), today, now) == Threw
  {
    FirstMatchAt(Tests(tasks, today, now), 0, i);
  }

  /** With no task running now, the first high-priority task is shown. */
  lemma CurrentTaskHigh(tasks: seq<StudyTask>, today: string, now: int, i: nat)
    requires forall j :: 0 <= j < |tasks| ==> TaskTest(tasks[j], today, now) == Some(false)
    requires i < |tasks| && tasks[i].priority == High
    requires forall j :: 0 <= j < i ==> tasks[j].priority != High
    ensures CurrentTask(Some(tasks), today, now) == Returned(Some(tasks[i]))
  {
    FirstMatchNone(Tests(tasks, today, now), 0);
    assert FirstHigh(tasks, 0) == Some(i);
  }

  /** With no task running now and none of high priority, the first task is
      shown. */
  lemma CurrentTaskFirst(tasks: seq<StudyTask>, today: string, now: int)
    requires tasks != []
    requires forall j :: 0 <= j < |tasks| ==> TaskTest(tasks[j], today, now) == Some(false)
    requires forall j :: 0 <= j < |tasks| ==> tasks[j].priority != High
    ensures CurrentTask(Some(tasks), today, now) == Returned(Some(tasks[0]))
  {
    FirstMatchNone(Tests(tasks, today, now), 0);
    assert FirstHigh(tasks, 0) == None;
  }

  /** The Pomodoro callback: 'focused' is not in the catalogue, so the unlock
      request changes nothing and only the 20 points are added. */
  function PomodoroReward(p: UserProfile): (r: UserProfile)
    ensures r == p.(points := p.points + 20)
  {
    FindAchievementIds("focused");
    UnknownAchievements();
    Awarded(Unlocked(p, "focused"), CompletePomodoroPoints)
  }
}
