/** The study-session set-up dialog (components/StudySessionSetup.tsx). */
module SessionSetupForm {
  import opened Wrappers
  import opened Text
  import opened Types

  /** The duration buttons, in minutes. */
  const DurationChoices: seq<int> := [25, 45, 60, 90]
  const DefaultDuration: int := 45

  /** The guard of `handleStart`: both fields are non-blank. */
  predicate StartAccepted(subject: string, goal: string) {
    !IsBlank(subject) && !IsBlank(goal)
  }

  /** The `disabled` condition of the Start button. */
  predicate StartDisabled(subject: string, goal: string) {
    IsBlank(subject) || IsBlank(goal)
  }

  /** The Start button is disabled exactly when `handleStart` would refuse. */
  lemma DisabledExactlyWhenRefused(subject: string, goal: string)
    ensures StartDisabled(subject, goal) <==> !StartAccepted(subject, goal)
  {
  }

  class SetupForm {
    var subject: string
    var duration: int
    var goal: string

    ghost predicate Valid()
      reads this
    {
      duration in DurationChoices
    }

    constructor()
      ensures Valid() && subject == "" && duration == DefaultDuration && goal == ""
    {
      subject := "";
      duration := DefaultDuration;
      goal := "";
    }

    method EditSubject(s: string)
      requires Valid()
      modifies this
      ensures Valid() && subject == s && duration == old(duration) && goal == old(goal)
    {
      subject := s;
    }

    method EditGoal(s: string)
      requires Valid()
      modifies this
      ensures Valid() && goal == s && duration == old(duration) && subject == old(subject)
    {
      goal := s;
    }

    /** A duration button. */
    method ChooseDuration(k: nat)
      requires Valid() && k < |DurationChoices|
      modifies this
      ensures Valid() && duration == DurationChoices[k]
      ensures subject == old(subject) && goal == old(goal)
    {
      duration := DurationChoices[k];
    }

    /** `handleStart`: the set-up passed to `onStart`, with subject and goal
        as typed (not trimmed), or nothing when either is blank. */
    method Start() returns (started: Option<StudySessionSetup>)
      requires Valid()
      ensures started.Some? <==> StartAccepted(subject, goal)
      ensures started.Some? ==>
        && started.value.subject == subject && started.value.goal == goal
        && started.value.duration == duration && started.value.duration in DurationChoices
    {
      if !IsBlank(subject) && !IsBlank(goal) {
        started := Some(StudySessionSetup(subject, duration, goal));
      } else {
        started := None;
      }
    }
  }

  /** A form filled in with padded text starts a session with that text and
      the default duration; a form with a blank goal starts nothing. */
  method FillAndStart() returns (first: Option<StudySessionSetup>, second: Option<StudySessionSetup>)
    ensures first == None
    ensures second == Some(StudySessionSetup(" Calculus ", 45, "limits"))
  {
    var form := new SetupForm();
    form.EditSubject(" Calculus ");
    form.EditGoal(" ");
    assert IsBlank(" ");
    first := form.Start();
    form.EditGoal("limits");
    VisibleNotBlank(" Calculus ", 1);
    VisibleNotBlank("limits", 0);
    second := form.Start();
  }
}
