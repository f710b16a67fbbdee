/** The target-score box (components/GoalSetter.tsx). `parseFloat` of the
    typed text is a parameter, and the text of a number is represented by
    the number itself. */
module GoalSetting {
  import opened Wrappers

  /** The text in the box: `goal.toString()` of a number, or what was typed. */
  datatype GoalText = Shown(value: real) | Typed(text: string)

  const SuggestionFailed: string := "Could not get a suggestion at this time."

  /** A goal `handleBlur` accepts: a number in [0, 100], both ends included. */
  predicate InRange(x: real) {
    0.0 <= x <= 100.0
  }

  class GoalSetter {
    var localGoal: GoalText
    var isSuggesting: bool
    var suggestion: Option<string>

    constructor(goal: real)
      ensures localGoal == Shown(goal) && !isSuggesting && suggestion == None
    {
      localGoal := Shown(goal);
      isSuggesting := false;
      suggestion := None;
    }

    method Change(text: string)
      modifies this
      ensures localGoal == Typed(text)
      ensures isSuggesting == old(isSuggesting) && suggestion == old(suggestion)
    {
      localGoal := Typed(text);
    }

    /** The effect on a new `goal`: the box shows it. */
    method GoalChanged(goal: real)
      modifies this
      ensures localGoal == Shown(goal)
      ensures isSuggesting == old(isSuggesting) && suggestion == old(suggestion)
    {
      localGoal := Shown(goal);
    }

    /** `handleBlur`, given the current goal and `parseFloat` of the text
        (None for `NaN`; a shown number parses back to itself). Returns the
        value passed to `onGoalChange`, if any; otherwise the text reverts. */
    method Blur(goal: real, parsed: Option<real>) returns (newGoal: Option<real>)
      requires localGoal.Shown? ==> parsed == Some(localGoal.value)
      modifies this
      ensures newGoal.Some? <==> parsed.Some? && InRange(parsed.value)
      ensures newGoal.Some? ==> newGoal == parsed && localGoal == old(localGoal)
      ensures newGoal.None? ==> localGoal == Shown(goal)
      ensures isSuggesting == old(isSuggesting) && suggestion == old(suggestion)
    {
      if parsed.Some? && InRange(parsed.value) {
        newGoal := parsed;
      } else {
        newGoal := None;
        localGoal := Shown(goal);
      }
    }

    /** The synchronous start of `handleAISuggestion`. */
    method BeginSuggestion()
      modifies this
      ensures isSuggesting && suggestion == None && localGoal == old(localGoal)
    {
      isSuggesting := true;
      suggestion := None;
    }

    /** The rest of `handleAISuggestion`, given the suggested goal and reason
        or None when the call failed. The suggested goal is applied as it is,
        without the range check of `Blur`. */
    method FinishSuggestion(reply: Option<(real, string)>) returns (newGoal: Option<real>)
      modifies this
      ensures !isSuggesting
      ensures reply.Some? ==>
        && newGoal == Some(reply.value.0) && localGoal == Shown(reply.value.0)
        && suggestion == Some(reply.value.1)
      ensures reply.None? ==> newGoal == None && localGoal == old(localGoal) && suggestion == Some(SuggestionFailed)
    {
      if reply.Some? {
        newGoal := Some(reply.value.0);
        localGoal := Shown(reply.value.0);
        suggestion := Some(reply.value.1);
      } else {
        newGoal := None;
        suggestion := Some(SuggestionFailed);
      }
      isSuggesting := false;
    }
  }

  /** Blurring the box straight after it shows a goal in range hands that
      goal over again; after a failed edit the box shows the goal. */
  method BlurRoundTrip(goal: real, typed: string, parsed: Option<real>) returns (first: Option<real>, second: Option<real>)
    requires InRange(goal)
    requires parsed.None? || !InRange(parsed.value)
    ensures first == None && second == Some(goal)
  {
    var box := new GoalSetter(goal);
    box.Change(typed);
    first := box.Blur(goal, parsed);
    second := box.Blur(goal, Some(goal));
  }

  /** An AI suggestion of 120 is passed on although a typed 120 is refused. */
  method SuggestionSkipsRangeCheck() returns (typed: Option<real>, suggested: Option<real>)
    ensures typed == None && suggested == Some(120.0)
  {
    var box := new GoalSetter(80.0);
    box.Change("120");
    typed := box.Blur(80.0, Some(120.0));
    box.BeginSuggestion();
    suggested := box.FinishSuggestion(Some((120.0, "stretch goal")));
  }
}
