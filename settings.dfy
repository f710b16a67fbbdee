/** The settings page (components/Settings.tsx): a draft copy of the profile
    that the profile and preference tabs edit, saved on request. */
module SettingsPage {
  import opened Types

  datatype SettingsView = ProfileTab | PreferencesTab | AchievementsTab | BadgesTab

  /** The learning styles offered on the preferences tab, by id. */
  const LearningStyles: seq<string> := ["visual", "auditory", "kinesthetic", "reading-writing"]

  /** What a tab shows: the profile editor and the style picker show the
      draft, the achievements and badges tabs the saved profile. */
  datatype Panel =
    | ProfilePanel(draft: UserProfile)
    | StylePanel(selected: string)
    | AchievementsPanel(unlockedIds: seq<string>)
    | BadgesPanel(userPoints: int)

  class SettingsDraft {
    var view: SettingsView
    var formData: UserProfile
    var isDirty: bool
    /** The profile the draft was last copied from or saved as. */
    ghost var baseline: UserProfile

    /** A clean draft is the last saved profile. */
    ghost predicate Valid()
      reads this
    {
      !isDirty ==> formData == baseline
    }

    /** The Save button is shown exactly when the draft is dirty. */
    function SaveButtonShown(): bool
      reads this
    {
      isDirty
    }

    /** The tab content, given the saved profile passed in by the parent. */
    function Content(profile: UserProfile): (r: Panel)
      reads this
      ensures view == AchievementsTab ==> r == AchievementsPanel(profile.unlockedAchievements)
      ensures view == BadgesTab ==> r == BadgesPanel(profile.points)
      ensures view == ProfileTab ==> r == ProfilePanel(formData)
      ensures view == PreferencesTab ==> r == StylePanel(formData.learningStyle)
    {
      match view
      case ProfileTab => ProfilePanel(formData)
      case PreferencesTab => StylePanel(formData.learningStyle)
      case AchievementsTab => AchievementsPanel(profile.unlockedAchievements)
      case BadgesTab => BadgesPanel(profile.points)
    }

    constructor(profile: UserProfile)
      ensures Valid() && baseline == profile
      ensures view == ProfileTab && formData == profile && !isDirty
    {
      view := ProfileTab;
      formData := profile;
      isDirty := false;
      baseline := profile;
    }

    method SetView(v: SettingsView)
      requires Valid()
      modifies this
      ensures Valid() && view == v
      ensures formData == old(formData) && isDirty == old(isDirty) && baseline == old(baseline)
    {
      view := v;
    }

    /** `handleFormChange`: the new draft replaces the old one and is dirty. */
    method FormChange(p: UserProfile)
      requires Valid()
      modifies this
      ensures Valid() && formData == p && isDirty
      ensures view == old(view) && baseline == old(baseline)
    {
      formData := p;
      isDirty := true;
    }

    /** Picking a learning style changes only that field of the draft. */
    method ChooseStyle(k: nat)
      requires Valid() && k < |LearningStyles|
      modifies this
      ensures Valid() && isDirty
      ensures formData == old(formData).(learningStyle := LearningStyles[k])
      ensures view == old(view) && baseline == old(baseline)
    {
      FormChange(formData.(learningStyle := LearningStyles[k]));
    }

    /** `handleSave`: the draft is handed to `onSave` and is clean again. */
    method Save() returns (saved: UserProfile)
      requires Valid()
      modifies this
      ensures Valid() && saved == old(formData) && !isDirty
      ensures formData == old(formData) && view == old(view) && baseline == saved
    {
      saved := formData;
      baseline := formData;
      isDirty := false;
    }
  }

  /** Edits then a save hand over the last draft, and the page ends clean,
      without a Save button. */
  method EditAndSave(profile: UserProfile, edited: UserProfile) returns (saved: UserProfile)
    ensures saved == edited.(learningStyle := "kinesthetic")
  {
    var page := new SettingsDraft(profile);
    page.FormChange(edited);
    assert page.SaveButtonShown();
    page.SetView(PreferencesTab);
    page.ChooseStyle(2);
    saved := page.Save();
    assert !page.SaveButtonShown();
  }
}
