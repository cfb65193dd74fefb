/**
 * The learning-preferences step: one checkbox per preference, written back
 * as the `learningPreferences` list.
 */
module LearningPreferencesStep {
  import opened OnboardingFlow

  const PreferenceIds := ["short-sessions", "long-sessions", "structured", "exploratory", "practical", "theoretical"]

  /** `handlePreferenceToggle`: only the preference list is written, through `updateData`. */
  function PreferenceToggle(d: OnboardingData, preferenceId: string, checked: bool): (r: OnboardingData)
    ensures r.learningPreferences == Toggle(d.learningPreferences, preferenceId, checked)
    ensures r.(learningPreferences := d.learningPreferences) == d
  {
    Updated(d, SetLearningPreferences(Toggle(d.learningPreferences, preferenceId, checked)))
  }

  /** Checking and then unchecking a preference that was not chosen restores the record. */
  lemma CheckThenUncheckPreference(d: OnboardingData, preferenceId: string)
    requires preferenceId !in d.learningPreferences
    ensures PreferenceToggle(PreferenceToggle(d, preferenceId, true), preferenceId, false) == d
  {
    CheckThenUncheck(d.learningPreferences, preferenceId);
  }
}
