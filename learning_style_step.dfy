/**
 * The learning-style step: one checkbox per style, written back as the
 * `learningStyle` list, with a warning while no style is chosen.
 */
module LearningStyleStep {
  import opened OnboardingFlow

  const StyleIds := ["visual", "auditory", "reading", "kinesthetic", "tactile", "verbal", "logical", "social", "solitary"]

  /** `handleStyleToggle`: only the style list is written, through `updateData`. */
  function StyleToggle(d: OnboardingData, styleId: string, checked: bool): (r: OnboardingData)
    ensures r.learningStyle == Toggle(d.learningStyle, styleId, checked)
    ensures r.(learningStyle := d.learningStyle) == d
  {
    Updated(d, SetLearningStyle(Toggle(d.learningStyle, styleId, checked)))
  }

  /** Checking and then unchecking a style that was not chosen restores the record. */
  lemma CheckThenUncheckStyle(d: OnboardingData, styleId: string)
    requires styleId !in d.learningStyle
    ensures StyleToggle(StyleToggle(d, styleId, true), styleId, false) == d
  {
    CheckThenUncheck(d.learningStyle, styleId);
  }

  /** A style's checkbox shows checked when its id is in the list. */
  predicate Checked(d: OnboardingData, styleId: string)
  {
    styleId in d.learningStyle
  }

  /** "Please select at least one learning style to continue." */
  predicate ShowsWarning(d: OnboardingData)
  {
    |d.learningStyle| == 0
  }

  /**
   * Checking a style clears the warning and shows the box checked;
   * unchecking shows it unchecked and raises the warning exactly when no
   * other style was chosen.
   */
  lemma ToggleAndWarning(d: OnboardingData, styleId: string, checked: bool)
    ensures var r := StyleToggle(d, styleId, checked);
      Checked(r, styleId) == checked
      && (checked ==> !ShowsWarning(r))
      && (!checked ==> (ShowsWarning(r) <==> forall i :: 0 <= i < |d.learningStyle| ==> d.learningStyle[i] == styleId))
  {
    var r := StyleToggle(d, styleId, checked);
    if !checked {
      if ShowsWarning(r) {
        forall i | 0 <= i < |d.learningStyle|
          ensures d.learningStyle[i] == styleId
        {
          assert d.learningStyle[i] in d.learningStyle;
        }
      } else {
        assert r.learningStyle[0] in r.learningStyle;
      }
    }
  }
}
