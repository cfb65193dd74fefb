/**
 * The tutorial overlay: five cards walked with Next and Previous; Next on
 * the last card finishes the tutorial, and a closed overlay shows nothing.
 */
module TutorialOverlay {
  import opened Opt

  datatype TutorialStep = TutorialStep(title: string, description: string, targetElement: string, position: string)

  const Steps := [
    TutorialStep("Welcome to Your Learning Platform",
                 "This quick tutorial will help you get familiar with the key features of the platform.",
                 "body", "top"),
    TutorialStep("Import Learning Content",
                 "Use this panel to import content from various sources like text, PDF, or media files.",
                 ".import-panel", "bottom"),
    TutorialStep("Your Content Library",
                 "All your learning materials will appear here. You can filter, sort, and organize them.",
                 ".content-library", "top"),
    TutorialStep("Study with Flashcards",
                 "Click on any content card to start studying with our interactive flashcard system.",
                 ".content-card", "right"),
    TutorialStep("Track Your Progress",
                 "Monitor your learning journey and see how you're improving over time.",
                 ".header-profile", "bottom")]

  const LastStep := |Steps| - 1

  /** What an open overlay shows: the card, whether "Previous" is offered, the next button's text and the lit dot. */
  datatype Card = Card(step: TutorialStep, showPrevious: bool, nextLabel: string, activeDot: nat)

  /** The overlay for step `current`: nothing when closed. */
  function View(open: bool, current: nat): (r: Option<Card>)
    requires current <= LastStep
    ensures !open <==> r.None?
    ensures r.Some? ==> r.value.step == Steps[current] && r.value.activeDot == current
    ensures r.Some? ==> (r.value.nextLabel == "Finish" <==> current == LastStep)
    ensures r.Some? ==> (r.value.showPrevious <==> current > 0)
  {
    if !open then None
    else Some(Card(Steps[current], current > 0, if current == LastStep then "Finish" else "Next", current))
  }

  class Tutorial {
    var currentStep: int

    predicate Valid()
      reads this
    {
      0 <= currentStep <= LastStep
    }

    constructor()
      ensures Valid() && currentStep == 0
    {
      currentStep := 0;
    }

    /** `handleNext`: the next card below the last; on the last card the tutorial completes and the card stays. */
    method Next() returns (completed: bool)
      requires Valid()
      modifies this
      ensures Valid()
      ensures completed <==> old(currentStep) == LastStep
      ensures currentStep == if completed then old(currentStep) else old(currentStep) + 1
    {
      if currentStep < LastStep {
        currentStep := currentStep + 1;
        completed := false;
      } else {
        completed := true;
      }
    }

    /** `handlePrevious`: one card back, except on the first card. */
    method Previous()
      requires Valid()
      modifies this
      ensures Valid()
      ensures currentStep == if old(currentStep) > 0 then old(currentStep) - 1 else 0
    {
      if currentStep > 0 {
        currentStep := currentStep - 1;
      }
    }
  }
}
