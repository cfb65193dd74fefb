/**
 * The generation step: after "Generate" a progress counter rises by 5 per
 * tick while the loading stage advances at fixed progress marks, and when a
 * tick finds the counter at 100 the canned material of the chosen learning
 * method is handed on.
 */
module ContentGeneration {
  import opened Opt
  import opened Text
  import opened LearningContent

  /** The handed-on payload: the method id, the form fields and the material of that method. */
  datatype Generated = Generated(
    kind: string, description: string, difficulty: string, estimatedTime: Option<int>, material: Content)

  const DefaultTitle := "Your Content"

  const SampleCards := [
    Card("What is HTML?", "HyperText Markup Language"),
    Card("What is CSS?", "Cascading Style Sheets"),
    Card("What is JavaScript?", "A programming language for the web"),
    Card("What is React?", "A JavaScript library for building user interfaces"),
    Card("What is a component?", "A reusable piece of code that returns UI elements")]

  const SampleQuestions := [
    Question("Which language is used for styling web pages?", ["HTML", "CSS", "JavaScript", "Python"], 1),
    Question("Which of the following is NOT a JavaScript framework?", ["React", "Angular", "Vue", "Django"], 3),
    Question("What does API stand for?",
             ["Application Programming Interface", "Automated Program Integration",
              "Advanced Programming Implementation", "Application Process Integration"], 0)]

  const SampleLevels := [Level("Beginner", 100, 3), Level("Intermediate", 200, 5), Level("Advanced", 300, 7)]

  const SampleChallenges := [
    Challenge("HTML Basics", "Complete the HTML structure"),
    Challenge("CSS Styling", "Style the webpage"),
    Challenge("JavaScript Logic", "Add interactivity")]

  const SampleTopics := [
    "Introduction to Web Development", "HTML Structure and Elements", "CSS Styling and Layouts",
    "JavaScript Basics", "Building Interactive Websites"]

  const SampleChatQuestions := [
    "What is the difference between HTML and CSS?", "How do I create a responsive layout?",
    "What are JavaScript event listeners?", "How do I debug my code?"]

  /** The method each known id stands for. */
  function MethodOfId(id: string): Option<Method>
  {
    match id
    case "flashcards" => Some(Flashcards)
    case "quizzes" => Some(Quizzes)
    case "gamification" => Some(Game)
    case "chatting" => Some(Chat)
    case _ => None
  }

  /**
   * The payload for method `id`; an unknown id gives none (`undefined`).
   * The estimated time is `parseInt` of the field, none standing for NaN.
   */
  function Payload(id: string, title: string, description: string, difficulty: string,
                   estimatedTime: string): (r: Option<Generated>)
    ensures r.Some? <==> id in {"flashcards", "quizzes", "gamification", "chatting"}
    ensures r.Some? ==>
      r.value.kind == id && Fits(MethodOfId(id).value, r.value.material) && r.value.material.title == title
      && r.value.description == description && r.value.difficulty == difficulty
      && r.value.estimatedTime == ParseIntPrefix(estimatedTime)
  {
    var minutes := ParseIntPrefix(estimatedTime);
    match id
    case "flashcards" =>
      Some(Generated(id, description, difficulty, minutes, FlashcardSet(title, SampleCards)))
    case "quizzes" =>
      Some(Generated(id, description, difficulty, minutes, QuizSet(title, SampleQuestions)))
    case "gamification" =>
      Some(Generated(id, description, difficulty, minutes,
                     GameSet(title, description, SampleLevels, SampleChallenges)))
    case "chatting" =>
      Some(Generated(id, description, difficulty, minutes,
                     ChatSet(title, description, SampleTopics, SampleChatQuestions)))
    case _ => None
  }

  /** Every canned quiz question's answer index points at one of its four options. */
  lemma SampleQuizWellAnswered(id: string, title: string, description: string, difficulty: string,
                               estimatedTime: string)
    ensures var r := Payload(id, title, description, difficulty, estimatedTime);
      r.Some? && r.value.material.QuizSet? ==>
        |r.value.material.questions| == 3
        && forall i :: 0 <= i < 3 ==> WellAnswered(r.value.material.questions[i])
                                      && |r.value.material.questions[i].options| == 4
  {
  }

  /**
   * The loading stage shown once every tick before progress `p` has run,
   * starting from 0: stage 1 is set at 30, stage 2 at 60 and stage 3 at 85.
   */
  function StageBefore(p: int): (stage: int)
    ensures 0 <= stage <= 3
  {
    if p <= 30 then 0 else if p <= 60 then 1 else if p <= 85 then 2 else 3
  }

  /** Progress only rises, so the stages are visited in increasing order. */
  lemma StagesInOrder(p: int, q: int)
    requires p <= q
    ensures StageBefore(p) <= StageBefore(q)
  {
  }

  class Generator {
    const methodId: string
    var title: string
    var description: string
    var difficulty: string
    var estimatedTime: string
    var isGenerating: bool
    var generationProgress: int
    var loadingStage: int

    /**
     * Between two handler runs nothing is generating and the progress is
     * either untouched or full; the form is hidden while generating, so
     * "Generate" cannot be pressed then.
     */
    predicate Valid()
      reads this
    {
      !isGenerating && (generationProgress == 0 || generationProgress == 100) && 0 <= loadingStage <= 3
    }

    /** `contentTitle` defaults to "Your Content" only when it is absent, not when it is empty. */
    constructor(methodId: string, contentTitle: Option<string>)
      ensures Valid() && this.methodId == methodId && title == contentTitle.GetOr(DefaultTitle)
      ensures description == "" && difficulty == "medium" && estimatedTime == "15"
      ensures generationProgress == 0 && loadingStage == 0
    {
      this.methodId := methodId;
      title := contentTitle.GetOr(DefaultTitle);
      description := "";
      difficulty := "medium";
      estimatedTime := "15";
      isGenerating := false;
      generationProgress := 0;
      loadingStage := 0;
    }

    /** The form fields: title, description, difficulty and estimated minutes. */
    method Edit(newTitle: string, newDescription: string, newDifficulty: string, newEstimatedTime: string)
      requires Valid()
      modifies this
      ensures Valid()
      ensures title == newTitle && description == newDescription && difficulty == newDifficulty
      ensures estimatedTime == newEstimatedTime
      ensures generationProgress == old(generationProgress) && loadingStage == old(loadingStage)
    {
      title, description, difficulty, estimatedTime := newTitle, newDescription, newDifficulty, newEstimatedTime;
    }

    /**
     * `handleGenerate` with its interval run to the end. From a fresh start
     * the stages 0, 1, 2 and 3 are set in that order and the payload follows
     * the tick that finds 100. The counter is not reset, so a second run
     * finds 100 on its first tick and hands the payload on at stage 0.
     */
    method Generate() returns (payload: Option<Generated>)
      requires Valid()
      modifies this
      ensures Valid() && generationProgress == 100
      ensures loadingStage == (if old(generationProgress) == 0 then 3 else 0)
      ensures payload == Payload(methodId, title, description, difficulty, estimatedTime)
      ensures title == old(title) && description == old(description) && difficulty == old(difficulty)
      ensures estimatedTime == old(estimatedTime)
    {
      var start := generationProgress;
      isGenerating := true;
      loadingStage := 0;
      payload := None;
      while isGenerating
        invariant 0 <= generationProgress <= 100 && generationProgress % 5 == 0
        invariant start == 100 ==> generationProgress == 100 && loadingStage == 0
        invariant start == 0 && isGenerating ==> loadingStage == StageBefore(generationProgress)
        invariant start == 0 && !isGenerating ==> loadingStage == 3
        invariant !isGenerating ==>
          generationProgress == 100 && payload == Payload(methodId, title, description, difficulty, estimatedTime)
        invariant title == old(title) && description == old(description) && difficulty == old(difficulty)
        invariant estimatedTime == old(estimatedTime)
        decreases 100 - generationProgress, isGenerating
      {
        var prev := generationProgress;
        if prev == 0 {
          loadingStage := 0;
        } else if prev == 30 {
          loadingStage := 1;
        } else if prev == 60 {
          loadingStage := 2;
        } else if prev == 85 {
          loadingStage := 3;
        }
        if prev >= 100 {
          isGenerating := false;
          payload := Payload(methodId, title, description, difficulty, estimatedTime);
          generationProgress := 100;
        } else {
          generationProgress := prev + 5;
        }
      }
    }
  }
}
