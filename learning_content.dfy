/**
 * The study material the schedule views attach to an event and hand to the
 * study pages: a flashcard set, a quiz, a game or a chat session, together
 * with the one-item stub each schedule dialog installs when a learning method
 * is chosen.
 */
module LearningContent {
  import opened Opt

  datatype Card = Card(front: string, back: string)
  datatype Question = Question(question: string, options: seq<string>, answer: int)
  datatype Level = Level(name: string, points: int, challenges: int)
  datatype Challenge = Challenge(name: string, description: string)

  datatype Content =
    | FlashcardSet(title: string, cards: seq<Card>)
    | QuizSet(title: string, questions: seq<Question>)
    | GameSet(title: string, description: string, levels: seq<Level>, challenges: seq<Challenge>)
    | ChatSet(title: string, description: string, topics: seq<string>, sampleQuestions: seq<string>)

  /** The learning method of a schedule event. */
  datatype Method = Flashcards | Quizzes | Game | Chat

  /** The route segment and select value of each method. */
  function MethodName(m: Method): string
  {
    match m
    case Flashcards => "flashcards"
    case Quizzes => "quizzes"
    case Game => "game"
    case Chat => "chat"
  }

  /** The content constructor that belongs to method `m`. */
  predicate Fits(m: Method, c: Content)
  {
    match m
    case Flashcards => c.FlashcardSet?
    case Quizzes => c.QuizSet?
    case Game => c.GameSet?
    case Chat => c.ChatSet?
  }

  /** A question whose answer index points at one of its options. */
  predicate WellAnswered(q: Question)
  {
    0 <= q.answer < |q.options|
  }

  /** The placeholder title of a new item of method `m`. */
  function PlaceholderTitle(m: Method): string
  {
    match m
    case Flashcards => "New Flashcard Set"
    case Quizzes => "New Quiz"
    case Game => "New Game"
    case Chat => "New Chat Session"
  }

  /** `a || b` on strings: the first one unless it is empty. */
  function OrElse(a: string, b: string): (r: string)
    ensures a != "" ==> r == a
    ensures a == "" ==> r == b
  {
    if a != "" then a else b
  }

  /**
   * The stub content a schedule dialog installs for method `m`; `title` is the
   * event's title (possibly empty), which the placeholder replaces when empty.
   */
  function DefaultContent(m: Method, title: string): (c: Content)
    ensures Fits(m, c)
    ensures c.title == OrElse(title, PlaceholderTitle(m))
    ensures c.FlashcardSet? ==> |c.cards| == 1
    ensures c.QuizSet? ==> |c.questions| == 1 && |c.questions[0].options| == 4
                           && c.questions[0].answer == 0 && WellAnswered(c.questions[0])
    ensures c.GameSet? ==> |c.levels| == 1 && |c.challenges| == 1
    ensures c.ChatSet? ==> |c.topics| == 1 && |c.sampleQuestions| == 1
  {
    var t := OrElse(title, PlaceholderTitle(m));
    match m
    case Flashcards => FlashcardSet(t, [Card("Sample question", "Sample answer")])
    case Quizzes =>
      QuizSet(t, [Question("Sample question", ["Option 1", "Option 2", "Option 3", "Option 4"], 0)])
    case Game =>
      GameSet(t, "Learn through gamification", [Level("Beginner", 0, 1)],
              [Challenge("Challenge 1", "Complete this challenge")])
    case Chat =>
      ChatSet(t, "Learn through conversation", ["Sample topic"], ["What is this topic about?"])
  }

  /** What "Start Learning" hands to the study page: the route of the method and the content. */
  datatype Handoff = Handoff(route: string, content: Content)

  /**
   * `handleStartLearning` of both schedule views: an event starts learning
   * only when it has both a learning method and content, and then navigates
   * to "/" + the method's name carrying exactly that content.
   */
  function StartHandoff(m: Option<Method>, content: Option<Content>): (r: Option<Handoff>)
    ensures r.Some? <==> m.Some? && content.Some?
    ensures r.Some? ==> r.value.route == "/" + MethodName(m.value) && r.value.content == content.value
  {
    if m.Some? && content.Some? then Some(Handoff("/" + MethodName(m.value), content.value)) else None
  }

  /** The routes of the four methods differ, so the route determines the method. */
  lemma RoutesDistinct(m1: Method, m2: Method)
    ensures "/" + MethodName(m1) == "/" + MethodName(m2) ==> m1 == m2
  {
    if "/" + MethodName(m1) == "/" + MethodName(m2) {
      assert MethodName(m1) == ("/" + MethodName(m1))[1..];
      assert MethodName(m2) == ("/" + MethodName(m2))[1..];
      assert MethodName(m1)[0] == MethodName(m2)[0];
    }
  }
}
