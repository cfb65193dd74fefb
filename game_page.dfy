/**
 * The game page: challenges that are completed once each for 50 points, and
 * the level that rises when the points reach the next level's threshold.
 */
module GamePage {
  import opened LearningContent

  /** A challenge with its completion flag. */
  datatype ChallengeState = ChallengeState(name: string, description: string, completed: bool)

  /** The points one completed challenge earns. */
  const PointsPerChallenge := 50

  /** The progress of a game: level index, points, challenges and completed indices in order. */
  datatype GameState = GameState(level: nat, points: int, challenges: seq<ChallengeState>, completed: seq<nat>)

  /** Opening a game: every challenge starts uncompleted, at level 0 with no points. */
  function Start(content: seq<Challenge>): (s: GameState)
    ensures s.level == 0 && s.points == 0 && s.completed == [] && |s.challenges| == |content|
    ensures forall i :: 0 <= i < |content| ==>
      !s.challenges[i].completed && s.challenges[i].name == content[i].name
      && s.challenges[i].description == content[i].description
  {
    GameState(0, 0, seq(|content|, i requires 0 <= i < |content| =>
                          ChallengeState(content[i].name, content[i].description, false)), [])
  }

  /**
   * The consistency of a game state: points are 50 per completed challenge,
   * the completed list has no repeats and names existing challenges, the
   * flags agree with it, and the level is an index of `levels` (or 0).
   */
  predicate Consistent(levels: seq<Level>, s: GameState)
  {
    s.points == PointsPerChallenge * |s.completed|
    && (forall a, b :: 0 <= a < b < |s.completed| ==> s.completed[a] != s.completed[b])
    && (forall k :: 0 <= k < |s.completed| ==> s.completed[k] < |s.challenges|)
    && (forall i :: 0 <= i < |s.challenges| ==> (s.challenges[i].completed <==> i in s.completed))
    && (s.level == 0 || s.level < |levels|)
  }

  lemma StartConsistent(levels: seq<Level>, content: seq<Challenge>)
    ensures Consistent(levels, Start(content))
  {
  }

  /**
   * The level after reaching `points`: the next one when there is a next one
   * and the points reach its threshold, otherwise the same.
   */
  function LevelAfter(levels: seq<Level>, level: nat, points: int): (r: nat)
    ensures r == level || r == level + 1
    ensures r == level + 1 <==> level < |levels| - 1 && points >= levels[level + 1].points
  {
    if level < |levels| - 1 && points >= levels[level + 1].points then level + 1 else level
  }

  /** More points never give a lower level. */
  lemma LevelAfterMonotone(levels: seq<Level>, level: nat, p: int, q: int)
    requires p <= q
    ensures LevelAfter(levels, level, p) <= LevelAfter(levels, level, q)
  {
  }

  /**
   * `handleCompleteChallenge(i)`: a challenge already completed changes
   * nothing; otherwise it is appended to the completed list, flagged, worth
   * 50 points, and the level is re-evaluated once.
   */
  function CompleteChallenge(levels: seq<Level>, s: GameState, i: nat): (r: GameState)
    requires i < |s.challenges|
    ensures i in s.completed ==> r == s
    ensures i !in s.completed ==>
      r.completed == s.completed + [i] && r.points == s.points + PointsPerChallenge
      && |r.challenges| == |s.challenges| && r.challenges[i].completed
      && (forall j :: 0 <= j < |s.challenges| && j != i ==> r.challenges[j] == s.challenges[j])
      && r.level == LevelAfter(levels, s.level, r.points)
  {
    if i in s.completed then s
    else
      var points := s.points + PointsPerChallenge;
      GameState(LevelAfter(levels, s.level, points), points,
                s.challenges[i := s.challenges[i].(completed := true)], s.completed + [i])
  }

  /** Completing keeps the state consistent. */
  lemma CompleteConsistent(levels: seq<Level>, s: GameState, i: nat)
    requires Consistent(levels, s) && i < |s.challenges|
    ensures Consistent(levels, CompleteChallenge(levels, s, i))
  {
    var r := CompleteChallenge(levels, s, i);
    if i !in s.completed {
      forall j | 0 <= j < |r.challenges|
        ensures r.challenges[j].completed <==> j in r.completed
      {
        assert j in r.completed <==> j in s.completed || j == i;
      }
    }
  }

  /** Completing the same challenge twice is the same as once. */
  lemma CompleteIdempotent(levels: seq<Level>, s: GameState, i: nat)
    requires i < |s.challenges|
    ensures CompleteChallenge(levels, CompleteChallenge(levels, s, i), i) == CompleteChallenge(levels, s, i)
  {
  }

  /** The level never falls and rises by at most one per completion. */
  lemma CompleteLevel(levels: seq<Level>, s: GameState, i: nat)
    requires i < |s.challenges|
    ensures var r := CompleteChallenge(levels, s, i); s.level <= r.level <= s.level + 1
  {
  }

  /** The level name the finish report carries: the current level's, or "Beginner". */
  function LevelName(levels: seq<Level>, level: nat): (name: string)
    ensures level < |levels| && levels[level].name != "" ==> name == levels[level].name
    ensures level >= |levels| || levels[level].name == "" ==> name == "Beginner"
  {
    if level < |levels| && levels[level].name != "" then levels[level].name else "Beginner"
  }

  /** What `handleComplete` hands back to the home page. */
  datatype GameReport = GameReport(studyType: string, contentTitle: string, points: int,
                                   level: string, completedChallenges: nat)

  /** The state of the game page. */
  class GameSession {
    const title: string
    const levels: seq<Level>
    var level: nat
    var points: int
    var challenges: seq<ChallengeState>
    var completed: seq<nat>

    function State(): GameState
      reads this
    {
      GameState(level, points, challenges, completed)
    }

    predicate Valid()
      reads this
    {
      Consistent(levels, State())
    }

    constructor(title: string, levels: seq<Level>, content: seq<Challenge>)
      ensures Valid() && this.title == title && this.levels == levels
      ensures State() == Start(content)
    {
      this.title := title;
      this.levels := levels;
      level := 0;
      points := 0;
      challenges := seq(|content|, i requires 0 <= i < |content| =>
                          ChallengeState(content[i].name, content[i].description, false));
      completed := [];
    }

    /** The "complete" button of challenge `index`. */
    method CompleteChallengeAt(index: nat)
      requires Valid() && index < |challenges|
      modifies this
      ensures Valid()
      ensures State() == CompleteChallenge(levels, old(State()), index)
    {
      if index !in completed {
        completed := completed + [index];
        challenges := challenges[index := challenges[index].(completed := true)];
        var newPoints := points + PointsPerChallenge;
        points := newPoints;
        if level < |levels| - 1 && newPoints >= levels[level + 1].points {
          level := level + 1;
        }
      }
      CompleteConsistent(levels, old(State()), index);
    }

    /** `handleComplete`. */
    method Finish() returns (report: GameReport)
      ensures report == GameReport("gamification", title, points, LevelName(levels, level), |completed|)
    {
      report := GameReport("gamification", title, points, LevelName(levels, level), |completed|);
    }
  }
}
