/**
 * The summary step: every answer of the onboarding record as a display
 * line, with ids turned into their labels and "Not specified" for an
 * answer that was not given.
 */
module SummaryStep {
  import opened Text
  import opened OnboardingFlow
  import LearningStyleStep
  import LearningPreferencesStep

  const NotSpecified := "Not specified"

  const StyleLabels: map<string, string> := map[
    "visual" := "Visual", "auditory" := "Auditory", "reading" := "Reading/Writing",
    "kinesthetic" := "Kinesthetic", "tactile" := "Tactile", "verbal" := "Verbal",
    "logical" := "Logical", "social" := "Social", "solitary" := "Solitary"]

  const PreferenceLabels: map<string, string> := map[
    "short-sessions" := "Short, frequent sessions", "long-sessions" := "Longer, deeper sessions",
    "structured" := "Structured learning", "exploratory" := "Exploratory learning",
    "practical" := "Practical applications", "theoretical" := "Theoretical understanding"]

  const EnvironmentLabels: map<string, string> := map[
    "quiet" := "Quiet environment", "ambient" := "Ambient background", "outdoors" := "Outdoors or nature",
    "public" := "Public spaces", "flexible" := "Flexible environments"]

  const TimeLabels: map<string, string> := map[
    "<15min" := "Less than 15 minutes per day", "15-30min" := "15-30 minutes per day",
    "30-60min" := "30-60 minutes per day", ">60min" := "More than 60 minutes per day",
    "weekends" := "Mostly weekends", "irregular" := "Irregular schedule"]

  /** `table[key] || key`: the label of a known key, and an unknown key as it is. */
  function Label(table: map<string, string>, key: string): (r: string)
    ensures key in table && table[key] != "" ==> r == table[key]
    ensures !(key in table && table[key] != "") ==> r == key
  {
    if key in table && table[key] != "" then table[key] else key
  }

  /** `keys.map(k => table[k] || k)`. */
  function Labels(table: map<string, string>, keys: seq<string>): (r: seq<string>)
    ensures |r| == |keys| && forall i :: 0 <= i < |keys| ==> r[i] == Label(table, keys[i])
  {
    seq(|keys|, i requires 0 <= i < |keys| => Label(table, keys[i]))
  }

  /** The list formatter both list answers use: "Not specified" for none, otherwise the labels joined by ", ". */
  function FormatList(table: map<string, string>, ids: seq<string>): (r: string)
    ensures ids == [] ==> r == NotSpecified
    ensures |ids| == 1 ==> r == Label(table, ids[0])
  {
    if |ids| == 0 then NotSpecified else Join(Labels(table, ids), ", ")
  }

  /** One more id adds ", " and its label at the end. */
  lemma FormatListAppend(table: map<string, string>, ids: seq<string>, id: string)
    requires ids != []
    ensures FormatList(table, ids + [id]) == FormatList(table, ids) + ", " + Label(table, id)
  {
    assert Labels(table, ids + [id]) == Labels(table, ids) + [Label(table, id)];
    JoinAppend(Labels(table, ids), ", ", Label(table, id));
  }

  function FormatLearningStyles(styles: seq<string>): string
  {
    FormatList(StyleLabels, styles)
  }

  function FormatLearningPreferences(preferences: seq<string>): string
  {
    FormatList(PreferenceLabels, preferences)
  }

  /** `formatLearningEnvironment`: the empty answer is "Not specified", otherwise its label or itself. */
  function FormatLearningEnvironment(environment: string): (r: string)
    ensures environment == "" ==> r == NotSpecified
    ensures environment in EnvironmentLabels ==> r == EnvironmentLabels[environment]
    ensures environment != "" && environment !in EnvironmentLabels ==> r == environment
  {
    if environment == "" then NotSpecified else Label(EnvironmentLabels, environment)
  }

  /** `formatTimeAvailability`: a known value's label, or the value itself. */
  function FormatTimeAvailability(time: string): (r: string)
    ensures time in TimeLabels ==> r == TimeLabels[time]
    ensures time !in TimeLabels ==> r == time
  {
    Label(TimeLabels, time)
  }

  /** `text || "Not specified"`. */
  function OrNotSpecified(text: string): (r: string)
    ensures r != ""
    ensures text != "" ==> r == text
  {
    if text == "" then NotSpecified else text
  }

  /** The seven lines of the summary. */
  datatype Summary = Summary(
    occupation: string, topic: string, timeAvailability: string, learningStyles: string,
    learningPreferences: string, learningEnvironment: string, goals: string)

  function SummaryOf(d: OnboardingData): (s: Summary)
    ensures d.occupation == "" ==> s.occupation == NotSpecified
    ensures d.occupation != "" ==> s.occupation == d.occupation
    ensures d.topic == "" ==> s.topic == NotSpecified
    ensures d.topic != "" ==> s.topic == d.topic
    ensures d.goals == "" ==> s.goals == NotSpecified
    ensures d.goals != "" ==> s.goals == d.goals
    ensures d.timeAvailability == "" ==> s.timeAvailability == NotSpecified
    ensures d.timeAvailability != "" ==> s.timeAvailability == FormatTimeAvailability(d.timeAvailability)
    ensures d.learningStyle == [] ==> s.learningStyles == NotSpecified
    ensures d.learningStyle != [] ==> s.learningStyles == Join(Labels(StyleLabels, d.learningStyle), ", ")
    ensures d.learningPreferences == [] ==> s.learningPreferences == NotSpecified
    ensures d.learningPreferences != [] ==>
      s.learningPreferences == Join(Labels(PreferenceLabels, d.learningPreferences), ", ")
    ensures s.learningEnvironment == FormatLearningEnvironment(d.learningEnvironment)
  {
    Summary(OrNotSpecified(d.occupation), OrNotSpecified(d.topic),
            if d.timeAvailability != "" then FormatTimeAvailability(d.timeAvailability) else NotSpecified,
            FormatLearningStyles(d.learningStyle), FormatLearningPreferences(d.learningPreferences),
            FormatLearningEnvironment(d.learningEnvironment), OrNotSpecified(d.goals))
  }

  /** An empty record shows "Not specified" on every line. */
  lemma EmptyRecordSummary()
    ensures SummaryOf(EmptyData) == Summary(NotSpecified, NotSpecified, NotSpecified, NotSpecified,
                                            NotSpecified, NotSpecified, NotSpecified)
  {
  }

  /**
   * The joined text does not always tell the answers apart: one preference
   * whose label holds ", " reads like two unknown ids.
   */
  lemma PreferencesAmbiguous()
    ensures FormatLearningPreferences(["short-sessions"]) == FormatLearningPreferences(["Short", "frequent sessions"])
  {
    ShortSessionsLine();
    UnknownPairLine("Short", "frequent sessions");
  }

  /** The line of the one preference "short-sessions" is its label. */
  lemma ShortSessionsLine()
    ensures FormatLearningPreferences(["short-sessions"]) == "Short" + ", " + "frequent sessions"
  {
    ShortSessionsLabel();
    LabelSplits();
  }

  /** The label of "short-sessions" is two words around ", ". */
  lemma LabelSplits()
    ensures "Short" + ", " + "frequent sessions" == "Short, frequent sessions"
  {
  }

  lemma ShortSessionsLabel()
    ensures "short-sessions" in PreferenceLabels && PreferenceLabels["short-sessions"] == "Short, frequent sessions"
  {
  }

  /** Two unknown ids are shown as they are, joined by ", ". */
  lemma UnknownPairLine(a: string, b: string)
    requires |a| !in {9, 10, 11, 13, 14} && |b| !in {9, 10, 11, 13, 14}
    ensures FormatLearningPreferences([a, b]) == a + ", " + b
  {
    UnknownPreferenceLength(a);
    UnknownPreferenceLength(b);
    var labels := Labels(PreferenceLabels, [a, b]);
    assert labels[1..] == [b];
  }

  /** No preference id has the length of a text that is not one. */
  lemma UnknownPreferenceLength(x: string)
    requires |x| !in {9, 10, 11, 13, 14}
    ensures x !in PreferenceLabels
  {
    assert PreferenceLabels.Keys
      == {"short-sessions", "long-sessions", "structured", "exploratory", "practical", "theoretical"};
  }

  /** Every style the style step offers is a key of the label table, and the table holds no other key. */
  lemma OfferedStylesLabelled()
    ensures forall id :: id in LearningStyleStep.StyleIds <==> id in StyleLabels
    ensures forall id :: id in StyleLabels ==> StyleLabels[id] != "" && Label(StyleLabels, id) != id
  {
    assert StyleLabels.Keys == set id | id in LearningStyleStep.StyleIds;
  }

  /** Every preference the preference step offers is a key of the label table, and the table holds no other key. */
  lemma OfferedPreferencesLabelled()
    ensures forall id :: id in LearningPreferencesStep.PreferenceIds <==> id in PreferenceLabels
    ensures forall id :: id in PreferenceLabels ==> PreferenceLabels[id] != "" && Label(PreferenceLabels, id) != id
  {
    assert PreferenceLabels.Keys == set id | id in LearningPreferencesStep.PreferenceIds;
  }
}
