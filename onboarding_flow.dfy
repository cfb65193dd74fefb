/**
 * The onboarding wizard: nine steps walked with Continue and Back, one data
 * record the steps fill in field by field, and a progress bar.
 */
module OnboardingFlow {
  import opened Opt
  import opened Seqs

  /** The answers collected across the steps. */
  datatype OnboardingData = OnboardingData(
    occupation: string, topic: string, timeAvailability: string, learningStyle: seq<string>,
    learningPreferences: seq<string>, learningEnvironment: string, goals: string)

  const EmptyData := OnboardingData("", "", "", [], [], "", "")

  const StepNames := ["Welcome", "Occupation", "Topic", "Time", "Style", "Preferences", "Environment", "Goals", "Summary"]

  /** The index of the last step. */
  const LastStep := |StepNames| - 1

  /** One call of `updateData`: the field and its new value. */
  datatype FieldUpdate =
    | SetOccupation(text: string)
    | SetTopic(text: string)
    | SetTimeAvailability(text: string)
    | SetLearningStyle(ids: seq<string>)
    | SetLearningPreferences(ids: seq<string>)
    | SetLearningEnvironment(text: string)
    | SetGoals(text: string)

  /** `{ ...data, [field]: value }`: the named field takes the value and every other field is kept. */
  function Updated(d: OnboardingData, u: FieldUpdate): (r: OnboardingData)
    ensures u.SetOccupation? ==> r == d.(occupation := u.text)
    ensures u.SetTopic? ==> r == d.(topic := u.text)
    ensures u.SetTimeAvailability? ==> r == d.(timeAvailability := u.text)
    ensures u.SetLearningStyle? ==> r == d.(learningStyle := u.ids)
    ensures u.SetLearningPreferences? ==> r == d.(learningPreferences := u.ids)
    ensures u.SetLearningEnvironment? ==> r == d.(learningEnvironment := u.text)
    ensures u.SetGoals? ==> r == d.(goals := u.text)
  {
    match u
    case SetOccupation(t) => d.(occupation := t)
    case SetTopic(t) => d.(topic := t)
    case SetTimeAvailability(t) => d.(timeAvailability := t)
    case SetLearningStyle(ids) => d.(learningStyle := ids)
    case SetLearningPreferences(ids) => d.(learningPreferences := ids)
    case SetLearningEnvironment(t) => d.(learningEnvironment := t)
    case SetGoals(t) => d.(goals := t)
  }

  /** The field an update writes. */
  function FieldOf(u: FieldUpdate): nat
  {
    match u
    case SetOccupation(_) => 0
    case SetTopic(_) => 1
    case SetTimeAvailability(_) => 2
    case SetLearningStyle(_) => 3
    case SetLearningPreferences(_) => 4
    case SetLearningEnvironment(_) => 5
    case SetGoals(_) => 6
  }

  /** Updates of different fields commute, and a later update of the same field wins. */
  lemma UpdatesCommute(d: OnboardingData, u: FieldUpdate, v: FieldUpdate)
    ensures FieldOf(u) != FieldOf(v) ==> Updated(Updated(d, u), v) == Updated(Updated(d, v), u)
    ensures FieldOf(u) == FieldOf(v) ==> Updated(Updated(d, u), v) == Updated(d, v)
  {
  }

  /**
   * `list.push` on a copy when checked, `filter` of every other id when
   * unchecked: the list both checkbox steps write back.
   */
  function Toggle(ids: seq<string>, id: string, checked: bool): (r: seq<string>)
    ensures checked ==> r == ids + [id]
    ensures !checked ==> id !in r && forall x :: x in r <==> x in ids && x != id
  {
    if checked then ids + [id] else Filter(ids, x => x != id)
  }

  /** Unchecking works piecewise, so the remaining ids keep their order. */
  lemma UncheckKeepsOrder(a: seq<string>, b: seq<string>, id: string)
    ensures Toggle(a + b, id, false) == Toggle(a, id, false) + Toggle(b, id, false)
  {
    FilterConcat(a, b, x => x != id);
  }

  /** Unchecking an id that is not in the list changes nothing. */
  lemma UncheckAbsent(ids: seq<string>, id: string)
    requires id !in ids
    ensures Toggle(ids, id, false) == ids
  {
    FilterKeepsAll(ids, x => x != id);
  }

  /** Checking and then unchecking an id that was not in the list gives the list back. */
  lemma CheckThenUncheck(ids: seq<string>, id: string)
    requires id !in ids
    ensures Toggle(Toggle(ids, id, true), id, false) == ids
  {
    UncheckKeepsOrder(ids, [id], id);
    UncheckAbsent(ids, id);
    assert Filter([id], x => x != id) == [];
  }

  /** `Math.round(step / 8 * 100)`; the quotient is exact in binary, and halves round up. */
  function Progress(step: nat): (p: nat)
    ensures step == 0 ==> p == 0
    ensures step == LastStep ==> p == 100
  {
    (step * 100 + 4) / 8
  }

  /** Each step shows strictly more progress than the one before. */
  lemma ProgressIncreases(s: nat, t: nat)
    requires s < t
    ensures Progress(s) < Progress(t)
  {
    var a, b := s * 100 + 4, t * 100 + 4;
    assert b >= a + 100;
    assert a < (a / 8 + 1) * 8;
    assert (a / 8 + 1) * 8 <= b;
  }

  class Flow {
    var currentStep: int
    var data: OnboardingData

    /** The step is always one of the nine. */
    predicate Valid()
      reads this
    {
      0 <= currentStep <= LastStep
    }

    constructor()
      ensures Valid() && currentStep == 0 && data == EmptyData
    {
      currentStep := 0;
      data := EmptyData;
    }

    /** The header: the step's name and "Step n of 9". */
    function StepName(): string
      requires Valid()
      reads this
    {
      StepNames[currentStep]
    }

    method UpdateData(u: FieldUpdate)
      requires Valid()
      modifies this
      ensures Valid() && data == Updated(old(data), u) && currentStep == old(currentStep)
    {
      data := Updated(data, u);
    }

    /** `handleNext`: the next step below the last; on the last step the data is handed over and the step stays. */
    method Next() returns (completed: Option<OnboardingData>)
      requires Valid()
      modifies this
      ensures Valid() && data == old(data)
      ensures old(currentStep) < LastStep ==> currentStep == old(currentStep) + 1 && completed == None
      ensures old(currentStep) == LastStep ==> currentStep == LastStep && completed == Some(data)
    {
      if currentStep < LastStep {
        currentStep := currentStep + 1;
        completed := None;
      } else {
        completed := Some(data);
      }
    }

    /** `handleBack`: one step back, except on the first step. */
    method Back()
      requires Valid()
      modifies this
      ensures Valid() && data == old(data)
      ensures currentStep == if old(currentStep) > 0 then old(currentStep) - 1 else 0
    {
      if currentStep > 0 {
        currentStep := currentStep - 1;
      }
    }
  }
}
