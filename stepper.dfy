/**
 * The progress stepper of the campaign page (components/OEVVStepper.tsx):
 * four steps, each shown as completed, current or upcoming by comparing
 * positions in the fixed order of the seven statuses.
 */
module Stepper {
  import opened Types

  datatype StepState = Completed | Current | Upcoming

  datatype Step = Step(id: CampaignStatus, title: string)

  /** `statusOrder`: the progress order of the statuses. */
  const StatusOrder: seq<CampaignStatus> := [Draft, Observe, Execute, Verify, Validate, Published, CampaignStatus.Completed]

  /** `steps`: the four phases the stepper shows. */
  const Steps: seq<Step> := [
    Step(Observe, "OBSERVE"),
    Step(Execute, "EXECUTE"),
    Step(Verify, "VERIFY"),
    Step(Validate, "VALIDATE")
  ]

  /** `xs.indexOf(x)`: the first position holding `x`, or -1 when there is none. */
  function IndexOf(xs: seq<CampaignStatus>, x: CampaignStatus): (i: int)
    ensures -1 <= i < |xs|
    ensures i >= 0 ==> xs[i] == x && forall k :: 0 <= k < i ==> xs[k] != x
    ensures i == -1 <==> x !in xs
  {
    if xs == [] then -1
    else if xs[0] == x then 0
    else
      var j := IndexOf(xs[1..], x);
      if j == -1 then -1 else j + 1
  }

  /** The position of a status in the progress order: `statusOrder.indexOf(status)`. */
  function Position(s: CampaignStatus): int {
    IndexOf(StatusOrder, s)
  }

  /** The intended rank of each status, spelled out case by case. */
  function Ordinal(s: CampaignStatus): nat {
    match s
    case Draft => 0
    case Observe => 1
    case Execute => 2
    case Verify => 3
    case Validate => 4
    case Published => 5
    case Completed => 6
  }

  /**
   * The progress order lists every status once, in the order of the status
   * type, so the position found by `indexOf` is the status's rank and never -1.
   */
  lemma PositionIsOrdinal(s: CampaignStatus)
    ensures Position(s) == Ordinal(s)
  {
    assert StatusOrder[Ordinal(s)] == s;
    assert forall k :: 0 <= k < |StatusOrder| ==> Ordinal(StatusOrder[k]) == k;
  }

  /** Every status has a position, and different statuses have different positions. */
  lemma PositionIsFaithful(s: CampaignStatus, t: CampaignStatus)
    ensures 0 <= Position(s) < |StatusOrder| && StatusOrder[Position(s)] == s
    ensures Position(s) == Position(t) <==> s == t
  {
    PositionIsOrdinal(s);
    PositionIsOrdinal(t);
  }

  /**
   * `getStepState(stepId)` for the page's `status`: completed when the status
   * is past the step, current exactly when the status is the step, upcoming
   * when the status has not reached it.
   */
  function GetStepState(status: CampaignStatus, stepId: CampaignStatus): (r: StepState)
    ensures r == StepState.Completed <==> Ordinal(status) > Ordinal(stepId)
    ensures r == Current <==> status == stepId
    ensures r == Upcoming <==> Ordinal(status) < Ordinal(stepId)
  {
    PositionIsOrdinal(status);
    PositionIsOrdinal(stepId);
    var currentIndex := Position(status);
    var stepIndex := Position(stepId);
    if currentIndex > stepIndex then StepState.Completed
    else if currentIndex == stepIndex then Current
    else Upcoming
  }

  /** The steps are the statuses strictly between `draft` and `published`, in progress order. */
  lemma StepsAreThePhases()
    ensures |Steps| == 4
    ensures forall i :: 0 <= i < |Steps| ==> Steps[i].id == StatusOrder[i + 1]
    ensures [Steps[0].title, Steps[1].title, Steps[2].title, Steps[3].title] == ["OBSERVE", "EXECUTE", "VERIFY", "VALIDATE"]
  {
  }

  /** The i-th step is the status of rank i + 1. */
  lemma StepOrdinals()
    ensures forall i :: 0 <= i < |Steps| ==> Ordinal(Steps[i].id) == i + 1
  {
  }

  /**
   * At most one step is current, and one is exactly when the status is one of
   * the four phases: the step whose id is the status.
   */
  lemma {:induction false} AtMostOneCurrent(status: CampaignStatus)
    ensures forall i, j :: (0 <= i < |Steps| && 0 <= j < |Steps| &&
      GetStepState(status, Steps[i].id) == Current && GetStepState(status, Steps[j].id) == Current) ==> i == j
    ensures forall i :: 0 <= i < |Steps| ==> (GetStepState(status, Steps[i].id) == Current <==> Steps[i].id == status)
    ensures (exists i :: 0 <= i < |Steps| && GetStepState(status, Steps[i].id) == Current) <==>
      status in {Observe, Execute, Verify, Validate}
  {
    StepOrdinals();
    if status in {Observe, Execute, Verify, Validate} {
      var i := Ordinal(status) - 1;
      assert Steps[i].id == status;
    }
  }

  /** At `draft` every step is upcoming; at `published` and at `completed` every step is completed. */
  lemma {:induction false} EndsOfTheOrder()
    ensures forall i :: 0 <= i < |Steps| ==> GetStepState(Draft, Steps[i].id) == Upcoming
    ensures forall i :: 0 <= i < |Steps| ==> GetStepState(Published, Steps[i].id) == StepState.Completed
    ensures forall i :: 0 <= i < |Steps| ==> GetStepState(CampaignStatus.Completed, Steps[i].id) == StepState.Completed
  {
    StepOrdinals();
  }

  /** How far along a step is shown: upcoming, then current, then completed. */
  function Progress(s: StepState): nat {
    if s == Upcoming then 0 else if s == Current then 1 else 2
  }

  /**
   * Advancing the status never moves a step backwards; in particular a
   * completed step stays completed.
   */
  lemma {:induction false} AdvancingIsMonotone(before: CampaignStatus, after: CampaignStatus, stepId: CampaignStatus)
    requires Position(before) <= Position(after)
    ensures Progress(GetStepState(before, stepId)) <= Progress(GetStepState(after, stepId))
    ensures GetStepState(before, stepId) == StepState.Completed ==> GetStepState(after, stepId) == StepState.Completed
  {
    PositionIsOrdinal(before);
    PositionIsOrdinal(after);
  }
}
