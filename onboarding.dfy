/**
 * OnboardingActivity: four fixed steps shown one at a time; "next" moves forward and
 * "back" moves backward, and at either end the flow is left instead.
 */
module Onboarding {
  datatype Step = AnimalType | PetName | Birthday | Purpose

  /** The steps in the order they are shown. */
  const Steps: seq<Step> := [AnimalType, PetName, Birthday, Purpose]

  /** The step after `step`, or `step` itself on the last one. */
  function Forward(step: int, count: int): (r: int)
    requires 0 <= step < count
    ensures 0 <= r < count
    ensures r == step <==> step == count - 1
  {
    if step < count - 1 then step + 1 else step
  }

  /** The step before `step`, or `step` itself on the first one. */
  function Backward(step: int, count: int): (r: int)
    requires 0 <= step < count
    ensures 0 <= r < count
    ensures r == step <==> step == 0
  {
    if step > 0 then step - 1 else step
  }

  /** Going back undoes going forward, and forward undoes back, away from the ends. */
  lemma BackUndoesForward(step: int, count: int)
    requires 0 <= step < count
    ensures step < count - 1 ==> Backward(Forward(step, count), count) == step
    ensures step > 0 ==> Forward(Backward(step, count), count) == step
  {
  }

  /** Below the last step, each press of "next" moves exactly one step on. */
  lemma {:induction false} ForwardWalk(step: int, count: int, presses: nat)
    requires 0 <= step < count && step + presses < count
    ensures Iterate(step, count, presses) == step + presses
    decreases presses
  {
    if presses > 0 {
      ForwardWalk(Forward(step, count), count, presses - 1);
    }
  }

  /** The step after `presses` presses of "next". */
  function Iterate(step: int, count: int, presses: nat): (r: int)
    requires 0 <= step < count
    ensures 0 <= r < count
    decreases presses
  {
    if presses == 0 then step else Iterate(Forward(step, count), count, presses - 1)
  }

  class OnboardingActivity {
    var steps: seq<Step>
    var currentStep: int

    ghost predicate Valid()
      reads this
    {
      steps == Steps && 0 <= currentStep < |steps|
    }

    /** `setupSteps`, with `currentStep` starting on the first step. */
    constructor ()
      ensures Valid() && currentStep == 0 && steps[currentStep] == AnimalType
    {
      steps := Steps;
      currentStep := 0;
    }

    /**
     * `goNext`: advance unless on the last step, where `finishOnboarding` is requested and
     * the step stays.
     */
    method GoNext() returns (finishRequested: bool)
      requires Valid()
      modifies this
      ensures Valid()
      ensures currentStep == Forward(old(currentStep), |Steps|)
      ensures finishRequested <==> old(currentStep) == |Steps| - 1
    {
      if currentStep < |steps| - 1 {
        currentStep := currentStep + 1;
        finishRequested := false;
      } else {
        finishRequested := true;
      }
    }

    /** `goBack`: step back unless on the first step, where the activity is closed and the step stays. */
    method GoBack() returns (closed: bool)
      requires Valid()
      modifies this
      ensures Valid()
      ensures currentStep == Backward(old(currentStep), |Steps|)
      ensures closed <==> old(currentStep) == 0
    {
      if currentStep > 0 {
        currentStep := currentStep - 1;
        closed := false;
      } else {
        closed := true;
      }
    }
  }
}
