/** The onboarding walkthrough: five steps shown one at a time, left by Skip, Next or Get Started. */
module Onboarding {
  /** A step of the walkthrough (its icon and colour are display data). */
  datatype OnboardingStep = OnboardingStep(id: nat, title: string, description: string)

  /** `onboardingSteps`. */
  const Steps: seq<OnboardingStep> := [
    OnboardingStep(1, "Welcome to CleanSort", "Your smart companion for waste management and disposal reminders"),
    OnboardingStep(2, "Scan Receipts", "Take a photo of your receipt to automatically add items to your inventory"),
    OnboardingStep(3, "Add Items Manually", "Manually add items with custom quantities and disposal intervals"),
    OnboardingStep(4, "Get Disposal Guides", "Access location-specific disposal guides and recycling tips"),
    OnboardingStep(5, "Set Reminders", "Never miss disposal dates with smart reminders and notifications")]

  /** The index of the last step. */
  const LastStep: nat := |Steps| - 1

  /** The buttons under a step: Skip and Next before the last step, Get Started on it. */
  datatype Actions = SkipAndNext | GetStarted

  /** How a step's dot is drawn: the current one, one already passed, or one still ahead. */
  datatype Dot = Current | Passed | Ahead

  /** The buttons offered on step `step`. */
  function ActionsAt(step: nat): (a: Actions)
    ensures a == SkipAndNext <==> step < LastStep
    ensures a == GetStarted <==> step >= LastStep
  {
    if step < |Steps| - 1 then SkipAndNext else GetStarted
  }

  /** The dot of step `index` while step `step` is shown. */
  function DotAt(index: nat, step: nat): Dot {
    if index == step then Current else if index < step then Passed else Ahead
  }

  /** Exactly one dot is drawn as current: the shown step's. */
  lemma OneCurrentDot(step: nat)
    requires step < |Steps|
    ensures forall index :: 0 <= index < |Steps| ==> (DotAt(index, step) == Current <==> index == step)
    ensures forall index :: 0 <= index < |Steps| && DotAt(index, step) == Passed ==> index < step
  {
  }

  /** The step Next leads to from `step`, or none when Next finishes the walkthrough. */
  function NextStep(step: nat): (r: Advance)
    ensures r.To? <==> step < LastStep
    ensures r.To? ==> r.step == step + 1
  {
    if step < |Steps| - 1 then To(step + 1) else Finish
  }

  /** Where Next leads: to another step, or out of the walkthrough. */
  datatype Advance = To(step: nat) | Finish

  /** Pressing Next from the first step reaches the last step after four presses and finishes on the fifth. */
  lemma NextWalksThroughSteps()
    ensures LastStep == 4
    ensures forall n :: 0 <= n < LastStep ==> NextStep(n) == To(n + 1)
    ensures NextStep(LastStep) == Finish
  {
  }

  /** The walkthrough's state. `completed` records that `onComplete` has been scheduled. */
  class OnboardingFlow {
    var currentStep: nat
    var isVisible: bool
    var completed: bool

    /** The shown step is always one of the five. */
    predicate Valid()
      reads this`currentStep
    {
      currentStep < |Steps|
    }

    constructor()
      ensures currentStep == 0 && !isVisible && !completed && Valid()
    {
      currentStep := 0;
      isVisible := false;
      completed := false;
    }

    /** The start-up delay has passed: the walkthrough appears. */
    method Appear()
      modifies this`isVisible
      ensures isVisible
    {
      isVisible := true;
    }

    /** The step on screen, or none while the walkthrough is hidden. */
    function Shown(): (r: seq<OnboardingStep>)
      requires Valid()
      reads this`currentStep, this`isVisible
      ensures |r| <= 1
      ensures isVisible ==> r == [Steps[currentStep]]
    {
      if isVisible then [Steps[currentStep]] else []
    }

    /** `handleComplete`: the walkthrough hides and `onComplete` is scheduled. */
    method HandleComplete()
      modifies this`isVisible, this`completed
      ensures !isVisible && completed
    {
      isVisible := false;
      completed := true;
    }

    /** `handleSkip`: finishes from any step, which stays as it was. */
    method HandleSkip()
      modifies this`isVisible, this`completed
      ensures !isVisible && completed
    {
      HandleComplete();
    }

    /** `handleNext`: the next step, or on the last step the end of the walkthrough. */
    method HandleNext()
      requires Valid()
      modifies this`currentStep, this`isVisible, this`completed
      ensures Valid()
      ensures NextStep(old(currentStep)).To? ==> currentStep == NextStep(old(currentStep)).step
      ensures old(currentStep) < LastStep ==>
        currentStep == old(currentStep) + 1 && isVisible == old(isVisible) && completed == old(completed)
      ensures old(currentStep) == LastStep ==> currentStep == old(currentStep) && !isVisible && completed
    {
      if currentStep < |Steps| - 1 {
        currentStep := currentStep + 1;
      } else {
        HandleComplete();
      }
    }

    /** The buttons under the shown step. */
    function Offered(): Actions
      reads this`currentStep
    {
      ActionsAt(currentStep)
    }
  }
}
