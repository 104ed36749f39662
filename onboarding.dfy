/**
 * The onboarding screens of the two mobile apps: a three-step flow
 * (campaign settings, display settings, done) moved by the next and back
 * buttons, and the font-size slider whose value switches on the
 * large-text mode.
 */
module Onboarding {
  import opened Settings

  /** `STEPS.length`. */
  const StepCount := 3
  const LastStep := StepCount - 1

  /** The step after `handleNext`, or none when the last step starts completion instead. */
  function NextStep(step: nat): (r: nat)
    ensures step < LastStep ==> r == step + 1
    ensures step >= LastStep ==> r == step
  {
    if step < LastStep then step + 1 else step
  }

  /** The step after `handleBack`; at step 0 the step stays. */
  function BackStep(step: nat): (r: nat)
    ensures step > 0 ==> r + 1 == step
    ensures step == 0 ==> r == 0
  {
    if step > 0 then step - 1 else 0
  }

  /** Next then back returns to the first two steps; back then next returns from the last two. */
  lemma NextBackRoundTrip(step: nat)
    ensures step < LastStep ==> BackStep(NextStep(step)) == step
    ensures 0 < step <= LastStep ==> NextStep(BackStep(step)) == step
  {
  }

  /** `canProceed()`. */
  function CanProceed(step: int): (b: bool)
    ensures b <==> 0 <= step <= LastStep
  {
    step == 0 || step == 1 || step == 2
  }

  /** What a press of next did. */
  datatype NextOutcome = Advanced | CompletionStarted

  /** What a press of back did. */
  datatype BackOutcome = WentBack | LeftOnboarding | Nothing

  /** The slider: 0.8 to 1.4 in steps of 0.1, in tenths. */
  const SliderMin := 8
  const SliderMax := 14

  class OnboardingFlow {
    var currentStep: nat
    var isLoading: bool
    /** The local slider value of the root app's screen, in tenths (1.0 at first). */
    var fontScale: int

    ghost predicate Valid()
      reads this
    {
      currentStep <= LastStep && SliderMin <= fontScale <= SliderMax
    }

    constructor ()
      ensures Valid() && currentStep == 0 && !isLoading && fontScale == 10
    {
      currentStep, isLoading, fontScale := 0, false, 10;
    }

    /**
     * `handleNext()`: advance, or at the last step start completion (the
     * loading flag goes up; `onComplete` runs after a delay).
     */
    method HandleNext() returns (outcome: NextOutcome)
      requires Valid()
      modifies this
      ensures Valid()
      ensures currentStep == NextStep(old(currentStep)) && fontScale == old(fontScale)
      ensures outcome == CompletionStarted <==> old(currentStep) == LastStep
      ensures outcome == CompletionStarted ==> isLoading
      ensures outcome == Advanced ==> isLoading == old(isLoading)
    {
      if currentStep < LastStep {
        currentStep := currentStep + 1;
        outcome := Advanced;
      } else {
        isLoading := true;
        outcome := CompletionStarted;
      }
    }

    /** `handleBack()`; `hasOnBack` says whether the screen was given `onBack`. */
    method HandleBack(hasOnBack: bool) returns (outcome: BackOutcome)
      requires Valid()
      modifies this
      ensures Valid()
      ensures currentStep == BackStep(old(currentStep)) && isLoading == old(isLoading) && fontScale == old(fontScale)
      ensures outcome == WentBack <==> old(currentStep) > 0
      ensures outcome == LeftOnboarding <==> old(currentStep) == 0 && hasOnBack
    {
      if currentStep > 0 {
        currentStep := currentStep - 1;
        outcome := WentBack;
      } else if hasOnBack {
        outcome := LeftOnboarding;
      } else {
        outcome := Nothing;
      }
    }

    /** The slider's `onValueChange`; the slider only offers values between its bounds. */
    method SetFontScale(scale: int)
      requires Valid() && SliderMin <= scale <= SliderMax
      modifies this
      ensures Valid()
      ensures fontScale == scale && currentStep == old(currentStep) && isLoading == old(isLoading)
    {
      fontScale := scale;
    }

    /** The step shown can always proceed. */
    function CanProceedNow(): (b: bool)
      requires Valid()
      reads this
      ensures b
    {
      CanProceed(currentStep)
    }

    /** `isSeniorMode`: the scale is at least 1.2, the same test as the settings store's. */
    function IsSeniorMode(): (b: bool)
      reads this
      ensures b <==> fontScale >= 12
    {
      SeniorMode(fontScale)
    }
  }

  /**
   * Of the seven slider positions, the top three (1.2, 1.3 and 1.4) are the
   * large-text mode.
   */
  lemma SliderSeniorPositions(scale: int)
    requires SliderMin <= scale <= SliderMax
    ensures SeniorMode(scale) <==> scale in {12, 13, 14}
  {
  }
}
