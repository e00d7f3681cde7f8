/** The first-launch walkthrough (ViewModels/OnboardingViewModel.swift): a
    five-step machine whose position is mirrored into a stored progress
    value. The `@AppStorage` values are plain fields; the animation delay
    becomes an explicit `FinishFeatureAnimation` call. */
module Onboarding {
  import opened Wrappers

  datatype OnboardingStep = Welcome | GameIntro | Tutorial | Features | Completed

  /** `allCases.count`. */
  const StepCount: int := 5

  /** The step's `rawValue`. */
  function RawValue(s: OnboardingStep): (n: int)
    ensures 0 <= n < StepCount
  {
    match s
    case Welcome => 0
    case GameIntro => 1
    case Tutorial => 2
    case Features => 3
    case Completed => 4
  }

  /** `OnboardingStep(rawValue:)`: defined exactly on 0..4. */
  function FromRaw(n: int): (r: Option<OnboardingStep>)
    ensures r.Some? <==> 0 <= n < StepCount
    ensures r.Some? ==> RawValue(r.value) == n
  {
    if n == 0 then Some(Welcome)
    else if n == 1 then Some(GameIntro)
    else if n == 2 then Some(Tutorial)
    else if n == 3 then Some(Features)
    else if n == 4 then Some(Completed)
    else None
  }

  /** Every step is recovered from its raw value. */
  lemma FromRawRoundTrip(s: OnboardingStep)
    ensures FromRaw(RawValue(s)) == Some(s)
  {
  }

  /** Two steps with the same raw value are the same step. */
  lemma RawValueInjective(a: OnboardingStep, b: OnboardingStep)
    requires RawValue(a) == RawValue(b)
    ensures a == b
  {
    FromRawRoundTrip(a);
    FromRawRoundTrip(b);
  }

  /** The step `nextStep` moves to. */
  function Advance(s: OnboardingStep): (r: OnboardingStep)
    ensures RawValue(s) < StepCount - 1 ==> RawValue(r) == RawValue(s) + 1
    ensures RawValue(s) == StepCount - 1 ==> r == Completed
  {
    if RawValue(s) < StepCount - 1 then FromRaw(RawValue(s) + 1).GetOr(Welcome) else Completed
  }

  /** The step `previousStep` moves to. */
  function Retreat(s: OnboardingStep): (r: OnboardingStep)
    ensures RawValue(s) > 0 ==> RawValue(r) == RawValue(s) - 1
    ensures RawValue(s) == 0 ==> r == s
  {
    if RawValue(s) > 0 then FromRaw(RawValue(s) - 1).GetOr(Welcome) else s
  }

  /** Going forward and back from any step before the last returns to it. */
  lemma RetreatAfterAdvance(s: OnboardingStep)
    requires s != Completed
    ensures Retreat(Advance(s)) == s
  {
    RawValueInjective(Retreat(Advance(s)), s);
  }

  /** Going back and forward from any step after the first returns to it. */
  lemma AdvanceAfterRetreat(s: OnboardingStep)
    requires s != Welcome
    ensures Advance(Retreat(s)) == s
  {
    RawValueInjective(Advance(Retreat(s)), s);
  }

  /** `buttonText`. */
  function ButtonText(s: OnboardingStep): (t: string)
    ensures t == "Start Playing" <==> s == Completed
    ensures s != Completed ==> t == "Continue"
  {
    match s
    case Welcome => "Continue"
    case GameIntro => "Continue"
    case Features => "Continue"
    case Tutorial => "Continue"
    case Completed => "Start Playing"
  }

  class OnboardingViewModel {
    var currentStep: OnboardingStep
    var isAnimating: bool
    var hasCompletedOnboarding: bool
    var onboardingProgressValue: int

    /** The stored progress always names a step. */
    predicate Valid()
      reads this
    {
      0 <= onboardingProgressValue < StepCount
    }

    /** `init`: the stored completion flag is kept, the walk starts over. */
    constructor (storedCompleted: bool)
      ensures currentStep == Welcome && !isAnimating && onboardingProgressValue == 0
      ensures hasCompletedOnboarding == storedCompleted
      ensures Valid()
    {
      hasCompletedOnboarding := storedCompleted;
      currentStep := Welcome;
      isAnimating := false;
      onboardingProgressValue := 0;
    }

    /** `nextStep`: below the last step, move one on and store it (starting
        the feature animation on reaching the features page); on the last
        step, stay. */
    method NextStep()
      requires Valid()
      modifies this
      ensures Valid()
      ensures currentStep == Advance(old(currentStep))
      ensures old(currentStep) != Completed ==>
        RawValue(currentStep) == RawValue(old(currentStep)) + 1
        && onboardingProgressValue == RawValue(currentStep)
        && isAnimating == (currentStep == Features || old(isAnimating))
      ensures old(currentStep) == Completed ==>
        currentStep == Completed && onboardingProgressValue == old(onboardingProgressValue)
        && isAnimating == old(isAnimating)
      ensures hasCompletedOnboarding == old(hasCompletedOnboarding)
    {
      if RawValue(currentStep) < StepCount - 1 {
        currentStep := FromRaw(RawValue(currentStep) + 1).GetOr(Welcome);
        onboardingProgressValue := RawValue(currentStep);
        if currentStep == Features {
          isAnimating := true;
        }
      } else {
        currentStep := Completed;
      }
    }

    /** `previousStep`: above the first step, move one back and store it;
        on the first step, nothing happens. */
    method PreviousStep()
      requires Valid()
      modifies this
      ensures Valid()
      ensures currentStep == Retreat(old(currentStep))
      ensures old(currentStep) != Welcome ==>
        RawValue(currentStep) == RawValue(old(currentStep)) - 1
        && onboardingProgressValue == RawValue(currentStep)
      ensures old(currentStep) == Welcome ==>
        currentStep == Welcome && onboardingProgressValue == old(onboardingProgressValue)
      ensures isAnimating == old(isAnimating) && hasCompletedOnboarding == old(hasCompletedOnboarding)
    {
      if RawValue(currentStep) > 0 {
        currentStep := FromRaw(RawValue(currentStep) - 1).GetOr(Welcome);
        onboardingProgressValue := RawValue(currentStep);
      }
    }

    /** `completeOnboarding`: only the flag is set, so a repeat changes
        nothing. */
    method CompleteOnboarding()
      requires Valid()
      modifies this
      ensures Valid()
      ensures hasCompletedOnboarding
      ensures currentStep == old(currentStep) && isAnimating == old(isAnimating)
      ensures onboardingProgressValue == old(onboardingProgressValue)
    {
      hasCompletedOnboarding := true;
    }

    /** `skipOnboarding`: the same as completing it. */
    method SkipOnboarding()
      requires Valid()
      modifies this
      ensures Valid()
      ensures hasCompletedOnboarding
      ensures currentStep == old(currentStep) && isAnimating == old(isAnimating)
      ensures onboardingProgressValue == old(onboardingProgressValue)
    {
      CompleteOnboarding();
    }

    /** `resetOnboarding`: back to the first step with nothing stored. */
    method ResetOnboarding()
      modifies this
      ensures Valid()
      ensures !hasCompletedOnboarding && onboardingProgressValue == 0
      ensures currentStep == Welcome && !isAnimating
    {
      hasCompletedOnboarding := false;
      onboardingProgressValue := 0;
      currentStep := Welcome;
      isAnimating := false;
    }

    /** The delayed end of the feature animation started by `nextStep`. */
    method FinishFeatureAnimation()
      requires Valid()
      modifies this
      ensures Valid()
      ensures !isAnimating
      ensures currentStep == old(currentStep) && hasCompletedOnboarding == old(hasCompletedOnboarding)
      ensures onboardingProgressValue == old(onboardingProgressValue)
    {
      isAnimating := false;
    }
  }
}
