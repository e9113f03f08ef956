/**
 * The onboarding wizard: five steps walked with "continue", "back" and
 * (on the bank-link step) "skip", with a progress bar and a step counter.
 */
module Onboarding {
  import opened Wrappers
  import opened Types
  import opened Actions
  import App

  datatype Step = Welcome | BusinessInfo | ChartOfAccounts | BankLink | Finish

  /** The steps in the order the wizard shows them. */
  const Steps: seq<Step> := [Welcome, BusinessInfo, ChartOfAccounts, BankLink, Finish]

  /** `getStepIndex(step)`: the step's position in `Steps`. */
  function StepIndex(step: Step): (r: int)
    ensures 0 <= r < |Steps| && Steps[r] == step
  {
    match step
    case Welcome => 0
    case BusinessInfo => 1
    case ChartOfAccounts => 2
    case BankLink => 3
    case Finish => 4
  }

  /** Two steps with the same index are the same step. */
  lemma StepIndexInjective(a: Step, b: Step)
    ensures StepIndex(a) == StepIndex(b) <==> a == b
  {
  }

  /** `progressValue`: the fraction of the wizard behind the user. */
  function Progress(step: Step): (r: real)
    ensures 0.0 <= r <= 1.0
    ensures r == 0.0 <==> step == Welcome
    ensures r == 1.0 <==> step == Finish
  {
    StepIndex(step) as real / 4.0
  }

  /** The number in "Step n of 5". */
  function StepNumber(step: Step): (r: int)
    ensures 1 <= r <= 5
    ensures Steps[r - 1] == step
  {
    StepIndex(step) + 1
  }

  /** The step `handleNext` moves to; on the last step the step stays. */
  function NextStep(step: Step): (r: Step)
    ensures StepIndex(r) == if step == Finish then StepIndex(step) else StepIndex(step) + 1
  {
    match step
    case Welcome => BusinessInfo
    case BusinessInfo => ChartOfAccounts
    case ChartOfAccounts => BankLink
    case BankLink => Finish
    case Finish => Finish
  }

  /** The step `handleBack` moves to; on the first step the step stays. */
  function PrevStep(step: Step): (r: Step)
    ensures StepIndex(r) == if step == Welcome then StepIndex(step) else StepIndex(step) - 1
  {
    match step
    case Welcome => Welcome
    case BusinessInfo => Welcome
    case ChartOfAccounts => BusinessInfo
    case BankLink => ChartOfAccounts
    case Finish => BankLink
  }

  /** The step `handleSkip` moves to: only bank-link can be skipped. */
  function SkipStep(step: Step): (r: Step)
    ensures r != step <==> step == BankLink
    ensures r != step ==> r == NextStep(step)
  {
    if step == BankLink then Finish else step
  }

  /** Back undoes continue on every step but the last, and continue undoes back on every step but the first. */
  lemma BackUndoesNext(step: Step)
    ensures step != Finish ==> PrevStep(NextStep(step)) == step
    ensures step != Welcome ==> NextStep(PrevStep(step)) == step
    ensures PrevStep(Welcome) == Welcome && NextStep(Finish) == Finish
  {
    StepIndexInjective(PrevStep(NextStep(step)), step);
    StepIndexInjective(NextStep(PrevStep(step)), step);
  }

  /** `n` presses of "continue". */
  function Advance(step: Step, n: nat): Step
    decreases n
  {
    if n == 0 then step else Advance(NextStep(step), n - 1)
  }

  /** Each press of "continue" moves one step until the last, so four reach it from anywhere. */
  lemma {:induction false} AdvanceIndex(step: Step, n: nat)
    ensures StepIndex(Advance(step, n)) == if StepIndex(step) + n <= 4 then StepIndex(step) + n else 4
    ensures n >= 4 ==> Advance(step, n) == Finish
    decreases n
  {
    if n > 0 {
      AdvanceIndex(NextStep(step), n - 1);
    }
    StepIndexInjective(Advance(step, n), Finish);
  }

  /** The action the last step dispatches: the signed-in user, marked onboarded. */
  function FinishAction(user: User): (r: Action)
    ensures r.OtherAct? && r.otherAction.UpdateUser?
    ensures r.otherAction.user.isOnboarded
    ensures r.otherAction.user.(isOnboarded := user.isOnboarded) == user
  {
    OtherAct(UpdateUser(user.(isOnboarded := true)))
  }

  /**
   * No reducer handles `UPDATE_USER`, so finishing the wizard leaves the
   * store as it was: a user who was not onboarded stays not onboarded.
   */
  lemma FinishLeavesUserNotOnboarded(s: App.AppState)
    requires s.auth.user.Some?
    ensures App.AppReducer(s, FinishAction(s.auth.user.value)) == s
    ensures App.AppReducer(s, FinishAction(s.auth.user.value)).auth.user.value.isOnboarded
            == s.auth.user.value.isOnboarded
  {
  }

  class OnboardingFlow {
    var step: Step

    constructor()
      ensures step == Welcome
    {
      step := Welcome;
    }

    /**
     * `handleNext`: moves one step on; on the last step it returns the
     * `UPDATE_USER` action to dispatch when a user is signed in, and the
     * step stays (the navigation reset to the main screen is left out).
     */
    method HandleNext(user: Option<User>) returns (dispatched: Option<Action>)
      modifies this
      ensures step == NextStep(old(step))
      ensures dispatched.Some? <==> old(step) == Finish && user.Some?
      ensures dispatched.Some? ==> dispatched.value == FinishAction(user.value)
    {
      dispatched := None;
      match step {
        case Welcome => step := BusinessInfo;
        case BusinessInfo => step := ChartOfAccounts;
        case ChartOfAccounts => step := BankLink;
        case BankLink => step := Finish;
        case Finish =>
          if user.Some? {
            dispatched := Some(FinishAction(user.value));
          }
      }
    }

    /** `handleBack`. */
    method HandleBack()
      modifies this
      ensures step == PrevStep(old(step))
    {
      match step {
        case Welcome =>
        case BusinessInfo => step := Welcome;
        case ChartOfAccounts => step := BusinessInfo;
        case BankLink => step := ChartOfAccounts;
        case Finish => step := BankLink;
      }
    }

    /** `handleSkip`. */
    method HandleSkip()
      modifies this
      ensures step == SkipStep(old(step))
    {
      if step == BankLink {
        step := Finish;
      }
    }
  }
}
