/**
 * The eligibility page: the same check as the modal (a 1500 ms timer that
 * always reports "eligible"), but its "Check Again" button only returns to
 * the form and keeps the result, and a side card about eligible units is
 * shown while the result panel is up.
 */
module EligibilityPage {
  import opened Wrappers
  import EligibilityModal

  type Verdict = EligibilityModal.Verdict

  datatype PageView = PageView(step: int, loading: bool, result: Option<Verdict>, pendingTimers: nat)

  function InitialPage(): (v: PageView)
    ensures v.step == 1 && !v.loading && v.result.None? && v.pendingTimers == 0
  {
    PageView(1, false, None, 0)
  }

  /**
   * `handleCheck`: set `loading` and schedule the timer. The page is a
   * separate component with its own state, so it keeps its own handler over
   * `PageView`; it coincides with the modal's, while "Check Again" differs.
   */
  function Check(v: PageView): (w: PageView)
    ensures w.loading && w.pendingTimers == v.pendingTimers + 1
    ensures w.step == v.step && w.result == v.result
  {
    v.(loading := true, pendingTimers := v.pendingTimers + 1)
  }

  /** The timer callback. */
  function TimerFires(v: PageView): (w: PageView)
    requires v.pendingTimers > 0
    ensures !w.loading && w.result == Some(EligibilityModal.Eligible) && w.step == 2
    ensures w.pendingTimers == v.pendingTimers - 1
  {
    v.(loading := false, result := Some(EligibilityModal.Eligible), step := 2, pendingTimers := v.pendingTimers - 1)
  }

  /** "Check Again" on this page: `setStep(1)` and nothing else. */
  function CheckAgain(v: PageView): (w: PageView)
    ensures w.step == 1
    ensures w.result == v.result && w.loading == v.loading && w.pendingTimers == v.pendingTimers
  {
    v.(step := 1)
  }

  /** The "Eligible units" card's condition. */
  predicate EligibleUnitsCardShown(v: PageView) {
    v.step == 2 && v.result == Some(EligibilityModal.Eligible)
  }

  /**
   * Every reachable state: step 1 or 2, never "ineligible", and the result
   * panel (step 2) only with the result "eligible". Unlike the modal, the
   * form can be shown with a result still held.
   */
  predicate PageInvariant(v: PageView) {
    && (v.step == 1 || v.step == 2)
    && v.result != Some(EligibilityModal.Ineligible)
    && (v.step == 2 ==> v.result == Some(EligibilityModal.Eligible))
  }

  lemma InvariantHolds(v: PageView)
    ensures PageInvariant(InitialPage())
    ensures PageInvariant(v) ==> PageInvariant(Check(v))
    ensures PageInvariant(v) && v.pendingTimers > 0 ==> PageInvariant(TimerFires(v))
    ensures PageInvariant(v) ==> PageInvariant(CheckAgain(v))
  {
  }

  /** In a reachable state the card is shown exactly when the result panel is. */
  lemma CardShownIffResultPanel(v: PageView)
    requires PageInvariant(v)
    ensures EligibleUnitsCardShown(v) <==> v.step == 2
  {
  }

  /**
   * After a check, "Check Again" hides the card and shows the form but
   * keeps the result "eligible", where the modal's reset clears it.
   */
  lemma CheckAgainKeepsResult(v: PageView)
    requires v.pendingTimers > 0
    ensures CheckAgain(TimerFires(v)).result == Some(EligibilityModal.Eligible)
    ensures !EligibleUnitsCardShown(CheckAgain(TimerFires(v)))
    ensures EligibilityModal.Reset(EligibilityModal.ModalView(v.step, v.loading, v.result, v.pendingTimers)).result.None?
  {
  }

  /** The page component's state. */
  class Page {
    var step: int
    var loading: bool
    var result: Option<Verdict>
    var pendingTimers: nat

    function View(): PageView
      reads this
    {
      PageView(step, loading, result, pendingTimers)
    }

    constructor()
      ensures View() == InitialPage()
    {
      step := 1;
      loading := false;
      result := None;
      pendingTimers := 0;
    }

    method HandleCheck()
      modifies this
      ensures View() == Check(old(View()))
    {
      loading := true;
      pendingTimers := pendingTimers + 1;
    }

    method OnTimer()
      requires pendingTimers > 0
      modifies this
      ensures View() == TimerFires(old(View()))
    {
      pendingTimers := pendingTimers - 1;
      loading := false;
      result := Some(EligibilityModal.Eligible);
      step := 2;
    }

    method CheckAgainClicked()
      modifies this
      ensures View() == CheckAgain(old(View()))
    {
      step := 1;
    }
  }
}
