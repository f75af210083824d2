/**
 * The eligibility modal: a form (step 1) and a result panel (step 2). The
 * check waits on a 1500 ms timer and then always reports "eligible"; closing
 * the modal or pressing "Check Again" returns to an empty form.
 *
 * The timer is modelled by a count of scheduled callbacks that have not yet
 * fired; `TimerFires` is the callback running.
 */
module EligibilityModal {
  import opened Wrappers
  import UI

  /** The `'eligible' | 'ineligible'` result type; `None` is `null`. */
  datatype Verdict = Eligible | Ineligible

  datatype ModalView = ModalView(step: int, loading: bool, result: Option<Verdict>, pendingTimers: nat)

  /** `useState(1)`, `useState(false)`, `useState(null)`, and no timer scheduled. */
  function InitialModal(): (v: ModalView)
    ensures v.step == 1 && !v.loading && v.result.None? && v.pendingTimers == 0
  {
    ModalView(1, false, None, 0)
  }

  /** `handleCheck`: set `loading` and schedule the timer. */
  function Check(v: ModalView): (w: ModalView)
    ensures w.loading && w.pendingTimers == v.pendingTimers + 1
    ensures w.step == v.step && w.result == v.result
  {
    v.(loading := true, pendingTimers := v.pendingTimers + 1)
  }

  /** The timer callback: clear `loading`, report eligible, show the result panel. */
  function TimerFires(v: ModalView): (w: ModalView)
    requires v.pendingTimers > 0
    ensures !w.loading && w.result == Some(Eligible) && w.step == 2
    ensures w.pendingTimers == v.pendingTimers - 1
  {
    v.(loading := false, result := Some(Eligible), step := 2, pendingTimers := v.pendingTimers - 1)
  }

  /** The component's part of `handleClose` (it also closes the modal in the UI context). */
  function Reset(v: ModalView): (w: ModalView)
    ensures w.step == 1 && w.result.None?
    ensures w.loading == v.loading && w.pendingTimers == v.pendingTimers
  {
    v.(step := 1, result := None)
  }

  /** The form is rendered when `step === 1`, the result panel otherwise. */
  predicate FormShown(v: ModalView) {
    v.step == 1
  }

  /**
   * What holds in every reachable state: the step is 1 or 2, the result is
   * never "ineligible", and the result panel is shown exactly when the
   * result is "eligible".
   */
  predicate ModalInvariant(v: ModalView) {
    && (v.step == 1 || v.step == 2)
    && v.result != Some(Ineligible)
    && (v.step == 2 <==> v.result == Some(Eligible))
  }

  /** Every handler keeps the invariant, starting from the initial state. */
  lemma InvariantHolds(v: ModalView)
    ensures ModalInvariant(InitialModal())
    ensures ModalInvariant(v) ==> ModalInvariant(Check(v))
    ensures ModalInvariant(v) && v.pendingTimers > 0 ==> ModalInvariant(TimerFires(v))
    ensures ModalInvariant(v) ==> ModalInvariant(Reset(v))
  {
  }

  /** In a reachable state the form is shown exactly when there is no result. */
  lemma FormShownIffNoResult(v: ModalView)
    requires ModalInvariant(v)
    ensures FormShown(v) <==> v.result.None?
    ensures !FormShown(v) <==> v.result == Some(Eligible)
  {
    if v.result.Some? {
      assert v.result.value == Eligible;
    }
  }

  /**
   * Closing does not cancel a pending timer: a check started before the
   * modal was closed still moves it to the result panel afterwards.
   */
  lemma CloseDoesNotCancelCheck(v: ModalView)
    ensures FormShown(Reset(Check(v)))
    ensures TimerFires(Reset(Check(v))).step == 2
    ensures TimerFires(Reset(Check(v))).result == Some(Eligible)
  {
  }

  /** Resetting twice is resetting once. */
  lemma ResetIdempotent(v: ModalView)
    ensures Reset(Reset(v)) == Reset(v)
  {
  }

  /** The component's state; `ui` is the context whose `closeEligibilityModal` it calls. */
  class Modal {
    var step: int
    var loading: bool
    var result: Option<Verdict>
    var pendingTimers: nat
    const ui: UI.UIProvider

    function View(): ModalView
      reads this
    {
      ModalView(step, loading, result, pendingTimers)
    }

    constructor(ui: UI.UIProvider)
      ensures View() == InitialModal() && this.ui == ui
    {
      step := 1;
      loading := false;
      result := None;
      pendingTimers := 0;
      this.ui := ui;
    }

    method HandleCheck()
      modifies this
      ensures View() == Check(old(View()))
    {
      loading := true;
      pendingTimers := pendingTimers + 1;
    }

    /** The `setTimeout` callback scheduled by `HandleCheck`. */
    method OnTimer()
      requires pendingTimers > 0
      modifies this
      ensures View() == TimerFires(old(View()))
    {
      pendingTimers := pendingTimers - 1;
      loading := false;
      result := Some(Eligible);
      step := 2;
    }

    /** `handleClose`: close the modal in the UI context, then reset to the form. */
    method HandleClose()
      modifies this, ui
      ensures View() == Reset(old(View()))
      ensures ui.View() == UI.SetEligibilityOpen(old(ui.View()), false)
    {
      ui.CloseEligibilityModal();
      step := 1;
      result := None;
    }

    /** "Check Again": the same reset, but the modal stays open. */
    method CheckAgain()
      modifies this
      ensures View() == Reset(old(View()))
      ensures ui.View() == old(ui.View())
    {
      step := 1;
      result := None;
    }
  }
}
