/**
 * The UI context: whether the auth modal is open and in which mode, and
 * whether the eligibility modal is open, changed by four handlers.
 */
module UI {

  datatype AuthModalMode = Login | Signup

  datatype UIView = UIView(authModalOpen: bool, authModalMode: AuthModalMode, eligibilityModalOpen: bool)

  /** Both modals closed, the auth modal set to log in. */
  function InitialUI(): (v: UIView)
    ensures !v.authModalOpen && !v.eligibilityModalOpen && v.authModalMode == Login
  {
    UIView(false, Login, false)
  }

  function OpenAuth(v: UIView, mode: AuthModalMode): (w: UIView)
    ensures w.authModalOpen && w.authModalMode == mode
    ensures w.eligibilityModalOpen == v.eligibilityModalOpen
  {
    v.(authModalMode := mode, authModalOpen := true)
  }

  function CloseAuth(v: UIView): (w: UIView)
    ensures !w.authModalOpen
    ensures w.authModalMode == v.authModalMode && w.eligibilityModalOpen == v.eligibilityModalOpen
  {
    v.(authModalOpen := false)
  }

  function SetEligibilityOpen(v: UIView, open: bool): (w: UIView)
    ensures w.eligibilityModalOpen == open
    ensures w.authModalOpen == v.authModalOpen && w.authModalMode == v.authModalMode
  {
    v.(eligibilityModalOpen := open)
  }

  /** Every handler is idempotent: a second call changes nothing. */
  lemma HandlersIdempotent(v: UIView, mode: AuthModalMode, open: bool)
    ensures OpenAuth(OpenAuth(v, mode), mode) == OpenAuth(v, mode)
    ensures CloseAuth(CloseAuth(v)) == CloseAuth(v)
    ensures SetEligibilityOpen(SetEligibilityOpen(v, open), open) == SetEligibilityOpen(v, open)
  {
  }

  /** The auth and eligibility handlers act on disjoint fields, so they commute. */
  lemma AuthAndEligibilityCommute(v: UIView, mode: AuthModalMode, open: bool)
    ensures SetEligibilityOpen(OpenAuth(v, mode), open) == OpenAuth(SetEligibilityOpen(v, open), mode)
    ensures SetEligibilityOpen(CloseAuth(v), open) == CloseAuth(SetEligibilityOpen(v, open))
  {
  }

  /** Closing and reopening in the same mode returns to the state before closing when the modal was open in that mode. */
  lemma CloseThenReopen(v: UIView)
    requires v.authModalOpen
    ensures OpenAuth(CloseAuth(v), v.authModalMode) == v
  {
  }

  /** The provider's state; each method is one `useCallback` handler. */
  class UIProvider {
    var authModalOpen: bool
    var authModalMode: AuthModalMode
    var eligibilityModalOpen: bool

    function View(): UIView
      reads this
    {
      UIView(authModalOpen, authModalMode, eligibilityModalOpen)
    }

    constructor()
      ensures View() == InitialUI()
    {
      authModalOpen := false;
      authModalMode := Login;
      eligibilityModalOpen := false;
    }

    method OpenAuthModal(mode: AuthModalMode)
      modifies this
      ensures View() == OpenAuth(old(View()), mode)
    {
      authModalMode := mode;
      authModalOpen := true;
    }

    method CloseAuthModal()
      modifies this
      ensures View() == CloseAuth(old(View()))
    {
      authModalOpen := false;
    }

    method OpenEligibilityModal()
      modifies this
      ensures View() == SetEligibilityOpen(old(View()), true)
    {
      eligibilityModalOpen := true;
    }

    method CloseEligibilityModal()
      modifies this
      ensures View() == SetEligibilityOpen(old(View()), false)
    {
      eligibilityModalOpen := false;
    }
  }
}
