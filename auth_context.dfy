/**
 * The authentication context: the session, the signed-in user's profile
 * and a loading flag, changed by the initial session read, by auth-change
 * events and by the profile fetch; and the values derived from them
 * (`user` and the three role flags).
 */
module Auth {
  import opened Wrappers
  import Schema

  datatype User = User(id: string)

  datatype Session = Session(user: User)

  /** How `profiles.getOwn()` ends: a row (or null), or a thrown error. */
  datatype ProfileFetch = Fetched(profile: Option<Schema.Profile>) | FetchFailed

  /** The provider's three pieces of state. */
  datatype AuthView = AuthView(session: Option<Session>, profile: Option<Schema.Profile>, loading: bool)

  /** What the provider hands to `useAuth()` callers. */
  datatype ContextValue = ContextValue(
    session: Option<Session>,
    user: Option<User>,
    profile: Option<Schema.Profile>,
    loading: bool,
    isAdmin: bool,
    isProvider: bool,
    isCitizen: bool)

  function InitialAuth(): (v: AuthView)
    ensures v.session.None? && v.profile.None? && v.loading
  {
    AuthView(None, None, true)
  }

  /** The `getSession().then(...)` callback; with a session it starts a profile fetch and leaves `loading` alone. */
  function OnInitialSession(v: AuthView, s: Option<Session>): (w: AuthView)
    ensures w.session == s && w.profile == v.profile
    ensures s.None? ==> !w.loading
    ensures s.Some? ==> w.loading == v.loading
  {
    if s.Some? then v.(session := s) else v.(session := s, loading := false)
  }

  /** The `onAuthStateChange` callback; losing the session also drops the profile. */
  function OnAuthStateChange(v: AuthView, s: Option<Session>): (w: AuthView)
    ensures w.session == s
    ensures s.None? ==> w.profile.None? && !w.loading
    ensures s.Some? ==> w.profile == v.profile && w.loading == v.loading
  {
    if s.Some? then v.(session := s) else v.(session := s, profile := None, loading := false)
  }

  /** The end of `fetchProfile`: store the row on success, log on failure, clear `loading` either way. */
  function ProfileSettled(v: AuthView, r: ProfileFetch): (w: AuthView)
    ensures !w.loading && w.session == v.session
    ensures r.Fetched? ==> w.profile == r.profile
    ensures r.FetchFailed? ==> w.profile == v.profile
  {
    match r
    case Fetched(p) => v.(profile := p, loading := false)
    case FetchFailed => v.(loading := false)
  }

  /** `session?.user ?? null` and the role flags from `profile?.role ?? null`. */
  function Provide(v: AuthView): (c: ContextValue)
    ensures c.session == v.session && c.profile == v.profile && c.loading == v.loading
    ensures c.user.Some? <==> v.session.Some?
    ensures v.session.Some? ==> c.user == Some(v.session.value.user)
  {
    var role: Option<Schema.UserRole> := if v.profile.Some? then Some(v.profile.value.role) else None;
    ContextValue(
      v.session,
      if v.session.Some? then Some(v.session.value.user) else None,
      v.profile,
      v.loading,
      role == Some(Schema.Admin),
      role == Some(Schema.Provider),
      role == Some(Schema.Citizen))
  }

  /**
   * At most one role flag is set; without a profile none is, and with one
   * exactly the flag of its role is.
   */
  lemma RoleFlagsExclusive(v: AuthView)
    ensures !(Provide(v).isAdmin && Provide(v).isProvider)
    ensures !(Provide(v).isAdmin && Provide(v).isCitizen)
    ensures !(Provide(v).isProvider && Provide(v).isCitizen)
    ensures v.profile.None? ==> !Provide(v).isAdmin && !Provide(v).isProvider && !Provide(v).isCitizen
    ensures v.profile.Some? ==>
      && (Provide(v).isAdmin <==> v.profile.value.role == Schema.Admin)
      && (Provide(v).isProvider <==> v.profile.value.role == Schema.Provider)
      && (Provide(v).isCitizen <==> v.profile.value.role == Schema.Citizen)
      && (Provide(v).isAdmin || Provide(v).isProvider || Provide(v).isCitizen)
  {
  }

  /** The default context value (outside any provider) agrees with the provider's initial state. */
  lemma InitialContext()
    ensures Provide(InitialAuth()) == ContextValue(None, None, None, true, false, false, false)
  {
  }

  /**
   * Signing out and then receiving the reply of a fetch that was already
   * in flight stores that profile again with no session: the fetch is not
   * cancelled or checked against the current session.
   */
  lemma StaleFetchAfterSignOut(v: AuthView, p: Schema.Profile)
    ensures OnAuthStateChange(v, None).profile.None?
    ensures ProfileSettled(OnAuthStateChange(v, None), Fetched(Some(p))).session.None?
    ensures ProfileSettled(OnAuthStateChange(v, None), Fetched(Some(p))).profile == Some(p)
  {
  }

  /** Once any session event has been handled without a session, `loading` is false. */
  lemma NoSessionEndsLoading(v: AuthView)
    ensures !OnInitialSession(v, None).loading && !OnAuthStateChange(v, None).loading
    ensures Provide(OnAuthStateChange(v, None)).user.None?
  {
  }

  /** The provider's state, changed by the callbacks one setter at a time. */
  class AuthProvider {
    var session: Option<Session>
    var profile: Option<Schema.Profile>
    var loading: bool

    function View(): AuthView
      reads this
    {
      AuthView(session, profile, loading)
    }

    constructor()
      ensures View() == InitialAuth()
    {
      session := None;
      profile := None;
      loading := true;
    }

    /** The initial `getSession()` reply; `fetching` says whether `fetchProfile` was started. */
    method ReadInitialSession(s: Option<Session>) returns (fetching: bool)
      modifies this
      ensures View() == OnInitialSession(old(View()), s)
      ensures fetching <==> s.Some?
    {
      session := s;
      if s.Some? {
        fetching := true;
      } else {
        loading := false;
        fetching := false;
      }
    }

    /** An auth-change event; `fetching` says whether `fetchProfile` was started. */
    method AuthStateChanged(s: Option<Session>) returns (fetching: bool)
      modifies this
      ensures View() == OnAuthStateChange(old(View()), s)
      ensures fetching <==> s.Some?
    {
      session := s;
      if s.Some? {
        fetching := true;
      } else {
        profile := None;
        loading := false;
        fetching := false;
      }
    }

    /** The awaited `profiles.getOwn()` has ended. */
    method FetchProfileSettled(r: ProfileFetch)
      modifies this
      ensures View() == ProfileSettled(old(View()), r)
    {
      if r.Fetched? {
        profile := r.profile;
      }
      loading := false;
    }
  }
}
