/**
 * The data hooks: the generic `useAsync` load state that every hook is
 * built on, the mutation helpers that refetch after a write, and the
 * profile-completeness gate of `useEligibility`.
 *
 * A fetcher is a call into the backend; the model receives how it ended
 * (`Outcome`) as a parameter.
 */
module Hooks {
  import opened Wrappers
  import Schema

  /** How an awaited call ends: it resolves with a value, or throws an error whose `message` may be missing. */
  datatype Outcome<T> = Resolved(value: T) | Rejected(message: Option<string>)

  /** The three pieces of state `useAsync` keeps. */
  datatype AsyncView<T> = AsyncView(data: Option<T>, loading: bool, error: Option<string>)

  /** The message stored when a thrown error carries none. */
  const DefaultErrorMessage: string := "An error occurred"

  /** The state before the first run: no data, loading, no error. */
  function InitialView<T>(): (v: AsyncView<T>)
    ensures v.data.None? && v.loading && v.error.None?
  {
    AsyncView(None, true, None)
  }

  /** The two updates `run` makes before awaiting the fetcher. */
  function StartRun<T>(v: AsyncView<T>): (w: AsyncView<T>)
    ensures w.loading && w.error.None?
    ensures w.data == v.data
  {
    v.(loading := true, error := None)
  }

  /** The try/catch/finally that follows the await. */
  function SettleRun<T>(v: AsyncView<T>, outcome: Outcome<T>): (w: AsyncView<T>)
    ensures !w.loading
    ensures outcome.Resolved? ==> w.data == Some(outcome.value) && w.error == v.error
    ensures outcome.Rejected? ==> w.data == v.data && w.error == Some(outcome.message.GetOr(DefaultErrorMessage))
  {
    match outcome
    case Resolved(result) => v.(data := Some(result), loading := false)
    case Rejected(message) => v.(error := Some(message.GetOr(DefaultErrorMessage)), loading := false)
  }

  /** One whole run: start, await, settle. */
  function RunOnce<T>(v: AsyncView<T>, outcome: Outcome<T>): AsyncView<T> {
    SettleRun(StartRun(v), outcome)
  }

  /**
   * After a run `loading` is false whatever the outcome; the error is set
   * exactly when the fetcher threw, and a failed run keeps the data of the
   * previous one.
   */
  lemma RunSettles<T>(v: AsyncView<T>, outcome: Outcome<T>)
    ensures !RunOnce(v, outcome).loading
    ensures RunOnce(v, outcome).error.Some? <==> outcome.Rejected?
    ensures outcome.Resolved? ==> RunOnce(v, outcome).data == Some(outcome.value)
    ensures outcome.Rejected? ==> RunOnce(v, outcome).data == v.data
    ensures outcome.Rejected? && outcome.message.None? ==> RunOnce(v, outcome).error == Some(DefaultErrorMessage)
  {
  }

  /** A run forgets the previous error and loading flag: only the previous data can show through. */
  lemma RunDependsOnlyOnData<T>(v1: AsyncView<T>, v2: AsyncView<T>, outcome: Outcome<T>)
    requires v1.data == v2.data
    ensures RunOnce(v1, outcome) == RunOnce(v2, outcome)
  {
  }

  /** Refetching with the same outcome changes nothing more. */
  lemma RunIdempotent<T>(v: AsyncView<T>, outcome: Outcome<T>)
    ensures RunOnce(RunOnce(v, outcome), outcome) == RunOnce(v, outcome)
  {
  }

  /** The state a hook holds, updated by `run` one setter at a time. */
  class AsyncState<T> {
    var data: Option<T>
    var loading: bool
    var error: Option<string>

    function View(): AsyncView<T>
      reads this
    {
      AsyncView(data, loading, error)
    }

    /** The three `useState` initialisers. */
    constructor()
      ensures View() == InitialView()
    {
      data := None;
      loading := true;
      error := None;
    }

    /** `setLoading(true); setError(null)` */
    method Start()
      modifies this
      ensures View() == StartRun(old(View()))
    {
      loading := true;
      error := None;
    }

    /** The awaited fetcher has ended: store its result or its message, then clear `loading`. */
    method Settle(outcome: Outcome<T>)
      modifies this
      ensures View() == SettleRun(old(View()), outcome)
    {
      match outcome {
        case Resolved(result) =>
          data := Some(result);
        case Rejected(message) =>
          error := Some(message.GetOr(DefaultErrorMessage));
      }
      loading := false;
    }

    /** `run` (also returned as `refetch`) for one fetcher outcome. */
    method Run(outcome: Outcome<T>)
      modifies this
      ensures View() == RunOnce(old(View()), outcome)
    {
      Start();
      Settle(outcome);
    }

    /**
     * `createUnit`, `updateUnit`, `apply`, `updateStatus`, ...: await the
     * write, then refetch. A write that throws leaves the hook untouched and
     * the error propagates to the caller.
     */
    method MutateThenRefetch<U>(write: Outcome<U>, refetch: Outcome<T>) returns (refetched: bool)
      modifies this
      ensures refetched <==> write.Resolved?
      ensures refetched ==> View() == RunOnce(old(View()), refetch)
      ensures !refetched ==> View() == old(View())
    {
      if write.Resolved? {
        Run(refetch);
        refetched := true;
      } else {
        refetched := false;
      }
    }
  }

  // ── useEligibility ───────────────────────────────────────────

  /** JavaScript truthiness of an optional string: present and non-empty. */
  predicate TruthyText(s: Option<string>) {
    s.Some? && s.value != ""
  }

  /** JavaScript truthiness of an optional number: present and not zero. */
  predicate TruthyNumber(n: Option<int>) {
    n.Some? && n.value != 0
  }

  /** `!!profile?.income_range && !!profile?.household_size && !!profile?.location` */
  predicate ProfileComplete(profile: Option<Schema.Profile>) {
    && profile.Some?
    && TruthyText(profile.value.incomeRange)
    && TruthyNumber(profile.value.householdSize)
    && TruthyText(profile.value.location)
  }

  /** Truthiness, not presence, decides: a household of 0 or an empty text field makes the profile incomplete. */
  lemma FalsyFieldsIncomplete(profile: Schema.Profile)
    ensures profile.householdSize == Some(0) ==> !ProfileComplete(Some(profile))
    ensures profile.location == Some("") ==> !ProfileComplete(Some(profile))
    ensures profile.incomeRange == Some("") ==> !ProfileComplete(Some(profile))
    ensures !ProfileComplete(None)
    ensures ProfileComplete(Some(profile)) <==>
      profile.incomeRange.Some? && |profile.incomeRange.value| > 0 &&
      profile.householdSize.Some? && profile.householdSize.value != 0 &&
      profile.location.Some? && |profile.location.value| > 0
  {
  }

  /** What the eligibility fetcher does: whether it calls the matching RPC, and how it ends. */
  datatype Gate = Gate(rpcCalled: bool, outcome: Outcome<seq<Schema.EligibilityMatch>>)

  /** `profileComplete ? eligibility.match() : Promise.resolve([])` */
  function EligibilityFetch(complete: bool, rpc: Outcome<seq<Schema.EligibilityMatch>>): (g: Gate)
    ensures g.rpcCalled <==> complete
    ensures !complete ==> g.outcome == Resolved([])
    ensures complete ==> g.outcome == rpc
  {
    if complete then Gate(true, rpc) else Gate(false, Resolved([]))
  }

  /** `matches: data ?? []` */
  function Matches(v: AsyncView<seq<Schema.EligibilityMatch>>): (m: seq<Schema.EligibilityMatch>)
    ensures v.data.None? ==> m == []
    ensures v.data.Some? ==> m == v.data.value
  {
    v.data.GetOr([])
  }

  /**
   * With an incomplete profile the RPC is never called, and after the run
   * the hook holds no matches, no error and is no longer loading, whatever
   * the RPC would have answered.
   */
  lemma IncompleteProfileNoMatches(v: AsyncView<seq<Schema.EligibilityMatch>>, profile: Option<Schema.Profile>,
                                   rpc: Outcome<seq<Schema.EligibilityMatch>>)
    requires !ProfileComplete(profile)
    ensures !EligibilityFetch(ProfileComplete(profile), rpc).rpcCalled
    ensures Matches(RunOnce(v, EligibilityFetch(ProfileComplete(profile), rpc).outcome)) == []
    ensures RunOnce(v, EligibilityFetch(ProfileComplete(profile), rpc).outcome).error.None?
    ensures !RunOnce(v, EligibilityFetch(ProfileComplete(profile), rpc).outcome).loading
  {
  }

  /** Before the first run settles, and after any failed first run, `matches` is the empty list. */
  lemma MatchesDefaultEmpty(rpc: Outcome<seq<Schema.EligibilityMatch>>)
    ensures Matches(InitialView()) == []
    ensures rpc.Rejected? ==> Matches(RunOnce(InitialView(), rpc)) == []
  {
  }
}
