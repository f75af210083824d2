# HabitatLink front end: a Dafny model

HabitatLink is a single-page housing portal. Citizens browse subsidised housing and check their eligibility; providers post units; administrators see analytics. Almost all of its work is done by a hosted backend. This project models the deterministic logic the front end itself contains, and proves properties of it:

- **The Postgres `numrange` codec** (`Schema`): `parseNumrange`, `formatNumrange`, `numrangeMidpoint`, and the enum label maps.
  - The regular expression is modelled character by character, with bounds as naturals.
  - Proved: a round trip for non-negative bounds; rejection of negative and unbounded ranges; bracket kinds being ignored; bounds on the midpoint; totality of every label map.
- **The analytics aggregations** (`Api`): `byLocation`, `waitlistByProgram` and `unitsByRegion`.
  - These are loops over the fetched rows that update a count map. The entries come out in first-seen order, except that `Object.entries` puts integer-like keys first, in ascending order; that exception is not modelled.
  - Each is proved to produce one entry per distinct key, with the exact multiset count. The counts sum to the number of rows. For regions, the three status counters sum to the units of that region.
- **Storage paths** (`Api.DocumentPath`, `Upload`): the paths for uploaded documents and housing images, and the fallback extension.
- **The housing listing filter** (`Housing`, and `HousingLegacy` for the older copy of the page).
  - It is modelled as a recursive filter over the six static listings.
  - Proved: both directions of membership; that the result is an ordered subsequence without duplicates; monotonicity; that the initial filters list every unit.
- **The small state machines of the React components and contexts**, each a class whose methods perform the source's setter calls. Each method is specified by a pure transition function on a snapshot of its fields. The invariants, idempotence and race behaviours are lemmas about those functions. The state machines are:
  - `useAsync` and its users (`Hooks`);
  - the auth provider (`Auth`);
  - the UI context (`UI`);
  - the eligibility modal (`EligibilityModal`);
  - the eligibility page (`EligibilityPage`);
  - the provider portal's "Post New Unit" flow (`ProviderDashboard`);
  - the layout's persisted sidebar and navigation rules (`Layout`).

Calls into the backend, the browser and timers are not modelled as code. Their outcomes are parameters:
- the storage reply, a fetch result or thrown error, and a session;
- whether a `localStorage` access throws;
- the UUID, the timestamp and the object URL.

A pending `setTimeout` is a counter of callbacks still to fire.
An awaited call is split into two transitions: one up to the `await` and one for when it settles. Other events can fall between them. The auth provider's profile fetch and the dashboard's image upload are modelled this way.

Source paths below are relative to the repository root.

## Model

| member | source | states |
|---|---|---|
| Schema.ParseNumrange | FrontEnd/src/types/supabase.ts:210-215 | null for a null or empty input. For any other input, null exactly when the pattern (opener, digit/dot run, comma, digit/dot run, closer) occurs at no position |
| Schema.FirstMatchIndex | FrontEnd/src/types/supabase.ts:212 | the unanchored search: no position before the index found matches, and the index found does match |
| Schema.MatchAtIffShape | FrontEnd/src/types/supabase.ts:212 | a match at a position is exactly an opener, a maximal `[0-9.]` run, a comma, a maximal run and a closer |
| Schema.ParseBound | FrontEnd/src/types/supabase.ts:214 | a capture is read as a whole number exactly when it is all digits |
| Schema.FormatNumrange | FrontEnd/src/types/supabase.ts:224-226 | the text opens with `[` (inclusive lower bound) and closes with `)` (exclusive upper bound) |
| Schema.ParseBracketedPair | FrontEnd/src/types/supabase.ts:210-215 | any text with no opener before `[a,b)`, `(a,b]` and so on parses to the two naturals, whatever follows |
| Schema.ParseFormatRoundTrip | FrontEnd/src/types/supabase.ts:208-226 | parsing the formatted pair of naturals gives the pair back |
| Schema.FormatNegativeDoesNotParse | FrontEnd/src/types/supabase.ts:212-213 | a formatted pair with a negative bound does not parse |
| Schema.ParseFormatIffNonNegative | FrontEnd/src/types/supabase.ts:210-226 | a formatted pair parses exactly when both bounds are non-negative |
| Schema.UnboundedUpperDoesNotParse | FrontEnd/src/types/supabase.ts:212-213 | a range with an unbounded upper end, `[n,)` for any natural n (such as `[10000,)`), does not parse |
| Schema.NoOpenerDoesNotParse | FrontEnd/src/types/supabase.ts:212-213 | text with no `[` or `(` never parses |
| Schema.ParseDocExample | FrontEnd/src/types/supabase.ts:208 | `"[10000,30000)"` parses to 10000 and 30000 |
| Schema.ParseOtherBracketsExample | FrontEnd/src/types/supabase.ts:212-214 | `"(10,20]"` parses to 10 and 20; the bracket kinds are discarded |
| Schema.EmptyRangeExample | FrontEnd/src/types/supabase.ts:212-213 | Postgres' empty range `"empty"` gives null |
| Schema.NegativeExample | FrontEnd/src/types/supabase.ts:212-213 | `"[-5,10)"`, a range with a negative bound, gives null |
| Schema.NumrangeMidpoint | FrontEnd/src/types/supabase.ts:231-235 | null exactly when the parse is null |
| Schema.MidpointWithinBounds | FrontEnd/src/types/supabase.ts:231-235 | when both bounds parse as whole numbers the midpoint is (low + high) / 2; with low ≤ high it lies in [low, high] |
| Schema.MidpointOfFormatted | FrontEnd/src/types/supabase.ts:218-235 | the midpoint of a formatted pair of naturals is their mean |
| Schema.LabelMapsTotal | FrontEnd/src/types/supabase.ts:239-281 | every unit type, application status, document type, verification status and employment type has an entry in each of its maps |
| Schema.DocumentTypeName | FrontEnd/src/types/supabase.ts:44-48 | every document type's name is non-empty and holds no `.` or `/`, so it stays one path segment |
| Api.CountBy | FrontEnd/src/lib/api.ts:377-382 | the loop's output keys are distinct and are exactly the input keys; each count is that key's number of occurrences; the counts sum to the number of rows |
| Api.TotalIncrement | FrontEnd/src/lib/api.ts:380 | incrementing one counter raises the sum of counts by one |
| Api.KeysOrDefault | FrontEnd/src/lib/api.ts:377-395 | each row is keyed by its own value, and a row without one by the default: `"Unknown"` for a missing location (line 379), `"No Program"` for a missing program name (line 394) |
| Api.ByLocation | FrontEnd/src/lib/api.ts:372-383 | a fetch error is rethrown; otherwise the result tallies the row locations, and a row with no location makes `"Unknown"` appear |
| Api.WaitlistByProgram | FrontEnd/src/lib/api.ts:386-398 | a fetch error is rethrown; otherwise the result tallies program names, and a row with none makes `"No Program"` appear |
| Api.CountAtSplitsByStatus | FrontEnd/src/lib/api.ts:407-410 | the units of one location split exactly into available, occupied and reserved ones |
| Api.TallyRegions | FrontEnd/src/lib/api.ts:406-411 | one entry per distinct location, starting from zero counters. Each counter equals the number of that location's units with that status, and the three counters sum to the location's unit count |
| Api.UnitsByRegion | FrontEnd/src/lib/api.ts:401-412 | a fetch error is rethrown. Otherwise the result has one entry per distinct location of the fetched units, and exactly those locations. Each entry's available, occupied and reserved counters are the numbers of that location's units with that status, and they sum to the location's unit count. A null `data` gives no entries |
| Api.NoUnitsNoRegions | FrontEnd/src/lib/api.ts:407-412 | the region tally of no units is empty |
| Api.DocumentPath | FrontEnd/src/lib/api.ts:310-311 | the path is `userId/documentType_timestamp.` followed by an extension of the file name (the text after its last `.`); a name without `.` is used whole |
| Text.AfterLastDotIsExtension | FrontEnd/src/lib/upload.ts:14 | the text after the last `.` is exactly the one dot-free suffix that either is the whole name or follows a `.` |
| Upload.ImageExtension | FrontEnd/src/lib/upload.ts:14 | the extension is never empty and holds no `.`. An empty name or one ending in `.` gives `"jpg"`; a name without `.` gives the whole name; otherwise it is the text after the last `.` |
| Upload.ImagePath | FrontEnd/src/lib/upload.ts:15 | the path starts with `providerId/` and ends with `.ext`; its own text after the last `.` is that extension, whatever the UUID holds |
| Upload.UploadHousingImage | FrontEnd/src/lib/upload.ts:10-28 | the upload goes to the image path; a storage error is thrown and no URL is returned; otherwise the public URL is returned |
| Housing.FilterListings | FrontEnd/src/pages/Housing.tsx:97-102 | every listed unit passes the filter, and every unit of the data that passes it is listed. The result is an ordered subsequence of the data, and its multiset is contained in the data's |
| Housing.FilterRules | FrontEnd/src/pages/Housing.tsx:99-101 | a unit of the data is listed exactly when rent ≤ maxRent, the type is `"All"` or equal, and subsidy is not demanded or present; with `"All"` and subsidy off only the rent decides |
| Housing.FilterMonotone | FrontEnd/src/pages/Housing.tsx:97-102 | a filter admitting more lists a supersequence |
| Housing.RaisingMaxRentKeepsUnits | FrontEnd/src/pages/Housing.tsx:99 | raising the rent ceiling never removes a unit |
| Housing.SubsidizedOnlyNeverAdds | FrontEnd/src/pages/Housing.tsx:101 | switching "subsidized only" on never adds a unit |
| Housing.NoDuplicates | FrontEnd/src/pages/Housing.tsx:97-102 | distinct data gives a list without duplicates |
| Housing.HousingDataDistinct | FrontEnd/src/pages/Housing.tsx:11-95 | no listing of the page's data appears twice |
| Housing.FilteredHousingDistinct | FrontEnd/src/pages/Housing.tsx:97-102 | for every filter state the shown list holds each unit at most once |
| Housing.FilterKeepsAllIff | FrontEnd/src/pages/Housing.tsx:97-102 | the list is the whole data exactly when every unit passes |
| Housing.InitialFiltersListAll | FrontEnd/src/pages/Housing.tsx:11-95 | the initial filters (1000, `"All"`, off) list every unit of the data in order |
| Housing.CheapestRentIs350 | FrontEnd/src/pages/Housing.tsx:11-84 | every listed rent is at least 350, and one unit rents for exactly 350 |
| Housing.CeilingBelowCheapestShowsNothing | FrontEnd/src/pages/Housing.tsx:97-102 | a rent ceiling below 350 lists nothing |
| Housing.UnitsFound | FrontEnd/src/pages/Housing.tsx:161 | the count shown is at most the number of units in the data, and equals it exactly when every unit passes |
| Housing.LengthEqualSubsequence | FrontEnd/src/pages/Housing.tsx:161 | a subsequence as long as the data is the data |
| HousingLegacy.SameDataAsFrontEnd | src/pages/Housing.tsx:7-87 | the older page's data and initial filters equal the front end's |
| HousingLegacy.AdmitsAgree | src/pages/Housing.tsx:89-95 | the older page's filter callback decides every unit as the front end's does |
| HousingLegacy.LegacyFilter | src/pages/Housing.tsx:89-95 | the older page's filter, with its own callback: every listed unit passes the callback, every unit that passes is listed, and the list keeps the data's order |
| HousingLegacy.FiltersAgree | src/pages/Housing.tsx:89-95 | because the two callbacks agree, the older page's filter and the front end's give the same list on any data |
| HousingLegacy.SameListingsAsFrontEnd | src/pages/Housing.tsx:89-95 | for every filter state both pages list the same units, so the counts at line 161 agree |
| HousingLegacy.LegacyInitialListsAll | src/pages/Housing.tsx:7-87 | the older page's initial filters list all six units |
| Hooks.InitialView | FrontEnd/src/hooks/UseHomeLink.tsx:36-38 | no data, loading, no error |
| Hooks.StartRun | FrontEnd/src/hooks/UseHomeLink.tsx:41-42 | starting a run sets `loading` and clears the error, keeping the data |
| Hooks.SettleRun | FrontEnd/src/hooks/UseHomeLink.tsx:43-50 | `loading` ends false. On success the data is the result; on failure the data is kept and the error is the message or `"An error occurred"` |
| Hooks.RunSettles | FrontEnd/src/hooks/UseHomeLink.tsx:40-51 | after a run `loading` is false, and the error is set exactly when the fetcher threw. A failed run keeps the previous data; a message-less error shows the default text |
| Hooks.RunDependsOnlyOnData | FrontEnd/src/hooks/UseHomeLink.tsx:40-51 | a run's result depends on the previous state only through its data |
| Hooks.RunIdempotent | FrontEnd/src/hooks/UseHomeLink.tsx:40-55 | refetching with the same outcome changes nothing more |
| Hooks.AsyncState.constructor | FrontEnd/src/hooks/UseHomeLink.tsx:36-38 | the hook starts in the initial view |
| Hooks.AsyncState.Start | FrontEnd/src/hooks/UseHomeLink.tsx:41-42 | the state becomes the started view |
| Hooks.AsyncState.Settle | FrontEnd/src/hooks/UseHomeLink.tsx:43-50 | the state becomes the settled view |
| Hooks.AsyncState.Run | FrontEnd/src/hooks/UseHomeLink.tsx:40-51 | the state becomes the view after one whole run |
| Hooks.AsyncState.MutateThenRefetch | FrontEnd/src/hooks/UseHomeLink.tsx:71-79 | a refetch happens exactly when the write resolved, and a write that throws leaves the hook unchanged |
| Hooks.FalsyFieldsIncomplete | FrontEnd/src/hooks/UseHomeLink.tsx:164-165 | the profile is complete exactly when income range and location are present and non-empty and the household size is present and non-zero. No profile, a household of 0, or an empty text field is incomplete |
| Hooks.EligibilityFetch | FrontEnd/src/hooks/UseHomeLink.tsx:168 | the matching RPC is called exactly when the profile is complete; otherwise the fetcher resolves to `[]` |
| Hooks.Matches | FrontEnd/src/hooks/UseHomeLink.tsx:173 | `matches` is the data, or `[]` without data |
| Hooks.IncompleteProfileNoMatches | FrontEnd/src/hooks/UseHomeLink.tsx:164-173 | with an incomplete profile the RPC is not called, and after the run there are no matches, no error and no loading |
| Hooks.MatchesDefaultEmpty | FrontEnd/src/hooks/UseHomeLink.tsx:173 | before the first run, and after a failed first run, `matches` is empty |
| Auth.InitialAuth | FrontEnd/src/context/Authcontext.tsx:38-40 | no session, no profile, loading |
| Auth.OnInitialSession | FrontEnd/src/context/Authcontext.tsx:44-48 | the session is stored; with none, loading ends without touching the profile |
| Auth.OnAuthStateChange | FrontEnd/src/context/Authcontext.tsx:51-58 | the session is stored; losing it clears the profile and ends loading |
| Auth.ProfileSettled | FrontEnd/src/context/Authcontext.tsx:63-72 | loading ends either way; the profile is replaced on success and kept on failure |
| Auth.Provide | FrontEnd/src/context/Authcontext.tsx:74-86 | `user` is present exactly when a session is, and is the session's user |
| Auth.RoleFlagsExclusive | FrontEnd/src/context/Authcontext.tsx:74-85 | at most one role flag is set; none without a profile; with a profile exactly the flag of its role |
| Auth.InitialContext | FrontEnd/src/context/Authcontext.tsx:27-40 | the provider's initial value equals the context's default value |
| Auth.StaleFetchAfterSignOut | FrontEnd/src/context/Authcontext.tsx:51-72 | a fetch that resolves after sign-out stores its profile although no session remains |
| Auth.NoSessionEndsLoading | FrontEnd/src/context/Authcontext.tsx:44-58 | every session event without a session ends loading, and leaves no user |
| Auth.AuthProvider.constructor | FrontEnd/src/context/Authcontext.tsx:38-40 | the provider starts in the initial state |
| Auth.AuthProvider.ReadInitialSession | FrontEnd/src/context/Authcontext.tsx:44-48 | the state follows the initial-session transition, and a profile fetch starts exactly when there is a session |
| Auth.AuthProvider.AuthStateChanged | FrontEnd/src/context/Authcontext.tsx:51-58 | the state follows the auth-change transition, and a profile fetch starts exactly when there is a session |
| Auth.AuthProvider.FetchProfileSettled | FrontEnd/src/context/Authcontext.tsx:63-72 | the state follows the fetch-settled transition |
| UI.InitialUI | FrontEnd/src/context/UIContext.tsx:26-28 | both modals closed, mode `login` |
| UI.OpenAuth | FrontEnd/src/context/UIContext.tsx:30-33 | the auth modal opens in the given mode; the eligibility modal is untouched |
| UI.CloseAuth | FrontEnd/src/context/UIContext.tsx:35-37 | the auth modal closes and keeps its mode |
| UI.SetEligibilityOpen | FrontEnd/src/context/UIContext.tsx:39-40 | only the eligibility flag changes |
| UI.HandlersIdempotent | FrontEnd/src/context/UIContext.tsx:30-40 | applying any handler twice equals applying it once |
| UI.AuthAndEligibilityCommute | FrontEnd/src/context/UIContext.tsx:30-40 | auth and eligibility handlers commute |
| UI.CloseThenReopen | FrontEnd/src/context/UIContext.tsx:30-37 | closing an open auth modal and reopening it in its mode restores the state |
| UI.UIProvider.constructor | FrontEnd/src/context/UIContext.tsx:26-28 | the provider starts in the initial state |
| UI.UIProvider.OpenAuthModal | FrontEnd/src/context/UIContext.tsx:30-33 | the state follows `OpenAuth` |
| UI.UIProvider.CloseAuthModal | FrontEnd/src/context/UIContext.tsx:35-37 | the state follows `CloseAuth` |
| UI.UIProvider.OpenEligibilityModal | FrontEnd/src/context/UIContext.tsx:39 | the eligibility modal opens, nothing else changes |
| UI.UIProvider.CloseEligibilityModal | FrontEnd/src/context/UIContext.tsx:40 | the eligibility modal closes, nothing else changes |
| EligibilityModal.InitialModal | FrontEnd/src/components/EligibilityModal.tsx:13-15 | step 1, not loading, no result |
| EligibilityModal.Check | FrontEnd/src/components/EligibilityModal.tsx:17-19 | sets loading and schedules one timer |
| EligibilityModal.TimerFires | FrontEnd/src/components/EligibilityModal.tsx:19-23 | loading ends, the result is `eligible` and step is 2 |
| EligibilityModal.Reset | FrontEnd/src/components/EligibilityModal.tsx:26-30 | back to step 1 with no result |
| EligibilityModal.InvariantHolds | FrontEnd/src/components/EligibilityModal.tsx:13-30 | every handler keeps the invariant: step 1 or 2, never `ineligible`, step 2 exactly with `eligible` |
| EligibilityModal.FormShownIffNoResult | FrontEnd/src/components/EligibilityModal.tsx:46 | in a reachable state the form is shown exactly when there is no result |
| EligibilityModal.CloseDoesNotCancelCheck | FrontEnd/src/components/EligibilityModal.tsx:17-30 | a check pending when the modal closes still moves it to the result panel |
| EligibilityModal.ResetIdempotent | FrontEnd/src/components/EligibilityModal.tsx:26-30 | resetting twice is resetting once |
| EligibilityModal.Modal.constructor | FrontEnd/src/components/EligibilityModal.tsx:12-15 | the modal starts in its initial state |
| EligibilityModal.Modal.HandleCheck | FrontEnd/src/components/EligibilityModal.tsx:17-24 | the state follows `Check` |
| EligibilityModal.Modal.OnTimer | FrontEnd/src/components/EligibilityModal.tsx:19-23 | the state follows `TimerFires` |
| EligibilityModal.Modal.HandleClose | FrontEnd/src/components/EligibilityModal.tsx:26-30 | the UI context closes the eligibility modal and the component resets |
| EligibilityModal.Modal.CheckAgain | FrontEnd/src/components/EligibilityModal.tsx:127 | the component resets and the modal stays open |
| EligibilityPage.InitialPage | FrontEnd/src/pages/Eligibility.tsx:12-14 | step 1, not loading, no result |
| EligibilityPage.Check | FrontEnd/src/pages/Eligibility.tsx:16-18 | sets loading and schedules one timer |
| EligibilityPage.TimerFires | FrontEnd/src/pages/Eligibility.tsx:18-22 | loading ends, the result is `eligible` and step is 2 |
| EligibilityPage.CheckAgain | FrontEnd/src/pages/Eligibility.tsx:142 | only the step returns to 1; the result is kept |
| EligibilityPage.InvariantHolds | FrontEnd/src/pages/Eligibility.tsx:12-23 | every handler keeps the invariant: step 1 or 2, never `ineligible`, step 2 only with `eligible` |
| EligibilityPage.CardShownIffResultPanel | FrontEnd/src/pages/Eligibility.tsx:170 | in a reachable state the "Eligible units" card is shown exactly at step 2 |
| EligibilityPage.CheckAgainKeepsResult | FrontEnd/src/pages/Eligibility.tsx:142 | after "Check Again" the result stays `eligible` and the card hides, whereas the modal's reset clears the result |
| EligibilityPage.Page.constructor | FrontEnd/src/pages/Eligibility.tsx:12-14 | the page starts in its initial state |
| EligibilityPage.Page.HandleCheck | FrontEnd/src/pages/Eligibility.tsx:16-23 | the state follows `Check` |
| EligibilityPage.Page.OnTimer | FrontEnd/src/pages/Eligibility.tsx:18-22 | the state follows `TimerFires` |
| EligibilityPage.Page.CheckAgainClicked | FrontEnd/src/pages/Eligibility.tsx:142 | the state follows `CheckAgain` |
| ProviderDashboard.StatusVariant | FrontEnd/src/pages/ProviderDashboard.tsx:35-40 | `Approved` maps to success, `Rejected` to danger and `Waitlist` to warning, each exactly; every other status is neutral |
| ProviderDashboard.SampleStatusVariants | FrontEnd/src/pages/ProviderDashboard.tsx:27-40 | the sample statuses `Pending` and `Reviewing` are neutral; the comparison is case-sensitive |
| ProviderDashboard.InitialPostUnit | FrontEnd/src/pages/ProviderDashboard.tsx:43-46 | modal closed, no image, no preview, no error |
| ProviderDashboard.SetModal | FrontEnd/src/pages/ProviderDashboard.tsx:99 | only the modal flag changes |
| ProviderDashboard.ImageChanged | FrontEnd/src/pages/ProviderDashboard.tsx:54-65 | the error is cleared; a chosen file sets the image and its preview URL; a cleared input clears both |
| ProviderDashboard.ProviderId | FrontEnd/src/pages/ProviderDashboard.tsx:69 | the user's id, or `"provider"` without a user |
| ProviderDashboard.Submit | FrontEnd/src/pages/ProviderDashboard.tsx:67-82 | a submit with no other event before its upload settles: an upload is attempted exactly when an image is chosen, to that image's path. On failure only the error changes, to the message or `"Image upload failed"`; otherwise the modal closes and image, preview and error are cleared |
| ProviderDashboard.SubmitStart | FrontEnd/src/pages/ProviderDashboard.tsx:67-72 | up to the `await`: with an image, only the error is cleared and the upload of that image, under the provider id, is left in flight; without one, nothing is awaited and the modal closes with image, preview and error cleared |
| ProviderDashboard.SubmitSettled | FrontEnd/src/pages/ProviderDashboard.tsx:72-81 | after the `await`, on whatever state is current by then: a failure sets only the error; a success closes the modal and clears image and preview, and leaves the error as it is |
| ProviderDashboard.SubmitIsStartThenSettled | FrontEnd/src/pages/ProviderDashboard.tsx:67-82 | a submit with no event during the upload is the start followed by the settling |
| ProviderDashboard.OverlappingSubmitsLeaveStaleError | FrontEnd/src/pages/ProviderDashboard.tsx:67-82 | a second "Next Step" during the upload starts a second upload of the same image. With one success and one failure, in either order, the modal ends closed and cleared but holding the failure's error. Two sequential submits end with no error |
| ProviderDashboard.ImageChosenDuringUploadIsCleared | FrontEnd/src/pages/ProviderDashboard.tsx:54-81 | an image chosen while an upload is awaited is cleared, with its preview, when that upload succeeds |
| ProviderDashboard.UploadPathPrefix | FrontEnd/src/pages/ProviderDashboard.tsx:69-72 | the attempted path starts with the provider id and `/`, which is `provider/` without a user |
| ProviderDashboard.FailedUploadKeepsForm | FrontEnd/src/pages/ProviderDashboard.tsx:73-76 | a failed upload keeps the modal and image and shows an error; retrying against the same failure changes nothing |
| ProviderDashboard.CancelKeepsImage | FrontEnd/src/pages/ProviderDashboard.tsx:232 | closing without submitting keeps the image and preview for the next opening |
| ProviderDashboard.PreviewMatchesImagePreserved | FrontEnd/src/pages/ProviderDashboard.tsx:43-82 | every handler keeps "a preview exactly when an image" |
| ProviderDashboard.Dashboard.constructor | FrontEnd/src/pages/ProviderDashboard.tsx:43-46 | the page starts in its initial state |
| ProviderDashboard.Dashboard.OpenNewUnitModal | FrontEnd/src/pages/ProviderDashboard.tsx:99 | the modal opens, nothing else changes |
| ProviderDashboard.Dashboard.CloseNewUnitModal | FrontEnd/src/pages/ProviderDashboard.tsx:284 | the modal closes, nothing else changes |
| ProviderDashboard.Dashboard.HandleImageChange | FrontEnd/src/pages/ProviderDashboard.tsx:54-65 | the state follows `ImageChanged` |
| ProviderDashboard.Dashboard.BeginPostUnitSubmit | FrontEnd/src/pages/ProviderDashboard.tsx:67-72 | the state follows `SubmitStart`, and the upload left in flight is returned |
| ProviderDashboard.Dashboard.PostUnitUploadSettled | FrontEnd/src/pages/ProviderDashboard.tsx:72-81 | the state follows `SubmitSettled`, and the finished upload is returned |
| ProviderDashboard.Dashboard.HandlePostUnitSubmit | FrontEnd/src/pages/ProviderDashboard.tsx:67-82 | the start followed at once by the settling: the new state and the attempted upload are those of `Submit` |
| Layout.BoolText | FrontEnd/src/components/Layout.tsx:32 | `String(b)` is `"false"` exactly for false |
| Layout.InitialVisibility | FrontEnd/src/components/Layout.tsx:16-23 | hidden exactly when the read succeeds and the stored value is exactly `"false"` |
| Layout.Toggle | FrontEnd/src/components/Layout.tsx:28-36 | visibility flips. A successful write stores `String(next)` under the key; a failed one leaves storage as it was; no other key changes |
| Layout.ToggleThenReload | FrontEnd/src/components/Layout.tsx:16-36 | after a toggle whose write succeeded, a reload reads back the same visibility |
| Layout.ToggleTwice | FrontEnd/src/components/Layout.tsx:28-36 | two toggles restore the visibility. The stored value ends as `String(visible)`, so storage is restored exactly when it already held that |
| Layout.PersistedPreserved | FrontEnd/src/components/Layout.tsx:16-36 | once storage agrees with the sidebar, toggling keeps it agreeing |
| Layout.Sidebar.constructor | FrontEnd/src/components/Layout.tsx:16-23 | the sidebar starts with the initial visibility read from storage |
| Layout.Sidebar.ToggleSidebar | FrontEnd/src/components/Layout.tsx:28-36 | the state follows `Toggle` |
| Layout.SidebarDashboardItems | FrontEnd/src/components/Layout.tsx:105-106 | an item is kept exactly when it is not the admin dashboard or the user is an admin; for an admin nothing is dropped |
| Layout.DashboardLinksByRole | FrontEnd/src/components/Layout.tsx:44-48 | the sidebar lists all three dashboards for an admin and the citizen and provider ones, in order, for others. The mobile menu's list (line 193) still holds the admin dashboard |
| Layout.AtMostOneBottomNavActive | FrontEnd/src/components/Layout.tsx:50-55 | on any path at most one bottom-nav item is active, and on a `/dashboard` path it is "Dashboard" (the rule at line 221) |
| Layout.DashboardPrefixExamples | FrontEnd/src/components/Layout.tsx:221 | the prefix test is on characters: `/dashboard`, `/dashboard/admin` and `/dashboards` all activate "Dashboard" |

## Left out

- Backend calls are not modelled as code. These are the Supabase auth, table queries, storage uploads, public URLs, signed URLs, audit logs and the `match_housing_and_programs` RPC. Only their outcomes enter, as parameters.
- Schema.ParseBound: an all-digit capture is read as the exact natural number. `parseFloat` gives a double, so values above 2^53 are rounded (`"9007199254740993"` reads as 9007199254740992), and values beyond about 1.8e308 become `Infinity`.
- Schema.ParseBound: a captured token that contains `.` (such as `"1.5"`, `"."` or `"1.2.3"`) is kept as text; its `parseFloat` value, NaN included, is not modelled.
- Schema.NumrangeMidpoint: the midpoint is given only when both bounds are whole numbers; otherwise the result is `NotModelled`.
- Schema.FormatNumrange: JavaScript's exponent notation for numbers at or above 1e21, and its formatting of fractions, are not modelled. The bounds are integers.
- Api.CountBy: keys that name `Object.prototype` members are not modelled. The source counts into a plain `{}`, so `"constructor"` or `"toString"` finds the inherited function and its count becomes a string, and `"__proto__"` is dropped. The model counts every key from zero.
- Api.TallyRegions: locations that name `Object.prototype` members are not modelled. In the source's plain `{}` they find an inherited value, so their counters are never set up. The model starts every location at zero counters.
- Api.CountBy: `Object.entries` lists integer-like keys first in ascending order. The model keeps plain insertion order for every key.
- Api.TallyRegions: the `Object.entries` call that ends `unitsByRegion` lists integer-like locations first, in ascending order, and the other locations after them in insertion order. That order is not modelled. The model returns every location in first-seen order, so units at `"Kisumu"` then `"12"` give `["Kisumu", "12"]` where the source gives `["12", "Kisumu"]`.
- Api.TallyRegions: a unit whose status lies outside the enum makes the source compute `undefined + 1`, which is NaN. Statuses are the three enum values in the model.
- Api.DocumentPath: the database insert that follows the storage upload in `documents.upload` is not modelled.
- Currency formatting (`formatKSh`, FrontEnd/src/lib/format.ts) depends on locale-specific number formatting and is left out.
- `Date.now()`, `crypto.randomUUID()` and `URL.createObjectURL` are parameters. `URL.revokeObjectURL` is a browser side effect and is not modelled.
- Timers: each `setTimeout` callback is a separate transition and the 1500 ms delay is not modelled. The page's disabled submit button is rendering, so a second check while loading is modelled as the handler would run it.
- Hooks.AsyncState.MutateThenRefetch: `refetch()` is not awaited in the source. The model lets it complete before the next event, so interleavings of overlapping runs are not modelled.
- React rendering, effects and their dependency lists, animation, focus and Escape handling, and `Promise.all` concurrency in `useAnalytics` are not modelled.
- Housing.Listing: the picture URL of each listing is presentational and left out.
- Upload.UploadHousingImage: the `getPublicUrl` lookup after a successful upload is folded into the `Stored` reply.
- The presentational pages and components are not modelled: Home, Programs, the admin and citizen dashboards, src/pages/ProviderDashboard.tsx and the `ui` components. Nor are the auth form, modal and page wrappers or the Supabase client setup.
