# MOA driver portal — a Dafny model of its authentication and page logic

MOA is a single-page web application for drivers who carry advertising
posters on their cars. Drivers sign up, keep a profile, submit a photo of the
poster for verification and log trips. Administrators review the
verifications and browse the drivers. The data lives in a hosted backend
(authentication, row storage, file storage).

This project models the client-side core of that application in Dafny:

- **Authentication controller** (`AuthMachine`, `AuthContext`,
  `AuthConstants`, `AuthUtils`). The provider's state is `{user, isAdmin,
  isLoading}`. Every `setAuthData` call is a `Write`. Every operation is the
  sequence of writes it publishes: the state update, the event callback, the
  bootstrap, login, signup and logout. The class `AuthContext.AuthProvider`
  runs these operations on its fields and is proved to publish exactly
  those writes. The lemmas show two things. First, no interleaving of
  writes ever makes a visitor without a user an admin. Second, each
  operation ends in the state the code gives it.
- **Route guards** (`Routes`). The four guards and the route table decide
  what the router shows for a path, given the authentication state.
- **Data-access wrappers** (`SupabaseApi`). Each backend answer maps to
  what the pages see (`null`, `false`, `[]` or the data). The model also
  gives the requests each multi-step wrapper sends.
- **Driver dashboard** (`Dashboard`, `DashboardHandlers`). Profile loading
  retries up to three times and may unmount in the middle. The form
  handlers and the two submissions are modelled too.
- **Trip logging** (`TripLogging`). The trip list is loaded, the three
  optional photos are uploaded, the trip record is built and submitted, and
  the form is reset.
- **Admin dashboard** (`AdminDashboard`). It covers the access check, the
  two list loads, the case-insensitive driver search, the table cells and
  the approve/reject review.

The backend is an oracle. Each awaited call becomes a parameter of type
`Await<T> = Resolved(value) | Threw(reason)`. A resolved answer carries the
backend's `{data, error}` object. The model also records the requests each
operation sends. Timestamps (`Date.now()`, `new Date().toISOString()`) are
parameters too.

Four behaviours of the code are stated as lemmas:

- **Late admin lookup.** Nothing discards an admin lookup that finishes
  after the visitor signed out. `AuthMachine.LateLookupRestoresUser` shows
  a SIGNED_OUT event landing between the two phases of an update, after
  which the signed-out visitor is signed in again, and an admin.
- **Logout on error.** Logout clears the state when `signOut()` resolves,
  even with an error object. When the call throws, the user and the admin
  flag stay and only loading goes off. See `AuthMachine.LogoutOutcome`.
- **Unknown events.** An unknown event without a session user leaves the
  state as it is, loading included. See
  `AuthMachine.UserlessEventsKeepState`.
- **Retry after unmount.** The driver dashboard checks `mounted` only after
  each fetch. A retry whose delay outlives the page still turns loading on
  and fetches again. See `Dashboard.RetryRunsAfterUnmount`.

Files: `wrappers.dfy`, `types.dfy`, `backend.dfy`, `auth_utils.dfy`,
`constants.dfy`, `auth_machine.dfy`, `auth_context.dfy`, `routes.dfy`,
`supabase_api.dfy`, `dashboard.dfy`, `dashboard_handlers.dfy`,
`trip_logging.dfy`, `admin_dashboard.dfy`.

## Model

| member | source | states |
|---|---|---|
| AuthUtils.CheckIsAdmin | src/lib/auth-utils.ts:3-21 | admin is granted exactly when the lookup resolves without an error and reads a row whose `is_admin` is true; a returned error, a thrown error, a missing row or a missing flag each give false (fails closed, never throws) |
| AuthConstants.InitialAuthData | src/contexts/constants.ts:5-9 | the initial state has no user, is not admin and is still loading, so only a user can be an admin |
| AuthConstants.DefaultLogin | src/contexts/constants.ts:24 | outside a provider every login attempt reports failure |
| AuthConstants.DefaultSignup | src/contexts/constants.ts:25 | outside a provider signup hands back neither data nor an error |
| AuthConstants.DefaultLogoutWrites | src/contexts/constants.ts:26 | outside a provider logout leaves every state unchanged |
| AuthConstants.DefaultCheckIsAdmin | src/contexts/constants.ts:27 | outside a provider nobody is an admin |
| AuthMachine.LoggedOut | src/contexts/AuthContext.tsx:17-21 | the reset state: no user, not admin, not loading |
| AuthMachine.Apply | src/contexts/AuthContext.tsx:16-49 | no single state write makes a visitor without a user an admin; a loading write keeps the user and the flag; the first-phase write keeps the previous admin flag and installs the given user |
| AuthMachine.WritesKeepInvariant | src/contexts/AuthContext.tsx:9-302 | every sequence of `setAuthData` calls, in any interleaving, keeps "admin implies user" |
| AuthMachine.ApplyAllAppend | src/contexts/AuthContext.tsx:9-302 | publishing two runs of writes one after the other equals publishing their concatenation |
| AuthMachine.UpdateWithoutIdLogsOut | src/contexts/AuthContext.tsx:16-23 | an update with a falsy user id ends logged out, whatever the state before |
| AuthMachine.UpdateTwoPhases | src/contexts/AuthContext.tsx:27-49 | an update with an id first publishes the user (email defaulting to '') with loading on and the previous admin flag, then the same user with the lookup's verdict and loading off; the verdict is true iff the lookup grants |
| AuthMachine.UpdateIdempotent | src/contexts/AuthContext.tsx:13-59 | running the same update twice ends where running it once does |
| AuthMachine.SignOutEventsReset | src/contexts/AuthContext.tsx:122-146 | SIGNED_OUT, and INITIAL_SESSION without a session user, end logged out |
| AuthMachine.SessionEventsUpdate | src/contexts/AuthContext.tsx:116-153 | every event except SIGNED_OUT that carries a session user runs the update for that user |
| AuthMachine.UserlessEventsKeepState | src/contexts/AuthContext.tsx:116-153 | SIGNED_IN, USER_UPDATED and unknown events without a session user leave the state unchanged |
| AuthMachine.UnmountedIgnoresEvents | src/contexts/AuthContext.tsx:112 | after unmount an event changes nothing |
| AuthMachine.EventsKeepInvariant | src/contexts/AuthContext.tsx:109-155 | for every sequence of delivered events, only a user is ever an admin |
| AuthMachine.UnmountedBootstrapSilent | src/contexts/AuthContext.tsx:64-106 | an unmounted bootstrap publishes nothing, before or after its await |
| AuthMachine.BootstrapOutcome | src/contexts/AuthContext.tsx:64-106 | a mounted bootstrap ends logged out on a session error, a thrown error, no session or a session user with an empty id; a session user with a non-empty id ends in that user's resolved state |
| AuthMachine.LoginResult | src/contexts/AuthContext.tsx:168-213 | login returns true exactly when sign-in resolves without an error |
| AuthMachine.SignupOutcome | src/contexts/AuthContext.tsx:215-268 | signup hands back the new user and session on success, and on failure only an error and no data |
| AuthMachine.CredentialCallsKeepIdentity | src/contexts/AuthContext.tsx:168-268 | login and signup never change the user or the admin flag; they end with loading off on error, and on success leave loading on for the auth event to settle |
| AuthMachine.LogoutOutcome | src/contexts/AuthContext.tsx:270-302 | logout ends logged out when `signOut()` resolves (even with an error object); when it throws, only loading goes off |
| AuthMachine.LateLookupRestoresUser | src/contexts/AuthContext.tsx:27-49 | a SIGNED_OUT event between the two phases of an update is overwritten: the second phase publishes the user again, as an admin when the lookup grants |
| AuthContext.AuthProvider.constructor | src/contexts/AuthContext.tsx:9 | the provider starts mounted in the initial state |
| AuthContext.AuthProvider.UpdateAuthState | src/contexts/AuthContext.tsx:13-59 | the provider's state becomes the old state after the update's writes; it stays valid and mounted is unchanged |
| AuthContext.AuthProvider.HandleEvent | src/contexts/AuthContext.tsx:109-155 | the state becomes the old state after the event callback's writes, which are none once unmounted |
| AuthContext.AuthProvider.StartLoadUser | src/contexts/AuthContext.tsx:64-75 | the bootstrap's first step turns loading on only while mounted |
| AuthContext.AuthProvider.FinishLoadUser | src/contexts/AuthContext.tsx:76-105 | the bootstrap's continuation publishes the reset or the session user's update, and only while mounted |
| AuthContext.AuthProvider.Unmount | src/contexts/AuthContext.tsx:161-165 | cleanup clears `mounted` and leaves the published state alone |
| AuthContext.AuthProvider.Login | src/contexts/AuthContext.tsx:168-213 | publishes the login writes and returns whether sign-in succeeded |
| AuthContext.AuthProvider.Signup | src/contexts/AuthContext.tsx:215-268 | publishes the signup writes and returns the signup outcome |
| AuthContext.AuthProvider.Logout | src/contexts/AuthContext.tsx:270-302 | publishes the logout writes |
| Routes.ProtectedRoute | src/App.tsx:23-46 | loading iff auth loading; the page renders iff resolved with a user; otherwise redirect to /login remembering the location |
| Routes.AdminRoute | src/App.tsx:49-73 | the page renders iff resolved with a user who is an admin; otherwise redirect to /dashboard, never to /login |
| Routes.ReturnPath | src/App.tsx:94 | the remembered path when there is a non-empty one, else /dashboard |
| Routes.PublicRoute | src/App.tsx:76-100 | the page renders iff resolved without a user; a signed-in visitor goes back to the remembered path |
| Routes.IndexRoute | src/App.tsx:103-117 | the home page renders iff resolved without a user; a signed-in visitor goes to /dashboard |
| Routes.RouteTable | src/App.tsx:119-164 | which guard stands in front of each path; exactly the unknown paths are unguarded and show the not-found page |
| Routes.LoadingNeverRedirects | src/App.tsx:23-117 | while auth is loading every guarded path shows the loading screen and nothing redirects |
| Routes.PagesRenderOnlyForAdmitted | src/App.tsx:119-164 | the admin page renders only for a resolved admin, the driver pages only for a resolved user, the login and signup pages only for a resolved visitor without a user |
| Routes.AdminNeverSendsToLogin | src/App.tsx:68-70 | /admin redirects only to /dashboard; a signed-in non-admin is sent there |
| Routes.LoginReturnsToRequestedPage | src/App.tsx:41-96 | a visitor bounced from a driver page to /login is sent back to that page once signed in |
| Routes.ShowDependsOnlyOnGuardView | src/App.tsx:23-117 | what is shown depends only on loading, user presence, the admin flag and the location |
| SupabaseApi.DefaultProfile | src/lib/supabase.ts:53-62 | the profile created for a user without one has that user's id, the email or '', empty names, is neither verified nor admin, and takes its creation and update times from two separate clock reads |
| SupabaseApi.GetDriverProfile | src/lib/supabase.ts:30-85 | the row when the select finds one; on the no-row code, the inserted default row (or nothing if there is no current user or the insert fails); every other error, returned or thrown, gives no profile; the requests sent are given for each case |
| SupabaseApi.WriteSucceeded | src/lib/supabase.ts:87-105 | the try/catch write wrappers return true exactly when the write resolves without an error |
| SupabaseApi.WriteOutcome | src/lib/supabase.ts:162-173 | the write wrappers without try/catch return whether no error came back, and propagate a throw |
| SupabaseApi.NewProfileRow | src/lib/supabase.ts:112-121 | the inserted row defaults names and email to '', sets its creation and update times from two separate clock reads, forces both flags off and keeps every other field |
| SupabaseApi.CreateDriverProfile | src/lib/supabase.ts:107-137 | sends the normalised row and returns true exactly when the insert resolves without an error |
| SupabaseApi.CreatedProfilesNeverPrivileged | src/lib/supabase.ts:117-118 | a caller asking for the admin or verified flag never gets it stored |
| SupabaseApi.UploadFile | src/lib/supabase.ts:140-154 | the stored path on success, nothing on a returned error, a throw propagated |
| SupabaseApi.RowsOrEmpty | src/lib/supabase.ts:175-216 | the list wrappers return the rows, `[]` on a returned error, and propagate a throw |
| SupabaseApi.UpdateVerificationStatus | src/lib/supabase.ts:218-234 | asks for the current user first (a throw there sends no update), then updates the row with the status, the reviewer id and the time, and maps the answer like the other write wrappers |
| SupabaseApi.CreateDemoAccounts | src/lib/supabase.ts:237-290 | succeeds iff two demo profiles already exist, or both sign-ups succeed; it sends no sign-up when the profiles exist; every profile insert it sends is neither admin nor verified and carries the driver's or the admin's own pair of clock reads: the driver's insert the driver's pair, the admin's insert the admin's pair |
| SupabaseApi.DemoAdminStoredWithoutAdminFlag | src/lib/supabase.ts:273-282 | the demo admin asks for the admin flag, but the row stored for it has the flag off |
| Dashboard.FetchesBounded | src/pages/Dashboard.tsx:36-56 | a load started at retry r fetches at most 4 − r times |
| Dashboard.AtMostFourFetches | src/pages/Dashboard.tsx:33-89 | one run of the effect fetches the profile at most four times (one try and three retries) |
| Dashboard.NothingWhileAuthLoading | src/pages/Dashboard.tsx:82-84 | while auth is loading the effect does nothing |
| Dashboard.NoUserNoFetch | src/pages/Dashboard.tsx:39-42 | without a user the effect only turns loading off and fetches nothing |
| Dashboard.NoSettlingAfterUnmount | src/pages/Dashboard.tsx:48-79 | the profile, the error toast and the final loading-off are applied only while the page is mounted |
| Dashboard.RetryRunsAfterUnmount | src/pages/Dashboard.tsx:50-56 | unmounting during a retry's delay does not stop the retry: it turns loading on and fetches again |
| Dashboard.MountedLoadEndsNotLoading | src/pages/Dashboard.tsx:75-79 | a load that stays mounted ends with loading off |
| Dashboard.NeverUnmountedStaysMounted | src/pages/Dashboard.tsx:44-56 | a page that never unmounts sees every effect of the load while mounted |
| Dashboard.FetchesUntilFound | src/pages/Dashboard.tsx:50-56 | a mounted load fetches until the first attempt that finds a profile, or until the retries run out |
| Dashboard.StoresFirstFound | src/pages/Dashboard.tsx:50-66 | a mounted load performs `setProfile` with the first profile found (or the last empty result); the error toast shows iff no attempt found one |
| Dashboard.EndsShowingFirstFound | src/pages/Dashboard.tsx:50-79 | from any page state, a load on a page that never unmounts leaves the page showing the first profile found (or the last empty result) with loading off; no later step overwrites it |
| Dashboard.ProfileLoader.constructor | src/pages/Dashboard.tsx:24-36 | the page starts with no profile, loading on, mounted, and no retries |
| Dashboard.ProfileLoader.LoadProfile | src/pages/Dashboard.tsx:38-80 | the effects `loadProfile` performs are exactly the load trace, and the page state is that trace replayed on the old state |
| Dashboard.ProfileLoader.Attempt | src/pages/Dashboard.tsx:44-56 | one attempt turns loading on, fetches, and continues as the trace says |
| Dashboard.ProfileLoader.AfterFetch | src/pages/Dashboard.tsx:48-79 | after a fetch: stop if unmounted, retry while nothing was found and retries remain, else settle |
| Dashboard.ProfileLoader.Retry | src/pages/Dashboard.tsx:52-56 | a retry bumps the counter and runs the whole load again, followed by the outer loading-off if still mounted |
| DashboardHandlers.HandleProfileChange | src/pages/Dashboard/handlers.ts:5-18 | without a profile nothing changes; otherwise the named field takes the value and every other field is unchanged |
| DashboardHandlers.HandleFileChange | src/pages/Dashboard/handlers.ts:20-36 | the first chosen file replaces the current one; an empty choice keeps it |
| DashboardHandlers.StorageUrlInjective | src/pages/Dashboard/handlers.ts:59 | different storage paths in one bucket give different URLs |
| DashboardHandlers.CarPhotoUrl | src/pages/Dashboard/handlers.ts:52-61 | a truthy uploaded path becomes the new URL in `driver-uploads`; otherwise the existing URL stays |
| DashboardHandlers.DashboardForms.ChangeField | src/pages/Dashboard/handlers.ts:5-18 | the form's profile becomes the changed profile |
| DashboardHandlers.DashboardForms.ChangeCarPhoto | src/pages/Dashboard/handlers.ts:20-27 | the selected car photo follows the file change |
| DashboardHandlers.DashboardForms.ChangePosterImage | src/pages/Dashboard/handlers.ts:29-36 | the selected poster image follows the file change |
| DashboardHandlers.DashboardForms.SubmitProfile | src/pages/Dashboard/handlers.ts:38-103 | does nothing without a user or a profile; otherwise uploads the photo if one is chosen, saves the profile with the new or kept photo URL — a profile with an id is updated as it is, its verification and admin flags kept, and a profile without an id is created through `NewProfileRow` with verification and admin off — reports success iff the save succeeded, and always clears the saving flag |
| DashboardHandlers.DashboardForms.SubmitPosterVerification | src/pages/Dashboard/handlers.ts:105-163 | without a user or an image, sends nothing and reports failure; otherwise uploads, inserts a pending verification only when a path came back, reports success iff the insert succeeded, and clears the image only on success |
| TripLogging.UploadPathsDistinct | src/pages/TripLogging.tsx:65-81 | the storage paths of two different photo slots never collide when their timestamps have equal length (`Date.now()` gives 13 digits); with unequal lengths a file name can reproduce another slot's path |
| TripLogging.ImageUrl | src/pages/TripLogging.tsx:67-69 | a URL exists iff the upload returned a truthy path, and then points into `trip-uploads` |
| TripLogging.SlotUrl | src/pages/TripLogging.tsx:64-86 | a slot has a URL iff a photo was chosen and its upload returned a truthy path |
| TripLogging.TripRecord | src/pages/TripLogging.tsx:88-102 | the record belongs to the user, is stamped with one time for start, end, creation and update, and carries the three image URLs |
| TripLogging.TripForm.constructor | src/pages/TripLogging.tsx:17-29 | the page starts with no trips, loading on, not submitting, and an empty form |
| TripLogging.TripForm.LoadTrips | src/pages/TripLogging.tsx:31-44 | without a resolved user nothing is fetched; otherwise the user's trips are fetched, then stored (`[]` on a returned error) with loading off; a throw leaves the trips and loading on |
| TripLogging.TripForm.ChangeImage | src/pages/TripLogging.tsx:46-50 | only the chosen slot's photo changes |
| TripLogging.TripForm.UploadImage | src/pages/TripLogging.tsx:64-86 | one slot's upload: no request without a photo; otherwise one upload to the slot's path, with the URL and the throw as the slot functions say |
| TripLogging.TripForm.UploadImages | src/pages/TripLogging.tsx:63-86 | the three uploads throw iff one of them throws; otherwise the URLs are the slots' URLs; every request goes to `trip-uploads` |
| TripLogging.TripForm.SaveTrip | src/pages/TripLogging.tsx:104-136 | inserts the trip; only a successful insert clears the form and refetches the list (`[]` on a returned error, kept on a throw); the last notice is success iff the insert and the refetch both succeed |
| TripLogging.TripForm.HandleSubmit | src/pages/TripLogging.tsx:52-140 | does nothing without a user; otherwise a trip is logged iff no upload threw, the form is reset and the list refetched only when the log succeeded, and the submitting flag always ends off |
| AdminDashboard.FilterDrivers | src/pages/AdminDashboard.tsx:114-118 | keeps exactly the drivers whose first name, last name or email contains the term case-insensitively, each as many times as it occurs, and nothing else |
| AdminDashboard.FilterIsSubsequence | src/pages/AdminDashboard.tsx:114-118 | the filtered list keeps the drivers' order |
| AdminDashboard.FilterAppend | src/pages/AdminDashboard.tsx:114-118 | filtering distributes over concatenation |
| AdminDashboard.FilterIdempotent | src/pages/AdminDashboard.tsx:114-118 | filtering twice with the same term equals filtering once |
| AdminDashboard.IncludesEmpty | src/pages/AdminDashboard.tsx:115-117 | the empty term occurs in every string |
| AdminDashboard.NoFieldsNeverKept | src/pages/AdminDashboard.tsx:115-117 | a driver with no first name, last name or email is never kept, whatever the term |
| AdminDashboard.EmptyTermKeepsNamed | src/pages/AdminDashboard.tsx:114-118 | with an empty term, exactly the drivers with at least one of the three fields are kept |
| AdminDashboard.SearchIgnoresTermCase | src/pages/AdminDashboard.tsx:115-117 | lower-casing the term does not change which drivers match |
| AdminDashboard.NameCell | src/pages/AdminDashboard.tsx:173 | the first name and last name ('' when missing) joined by one space |
| AdminDashboard.PhoneCell | src/pages/AdminDashboard.tsx:175 | the phone when truthy, else "-"; never empty |
| AdminDashboard.VehicleCell | src/pages/AdminDashboard.tsx:176 | make and model joined by one space when both are truthy, else "Not provided" |
| AdminDashboard.EffectPlan | src/pages/AdminDashboard.tsx:25-54 | the effect denies access iff auth is resolved and the visitor is not admin, and loads iff resolved and admin |
| AdminDashboard.PlanCases | src/pages/AdminDashboard.tsx:27-53 | while loading the effect does nothing; once resolved it does exactly one of deny and load; it loads only for a signed-in visitor |
| AdminDashboard.AdminPage.constructor | src/pages/AdminDashboard.tsx:18-22 | the page starts with empty lists, both loading flags on and an empty search |
| AdminDashboard.AdminPage.RunEffect | src/pages/AdminDashboard.tsx:25-54 | a denied visitor is told and sent to /dashboard; an admin gets both lists fetched in order and stored (`[]` on a returned error), each loading flag going off after its list; a throw stops the load and leaves the remaining flags on; while loading nothing happens |
| AdminDashboard.AdminPage.Review | src/pages/AdminDashboard.tsx:56-112 | approve or reject: sends the status update and reports the outcome; refetches the pending list only after a successful update; any throw gives the unexpected-error notice |

## Left out

- Toasts, console logging and their texts are left out. The pages' notices are
  kept as a small datatype (success, failure, access denied).
- The backend, its client library and the network are oracles. Each awaited
  answer is a parameter. `signIn`, `signUp`, `signOut` and `getCurrentUser`
  in `src/lib/supabase.ts` only forward to the client, so their answers are
  the oracles themselves. `getFileUrl` is not used by the modelled pages and
  is not part of this model.
- Clocks are parameters: every `Date.now()` and `new Date().toISOString()`
  read is a string passed in. The two reads of one inserted profile row are
  the two fields of `SupabaseApi.Stamps`, and each demo account has its own
  pair.
- `setTimeout` in the dashboard's retry is left out. The model keeps only
  the fact that the delay is an await the page may unmount during.
- Concurrent interleaving of the bootstrap with pushed events is not
  enumerated. Every operation publishes a sequence of writes, and
  `AuthMachine.WritesKeepInvariant` covers any interleaving of them.
  `AuthMachine.LateLookupRestoresUser` exhibits one interleaving.
- The `catch` in `updateAuthState` (src/contexts/AuthContext.tsx:50-58) is
  unreachable, because `checkIsAdmin` never throws. The dashboard's `catch`
  (src/pages/Dashboard.tsx:67-74) is unreachable too, because
  `getDriverProfile` never rejects. So the toast on an exception there is
  not modelled.
- React's `setState` after unmount is a no-op. `Dashboard.ProfileLoader`
  still updates its fields, but tags every effect in its log with whether
  the page was mounted. The lemmas read that tag.
- Rendering, styling and react-router's own matching are left out.
  `Routes.RouteFor` compares paths exactly, so router case-insensitivity
  and trailing slashes are not modelled, and neither is `replace`.
- `AdminDashboard.Lower` folds only ASCII letters. JavaScript's
  `toLowerCase` also folds other Unicode letters.
- `TripLogging.TripRecord` keeps the distance as the entered text.
  `parseFloat` and floating point are left out.
- `DashboardHandlers.HandleProfileChange` handles only the nine fields the
  form has inputs for. The source's computed key `[name]` could set any
  property.
- A poster verification's `id` column is not in the datatype.
  `AdminDashboard.AdminPage.Review` takes the id as a parameter.
- TripLogging.TripForm.SaveTrip: each submission keeps only its last
  notice. When the refetch throws after a logged trip, the success toast
  shown before the error toast is not kept.
- `carYear` is kept as text, as the form's input delivers it.
- The profile page's tab state, `profileError` (never set) and the reload
  and logout buttons are UI only.
