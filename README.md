# Employee portal: authentication state, route gate, login submit, policy list, welcome text

A Dafny model of the logic in a React employee portal. The portal has a login screen with
employee and admin tabs, and a protected dashboard. The model covers five pieces:

- **Authentication provider** (`auth.dfy`, module `Auth`). The provider holds four pieces of
  state: `user`, `session`, `profile` and `loading`. Four asynchronous arrivals change them:
  the backend's auth-change listener, the initial session check, the completion of a profile
  fetch, and sign-out. Each arrival is a pure transition on `AuthState` and a method of the
  class `AuthProvider`, which updates its fields in place. `Run` folds an arbitrary sequence of
  arrivals, so the invariants hold for every interleaving.
- **Route gate** (`protected_route.dfy`, module `ProtectedRoute`). This is a pure three-way
  decision on `(loading, user)`: a waiting view, a redirect to `/`, or the children unchanged.
- **Login submit** (`login_tabs.dfy`, module `Login`). The employee and admin handlers are one
  piece of code, parameterised by `Tab`. A submit is split at the await of the sign-in request:
  `BeginSubmit` validates and builds the `<id>@company.com` request, and `FinishSubmit`
  classifies the backend's answer. `Submit` is the whole effect of one submit as a value.
- **Policy categories** (`policy_list.dfy`, module `PolicyList`). `Toggle` removes every
  occurrence of a category that is present and appends one that is absent. The class
  `PolicyList` holds the expanded list.
- **Welcome text** (`welcome_section.dfy`, module `WelcomeSection`). This covers the split on
  `' '`, the avatar initials, the first name in the greeting, and the choice between picture
  and initials.

`wrappers.dfy` holds the `Option` type used for the source's nullable values.

A completed profile fetch is written without checking whether the current user is still the one
it was started for: `setProfile` at src/hooks/useAuth.tsx:72 has no such check.
`Auth.StaleFetchRepopulates` proves the consequence: a fetch that completes after sign-out leaves a profile with no user. The clears of `signOut` at
src/hooks/useAuth.tsx:117-119 run only after the awaited backend call resolves, and the model
starts at that point.

## Model

| member | source | states |
|---|---|---|
| Auth.UserOf | src/hooks/useAuth.tsx:85 | `session?.user ?? null`: a user only with a session, and then it is the session's user |
| Auth.DisplayName | src/hooks/useAuth.tsx:66 | the credentials name when it is present and non-empty, otherwise "Unknown"; never empty |
| Auth.FetchedProfile | src/hooks/useAuth.tsx:30-77 | the fetch writes nothing exactly when it throws, the profile query fails or finds no row, or the credentials query fails; a written profile takes employee id, role and created_at from the row, has no picture, and takes its name from DisplayName |
| Auth.FetchFor | src/hooks/useAuth.tsx:87-90 | a fetch is started exactly when the session has a user, and it is for that user's id |
| Auth.OnAuthStateChange | src/hooks/useAuth.tsx:82-96 | the listener sets the new session and its user and turns loading off; with no user the profile is cleared, with a user the profile is kept |
| Auth.OnInitialSession | src/hooks/useAuth.tsx:100-110 | the initial check sets the session and its user and turns loading off, and never touches the profile |
| Auth.OnProfileFetched | src/hooks/useAuth.tsx:63-72 | a completed fetch changes only the profile: unchanged on the early-return paths, otherwise the fetched profile, whatever the current user is |
| Auth.OnSignOut | src/hooks/useAuth.tsx:115-120 | sign-out empties user, session and profile and keeps loading |
| Auth.Step | src/hooks/useAuth.tsx:81-120 | one arrival, dispatched to its handler, keeps the user tied to the session, and leaves loading on exactly when it was on and the arrival is neither a listener event nor the initial check |
| Auth.Run | src/hooks/useAuth.tsx:79-120 | the arrivals applied in order keep the user tied to the session, and never turn loading back on |
| Auth.StepConsistent | src/hooks/useAuth.tsx:84-85 | every arrival keeps the user equal to the session's user |
| Auth.RunConsistent | src/hooks/useAuth.tsx:81-120 | after any sequence of arrivals the user is the session's user, so a user never exists without a session |
| Auth.InitialRunConsistent | src/hooks/useAuth.tsx:25-28 | from the mount state, every run is consistent |
| Auth.RunPaired | src/hooks/useAuth.tsx:84-85 | when every delivered session carries a user, session and user are both present or both absent after any run from such a state |
| Auth.InitialRunPaired | src/hooks/useAuth.tsx:25-26 | from mount, with sessions that carry users, session and user are both present or both absent after every run |
| Auth.RunLoading | src/hooks/useAuth.tsx:95-109 | loading is on after a run exactly when it was on before and no listener event and no initial-check result arrived |
| Auth.LoadingMonotone | src/hooks/useAuth.tsx:28-109 | once loading is off, no sequence of arrivals turns it on again |
| Auth.SignOutLast | src/hooks/useAuth.tsx:115-120 | whatever came before, sign-out leaves user, session and profile empty and loading as it was |
| Auth.StaleFetchRepopulates | src/hooks/useAuth.tsx:72 | a fetch that completes after sign-out publishes its profile while user and session are empty |
| Auth.RestoredSessionScenario | src/hooks/useAuth.tsx:100-110 | a restored session for user u followed by u's successful fetch yields u, its session, the fetched profile, and loading off |
| Auth.NoSessionKeepsProfile | src/hooks/useAuth.tsx:105-107 | an initial check with no user leaves an existing profile in place, so a profile can outlive its user |
| Auth.AuthProvider.constructor | src/hooks/useAuth.tsx:25-28 | the provider starts with user, session and profile null and loading true |
| Auth.AuthProvider.HandleAuthStateChange | src/hooks/useAuth.tsx:81-97 | the listener's field updates give OnAuthStateChange of the old state and return the id whose fetch is scheduled |
| Auth.AuthProvider.HandleInitialSession | src/hooks/useAuth.tsx:100-110 | the initial check's field updates give OnInitialSession of the old state and return the id whose fetch is started |
| Auth.AuthProvider.HandleProfileFetched | src/hooks/useAuth.tsx:30-77 | the fetch's early returns and final setProfile give OnProfileFetched of the old state, writing only the profile field |
| Auth.AuthProvider.SignOut | src/hooks/useAuth.tsx:115-120 | the clears after the backend call give OnSignOut of the old state and leave loading untouched |
| Auth.AuthProvider.Handle | src/hooks/useAuth.tsx:81-120 | one arrival, dispatched to its handler method, gives Step of the old state, keeps the invariant, and returns the fetch a listener event or initial check schedules (none for the other arrivals) |
| Auth.AuthProvider.HandleAll | src/hooks/useAuth.tsx:79-113 | the provider after any sequence of arrivals is in the state Run computes, and its invariant holds |
| ProtectedRoute.Gate | src/components/ProtectedRoute.tsx:9-25 | the waiting view exactly when loading; a replace-redirect to "/" exactly when not loading and no user; exactly the children otherwise, never with no user |
| ProtectedRoute.GateIgnoresIdentity | src/components/ProtectedRoute.tsx:20 | the gate depends on whether there is a user, not on which user it is |
| ProtectedRoute.GateOverRun | src/components/ProtectedRoute.tsx:12-24 | from mount, the gate waits exactly until the first listener event or initial-check result, and shows the children only while a session holds the user |
| ProtectedRoute.GateNeverWaitsAgain | src/components/ProtectedRoute.tsx:12-18 | once the gate stops waiting, no later arrival makes it wait again |
| Login.EmailFor | src/components/LoginTabs.tsx:45 | the identifier is the Employee ID followed by "@company.com" |
| Login.EmployeeIdOf | src/components/LoginTabs.tsx:87 | the inverse of EmailFor: an Employee ID it returns maps back to the given identifier |
| Login.EmailRoundTrip | src/components/LoginTabs.tsx:45 | EmployeeIdOf(EmailFor(id)) is id |
| Login.EmailForInjective | src/components/LoginTabs.tsx:87 | distinct Employee IDs sign in as distinct identifiers |
| Login.RequestFor | src/components/LoginTabs.tsx:39-50 | a sign-in request is made exactly when both fields are non-empty, with the synthesized identifier and the password |
| Login.Complete | src/components/LoginTabs.tsx:52-72 | after the await: navigate to "/dashboard" exactly when a user came back; onLogin with the form and the tab's tag exactly when no error and no exception occurred and the prop is set; "Invalid credentials" on a backend error, "An unexpected error" on an exception or a rejecting onLogin; no error write otherwise |
| Login.Submit | src/components/LoginTabs.tsx:33-73 | a whole submit: "Please fill in all fields" and no request, navigation or onLogin call for an empty field; otherwise as Complete; the final error is empty exactly on the success paths |
| Login.LoginTabs.constructor | src/components/LoginTabs.tsx:23-29 | both forms empty, both errors empty, not loading |
| Login.LoginTabs.SetEmployeeId | src/components/LoginTabs.tsx:158 | an Employee ID edit changes that field of its own tab's form only |
| Login.LoginTabs.SetPassword | src/components/LoginTabs.tsx:176 | a password edit changes that field of its own tab's form only |
| Login.LoginTabs.SetError | src/components/LoginTabs.tsx:27-28 | setting a tab's error writes that tab's slot only; the other tab's error is unchanged |
| Login.LoginTabs.BeginSubmit | src/components/LoginTabs.tsx:33-50 | the tab's error is cleared and isLoading is raised; an empty field ends with the fill-in error and isLoading lowered; otherwise the request is RequestFor of the form and isLoading stays up; the other tab's error is untouched |
| Login.LoginTabs.FinishSubmit | src/components/LoginTabs.tsx:52-72 | navigation, onLogin call and error write are those of Complete for the submitted form; isLoading ends false; the other tab's error is untouched |
| Login.LoginTabs.HandleSubmit | src/components/LoginTabs.tsx:33-73 | one whole handler (employee here, admin at lines 75-115) gives Submit of the form, isLoading false at the end on every path, and the other tab's error untouched |
| PolicyList.Without | src/components/dashboard/PolicyList.tsx:102 | the filter removes every occurrence of the category and keeps every other name as often as it occurred |
| PolicyList.Toggle | src/components/dashboard/PolicyList.tsx:100-104 | the updater expands the category exactly when it was collapsed, and keeps every other name's membership |
| PolicyList.ToggleAbsent | src/components/dashboard/PolicyList.tsx:101-103 | toggling an absent category appends it at the end, so it becomes expanded |
| PolicyList.TogglePresent | src/components/dashboard/PolicyList.tsx:101-102 | toggling a present category removes every occurrence of it and shortens the list |
| PolicyList.ToggleFlips | src/components/dashboard/PolicyList.tsx:101-103 | after a toggle a category is expanded exactly when it was not before |
| PolicyList.ToggleKeepsOthers | src/components/dashboard/PolicyList.tsx:100-104 | leaving out the toggled name, the list is the same before and after, so other names keep membership and relative order |
| PolicyList.ToggleTwiceAbsent | src/components/dashboard/PolicyList.tsx:101-103 | toggling an absent category twice gives back the original list |
| PolicyList.ToggleKeepsNoDuplicates | src/components/dashboard/PolicyList.tsx:100-104 | a duplicate-free list stays duplicate-free after a toggle |
| PolicyList.ViewCategory | src/components/dashboard/PolicyList.tsx:125-132 | a category's policies are listed, and its chevron points down, exactly when its name is in the expanded list |
| PolicyList.PolicyList.constructor | src/components/dashboard/PolicyList.tsx:8 | the expanded list starts as exactly ["HR Policies"] |
| PolicyList.PolicyList.ToggleCategory | src/components/dashboard/PolicyList.tsx:99-105 | the field becomes the toggle of its old value, the category's expanded state flips, and no duplicates appear |
| WelcomeSection.Split | src/components/dashboard/WelcomeSection.tsx:19 | `split(' ')` always gives at least one piece; the pieces are pinned down by SplitHasNoSpaces and JoinSplit |
| WelcomeSection.SplitHasNoSpaces | src/components/dashboard/WelcomeSection.tsx:19 | no piece of the split holds a space |
| WelcomeSection.JoinSplit | src/components/dashboard/WelcomeSection.tsx:19 | joining the pieces with spaces gives the name back |
| WelcomeSection.Upper | src/components/dashboard/WelcomeSection.tsx:19 | upper-casing keeps the length, maps each ASCII lower-case letter to the capital 32 code points below it, and leaves every other character unchanged |
| WelcomeSection.FirstChars | src/components/dashboard/WelcomeSection.tsx:19 | `.map(n => n[0]).join('')` gives one character per non-empty piece |
| WelcomeSection.Initials | src/components/dashboard/WelcomeSection.tsx:18-20 | getInitials gives one character per non-empty piece of the name |
| WelcomeSection.FirstCharsOfNonEmpty | src/components/dashboard/WelcomeSection.tsx:19 | mapping each piece to its first character and joining gives one character per non-empty piece, its first |
| WelcomeSection.InitialsOfPieces | src/components/dashboard/WelcomeSection.tsx:18-20 | the initials are the upper-cased first characters of the non-empty pieces, one per piece; empty pieces add nothing |
| WelcomeSection.WordStartsSplit | src/components/dashboard/WelcomeSection.tsx:19 | the first characters of the pieces are the characters of the name that start a word |
| WelcomeSection.InitialsAreWordStarts | src/components/dashboard/WelcomeSection.tsx:18-20 | the initials are the upper-cased word-starting characters of the name |
| WelcomeSection.InitialsUpperCase | src/components/dashboard/WelcomeSection.tsx:19 | the initials hold no lower-case ASCII letter |
| WelcomeSection.FirstName | src/components/dashboard/WelcomeSection.tsx:38 | the greeting name holds no space |
| WelcomeSection.FirstNameIsPrefix | src/components/dashboard/WelcomeSection.tsx:38 | the greeting name is the text before the first space, or the whole name when it has none |
| WelcomeSection.AvatarFor | src/components/dashboard/WelcomeSection.tsx:27-33 | the picture exactly when profilePicture is set and non-empty, otherwise the initials fallback |

## Left out

- Backend calls (`signInWithPassword`, `getSession`, `onAuthStateChange`, `signOut`, the `profiles` and `user_credentials` queries): they belong to a hosted backend. Their results are inputs of the handlers (`Session`, `FetchOutcome`, `SignInOutcome`).
- Asynchronous timing: the `setTimeout(..., 0)` around the listener's fetch, and the order in which promises resolve. Arrivals are an arbitrary sequence of `Event`s. A fetch completion is not tied to an earlier start, so `Run` covers more orders than can happen.
- The intermediate renders between one handler's setters: each handler's `setSession`/`setUser`/`setProfile`/`setLoading` calls (src/hooks/useAuth.tsx:84-95 and 102-109) and the three clears after sign-out (117-119) are applied as one atomic step, because React batches the updates made in one callback. Without batching, a render between `setUser(null)` and `setSession(null)` would see a user-less session that `Consistent` does not describe.
- The rejected promise of `signOut`: if the backend call rejects, the clears never run. `AuthProvider.SignOut` models the path where the call resolves.
- React context plumbing, the listener's unsubscribe on unmount, and the `useAuth` outside-provider throw: they are framework wiring.
- Rendering, styling, icons, toasts, `console.log`, `navigate` and `alert`. Navigation targets and messages are returned values.
- The password-visibility toggles of the login forms: they affect rendering only.
- The shared `isLoading` disabling both submit buttons: the model does not forbid a second submit while one is in flight, and `FinishSubmit` lowers the shared flag whichever tab finishes.
- Date formatting of "Last login" and the other locale-dependent dates: the output depends on the locale.
- WelcomeSection.Upper: models `toUpperCase` on ASCII letters only and leaves every other character unchanged. Unicode case mapping, which can change the length of a string, is not modelled. Characters are Dafny `char`s, not UTF-16 code units.
- Static policy texts and the newly-added-policies banner: they are constant data. A category's policies are a parameter of `ViewCategory`.
- The presentation-only files (header, index page with its alert stub, the settings panel's log-only handlers, the dashboard's mock data and banner flag).
