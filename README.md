# Delivery dashboard client — a Dafny model

This project models the browser client of a delivery-logistics service. Customers post delivery jobs. Administrators assign drivers and trucks to jobs. Drivers advance the jobs they hold. The client has no server code of its own: every reply of the server is an input of the operation that awaits it.

The model covers five parts:

- **Session manager** (`AuthContext`).
  - The `AuthProvider` class holds `accessToken`, `user` and `loading`.
  - It mirrors the session into a `localStorage` map with the keys `accessToken`, `userRole` and `username`.
  - The request interceptor attaches `Bearer <token>`.
  - The response interceptor refreshes the session on a 401 and replays the request, at most once per request.
  - `login`, `register`, `logout` and the session restoration on mount update the state.
  - The ghost predicate `InSync` states that storage and state agree. Every operation that starts in sync stays in sync.
- **Access decisions.**
  - `ProtectedRoute` and the route table (`App`).
  - The `AdminRoute` and `DriverRoute` guards.
  - The role redirects of the login and registration pages.
  - `Navigation` follows redirects from page to page for a fixed session.
- **Input validation.**
  - The ordered checks of the job-posting form and of the registration form.
  - The phone, email and password patterns, written as character-class predicates.
  - JavaScript's `trim` and `toLowerCase`.
- **Job lists** (`Jobs`, `AdminDashboard`, `DriverDashboard`).
  - The status filter.
  - Replacing the jobs with a given id once the server confirms a change.
  - The administrator's pending driver and truck choices and the Assign button.
  - The driver's per-status action.
  - The ten-minute "online" rule of the fleet map.
- **JavaScript conventions** (`Js`, `Text`).
  - An empty string is falsy, so `a || b` falls back on it.
  - White space is the WhiteSpace and LineTerminator set. `trim` strips exactly this set and the regular-expression class `\s` matches exactly it.

State that React keeps with `useState` is a class field. Each setter is an assignment.

Two modelled paths are not reached from the pages in this repository. No file imports `AdminRoute` or `DriverRoute`; `App.js` guards every page with `ProtectedRoute`. No component sends through the provider's `axiosInstance`, so its interceptors (`Send`, `OnResponseError`, `FailTwice`) never run for them. The dashboards use `src/api/axiosConfig.js`, a client with no interceptors. The job-posting form uses the global `axios` client and builds its own Authorization header. The model states what these paths do whenever something calls them.

## Model

| member | source | states |
|---|---|---|
| Js.OrElse | src/context/AuthContext.jsx:102-103 | `value \|\| fallback` on a possibly missing string: the value when it is non-empty, otherwise the fallback; a non-empty fallback makes the result non-empty |
| Text.IsWhitespace | src/components/JobPostingForm.jsx:26 | the character set that `trim` removes and the regular-expression class `\s` matches: the WhiteSpace and LineTerminator characters of JavaScript |
| Text.Trim | src/components/JobPostingForm.jsx:16-19 | `trim` returns no more characters than it was given, and its result neither starts nor ends with white space (`Trimmed`) |
| Text.TrimIsSlice | src/components/JobPostingForm.jsx:45-49 | what `trim` keeps is one contiguous slice of the input, and everything it drops on either side is white space |
| Text.TrimOfTrimmed | src/components/JobPostingForm.jsx:45-49 | a string that neither starts nor ends with white space is returned unchanged |
| Text.TrimIdempotent | src/components/JobPostingForm.jsx:45-49 | trimming twice is trimming once |
| Text.TrimNoWhitespace | src/components/JobPostingForm.jsx:50 | a string with no white space at all is unchanged by `trim` |
| Text.ToLower | src/components/JobPostingForm.jsx:50 | `toLowerCase` keeps the length and lowers each character on its own |
| Text.LowerCharKeepsClass | src/components/JobPostingForm.jsx:50 | lower-casing neither creates nor removes white space, leaves every non-capital alone, and maps '@' to itself only |
| Text.ToLowerIdempotent | src/components/JobPostingForm.jsx:50 | lower-casing twice is lower-casing once |
| Roles.DashboardFor | src/App.js:25-34 | a role has a dashboard exactly when it is admin, customer or driver, and that dashboard is "/" followed by the role |
| AuthContext.StoredToken | src/context/AuthContext.jsx:13 | the initial token is the stored one when it is present and non-empty, and null otherwise |
| AuthContext.StoredUser | src/context/AuthContext.jsx:14-19 | the initial user is rebuilt exactly when both the stored role and the stored username are present and non-empty |
| AuthContext.Saved | src/context/AuthContext.jsx:96-98 | saving writes the three session keys with the given values and keeps every other key and its value |
| AuthContext.SaveThenReload | src/context/AuthContext.jsx:13-19 | what a save writes, the initial-state readers read back, as far as the values are non-empty |
| AuthContext.ClearSessionIdempotent | src/context/AuthContext.jsx:138-141 | after the session keys are removed no token or user can be read back, and removing them again changes nothing |
| Text.Includes | src/context/AuthContext.jsx:49 | `String.prototype.includes`: some position of the string holds the searched text |
| AuthContext.ShouldRefresh | src/context/AuthContext.jsx:46-50 | the refresh rule: a refresh is attempted exactly for a 401 on a request not yet marked as retried whose URL does not contain "/refresh-token" |
| AuthContext.RefreshAtMostOnce | src/context/AuthContext.jsx:45-51 | for every URL and every error, a request already marked as retried never triggers a refresh; no URL containing "/refresh-token" anywhere does; no status other than 401 does |
| AuthContext.AuthProvider.constructor | src/context/AuthContext.jsx:13-20 | the provider starts with the stored token and user, with `loading` true, in sync with storage |
| AuthContext.AuthProvider.Authorization | src/context/AuthContext.jsx:29-35 | the header exists exactly when the token in state is non-empty, and it is "Bearer " followed by the token |
| AuthContext.AuthProvider.AttachAuthorization | src/context/AuthContext.jsx:29-35 | the request interceptor sets the Authorization header exactly when there is a token, and changes no other header (`AttachedHeaders`) |
| AuthContext.AttachedHeaders | src/context/AuthContext.jsx:31-33 | with a header value, the Authorization header holds it; without one, the headers are unchanged; every other header and its value is kept |
| AuthContext.AuthProvider.Adopt | src/context/AuthContext.jsx:92-98 | a granted reply becomes the token and the user in state and in storage; `loading` is kept, and state and storage end in sync |
| AuthContext.AuthProvider.Login | src/context/AuthContext.jsx:84-106 | success exactly when the server grants; then the token, the user and the three stored keys come from the reply; a denial returns the server's message or "Login failed. Please try again." and changes nothing |
| AuthContext.AuthProvider.Register | src/context/AuthContext.jsx:109-125 | success exactly when the server accepts, carrying its data; a failure carries the server's message or "Registration failed due to server error", never an empty one |
| AuthContext.AuthProvider.Logout | src/context/AuthContext.jsx:131-142 | whatever the network does, the token and the user become null, exactly the three session keys leave storage, and state and storage end in sync |
| AuthContext.AuthProvider.RestoreSession | src/context/AuthContext.jsx:145-169 | a granted refresh overwrites the session in state and storage; a denied one clears the state and all of storage; `loading` ends false either way |
| AuthContext.AuthProvider.OnResponseError | src/context/AuthContext.jsx:40-81 | a refresh happens exactly under the refresh rule and marks the request as retried. A granted refresh adopts the new session, sets `Bearer <new token>` on the request and hands back the replay's outcome. A denied refresh logs out and rejects with the refresh error. Any other error is rejected unchanged and nothing changes |
| AuthContext.AuthProvider.FailTwice | src/context/AuthContext.jsx:45-52 | the same request passing through the error path twice is refreshed at most once, whatever the two errors and the two refresh replies; state and storage stay in sync |
| AuthContext.AuthProvider.Send | src/context/AuthContext.jsx:29-81 | a call through the provider's client. The request interceptor's header is attached first. A success or an unrefreshed failure is passed through and changes no state. A granted refresh resolves to the replay, with the new bearer header on the request and the new token, user and three stored keys. A denied refresh rejects with the refresh error, clears token and user, and removes exactly the three session keys. `loading` is kept, and state and storage stay in sync |
| App.ProtectedRoute | src/App.js:16-38 | while loading, only the placeholder; afterwards the children exactly for a user whose role is allowed; other known roles go to their own dashboard; no user or an unknown role goes to "/login" |
| App.Render | src/App.js:50-95 | the screen at a path: the login and registration pages redirect a signed-in user by the role switch and show their form otherwise; "/" goes to "/login"; a guarded page is decided by `ProtectedRoute` with its allowed roles; the catch-all page is shown |
| App.AllowedRoles | src/App.js:56-89 | the `allowedRoles` given to each guard: ["admin"], ["customer"], ["driver"], all three for job details, and no guard for the other pages |
| App.Match | src/App.js:52-95 | the job-details route is chosen only for "/jobs/" followed by one non-empty segment, which becomes the job id |
| App.RouteTable | src/App.js:56-89 | "/admin", "/customer" and "/driver" each admit only their own role; "/jobs/:jobId" admits exactly the three known roles; "/login" and "/register" are not guarded |
| App.RootRedirectsToLogin | src/App.js:92 | "/" redirects to "/login" whatever the session |
| App.GuardRedirectLands | src/App.js:25-37 | when a guard turns away a user with a known role, the page it sends them to shows its content to that user |
| AdminRoute.Guard | src/components/AdminRoute.jsx:5-14 | the children exactly for a user whose role is "admin"; everyone else, with no user or with any other role, goes to "/login" |
| AdminRoute.AgreesWithProtectedRoute | src/components/AdminRoute.jsx:6-13 | after loading, admits the same users as `ProtectedRoute` with ["admin"]; during loading it redirects a missing user where `ProtectedRoute` waits; a customer or driver goes to "/login" here but to their own dashboard there |
| DriverRoute.Guard | src/components/DriverRoute.jsx:5-14 | the children exactly for a user whose role is "driver"; everyone else goes to "/login" |
| DriverRoute.IgnoresLoading | src/components/DriverRoute.jsx:6-8 | while the session is still being restored, a provider without a user is redirected by this guard, whereas `ProtectedRoute` shows the placeholder |
| LoginPage.Redirect | src/pages/LoginPage.jsx:14-26 | no redirect exactly when there is no user; a known role goes to its dashboard, any other role to "/" |
| LoginPage.RedirectFixed | src/pages/LoginPage.jsx:23-24 | the corrected redirect: one exists exactly for a known role, and it goes where the page as written sends that role |
| LoginPage.LoginForm.HandleSubmit | src/pages/LoginPage.jsx:28-37 | on success the error is cleared and the session is the granted one: token, user and the three stored keys from the reply, every other stored key and `loading` kept; on failure the error is the message `login` returned and the session is untouched; afterwards the page redirects exactly when a user is logged in |
| Roles.LandingFor | src/pages/RegisterPage.jsx:16-28 | the switch both pages for visitors use: a known role goes to "/" followed by its name, any other role to "/" |
| RegisterPage.IsStrongPassword | src/pages/RegisterPage.jsx:40-41 | the strength pattern: at least eight characters, all letters, digits or one of `@$!%*?&`, with at least one lower-case letter, one capital, one digit and one special character |
| RegisterPage.StrongPasswordIsTrimmed | src/pages/RegisterPage.jsx:40-41 | every password that passes the strength pattern has no white space, so `trim` leaves it unchanged |
| RegisterPage.StrongPasswordExamples | src/pages/RegisterPage.jsx:40-48 | "Passw0rd!" passes the strength pattern; without a capital, or with a space, it fails |
| RegisterPage.Check | src/pages/RegisterPage.jsx:34-53 | the form passes exactly when the trimmed name is non-empty, the password is strong and equals its confirmation. A blank name gets "Name is required" first. A named form with a weak password gets the strength message. A named form with a strong password that differs from its confirmation gets "Passwords do not match", and only such a form does |
| RegisterPage.RegisterForm.HandleSubmit | src/pages/RegisterPage.jsx:30-61 | `register` is called exactly when every check passes, with the untrimmed name; success navigates to "/customer"; failure shows the server's message or the fallback; a failed check shows its message and sends nothing |
| Navigation.UnknownRoleBounces | src/pages/LoginPage.jsx:23-24 | for a role other than the three, "/login" redirects to "/" and "/" redirects back to "/login" |
| Navigation.UnknownRoleNeverSettles | src/pages/LoginPage.jsx:23-24 | for such a role, no number of redirects starting at "/login" or "/" reaches a page |
| Navigation.DispatcherLoops | src/pages/LoginPage.jsx:23-24 | a concrete session with role "dispatcher" never settles from "/login" |
| Navigation.DashboardSettles | src/App.js:56-79 | a known role's own dashboard never redirects that role |
| Navigation.FixedLoginSettles | src/pages/LoginPage.jsx:14-26 | with the corrected redirect the login page settles within one redirect for every session |
| Navigation.FixedNavigationSettles | src/App.js:50-95 | with the corrected redirect every path settles within two redirects, for every session |
| Navigation.KnownRoleSettles | src/App.js:50-95 | as written, every path settles within two redirects when there is no user or the role is known, so the loop needs an unknown role |
| Jobs.FilterByStatus | src/pages/admin/AdminDashboard.jsx:145-148 | the filtered list holds exactly the jobs the filter shows, and is no longer than the list |
| Jobs.FilterAppend | src/pages/admin/AdminDashboard.jsx:145-148 | filtering distributes over concatenation, so the kept jobs stay in their original order |
| Jobs.FilterAllIsIdentity | src/pages/admin/AdminDashboard.jsx:146 | the filter "all" returns the whole list unchanged |
| Jobs.FilterNoneMatch | src/pages/driver/DriverDashboard.jsx:106-108 | any other filter returns an empty list when no job has that status |
| Jobs.FirstWithId | src/pages/admin/AdminDashboard.jsx:125-126 | `find` returns nothing exactly when no entry has the id, and otherwise the first entry with it |
| Jobs.Apply | src/pages/admin/AdminDashboard.jsx:123-127 | an assignment replaces the driver and truck and keeps the status; a status change replaces the status and keeps the driver and truck; all other fields are kept |
| Jobs.UpdateWhere | src/pages/admin/AdminDashboard.jsx:120-130 | the same length and order; each job with the id is patched and every other job is unchanged |
| Jobs.UpdateAbsentId | src/pages/driver/DriverDashboard.jsx:95-99 | a patch for an id no job has leaves the list unchanged |
| AdminDashboard.WithChoice | src/pages/admin/AdminDashboard.jsx:100-105 | the changed select takes the new value and the other select keeps its choice |
| AdminDashboard.RequestFor | src/pages/admin/AdminDashboard.jsx:107-112 | a request is sent exactly when both pending choices of the job are non-empty, and it carries exactly those choices |
| AdminDashboard.Displayed | src/pages/admin/AdminDashboard.jsx:196-198 | a select shows the pending choice if non-empty, else the job's current id, else ""; it shows nothing exactly when both are missing or empty |
| AdminDashboard.AssignmentPatch | src/pages/admin/AdminDashboard.jsx:124-126 | the patch a confirmed assignment applies: the first driver and the first truck of the rosters whose ids are the chosen ones, or none where no entry has that id |
| AdminDashboard.AssignDisabled | src/pages/admin/AdminDashboard.jsx:239-241 | the Assign button is disabled when either select shows nothing or the job's assignment is in flight |
| AdminDashboard.AssignButtonState | src/pages/admin/AdminDashboard.jsx:239-241 | the button is disabled while its job is being assigned, and enabled whenever a request would be sent and no assignment of that job is in flight |
| AdminDashboard.EnabledButtonMaySendNothing | src/pages/admin/AdminDashboard.jsx:108-112 | a job that already has a driver and a truck, with only a new truck chosen, shows an enabled button whose click sends nothing |
| AdminDashboard.DisplayedRequest | src/pages/admin/AdminDashboard.jsx:196-198 | the corrected request carries the values the selects show, exists exactly when both are non-empty, and agrees with the request as written wherever that one is sent |
| AdminDashboard.EnabledButtonSendsDisplayed | src/pages/admin/AdminDashboard.jsx:239-241 | with the corrected request, every click on an enabled button sends a request |
| AdminDashboard.IsOnline | src/pages/admin/AdminDashboard.jsx:274-278 | a driver is online when a last-update time exists and lies less than ten minutes (600000 ms) before now |
| AdminDashboard.OnlineLapses | src/pages/admin/AdminDashboard.jsx:274-278 | a driver online at a later moment was online at every earlier one, and is offline 600000 ms after the last update |
| AdminDashboard.Dashboard.FilteredJobs | src/pages/admin/AdminDashboard.jsx:145-148 | a job is shown exactly when it is in the list and passes the status filter |
| AdminDashboard.Dashboard.HandleSelectChange | src/pages/admin/AdminDashboard.jsx:100-105 | the job's entry takes the new choice and keeps its other choice; every other entry is unchanged |
| AdminDashboard.Dashboard.BeginAssign | src/pages/admin/AdminDashboard.jsx:107-118 | the request sent is exactly `RequestFor`; with one the job is marked as being assigned; without one nothing changes |
| AdminDashboard.Dashboard.FinishAssign | src/pages/admin/AdminDashboard.jsx:119-141 | on acceptance the job takes the roster entries with the chosen ids and its pending entry is deleted; on refusal jobs and choices stay; afterwards no job is being assigned |
| DriverDashboard.ActionFor | src/pages/driver/DriverDashboard.jsx:159-169 | a button exactly for "pending" and "in-progress", the Delivered badge exactly for "completed", nothing for any other status |
| DriverDashboard.NextStatus | src/pages/driver/DriverDashboard.jsx:159-169 | an update is offered exactly for "pending" (to "in-progress") and "in-progress" (to "completed") |
| DriverDashboard.OfferedActionAdvances | src/pages/driver/DriverDashboard.jsx:159-169 | every offered update moves the job exactly one step along pending, in-progress, completed |
| DriverDashboard.PendingCompletesInTwo | src/pages/driver/DriverDashboard.jsx:159-169 | following the offered updates from "pending" gives "in-progress" after one and "completed" after two or more, where nothing further is offered |
| DriverDashboard.ShowsEmptyMessage | src/pages/driver/DriverDashboard.jsx:128-133 | the empty message shows when loading is over, there is no error message and no job passes the filter |
| DriverDashboard.Dashboard.FilteredJobs | src/pages/driver/DriverDashboard.jsx:106-108 | a job is kept exactly when the filter is "all" or the job has the filter's status |
| DriverDashboard.Dashboard.EmptyMessageRule | src/pages/driver/DriverDashboard.jsx:128-133 | the empty message shows only after loading without an error; with the filter "all" it shows exactly when there are no jobs |
| DriverDashboard.Dashboard.UpdateStatus | src/pages/driver/DriverDashboard.jsx:88-104 | on acceptance each job with the id takes the new status and nothing else changes; on refusal the list is unchanged |
| JobPostingForm.IsPhone | src/components/JobPostingForm.jsx:22-23 | the phone pattern: seven to fifteen characters, each a digit, '+', '-', '(', ')' or a space |
| JobPostingForm.TrimmedPhoneKeepsClass | src/components/JobPostingForm.jsx:22-23 | trimming a valid phone keeps every character in the class and at most fifteen of them, so the trimmed phone fails the pattern exactly when it is shorter than seven |
| JobPostingForm.PhoneExamples | src/components/JobPostingForm.jsx:22-23 | formatted numbers with spaces, dashes, parentheses or a plus pass; one with dots, or with six characters, fails |
| JobPostingForm.IsEmail | src/components/JobPostingForm.jsx:26-27 | the email pattern: one '@' with a non-empty part before it, and after it a non-empty host, a '.' and a non-empty final part, with no white space and no other '@' anywhere |
| JobPostingForm.EmailFromParts | src/components/JobPostingForm.jsx:26-27 | every `local@host.tld` with non-empty parts free of white space and '@' passes |
| JobPostingForm.EmailToParts | src/components/JobPostingForm.jsx:26-27 | every address that passes splits as such a `local@host.tld` |
| JobPostingForm.EmailHasNoWhitespace | src/components/JobPostingForm.jsx:26-27 | an address that passes has no white space, so trimming it is the identity |
| JobPostingForm.EmailHasOneAt | src/components/JobPostingForm.jsx:26-27 | an address that passes has exactly one '@' |
| JobPostingForm.LowerEmailStaysValid | src/components/JobPostingForm.jsx:50 | lower-casing an address that passes gives one that passes |
| JobPostingForm.ValidateForm | src/components/JobPostingForm.jsx:15-30 | every message it returns is non-empty, so the handler's truthiness test sees it |
| JobPostingForm.ValidationRule | src/components/JobPostingForm.jsx:15-30 | the form passes exactly when all six checks pass; otherwise it reports the message of the first failing check in the order pickup, delivery, package details, customer name, phone, email: each check's message is returned whenever every earlier check passes and that one fails |
| JobPostingForm.Normalize | src/components/JobPostingForm.jsx:44-51 | each of the five trimmed fields of the payload is no longer than the input field and neither starts nor ends with white space; the email is the trimmed input lower-cased |
| JobPostingForm.NormalizeCutsOnlyEnds | src/components/JobPostingForm.jsx:45-49 | each of the five trimmed payload fields is one slice of its input field with only white space on either side of it; with `Normalize`'s contract this is exactly `trim` |
| JobPostingForm.NormalizeIdempotent | src/components/JobPostingForm.jsx:44-51 | building the payload from a payload changes nothing |
| JobPostingForm.PayloadOfValidForm | src/components/JobPostingForm.jsx:44-51 | the payload of a valid form keeps the checked minimum lengths, and its email is the typed one lower-cased and still valid |
| JobPostingForm.PhonePayloadMayBeShort | src/components/JobPostingForm.jsx:22-23 | the phone is checked before trimming, so a valid form can send a six-character phone that the phone check itself would refuse |
| JobPostingForm.FailureMessage | src/components/JobPostingForm.jsx:78-82 | 401 and 403 give the authorization notice; any other failure gives the server's message or "Failed to post job."; never empty |
| JobPostingForm.PostingForm.HandleSubmit | src/components/JobPostingForm.jsx:32-86 | an invalid form shows the first failing check. A valid form with no token shows the login notice and sends nothing. Otherwise the normalised payload goes out with the bearer token. Success clears the six inputs and shows the server's message or the default; failure keeps them and shows the failure message. `loading` ends false once validation passed, and message and error are never both shown |

## Left out

- HTTP transport is not modelled: base URLs, cookies, `withCredentials` and the request bodies of `login` and `register`. Each server reply is a parameter of the operation that awaits it.
- Asynchrony is not modelled. React batches state updates and re-renders later; the model applies each setter at once.
- In the response interceptor, `logout()` is not awaited, so its network call may still be in flight when the rejection is returned. The model applies its effect before returning.
- Concurrent requests racing a refresh are not modelled; there is one logical call at a time.
- A granted reply is assumed to carry `accessToken`, `role` and `username` as strings. A reply that lacks them would store the text "undefined"; this is not modelled.
- AuthContext.AuthProvider.Send: the replay in the source goes out through the global client, without interceptors. The model takes its outcome as a parameter and does not model that request itself.
- Text.ToLower: maps only the ASCII capitals A–Z. JavaScript's `toLowerCase` also maps other Unicode capitals, for example "É".
- Lengths count Unicode scalar values. JavaScript's `length` counts UTF-16 code units, so the two differ for characters outside the Basic Multilingual Plane.
- App.Match: routes are matched exactly and case-sensitively. React Router also ignores a trailing slash and matches case-insensitively; the model does not.
- The `JobDetails` page and the other fetch-and-render components are not modelled: `CustomerDashboard`, `Dashboard`, `NotFoundPage` and `axiosConfig`.
- The map pane is not modelled: Leaflet markers, icons, clustering and the floating-point coordinate filter. The ten-minute online rule is modelled, with times as integer milliseconds.
- The driver's geolocation watch and the 15-second polling timers are not modelled; they are subscriptions to the environment.
- The initial fetches of the two dashboards are reduced to constructors that take the loaded lists. The dashboards' `loading` and `error` fields are not tracked beyond that.
- `alert` and `console` output and the JSX markup are not modelled. Only the decisions they display are.
- Navigation.Follow: stops after a bounded number of redirects (`fuel`). The loop is stated as "no bound suffices" rather than as non-termination.

## Findings

| source | as written | input that shows it | evidently intended | confidence | as-written member | corrected member |
|---|---|---|---|---|---|---|
| src/pages/LoginPage.jsx:23-24 | The login page sends a logged-in user whose role has no dashboard to "/". The route for "/" (src/App.js:92) sends every visitor back to "/login". The registration page's default case (src/pages/RegisterPage.jsx:25-26) joins the same cycle. | A session with role "dispatcher" arriving at "/login" or "/register" | Show the login form to a role without a dashboard, so every path settles (proved in `Navigation.FixedNavigationSettles`) | not executed | Navigation.UnknownRoleNeverSettles | LoginPage.RedirectFixed |
| src/pages/admin/AdminDashboard.jsx:108-112 | The Assign button is enabled by the values the selects show, which fall back on the job's current driver and truck (lines 196-198 and 239-241). The handler reads only the pending choices. | A job already assigned driver "d1" and truck "t1", where only a new truck "t2" was chosen: the button is enabled, but the click sends nothing and alerts "Select driver and truck first" | Send the driver and truck the row shows, so that an enabled button always sends (proved in `AdminDashboard.EnabledButtonSendsDisplayed`) | not executed | AdminDashboard.EnabledButtonMaySendNothing | AdminDashboard.DisplayedRequest |

`App.Render` and `AdminDashboard.Dashboard.BeginAssign` follow the code as written. `Navigation` runs the routes with the written login page and with the corrected one side by side. `AdminDashboard.DisplayedRequest` agrees with `RequestFor` wherever the written handler sends a request.
