# Church admin front end, modelled in Dafny

This project models the rules inside the administrator front end of a
church-events platform: a React single-page application in which church
administrators manage their church's profile, events, announcements and
donation methods, and a superuser manages administrators and churches.

Almost all of that application is markup and `fetch` calls. Beneath the
markup sit small sequential rules, and each becomes precise once every
backend reply, stored token, confirmation answer and upload outcome is
treated as an input value:

- the session store (`AuthContext.tsx`): verifying a stored token at start-up, `login`, `logout` and `refreshUser`;
- navigation: the two route guards, the route table, the dashboard's choice of screen and the navbar's home target and initials;
- the image-upload workflow: the file validator, the callback sequence around one upload, and the upload hook's `uploading`/`error`/`success` state;
- the client-side checks of every form: login, forgot and reset password, event and announcement creation, password change, admin creation and donation add;
- the mapping of a backend 400 `details` array to per-field messages;
- the edit, cancel, save and delete handlers of the cards and the church details page, and the replace, remove and append steps that keep the page's lists in step with them;
- the small lookups: day names, announcement type colours, payment-method styles, the 12-hour time recogniser, zero-padded date-time input values, and the assigned and unassigned user filters.

Each component's React state cells are the fields of a Dafny `class`, and
each event handler is a `method` whose `ensures` gives the whole new state.
Pure decisions and lookups are `function`s, and the properties the code
promises are `lemma`s about them. A backend reply is
`Reply<T> = Responded(ok, status, body) | Threw`. `Threw` stands both for a
rejected `fetch` and for a `response.json()` that throws, since both end in
the same `catch`. JavaScript's `a || b` on strings is `Or(a, b)`, and an
absent optional string is `""` wherever the code only tests whether it is
truthy. Callbacks the code schedules with `setTimeout` or hands to a parent
are returned as out-parameters (`refresh`, `followUp`, `logoutLater`,
`toLoginLater`, `updated`, `deleted`), so each one is stated. The
`Text` module holds the JavaScript string operations the rules rely on:
`trim`, `startsWith`, `includes`, case mapping and `String(n)`. The
`FieldErrors` module holds the backend-details mapping and
`clearFieldError`, which the source writes out twice, once in each
creation form.

## Model

| member | source | states |
|---|---|---|
| Text.TrimStartSpec | src/pages/LoginPage.tsx:18 | trimming the start drops exactly the leading whitespace: what is left is a suffix that does not begin with whitespace |
| Text.TrimEndSpec | src/pages/LoginPage.tsx:18 | trimming the end drops exactly the trailing whitespace: what is left is a prefix that does not end with whitespace |
| Text.BlankIffAllWhitespace | src/pages/LoginPage.tsx:18 | a string trims to empty exactly when every character of it is whitespace |
| Text.ContainsNeedsFirstChar | src/components/AdminProfile.tsx:407 | a string holds a non-empty needle only if it holds the needle's first character |
| Text.ContainsAt | src/components/AdminProfile.tsx:419 | a string holds every needle that occurs in it at some offset |
| Text.ToUpper | src/components/Navbar.tsx:62 | upper-casing keeps the length and maps each character on its own |
| Text.ToLower | src/components/SuperuserDashboard.tsx:163 | lower-casing keeps the length and maps each character on its own |
| Text.NatToString | src/components/SuperuserDashboard.tsx:282 | a number prints as a non-empty run of digits with no leading zero, one digit exactly below ten |
| Text.ParseNatToString | src/components/SuperuserDashboard.tsx:282 | reading a printed number back gives the number |
| DonationCard.OrUndefined | src/components/DonationCard.tsx:265-266 | an optional field is sent as missing exactly when it is empty |
| ImageUpload.ValidateImageFile | src/utils/imageUpload.ts:19-37 | a file is valid exactly when some accepted type prefixes its media type and its size is at most `maxSizeInMB` MiB; the type test wins over the size test, each with its own message |
| ImageUpload.DefaultValidation | src/utils/imageUpload.ts:21-22 | with the defaults (5 MB, `image/`) a 5 MiB image passes, one byte more is too large, and a non-image is rejected for its type whatever its size |
| ImageUpload.UploadImageFile | src/utils/imageUpload.ts:44-80 | success exactly on an OK reply, with `url` preferred to `imageUrl`; a refused reply carries the backend's error or the default message; a network failure carries the network message; every failure has an empty URL and a non-empty error |
| ImageUpload.HandleImageUpload | src/utils/imageUpload.ts:85-123 | an invalid file calls only `onUploadError`, issues no request, and the promise rejects exactly when that callback throws; for a valid file a throwing `onUploadStart` rejects before any request and without `onUploadComplete`; otherwise start, then success (only with a non-empty URL) or error (with the fallback message), then complete even after a throwing report, and the promise rejects exactly when the report or the complete callback throws |
| UseImageUpload.ReplayUpload | src/hooks/useImageUpload.ts:30-36 | after start, one report and complete, `uploading` is false and only the reported message cell has changed |
| UseImageUpload.ImageUploadHook.constructor | src/hooks/useImageUpload.ts:12-18 | the hook starts idle with both messages empty and the default options |
| UseImageUpload.ImageUploadHook.ClearMessages | src/hooks/useImageUpload.ts:20-23 | both messages are emptied and `uploading` is untouched |
| UseImageUpload.ImageUploadHook.UploadImage | src/hooks/useImageUpload.ts:25-40 | messages are cleared first; a rejected file sets the validation error and resolves to null; otherwise `uploading` ends false, the success message or the error is set as the callbacks write them, and the result is the URL exactly on success; the clearing timer is scheduled exactly when the success callback runs; the whole new state is `AfterUpload` of the old one |
| UseImageUpload.AfterUploadReplays | src/hooks/useImageUpload.ts:25-37 | the settled state `AfterUpload` gives equals running the supplied callbacks in the workflow's order over the cleared messages: the validation error alone, or start, one report and complete |
| UseImageUpload.ImageUploadHook.SuccessTimeout | src/hooks/useImageUpload.ts:33 | the timer clears only the success message |
| AuthContext.AfterBootstrap | src/auth/AuthContext.tsx:47-80 | loading ends false; without a stored token nothing else changes; a vouching reply logs the user in and keeps the token; any other outcome, network failure included, deletes the token; from the mount state the user is logged in exactly when a token was stored and vouched for |
| AuthContext.LoginFailure | src/auth/AuthContext.tsx:107-113 | a refused or failed login always leaves a non-empty message: the backend's error, 'Login failed', or the network message |
| AuthContext.AfterLogin | src/auth/AuthContext.tsx:82-117 | an OK reply with a token and a user logs in, stores the token and clears the error; anything else keeps who is logged in and the token and sets the failure message; loading ends false |
| AuthContext.AfterLogout | src/auth/AuthContext.tsx:119-124 | from any state: no token, nobody logged in, no user, no error; loading untouched |
| AuthContext.LogoutIdempotent | src/auth/AuthContext.tsx:119-124 | logging out twice equals logging out once |
| AuthContext.AfterRefresh | src/auth/AuthContext.tsx:126-150 | only `user` can change, and only with a stored token and a vouching reply; every failure leaves the state as it was, the token included |
| AuthContext.RejectedTokenFate | src/auth/AuthContext.tsx:60-149 | a token the server does not vouch for is deleted by the mount check but kept by a refresh |
| AuthContext.Step | src/auth/AuthContext.tsx:82-150 | login, logout and refresh each keep the session consistent: logged in exactly when a user is present, and exactly when a token is stored |
| AuthContext.RunKeepsConsistent | src/auth/AuthContext.tsx:82-150 | any sequence of logins, logouts and refreshes keeps that two-way invariant |
| AuthContext.MountedSessionConsistent | src/auth/AuthContext.tsx:47-150 | after mounting, whatever storage held and however the token check went, and through any later actions, a user is present exactly when logged in, and a token is stored exactly when logged in |
| AuthContext.OnlyLogoutEndsSession | src/auth/AuthContext.tsx:106-116 | a failed login never logs anybody out: without a logout, a logged-in session stays logged in |
| AuthContext.AuthProvider.constructor | src/auth/AuthContext.tsx:41-44 | the provider mounts logged out, with no user or error, loading, over the stored token |
| AuthContext.AuthProvider.CheckExistingAuth | src/auth/AuthContext.tsx:48-77 | the step-by-step handler ends in the state `AfterBootstrap` gives |
| AuthContext.AuthProvider.Login | src/auth/AuthContext.tsx:82-117 | the handler ends in the state `AfterLogin` gives and returns true exactly when the login was accepted |
| AuthContext.AuthProvider.Logout | src/auth/AuthContext.tsx:119-124 | the handler ends in the state `AfterLogout` gives |
| AuthContext.AuthProvider.RefreshUser | src/auth/AuthContext.tsx:126-150 | the handler ends in the state `AfterRefresh` gives |
| ProtectedRoute.Protected | src/components/ProtectedRoute.tsx:6-9 | the wrapped page is shown exactly when someone is logged in; otherwise a redirect to `/login` |
| ProtectedRoute.Public | src/components/ProtectedRoute.tsx:12-15 | the wrapped page is shown exactly when nobody is logged in; otherwise a redirect to `/dashboard` |
| ProtectedRoute.ExactlyOneGuardOpen | src/components/ProtectedRoute.tsx:6-15 | for every session exactly one of the two guards lets its page through |
| App.Lookup | src/App.tsx:21-57 | a found route is declared with that path; nothing is found exactly when no route has the path |
| App.Guarded | src/App.tsx:22-56 | a route's page is shown exactly when its guard is the protected one and someone is logged in, or the public one and nobody is |
| App.RouteTableShape | src/App.tsx:21-57 | seven routes with distinct paths; exactly `/dashboard` and `/profile` are protected, and both render the dashboard |
| App.RedirectsSettleInOneStep | src/App.tsx:21-57 | every declared path shows a page for every session: its own when the guard allows, the login page for a logged-out visitor of a protected path, the dashboard for a logged-in visitor of a public path |
| App.VisitDeclared | src/App.tsx:21-57 | visiting a declared route shows its page when the guard lets it through, and otherwise the page of the redirect target |
| App.RedirectTargets | src/App.tsx:27-37 | both redirect targets, `/login` and `/dashboard`, are declared routes |
| App.LookupFindsFirst | src/App.tsx:21-57 | with distinct paths, looking up a declared route's path finds that route |
| Dashboard.FirstAssignment | src/pages/Dashboard.tsx:168 | there is a first assignment exactly when the user has a non-empty assignment list |
| Dashboard.FirstChurchId | src/pages/Dashboard.tsx:37-44 | the first church id is known exactly when there is a first assignment and its id is truthy (not 0) |
| Dashboard.Select | src/pages/Dashboard.tsx:79-208 | the screen chosen by the chain of early returns: a superuser always gets the superuser dashboard; church details exactly for that view with a truthy selected id; the manage and profile views next; the enrollment screens only for a church admin without assignments; otherwise the main dashboard with the first assignment |
| Dashboard.HomeScreen | src/pages/Dashboard.tsx:165-208 | on the home views a non-superuser's screen depends only on role, enrollment status (missing counts as 'none') and assignments |
| Dashboard.HeaderChurchId | src/pages/Dashboard.tsx:230 | the header click passes 0 exactly when no first church id is known |
| Dashboard.HeaderClickShowsDetails | src/pages/Dashboard.tsx:84-117 | a header click leads to the church details screen exactly when the first assignment names a church; the fallback id 0 never does |
| Dashboard.ViewForPath | src/pages/Dashboard.tsx:27-33 | `/profile` and `/dashboard` select their views and any other path keeps the current one |
| Dashboard.DashboardPage.constructor | src/pages/Dashboard.tsx:20-24 | the dashboard view, no church selected, stats loading with both counts 0 |
| Dashboard.DashboardPage.OnPathname | src/pages/Dashboard.tsx:27-33 | the view becomes `ViewForPath` of the path and nothing else changes |
| Dashboard.DashboardPage.HandleChurchClick | src/pages/Dashboard.tsx:84-87 | selects the church and shows its details |
| Dashboard.DashboardPage.HandleBackToDashboard | src/pages/Dashboard.tsx:89-94 | back to the dashboard view with no selection, navigating to `/dashboard` |
| Dashboard.DashboardPage.HandleManageEvents | src/pages/Dashboard.tsx:97-99 | switches to the manage-events view and nothing else |
| Dashboard.DashboardPage.HandleManageAnnouncements | src/pages/Dashboard.tsx:102-104 | switches to the manage-announcements view and nothing else |
| Dashboard.DashboardPage.HandleEventCreated | src/pages/Dashboard.tsx:107-114 | shows the first church's details when asked and known; otherwise the dashboard view with the selection kept |
| Dashboard.DashboardPage.LoadStats | src/pages/Dashboard.tsx:43-76 | nothing happens without a first church; otherwise each OK reply sets its count, a thrown events request skips the announcements request, and loading ends false |
| Navbar.HomeTarget | src/components/Navbar.tsx:10-16 | the title leads to `/dashboard` when logged in and to `/` otherwise |
| Navbar.HomeClickLands | src/components/Navbar.tsx:10-16 | following the title link lands on a page without a further redirect: the dashboard when logged in, the landing page otherwise |
| Navbar.SplitSpaces | src/components/Navbar.tsx:62 | `split(' ')` always yields at least one piece |
| Navbar.FirstCharsAreWordStarts | src/components/Navbar.tsx:62 | splitting on spaces and joining the first characters keeps exactly the characters that start a word, in order; runs of spaces add nothing |
| Navbar.AvatarText | src/components/Navbar.tsx:61-64 | 'U' without a user or with an empty name; otherwise the upper-cased word starts of the name |
| Navbar.OneWordAndBlankNames | src/components/Navbar.tsx:61-64 | a name without spaces shows its upper-cased first character; a name of spaces only is truthy yet shows nothing rather than 'U' |
| Navbar.NoWordStartsInside | src/components/Navbar.tsx:62 | inside a word there are no further word starts |
| Navbar.OnlySpaces | src/components/Navbar.tsx:62 | a run of spaces has no word starts |
| Navbar.Items | src/components/Navbar.tsx:28-80 | 'My Church' shows exactly for a logged-in user who is not a superuser; a logged-in user gets the avatar and Logout and no Enroll or Login; a visitor gets exactly Enroll and Login |
| LoginPage.PrecheckError | src/pages/LoginPage.tsx:18-21 | the precheck fails exactly when the email or the password is empty after trimming, and then gives the one 'enter both' message |
| LoginPage.Alert | src/pages/LoginPage.tsx:44-48 | the page's own error takes precedence, the session's error shows otherwise, and no alert exactly when both are empty |
| LoginPage.Submit | src/pages/LoginPage.tsx:76-79 | the button is disabled exactly while the session is loading |
| LoginPage.LoginForm.constructor | src/pages/LoginPage.tsx:8-10 | empty fields and no error |
| LoginPage.LoginForm.HandleSubmit | src/pages/LoginPage.tsx:14-29 | a failed precheck sets its message and leaves the session untouched; otherwise the session takes the `AfterLogin` transition and the page navigates to `/dashboard` exactly when the login was accepted |
| LoginPage.AlertAfterSubmit | src/pages/LoginPage.tsx:14-48 | after a precheck failure the alert shows the precheck message; after a refused login it shows the session's failure message |
| LoginPage.LoginForm.SetEmail | src/pages/LoginPage.tsx:55 | only the email changes |
| LoginPage.LoginForm.SetPassword | src/pages/LoginPage.tsx:65 | only the password changes |
| ForgotPassword.RequestError | src/pages/ForgotPassword.tsx:44-54 | no error after an OK reply; a refused request leaves the backend's error or the default message, never empty; a failed request leaves the network message |
| ForgotPassword.SubmitDisabled | src/pages/ForgotPassword.tsx:116 | the button is enabled exactly when nothing is loading and the email is non-empty |
| ForgotPassword.ForgotPasswordPage.constructor | src/pages/ForgotPassword.tsx:18-21 | empty email, not loading, no messages |
| ForgotPassword.ForgotPasswordPage.HandleSubmit | src/pages/ForgotPassword.tsx:23-57 | an empty email only sets 'Email is required'; otherwise loading ends false, the error is `RequestError` of the reply, and on success the backend's message is shown and the email is cleared |
| ForgotPassword.ForgotPasswordPage.SetEmail | src/pages/ForgotPassword.tsx:102-105 | the email takes the typed value and the error clears; nothing else changes |
| ForgotPassword.ForgotPasswordPage.DismissError | src/pages/ForgotPassword.tsx:84 | only the error clears |
| FieldErrors.DetailsMapSpec | src/components/ManageEvents.tsx:265-272 | a field is reported exactly when some entry with both a field and a message names it, and it carries the message of the last such entry |
| FieldErrors.DetailsMapKeys | src/components/ManageEvents.tsx:265-272 | the fields reported are exactly those named by some entry with both a field and a message |
| FieldErrors.DetailsMapLast | src/components/ManageEvents.tsx:265-272 | a reported field carries the message of the last entry with both parts that names it: later duplicates overwrite earlier ones |
| FieldErrors.MapBackendDetails | src/components/ManageEvents.tsx:267-271 | the `forEach` loop builds exactly the record `DetailsMap` describes |
| FieldErrors.BackendFieldErrors | src/components/ManageEvents.tsx:263-273 | field errors are replaced exactly on a 400 that carries `details`; an array is mapped entry by entry and any other value gives an empty record |
| FieldErrors.FailureMessage | src/components/ManageEvents.tsx:263-281 | a 400 with `details` gives the validation notice; otherwise the body's `error`, else its `message`, else the fallback |
| FieldErrors.ClearFieldError | src/components/ManageEvents.tsx:129-137 | a non-empty message under the field is deleted and nothing else; otherwise the record is unchanged; no entry is ever added or altered |
| FieldErrors.ClearFieldErrorIdempotent | src/components/ManageEvents.tsx:129-137 | clearing twice equals clearing once, and an unreported field leaves the record unchanged |
| DateTimeInput.Pad2 | src/components/ManageEvents.tsx:74-77 | `padStart(2, '0')` gives only digits, at least two, and exactly two for numbers below 100 |
| DateTimeInput.FormatLocalDateTimeForInput | src/components/ManageEvents.tsx:70-80 | the input value is empty exactly for an invalid date |
| DateTimeInput.FormatDateTimeForBackend | src/components/ManageEvents.tsx:83-106 | empty exactly for an empty input; for a valid date it begins with the input form of the same date |
| DateTimeInput.Pad2Reads | src/components/ManageEvents.tsx:74-77 | a padded number below 100 is two digits that read back as the number |
| DateTimeInput.MonthToMinutesReads | src/components/ManageEvents.tsx:74-79 | after the year come twelve characters: month from 1, day, hours and minutes as two digits each, between `-`, `-`, `T` and `:` |
| DateTimeInput.FormatThenParse | src/components/ManageEvents.tsx:70-80 | the input value of an ordinary date reads back as its year, month counted from 1, day, hours and minutes |
| DateTimeInput.FormatDateTimeForInput | src/components/EventCard.tsx:175-194 | empty for an empty string or an invalid date; otherwise the non-empty input value of the date read back |
| DateTimeInput.InputValueKept | src/components/EventCard.tsx:175-194 | a value the form wrote itself is shown unchanged and still reads back as the same date |
| DateTimeInput.BackendKeepsLocalTime | src/components/ManageEvents.tsx:83-106 | the backend string keeps the entered local time: without the seconds and `.000Z` it reads back as the same components |
| ManageEvents.Set | src/components/ManageEvents.tsx:142-145 | the named field takes the value and every other field keeps its own |
| ManageEvents.InitialForm | src/components/ManageEvents.tsx:53-64 | every field is empty except the start, which is the given input value |
| ManageEvents.DomainFromIff | src/components/ManageEvents.tsx:188 | the backtracking search after the `@` succeeds exactly when some `.` at or after the start splits the rest into two non-empty parts without whitespace or `@` |
| ManageEvents.MatchesFromIff | src/components/ManageEvents.tsx:188 | the backtracking search for the `@` succeeds exactly when some `@` at or after the start ends a valid first part and the rest matches the domain |
| ManageEvents.MatcherFindsSplit | src/components/ManageEvents.tsx:188 | the email pattern accepts exactly the strings that split into the three parts it names |
| ManageEvents.MatchYieldsSplit | src/components/ManageEvents.tsx:188 | every string the pattern accepts splits into the three parts |
| ManageEvents.SplitYieldsMatch | src/components/ManageEvents.tsx:188 | every string that splits into the three parts is accepted |
| ManageEvents.EmailPatternIff | src/components/ManageEvents.tsx:188 | the pattern accepts exactly the strings with no whitespace, exactly one `@` not at the start, and after it a `.` neither right after the `@` nor last |
| ManageEvents.SplitIffShape | src/components/ManageEvents.tsx:188 | splitting into the three parts is the same as that plain-words shape |
| ManageEvents.RecordSpec | src/components/ManageEvents.tsx:152-197 | the error record holds a field's key exactly when that field fails its check, under that field's message (the order message replacing the end's required message), and holds no other key |
| ManageEvents.RecordEntry | src/components/ManageEvents.tsx:152-197 | the record's entry for one field is present exactly when that field fails, with its message |
| ManageEvents.RecordKey | src/components/ManageEvents.tsx:152-197 | every key in the record is the key of some form field |
| ManageEvents.ValidIffAcceptable | src/components/ManageEvents.tsx:152-197 | the form validates exactly when the text fields are not blank, both date-times are present with the end after the start, a given email has the pattern's shape and a given price is a number of at least 0; phone and website are never checked |
| ManageEvents.NoErrorsIffAllPass | src/components/ManageEvents.tsx:195-196 | the record is empty exactly when no field fails |
| ManageEvents.AllPassIffAcceptable | src/components/ManageEvents.tsx:152-194 | no field fails exactly when the form is acceptable field by field |
| ManageEvents.FillErrors | src/components/ManageEvents.tsx:153-194 | the sequence of checks builds exactly the record `Record` describes |
| ManageEvents.ManageEventsPage.constructor | src/components/ManageEvents.tsx:109-123 | an empty form starting now, not creating another, no messages, an idle upload hook |
| ManageEvents.ManageEventsPage.HandleInputChange | src/components/ManageEvents.tsx:139-149 | the field takes the value, the page error is cleared and so is that field's own error, as `ClearFieldError` says |
| ManageEvents.ManageEventsPage.ValidateForm | src/components/ManageEvents.tsx:152-197 | stores the record the checks build and answers true exactly when the form is acceptable, that is exactly when the record is empty |
| ManageEvents.ManageEventsPage.HandleSubmit | src/components/ManageEvents.tsx:200-290 | messages are cleared first; an unacceptable form stores its errors and sends nothing; no church sends nothing and says so; otherwise the submission goes to the first church with converted date-times and price; success shows the title and either resets the form and clears the message later or schedules the move to the church; a refusal maps the backend's errors; a network failure shows the network message; loading ends false |
| ManageEvents.ManageEventsPage.SendSubmission | src/components/ManageEvents.tsx:214-289 | with no church nothing is sent and the no-church message shows; otherwise the form goes to the first church with converted date-times and price, and the reply decides messages, record, form and what is scheduled; loading ends false exactly when something was sent |
| ManageEvents.ManageEventsPage.ApplySubmitReply | src/components/ManageEvents.tsx:239-285 | an OK reply shows the success message and either resets the form and schedules clearing it, or keeps the form and schedules the return; a refusal keeps the form and stores the backend's field errors when it gives them; a throw shows the network message |
| ManageEvents.ManageEventsPage.HandleImageUpload | src/components/ManageEvents.tsx:292-309 | without a file nothing changes; with one the page messages are cleared and a truthy uploaded URL becomes the form's image; the hook's clearing timer is scheduled exactly when the upload reports success; the hook's state ends as `AfterUpload` of its old state (`uploading`, error and success as the page shows them) |
| ManageEvents.ManageEventsPage.SuccessTimeout | src/components/ManageEvents.tsx:251 | the timer clears only the success message |
| ManageEvents.ManageEventsPage.HandleCancel | src/components/ManageEvents.tsx:311-321 | a fresh form starting now and no messages on the page or in the upload hook |
| ManageAnnouncements.Set | src/components/ManageAnnouncements.tsx:328-330 | the edited field takes the value, every other field keeps its own, and the special flag and day are untouched |
| ManageAnnouncements.InitialForm | src/components/ManageAnnouncements.tsx:58-70 | the form on mount is a weekly, non-special announcement on Sunday posted at the given time, with every other field empty |
| ManageAnnouncements.ExpectedErrors | src/components/ManageAnnouncements.tsx:196-213 | a field is reported exactly when its check fails (title or description all whitespace, posted time empty), under its own key, with its own message, and nothing else is reported |
| ManageAnnouncements.ValidIffComplete | src/components/ManageAnnouncements.tsx:196-213 | the form validates exactly when the title and description hold a non-whitespace character and a posted time is present |
| ManageAnnouncements.ShowsDaySelector | src/components/ManageAnnouncements.tsx:377 | the day selector shows exactly for the first type on the menu, weekly |
| ManageAnnouncements.ShowsRecurrence | src/components/ManageAnnouncements.tsx:447 | the recurrence field shows exactly for the weekly and yearly types |
| ManageAnnouncements.SubmitDisabled | src/components/ManageAnnouncements.tsx:478 | the button is enabled exactly when no submission is running and the title is non-empty |
| ManageAnnouncements.ConditionalFields | src/components/ManageAnnouncements.tsx:356-391 | the recurrence field always accompanies the day selector, and special and general announcements show neither |
| ManageAnnouncements.ManageAnnouncementsPage.constructor | src/components/ManageAnnouncements.tsx:58-86 | the page mounts with the initial form posted now, no messages, no field errors, not submitting, and an idle upload hook |
| ManageAnnouncements.ManageAnnouncementsPage.HandleChange | src/components/ManageAnnouncements.tsx:216-224 | an input stores its value; the title, description and posted inputs also drop their own error; every other state cell is unchanged |
| ManageAnnouncements.ManageAnnouncementsPage.HandleDayChange | src/components/ManageAnnouncements.tsx:383 | only the day changes |
| ManageAnnouncements.ManageAnnouncementsPage.HandleSpecialChange | src/components/ManageAnnouncements.tsx:400-401 | only the special flag changes |
| ManageAnnouncements.ManageAnnouncementsPage.ValidateForm | src/components/ManageAnnouncements.tsx:196-213 | the stored record is the expected one, and the result is true exactly when the form is complete, exactly when the record is empty |
| ManageAnnouncements.ManageAnnouncementsPage.HandleSubmit | src/components/ManageAnnouncements.tsx:95-183 | an invalid form sends nothing and records why; with no church the page says so; otherwise the form goes to the first church, and success resets the form or schedules the way back, a refusal shows the backend's field errors and message, and a network failure its own message; submitting ends false |
| ManageAnnouncements.ManageAnnouncementsPage.HandleImageUpload | src/components/ManageAnnouncements.tsx:88-93 | the form takes the uploaded URL exactly when the file is accepted, the upload succeeds and the URL is non-empty; the page's messages are untouched; the hook's clearing timer is scheduled exactly when the upload reports success; the hook's state ends as `AfterUpload` of its old state (`uploading`, error and success as the page shows them) |
| AnnouncementCard.DayName | src/components/AnnouncementCard.tsx:126-130 | a name is given exactly for a present day number from 0 to 6, and it is that entry of the Sunday-first week |
| AnnouncementCard.DayNamesDistinct | src/components/AnnouncementCard.tsx:126-130 | two valid day numbers show the same name exactly when they are equal |
| AnnouncementCard.TypeColor | src/components/AnnouncementCard.tsx:117-124 | each of weekly, special and yearly has its own colour, and every other type, and only those, gets the default |
| AnnouncementCard.ClockPatternIff | src/components/AnnouncementCard.tsx:95 | the end-first matcher accepts exactly the strings of one or two hour digits, a colon, two minute digits, at most one whitespace character and AM or PM in any case |
| AnnouncementCard.DisplayKeepsClockTimes | src/components/AnnouncementCard.tsx:91-115 | an empty time shows empty, a time already in clock form shows exactly as written, and a time the browser cannot read shows as written |
| AnnouncementCard.DisplayIdempotent | src/components/AnnouncementCard.tsx:91-115 | when the browser renders in clock form, a time the display changed is shown unchanged the second time |
| AnnouncementCard.ShowsDayChip | src/components/AnnouncementCard.tsx:438-440 | the day chip shows exactly for a weekly announcement whose day is present and from 0 to 6 |
| AnnouncementCard.EditFormOf | src/components/AnnouncementCard.tsx:67-78 | the edit form opens with the announcement's type and special flag, and its day, or Sunday when it has none |
| AnnouncementCard.Set | src/components/AnnouncementCard.tsx:245-328 | the edited field takes the value, every other field keeps its own, and the special flag and day are untouched |
| AnnouncementCard.SaveDisabled | src/components/AnnouncementCard.tsx:400 | saving is enabled exactly when not loading and the title holds a non-whitespace character |
| AnnouncementCard.AnnouncementCardView.constructor | src/components/AnnouncementCard.tsx:59-80 | the card opens out of edit mode, without messages, with the edit form taken from the announcement |
| AnnouncementCard.AnnouncementCardView.ReceiveProps | src/components/ChurchDetails.tsx:880-884 | the list re-renders the card, kept mounted by its key, with the replaced record: only the prop changes, the form and every other state cell stay |
| AnnouncementCard.AnnouncementCardView.HandleEdit | src/components/AnnouncementCard.tsx:132-136 | edit mode starts, both messages clear, and the form is unchanged |
| AnnouncementCard.AnnouncementCardView.HandleCancel | src/components/AnnouncementCard.tsx:138-154 | edit mode ends, the form goes back to the values of the announcement the card currently holds (the latest prop) and both messages clear |
| AnnouncementCard.AnnouncementCardView.HandleChange | src/components/AnnouncementCard.tsx:245-328 | only the edited field of the form changes |
| AnnouncementCard.AnnouncementCardView.HandleDayChange | src/components/AnnouncementCard.tsx:280 | only the form's day changes |
| AnnouncementCard.AnnouncementCardView.HandleSpecialChange | src/components/AnnouncementCard.tsx:337 | only the form's special flag changes |
| AnnouncementCard.AnnouncementCardView.HandleSave | src/components/AnnouncementCard.tsx:156-196 | a whitespace-only title is refused with no request; otherwise the form is sent, and success hands the stored announcement to the list, leaves edit mode and schedules the message's removal, while a refusal or network failure keeps edit mode and shows its message; loading ends false |
| AnnouncementCard.AnnouncementCardView.SuccessTimeout | src/components/AnnouncementCard.tsx:186 | the timer clears only the success message |
| AnnouncementCard.AnnouncementCardView.SetDeleteDialogOpen | src/components/AnnouncementCard.tsx:426 | only the dialog's open flag changes |
| AnnouncementCard.AnnouncementCardView.HandleDelete | src/components/AnnouncementCard.tsx:198-218 | success passes the announcement's id to the list and closes the dialog; a refusal or network failure keeps the dialog and shows its message; loading ends false |
| AnnouncementCard.AnnouncementCardView.HandleImageUpload | src/components/AnnouncementCard.tsx:220-228 | the form takes the uploaded URL exactly when the file is accepted, the upload succeeds and the URL is non-empty; the hook's clearing timer is scheduled exactly when the upload reports success; the hook's state ends as `AfterUpload` of its old state (`uploading`, error and success as the page shows them) |
| EventCard.PriceDisplay | src/components/EventCard.tsx:281-290 | an amount is shown exactly for a positive price and is that price; the Free chip shows exactly for a price of zero; a missing or negative price shows nothing |
| EventCard.EditFormOf | src/components/EventCard.tsx:55-66 | the edit form opens with the event's own title, start and image, and its price, or 0 when it has none |
| EventCard.FormPriceZeroIff | src/components/EventCard.tsx:61 | the form's price starts at zero exactly when the event shows as free or has no price |
| EventCard.Set | src/components/EventCard.tsx:360-441 | the edited field takes the value, every other field keeps its own, and the price is untouched |
| EventCard.PriceInput | src/components/EventCard.tsx:416 | a number the parser cannot read becomes 0, and any number it reads is kept |
| EventCard.BackendDatetime | src/components/EventCard.tsx:197-218 | an empty or unreadable date-time is sent as empty; any other is sent as its ISO form |
| EventCard.Submission | src/components/EventCard.tsx:103-107 | the request body is the form with only its two date-times converted for the backend |
| EventCard.SaveDisabled | src/components/EventCard.tsx:458 | saving is enabled exactly when not updating and both the title and the image URL are filled in |
| EventCard.OpenFormSavable | src/components/EventCard.tsx:55-66 | a card opened on an event with a title and an image can be saved at once |
| EventCard.EventCardView.constructor | src/components/EventCard.tsx:51-76 | the card opens out of edit mode, with no dialog, nothing running, and the edit form taken from the event |
| EventCard.EventCardView.StartEditing | src/components/EventCard.tsx:249 | edit mode starts and nothing else changes |
| EventCard.EventCardView.SetDeleteDialogOpen | src/components/EventCard.tsx:252 | only the dialog's open flag changes |
| EventCard.EventCardView.HandleChange | src/components/EventCard.tsx:360-441 | only the edited field of the form changes |
| EventCard.EventCardView.HandlePriceChange | src/components/EventCard.tsx:416 | only the form's price changes, to the parsed number or 0 |
| EventCard.EventCardView.HandleDelete | src/components/EventCard.tsx:78-96 | the list is refreshed and the dialog closes exactly when the delete succeeds; deleting ends false |
| EventCard.EventCardView.HandleUpdate | src/components/EventCard.tsx:98-128 | the converted form is sent; the list is refreshed and edit mode ends exactly when the update succeeds; the upload messages are cleared and updating ends false |
| EventCard.EventCardView.HandleCancel | src/components/EventCard.tsx:130-145 | the form goes back to the event's own values, edit mode ends and the upload messages clear |
| EventCard.EventCardView.HandleImageUpload | src/components/EventCard.tsx:147-152 | the form takes the uploaded URL exactly when the file is accepted, the upload succeeds and the URL is non-empty; the hook's clearing timer is scheduled exactly when the upload reports success; the hook's state ends as `AfterUpload` of its old state (`uploading`, error and success as the page shows them) |
| EventCard.EventCardView.ShownDatetimes | src/components/EventCard.tsx:395-403 | each date-time input is empty exactly when its stored value is empty or unreadable |
| DonationCard.MenuListsTable | src/components/DonationCard.tsx:52-63 | the method menu lists every method of the style table once, and nothing else |
| DonationCard.PaymentMethodStyle | src/components/DonationCard.tsx:61-63 | a method the table names is drawn with its own entry, and any other string with the 'Other' entry |
| DonationCard.StyleIdentifiesMethod | src/components/DonationCard.tsx:52-63 | two listed methods are drawn alike exactly when they are the same method, and every unlisted method is drawn as 'Other' |
| DonationCard.PaymentMethodStyleAsWritten | src/components/DonationCard.tsx:61-63 | the lookup as written finds a style exactly for a listed method or a name that is not inherited from the object prototype |
| DonationCard.PrototypeNameLosesStyle | src/components/DonationCard.tsx:61-63 | a method named "constructor" gets no style as written though 'Other' was meant; for every other non-prototype name the two lookups agree |
| DonationCard.Set | src/components/DonationCard.tsx:110-139 | the edited field takes the value, every other field keeps its own, and the id, church and timestamps are untouched |
| DonationCard.CardSaveDisabled | src/components/DonationCard.tsx:152 | the card's save is enabled exactly when not saving and the contact info is non-empty |
| DonationCard.DonationCardView.constructor | src/components/DonationCard.tsx:65-68 | the card opens out of edit mode, not saving, with the form holding the donation |
| DonationCard.DonationCardView.ReceiveProps | src/components/ChurchDetails.tsx:798-802 | the list re-renders the card, kept mounted by its key, with the replaced record: only the prop changes, the form and the flags stay |
| DonationCard.DonationCardView.HandleEdit | src/components/DonationCard.tsx:72-75 | edit mode starts with the form reset to the donation the card currently holds (the latest prop) |
| DonationCard.DonationCardView.HandleCancel | src/components/DonationCard.tsx:77-80 | edit mode ends with the form reset to the donation the card currently holds (the latest prop) |
| DonationCard.DonationCardView.HandleChange | src/components/DonationCard.tsx:110-139 | only the edited field of the form changes |
| DonationCard.DonationCardView.HandleSave | src/components/DonationCard.tsx:82-93 | without an update callback nothing happens; otherwise the form is handed to it, edit mode ends unless it rejects, and saving ends false |
| DonationCard.DonationCardView.HandleDelete | src/components/DonationCard.tsx:95-99 | the donation's id is passed on exactly when the user confirms |
| DonationCard.OptionalRoundTrip | src/components/DonationCard.tsx:262-268 | an empty optional field is sent as missing and read back as empty, and every other value travels unchanged |
| DonationCard.NewDonationOf | src/components/DonationCard.tsx:262-268 | the payload names the church, drops exactly the empty name and note, and reads back as the form |
| DonationCard.AddDisabled | src/components/DonationCard.tsx:358 | adding is enabled exactly when not adding and the contact info holds a non-whitespace character |
| DonationCard.AddDonationDialog.constructor | src/components/DonationCard.tsx:242-250 | the dialog opens on an empty Cash App form, not adding, without an error |
| DonationCard.AddDonationDialog.HandleChange | src/components/DonationCard.tsx:300-343 | only the edited field of the form changes |
| DonationCard.AddDonationDialog.DismissError | src/components/DonationCard.tsx:290 | only the error clears |
| DonationCard.AddDonationDialog.HandleAdd | src/components/DonationCard.tsx:252-282 | a whitespace-only contact is refused with its message and nothing sent; otherwise the payload is handed on, and success resets the form and closes the dialog while a rejection keeps the form and shows the failure; adding ends false |
| ChurchDetails.ReplaceById | src/components/ChurchDetails.tsx:204-210 | the list keeps its length and order, each element with the updated id becomes the update, and every other element stays |
| ChurchDetails.RemoveById | src/components/ChurchDetails.tsx:212-214 | the list keeps exactly the elements whose id differs, and never grows |
| ChurchDetails.RemoveConcat | src/components/ChurchDetails.tsx:212-214 | removal works part by part, so the survivors keep their order |
| ChurchDetails.RemoveAbsent | src/components/ChurchDetails.tsx:212-231 | removing an id no element has changes nothing, and removing the same id twice is removing it once |
| ChurchDetails.ReplaceThenRemove | src/components/ChurchDetails.tsx:204-214 | updating an element and then deleting its id leaves what deleting alone leaves |
| ChurchDetails.ReplaceAbsent | src/components/ChurchDetails.tsx:204-210 | an update for an id no element has leaves the list as it was |
| ChurchDetails.ScreenFor | src/components/ChurchDetails.tsx:386-407 | the loading text shows exactly while loading, and the details exactly when loading is over and a church is loaded |
| ChurchDetails.ChurchDetailsPage.constructor | src/components/ChurchDetails.tsx:98-112 | the page opens with no church, empty lists, all four loads pending, not editing, no messages and an empty form |
| ChurchDetails.ChurchDetailsPage.LoadChurchDetails | src/components/ChurchDetails.tsx:127-145 | the new page state is the load outcome of the old one: a loaded church goes into both the page and the form, a refusal or network failure only sets its message and keeps any church loaded before, and loading ends false |
| ChurchDetails.LoadOutcome | src/components/ChurchDetails.tsx:127-145 | loading is over; some church is shown afterwards exactly when one was loaded before or this reply is OK; a failure leaves a non-empty message and keeps the church and form |
| ChurchDetails.LoadError | src/components/ChurchDetails.tsx:139-143 | a refusal and a request that throws leave different fixed messages, neither empty |
| ChurchDetails.ChurchDetailsPage.Adopt | src/components/ChurchDetails.tsx:135-137 | the church from the backend becomes both the page's church and the form's contents, and nothing else changes |
| ChurchDetails.LoadDecidesScreen | src/components/ChurchDetails.tsx:386-407 | after a load the details show exactly when this load or an earlier one produced a church, and the not-found alert otherwise |
| ChurchDetails.ChurchDetailsPage.LoadEvents | src/components/ChurchDetails.tsx:147-164 | a loaded list replaces the events, a failure keeps them, and only the events' loading flag also changes |
| ChurchDetails.ChurchDetailsPage.LoadAnnouncements | src/components/ChurchDetails.tsx:166-183 | a loaded list replaces the announcements, a failure keeps them, and only their loading flag also changes |
| ChurchDetails.ChurchDetailsPage.LoadDonations | src/components/ChurchDetails.tsx:185-202 | a loaded list replaces the donations, a failure keeps them, and only their loading flag also changes |
| ChurchDetails.ChurchDetailsPage.HandleAnnouncementUpdate | src/components/ChurchDetails.tsx:204-210 | the announcements with the updated id are replaced in place and nothing else changes |
| ChurchDetails.ChurchDetailsPage.HandleAnnouncementDelete | src/components/ChurchDetails.tsx:212-214 | exactly the announcements with that id are dropped and nothing else changes |
| ChurchDetails.ChurchDetailsPage.HandleDonationDelete | src/components/ChurchDetails.tsx:216-231 | the donations with that id are dropped exactly when the backend agrees |
| ChurchDetails.ChurchDetailsPage.HandleDonationAdd | src/components/ChurchDetails.tsx:233-254 | the stored donation is appended exactly when the backend accepts it, and the caller is told of every failure |
| ChurchDetails.ChurchDetailsPage.HandleDonationUpdate | src/components/ChurchDetails.tsx:256-281 | the donations with the returned record's id are replaced by it exactly when the backend accepts, and the caller is told of every failure |
| ChurchDetails.ChurchDetailsPage.HandleEdit | src/components/ChurchDetails.tsx:283-287 | edit mode starts and both messages clear |
| ChurchDetails.ChurchDetailsPage.HandleCancel | src/components/ChurchDetails.tsx:289-294 | edit mode ends, the form goes back to the loaded church and both messages clear |
| ChurchDetails.ChurchDetailsPage.HandleSave | src/components/ChurchDetails.tsx:296-324 | the form as it was is sent, and the new page state is the save outcome of the old one: the stored church replaces both page and form, edit mode ends and the success shows when accepted, while a refusal or network failure only sets its message; saving ends false |
| ChurchDetails.SaveOutcome | src/components/ChurchDetails.tsx:296-324 | saving is over; an accepted save ends edit mode with the page's church equal to the form and no error; a failure leaves a non-empty message and keeps edit mode, church and form (the user's edits survive) |
| ChurchDetails.SaveError | src/components/ChurchDetails.tsx:316-321 | a refusal shows the backend's error or a fixed message, a request that throws another fixed message, never empty |
| ChurchDetails.ChurchDetailsPage.AcceptSaved | src/components/ChurchDetails.tsx:310-315 | the stored church is adopted by page and form, edit mode ends and the success message shows |
| ChurchDetails.LoadedOrEmpty | src/components/ChurchDetails.tsx:291 | the loaded church when there is one, otherwise a record with no id and no fields |
| ChurchDetails.ChurchDetailsPage.HandleInputChange | src/components/ChurchDetails.tsx:326-331 | only the named field of the form changes |
| ChurchDetails.ChurchDetailsPage.SetAddDonationOpen | src/components/ChurchDetails.tsx:775 | only the add dialog's open flag changes |
| ChurchDetails.ChurchDetailsPage.HandleImageUpload | src/components/ChurchDetails.tsx:333-346 | both messages clear, and the named field takes the uploaded URL exactly when the file is accepted, the upload succeeds and the URL is non-empty; the hook's clearing timer is scheduled exactly when the upload reports success; the hook's state ends as `AfterUpload` of its old state (`uploading`, error and success as the page shows them) |
| ChurchDetails.ChurchDetailsPage.PutImage | src/components/ChurchDetails.tsx:343-345 | a non-empty URL goes into the named field and nothing else changes |
| SuperuserDashboard.Filter | src/components/SuperuserDashboard.tsx:294-305 | the result holds exactly the listed elements that pass the test, and is never longer than the list |
| SuperuserDashboard.UnassignedUsers | src/components/SuperuserDashboard.tsx:294-299 | a user waits for a church exactly when listed, a church admin, and with assignments missing or empty |
| SuperuserDashboard.AssignedUsers | src/components/SuperuserDashboard.tsx:301-305 | a user counts as assigned exactly when listed with at least one assignment, whatever the role |
| SuperuserDashboard.AssignedAndUnassignedSplit | src/components/SuperuserDashboard.tsx:294-305 | no user is in both lists, every listed church admin is in one of them, and together they are no longer than the users list |
| SuperuserDashboard.CreateAdminError | src/components/SuperuserDashboard.tsx:143-153 | a missing field is reported first, then an email without `@` |
| SuperuserDashboard.CreateAdminAccepts | src/components/SuperuserDashboard.tsx:143-153 | the precheck passes exactly for three filled-in fields and an email containing `@` |
| SuperuserDashboard.LowerCasedEmailKeepsAt | src/components/SuperuserDashboard.tsx:149-163 | the lower-cased email sent to the backend still has the `@` the precheck asked for |
| SuperuserDashboard.ChurchDeletedMessage | src/components/SuperuserDashboard.tsx:282 | the church-deleted message always opens with its fixed success text |
| SuperuserDashboard.ShowsSpinner | src/components/SuperuserDashboard.tsx:308 | the full-page spinner shows exactly while loading with both lists still empty |
| SuperuserDashboard.AssignDisabled | src/components/SuperuserDashboard.tsx:402 | the assign button is enabled exactly when some listed church admin waits for a church and some church is listed |
| SuperuserDashboard.SuperuserDashboardPage.constructor | src/components/SuperuserDashboard.tsx:84-101 | the dashboard opens with empty lists, no messages, closed dialogs, empty create-admin inputs with the church admin role, and nothing selected |
| SuperuserDashboard.SuperuserDashboardPage.LoadData | src/components/SuperuserDashboard.tsx:110-141 | the users and then the churches are replaced by what loads; a failure keeps what was there and sets the load message, and a users failure leaves the churches alone; loading ends false |
| SuperuserDashboard.SuperuserDashboardPage.SetAdminField | src/components/SuperuserDashboard.tsx:550-576 | only the edited create-admin input changes |
| SuperuserDashboard.SuperuserDashboardPage.HandleCreateAdmin | src/components/SuperuserDashboard.tsx:143-186 | a failed precheck only sets its message; otherwise the lower-cased email, password, name and role are sent, and success closes and resets the dialog and reloads, while a refusal or network failure only sets its message |
| SuperuserDashboard.SuperuserDashboardPage.SelectUser | src/components/SuperuserDashboard.tsx:600 | only the selected user changes |
| SuperuserDashboard.SuperuserDashboardPage.SelectChurch | src/components/SuperuserDashboard.tsx:614 | only the selected church changes |
| SuperuserDashboard.SuperuserDashboardPage.HandleAssignToChurch | src/components/SuperuserDashboard.tsx:188-242 | a missing or zero selection only sets its message; otherwise the pair is sent, and success closes the dialog, clears the selection and quietly refreshes the lists, while a refusal or network failure only sets its message |
| SuperuserDashboard.SuperuserDashboardPage.HandleDeleteUser | src/components/SuperuserDashboard.tsx:244-266 | nothing happens unless confirmed; then success shows its message and reloads, and a refusal or network failure shows its own |
| SuperuserDashboard.SuperuserDashboardPage.HandleDeleteChurch | src/components/SuperuserDashboard.tsx:268-292 | nothing happens unless confirmed; then success shows the removed-assignment count and reloads, and a refusal or network failure shows its message |
| SuperuserDashboard.SuperuserDashboardPage.SetCreateAdminOpen | src/components/SuperuserDashboard.tsx:393 | only the create-admin dialog's open flag changes |
| SuperuserDashboard.SuperuserDashboardPage.SetAssignDialogOpen | src/components/SuperuserDashboard.tsx:401 | only the assign dialog's open flag changes |
| SuperuserDashboard.SuperuserDashboardPage.DismissMessages | src/components/SuperuserDashboard.tsx:333-338 | only the dismissed alert's message clears |
| SuperuserDashboard.CreateAdminOutcome | src/components/SuperuserDashboard.tsx:170-185 | loading is over and both lists are kept; an OK reply shows the created message, closes the dialog and empties its inputs with the role back to church admin; any failure leaves a non-empty message (the backend's error or a fixed one, or the network message) and keeps the dialog and its inputs |
| SuperuserDashboard.SuperuserDashboardPage.ApplyCreateReply | src/components/SuperuserDashboard.tsx:170-185 | the reload is started exactly on an OK reply, and the new state is the create outcome of the old one |
| SuperuserDashboard.SuperuserDashboardPage.CloseCreateDialog | src/components/SuperuserDashboard.tsx:171-176 | the created message shows, the dialog closes and its inputs return to their initial values, and nothing else changes |
| SuperuserDashboard.SuperuserDashboardPage.ApplyAssignReply | src/components/SuperuserDashboard.tsx:206-241 | an OK reply shows the assigned message, closes the dialog, clears both selections and refreshes the lists; a refusal or a throw only sets its message; loading ends false |
| SuperuserDashboard.SuperuserDashboardPage.CloseAssignDialog | src/components/SuperuserDashboard.tsx:207-210 | the assigned message shows, the dialog closes and nothing is selected, and nothing else changes |
| SuperuserDashboard.SuperuserDashboardPage.RefreshQuietly | src/components/SuperuserDashboard.tsx:213-232 | a list is replaced only by an OK answer, the churches are not asked for once the users' reload throws, and no message or flag changes |
| AdminProfile.ProfileOf | src/components/AdminProfile.tsx:55-58 | the profile form holds the signed-in user's name and email, or two empty strings when nobody is signed in |
| AdminProfile.RoleLabel | src/components/AdminProfile.tsx:235 | the chip reads 'Super Admin' exactly for a superuser and 'Church Admin' for everyone else |
| AdminProfile.AssignmentLabel | src/components/AdminProfile.tsx:269-273 | the line shows the first assignment's church when there is an assignment, and says there is none otherwise |
| AdminProfile.PasswordError | src/components/AdminProfile.tsx:97-122 | the current password, then the new one, then its length of at least 6, then the confirmation are checked in that order, and the change passes exactly when all four hold |
| AdminProfile.ChangeDisabled | src/components/AdminProfile.tsx:454-461 | when nothing is in flight the change button is enabled exactly when every check of the handler passes |
| AdminProfile.CurrentRequiredNotFlagged | src/components/AdminProfile.tsx:103-104 | the case-sensitive test never puts 'Current password is required' under the current-password field, while the case-insensitive one does |
| AdminProfile.NoLowerCNotFlagged | src/components/AdminProfile.tsx:407-408 | no message without a lower-case 'c' is put under the current-password field as written |
| AdminProfile.LoweredNeedleFlagged | src/components/AdminProfile.tsx:407-408 | any message opening with "current password" in any letter case is put under the field by the case-insensitive test |
| AdminProfile.NewPasswordMessagesFlagged | src/components/AdminProfile.tsx:419-436 | both new-password messages show under the new-password field, and the mismatch message under both the new-password and the confirm fields |
| AdminProfile.AdminProfilePage.constructor | src/components/AdminProfile.tsx:47-64 | the page opens out of edit mode, without messages or dialogs, with the user's profile and empty password fields |
| AdminProfile.AdminProfilePage.StartEditing | src/components/AdminProfile.tsx:291 | only edit mode changes |
| AdminProfile.AdminProfilePage.CancelEditing | src/components/AdminProfile.tsx:308-312 | edit mode ends and the form goes back to the user's name and email |
| AdminProfile.AdminProfilePage.SetProfileName | src/components/AdminProfile.tsx:326 | only the form's name changes |
| AdminProfile.AdminProfilePage.SetProfileEmail | src/components/AdminProfile.tsx:334 | only the form's email changes |
| AdminProfile.AdminProfilePage.HandleProfileSave | src/components/AdminProfile.tsx:68-95 | the form is sent; success leaves edit mode, shows its message and refreshes the session's user, while a refusal or network failure only sets its message; loading ends false |
| AdminProfile.AdminProfilePage.SetPasswordDialogOpen | src/components/AdminProfile.tsx:352 | only the dialog's open flag changes |
| AdminProfile.AdminProfilePage.SetPasswordField | src/components/AdminProfile.tsx:403-433 | only the edited password field changes, and the error clears |
| AdminProfile.AdminProfilePage.CancelPasswordDialog | src/components/AdminProfile.tsx:380-386 | the dialog closes, the error clears and the password fields empty |
| AdminProfile.AdminProfilePage.HandlePasswordChange | src/components/AdminProfile.tsx:97-154 | a failed check clears the success and shows its message with nothing sent; otherwise both passwords are sent, and success closes and empties the dialog, while a refusal or network failure shows its message; loading ends false |
| AdminProfile.AdminProfilePage.SetDeleteDialogOpen | src/components/AdminProfile.tsx:370 | only the delete dialog's open flag changes |
| AdminProfile.AdminProfilePage.HandleAccountDeletion | src/components/AdminProfile.tsx:156-183 | success closes the dialog, shows its message and schedules the logout, while a refusal or network failure only sets its message; loading ends false |
| AdminProfile.AdminProfilePage.DismissError | src/components/AdminProfile.tsx:202 | only the error clears |
| ResetPassword.PasswordError | src/pages/ResetPassword.tsx:65-83 | the new password's presence, then its length of at least 6, then the confirmation are checked in that order, and the reset passes exactly when the length and the match hold |
| ResetPassword.SubmitDisabled | src/pages/ResetPassword.tsx:278 | the button is enabled exactly when nothing is in flight and both fields are non-empty |
| ResetPassword.ButtonAdmitsValidPasswords | src/pages/ResetPassword.tsx:65-83 | every pair the checks accept can be submitted, and a filled confirmation is blocked by the button only when the new password is empty |
| ResetPassword.ScreenFor | src/pages/ResetPassword.tsx:118-220 | the spinner shows exactly while verifying, the invalid-link screen exactly when verification is over with an error and no user, and the card's form exactly when no success is set |
| ResetPassword.VerifyError | src/pages/ResetPassword.tsx:49-63 | an accepted token leaves no error; a refused one always leaves a non-empty message, the backend's or the default; a network failure its own |
| ResetPassword.ResetPasswordPage.constructor | src/pages/ResetPassword.tsx:25-35 | the page opens verifying, with every field and message empty and no user |
| ResetPassword.ResetPasswordPage.Mount | src/pages/ResetPassword.tsx:38-47 | a missing or empty token shows the invalid-link message without a check; any other token is stored and checked; verifying ends on every path |
| ResetPassword.ResetPasswordPage.VerifyToken | src/pages/ResetPassword.tsx:49-63 | an accepted token stores the user, a refused or failed check stores its error, and verifying ends |
| ResetPassword.ResetPasswordPage.SetNewPassword | src/pages/ResetPassword.tsx:228-231 | only the new password changes, and the error clears |
| ResetPassword.ResetPasswordPage.SetConfirmPassword | src/pages/ResetPassword.tsx:254-257 | only the confirmation changes, and the error clears |
| ResetPassword.ResetPasswordPage.ToggleShowPassword | src/pages/ResetPassword.tsx:239 | only the new password's visibility flips |
| ResetPassword.ResetPasswordPage.ToggleShowConfirmPassword | src/pages/ResetPassword.tsx:264 | only the confirmation's visibility flips |
| ResetPassword.ResetPasswordPage.DismissError | src/pages/ResetPassword.tsx:206 | only the error clears |
| ResetPassword.ResetPasswordPage.HandleSubmit | src/pages/ResetPassword.tsx:65-116 | a failed check only sets its message; otherwise the token and new password are sent, and success shows the backend's message and schedules the way to the login page, while a refusal or network failure shows its message; loading ends false |
| ResetPassword.MissingTokenShowsInvalidLink | src/pages/ResetPassword.tsx:38-47 | a link without a token ends on the invalid-link screen |
| ResetPassword.VerifyOutcomeScreen | src/pages/ResetPassword.tsx:118-140 | a refused or failed token check ends on the invalid-link screen; an accepted one ends on the card, whatever error a later submission sets |
| ResetPassword.SuccessHidesForm | src/pages/ResetPassword.tsx:220 | once a user is known, the form hides exactly when the backend's success message is non-empty |

## Left out

- ImageUpload.Options: `maxSizeInMB` is a natural number, so a fractional limit (a JavaScript number such as 2.5) is not modelled; every caller in the application uses the default of 5.

- Requests: `fetch`, `FormData`, `localStorage` and `window.confirm` are inputs (a `Reply`, the stored token as a field, the confirmation as a `bool`). URLs and headers are not modelled; the body a handler sends is.
- Dates: JavaScript `Date` parsing, the host's time zone, `toISOString` and `toLocaleString`/`toLocaleTimeString` depend on the host clock and locale. A parsed date is a `LocalDate` input (its getters' values or `InvalidDate`), and a converted string is an `Option<string>` input. Only the zero-padded `YYYY-MM-DDTHH:MM` formatter from integer components is defined.
- AnnouncementCard.FormatTimeForDisplay: the browser's rendering of a non-clock time is an input (`converted`), so only the clock-form fast path and the empty case are stated.
- `formatDateTime` (AnnouncementCard.tsx:82-89) and `formatDate` (EventCard.tsx:154-172) are pure locale formatting of a `Date`; they are not modelled.
- The `catch` of EventCard's `formatDateTimeForBackend` (EventCard.tsx:213-216) is not modelled: `toISOString` throws only on an invalid date, which the branch before it already returns on.
- The end-after-start comparison in ManageEvents is an order on `LocalDate` values, not on JavaScript time values.
- Prices: `parseFloat` is an input (`Option<real>`, `None` for NaN). Floating-point rounding is not modelled.
- Timers: `setTimeout` callbacks become out-parameters saying what was scheduled (`followUp`, `clearLater`, `logoutLater`, `toLoginLater`, `refresh`) or, where state changes when they fire, a method for the tick (`AnnouncementCardView.SuccessTimeout`, `ImageUploadHook.SuccessTimeout`, `ManageEventsPage.SuccessTimeout`). Their delays are not modelled.
- Concurrency: each handler runs to completion with all its replies given up front. Overlapping requests, React's batching of state updates and handlers that read stale state are not modelled.
- `console.log`, `console.warn` and `console.error` calls are not modelled.
- Markup and styling are not modelled: icons, colours applied, layout, the capitalised type label (AnnouncementCard.tsx:434), and the pages without logic (Landing, EnrollPage, Footer, the theme, ChurchEnrollment).
- Visibility toggles: the show-password flags are modelled as state and only switch the input type.
- Text.ToUpper and Text.ToLower: map ASCII letters only. JavaScript's full Unicode case mapping (including strings that change length) is not modelled.
- `.length`: password-length checks count Dafny characters (Unicode scalar values). JavaScript counts UTF-16 code units, so the two differ for characters outside the Basic Multilingual Plane.
- The contact-email regular expression of ManageEvents is modelled by a backtracking matcher for that one pattern, proved equal to its three-part shape. No general regular-expression engine is modelled.
- ChurchDetails: a church record is a map from field to string, and the view mode's display of each field is not modelled.
- AnnouncementCard.DayName: a day is an integer. A fractional day number, for which `days[day]` is undefined, is not modelled.
- SuperuserDashboard.ChurchDeletedMessage: states only the message's fixed opening, not the count that follows (`String(n)`, or `undefined` when the count is missing).

## Findings

| source | as written | input that shows it | evidently intended | confidence | as-written member | corrected member |
|---|---|---|---|---|---|---|
| src/components/DonationCard.tsx:61-63 | the style is looked up by indexing a plain object literal and falling back to 'Other' only when the result is falsy | a stored payment method named `constructor` (any name inherited from the object prototype) gets the inherited function as its style, so no colour or icon | every method not in the table is drawn as 'Other' | not executed; the method is free text in the backend record | DonationCard.PaymentMethodStyleAsWritten | DonationCard.PaymentMethodStyle |
| src/components/AdminProfile.tsx:407-408 | the current-password field shows the error only when it contains 'current password' in lower case | 'Current password is required', the page's own message for that field (AdminProfile.tsx:103-104), is never shown under it | a message about the current password is shown under the current-password field whatever its capitalisation | not executed; low, since the disabled button keeps the handler from producing that message, so only a backend message with the same capital letter would show it | AdminProfile.FlagsCurrentFieldAsWritten | AdminProfile.FlagsCurrentField |
