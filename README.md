# Advent calendar front end: session and answer-flow model

This project models the client-side controller of a campaign advent calendar. It is the
Next.js front end of a WordPress "netapp-campaign" REST plugin.

- **`Common`** (`common.dfy`): shared pieces. Nullable values, the JavaScript truthiness tests
  the code relies on, `String.prototype.includes`, and the toast notices.
- **`CampaignApi`** (`api.dfy`, from `src/lib/api.ts`):
  - the `sessionStorage` token slot, a class over the whole of local storage;
  - `apiRequest`, with its header rules and its error message for a non-2xx response;
  - the `campaignAPI` operations, as a `Client` class that logs every request it issues.
- **`EmailForm`** (`email_form.dfy`, from `src/components/email-entry.tsx`):
  - the `isEmail` pattern, as a left-to-right matcher proved equal to a declarative reading;
  - the ordered validation guards;
  - the register-then-create-session sequence, as the `EmailEntry` class.
- **`AdventCalendar`** (`calendar.dfy`, from `src/components/advent-calendar.tsx`):
  - the component's hooks as one `View` record;
  - each handler, both as a transition function and as a method of the `Calendar` class;
  - the render gating, the tile rules and the question modal's submit guard and result display.

The network is not modelled. An operation receives what `fetch` would have produced as a
`Fetched` value: a rejection with its message, a non-2xx status with its body, or a parsed body.
`Settle` turns that into the promise's result, either returned or thrown with a message.
Every handler runs atomically. The methods are proved against the transition functions, and
the lemmas state what the source promises about those functions.

The model follows the code as written in three places where the code behaves differently
from what a reader might expect:

- **The token store has one tier.** It is one local-storage slot, reachable only when a
  `window` exists (`src/lib/api.ts:12-29`). There is no fallback tier.
- **`register`'s arguments shift.** The form passes five arguments to a six-parameter
  function (`src/components/email-entry.tsx:72-78`, `src/lib/api.ts:144-151`). In
  registration mode the company travels as `last_name`, the job title as `company` and the
  phone as `job_title`. No phone is ever sent as `business_phone` (`RegisterRequestBody`,
  `CompanyIsSentAsLastName`).
- **Line 182 of `advent-calendar.tsx` calls the browser's storage object.**
  `sessionStorage.removeToken()` there names the browser's `sessionStorage`, which the file
  never imports from `api.ts` (line 18). That object has no such method, so the call throws
  a `TypeError`. The toast at line 184 is therefore skipped, and the API token stays stored.
  In the model, `HandleAnswerSubmit` does not modify the token store, and
  `AuthFailureRoutesToIdentityForm` shows no toast.

Two further consequences are visible in the model.

- **"401" and "403" match only the message text.** A non-2xx response throws with the
  body's `message`, so a 401 has to say "401" or "session" in its body to route the user back
  to the form. A body like `{"message": "Invalid session"}` does route back
  (`UnauthorizedAnswer`). A bare 401 with an unparseable body throws "Unknown error" and only
  shows a toast. The status text "Unauthorized" contains none of the three words either.
- **A failed dashboard load asks for the full registration form.** It sets
  `isRegistration`, even right after a successful sign-in
  (`SessionCreatedEffect`, `DashboardFailureAsksForRegistration`).

## Model

| member | source | states |
|---|---|---|
| Common.OrElse | src/components/advent-calendar.tsx:130 | `a \|\| b` on strings yields `a` when it is non-empty and the fallback otherwise |
| Common.OrUndefined | src/components/email-entry.tsx:74-77 | an empty field, and only an empty one, becomes an absent value; a non-empty one is kept as it is |
| Common.ContainsIff | src/components/advent-calendar.tsx:170 | the left-to-right `includes` holds exactly when the substring occurs at some index |
| Common.ContainsAt | src/components/advent-calendar.tsx:178 | an occurrence at any index makes `includes` hold |
| CampaignApi.HeaderRules | src/lib/api.ts:51-65 | JSON content type unless the caller overrides it; bearer and session-token headers exactly when a token is stored, overriding the caller's; the nonce header only with a found nonce; other caller headers pass through; nothing else is added |
| CampaignApi.AnonymousHeaders | src/lib/api.ts:51-65 | without caller headers or a token, only the content type and a found nonce are sent |
| CampaignApi.CampaignRequestCredentials | src/lib/api.ts:60-65 | a `campaignAPI` request carries `Authorization: Bearer t` and `X-Session-Token: t` when token `t` is stored, and neither header otherwise |
| CampaignApi.BaseStage | src/lib/api.ts:51-54 | the initial header object is the JSON default overridden by the caller's headers |
| CampaignApi.NonceStage | src/lib/api.ts:56-58 | a truthy nonce is set over the initial headers, and otherwise they are unchanged |
| CampaignApi.TokenStage | src/lib/api.ts:61-65 | a truthy token sets both token headers over everything else, and otherwise nothing changes |
| CampaignApi.BuildHeaders | src/lib/api.ts:51-65 | assigning the headers one key at a time yields exactly the reference headers |
| CampaignApi.ErrorMessage | src/lib/api.ts:74-77 | the body's truthy `message`, else "API request failed: " plus the status text, and "Unknown error" for an unparseable body; never empty |
| CampaignApi.Settle | src/lib/api.ts:67-79 | the request rejects exactly when there is no 2xx body, with the fetch error's message or the HTTP error message |
| CampaignApi.GetSessionResponse | src/lib/api.ts:185-222 | no stored token, or any thrown failure, gives `{success:false, session:null, token:null}`; a delivered body is returned as it is |
| CampaignApi.GetSessionToken | src/lib/api.ts:203-215 | a usable token stays stored exactly when the response reports a valid session; a new token replaces the old one, a missing one keeps it; a falsy stored token is left as it is |
| CampaignApi.InvalidSessionMessage | src/lib/api.ts:74-77 | a 401 whose body says "Invalid session" throws that message, which contains "session" |
| CampaignApi.TokenStore.GetToken | src/lib/api.ts:13-18 | returns the slot's value, and null without a `window` |
| CampaignApi.TokenStore.SetToken | src/lib/api.ts:19-23 | with a `window` the slot holds the token and other entries are unchanged; without one nothing changes |
| CampaignApi.TokenStore.RemoveToken | src/lib/api.ts:24-28 | afterwards no token is read; other entries are unchanged; without a `window` nothing changes |
| CampaignApi.TokenRoundTrip | src/lib/api.ts:12-29 | with a `window`, get after set returns the token, get after remove returns null, and other entries are unchanged |
| CampaignApi.Client.ApiRequest | src/lib/api.ts:44-80 | logs one request built from the caller's headers, the nonce and the token stored now; its result is `Settle` of the fetch result |
| CampaignApi.Client.Register | src/lib/api.ts:144-163 | one POST to `/register` whose six body fields are the six arguments in order |
| CampaignApi.Client.CreateSession | src/lib/api.ts:168-180 | one POST to `/session` with `{email}`; the token is stored only on success with a token, and otherwise storage is unchanged; the response is returned unmodified |
| CampaignApi.Client.GetSession | src/lib/api.ts:185-222 | never throws when storage works; with no stored token it issues no request; the response and the stored token follow `GetSessionResponse` and `GetSessionToken` |
| CampaignApi.Client.GetDashboard | src/lib/api.ts:227-229 | one GET of `/dashboard`, settled |
| CampaignApi.Client.GetDayDetails | src/lib/api.ts:234-236 | one GET of `/day/n`, settled |
| CampaignApi.Client.SubmitAnswer | src/lib/api.ts:241-249 | one POST to `/answer` with body `{day_number, answer}`, settled |
| CampaignApi.Client.GetProgress | src/lib/api.ts:254-265 | one GET of `/progress`, settled |
| EmailForm.IsEmailCorrect | src/components/email-entry.tsx:119-121 | the matcher accepts exactly `local@domain`: a non-empty local part without whitespace or '@', and a domain without either that has a '.' neither first nor last |
| EmailForm.IsEmailShape | src/components/email-entry.tsx:119-121 | given any '@' in the string, it is the only one, and the parts around it satisfy the rules above |
| EmailForm.AcceptedExample | src/components/email-entry.tsx:119-121 | "a@b.com" is accepted |
| EmailForm.RejectedExamples | src/components/email-entry.tsx:119-121 | "", "a@.com", "a@b." and "@b.com" are rejected |
| EmailForm.Validate | src/components/email-entry.tsx:37-65 | the guards in order: an empty name, then (in registration mode only) an empty company or job title, then a malformed email |
| EmailForm.RegisterRequestBody | src/components/email-entry.tsx:70-91 | registration sends the email, then name, company, job title and phone as first name, last name, company and job title, with empty ones absent; sign-in sends the email and the name only |
| EmailForm.CompanyIsSentAsLastName | src/components/email-entry.tsx:72-78 | a registering user's company arrives as `last_name` and not as `company` |
| EmailForm.Submit | src/components/email-entry.tsx:33-117 | a failed guard shows its toast and makes no call; `createSession` is called only after `register` returned; the parent is told exactly when a token came back, and that is exactly when the "Success!" toast shows, with the welcome text of the mode; every other outcome shows an "Error" toast with the thrown message, the response message or "Failed to create session" |
| EmailForm.SignInExample | src/components/email-entry.tsx:94-104 | a sign-in with a name, a valid email and a created session welcomes the user and tells the parent |
| EmailForm.EmailEntry.constructor | src/components/email-entry.tsx:23-30 | empty fields, not loading, and `showRegistration` from the prop |
| EmailForm.EmailEntry.Edit | src/components/email-entry.tsx:184 | an input's `onChange` sets its field only |
| EmailForm.EmailEntry.HandleSubmit | src/components/email-entry.tsx:33-117 | the toast and the parent call of `Submit`; `isLoading` is false after every submit that passed validation; the requests issued are `register`, then `createSession` when it was reached; the token is stored exactly when a session was created; the fields are unchanged |
| EmailForm.EmailEntry.RegisterAndCreateSession | src/components/email-entry.tsx:69-113 | the `try` block: `register`, then `createSession` only if `register` returned, with the toast and stored token of `Submit` |
| EmailForm.EmailEntry.CallRegister | src/components/email-entry.tsx:70-91 | one `register` request with the body of `RegisterRequestBody` in either mode |
| AdventCalendar.ResultDisplay | src/components/advent-calendar.tsx:336-338 | the result shows when there is a fresh result or the day was answered; the verdict and text come from the fresh result, else from the details (`is_correct ?? false`, `correct_answer_text \|\| ''`) |
| AdventCalendar.TileFor | src/components/advent-calendar.tsx:232-266 | a tile is disabled when its day is not (available and unlocked) or while it is loading; the lock shows for a locked day, the gift for a completed one and the spinner for the loading one; without a date it shows "DECEMBER" and the day number |
| AdventCalendar.DerivedTotalDays | src/components/advent-calendar.tsx:81 | `total_days`, else the number of days, else 12; never zero |
| AdventCalendar.ClickGate | src/components/advent-calendar.tsx:102-117 | a locked or unavailable day is refused first, then a completed one |
| AdventCalendar.InitialState | src/components/advent-calendar.tsx:27-38 | before mounting the page shows "Loading...", with the prop's total or 12 and nothing selected |
| AdventCalendar.LoadDashboardEffect | src/components/advent-calendar.tsx:73-99 | a loaded dashboard sets the days, the current day and the derived total, reporting it to a listening parent; a failure or throw clears the session and asks for registration; nothing else changes |
| AdventCalendar.CheckSessionEffect | src/components/advent-calendar.tsx:47-71 | loading ends; only a valid session sets `hasSession`; without one the identity-only form is shown; the modal state is untouched |
| AdventCalendar.DayClickEffect | src/components/advent-calendar.tsx:101-136 | gated days only add their toast; an open day is selected exactly when the server returns its details; a throw adds an error toast; no day is left loading; nothing else changes |
| AdventCalendar.MergeAnswerEffect | src/components/advent-calendar.tsx:154-164 | the merged details are answered, with the chosen answer and the server's verdict, correct answer and text; every other field is unchanged |
| AdventCalendar.AnswerSubmitEffect | src/components/advent-calendar.tsx:138-192 | a no-op without a selected day and details; otherwise loading ends, the selection is kept, a session is never granted, and only a successful submission changes the result |
| AdventCalendar.AnswerAppliedEffect | src/components/advent-calendar.tsx:143-188 | the handler body keeps the selection, never grants a session, and sets a result only on success |
| AdventCalendar.AnswerRecordedEffect | src/components/advent-calendar.tsx:147-167 | a success stores the server's verdict as the result, and the dashboard reload keeps the selection |
| AdventCalendar.ModalSubmitWithoutChoice | src/components/advent-calendar.tsx:309-320 | with no choice the modal only adds "Select an answer" and submits nothing |
| AdventCalendar.SessionCreatedEffect | src/components/advent-calendar.tsx:194-198 | a created session hides the form once the dashboard loads, and shows the registration form when it fails |
| AdventCalendar.CloseEffect | src/components/advent-calendar.tsx:277-281 | closing clears the selected day, its details and the result, and nothing else |
| AdventCalendar.MountSettles | src/components/advent-calendar.tsx:42-71 | after mounting, the page is client-side, not loading, never both signed in and on the form, and its selection is consistent |
| AdventCalendar.DayClickKeepsSettled | src/components/advent-calendar.tsx:101-136 | a day click keeps a settled page settled |
| AdventCalendar.AnswerKeepsSettled | src/components/advent-calendar.tsx:138-192 | an answer submission keeps a settled page settled |
| AdventCalendar.StepKeepsSettled | src/components/advent-calendar.tsx:42-198 | every handler keeps a settled page settled |
| AdventCalendar.RunKeepsSettled | src/components/advent-calendar.tsx:42-198 | any sequence of handlers keeps a settled page settled |
| AdventCalendar.SettledScreens | src/components/advent-calendar.tsx:210-227 | a settled page is never on "Loading...", shows the identity form exactly when `showEmailEntry` is set, and shows the modal only with a selected day |
| AdventCalendar.NeverStuckLoading | src/components/advent-calendar.tsx:210-217 | once mounted, no sequence of user actions brings back the loading screen |
| AdventCalendar.CheckSessionRoutes | src/components/advent-calendar.tsx:47-71 | without a valid session the identity-only form shows; with one and a failed dashboard the registration form shows; otherwise the page is signed in past the form |
| AdventCalendar.SessionBackedByToken | src/components/advent-calendar.tsx:52-55 | after `checkSession`, `hasSession` is set only while a usable token is stored |
| AdventCalendar.DashboardFailureAsksForRegistration | src/components/advent-calendar.tsx:86-96 | a failed dashboard load sends a settled page to the registration form |
| AdventCalendar.TileMatchesGate | src/components/advent-calendar.tsx:233-243 | a tile is disabled exactly when its click would be refused as locked, or its day is loading |
| AdventCalendar.AnswerShowsServerVerdict | src/components/advent-calendar.tsx:147-167 | after a successful submission the result view holds the server's verdict and text, and the details record the chosen answer; on a settled page showing the modal, the result is on screen when the dashboard reload succeeds, and a failed reload shows the registration form |
| AdventCalendar.AuthFailureRoutesToIdentityForm | src/components/advent-calendar.tsx:176-188 | a thrown message containing "session", "401" or "403" shows the identity-only form, and no toast |
| AdventCalendar.SessionRejectionRoutesToIdentityForm | src/components/advent-calendar.tsx:168-174 | a refused submission whose message contains "session" shows the identity-only form, with no toast |
| AdventCalendar.OtherFailuresOnlyNotify | src/components/advent-calendar.tsx:168-188 | any other refused submission changes nothing; any other thrown one only adds an error toast |
| AdventCalendar.OpenDayShowsModal | src/components/advent-calendar.tsx:119-126 | opening a day from the grid shows its question, or its result when it was already answered |
| AdventCalendar.GatedDayStaysClosed | src/components/advent-calendar.tsx:102-117 | a gated day never changes the screen |
| AdventCalendar.UnauthorizedAnswer | src/components/advent-calendar.tsx:176-181 | a 401 saying "Invalid session" sends the answering user back to the identity-only form |
| AdventCalendar.CloseReturnsToGrid | src/components/advent-calendar.tsx:277-281 | closing the modal of a settled signed-in page shows the grid |
| AdventCalendar.Calendar.constructor | src/components/advent-calendar.tsx:26-38 | the hooks start at their initial values |
| AdventCalendar.Calendar.Mount | src/components/advent-calendar.tsx:42-45 | the mount effect: client-side, then `checkSession`, with its requests and token changes |
| AdventCalendar.Calendar.CheckSession | src/components/advent-calendar.tsx:47-71 | the view of `AfterCheckSession`; a session request only with a stored token, then a dashboard request only for a valid session; the token as `getSession` leaves it |
| AdventCalendar.Calendar.ProceedFromSession | src/components/advent-calendar.tsx:52-61 | the branch on the session response, with a dashboard request only for a valid session |
| AdventCalendar.Calendar.LoadDashboard | src/components/advent-calendar.tsx:73-99 | the view of `AfterLoadDashboard`, after one dashboard request |
| AdventCalendar.Calendar.HandleDayClick | src/components/advent-calendar.tsx:101-136 | the view of `AfterDayClick`; a details request only for an open day |
| AdventCalendar.Calendar.HandleAnswerSubmit | src/components/advent-calendar.tsx:138-192 | the view of `AfterAnswerSubmit`; an answer request only with a selected day, then a dashboard request only on success; the token store is not touched |
| AdventCalendar.Calendar.ApplyAnswer | src/components/advent-calendar.tsx:146-188 | the branch on the settled answer, with a dashboard request only on success |
| AdventCalendar.Calendar.RecordAnswer | src/components/advent-calendar.tsx:147-167 | the result, the merged details, then one dashboard request |
| AdventCalendar.Calendar.SubmitFromModal | src/components/advent-calendar.tsx:309-320 | the view of `AfterModalSubmit`; no request without a choice; with one, the requests of `HandleAnswerSubmit` |
| AdventCalendar.Calendar.HandleSessionCreated | src/components/advent-calendar.tsx:194-198 | the view of `AfterSessionCreated`, after one dashboard request |
| AdventCalendar.Calendar.CloseModal | src/components/advent-calendar.tsx:277-281 | the view of `AfterClose` |
| AdventCalendar.Calendar.SubmitIdentity | src/components/advent-calendar.tsx:220-226 | the submit of the form this component renders (the form screen shows, in the form's mode); `handleSessionCreated` runs exactly when the form reports a session; the form's toast, loading flag and fields as `HandleSubmit` leaves them; the register, session and dashboard requests in order; the token is the created one and the rest of storage is unchanged |
| AdventCalendar.VisitSignedOut | src/components/advent-calendar.tsx:42-71 | mounting with no stored token shows the identity-only form and stores nothing |
| AdventCalendar.FillSignInForm | src/components/email-entry.tsx:23-30 | a fresh identity-only form holding the email "a@b.com" and the name "Jane Doe" |
| AdventCalendar.SignIn | src/components/advent-calendar.tsx:194-198 | signing in from that form with a created session and a 12-day dashboard shows the grid and stores the token |
| AdventCalendar.FirstVisit | src/components/advent-calendar.tsx:42-99 | a first visit goes from the identity-only form to the grid with the new token stored and 12 days |
| Common.Contains | src/components/advent-calendar.tsx:170 | no contract; `s.includes(sub)` scanned from the left; facts in `ContainsIff` and `ContainsAt` |
| CampaignApi.Headers | src/lib/api.ts:51-65 | no contract; the reference header map by priority; facts in `HeaderRules`, `AnonymousHeaders`, `CampaignRequestCredentials` and `BuildHeaders` |
| EmailForm.IsEmail | src/components/email-entry.tsx:119-121 | no contract; the pattern as a left-to-right matcher; facts in `IsEmailCorrect`, `IsEmailShape`, `AcceptedExample` and `RejectedExamples` |
| EmailForm.GuardNotice | src/components/email-entry.tsx:37-65 | no contract; the toast of each failed guard; facts in `Submit` |
| AdventCalendar.ScreenOf | src/components/advent-calendar.tsx:210-227 | no contract; which branch of the render runs, and whether the modal shows a question or a result; facts in `InitialState`, `SettledScreens`, `CheckSessionRoutes`, `OpenDayShowsModal` and `CloseReturnsToGrid` |
| AdventCalendar.AfterLoadDashboard | src/components/advent-calendar.tsx:73-99 | no contract; facts in `LoadDashboardEffect` |
| AdventCalendar.AfterCheckSession | src/components/advent-calendar.tsx:47-71 | no contract; facts in `CheckSessionEffect` and `SessionBackedByToken` |
| AdventCalendar.AfterMount | src/components/advent-calendar.tsx:42-45 | no contract; facts in `MountSettles` and `CheckSessionRoutes` |
| AdventCalendar.AfterDayClick | src/components/advent-calendar.tsx:101-136 | no contract; facts in `DayClickEffect`, `OpenDayShowsModal` and `GatedDayStaysClosed` |
| AdventCalendar.MergeAnswer | src/components/advent-calendar.tsx:154-164 | no contract; facts in `MergeAnswerEffect` |
| AdventCalendar.AuthFailure | src/components/advent-calendar.tsx:178 | no contract; a non-empty thrown message containing "session", "401" or "403"; facts in `AuthFailureRoutesToIdentityForm` and `UnauthorizedAnswer` |
| AdventCalendar.SessionRejected | src/components/advent-calendar.tsx:170 | no contract; a truthy response message containing "session"; facts in `SessionRejectionRoutesToIdentityForm` |
| AdventCalendar.AnswerSelectable | src/components/advent-calendar.tsx:141 | no contract; the guard `selectedDayNumber && selectedDayDetails`; facts in `AnswerSubmitEffect` |
| AdventCalendar.AfterAnswerSubmit | src/components/advent-calendar.tsx:138-192 | no contract; facts in `AnswerSubmitEffect`, `AnswerShowsServerVerdict`, `AuthFailureRoutesToIdentityForm`, `SessionRejectionRoutesToIdentityForm` and `OtherFailuresOnlyNotify` |
| AdventCalendar.AfterModalSubmit | src/components/advent-calendar.tsx:309-320 | no contract; facts in `ModalSubmitWithoutChoice` |
| AdventCalendar.AfterSessionCreated | src/components/advent-calendar.tsx:194-198 | no contract; facts in `SessionCreatedEffect` |
| AdventCalendar.AfterClose | src/components/advent-calendar.tsx:277-281 | no contract; facts in `CloseEffect` and `CloseReturnsToGrid` |
| CampaignApi.AnswerGated | src/lib/api.ts:105-107 | no contract; the correct answer and its text travel only with an answered day; facts in `MergeAnswerEffect` |
| CampaignApi.NoSession | src/lib/api.ts:189-196 | no contract; the `{success: false, session: null, token: null}` returned without a token and by the `catch` at lines 216-220; facts in `GetSessionResponse` and `Client.GetSession` |
| CampaignApi.SessionValid | src/components/advent-calendar.tsx:52 | no contract; `success && session`, the negation of the test at `src/lib/api.ts:204`; facts in `GetSessionToken`, `CheckSessionEffect` and `CheckSessionRoutes` |
| CampaignApi.StoresToken | src/lib/api.ts:175 | no contract; `success && token`, the test before `setToken`, also reached by `email-entry.tsx:96`; facts in `Client.CreateSession` and `EmailForm.Submit` |
| AdventCalendar.InitialView | src/components/advent-calendar.tsx:27-38 | no contract; the hooks' initial values; facts in `InitialState`, `Calendar.constructor` and `NeverStuckLoading` |
| AdventCalendar.LoadFailed | src/components/advent-calendar.tsx:77-96 | no contract; a thrown load or `success: false`; facts in `LoadDashboardEffect` and `DashboardFailureAsksForRegistration` |
| AdventCalendar.SessionChecked | src/components/advent-calendar.tsx:52-61 | no contract; the session branch of `checkSession`; facts in `CheckSessionEffect`, `CheckSessionRoutes` and `Calendar.ProceedFromSession` |
| AdventCalendar.SignedOut | src/components/advent-calendar.tsx:171-173 | no contract; the three setters that route back to the identity-only form, also at lines 179-181; facts in `AuthFailureRoutesToIdentityForm` and `SessionRejectionRoutesToIdentityForm` |
| AdventCalendar.Answered | src/components/advent-calendar.tsx:149-164 | no contract; the stored result and the merged details; facts in `AnswerRecordedEffect` and `AnswerShowsServerVerdict` |
| AdventCalendar.AnswerApplied | src/components/advent-calendar.tsx:146-188 | no contract; the `try` body and `catch` of `handleAnswerSubmit`; facts in `AnswerAppliedEffect` and `Calendar.ApplyAnswer` |

## Left out

- Rendering: the JSX markup, styles, dialogs, radio groups, images and icons. Toasts are a
  list of (title, description) notices. The variant is not recorded. The form's inputs carry
  `required` and `type="email"` (`src/components/email-entry.tsx:146-186`); a browser's native
  constraint validation can block the submit before `handleSubmit` runs, and the model
  states only the guards of `handleSubmit` itself.
- The network: `fetch`, its CORS and credentials options, the URL base
  (`NEXT_PUBLIC_WP_API_URL`) and the path prefix. JSON parsing is left out too. Each
  operation takes the fetch result as an input, and endpoints are symbolic.
- Client.ApiRequest: logs the inputs the headers are built from (the caller's headers, the
  nonce and the stored token) rather than the header map itself. `Request.SentHeaders`,
  `Headers` and `BuildHeaders` give that map, and `HeaderRules` states its content.
- `getNonce`: it reads a DOM meta tag. The nonce is a constructor input of `Client`.
- Asynchronous interleaving: overlapping clicks, the un-awaited `loadDashboard()` in
  `handleSessionCreated`, and React's batching of state updates. Each handler is atomic, and
  a hook update takes effect at once.
- Storage failures: `TokenStore` never fails, but the `localStorage` calls at
  `src/lib/api.ts:15`, `:21` and `:26` throw where storage is denied or full. The
  `getToken` call at line 187 is outside `getSession`'s `try`, so with such failures
  `getSession` can reject and the `catch` of `checkSession`
  (`src/components/advent-calendar.tsx:62-67`) becomes reachable. That `catch` leads to the
  same view as an absent session. A failing `setItem` would also make `createSession` reject
  after the server created a session, so the form would show "Error". None of this is modelled.
- Calendar.CheckSession: has no `catch` branch, because the modelled `getSession` never
  throws (see storage failures above).
- Toast order across components: the source has one shared `useToast` queue
  (`src/components/email-entry.tsx:31`, `src/components/advent-calendar.tsx:39`). The model
  keeps two lists, `EmailEntry.notices` and `View.notices`, so the order between a form toast
  and a calendar toast is not recorded.
- AdventCalendar.AuthFailureRoutesToIdentityForm: states that no toast is shown. The failing
  `removeToken` call throws first, and its `TypeError` escaping the handler is not modelled
  further.
- Date and locale formatting: `formatDate`, the month label and `getDate()`. A tile's month and
  day of month are inputs for a day that has a date.
- JSON values of other types: an error body's non-string `message` is not modelled, and
  neither is `NaN` among the numbers.
- The modal's own `selectedAnswer` state, its `resetAndClose` and the dialog's open state:
  the choice is an input of `SubmitFromModal`.
- `console.error` logging.
- `next.config.js`, `src/lib/questions.ts` and `src/app/page.tsx` are not part of this model.
  They are build configuration, static data and a layout shell.
