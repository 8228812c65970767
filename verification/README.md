# brit-ui session and view-state model

The model covers the single-page React client in `src/App.js`. It lets a user sign up, log in and log out against a REST backend. A logged-in user sees a table of priced items and can switch to a summary the server computes. Failed logins show an error banner, and a 5-second timer clears it.

The logic that decides what the component does is a small state machine, and this project models it in Dafny:

- **`Wrappers`** (`wrappers.dfy`): `Option`.
- **`Js`** (`js.dfy`):
  - The JavaScript values the component stores without looking inside them.
  - JavaScript truthiness over those values.
  - The `||` operator the error handler uses for its fallback.
- **`EmailInput`** (`email_input.dfy`): the browser's check on the `type="email"` field, which the signup form must pass before it is submitted.
- **`App`** (`app.dfy`):
  - **State record.** It holds the component's nine state hooks, plus the `Authorization` header set on the shared HTTP client, plus the text of the `form_btn` navbar button.
  - **Events.** One event for each user action and one for each completion of a request or timer.
  - **Handler functions.** One pure function per handler.
  - **`Step`.** It applies one event and returns the new state together with the *effects* the handler sets in motion. An effect is a request sent, or an error timer armed.
  - **`ScreenOf`.** It models the rendering conditions: the table or the summary for a truthy `currentUser`, otherwise the login or signup form with its banner.
  - **`Enabled`.** It says which controls are on screen.
- **`Traces`** (`traces.dfy`): `Run` applies events one after another, in any order. It comes with lemmas about what such runs do.
- **`Session`** (`session.dfy`):
  - A session (`SessionState`) is the component's state together with a multiset of outstanding effects.
  - A user action is accepted only while its control is on screen.
  - A completion is accepted only if it settles an outstanding effect. Completions may arrive in any order.
  - Promises cannot be cancelled, and this is the level where that shows: a late items response, a stale error timer, the header surviving logout.

Each JavaScript continuation becomes its own event. `SignupSucceeded(username, password)` carries the credentials the signup continuation captured when the form was submitted. These can differ from the fields as they are when the response arrives.

The `form_btn` label is written straight into the DOM by `updateFormBtn`. React never rewrites that text. The model keeps the text as a field. A successful logout from the dashboard makes React mount a new button. At that point the field goes back to the JSX text "Signup", whatever form mode is selected.

Three behaviours of the code are worth stating because they are easy to get wrong:

- The code never removes the `Authorization` header on logout (`Session.HeaderSurvivesLogout`).
- The signup request has no `catch`, so a rejected signup changes nothing and never reaches the error banner (`Session.SignupRejectionIsSilent`).
- The navbar button's label gets out of step with the form mode after a logout in signup mode: the remounted button reads "Signup" above the signup form (`Session.LabelOutOfStepAfterLogout`).

## Model

| member | source | states |
|---|---|---|
| Js.Or | src/App.js:39 | JavaScript `or` yields one of its operands. The result is truthy exactly when either operand is. A truthy left operand is the result; a falsy one gives the right operand, whatever it is. |
| App.InitInv | src/App.js:22-30 | The first render satisfies the state invariant and the label/mode agreement. It shows the login form with no banner. |
| App.ScreenOf | src/App.js:129-223 | The dashboard is shown exactly when `currentUser` is truthy. The summary panel is shown exactly when the user is logged in and `showSummary` is set. The signup form is shown exactly when the user is not logged in and the toggle is set. The banner and the summary dump appear only for truthy values. |
| App.UpdateFormBtn | src/App.js:32-36 | Clicking the button flips `signupToggle`. The label comes from the mode before the flip. Nothing else changes and no request is sent. The label keeps naming the other form. |
| App.ErrorMessage | src/App.js:39 | The banner text is the response body if a response arrived and its body is truthy. Otherwise it is the fallback message. Either way it is truthy. |
| App.HandleApiError | src/App.js:38-46 | A failed login overwrites the error with that message and arms one 5000 ms timer. Nothing else changes, and the anonymous view shows the banner (for a body React can render; see Left out). |
| App.ErrorTimerExpired | src/App.js:43-45 | A timer that fires sets the error to null, whatever message is current, and the banner disappears. |
| App.SubmitSignup | src/App.js:48-64 | Submitting the signup form posts the current email with the username and password. These are exactly the credentials the chained login posts, the same login the login form would send from the same fields. The state is unchanged. |
| App.SubmitLogin | src/App.js:91-98 | Submitting the login form sends exactly what a successful signup with the same username and password continues with: one login request with the current fields, and no state change. |
| App.AuthorizationValue | src/App.js:100-101 | The header value is "Token " followed by exactly the token. |
| App.LoginResolved | src/App.js:99-104 | A successful login installs the token header and sets `currentUser` true and `showSummary` false. It sends exactly one items request and leaves the form fields, items, summary and error untouched. The table of the current items is shown. |
| App.LogoutResolved | src/App.js:113-116 | A successful logout sets `currentUser` false and empties the items. It keeps the header, `showSummary` and `summaryData`. A fresh navbar button reads "Signup" when the dashboard was on screen. The dashboard is no longer shown. |
| App.ItemsResolved | src/App.js:119-127 | An items response replaces the list wholesale, with no check on `currentUser`. |
| App.SummaryResolved | src/App.js:77-80 | A summary response stores the data and shows the summary panel. |
| App.HideSummaryData | src/App.js:86-89 | Back hides the summary. The summary data and the items stay, and the table is shown again. |
| App.Step | src/App.js:32-127 | Only a successful login writes the header, and nothing removes it. Every field has its writers: `currentUser` by login and logout success, the error by a failed login and the timer, the items by items and logout success, the summary data by a summary response, `showSummary` by login success, a summary response and Back, each form field by its own typing event, the toggle by the button, the label by the button and logout success. Rejected items, summary, logout and signup requests change nothing. A login is posted only from the login form or after a signup. Only a failed login arms a timer. The invariant is kept. |
| Traces.Run | src/App.js:57-117 | In any event order, a header once installed stays installed. The header changes only if a successful login occurs in the run. The summary data changes only if a summary response occurs in the run. |
| Traces.RunPreservesInv | src/App.js:22-127 | Every run keeps the state invariant: a logged-in user has a header, and the error is null or truthy. |
| Traces.UserActionsOnlySendRequests | src/App.js:32-117 | User actions alone leave the session, items, summary data and error untouched. They only send requests. |
| Traces.ToggleTwice | src/App.js:32-36 | Two clicks restore the mode and send nothing. They restore the whole state when the label named the other form. |
| Traces.SignupChainMatchesLogin | src/App.js:48-105 | A signup followed by its chained login ends in the same state as a direct login. It sends the signup request first. |
| Traces.ReportThenExpire | src/App.js:38-46 | A failure shows its message. The timer then restores the prior state except that the error becomes null. |
| Traces.SecondReportWins | src/App.js:38-46 | Of two failures only the second message shows, and two timers are armed. |
| Traces.SummaryThenBack | src/App.js:74-89 | Summary, then Back, shows the table over the same items and keeps the summary data. |
| Traces.ItemsReplacedWholesale | src/App.js:119-123 | A second items response replaces the first, with no merge. |
| Traces.CompletionsKeepForm | src/App.js:57-127 | Responses and timers alone never change the form mode or the email, username and password fields. |
| Traces.LogoutRoundTrip | src/App.js:108-117 | Logging out sends one logout request; its success leaves an anonymous screen with an empty list and the header unchanged. |
| EmailInput.ValidEmailHasOneAt | src/App.js:239 | An address the email field accepts is a non-empty local part, one "@", and a domain holding no further "@". |
| EmailInput.ConstraintExamples | src/App.js:239 | The email field blocks the signup submission for "ann", and lets it through when empty or for "ann@brit.co". |
| Session.Deliver | src/App.js:129-263 | A user action is accepted exactly when its control is on screen and, for the signup form, its email field passes the browser's check. A completion is accepted exactly when it settles an outstanding effect. Settling uses up exactly the answered effect, cancels nothing else and adds only what the completion sets in motion, so the outstanding set never grows. The session invariant is kept. |
| Session.ReplayPreservesInv | src/App.js:38-117 | Every session reached keeps the invariant. A truthy error has a timer armed. `currentUser` is undefined exactly until a header is installed. |
| Session.ErrorsAreTransient | src/App.js:43-45 | From the first render, any error shown always has a pending timer that will clear it. |
| Session.ReplayAppend | src/App.js:20-127 | Replaying two input sequences in turn is the same as replaying their concatenation. |
| Session.SignupChainUsesPostedCredentials | src/App.js:48-64 | The signup continuation resumes only with the credentials that were posted, and then posts a login with exactly those. |
| Session.SignupRejectionIsSilent | src/App.js:50-71 | A rejected signup changes no state, not even the error, and arms no timer. |
| Session.HeaderSurvivesLogout | src/App.js:108-117 | After logout `currentUser` is false but the Authorization header is still installed. |
| Session.LateItemsRefillAfterLogout | src/App.js:113-123 | An items request still in flight refills the list after the logout completes. |
| Session.ItemsAnsweredOnce | src/App.js:119-123 | One items request gets one response: the first fills the list, and a second response to the same request is refused. |
| Session.StaleTimerClearsNewerError | src/App.js:43-45 | An older timer clears a newer message while the newer timer is still armed. |
| Session.LabelOutOfStepAfterLogout | src/App.js:216 | Logging out in signup mode shows the signup form under a button reading "Signup". |
| Session.SignupLogoutScenario | src/App.js:32-127 | A concrete run from the first render: sign up, chained login, logout, then a late items response. It ends on the signup form with the label out of step. The late item is in the list and the header is still set. |

## Left out

- Rendering (src/App.js:129-265): the model keeps only the conditions that choose what is shown and which controls exist. The markup, styling and logo are not modelled.
- HTTP transport and axios configuration (src/App.js:12-18): requests are effects, and responses are events. The CSRF cookie and header settings and the base URL are not modelled.
- Timing: the error timer's 5000 ms delay is recorded on the effect but no clock is modelled. Any outstanding timer may fire at any point.
- The JavaScript event loop: React's batching of state updates within one handler is not modelled, since every handler's updates are independent of each other's order. Each event is applied to the state of the latest render.
- `console.error` logging in the failure paths: a side effect with no state.
- `JSON.stringify` formatting of the summary: summary data is an opaque JSON value shown verbatim.
- Item contents: ids, names and prices are carried but never inspected.
- JavaScript numbers: NaN and -0 are not represented, so `Truthy` treats only 0 as a falsy number.
- Unhandled promise rejections of the signup and logout requests: these have no `catch` and affect nothing but the console, so the model treats them as no-ops.
- Token shape: the token is a string. A missing `token` field, which JavaScript would render as "Token undefined", is not modelled.
- App.HandleApiError: the banner clause assumes the error is something React can render. A response body that is an object (or an array holding one) makes the `{error}` child at src/App.js:221 throw during render, and with no error boundary React unmounts the whole component. The model has no unmounted state, so it keeps showing the form with that value as the banner and keeps accepting events.
- App.ScreenOf: for the same reason, it reports a login or signup form with an object-valued banner where the real render fails.
- Session.Deliver: the browser's sanitisation of the email value (trimming whitespace, dropping line breaks) is not modelled; the check applies to the value held in state. Native validation of the other fields is not involved, since none is `required`.
