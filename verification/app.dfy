/** The view-state machine of the single page component in src/App.js: its
    state record, one handler per user action or asynchronous completion, and
    the conditions that choose what is on screen. */
module App {
  import opened Wrappers
  import opened Js
  import opened EmailInput

  /** One row of the item table. The component never inspects the fields. */
  datatype Item = Item(id: string, name: string, price: real)

  /** The requests the component sends through its shared HTTP client. */
  datatype Request =
    | PostSignup(email: string, username: string, password: string)
    | PostLogin(username: string, password: string)
    | PostLogout
    | GetItems
    | GetSummary

  /** What a handler sets in motion besides its state change: a request, or the
      timer that clears the error banner after `millis` milliseconds. */
  datatype Effect = Send(request: Request) | ArmErrorTimer(millis: nat)

  /** A rejected request: either no response arrived, or one arrived with a body. */
  datatype Failure = NoResponse | Response(data: JsValue)

  /** User actions (the first nine) and asynchronous completions. A completion
      carries what the continuation it resumes needs: the signup continuation
      captured the username and password that were submitted. */
  datatype Event =
    | FormBtnClicked
    | EmailTyped(value: string)
    | UsernameTyped(value: string)
    | PasswordTyped(value: string)
    | SignupSubmitted
    | LoginSubmitted
    | LogoutSubmitted
    | SummarySubmitted
    | BackSubmitted
    | SignupSucceeded(username: string, password: string)
    | SignupRejected
    | LoginSucceeded(token: string)
    | LoginRejected(failure: Failure)
    | LogoutSucceeded
    | LogoutRejected
    | ItemsReceived(items: seq<Item>)
    | ItemsRejected
    | SummaryReceived(data: JsValue)
    | SummaryRejected
    | ErrorTimerFired

  predicate IsUserAction(e: Event) {
    || e.FormBtnClicked? || e.EmailTyped? || e.UsernameTyped? || e.PasswordTyped?
    || e.SignupSubmitted? || e.LoginSubmitted? || e.LogoutSubmitted?
    || e.SummarySubmitted? || e.BackSubmitted?
  }

  /** The component's state hooks, the Authorization header installed on the
      shared client, and the text of the `form_btn` button. */
  datatype State = State(
    currentUser: JsValue,
    signupToggle: bool,
    email: string,
    username: string,
    password: string,
    items: seq<Item>,
    showSummary: bool,
    summaryData: JsValue,
    error: JsValue,
    authorization: Option<string>,
    formBtnLabel: string)

  datatype Outcome = Outcome(state: State, effects: seq<Effect>)

  const SignupLabel := "Signup"
  const LoginLabel := "Login"
  const FallbackMessage := "An error occurred. Please try again later."
  const TokenPrefix := "Token "
  const ErrorBannerMillis: nat := 5000

  /** The first render: `currentUser` is undefined, the login form is shown and
      the navbar button reads "Signup". */
  const Init := State(JsUndefined, false, "", "", "", [], false, JsNull, JsNull, None, SignupLabel)

  /** What the component renders: the item table or the summary panel for a
      truthy `currentUser`, otherwise the login or signup form with the error
      banner above it when the error is truthy. */
  datatype Screen =
    | ItemsTable(rows: seq<Item>)
    | SummaryPanel(dump: Option<JsValue>)
    | LoginForm(banner: Option<JsValue>)
    | SignupForm(banner: Option<JsValue>)

  predicate IsDashboard(v: Screen) {
    v.ItemsTable? || v.SummaryPanel?
  }

  function Shown(v: JsValue): (r: Option<JsValue>)
    ensures r.Some? <==> Truthy(v)
    ensures r.Some? ==> r.value == v
  {
    if Truthy(v) then Some(v) else None
  }

  function ScreenOf(s: State): (v: Screen)
    ensures IsDashboard(v) <==> Truthy(s.currentUser)
    ensures v.SummaryPanel? <==> Truthy(s.currentUser) && s.showSummary
    ensures v.SignupForm? <==> !Truthy(s.currentUser) && s.signupToggle
    ensures v.ItemsTable? ==> v.rows == s.items
    ensures (v.LoginForm? || v.SignupForm?) ==> v.banner == Shown(s.error)
    ensures v.SummaryPanel? ==> v.dump == Shown(s.summaryData)
  {
    if Truthy(s.currentUser) then
      if s.showSummary then SummaryPanel(Shown(s.summaryData)) else ItemsTable(s.items)
    else if s.signupToggle then SignupForm(Shown(s.error))
    else LoginForm(Shown(s.error))
  }

  /** A user action can only happen while the control it comes from is on
      screen: the navbar button and the credential fields on the anonymous
      view, the email field on the signup form only, the logout button on the
      dashboard, "Summary" under the table and "Back" under the summary. The
      browser submits the signup form only while its `type="email"` field is
      empty or holds a valid address. */
  predicate Enabled(s: State, e: Event)
    requires IsUserAction(e)
  {
    var v := ScreenOf(s);
    match e
    case FormBtnClicked => v.LoginForm? || v.SignupForm?
    case EmailTyped(_) => v.SignupForm?
    case UsernameTyped(_) => v.LoginForm? || v.SignupForm?
    case PasswordTyped(_) => v.LoginForm? || v.SignupForm?
    case SignupSubmitted => v.SignupForm? && SatisfiesEmailConstraint(s.email)
    case LoginSubmitted => v.LoginForm?
    case LogoutSubmitted => IsDashboard(v)
    case SummarySubmitted => v.ItemsTable?
    case BackSubmitted => v.SummaryPanel?
  }

  predicate IsAuthorizationValue(h: string) {
    |TokenPrefix| <= |h| && h[..|TokenPrefix|] == TokenPrefix
  }

  /** The navbar button names the form that is NOT on screen: "Login" while
      the signup form is shown, "Signup" while the login form is. */
  predicate LabelMatchesMode(s: State) {
    s.formBtnLabel == (if s.signupToggle then LoginLabel else SignupLabel)
  }

  /** What every event keeps, in whatever order events arrive: `currentUser` is
      undefined or a boolean; a logged-in user always has an Authorization
      header, and once a header is installed `currentUser` is never undefined;
      the error is null or truthy; the navbar button reads "Signup" or "Login". */
  predicate Inv(s: State) {
    && (s.currentUser == JsUndefined || s.currentUser.JsBool?)
    && (Truthy(s.currentUser) ==> s.authorization.Some?)
    && (s.authorization.Some? ==> s.currentUser != JsUndefined)
    && (s.authorization.Some? ==> IsAuthorizationValue(s.authorization.value))
    && (s.error == JsNull || Truthy(s.error))
    && (s.formBtnLabel == SignupLabel || s.formBtnLabel == LoginLabel)
  }

  lemma InitInv()
    ensures Inv(Init) && LabelMatchesMode(Init)
    ensures ScreenOf(Init) == LoginForm(None)
  {
  }

  /** `updateFormBtn`: the label is computed from the mode BEFORE the flip. */
  function UpdateFormBtn(s: State): (o: Outcome)
    ensures o.state.signupToggle == !s.signupToggle
    ensures o.state.formBtnLabel == (if s.signupToggle then SignupLabel else LoginLabel)
    ensures o.state == s.(signupToggle := o.state.signupToggle, formBtnLabel := o.state.formBtnLabel)
    ensures o.effects == []
    ensures LabelMatchesMode(s) ==> LabelMatchesMode(o.state)
  {
    var btnText := if s.signupToggle then SignupLabel else LoginLabel;
    Outcome(s.(formBtnLabel := btnText, signupToggle := !s.signupToggle), [])
  }

  /** The banner text `handleApiError` picks: the response body when a response
      arrived and its body is truthy, the fallback message otherwise. */
  function ErrorMessage(f: Failure): (m: JsValue)
    ensures Truthy(m)
    ensures f.Response? && Truthy(f.data) ==> m == f.data
    ensures !(f.Response? && Truthy(f.data)) ==> m == JsString(FallbackMessage)
  {
    var responseData := if f.Response? then f.data else JsUndefined;
    Or(responseData, JsString(FallbackMessage))
  }

  /** `handleApiError`: overwrite whatever error is shown and arm a fresh timer;
      earlier timers are not cancelled. */
  function HandleApiError(s: State, f: Failure): (o: Outcome)
    ensures Truthy(o.state.error) && o.state.error == ErrorMessage(f)
    ensures o.state == s.(error := o.state.error)
    ensures o.effects == [ArmErrorTimer(ErrorBannerMillis)]
    ensures !Truthy(s.currentUser) ==> ScreenOf(o.state).banner == Some(ErrorMessage(f))
  {
    Outcome(s.(error := ErrorMessage(f)), [ArmErrorTimer(ErrorBannerMillis)])
  }

  /** A fired error timer sets the error to null, whichever report armed it. */
  function ErrorTimerExpired(s: State): (o: Outcome)
    ensures !Truthy(o.state.error) && o.state.error == JsNull
    ensures o.state == s.(error := o.state.error)
    ensures o.effects == []
    ensures !Truthy(s.currentUser) ==> ScreenOf(o.state).banner == None
  {
    Outcome(s.(error := JsNull), [])
  }

  /** The `then` of the signup request: chain into a login with the username
      and password that were submitted, with no state change of its own. */
  function SignupResolved(s: State, username: string, password: string): (o: Outcome)
    ensures o.state == s
    ensures o.effects == [Send(PostLogin(username, password))]
  {
    Outcome(s, [Send(PostLogin(username, password))])
  }

  /** `submitLogin`: post the username and password as they are at submit
      time; exactly what a successful signup with the same fields continues with. */
  function SubmitLogin(s: State): (o: Outcome)
    ensures o == SignupResolved(s, s.username, s.password)
    ensures o.effects == [Send(PostLogin(s.username, s.password))]
  {
    Outcome(s, [Send(PostLogin(s.username, s.password))])
  }

  function AuthorizationValue(token: string): (h: string)
    ensures IsAuthorizationValue(h)
    ensures h[|TokenPrefix|..] == token
  {
    TokenPrefix + token
  }

  /** The `then` of a login request, shared by `submitLogin` and the signup
      chain: install the token on the shared client, switch to the dashboard,
      fetch the items and return to the table. */
  function LoginResolved(s: State, token: string): (o: Outcome)
    ensures o.state.authorization == Some(AuthorizationValue(token))
    ensures o.state.currentUser == JsBool(true) && !o.state.showSummary
    ensures o.effects == [Send(GetItems)]
    ensures o.state == s.(authorization := o.state.authorization, currentUser := o.state.currentUser,
                          showSummary := o.state.showSummary)
    ensures ScreenOf(o.state) == ItemsTable(s.items)
  {
    Outcome(s.(authorization := Some(TokenPrefix + token), currentUser := JsBool(true), showSummary := false),
            [Send(GetItems)])
  }

  /** `submitSignup`: post the fields as they are at submit time. The signup
      carries the email and the very credentials that its chained login will
      post, which are those the login form would post from the same fields. */
  function SubmitSignup(s: State): (o: Outcome)
    ensures o.state == s
    ensures |o.effects| == 1 && o.effects[0].Send? && o.effects[0].request.PostSignup?
    ensures o.effects[0].request.email == s.email
    ensures SignupResolved(s, o.effects[0].request.username, o.effects[0].request.password) == SubmitLogin(s)
  {
    Outcome(s, [Send(PostSignup(s.email, s.username, s.password))])
  }

  /** `submitLogout`: post to the logout endpoint. */
  function SubmitLogout(s: State): (o: Outcome)
    ensures o.state == s
    ensures o.effects == [Send(PostLogout)]
  {
    Outcome(s, [Send(PostLogout)])
  }

  /** The `then` of the logout request: anonymous again with an empty table.
      The Authorization header, `showSummary` and `summaryData` are kept. When
      the dashboard was on screen, the anonymous view is mounted afresh and its
      navbar button reads "Signup" again, whatever the form mode. */
  function LogoutResolved(s: State): (o: Outcome)
    ensures o.state.currentUser == JsBool(false) && o.state.items == []
    ensures o.state.authorization == s.authorization
    ensures o.state.showSummary == s.showSummary && o.state.summaryData == s.summaryData
    ensures Truthy(s.currentUser) ==> o.state.formBtnLabel == SignupLabel
    ensures !Truthy(s.currentUser) ==> o.state.formBtnLabel == s.formBtnLabel
    ensures o.state == s.(currentUser := o.state.currentUser, items := o.state.items,
                          formBtnLabel := o.state.formBtnLabel)
    ensures o.effects == []
    ensures !IsDashboard(ScreenOf(o.state))
  {
    var btnText := if Truthy(s.currentUser) then SignupLabel else s.formBtnLabel;
    Outcome(s.(currentUser := JsBool(false), items := [], formBtnLabel := btnText), [])
  }

  /** The `then` of `fetchItems`: replace the list wholesale, whoever is logged in. */
  function ItemsResolved(s: State, items: seq<Item>): (o: Outcome)
    ensures o.state.items == items
    ensures o.state == s.(items := o.state.items)
    ensures o.effects == []
    ensures ScreenOf(s).ItemsTable? ==> ScreenOf(o.state) == ItemsTable(items)
  {
    Outcome(s.(items := items), [])
  }

  /** `fetchSummaryData`: request the summary. */
  function FetchSummaryData(s: State): (o: Outcome)
    ensures o.state == s
    ensures o.effects == [Send(GetSummary)]
  {
    Outcome(s, [Send(GetSummary)])
  }

  /** The `then` of the summary request: keep the data and switch to the panel. */
  function SummaryResolved(s: State, data: JsValue): (o: Outcome)
    ensures o.state.summaryData == data && o.state.showSummary
    ensures o.state == s.(summaryData := o.state.summaryData, showSummary := o.state.showSummary)
    ensures o.effects == []
    ensures Truthy(s.currentUser) ==> ScreenOf(o.state) == SummaryPanel(Shown(data))
  {
    Outcome(s.(summaryData := data, showSummary := true), [])
  }

  /** `hideSummaryData`: back to the table; the summary data and the items stay. */
  function HideSummaryData(s: State): (o: Outcome)
    ensures !o.state.showSummary
    ensures o.state == s.(showSummary := o.state.showSummary)
    ensures o.effects == []
    ensures Truthy(s.currentUser) ==> ScreenOf(o.state) == ItemsTable(s.items)
  {
    Outcome(s.(showSummary := false), [])
  }

  /** One event applied to one state. Failures of the items, summary and logout
      requests are only logged, and a signup rejection has no handler at all, so
      those events change nothing and set nothing in motion. */
  function Step(s: State, e: Event): (o: Outcome)
    // the Authorization header is written by a successful login only, and never removed
    ensures o.state.authorization != s.authorization ==> e.LoginSucceeded?
    ensures s.authorization.Some? ==> o.state.authorization.Some?
    // who writes which part of the state
    ensures o.state.currentUser != s.currentUser ==> e.LoginSucceeded? || e.LogoutSucceeded?
    ensures o.state.error != s.error ==> e.LoginRejected? || e.ErrorTimerFired?
    ensures o.state.items != s.items ==> e.ItemsReceived? || e.LogoutSucceeded?
    ensures o.state.summaryData != s.summaryData ==> e.SummaryReceived?
    ensures o.state.signupToggle != s.signupToggle ==> e.FormBtnClicked?
    ensures o.state.showSummary != s.showSummary ==> e.LoginSucceeded? || e.SummaryReceived? || e.BackSubmitted?
    ensures o.state.email != s.email ==> e.EmailTyped?
    ensures o.state.username != s.username ==> e.UsernameTyped?
    ensures o.state.password != s.password ==> e.PasswordTyped?
    ensures o.state.formBtnLabel != s.formBtnLabel ==> e.FormBtnClicked? || e.LogoutSucceeded?
    // rejected fetches, logouts and signups leave no trace
    ensures (e.SignupRejected? || e.LogoutRejected? || e.ItemsRejected? || e.SummaryRejected?)
              ==> o == Outcome(s, [])
    // at most one effect; logins are posted from the login form or after a signup only
    ensures |o.effects| <= 1
    ensures forall k :: 0 <= k < |o.effects| && o.effects[k].Send? && o.effects[k].request.PostLogin?
              ==> e.LoginSubmitted? || e.SignupSucceeded?
    ensures forall k :: 0 <= k < |o.effects| && o.effects[k].ArmErrorTimer?
              ==> e.LoginRejected? && o.effects[k].millis == ErrorBannerMillis
    ensures Inv(s) ==> Inv(o.state)
    ensures (LabelMatchesMode(s) && !(e.LogoutSucceeded? && Truthy(s.currentUser) && s.signupToggle))
              ==> LabelMatchesMode(o.state)
  {
    match e
    case FormBtnClicked => UpdateFormBtn(s)
    case EmailTyped(v) => Outcome(s.(email := v), [])
    case UsernameTyped(v) => Outcome(s.(username := v), [])
    case PasswordTyped(v) => Outcome(s.(password := v), [])
    case SignupSubmitted => SubmitSignup(s)
    case LoginSubmitted => SubmitLogin(s)
    case LogoutSubmitted => SubmitLogout(s)
    case SummarySubmitted => FetchSummaryData(s)
    case BackSubmitted => HideSummaryData(s)
    case SignupSucceeded(u, p) => SignupResolved(s, u, p)
    case SignupRejected => Outcome(s, [])
    case LoginSucceeded(t) => LoginResolved(s, t)
    case LoginRejected(f) => HandleApiError(s, f)
    case LogoutSucceeded => LogoutResolved(s)
    case LogoutRejected => Outcome(s, [])
    case ItemsReceived(items) => ItemsResolved(s, items)
    case ItemsRejected => Outcome(s, [])
    case SummaryReceived(d) => SummaryResolved(s, d)
    case SummaryRejected => Outcome(s, [])
    case ErrorTimerFired => ErrorTimerExpired(s)
  }
}
