/** Sequences of events applied to the component one after another, in any
    order the browser may deliver them, and what such runs promise. */
module Traces {
  import opened Js
  import opened App

  /** The events applied in order; the effects in the order they were set in motion. */
  function Run(s: State, es: seq<Event>): (o: Outcome)
    ensures |o.effects| <= |es|
    ensures s.authorization.Some? ==> o.state.authorization.Some?
    ensures (o.state.authorization != s.authorization)
              ==> exists k :: 0 <= k < |es| && es[k].LoginSucceeded?
    ensures (o.state.summaryData != s.summaryData)
              ==> exists k :: 0 <= k < |es| && es[k].SummaryReceived?
    decreases |es|
  {
    if es == [] then Outcome(s, [])
    else
      var first := Step(s, es[0]);
      var rest := Run(first.state, es[1..]);
      assert forall k :: 0 <= k < |es| - 1 ==> es[1..][k] == es[k + 1];
      Outcome(rest.state, first.effects + rest.effects)
  }

  lemma {:induction false} RunPreservesInv(s: State, es: seq<Event>)
    requires Inv(s)
    ensures Inv(Run(s, es).state)
    decreases |es|
  {
    if es != [] {
      RunPreservesInv(Step(s, es[0]).state, es[1..]);
    }
  }

  /** User actions alone never touch the session, the items, the summary data
      or the error, and they arm no timer: they only send requests. */
  lemma {:induction false} UserActionsOnlySendRequests(s: State, es: seq<Event>)
    requires forall k :: 0 <= k < |es| ==> IsUserAction(es[k])
    ensures var t := Run(s, es).state;
      && t.currentUser == s.currentUser && t.authorization == s.authorization
      && t.items == s.items && t.summaryData == s.summaryData && t.error == s.error
    ensures forall k :: 0 <= k < |Run(s, es).effects| ==> Run(s, es).effects[k].Send?
    decreases |es|
  {
    if es != [] {
      var first := Step(s, es[0]);
      assert forall k :: 0 <= k < |es| - 1 ==> es[1..][k] == es[k + 1];
      UserActionsOnlySendRequests(first.state, es[1..]);
    }
  }

  /** Unfolding `Run` over one, two and three events. */
  lemma RunOne(s: State, a: Event)
    ensures Run(s, [a]) == Step(s, a)
  {
    assert [a][1..] == [];
  }

  lemma RunTwo(s: State, a: Event, b: Event)
    ensures var t := Step(s, a);
      Run(s, [a, b]) == Outcome(Step(t.state, b).state, t.effects + Step(t.state, b).effects)
  {
    assert [a, b][1..] == [b];
    RunOne(Step(s, a).state, b);
  }

  lemma RunThree(s: State, a: Event, b: Event, c: Event)
    ensures var t := Step(s, a);
      Run(s, [a, b, c]) == Outcome(Run(t.state, [b, c]).state, t.effects + Run(t.state, [b, c]).effects)
  {
    assert [a, b, c][1..] == [b, c];
  }

  // Single steps the scenarios below are built from, stated apart from `Run`.

  lemma LoginSteps(s: State, token: string)
    ensures Step(s, LoginSubmitted) == Outcome(s, [Send(PostLogin(s.username, s.password))])
    ensures Step(s, SignupSucceeded(s.username, s.password)) == Step(s, LoginSubmitted)
    ensures Step(s, SignupSubmitted) == Outcome(s, [Send(PostSignup(s.email, s.username, s.password))])
    ensures Step(s, LoginSucceeded(token)).effects == [Send(GetItems)]
  {
  }

  lemma ItemsSteps(s: State, first: seq<Item>, second: seq<Item>)
    ensures Step(Step(s, ItemsReceived(first)).state, ItemsReceived(second)).state == s.(items := second)
  {
  }

  /** Completions alone (responses and timers) never touch the credential
      form: its mode, its three fields. */
  lemma {:induction false} CompletionsKeepForm(s: State, es: seq<Event>)
    requires forall k :: 0 <= k < |es| ==> !IsUserAction(es[k])
    ensures var t := Run(s, es).state;
      && t.signupToggle == s.signupToggle
      && t.email == s.email && t.username == s.username && t.password == s.password
    decreases |es|
  {
    if es != [] {
      assert forall k :: 0 <= k < |es| - 1 ==> es[1..][k] == es[k + 1];
      CompletionsKeepForm(Step(s, es[0]).state, es[1..]);
    }
  }

  lemma LogoutSteps(s: State)
    ensures Step(s, LogoutSubmitted) == Outcome(s, [Send(PostLogout)])
    ensures Step(s, LogoutSucceeded) == LogoutResolved(s)
  {
  }

  /** Logging out and seeing it succeed: one logout request, an anonymous
      screen with an empty list, and the header still installed. */
  lemma LogoutRoundTrip(s: State)
    ensures var o := Run(s, [LogoutSubmitted, LogoutSucceeded]);
      && o.effects == [Send(PostLogout)]
      && o.state.currentUser == JsBool(false) && o.state.items == []
      && o.state.authorization == s.authorization
      && !IsDashboard(ScreenOf(o.state))
  {
    LogoutSteps(s);
    RunTwo(s, LogoutSubmitted, LogoutSucceeded);
  }

  /** Clicking the navbar button twice restores the form mode; the label is
      restored too whenever it named the other form to begin with. */
  lemma ToggleTwice(s: State)
    ensures Run(s, [FormBtnClicked, FormBtnClicked]).state.signupToggle == s.signupToggle
    ensures Run(s, [FormBtnClicked, FormBtnClicked]).effects == []
    ensures LabelMatchesMode(s) ==> Run(s, [FormBtnClicked, FormBtnClicked]).state == s
  {
    RunTwo(s, FormBtnClicked, FormBtnClicked);
  }

  /** A signup whose chained login succeeds ends in the same state as a direct
      login with the same credentials; it sends the signup request first. */
  lemma SignupChainMatchesLogin(s: State, token: string)
    ensures var viaSignup := Run(s, [SignupSubmitted, SignupSucceeded(s.username, s.password), LoginSucceeded(token)]);
            var direct := Run(s, [LoginSubmitted, LoginSucceeded(token)]);
      && viaSignup.state == direct.state
      && direct.effects == [Send(PostLogin(s.username, s.password)), Send(GetItems)]
      && viaSignup.effects == [Send(PostSignup(s.email, s.username, s.password))] + direct.effects
  {
    LoginSteps(s, token);
    RunTwo(s, LoginSubmitted, LoginSucceeded(token));
    RunTwo(s, SignupSucceeded(s.username, s.password), LoginSucceeded(token));
    RunThree(s, SignupSubmitted, SignupSucceeded(s.username, s.password), LoginSucceeded(token));
  }

  /** A failed login shows its message until a timer fires, which restores the
      state as it was before the failure except that the error is null. */
  lemma ReportThenExpire(s: State, f: Failure)
    ensures Run(s, [LoginRejected(f)]).state.error == ErrorMessage(f)
    ensures Run(s, [LoginRejected(f), ErrorTimerFired]).state == s.(error := JsNull)
    ensures Run(s, [LoginRejected(f), ErrorTimerFired]).effects == [ArmErrorTimer(ErrorBannerMillis)]
  {
    RunOne(s, LoginRejected(f));
    RunTwo(s, LoginRejected(f), ErrorTimerFired);
    var t := Step(s, LoginRejected(f));
    assert t == HandleApiError(s, f);
    assert Step(t.state, ErrorTimerFired) == Outcome(t.state.(error := JsNull), []);
  }

  /** Two failures in a row: only the second message is shown, and two timers are armed. */
  lemma SecondReportWins(s: State, f1: Failure, f2: Failure)
    ensures Run(s, [LoginRejected(f1), LoginRejected(f2)]).state.error == ErrorMessage(f2)
    ensures Run(s, [LoginRejected(f1), LoginRejected(f2)]).effects
              == [ArmErrorTimer(ErrorBannerMillis), ArmErrorTimer(ErrorBannerMillis)]
  {
    RunTwo(s, LoginRejected(f1), LoginRejected(f2));
  }

  /** Summary, then Back: the table is shown again over the same items, and the
      summary data is kept. */
  lemma SummaryThenBack(s: State, data: JsValue)
    ensures var o := Run(s, [SummarySubmitted, SummaryReceived(data), BackSubmitted]);
      && o.state == s.(summaryData := data, showSummary := false)
      && o.effects == [Send(GetSummary)]
      && (Truthy(s.currentUser) ==> ScreenOf(o.state) == ItemsTable(s.items))
  {
    RunThree(s, SummarySubmitted, SummaryReceived(data), BackSubmitted);
    RunTwo(s, SummaryReceived(data), BackSubmitted);
  }

  /** Two item responses: the second list replaces the first, nothing is merged. */
  lemma ItemsReplacedWholesale(s: State, first: seq<Item>, second: seq<Item>)
    ensures Run(s, [ItemsReceived(first), ItemsReceived(second)]).state == s.(items := second)
  {
    ItemsSteps(s, first, second);
    RunTwo(s, ItemsReceived(first), ItemsReceived(second));
  }
}
