/** The component together with what it has set in motion and not yet seen
    settle: requests in flight and armed error timers. User actions arrive only
    from controls that are on screen; a completion arrives only for something
    outstanding, in any order. Nothing can be cancelled. */
module Session {
  import opened Wrappers
  import opened Js
  import opened App

  /** One live session: what the component shows, and the effects not yet settled. */
  datatype SessionState = SessionState(ui: State, outstanding: multiset<Effect>)

  const Start := SessionState(Init, multiset{})

  /** A user action, or the settling of one outstanding effect with a completion. */
  datatype Input = Act(event: Event) | Settle(pending: Effect, event: Event)

  /** Which completions settle which effect. A signup continuation resumes with
      the username and password its request carried. */
  predicate Answers(e: Event, p: Effect) {
    match e
    case SignupSucceeded(u, pw) => p.Send? && p.request.PostSignup? && p.request.username == u && p.request.password == pw
    case SignupRejected => p.Send? && p.request.PostSignup?
    case LoginSucceeded(_) => p.Send? && p.request.PostLogin?
    case LoginRejected(_) => p.Send? && p.request.PostLogin?
    case LogoutSucceeded => p == Send(PostLogout)
    case LogoutRejected => p == Send(PostLogout)
    case ItemsReceived(_) => p == Send(GetItems)
    case ItemsRejected => p == Send(GetItems)
    case SummaryReceived(_) => p == Send(GetSummary)
    case SummaryRejected => p == Send(GetSummary)
    case ErrorTimerFired => p.ArmErrorTimer?
    case _ => false
  }

  /** What the sessions reached from `Start` satisfy, on top of `Inv`: a truthy
      error always has a timer armed that will clear it; `currentUser` is
      undefined exactly until a header is installed; a logout is only in flight
      with a header installed. */
  predicate SessionInv(sess: SessionState) {
    && Inv(sess.ui)
    && (Truthy(sess.ui.error) ==> ArmErrorTimer(ErrorBannerMillis) in sess.outstanding)
    && (sess.ui.currentUser == JsUndefined <==> sess.ui.authorization.None?)
    && (Send(PostLogout) in sess.outstanding ==> sess.ui.authorization.Some?)
  }

  function Deliver(sess: SessionState, i: Input): (r: Option<SessionState>)
    ensures i.Act? ==> (r.Some? <==> IsUserAction(i.event) && Enabled(sess.ui, i.event))
    ensures i.Settle? ==> (r.Some? <==> i.pending in sess.outstanding && Answers(i.event, i.pending))
    ensures r.Some? ==> r.value.ui == Step(sess.ui, i.event).state
    ensures r.Some? && i.Act? ==> r.value.outstanding == sess.outstanding + multiset(Step(sess.ui, i.event).effects)
    // settling never grows what is outstanding, so nothing accumulates without user actions
    ensures r.Some? && i.Settle? ==> |r.value.outstanding| <= |sess.outstanding|
    // the answered effect is used up once and nothing else outstanding is cancelled
    ensures r.Some? && i.Settle? ==>
      r.value.outstanding + multiset{i.pending} == sess.outstanding + multiset(Step(sess.ui, i.event).effects)
    ensures r.Some? && SessionInv(sess) ==> SessionInv(r.value)
  {
    match i
    case Act(e) =>
      if IsUserAction(e) && Enabled(sess.ui, e) then
        ActKeepsInv(sess, e);
        var o := Step(sess.ui, e);
        Some(SessionState(o.state, sess.outstanding + multiset(o.effects)))
      else None
    case Settle(p, e) =>
      if p in sess.outstanding && Answers(e, p) then
        SettleKeepsInv(sess, p, e);
        var o := Step(sess.ui, e);
        Some(SessionState(o.state, sess.outstanding - multiset{p} + multiset(o.effects)))
      else None
  }

  /** A user action keeps the session invariant; a logout can only be posted
      from the dashboard, where a header is installed. */
  lemma ActKeepsInv(sess: SessionState, e: Event)
    requires IsUserAction(e) && Enabled(sess.ui, e)
    ensures var o := Step(sess.ui, e);
      SessionInv(sess) ==> SessionInv(SessionState(o.state, sess.outstanding + multiset(o.effects)))
  {
    if e.LogoutSubmitted? {
      assert IsDashboard(ScreenOf(sess.ui));
    }
  }

  /** Settling an effect keeps the session invariant; only a fired timer
      removes a timer, and it clears the error as it goes. */
  lemma SettleKeepsInv(sess: SessionState, p: Effect, e: Event)
    requires p in sess.outstanding && Answers(e, p)
    ensures var o := Step(sess.ui, e);
      SessionInv(sess) ==> SessionInv(SessionState(o.state, sess.outstanding - multiset{p} + multiset(o.effects)))
  {
  }

  /** The inputs delivered in order; `None` as soon as one cannot happen. */
  function Replay(sess: SessionState, inputs: seq<Input>): (r: Option<SessionState>)
    ensures (r.Some? && (forall k :: 0 <= k < |inputs| ==> inputs[k].Settle?))
              ==> |r.value.outstanding| <= |sess.outstanding|
    decreases |inputs|
  {
    if inputs == [] then Some(sess)
    else
      match Deliver(sess, inputs[0])
      case None => None
      case Some(next) =>
        assert forall k :: 0 <= k < |inputs| - 1 ==> inputs[1..][k] == inputs[k + 1];
        Replay(next, inputs[1..])
  }

  /** Unfolding `Replay` over one and two inputs. */
  lemma ReplayOne(sess: SessionState, a: Input)
    ensures Replay(sess, [a]) == Deliver(sess, a)
  {
    assert [a][1..] == [];
  }

  lemma ReplayTwo(sess: SessionState, a: Input, b: Input)
    ensures Replay(sess, [a, b]) == if Deliver(sess, a).None? then None else Deliver(Deliver(sess, a).value, b)
  {
    assert [a, b][1..] == [b];
    if Deliver(sess, a).Some? {
      ReplayOne(Deliver(sess, a).value, b);
    }
  }

  lemma ReplayUnfold(sess: SessionState, inputs: seq<Input>)
    requires inputs != []
    ensures Replay(sess, inputs) == if Deliver(sess, inputs[0]).None? then None else Replay(Deliver(sess, inputs[0]).value, inputs[1..])
  {
  }

  lemma StartInv()
    ensures SessionInv(Start)
  {
  }

  lemma {:induction false} ReplayPreservesInv(sess: SessionState, inputs: seq<Input>)
    requires SessionInv(sess)
    ensures Replay(sess, inputs).Some? ==> SessionInv(Replay(sess, inputs).value)
    decreases |inputs|
  {
    if inputs != [] {
      var next := Deliver(sess, inputs[0]);
      if next.Some? {
        ReplayPreservesInv(next.value, inputs[1..]);
      }
    }
  }

  /** Every session reached from `Start` shows an error only while a timer that
      clears it is armed. */
  lemma ErrorsAreTransient(inputs: seq<Input>)
    ensures Replay(Start, inputs).Some? ==>
      var sess := Replay(Start, inputs).value;
      Truthy(sess.ui.error) ==> ArmErrorTimer(ErrorBannerMillis) in sess.outstanding
  {
    StartInv();
    ReplayPreservesInv(Start, inputs);
  }

  /** The signup continuation can only resume with the credentials that were
      posted, and it then posts a login with exactly those. */
  lemma SignupChainUsesPostedCredentials(sess: SessionState, email: string, u: string, pw: string, u': string, pw': string)
    requires Send(PostSignup(email, u, pw)) in sess.outstanding
    ensures var r := Deliver(sess, Settle(Send(PostSignup(email, u, pw)), SignupSucceeded(u', pw')));
      && (r.Some? <==> u' == u && pw' == pw)
      && (r.Some? ==> r.value.ui == sess.ui && Send(PostLogin(u, pw)) in r.value.outstanding)
  {
  }

  /** A rejected signup changes nothing and arms no timer: the banner never hears of it. */
  lemma SignupRejectionIsSilent(sess: SessionState, p: Effect)
    requires p in sess.outstanding && p.Send? && p.request.PostSignup?
    ensures Deliver(sess, Settle(p, SignupRejected)) == Some(SessionState(sess.ui, sess.outstanding - multiset{p}))
  {
    assert Step(sess.ui, SignupRejected) == Outcome(sess.ui, []);
    assert multiset(Step(sess.ui, SignupRejected).effects) == multiset{};
    assert sess.outstanding - multiset{p} + multiset{} == sess.outstanding - multiset{p};
  }

  /** Logging out keeps the Authorization header that the last login installed. */
  lemma HeaderSurvivesLogout(sess: SessionState)
    requires SessionInv(sess)
    requires Send(PostLogout) in sess.outstanding
    ensures var r := Deliver(sess, Settle(Send(PostLogout), LogoutSucceeded));
      && r.Some?
      && r.value.ui.currentUser == JsBool(false)
      && r.value.ui.authorization == sess.ui.authorization
      && r.value.ui.authorization.Some?
  {
  }

  /** An items request still in flight when the logout completes refills the
      list afterwards: nothing checks that the user is still logged in. */
  lemma LateItemsRefillAfterLogout(sess: SessionState, items: seq<Item>)
    requires Send(PostLogout) in sess.outstanding && Send(GetItems) in sess.outstanding
    ensures var r := Replay(sess, [Settle(Send(PostLogout), LogoutSucceeded),
                                   Settle(Send(GetItems), ItemsReceived(items))]);
      && r.Some?
      && r.value.ui.currentUser == JsBool(false)
      && r.value.ui.items == items
  {
    var afterLogout := Deliver(sess, Settle(Send(PostLogout), LogoutSucceeded));
    assert Send(GetItems) in afterLogout.value.outstanding;
    ReplayTwo(sess, Settle(Send(PostLogout), LogoutSucceeded), Settle(Send(GetItems), ItemsReceived(items)));
  }

  /** A response settles its request for good: with one items request in
      flight, a second response to it is refused. */
  lemma ItemsAnsweredOnce(sess: SessionState, items: seq<Item>, items': seq<Item>)
    requires sess.outstanding[Send(GetItems)] == 1
    ensures var first := Deliver(sess, Settle(Send(GetItems), ItemsReceived(items)));
      && first.Some?
      && first.value.ui.items == items
      && Deliver(first.value, Settle(Send(GetItems), ItemsReceived(items'))).None?
  {
    var first := Deliver(sess, Settle(Send(GetItems), ItemsReceived(items)));
    assert Step(sess.ui, ItemsReceived(items)).effects == [];
    assert first.value.outstanding[Send(GetItems)] == 0;
  }

  /** A timer armed by an earlier failure clears the message of a later one,
      while the later failure's own timer is still armed. */
  lemma StaleTimerClearsNewerError(sess: SessionState, u: string, pw: string, f: Failure)
    requires ArmErrorTimer(ErrorBannerMillis) in sess.outstanding
    requires Send(PostLogin(u, pw)) in sess.outstanding
    ensures var failed := Deliver(sess, Settle(Send(PostLogin(u, pw)), LoginRejected(f)));
      && failed.Some?
      && failed.value.ui.error == ErrorMessage(f)
      && var fired := Deliver(failed.value, Settle(ArmErrorTimer(ErrorBannerMillis), ErrorTimerFired));
      && fired.Some?
      && fired.value.ui.error == JsNull
      && ArmErrorTimer(ErrorBannerMillis) in fired.value.outstanding
  {
    var failed := Deliver(sess, Settle(Send(PostLogin(u, pw)), LoginRejected(f)));
    assert failed.value.outstanding[ArmErrorTimer(ErrorBannerMillis)] >= 2;
  }

  /** Logging out while the signup form is the chosen mode mounts a fresh navbar
      button reading "Signup" above the signup form, so the button no longer
      names the other form. */
  lemma LabelOutOfStepAfterLogout(sess: SessionState)
    requires Truthy(sess.ui.currentUser) && sess.ui.signupToggle
    requires Send(PostLogout) in sess.outstanding
    ensures var r := Deliver(sess, Settle(Send(PostLogout), LogoutSucceeded));
      && r.Some?
      && ScreenOf(r.value.ui).SignupForm?
      && r.value.ui.formBtnLabel == SignupLabel
      && !LabelMatchesMode(r.value.ui)
  {
  }

  /** Replaying two input sequences one after the other is replaying their concatenation. */
  lemma {:induction false} ReplayAppend(sess: SessionState, first: seq<Input>, second: seq<Input>)
    ensures Replay(sess, first + second)
              == if Replay(sess, first).None? then None else Replay(Replay(sess, first).value, second)
    decreases |first|
  {
    if first == [] {
      assert first + second == second;
    } else {
      var both := first + second;
      assert both[0] == first[0] && both[1..] == first[1..] + second;
      ReplayUnfold(sess, both);
      ReplayUnfold(sess, first);
      var next := Deliver(sess, first[0]);
      if next.Some? {
        ReplayAppend(next.value, first[1..], second);
      }
    }
  }

  /** The sample run below, cut after the chained login has succeeded. */
  const ScenarioUser := Init.(signupToggle := true, formBtnLabel := LoginLabel, username := "ann", password := "pw")
  const LoggedIn := SessionState(ScenarioUser.(currentUser := JsBool(true), authorization := Some("Token t0k")),
                            multiset{Send(GetItems)})
  const SignupInputs := [
    Act(FormBtnClicked), Act(UsernameTyped("ann")), Act(PasswordTyped("pw")),
    Act(SignupSubmitted),
    Settle(Send(PostSignup("", "ann", "pw")), SignupSucceeded("ann", "pw")),
    Settle(Send(PostLogin("ann", "pw")), LoginSucceeded("t0k"))]
  const LogoutInputs := [
    Act(LogoutSubmitted),
    Settle(Send(PostLogout), LogoutSucceeded),
    Settle(Send(GetItems), ItemsReceived([Item("1", "Fire", 120.0)]))]

  lemma SignupPhase()
    ensures Replay(Start, SignupInputs) == Some(LoggedIn)
  {
    var inputs := SignupInputs;
    var s1 := Deliver(Start, inputs[0]).value;
    var s2 := Deliver(s1, inputs[1]).value;
    var s3 := Deliver(s2, inputs[2]).value;
    assert s3 == SessionState(ScenarioUser, multiset{});
    var s4 := Deliver(s3, inputs[3]).value;
    assert s4.outstanding == multiset{Send(PostSignup("", "ann", "pw"))};
    var s5 := Deliver(s4, inputs[4]).value;
    assert s5.outstanding == multiset{Send(PostLogin("ann", "pw"))};
    var s6 := Deliver(s5, inputs[5]).value;
    assert AuthorizationValue("t0k") == "Token t0k";
    assert s6 == LoggedIn;
    ReplayUnfold(Start, inputs);
    ReplayUnfold(s1, inputs[1..]);
    ReplayUnfold(s2, inputs[2..]);
    ReplayUnfold(s3, inputs[3..]);
    ReplayUnfold(s4, inputs[4..]);
    ReplayUnfold(s5, inputs[5..]);
    assert inputs[6..] == [];
  }

  lemma LogoutPhase()
    ensures Replay(LoggedIn, LogoutInputs)
              == Some(SessionState(LoggedIn.ui.(currentUser := JsBool(false), formBtnLabel := SignupLabel,
                                           items := [Item("1", "Fire", 120.0)]),
                              multiset{}))
  {
    var inputs := LogoutInputs;
    var s7 := Deliver(LoggedIn, inputs[0]).value;
    assert s7.outstanding == multiset{Send(GetItems), Send(PostLogout)};
    var s8 := Deliver(s7, inputs[1]).value;
    assert s8.outstanding == multiset{Send(GetItems)};
    var s9 := Deliver(s8, inputs[2]).value;
    assert s9.outstanding == multiset{};
    ReplayUnfold(LoggedIn, inputs);
    ReplayUnfold(s7, inputs[1..]);
    ReplayUnfold(s8, inputs[2..]);
    assert inputs[3..] == [];
  }

  /** A run from the first render that signs up in the signup form, logs in
      through the chain, logs out, and then sees its items response arrive: the
      signup form is shown under a button reading "Signup", the table holds the
      late items although nobody is logged in, and the header is still set. */
  lemma SignupLogoutScenario()
    ensures var r := Replay(Start, SignupInputs + LogoutInputs);
      && r.Some?
      && ScreenOf(r.value.ui) == SignupForm(None)
      && r.value.ui.formBtnLabel == SignupLabel
      && !LabelMatchesMode(r.value.ui)
      && r.value.ui.items == [Item("1", "Fire", 120.0)]
      && r.value.ui.authorization == Some("Token t0k")
      && r.value.outstanding == multiset{}
  {
    SignupPhase();
    LogoutPhase();
    ReplayAppend(Start, SignupInputs, LogoutInputs);
  }
}
