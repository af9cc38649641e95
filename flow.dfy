/** The checkout flow: which screen is shown, the bank page's OTP input and
    outcome prompt, the timers the current screen has mounted, and how each
    user action and each elapsed second changes them.

    `Step` is the transition function of the flow; `FlowController` is the
    same machine as an object whose handlers update its fields in place, and
    each handler is proved to follow `Step`. */
module Flow {
  import opened Routes
  import Countdown
  import Otp
  import Decimal

  datatype Option<T> = None | Some(value: T)

  /** A transient notification (a toast): `Error` for `toast.error`, `Info`
      for the confirmation the page shows with `toast.success`. */
  datatype Notice = Error(message: string) | Info(message: string)

  const InvalidOtpMessage: string := "Please enter a 6-digit OTP"
  const ResentMessage: string := "OTP has been resent to your registered contact"

  const RedirectSeconds: nat := 10
  const OtpExpirySeconds: nat := 120
  const SuccessReturnSeconds: nat := 3

  /** What can happen: a button, a keystroke in the OTP field, dismissing
      the outcome prompt, or one second of time passing. */
  datatype Event =
    | ClickBegin
    | ClickBack
    | TypeOtp(typed: string)
    | ClickSubmit
    | ClickResend
    | ChooseResult(success: bool)
    | DismissPrompt
    | ClickTryAgain
    | ClickReturnToStart
    | ClickReturnToMerchant
    | SecondElapsed

  /** The whole state of the flow. `otp` and `modalOpen` belong to the bank
      page; `countdown` is the countdown component the screen renders, if
      any; `timeout` is the number of seconds until the screen's pending
      `setTimeout` fires, 0 when none is pending. */
  datatype FlowState = FlowState(
    screen: Screen,
    otp: string,
    modalOpen: bool,
    countdown: Option<Countdown.Timer>,
    timeout: nat)

  /** The path a screen's timers navigate to when they fire, if it has any. */
  function TimerTarget(sc: Screen): Option<string> {
    match sc
    case Redirect => Some(OtpAuthPath)
    case Success => Some(RootPath)
    case _ => None
  }

  /** How a screen's countdown is displayed. */
  function CountdownFormat(sc: Screen): Countdown.Format {
    if sc == OtpEntry then Countdown.MinutesSeconds else Countdown.Seconds
  }

  /** Mounting a screen: the page's own state starts afresh and the screen
      starts its own timers; nothing of the previous screen survives. */
  function Enter(sc: Screen): (s: FlowState)
    ensures s.screen == sc && s.otp == "" && !s.modalOpen
    ensures s.countdown.Some? <==> sc in {Redirect, OtpEntry}
    ensures s.timeout > 0 <==> sc in {Redirect, Success}
  {
    match sc
    case Redirect => FlowState(sc, "", false, Some(Countdown.Mount(RedirectSeconds, true)), RedirectSeconds)
    case OtpEntry => FlowState(sc, "", false, Some(Countdown.Mount(OtpExpirySeconds, false)), 0)
    case Success => FlowState(sc, "", false, None, SuccessReturnSeconds)
    case _ => FlowState(sc, "", false, None, 0)
  }

  /** `navigate(path)`: the router shows the screen of the path, freshly mounted. */
  function Navigate(path: string): FlowState {
    Enter(Resolve(path))
  }

  /** The flow as the application opens at `/`. */
  const Start: FlowState := Enter(Landing)

  /** One second passes: the countdown ticks, the pending timeout counts
      down, and if either fires the screen's handler navigates. */
  function AfterSecond(s: FlowState): FlowState {
    var countdown := if s.countdown.Some? then Some(Countdown.AfterTick(s.countdown.value)) else None;
    var completed := s.countdown.Some? && countdown.value.completions > s.countdown.value.completions;
    var expired := s.timeout == 1;
    if (expired || completed) && TimerTarget(s.screen).Some? then
      Navigate(TimerTarget(s.screen).value)
    else
      s.(countdown := countdown, timeout := if s.timeout > 0 then s.timeout - 1 else 0)
  }

  /** The transition function. An event whose control is not on the
      current screen changes nothing. */
  function Step(s: FlowState, e: Event): FlowState {
    match e
    case ClickBegin =>
      if s.screen == Landing then Navigate(RedirectPath) else s
    case ClickBack =>
      if s.screen == OtpEntry then Navigate(RedirectPath) else s
    case TypeOtp(typed) =>
      if s.screen == OtpEntry then s.(otp := Otp.OnChange(typed)) else s
    case ClickSubmit =>
      if s.screen == OtpEntry && Otp.Accepts(s.otp) then s.(modalOpen := true) else s
    case ClickResend =>
      if s.screen == OtpEntry then s.(otp := "") else s
    case ChooseResult(success) =>
      if s.screen == OtpEntry && s.modalOpen then Navigate(if success then SuccessPath else FailurePath) else s
    case DismissPrompt =>
      if s.screen == OtpEntry && s.modalOpen then s.(modalOpen := false) else s
    case ClickTryAgain =>
      if s.screen == Failure then Navigate(OtpAuthPath) else s
    case ClickReturnToStart =>
      if s.screen == Failure then Navigate(RootPath) else s
    case ClickReturnToMerchant =>
      if s.screen == Success then Navigate(RootPath) else s
    case SecondElapsed =>
      AfterSecond(s)
  }

  /** The notifications an event emits. */
  function Emitted(s: FlowState, e: Event): seq<Notice> {
    match e
    case ClickSubmit =>
      if s.screen == OtpEntry && !Otp.Accepts(s.otp) then [Error(InvalidOtpMessage)] else []
    case ClickResend =>
      if s.screen == OtpEntry then [Info(ResentMessage)] else []
    case _ => []
  }

  /** The state after a sequence of events. */
  function Run(s: FlowState, es: seq<Event>): FlowState
    decreases |es|
  {
    if es == [] then s else Step(Run(s, es[..|es| - 1]), es[|es| - 1])
  }

  /** `k` seconds of nothing but time passing. */
  function Seconds(k: nat): (es: seq<Event>)
    ensures |es| == k && forall i :: 0 <= i < k ==> es[i] == SecondElapsed
  {
    seq(k, _ => SecondElapsed)
  }

  /** What holds of every state the flow can be in: the input is at most six
      digits, the page state exists only on the bank page, and each screen
      has exactly its own timers, none of them negative. */
  predicate Inv(s: FlowState) {
    && Decimal.AllDigits(s.otp) && |s.otp| <= Otp.MaxLength
    && match s.screen
       case Landing =>
         s.otp == "" && !s.modalOpen && s.countdown == None && s.timeout == 0
       case Failure =>
         s.otp == "" && !s.modalOpen && s.countdown == None && s.timeout == 0
       case Success =>
         s.otp == "" && !s.modalOpen && s.countdown == None && 0 < s.timeout <= SuccessReturnSeconds
       case Redirect =>
         && s.otp == "" && !s.modalOpen && 0 < s.timeout <= RedirectSeconds
         && s.countdown == Some(Countdown.Timer(s.timeout, true, true, 0))
       case OtpEntry =>
         && s.timeout == 0 && s.countdown.Some?
         && 0 <= s.countdown.value.left <= OtpExpirySeconds
         && (s.countdown.value.running <==> s.countdown.value.left > 0)
         && !s.countdown.value.hasOnComplete && s.countdown.value.completions == 0
       case NotFound => false
  }

  /** What the countdown shows on the current screen, if it renders one. */
  function CountdownText(s: FlowState): Option<string>
    requires Inv(s)
  {
    if s.countdown.Some? then Some(Countdown.FormatTime(s.countdown.value.left, CountdownFormat(s.screen)))
    else None
  }

  /** The transition table of the flow, stated on its own: the only ways the
      screen can change. */
  predicate Allowed(from: Screen, e: Event, to: Screen) {
    || (from == Landing && e == ClickBegin && to == Redirect)
    || (from == Redirect && e == SecondElapsed && to == OtpEntry)
    || (from == OtpEntry && e == ClickBack && to == Redirect)
    || (from == OtpEntry && e == ChooseResult(true) && to == Success)
    || (from == OtpEntry && e == ChooseResult(false) && to == Failure)
    || (from == Success && e == SecondElapsed && to == Landing)
    || (from == Success && e == ClickReturnToMerchant && to == Landing)
    || (from == Failure && e == ClickTryAgain && to == OtpEntry)
    || (from == Failure && e == ClickReturnToStart && to == Landing)
  }

  // ---------------------------------------------------------------------
  // Invariant and routing

  /** Where each `navigate` call of the pages lands: every address they use
      resolves to a screen of the flow (they are exactly the declared
      addresses, see `Routes.DeclaredPaths`), never to the catch-all page. */
  lemma NavigateDeclared()
    ensures Navigate(RootPath) == Start
    ensures Navigate(RedirectPath) == Enter(Redirect)
    ensures Navigate(OtpAuthPath) == Enter(OtpEntry)
    ensures Navigate(SuccessPath) == Enter(Success)
    ensures Navigate(FailurePath) == Enter(Failure)
  {
    ResolveDeclaredRoutes();
  }

  lemma EnterKeepsInv(sc: Screen)
    requires sc != NotFound
    ensures Inv(Enter(sc))
  {
  }

  /** One second on the redirect page: both timers count down together, and
      when they run out the bank page is shown afresh. */
  lemma RedirectSecond(s: FlowState)
    requires s.screen == Redirect && s.timeout > 0 && s.countdown == Some(Countdown.Timer(s.timeout, true, true, 0))
    ensures AfterSecond(s) == if s.timeout == 1 then Enter(OtpEntry)
      else s.(countdown := Some(Countdown.Timer(s.timeout - 1, true, true, 0)), timeout := s.timeout - 1)
  {
    NavigateDeclared();
  }

  /** One second on the success page: the timeout counts down, and when it
      runs out the flow is back at the start. */
  lemma SuccessSecond(s: FlowState)
    requires s.screen == Success && s.timeout > 0 && s.countdown == None
    ensures AfterSecond(s) == if s.timeout == 1 then Start else s.(timeout := s.timeout - 1)
  {
    NavigateDeclared();
  }

  /** One second on the bank page ticks the expiry countdown and nothing else. */
  lemma BankPageSecond(s: FlowState)
    requires s.screen == OtpEntry && s.countdown.Some? && s.timeout == 0
    ensures AfterSecond(s) == s.(countdown := Some(Countdown.AfterTick(s.countdown.value)))
    ensures Inv(s) ==> Inv(AfterSecond(s))
  {
  }

  /** One second keeps the invariant on every screen. */
  lemma SecondKeepsInv(s: FlowState)
    requires Inv(s)
    ensures Inv(AfterSecond(s))
  {
    match s.screen {
      case Redirect => RedirectSecond(s); EnterKeepsInv(OtpEntry);
      case Success => SuccessSecond(s); EnterKeepsInv(Landing);
      case OtpEntry => BankPageSecond(s);
      case _ =>
    }
  }

  /** What the pages' handlers do keeps the invariant, screen by screen. */
  lemma HandlersKeepInv(s: FlowState, e: Event)
    requires Inv(s) && e != SecondElapsed
    ensures Inv(Step(s, e))
  {
    NavigateDeclared();
  }

  /** Every step keeps the invariant; in particular the screen is never the
      catch-all, the input stays at most six digits and no timer goes negative. */
  lemma StepKeepsInv(s: FlowState, e: Event)
    requires Inv(s)
    ensures Inv(Step(s, e))
  {
    if e == SecondElapsed {
      SecondKeepsInv(s);
    } else {
      HandlersKeepInv(s, e);
    }
  }

  lemma {:induction false} RunKeepsInv(s: FlowState, es: seq<Event>)
    requires Inv(s)
    ensures Inv(Run(s, es))
    decreases |es|
  {
    if es != [] {
      RunKeepsInv(s, es[..|es| - 1]);
      StepKeepsInv(Run(s, es[..|es| - 1]), es[|es| - 1]);
    }
  }

  /** Running two sequences one after the other. */
  lemma {:induction false} RunAppend(s: FlowState, a: seq<Event>, b: seq<Event>)
    ensures Run(s, a + b) == Run(Run(s, a), b)
    decreases |b|
  {
    if b == [] {
      assert a + b == a;
    } else {
      assert (a + b)[..|a + b| - 1] == a + b[..|b| - 1];
      RunAppend(s, a, b[..|b| - 1]);
    }
  }

  lemma RunSecondsUnfold(s: FlowState, k: nat)
    ensures Run(s, Seconds(k + 1)) == AfterSecond(Run(s, Seconds(k)))
  {
    assert Seconds(k + 1)[..k] == Seconds(k);
  }

  // ---------------------------------------------------------------------
  // Screen changes

  /** The screen only ever changes along the transition table, and the new
      screen is always freshly mounted: the old screen's timers are cancelled
      and its input and prompt are gone. */
  lemma ScreenChanges(s: FlowState, e: Event)
    requires Inv(s)
    ensures var t := Step(s, e);
      t.screen != s.screen ==> Allowed(s.screen, e, t.screen) && t == Enter(t.screen)
  {
    if e == SecondElapsed {
      match s.screen {
        case Redirect => RedirectSecond(s);
        case Success => SuccessSecond(s);
        case OtpEntry => BankPageSecond(s);
        case _ =>
      }
    } else {
      NavigateDeclared();
    }
  }

  /** Begin Demo leads from the landing page to a fresh redirect page. */
  lemma LandingButton(s: FlowState)
    requires s.screen == Landing
    ensures Step(s, ClickBegin) == Enter(Redirect)
  {
    NavigateDeclared();
  }

  /** On the bank page, Back shows a fresh redirect page, and with the prompt
      open the two simulated outcomes show the success and the failure page. */
  lemma BankPageButtons(s: FlowState)
    requires s.screen == OtpEntry
    ensures Step(s, ClickBack) == Enter(Redirect)
    ensures s.modalOpen ==> Step(s, ChooseResult(true)) == Enter(Success)
    ensures s.modalOpen ==> Step(s, ChooseResult(false)) == Enter(Failure)
    ensures !s.modalOpen ==> Step(s, ChooseResult(true)) == s && Step(s, ChooseResult(false)) == s
  {
    NavigateDeclared();
  }

  /** Try Again shows a fresh bank page; Return to Start goes back to the start. */
  lemma FailureButtons(s: FlowState)
    requires s.screen == Failure
    ensures Step(s, ClickTryAgain) == Enter(OtpEntry)
    ensures Step(s, ClickReturnToStart) == Start
  {
    NavigateDeclared();
  }

  /** Return to Merchant goes back to the start. */
  lemma MerchantButton(s: FlowState)
    requires s.screen == Success
    ensures Step(s, ClickReturnToMerchant) == Start
  {
    NavigateDeclared();
  }

  // ---------------------------------------------------------------------
  // The bank page

  /** Submitting anything but six characters emits exactly one error and
      changes nothing: the prompt stays closed, the input is kept, the screen stays. */
  lemma SubmitRejectsWrongLength(s: FlowState)
    requires Inv(s) && s.screen == OtpEntry && |s.otp| != Otp.CodeLength
    ensures Step(s, ClickSubmit) == s
    ensures Emitted(s, ClickSubmit) == [Error(InvalidOtpMessage)]
  {
  }

  /** Submitting six digits opens the outcome prompt and nothing else, emits
      nothing, and submitting again changes nothing more. */
  lemma SubmitOpensPrompt(s: FlowState)
    requires Inv(s) && s.screen == OtpEntry && |s.otp| == Otp.CodeLength
    ensures Step(s, ClickSubmit) == s.(modalOpen := true)
    ensures Emitted(s, ClickSubmit) == []
    ensures Step(Step(s, ClickSubmit), ClickSubmit) == Step(s, ClickSubmit)
  {
  }

  /** Which six digits were typed does not matter, and the demo code is never
      compared: any two six-digit entries lead to the same state. */
  lemma AnySixDigitsAreAccepted(s: FlowState, a: string, b: string)
    requires Inv(s) && s.screen == OtpEntry
    requires Decimal.AllDigits(a) && Decimal.AllDigits(b) && |a| == |b| == Otp.CodeLength
    ensures Step(Step(s, TypeOtp(a)), ClickSubmit).modalOpen
    ensures Step(Step(s, TypeOtp(a)), ClickSubmit) == Step(Step(s, TypeOtp(b)), ClickSubmit).(otp := a)
  {
    Otp.OnChangeStoresDigitsOnly(a);
    Otp.OnChangeStoresDigitsOnly(b);
  }

  /** Resend clears the input and changes nothing else: the prompt, the
      screen and the expiry countdown are left as they were. */
  lemma ResendClearsOnlyInput(s: FlowState)
    requires Inv(s) && s.screen == OtpEntry
    ensures Step(s, ClickResend) == s.(otp := "")
    ensures Emitted(s, ClickResend) == [Info(ResentMessage)]
  {
  }

  /** The outcome screen is shown only after a submit that the length check
      accepted: from any state without an open prompt and off the outcome
      screens, reaching Success or Failure (or an open prompt) needs an
      earlier submit on the bank page with six characters entered. */
  ghost predicate AcceptedSubmitIn(s0: FlowState, es: seq<Event>) {
    exists i :: 0 <= i < |es| && es[i] == ClickSubmit
      && Run(s0, es[..i]).screen == OtpEntry && Otp.Accepts(Run(s0, es[..i]).otp)
  }

  /** One step from a state with no open prompt, off the outcome screens,
      that is not an accepted submit, reaches neither an open prompt nor an
      outcome screen. */
  lemma QuietStep(s: FlowState, e: Event)
    requires !s.modalOpen && s.screen != Success && s.screen != Failure
    requires !(e == ClickSubmit && s.screen == OtpEntry && Otp.Accepts(s.otp))
    ensures !Step(s, e).modalOpen && Step(s, e).screen != Success && Step(s, e).screen != Failure
  {
    NavigateDeclared();
  }

  lemma {:induction false} OutcomeNeedsAcceptedSubmit(s0: FlowState, es: seq<Event>)
    requires s0.screen != Success && s0.screen != Failure && !s0.modalOpen
    ensures Run(s0, es).screen in {Success, Failure} ==> AcceptedSubmitIn(s0, es)
    ensures Run(s0, es).modalOpen ==> AcceptedSubmitIn(s0, es)
    decreases |es|
  {
    if es != [] {
      var n := |es| - 1;
      var prefix := es[..n];
      var s := Run(s0, prefix);
      assert Run(s0, es) == Step(s, es[n]);
      OutcomeNeedsAcceptedSubmit(s0, prefix);
      if AcceptedSubmitIn(s0, prefix) {
        var i :| 0 <= i < |prefix| && prefix[i] == ClickSubmit
          && Run(s0, prefix[..i]).screen == OtpEntry && Otp.Accepts(Run(s0, prefix[..i]).otp);
        assert es[..i] == prefix[..i];
        assert AcceptedSubmitIn(s0, es);
      } else if es[n] == ClickSubmit && s.screen == OtpEntry && Otp.Accepts(s.otp) {
        assert es[..n] == prefix;
        assert AcceptedSubmitIn(s0, es);
      } else {
        QuietStep(s, es[n]);
      }
    }
  }

  // ---------------------------------------------------------------------
  // Timed steps

  /** On the redirect page both the 10 s timeout and the countdown run in
      step: after k seconds short of their end the page still shows with k
      seconds less on both, and when they end the bank page is shown afresh. */
  lemma {:induction false} RedirectAdvances(s: FlowState, k: nat)
    requires Inv(s) && s.screen == Redirect && k <= s.timeout
    ensures k < s.timeout ==> (Run(s, Seconds(k)) ==
      s.(countdown := Some(Countdown.Timer(s.timeout - k, true, true, 0)), timeout := s.timeout - k))
    ensures k == s.timeout ==> Run(s, Seconds(k)) == Enter(OtpEntry)
    decreases k
  {
    if k == 0 {
      assert Seconds(0) == [];
    } else {
      RedirectAdvances(s, k - 1);
      var left := s.timeout - (k - 1);
      var prev := s.(countdown := Some(Countdown.Timer(left, true, true, 0)), timeout := left);
      assert Run(s, Seconds(k - 1)) == prev;
      RunSecondsUnfold(s, k - 1);
      assert Run(s, Seconds(k)) == AfterSecond(prev);
      RedirectSecond(prev);
    }
  }

  /** The success page returns to the start when its timeout fires, and not before. */
  lemma {:induction false} SuccessReturns(s: FlowState, k: nat)
    requires Inv(s) && s.screen == Success && k <= s.timeout
    ensures k < s.timeout ==> Run(s, Seconds(k)) == s.(timeout := s.timeout - k)
    ensures k == s.timeout ==> Run(s, Seconds(k)) == Start
    decreases k
  {
    if k > 0 {
      SuccessReturns(s, k - 1);
      RunSecondsUnfold(s, k - 1);
      var prev := s.(timeout := s.timeout - (k - 1));
      assert Run(s, Seconds(k - 1)) == prev;
      SuccessSecond(prev);
    }
  }

  /** On the bank page time only runs the expiry countdown down: the screen,
      the input and the prompt are untouched, and the countdown is exactly
      the component's own after k seconds. */
  lemma {:induction false} BankPageOnlyCountsDown(s: FlowState, k: nat)
    requires Inv(s) && s.screen == OtpEntry
    ensures Run(s, Seconds(k)) == s.(countdown := Some(Countdown.Elapse(s.countdown.value, k)))
    decreases k
  {
    if k > 0 {
      BankPageOnlyCountsDown(s, k - 1);
      RunSecondsUnfold(s, k - 1);
      BankPageSecond(Run(s, Seconds(k - 1)));
    }
  }

  /** The 120 s expiry countdown of a freshly shown bank page reaches
      `00:00` after two minutes and stays there; nothing else happens. */
  lemma BankPageExpiry(k: nat)
    ensures Run(Enter(OtpEntry), Seconds(k)).screen == OtpEntry
    ensures Run(Enter(OtpEntry), Seconds(k)).otp == ""
    ensures k < OtpExpirySeconds ==> Run(Enter(OtpEntry), Seconds(k)).countdown == Some(Countdown.Timer(OtpExpirySeconds - k, true, false, 0))
    ensures k >= OtpExpirySeconds ==> Run(Enter(OtpEntry), Seconds(k)).countdown == Some(Countdown.Timer(0, false, false, 0))
  {
    BankPageOnlyCountsDown(Enter(OtpEntry), k);
    Countdown.ElapseFromMount(OtpExpirySeconds, false, k);
  }

  /** The landing and failure pages have no timer: time alone never moves them. */
  lemma {:induction false} NoTimerNoChange(s: FlowState, k: nat)
    requires Inv(s) && (s.screen == Landing || s.screen == Failure)
    ensures Run(s, Seconds(k)) == s
    decreases k
  {
    if k > 0 {
      NoTimerNoChange(s, k - 1);
      RunSecondsUnfold(s, k - 1);
    }
  }

  /** Leaving the success page by its button cancels the auto-return: no
      later second changes anything. */
  lemma EarlyReturnCancelsTimer(s: FlowState, k: nat)
    requires Inv(s) && s.screen == Success
    ensures Run(Step(s, ClickReturnToMerchant), Seconds(k)) == Start
  {
    MerchantButton(s);
    NoTimerNoChange(Start, k);
  }

  /** What the timers show when their screens appear: `10` on the redirect
      page, `02:00` on the bank page. */
  lemma InitialDisplays()
    ensures CountdownText(Enter(Redirect)) == Some("10")
    ensures CountdownText(Enter(OtpEntry)) == Some("02:00")
  {
    Countdown.ShowsTen();
    Countdown.ShowsTwoMinutes();
  }

  // ---------------------------------------------------------------------
  // Whole runs

  /** The documented flow with any six-digit entry: Begin Demo, ten seconds
      of redirect, type the code, submit, choose success, three seconds of
      success page. */
  function SuccessfulCycle(typed: string): seq<Event> {
    [ClickBegin] + Seconds(RedirectSeconds) + [TypeOtp(typed), ClickSubmit, ChooseResult(true)] + Seconds(SuccessReturnSeconds)
  }

  lemma RunOne(s: FlowState, e: Event)
    ensures Run(s, [e]) == Step(s, e)
  {
    assert [e][..0] == [];
  }

  lemma RunThree(s: FlowState, a: Event, b: Event, c: Event)
    ensures Run(s, [a, b, c]) == Step(Step(Step(s, a), b), c)
  {
    var es := [a, b, c];
    assert es[..2] == [a, b] && [a, b][..1] == [a];
    RunOne(s, a);
    assert Run(s, [a, b]) == Step(Run(s, [a]), b);
    assert Run(s, es) == Step(Run(s, [a, b]), c);
  }

  /** On a fresh bank page: type an accepted code, submit, choose success. */
  lemma PromptAndSucceed(typed: string)
    requires Otp.Accepts(Otp.OnChange(typed))
    ensures Run(Enter(OtpEntry), [TypeOtp(typed), ClickSubmit, ChooseResult(true)]) == Enter(Success)
  {
    RunThree(Enter(OtpEntry), TypeOtp(typed), ClickSubmit, ChooseResult(true));
    var prompt := Step(Step(Enter(OtpEntry), TypeOtp(typed)), ClickSubmit);
    assert prompt.modalOpen && prompt.screen == OtpEntry;
    NavigateDeclared();
  }

  /** A successful cycle leaves the flow exactly as it started, so it can be
      replayed any number of times with the same result. */
  lemma FullCycleReturnsToStart(typed: string)
    requires Otp.Accepts(Otp.OnChange(typed))
    ensures Run(Start, SuccessfulCycle(typed)) == Start
  {
    var begin := [ClickBegin];
    var redirect := Seconds(RedirectSeconds);
    var middle := [TypeOtp(typed), ClickSubmit, ChooseResult(true)];
    var success := Seconds(SuccessReturnSeconds);
    assert Run(Start, begin) == Enter(Redirect) by {
      RunOne(Start, ClickBegin);
      NavigateDeclared();
    }
    assert Run(Start, begin + redirect) == Enter(OtpEntry) by {
      RunAppend(Start, begin, redirect);
      RedirectAdvances(Enter(Redirect), RedirectSeconds);
    }
    assert Run(Start, begin + redirect + middle) == Enter(Success) by {
      RunAppend(Start, begin + redirect, middle);
      PromptAndSucceed(typed);
    }
    assert Run(Start, begin + redirect + middle + success) == Start by {
      RunAppend(Start, begin + redirect + middle, success);
      SuccessReturns(Enter(Success), SuccessReturnSeconds);
    }
  }

  /** On any bank page: a short entry is refused with an error and leaves
      the page as it was; a full one opens the prompt; failure shows the
      failure page; Try Again shows a fresh bank page. */
  lemma FailureScenario(s: FlowState, short: string, full: string)
    requires Inv(s) && s.screen == OtpEntry
    requires Decimal.AllDigits(short) && |short| < Otp.CodeLength
    requires Decimal.AllDigits(full) && |full| == Otp.CodeLength
    ensures var typed := Step(s, TypeOtp(short));
      && typed.otp == short && typed.screen == OtpEntry
      && Emitted(typed, ClickSubmit) == [Error(InvalidOtpMessage)]
      && Step(typed, ClickSubmit) == typed
    ensures var typed := Step(s, TypeOtp(full));
      && Step(typed, ClickSubmit).modalOpen
      && Step(Step(typed, ClickSubmit), ChooseResult(false)) == Enter(Failure)
      && Step(Enter(Failure), ClickTryAgain) == Enter(OtpEntry)
  {
    Otp.OnChangeStoresDigitsOnly(short);
    Otp.OnChangeStoresDigitsOnly(full);
    var a := Step(s, TypeOtp(short));
    StepKeepsInv(s, TypeOtp(short));
    SubmitRejectsWrongLength(a);
    var b := Step(s, TypeOtp(full));
    StepKeepsInv(s, TypeOtp(full));
    SubmitOpensPrompt(b);
    BankPageButtons(Step(b, ClickSubmit));
    FailureButtons(Enter(Failure));
  }

  // ---------------------------------------------------------------------
  // The controller object

  /** The flow as the pages run it: fields updated in place by one handler
      per event. The countdown component is an object of its own, mounted
      and unmounted with its screen. */
  class FlowController {
    var screen: Screen
    var otp: string
    var modalOpen: bool
    var countdown: Countdown.CountdownTimer?
    var timeout: nat
    var notices: seq<Notice>

    function State(): FlowState
      reads this, countdown
    {
      FlowState(screen, otp, modalOpen, if countdown == null then None else Some(countdown.State()), timeout)
    }

    /** The invariant of the flow, and the mounted countdown displays in
        its screen's format. */
    ghost predicate Valid()
      reads this, countdown
    {
      Inv(State()) && (countdown != null ==> countdown.format == CountdownFormat(screen))
    }

    constructor ()
      ensures Valid() && State() == Start && notices == []
    {
      screen, otp, modalOpen, countdown, timeout := Landing, "", false, null, 0;
      notices := [];
    }

    /** Unmount the current screen (its countdown's interval is cleared) and
        mount `sc` with its own timers. */
    method Show(sc: Screen)
      modifies this, countdown
      ensures State() == Enter(sc) && notices == old(notices)
      ensures countdown != null ==> fresh(countdown) && countdown.format == CountdownFormat(sc)
      ensures old(countdown) != null ==> !old(countdown).running
    {
      if countdown != null {
        countdown.Unmount();
      }
      screen, otp, modalOpen := sc, "", false;
      match sc {
        case Redirect =>
          countdown := new Countdown.CountdownTimer(RedirectSeconds, Countdown.Seconds, true);
          timeout := RedirectSeconds;
        case OtpEntry =>
          countdown := new Countdown.CountdownTimer(OtpExpirySeconds, Countdown.MinutesSeconds, false);
          timeout := 0;
        case Success =>
          countdown := null;
          timeout := SuccessReturnSeconds;
        case _ =>
          countdown := null;
          timeout := 0;
      }
    }

    /** `navigate(path)`. */
    method GoTo(path: string)
      modifies this, countdown
      ensures State() == Navigate(path) && notices == old(notices)
      ensures countdown != null ==> fresh(countdown) && countdown.format == CountdownFormat(screen)
      ensures old(countdown) != null ==> !old(countdown).running
    {
      Show(Resolve(path));
    }

    /** Begin Demo on the landing page. */
    method BeginDemo()
      requires Valid() && screen == Landing
      modifies this, countdown
      ensures Valid() && State() == Step(old(State()), ClickBegin) && notices == old(notices)
      ensures screen == Redirect
    {
      ghost var before := State();
      GoTo(RedirectPath);
      NavigateDeclared();
      LandingButton(before);
      EnterKeepsInv(Redirect);
    }

    /** Back on the bank page. */
    method Back()
      requires Valid() && screen == OtpEntry
      modifies this, countdown
      ensures Valid() && State() == Step(old(State()), ClickBack) && notices == old(notices)
      ensures screen == Redirect
      ensures old(countdown) != null && countdown != old(countdown) ==> !old(countdown).running
    {
      ghost var before := State();
      GoTo(RedirectPath);
      NavigateDeclared();
      BankPageButtons(before);
      EnterKeepsInv(Redirect);
    }

    /** The OTP field's change handler. */
    method ChangeOtp(typed: string)
      requires Valid() && screen == OtpEntry
      modifies this
      ensures Valid() && State() == Step(old(State()), TypeOtp(typed)) && notices == old(notices)
      ensures Decimal.AllDigits(otp) && |otp| <= Otp.MaxLength
    {
      otp := Otp.OnChange(typed);
    }

    /** `handleSubmit`. */
    method HandleSubmit()
      requires Valid() && screen == OtpEntry
      modifies this
      ensures Valid() && State() == Step(old(State()), ClickSubmit)
      ensures notices == old(notices) + Emitted(old(State()), ClickSubmit)
      ensures modalOpen <==> old(modalOpen) || |otp| == Otp.CodeLength
      ensures otp == old(otp) && screen == OtpEntry
    {
      if |otp| != Otp.CodeLength {
        notices := notices + [Error(InvalidOtpMessage)];
        return;
      }
      modalOpen := true;
    }

    /** `handleSimulate`: close the prompt, then show the chosen outcome. */
    method HandleSimulate(success: bool)
      requires Valid() && screen == OtpEntry && modalOpen
      modifies this, countdown
      ensures Valid() && State() == Step(old(State()), ChooseResult(success)) && notices == old(notices)
      ensures screen == if success then Success else Failure
      ensures old(countdown) != null && countdown != old(countdown) ==> !old(countdown).running
    {
      ghost var before := State();
      modalOpen := false;
      if success {
        GoTo(SuccessPath);
      } else {
        GoTo(FailurePath);
      }
      NavigateDeclared();
      BankPageButtons(before);
      EnterKeepsInv(screen);
    }

    /** The prompt's own close request (`onOpenChange(false)`). */
    method DismissPrompt()
      requires Valid() && screen == OtpEntry && modalOpen
      modifies this
      ensures Valid() && State() == Step(old(State()), Event.DismissPrompt) && notices == old(notices)
    {
      modalOpen := false;
    }

    /** `handleResend`. */
    method HandleResend()
      requires Valid() && screen == OtpEntry
      modifies this
      ensures Valid() && State() == Step(old(State()), ClickResend)
      ensures notices == old(notices) + [Info(ResentMessage)]
      ensures otp == "" && modalOpen == old(modalOpen) && countdown == old(countdown)
    {
      notices := notices + [Info(ResentMessage)];
      otp := "";
    }

    /** Try Again on the failure page. */
    method TryAgain()
      requires Valid() && screen == Failure
      modifies this, countdown
      ensures Valid() && State() == Step(old(State()), ClickTryAgain) && notices == old(notices)
      ensures screen == OtpEntry
    {
      ghost var before := State();
      GoTo(OtpAuthPath);
      NavigateDeclared();
      FailureButtons(before);
      EnterKeepsInv(OtpEntry);
    }

    /** Return to Start on the failure page. */
    method ReturnToStart()
      requires Valid() && screen == Failure
      modifies this, countdown
      ensures Valid() && State() == Step(old(State()), ClickReturnToStart) && notices == old(notices)
      ensures State() == Start
    {
      ghost var before := State();
      GoTo(RootPath);
      NavigateDeclared();
      FailureButtons(before);
      EnterKeepsInv(Landing);
    }

    /** Return to Merchant on the success page. */
    method ReturnToMerchant()
      requires Valid() && screen == Success
      modifies this, countdown
      ensures Valid() && State() == Step(old(State()), ClickReturnToMerchant) && notices == old(notices)
      ensures State() == Start
    {
      ghost var before := State();
      GoTo(RootPath);
      NavigateDeclared();
      MerchantButton(before);
      EnterKeepsInv(Landing);
    }

    /** One second: the countdown's interval and the pending timeout run, and
        a timer that fires calls the screen's handler. */
    method Tick()
      requires Valid()
      modifies this, countdown
      ensures Valid() && State() == Step(old(State()), SecondElapsed) && notices == old(notices)
      ensures old(countdown) != null && countdown != old(countdown) ==> !old(countdown).running
    {
      var completed := false;
      if countdown != null {
        var before := countdown.completions;
        countdown.Tick();
        completed := countdown.completions > before;
      }
      var expired := timeout == 1;
      if timeout > 0 {
        timeout := timeout - 1;
      }
      var target := TimerTarget(screen);
      if (expired || completed) && target.Some? {
        GoTo(target.value);
      }
      StepKeepsInv(old(State()), SecondElapsed);
    }
  }
}
