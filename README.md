# 3-D Secure checkout flow demo, modelled in Dafny

The demo walks a shopper through a simulated 3-D Secure challenge. A
landing page offers "Begin Demo". A redirect page counts down ten seconds
and then shows the bank's OTP page. On the OTP page the shopper types a
code, submits it, and chooses a simulated success or failure in a prompt.
A success page returns to the start after three seconds. A failure page
offers "Try Again" and "Return to Start". The router maps five addresses
to these pages and sends every other address to a catch-all page.

The model has five modules:

- `Decimal`: decimal digit strings. It covers what the pattern `\d` keeps
  and the text `Number.prototype.toString` gives for a non-negative
  integer below 10^21.
- `Routes`: the route table of `src/App.tsx` and its resolution: a
  declared static path wins over the catch-all `*`. The paths are
  distinct, so this equals a first-match lookup in the table.
- `Otp`: the OTP field. This is the non-digit filter of its change
  handler, the six-character `maxLength`, and the length check of the
  submit handler.
- `Countdown`: the countdown component, in two forms. One is a pure
  `Timer` value with `Mount`, `AfterTick`, `Stop` and `Elapse`. The other
  is the class `CountdownTimer`, whose methods update its fields in place
  and are proved to follow those functions. The module also models
  `formatTime` and its `SS` and `MM:SS` forms.
- `Flow`: the whole screen flow.
  - `FlowState` holds the current screen, the OTP input, the prompt flag,
    the mounted countdown and the pending `setTimeout`.
  - `Step` is the transition function for user actions and for one
    elapsed second.
  - `FlowController` is the same machine as an object with one handler
    method per page handler. Each handler is proved to keep the
    invariant and to follow `Step`.

Time is discrete: the event `SecondElapsed` is one second of real time.
It runs the mounted countdown's interval and the pending timeout together.
When either one fires, the screen's handler navigates.

On the redirect page both the 10 s timeout and the 10 s countdown's
completion handler navigate to `/otp-auth`. They fire on the same second,
and the model shows one navigation.

Navigation unmounts the current page. Its countdown interval and its
timeout are cleared, and the target page is mounted afresh (`Enter`).

Resend does not restart the 120 s expiry countdown, though a resent code
would suggest a fresh expiry. `handleResend` only emits a notification
and clears the input (`src/pages/OtpAuthScreen.tsx:41-44`). A restart
would need the countdown to be remounted, which nothing does. The model
follows the code.

## Model

| member | source | states |
|---|---|---|
| Decimal.ToString | src/components/CountdownTimer.tsx:33-35 | The text of a non-negative integer is non-empty and made of digits only |
| Decimal.ValueOfToString | src/components/CountdownTimer.tsx:33-35 | Reading the text of `n` back as a decimal number gives `n` |
| Decimal.ToStringLength | src/components/CountdownTimer.tsx:33-35 | The text has one character exactly below 10, at most two below 100, at least three from 100 on, and a leading `0` only for 0 |
| Decimal.ValueLeadingZero | src/components/CountdownTimer.tsx:33-35 | Padding with a leading `0` keeps the string all digits and keeps its value |
| Routes.Lookup | src/App.tsx:21-29 | First-match lookup returns either the catch-all or a screen declared for exactly that path; over a table of flow screens, it returns a flow screen iff the path is declared |
| Routes.ResolveIsTableLookup | src/App.tsx:21-29 | The router's resolution equals the first-match lookup in the declared table; an address shows a flow screen iff it is declared, and then the screen it is declared with |
| Routes.LookupEntry | src/App.tsx:22-26 | With distinct paths, looking up a declared path finds its own entry |
| Routes.TableIsWellFormed | src/App.tsx:22-26 | The five declared paths are distinct and none of them shows the catch-all page |
| Routes.ResolveTable | src/App.tsx:22-26 | Each declared path resolves to the screen it is declared with |
| Routes.ResolveDeclaredRoutes | src/App.tsx:22-26 | `/`, `/redirect`, `/otp-auth`, `/success` and `/failure` show Landing, Redirect, OtpEntry, Success and Failure |
| Routes.DeclaredPaths | src/App.tsx:22-26 | The declared addresses are exactly those five |
| Routes.PathOf | src/App.tsx:22-26 | Every flow screen has a declared address that resolves back to it |
| Routes.AddressesAreUnique | src/App.tsx:22-28 | Two addresses that show the same flow screen are the same address, and it is that screen's own address |
| Otp.Sanitize | src/pages/OtpAuthScreen.tsx:138 | The filtered value is all digits and no longer than the input |
| Otp.SanitizeAppend | src/pages/OtpAuthScreen.tsx:138 | The filter works character by character and keeps order: filtering a concatenation concatenates the filtered parts |
| Otp.SanitizeFixesDigits | src/pages/OtpAuthScreen.tsx:138 | A string comes through unchanged iff it is all digits |
| Otp.SanitizeIdempotent | src/pages/OtpAuthScreen.tsx:138 | Filtering twice is filtering once |
| Otp.SanitizeKeepsExactlyDigits | src/pages/OtpAuthScreen.tsx:138 | Each digit occurs in the result as often as in the input, and no other character occurs |
| Otp.FieldValue | src/pages/OtpAuthScreen.tsx:136 | The field holds a prefix of what was typed, exactly the first six characters when more were typed, and all of it when six or fewer were typed |
| Otp.OnChange | src/pages/OtpAuthScreen.tsx:136-138 | The stored value is all digits and at most six long |
| Otp.OnChangeStoresDigitsOnly | src/pages/OtpAuthScreen.tsx:136-138 | Stored value: digits only, at most six, no longer than the input; typing at most six digits stores exactly them |
| Otp.AcceptanceIgnoresTheCode | src/pages/OtpAuthScreen.tsx:25-29 | A digit string is accepted iff its length is that of the demo code, whatever its digits; typing digits fills the field for submit iff six or more are typed |
| Otp.WalkThroughEntries | src/pages/OtpAuthScreen.tsx:138 | A five-digit entry (`12345`) and a six-digit entry (`123456`) are stored as typed |
| Countdown.Mount | src/components/CountdownTimer.tsx:14-24 | The mounted timer starts at `seconds`; it schedules an interval iff time is left, and calls the handler at once iff there is one and no time is left |
| Countdown.AfterTick | src/components/CountdownTimer.tsx:16-27 | A running timer decreases by exactly one and schedules the next interval iff time is left, a stopped one is unchanged, and the handler is called iff the timer was running, reaches zero and has a handler |
| Countdown.Stop | src/components/CountdownTimer.tsx:26 | Cleanup clears the interval and keeps the displayed time |
| Countdown.ElapseFromMount | src/components/CountdownTimer.tsx:14-24 | From N ≥ 0, after M < N seconds the timer shows N − M, still runs, and the handler has not been called; from N seconds on it shows 0 for good, and the handler has been called exactly once if there is one (never otherwise) |
| Countdown.NeverNegative | src/components/CountdownTimer.tsx:17-23 | From N ≥ 0 the timer stays between 0 and N |
| Countdown.StoppedStaysStill | src/components/CountdownTimer.tsx:26 | After unmounting no second changes anything, and the handler is not called again |
| Countdown.CountdownTimer.constructor | src/components/CountdownTimer.tsx:14 | The object starts as `Mount(seconds, …)`, with `timeLeft == seconds` |
| Countdown.CountdownTimer.Tick | src/components/CountdownTimer.tsx:22-24 | The fields become `AfterTick` of the old state: a running timer is decremented by one, and a stopped one is untouched |
| Countdown.CountdownTimer.Unmount | src/components/CountdownTimer.tsx:26 | The fields become `Stop` of the old state |
| Countdown.PadStart | src/components/CountdownTimer.tsx:33 | `padStart` returns `width` characters (or the string unchanged when it is already long enough): fill characters, then the string |
| Countdown.TwoDigits | src/components/CountdownTimer.tsx:33 | Below 100, the padded text is two digits that read back as the number |
| Countdown.MinutesSecondsRoundTrip | src/components/CountdownTimer.tsx:30-33 | Below 6000 s the `mm:ss` text is five characters `DD:DD`, the seconds part is below 60, and minutes·60 + seconds gives back the time |
| Countdown.SecondsForm | src/components/CountdownTimer.tsx:35 | The `seconds` text is all digits and reads back as the time; it is the plain decimal text from 10 on, and `0` followed by the digit below 10 |
| Countdown.ShowsTen | src/pages/RedirectScreen.tsx:73 | The redirect countdown first shows `10` |
| Countdown.ShowsTwoMinutes | src/pages/OtpAuthScreen.tsx:148 | The expiry countdown first shows `02:00` |
| Flow.Enter | src/pages/OtpAuthScreen.tsx:20-21 | A freshly mounted page has an empty input and a closed prompt. It has a countdown exactly on the redirect and bank pages, and a pending timeout exactly on the redirect and success pages |
| Flow.NavigateDeclared | src/App.tsx:22-26 | Each address the pages navigate to shows its own screen afresh, never the catch-all |
| Flow.EnterKeepsInv | src/pages/OtpAuthScreen.tsx:20-21 | Every freshly mounted flow screen satisfies the invariant |
| Flow.RedirectSecond | src/pages/RedirectScreen.tsx:11-18 | One second on the redirect page counts both timers down together. When they run out, the fresh bank page is shown, once |
| Flow.SuccessSecond | src/pages/SuccessScreen.tsx:10-16 | One second on the success page counts the timeout down; when it runs out the flow is back at the start |
| Flow.BankPageSecond | src/pages/OtpAuthScreen.tsx:148 | One second on the bank page ticks the expiry countdown and nothing else, and keeps the invariant |
| Flow.SecondKeepsInv | src/components/CountdownTimer.tsx:16-27 | One second keeps the invariant on every screen |
| Flow.HandlersKeepInv | src/pages/OtpAuthScreen.tsx:23-53 | Every user action keeps the invariant |
| Flow.StepKeepsInv | src/pages/OtpAuthScreen.tsx:136-138 | Every event keeps the invariant: never the catch-all, input at most six digits, each screen with exactly its own timers, none negative |
| Flow.RunKeepsInv | src/pages/OtpAuthScreen.tsx:136-138 | Every sequence of events keeps the invariant |
| Flow.ScreenChanges | src/pages/RedirectScreen.tsx:11-18 | The screen changes only along the transition table, so each page has exactly its own exits, and the new screen is always freshly mounted with the old timers gone |
| Flow.LandingButton | src/pages/Index.tsx:66 | Begin Demo shows a fresh redirect page |
| Flow.BankPageButtons | src/pages/OtpAuthScreen.tsx:32-39 | With the prompt open, the simulated outcomes show the success or the failure page; with it closed they do nothing. Back (line 53) shows a fresh redirect page |
| Flow.FailureButtons | src/pages/FailureScreen.tsx:32-45 | Try Again shows a fresh bank page; Return to Start returns to the start |
| Flow.MerchantButton | src/pages/SuccessScreen.tsx:54-60 | Return to Merchant returns to the start |
| Flow.SubmitRejectsWrongLength | src/pages/OtpAuthScreen.tsx:25-28 | A submit with other than six characters emits exactly one error and changes nothing |
| Flow.SubmitOpensPrompt | src/pages/OtpAuthScreen.tsx:29 | A submit with six characters opens the prompt, changes nothing else, emits nothing, and is idempotent |
| Flow.AnySixDigitsAreAccepted | src/pages/OtpAuthScreen.tsx:25-29 | Any two six-digit entries open the prompt and lead to the same state apart from the stored digits |
| Flow.ResendClearsOnlyInput | src/pages/OtpAuthScreen.tsx:41-44 | Resend clears the input, emits the resent notice, and leaves the prompt, the screen and the expiry countdown as they were |
| Flow.QuietStep | src/pages/OtpAuthScreen.tsx:23-39 | From a state off the outcome screens with the prompt closed, any step other than an accepted submit leaves it off the outcome screens with the prompt closed |
| Flow.OutcomeNeedsAcceptedSubmit | src/pages/OtpAuthScreen.tsx:23-39 | Success, Failure or an open prompt is reached only after a submit, on the bank page, that the length check accepted |
| Flow.RedirectAdvances | src/pages/RedirectScreen.tsx:11-18 | k seconds before the end, the redirect page shows both timers k lower. At the end, the fresh bank page is shown |
| Flow.SuccessReturns | src/pages/SuccessScreen.tsx:10-16 | The success page returns to the start when its timeout runs out, not before |
| Flow.BankPageOnlyCountsDown | src/pages/OtpAuthScreen.tsx:148 | On the bank page, time changes nothing but the expiry countdown, which behaves as the countdown component alone |
| Flow.BankPageExpiry | src/pages/OtpAuthScreen.tsx:148 | A fresh bank page stays on screen with its input. Its countdown shows 120 − k for k < 120 and stops at 0 from then on |
| Flow.NoTimerNoChange | src/pages/FailureScreen.tsx:6-50 | On the landing and failure pages time alone changes nothing |
| Flow.EarlyReturnCancelsTimer | src/pages/SuccessScreen.tsx:15 | After Return to Merchant no later second changes anything: the auto-return timer was cleared |
| Flow.InitialDisplays | src/pages/RedirectScreen.tsx:73 | A fresh redirect page shows `10` and a fresh bank page shows `02:00` |
| Flow.PromptAndSucceed | src/pages/OtpAuthScreen.tsx:23-39 | On a fresh bank page, typing an accepted entry, submitting and choosing success shows the fresh success page |
| Flow.FullCycleReturnsToStart | src/pages/Index.tsx:80-85 | The documented run takes the flow from the start back to exactly the start: Begin Demo, ten seconds of redirect, any accepted entry, submit, success, three seconds |
| Flow.FailureScenario | src/pages/OtpAuthScreen.tsx:23-39 | On a bank page a short entry is refused with an error; a full one opens the prompt; failure shows the failure page, and Try Again a fresh bank page |
| Flow.FlowController.constructor | src/App.tsx:22 | The application opens at `/`: the start state, which satisfies the invariant |
| Flow.FlowController.Show | src/pages/RedirectScreen.tsx:15-18 | The old page's countdown object is unmounted (its interval cleared), and the new page is mounted afresh with its own timers, a new countdown object in the screen's display format |
| Flow.FlowController.GoTo | src/App.tsx:21-29 | `navigate(path)` unmounts the old countdown and shows the router's screen for the path, freshly mounted |
| Flow.FlowController.BeginDemo | src/pages/Index.tsx:66 | Follows `Step` for Begin Demo, keeps the invariant, and shows the redirect page |
| Flow.FlowController.Back | src/pages/OtpAuthScreen.tsx:53 | Follows `Step` for Back, keeps the invariant, and shows the redirect page |
| Flow.FlowController.ChangeOtp | src/pages/OtpAuthScreen.tsx:138 | Follows `Step` for a keystroke; the input stays at most six digits |
| Flow.FlowController.HandleSubmit | src/pages/OtpAuthScreen.tsx:23-30 | Follows `Step` for a submit and appends exactly its notices. The prompt is open afterwards iff it was open before or six characters were entered; the input and the screen are kept |
| Flow.FlowController.HandleSimulate | src/pages/OtpAuthScreen.tsx:32-39 | Follows `Step` for the chosen outcome and shows the success or the failure page |
| Flow.FlowController.DismissPrompt | src/pages/OtpAuthScreen.tsx:182 | Follows `Step` for closing the prompt from the dialog itself |
| Flow.FlowController.HandleResend | src/pages/OtpAuthScreen.tsx:41-44 | Follows `Step` for resend. It appends the resent notice and clears the input; the prompt flag and the countdown object are kept |
| Flow.FlowController.TryAgain | src/pages/FailureScreen.tsx:33 | Follows `Step` for Try Again and shows the bank page |
| Flow.FlowController.ReturnToStart | src/pages/FailureScreen.tsx:40 | Follows `Step` for Return to Start and is back at the start state |
| Flow.FlowController.ReturnToMerchant | src/pages/SuccessScreen.tsx:56 | Follows `Step` for Return to Merchant and is back at the start state |
| Flow.FlowController.Tick | src/components/CountdownTimer.tsx:22-24 | Follows `Step` for one second: the countdown object ticks, the timeout counts down, and a timer that fires navigates |

## Left out

- Markup, styling, icons, the progress bar animation, and the static demo values are not modelled. The static values are the amount, the masked card and the "3 attempts remaining" text, which is never enforced.
- Toasts are reduced to the notices a handler emits (`Emitted`, `FlowController.notices`). Their display and lifetime are not modelled.
- Real time and React scheduling are replaced by the discrete `SecondElapsed` event. Sub-second ordering between an interval and a timeout is not modelled.
- The countdown's effect also re-runs when the identity of its `onComplete` prop changes. The model does not capture this rendering detail.
- The OTP expiry countdown reaching zero changes nothing but the display, as in the code. No expired state or submit lock is invented.
- The dialog overlay's blocking of the page underneath is not modelled. The handlers behave as written whatever the prompt's state, except that the prompt's own buttons act only while it is open.
- Router details beyond the exact-match table are not modelled: case-insensitive matching, trailing slashes, browser history, and typing an address by hand. The catch-all page's own content is not modelled either.
- Provider wiring (`QueryClientProvider`, `TooltipProvider`, the toasters) is not modelled.
- Countdown.FormatTime is stated for non-negative times only. The timers never go below zero (`Countdown.NeverNegative`), and the pages pass 10 and 120. JavaScript numbers are doubles: `toString` uses exponent form from 10^21 on, and integers above 2^53 are not exact. The model's `nat` is unbounded, and `Decimal.ToString` gives plain decimal text for every value. The timers never exceed 120.
