# Phone-number verification step of the DeSo identity sign-up

This project models the `sign-up-get-starter-deso` component of the DeSo identity
application. The component is the sign-up step in which a user proves a phone number. It
sends a one-time code by SMS (through the backend, which uses Twilio), accepts the code,
confirms the resulting transaction and reports back to the surrounding flow. The model
covers the component's state machine:

- which screen is shown (none, phone-number entry, code entry, completed);
- the two in-flight flags;
- the 60-second resend cooldown driven by a one-second interval;
- the two server-error records and the classification of Twilio error text into them;
- the choice the finish button makes.

Files:

- `wrappers.dfy`: `Option`, for the component's nullable fields.
- `substrings.dfy`: `Contains`, the `includes` test used by the error parsers. It is proved
  equal to "occurs at some index".
- `server_errors.dfy`: the two error records as datatypes and the two first-match-wins
  classifiers. It also holds the functions that write one field of a record, and a
  table-driven reference definition of "first match wins" that both classifiers are
  proved to agree with.
- `cooldown.dfy`: the cooldown state, one tick of the interval, and lemmas about a run of
  ticks that starts at a resend.
- `component.dfy`: the component as a class whose fields are the component's fields. Each
  handler and each network callback is a method. The invariant `Valid()` says how the
  screen relates to what has happened so far.

Network callbacks are separate methods (`OnSendTextSuccess`, `OnSendTextError`,
`OnSubmitCodeSuccess`, ...). Each may only be called once the matching request is in the
`calls` log. Event emissions are counters. Form validity and the phone widget's number
and region code are method parameters. The `err?.error?.error` text and the backend's
`stringifyError(err)` are the parameters `message` and `detail`.

Four behaviours of the code are easy to assume otherwise. The model follows the code.

- One might expect at most one error flag to be set at a time, with the send-error record
  reset before every send. The send button (`sendVerificationText`, lines 139-147) does not
  reset it, so two failures in a row can leave two flags set. `TwoFailuresCanSetTwoFlags`
  exhibits this. Each parse call still writes exactly one field (`RecordSendError`,
  `RecordSubmitError`).
- One might expect a successful send to clear the earlier send errors. The success callback
  (lines 228-231) only switches the screen, so `OnSendTextSuccess` leaves the send-error
  record as it was.
- One might expect the cooldown to end after 60 ticks. The interval clears the flag on the
  61st tick, because the tick that finds the timeout at 0 is the one that clears it
  (`Cooldown.CooldownEndsOnTick61`).
- One might expect the in-flight flags to be cleared on every outcome. Whenever the internal
  submit (lines 285-301) is reached with a country code set and a falsy code, it throws after
  `submittingPhoneNumberVerificationCode` was raised, so the flag stays raised
  (`StartedSubmit`, `Threw`). The code control's `Validators.required` (line 50) normally
  keeps an empty string from getting that far.

## Model

| member | source | states |
|---|---|---|
| Substrings.ContainsIffOccurs | src/app/sign-up-get-starter-deso/sign-up-get-starter-deso.component.ts:242 | the `includes` test the parsers use holds exactly when the fragment occurs at some index of the error text |
| Substrings.Contains | src/app/sign-up-get-starter-deso/sign-up-get-starter-deso.component.ts:242 | the `includes` test: a fragment at the start of the text is found, and a found fragment is no longer than the text |
| ServerErrors.ClassifySendError | src/app/sign-up-get-starter-deso/sign-up-get-starter-deso.component.ts:241-262 | "Phone number already in use", then "Max send attempts reached", then "VOIP number not allowed", then "Messages to China require use case vetting": each kind is chosen exactly when its fragment is present and no earlier one is; unknown exactly when none is present |
| ServerErrors.ClassifySubmitError | src/app/sign-up-get-starter-deso/sign-up-get-starter-deso.component.ts:265-283 | invalid code exactly when "Invalid parameter: Code", "requested resource" or "Code is not valid" is present; max check attempts only when none of those is and "Max check attempts reached" is; unknown otherwise |
| ServerErrors.RecordSendError | src/app/sign-up-get-starter-deso/sign-up-get-starter-deso.component.ts:241-262 | handling one send failure changes at most the one field of its kind and leaves that field set; an unknown error stores "Error sending phone number verification text: " followed by the stringified error |
| ServerErrors.RecordSubmitError | src/app/sign-up-get-starter-deso/sign-up-get-starter-deso.component.ts:265-283 | handling one submit failure changes at most the one field of its kind and leaves that field set; an unknown error stores "Error submitting phone number verification code: " followed by the stringified error |
| ServerErrors.FirstMatchIsLeastIndex | src/app/sign-up-get-starter-deso/sign-up-get-starter-deso.component.ts:241-262 | a first-match table yields the kind of the lowest-numbered rule whose fragment occurs in the message |
| ServerErrors.FirstMatchNone | src/app/sign-up-get-starter-deso/sign-up-get-starter-deso.component.ts:258-262 | a first-match table yields nothing exactly when no fragment occurs, which is when the parser falls back to the unknown error |
| ServerErrors.ClassifySendErrorIsFirstMatch | src/app/sign-up-get-starter-deso/sign-up-get-starter-deso.component.ts:241-262 | the send-error if/else chain equals first-match over its four fragments in source order, with unknown as the fallback |
| ServerErrors.ClassifySubmitErrorIsFirstMatch | src/app/sign-up-get-starter-deso/sign-up-get-starter-deso.component.ts:265-283 | the submit-error if/else chain equals first-match over its four fragments in source order, with unknown as the fallback |
| ServerErrors.MaxSendAttemptsOnFreshRecord | src/app/sign-up-get-starter-deso/sign-up-get-starter-deso.component.ts:245-248 | on a freshly reset record, a "Max send attempts reached" message (without the higher-priority "already in use" text) sets that flag and nothing else |
| ServerErrors.RequestedResourceNotFoundIsInvalidCode | src/app/sign-up-get-starter-deso/sign-up-get-starter-deso.component.ts:269-271 | "Error: requested resource was not found" is classified as an invalid code, not as unknown |
| ServerErrors.TwoFailuresCanSetTwoFlags | src/app/sign-up-get-starter-deso/sign-up-get-starter-deso.component.ts:139-147 | without a reset between them, a max-send-attempts failure followed by a VOIP failure leaves both flags set |
| Cooldown.Tick | src/app/sign-up-get-starter-deso/sign-up-get-starter-deso.component.ts:173-180 | at timeout 0 a tick clears the flag and stops the interval; otherwise it lowers the timeout by exactly one and keeps the flag; a valid cooldown state stays valid |
| Cooldown.Run | src/app/sign-up-get-starter-deso/sign-up-get-starter-deso.component.ts:173-180 | the interval fired n times: a stopped interval changes nothing, the flag is never set again by ticking, and the timeout never rises |
| Cooldown.CountsDown | src/app/sign-up-get-starter-deso/sign-up-get-starter-deso.component.ts:174-179 | from a running cooldown with timeout t, n <= t ticks leave the flag set and the timeout at t - n |
| Cooldown.RunKeepsValid | src/app/sign-up-get-starter-deso/sign-up-get-starter-deso.component.ts:171-180 | any number of ticks keeps the timeout within 0..60, the interval running exactly while the flag is set, and so never makes the timeout negative |
| Cooldown.CooldownEndsOnTick61 | src/app/sign-up-get-starter-deso/sign-up-get-starter-deso.component.ts:171-180 | after a resend the flag stays set for 60 ticks and is cleared by the 61st, which also stops the interval; later ticks change nothing |
| GetStarterDeso.ToUpperCase | src/app/sign-up-get-starter-deso/sign-up-get-starter-deso.component.ts:213-215 | the region code keeps its length, so it is empty exactly when the widget's code is; each lower-case ASCII letter becomes its own capital and every other character is kept |
| GetStarterDeso.FinishDecision | src/app/sign-up-get-starter-deso/sign-up-get-starter-deso.component.ts:320-344 | in derive mode the finish button navigates and never logs in; otherwise it logs in, passing the current verification outcome, exactly when the parent did not ask for the event only |
| GetStarterDeso.CompletedMeansConfirmed | src/app/sign-up-get-starter-deso/sign-up-get-starter-deso.component.ts:304-311 | for a user without a phone number, the completed screen implies the verified event fired and both the code submission and the transaction lookup were sent |
| GetStarterDeso.PhoneInputNeedsPublicKey | src/app/sign-up-get-starter-deso/sign-up-get-starter-deso.component.ts:87-126 | the phone widget exists only after a successful user lookup, which is made only with a non-empty public key; without one no text can be sent |
| GetStarterDeso.SignUpGetStarterDeso.constructor | src/app/sign-up-get-starter-deso/sign-up-get-starter-deso.component.ts:53-68 | no screen, flags false, no country code, idle cooldown, fresh error records, loading, no calls made |
| GetStarterDeso.SignUpGetStarterDeso.OnInit | src/app/sign-up-get-starter-deso/sign-up-get-starter-deso.component.ts:87-126 | with a public key the user lookup is requested; without one loading stops and nothing is sent |
| GetStarterDeso.SignUpGetStarterDeso.OnGetUsersSuccess | src/app/sign-up-get-starter-deso/sign-up-get-starter-deso.component.ts:91-101 | a non-empty user list stores the first user and shows the completed screen if it has a phone number, else the phone-number screen; an empty list leaves user and screen unchanged; loading stops and the widget may now be created |
| GetStarterDeso.SignUpGetStarterDeso.OnGetUsersError | src/app/sign-up-get-starter-deso/sign-up-get-starter-deso.component.ts:119-123 | a failed lookup only stops loading |
| GetStarterDeso.SignUpGetStarterDeso.OnPhoneInputRendered | src/app/sign-up-get-starter-deso/sign-up-get-starter-deso.component.ts:103-117 | the phone widget is created only after a successful user lookup; once it exists sending is possible |
| GetStarterDeso.SignUpGetStarterDeso.StartSendPhoneNumberVerificationText | src/app/sign-up-get-starter-deso/sign-up-get-starter-deso.component.ts:207-226 | stores the number and upper-cased region code; an empty region code returns before the sending flag is raised; otherwise the flag is raised and exactly one send request goes out |
| GetStarterDeso.SignUpGetStarterDeso.SendVerificationText | src/app/sign-up-get-starter-deso/sign-up-get-starter-deso.component.ts:139-147 | an invalid phone form changes nothing and sends nothing; a valid one sends as above and leaves the send errors as they were |
| GetStarterDeso.SignUpGetStarterDeso.ResendVerificationCode | src/app/sign-up-get-starter-deso/sign-up-get-starter-deso.component.ts:155-183 | always returns false; while the cooldown flag is set it changes nothing and sends nothing; otherwise it resets the send errors, sends, and starts the cooldown at 60 with the interval running |
| GetStarterDeso.SignUpGetStarterDeso.CooldownTick | src/app/sign-up-get-starter-deso/sign-up-get-starter-deso.component.ts:173-180 | the component's cooldown fields move exactly as `Cooldown.Tick` says, and nothing else changes |
| GetStarterDeso.SignUpGetStarterDeso.OnSendTextSuccess | src/app/sign-up-get-starter-deso/sign-up-get-starter-deso.component.ts:228-238 | a sent text shows the code screen and lowers the sending flag |
| GetStarterDeso.SignUpGetStarterDeso.OnSendTextError | src/app/sign-up-get-starter-deso/sign-up-get-starter-deso.component.ts:232-238 | a failed send records its classified error and lowers the sending flag |
| GetStarterDeso.SignUpGetStarterDeso.ParseSendPhoneNumberVerificationTextServerErrors | src/app/sign-up-get-starter-deso/sign-up-get-starter-deso.component.ts:241-262 | the parser's own if/else chain writes only the send-error record, and its new value is `RecordSendError` of the first-match classification |
| GetStarterDeso.SignUpGetStarterDeso.OnPhoneNumberInputChanged | src/app/sign-up-get-starter-deso/sign-up-get-starter-deso.component.ts:197-200 | editing the phone number resets only the send-error record to all false |
| GetStarterDeso.SignUpGetStarterDeso.BackButtonClickedOnSubmitVerificationScreen | src/app/sign-up-get-starter-deso/sign-up-get-starter-deso.component.ts:134-137 | the back button shows the phone-number screen |
| GetStarterDeso.SignUpGetStarterDeso.StartSubmitPhoneNumberVerificationCode | src/app/sign-up-get-starter-deso/sign-up-get-starter-deso.component.ts:285-301 | a missing or empty country code changes nothing; otherwise the submitting flag is raised, an empty code then throws "Verification code is required" with nothing sent, and a non-empty code is sent once |
| GetStarterDeso.SignUpGetStarterDeso.SubmitVerificationCode | src/app/sign-up-get-starter-deso/sign-up-get-starter-deso.component.ts:185-191 | an invalid code form changes nothing and sends nothing; a valid one submits as above |
| GetStarterDeso.SignUpGetStarterDeso.OnSubmitCodeSuccess | src/app/sign-up-get-starter-deso/sign-up-get-starter-deso.component.ts:303-317 | an accepted code requests the returned transaction from the mempool and lowers the submitting flag; the screen does not change yet |
| GetStarterDeso.SignUpGetStarterDeso.OnSubmitCodeError | src/app/sign-up-get-starter-deso/sign-up-get-starter-deso.component.ts:313-317 | a rejected code records its classified error and lowers the submitting flag |
| GetStarterDeso.SignUpGetStarterDeso.ParseSubmitPhoneNumberVerificationCodeServerErrors | src/app/sign-up-get-starter-deso/sign-up-get-starter-deso.component.ts:265-283 | the parser's own if/else chain writes only the submit-error record, and its new value is `RecordSubmitError` of the first-match classification |
| GetStarterDeso.SignUpGetStarterDeso.OnGetTxnSuccess | src/app/sign-up-get-starter-deso/sign-up-get-starter-deso.component.ts:304-311 | a found transaction shows the completed screen, fires `phoneNumberVerified` exactly once and records success; only possible after a code submission and a transaction lookup |
| GetStarterDeso.SignUpGetStarterDeso.OnVerificationCodeInputChanged | src/app/sign-up-get-starter-deso/sign-up-get-starter-deso.component.ts:202-205 | editing the code resets only the submit-error record to all false |
| GetStarterDeso.SignUpGetStarterDeso.FinishFlow | src/app/sign-up-get-starter-deso/sign-up-get-starter-deso.component.ts:320-344 | emits `finishFlowEvent` once and takes the action `FinishDecision` chooses from the derive mode, the event-only input and the current success flag |

## Left out

- Query-parameter handling in `ngOnInit` (lines 80-86) is not modelled: `getFreeDeso` and `public_key` from the URL only set inputs, so `publicKey` is a constructor argument.
- The `setTimeout` deferral and the `intlTelInput` options (lines 103-117) are not modelled. Only the widget's existence is kept (`phoneInputReady`). The "instance must be defined" throw (lines 208-210) is a precondition of the send.
- `checkIsValidPhoneNumber` and the form validators are not modelled. Their result comes in as the `phoneFormValid` and `codeFormValid` parameters. `codeFormValid` is not tied to `code != ""`, so the model also admits a valid form with an empty code, which `Validators.required` (line 50) excludes for an empty string.
- The `err?.error?.error` navigation is not modelled. The error is its text. A missing text (where optional chaining makes every test false, or where `.includes` on `undefined` throws) is not covered.
- `backendApi.stringifyError` is code outside this component. Its result is the `detail` parameter.
- GetStarterDeso.ToUpperCase: only ASCII letters are upper-cased (each to its own capital); other characters are kept. JavaScript's `toUpperCase` also maps non-ASCII letters, but region codes are two ASCII letters.
- HTTP transport, Observables and asynchrony are not modelled. Each callback is a method that runs to completion. Interleavings are not explored.
- A failed `GetTxn` (line 306) has no handler in the component, so nothing changes. It has no method here.
- `setInterval`/`clearInterval` scheduling and the one-second period are not modelled. The interval appears as a flag and each firing as `CooldownTick`. The component never cancels the interval on teardown.
- Router navigation arguments, the `identityService.login` payload other than `phoneNumberSuccess`, and `logInteractionEvent` are not modelled. `FinishFlow` returns which action it takes.
- `backToPreviousSignupStepOnClick`, `onSkipButtonClicked` and `cancelButtonClicked` are not modelled. They only emit an event or navigate and touch no state.
- Template-only inputs (`displayForSignupFlow`, `skipAppBanner`) are not modelled.
