/** The phone-number verification step of sign-up ("get starter DESO"): which screen is
    shown, the two in-flight flags, the resend cooldown, the server-error records and
    the outcome handed back to the surrounding flow. */
module GetStarterDeso {
  import opened Wrappers
  import opened ServerErrors
  import Cooldown

  /** The three screens; the component shows none (`null`) until the user is known. */
  datatype Screen =
    | CreatePhoneNumberVerification
    | SubmitPhoneNumberVerification
    | CompletedPhoneNumberVerification

  /** The part of a backend user record the component looks at. */
  datatype User = User(publicKeyBase58Check: string, hasPhoneNumber: bool)

  /** A request the component sends to the backend. */
  datatype Call =
    | GetUsersStateless(publicKeys: seq<string>)
    | SendPhoneNumberVerificationText(updaterPublicKey: string, phoneNumber: string, countryCode: string)
    | SubmitPhoneNumberVerificationCode(updaterPublicKey: string, phoneNumber: string,
                                        countryCode: string, verificationCode: string)
    | GetTxn(txnHashHex: string, txnStatus: string)

  /** How a handler ended: normally, or by throwing an `Error` with this message. */
  datatype Completion = Returned | Threw(message: string)

  /** What the finish button does besides emitting `finishFlowEvent`. */
  datatype FinishAction = NavigateToDerive | LogIn(phoneNumberSuccess: bool) | EmitOnly

  const VerificationCodeRequired := "Verification code is required"
  const InMempool := "InMempool"

  /** Upper-case form of an ASCII letter; other characters are kept. */
  function UpperChar(c: char): char
  {
    if 'a' <= c <= 'z' then (c as int - 'a' as int + 'A' as int) as char else c
  }

  /** `toUpperCase` on the two-letter ISO 3166 region code of the selected country. */
  function ToUpperCase(s: string): (r: string)
    ensures |r| == |s|
    ensures forall i :: 0 <= i < |s| ==> 'a' <= s[i] <= 'z' ==> r[i] as int == s[i] as int - 32
    ensures forall i :: 0 <= i < |s| ==> !('a' <= s[i] <= 'z') ==> r[i] == s[i]
  {
    seq(|s|, i requires 0 <= i < |s| => UpperChar(s[i]))
  }

  /** The finish button's choice: in key-derivation mode it navigates to the derive
      page and never logs in; otherwise it reports to the identity service, passing the
      verification outcome, unless the parent only wants the event. */
  function FinishDecision(derive: bool, finishFlowEventOnly: bool, phoneNumberSuccess: bool): (a: FinishAction)
    ensures a == NavigateToDerive <==> derive
    ensures a.LogIn? <==> !derive && !finishFlowEventOnly
    ensures a.LogIn? ==> a.phoneNumberSuccess == phoneNumberSuccess
    ensures a == EmitOnly <==> !derive && finishFlowEventOnly
  {
    if derive then NavigateToDerive
    else if !finishFlowEventOnly then LogIn(phoneNumberSuccess)
    else EmitOnly
  }

  class SignUpGetStarterDeso {
    // Inputs fixed by the parent component and the global settings.
    const publicKey: string
    const finishFlowEventOnly: bool
    const derive: bool

    var screenToShow: Option<Screen>
    var sendingPhoneNumberVerificationText: bool
    var submittingPhoneNumberVerificationCode: bool
    var phoneNumber: string
    var phoneNumberCountryCode: Option<string>
    var resentVerificationCode: bool
    var resentVerificationCodeTimeout: int
    var resentVerificationIntervalActive: bool
    var sendPhoneNumberVerificationTextServerErrors: SendErrors
    var submitPhoneNumberVerificationCodeServerErrors: SubmitErrors
    var user: Option<User>
    var loading: bool
    var isPhoneNumberSuccess: bool
    /** Whether the phone-number widget has been created on the rendered input. */
    var phoneInputReady: bool

    /** The backend requests sent so far, oldest first. */
    var calls: seq<Call>
    /** How often `phoneNumberVerified` and `finishFlowEvent` have been emitted. */
    var phoneNumberVerifiedEmitted: nat
    var finishFlowEmitted: nat

    /** Whether a verification text has ever been reported as sent. */
    ghost var textSendSucceeded: bool
    /** Whether the user lookup has answered successfully. */
    ghost var usersFetched: bool

    function CooldownState(): Cooldown.State
      reads this
    {
      Cooldown.State(resentVerificationCode, resentVerificationCodeTimeout, resentVerificationIntervalActive)
    }

    ghost predicate IssuedGetUsers()
      reads this
    {
      exists c :: c in calls && c.GetUsersStateless?
    }

    ghost predicate IssuedSendText()
      reads this
    {
      exists c :: c in calls && c.SendPhoneNumberVerificationText?
    }

    ghost predicate IssuedSubmitCode()
      reads this
    {
      exists c :: c in calls && c.SubmitPhoneNumberVerificationCode?
    }

    ghost predicate IssuedGetTxn()
      reads this
    {
      exists c :: c in calls && c.GetTxn?
    }

    /** The component's invariant. The phone widget exists only after a successful user
        lookup, which is only made with a public key. The submit screen is only reached by a sent text; the
        completed screen only for a user who already has a phone number or after a
        confirmed code; a confirmed code means a transaction lookup, which follows a
        code submission; `phoneNumberVerified` has fired exactly when the flow succeeded. */
    ghost predicate Valid()
      reads this
    {
      Cooldown.Valid(CooldownState()) &&
      (screenToShow == Some(SubmitPhoneNumberVerification) ==> textSendSucceeded) &&
      (screenToShow == Some(CompletedPhoneNumberVerification) ==>
         isPhoneNumberSuccess || (user.Some? && user.value.hasPhoneNumber)) &&
      (textSendSucceeded ==> IssuedSendText()) &&
      (phoneInputReady ==> usersFetched) &&
      (usersFetched ==> IssuedGetUsers()) &&
      (IssuedGetUsers() ==> publicKey != "") &&
      (isPhoneNumberSuccess <==> phoneNumberVerifiedEmitted > 0) &&
      (isPhoneNumberSuccess ==> IssuedGetTxn()) &&
      (IssuedGetTxn() ==> IssuedSubmitCode())
    }

    constructor (publicKey: string, finishFlowEventOnly: bool, derive: bool)
      ensures Valid()
      ensures this.publicKey == publicKey && this.finishFlowEventOnly == finishFlowEventOnly
      ensures this.derive == derive
      ensures screenToShow == None
      ensures !sendingPhoneNumberVerificationText && !submittingPhoneNumberVerificationCode
      ensures phoneNumber == "" && phoneNumberCountryCode == None
      ensures CooldownState() == Cooldown.Idle
      ensures sendPhoneNumberVerificationTextServerErrors == NoSendErrors
      ensures submitPhoneNumberVerificationCodeServerErrors == NoSubmitErrors
      ensures user == None && loading && !isPhoneNumberSuccess && !phoneInputReady
      ensures calls == [] && phoneNumberVerifiedEmitted == 0 && finishFlowEmitted == 0
    {
      this.publicKey := publicKey;
      this.finishFlowEventOnly := finishFlowEventOnly;
      this.derive := derive;
      screenToShow := None;
      sendingPhoneNumberVerificationText := false;
      submittingPhoneNumberVerificationCode := false;
      phoneNumber := "";
      phoneNumberCountryCode := None;
      resentVerificationCode := false;
      resentVerificationCodeTimeout := 0;
      resentVerificationIntervalActive := false;
      sendPhoneNumberVerificationTextServerErrors := NoSendErrors;
      submitPhoneNumberVerificationCodeServerErrors := NoSubmitErrors;
      user := None;
      loading := true;
      isPhoneNumberSuccess := false;
      phoneInputReady := false;
      calls := [];
      phoneNumberVerifiedEmitted := 0;
      finishFlowEmitted := 0;
      textSendSucceeded := false;
      usersFetched := false;
    }

    // -------------------------------------------------------------------------
    // Start-up: fetching the user

    /** With a public key, ask the backend for that user; without one, stop loading. */
    method OnInit()
      requires Valid()
      modifies this`calls, this`loading
      ensures Valid()
      ensures publicKey != "" ==> calls == old(calls) + [GetUsersStateless([publicKey])] && loading == old(loading)
      ensures publicKey == "" ==> calls == old(calls) && !loading
    {
      if publicKey != "" {
        calls := calls + [GetUsersStateless([publicKey])];
      } else {
        loading := false;
      }
    }

    /** The user lookup answered: a non-empty list decides the first screen by whether
        the user already has a phone number; an empty list leaves the screen alone. */
    method OnGetUsersSuccess(userList: seq<User>)
      requires Valid() && IssuedGetUsers()
      modifies this`user, this`screenToShow, this`loading, this`usersFetched
      ensures Valid()
      ensures |userList| > 0 ==> user == Some(userList[0])
      ensures |userList| > 0 && userList[0].hasPhoneNumber ==>
        screenToShow == Some(CompletedPhoneNumberVerification)
      ensures |userList| > 0 && !userList[0].hasPhoneNumber ==>
        screenToShow == Some(CreatePhoneNumberVerification)
      ensures |userList| == 0 ==> user == old(user) && screenToShow == old(screenToShow)
      ensures !loading && usersFetched
    {
      if |userList| > 0 {
        user := Some(userList[0]);
        if userList[0].hasPhoneNumber {
          screenToShow := Some(CompletedPhoneNumberVerification);
        } else {
          screenToShow := Some(CreatePhoneNumberVerification);
        }
      }
      loading := false;
      usersFetched := true;
    }

    /** The user lookup failed: the error is only logged. */
    method OnGetUsersError()
      requires Valid() && IssuedGetUsers()
      modifies this`loading
      ensures Valid() && !loading
    {
      loading := false;
    }

    /** The deferred callback after the user lookup found the phone input rendered and
        attached the phone-number widget to it. */
    method OnPhoneInputRendered()
      requires Valid() && usersFetched
      modifies this`phoneInputReady
      ensures Valid() && phoneInputReady
    {
      phoneInputReady := true;
    }

    // -------------------------------------------------------------------------
    // Sending the verification text

    /** The effect of the internal send: the widget's number and upper-cased region code
        are stored; an empty region code stops there, otherwise the sending flag is
        raised and the request goes out. */
    twostate predicate StartedSend(number: string, iso2: string)
      reads this
    {
      phoneNumber == number &&
      phoneNumberCountryCode == Some(ToUpperCase(iso2)) &&
      if iso2 == "" then
        sendingPhoneNumberVerificationText == old(sendingPhoneNumberVerificationText) &&
        calls == old(calls)
      else
        sendingPhoneNumberVerificationText &&
        calls == old(calls) + [SendPhoneNumberVerificationText(publicKey, number, ToUpperCase(iso2))]
    }

    /** The internal send; `number` and `iso2` are what the phone-number widget reports. */
    method StartSendPhoneNumberVerificationText(number: string, iso2: string)
      requires Valid() && phoneInputReady
      modifies this`phoneNumber, this`phoneNumberCountryCode,
               this`sendingPhoneNumberVerificationText, this`calls
      ensures Valid()
      ensures StartedSend(number, iso2)
    {
      phoneNumber := number;
      var countryCode := ToUpperCase(iso2);
      phoneNumberCountryCode := Some(countryCode);
      if countryCode == "" {
        return;
      }
      sendingPhoneNumberVerificationText := true;
      calls := calls + [SendPhoneNumberVerificationText(publicKey, phoneNumber, countryCode)];
    }

    /** The send button: an invalid phone form changes nothing; a valid one sends.
        The send-error record is not reset here. */
    method SendVerificationText(phoneFormValid: bool, number: string, iso2: string)
      requires Valid() && (phoneFormValid ==> phoneInputReady)
      modifies this`phoneNumber, this`phoneNumberCountryCode,
               this`sendingPhoneNumberVerificationText, this`calls
      ensures Valid()
      ensures !phoneFormValid ==>
        phoneNumber == old(phoneNumber) && phoneNumberCountryCode == old(phoneNumberCountryCode) &&
        sendingPhoneNumberVerificationText == old(sendingPhoneNumberVerificationText) &&
        calls == old(calls)
      ensures phoneFormValid ==> StartedSend(number, iso2)
    {
      if !phoneFormValid {
        return;
      }
      StartSendPhoneNumberVerificationText(number, iso2);
    }

    /** The resend link. It always returns false (the click's default is suppressed).
        While a resend cooldown runs it does nothing else; otherwise it clears the
        send errors, sends again and starts the 60-second cooldown, even when the send
        stopped early for an empty region code. */
    method ResendVerificationCode(number: string, iso2: string) returns (r: bool)
      requires Valid() && (!resentVerificationCode ==> phoneInputReady)
      modifies this`sendPhoneNumberVerificationTextServerErrors, this`phoneNumber,
               this`phoneNumberCountryCode, this`sendingPhoneNumberVerificationText, this`calls,
               this`resentVerificationCode, this`resentVerificationCodeTimeout,
               this`resentVerificationIntervalActive
      ensures Valid()
      ensures !r
      ensures old(resentVerificationCode) ==>
        sendPhoneNumberVerificationTextServerErrors == old(sendPhoneNumberVerificationTextServerErrors) &&
        phoneNumber == old(phoneNumber) && phoneNumberCountryCode == old(phoneNumberCountryCode) &&
        sendingPhoneNumberVerificationText == old(sendingPhoneNumberVerificationText) &&
        calls == old(calls) && CooldownState() == old(CooldownState())
      ensures !old(resentVerificationCode) ==>
        sendPhoneNumberVerificationTextServerErrors == NoSendErrors &&
        StartedSend(number, iso2) &&
        CooldownState() == Cooldown.Started
    {
      if resentVerificationCode {
        return false;
      }
      sendPhoneNumberVerificationTextServerErrors := NoSendErrors;
      StartSendPhoneNumberVerificationText(number, iso2);
      resentVerificationCode := true;
      resentVerificationCodeTimeout := Cooldown.ResendCooldownSeconds;
      resentVerificationIntervalActive := true;
      return false;
    }

    /** One firing of the cooldown interval: at 0 it clears the flag and cancels
        itself, otherwise it takes one second off the timeout. */
    method CooldownTick()
      requires Valid() && resentVerificationIntervalActive
      modifies this`resentVerificationCode, this`resentVerificationCodeTimeout,
               this`resentVerificationIntervalActive
      ensures Valid()
      ensures CooldownState() == Cooldown.Tick(old(CooldownState()))
    {
      if resentVerificationCodeTimeout == 0 {
        resentVerificationCode := false;
        resentVerificationIntervalActive := false;
      } else {
        resentVerificationCodeTimeout := resentVerificationCodeTimeout - 1;
      }
    }

    /** The text went out: show the code screen and lower the sending flag. */
    method OnSendTextSuccess()
      requires Valid() && IssuedSendText()
      modifies this`screenToShow, this`sendingPhoneNumberVerificationText, this`textSendSucceeded
      ensures Valid()
      ensures screenToShow == Some(SubmitPhoneNumberVerification)
      ensures !sendingPhoneNumberVerificationText
    {
      screenToShow := Some(SubmitPhoneNumberVerification);
      textSendSucceeded := true;
      sendingPhoneNumberVerificationText := false;
    }

    /** The send failed with backend text `message` (`detail` is its stringified form):
        record it and lower the sending flag. */
    method OnSendTextError(message: string, detail: string)
      requires Valid() && IssuedSendText()
      modifies this`sendPhoneNumberVerificationTextServerErrors, this`sendingPhoneNumberVerificationText
      ensures Valid()
      ensures sendPhoneNumberVerificationTextServerErrors ==
        RecordSendError(old(sendPhoneNumberVerificationTextServerErrors), ClassifySendError(message), detail)
      ensures !sendingPhoneNumberVerificationText
    {
      ParseSendPhoneNumberVerificationTextServerErrors(message, detail);
      sendingPhoneNumberVerificationText := false;
    }

    /** Sets the one field of the send-error record that the first matching fragment
        names, or stores the prefixed message when none matches. */
    method ParseSendPhoneNumberVerificationTextServerErrors(message: string, detail: string)
      requires Valid()
      modifies this`sendPhoneNumberVerificationTextServerErrors
      ensures Valid()
      ensures sendPhoneNumberVerificationTextServerErrors ==
        RecordSendError(old(sendPhoneNumberVerificationTextServerErrors), ClassifySendError(message), detail)
    {
      var e := sendPhoneNumberVerificationTextServerErrors;
      if Substrings.Contains(message, AlreadyInUseText) {
        sendPhoneNumberVerificationTextServerErrors := e.(phoneNumberAlreadyInUse := true);
      } else if Substrings.Contains(message, MaxSendAttemptsText) {
        sendPhoneNumberVerificationTextServerErrors := e.(maxSendAttemptsReached := true);
      } else if Substrings.Contains(message, VoipNotAllowedText) {
        sendPhoneNumberVerificationTextServerErrors := e.(voipNumberNotAllowed := true);
      } else if Substrings.Contains(message, ChinaVettingText) {
        sendPhoneNumberVerificationTextServerErrors := e.(chineseNumberNotAllowed := true);
      } else {
        sendPhoneNumberVerificationTextServerErrors :=
          e.(unknownError := UnknownMessage(SendUnknownPrefix + detail));
      }
    }

    /** Editing the phone number clears the send errors. */
    method OnPhoneNumberInputChanged()
      requires Valid()
      modifies this`sendPhoneNumberVerificationTextServerErrors
      ensures Valid()
      ensures sendPhoneNumberVerificationTextServerErrors == NoSendErrors
    {
      sendPhoneNumberVerificationTextServerErrors := NoSendErrors;
    }

    /** The back button on the code screen returns to the phone-number screen. */
    method BackButtonClickedOnSubmitVerificationScreen()
      requires Valid()
      modifies this`screenToShow
      ensures Valid()
      ensures screenToShow == Some(CreatePhoneNumberVerification)
    {
      screenToShow := Some(CreatePhoneNumberVerification);
    }

    // -------------------------------------------------------------------------
    // Submitting the verification code

    /** The effect of the internal submit: without a (non-empty) region code nothing
        happens; otherwise the submitting flag is raised, and an empty code then
        throws, while a non-empty one is sent. */
    twostate predicate StartedSubmit(code: string, c: Completion)
      reads this
    {
      if old(phoneNumberCountryCode) == None || old(phoneNumberCountryCode) == Some("") then
        c == Returned &&
        submittingPhoneNumberVerificationCode == old(submittingPhoneNumberVerificationCode) &&
        calls == old(calls)
      else if code == "" then
        c == Threw(VerificationCodeRequired) &&
        submittingPhoneNumberVerificationCode && calls == old(calls)
      else
        c == Returned && submittingPhoneNumberVerificationCode &&
        calls == old(calls) + [SubmitPhoneNumberVerificationCode(
          publicKey, phoneNumber, old(phoneNumberCountryCode).value, code)]
    }

    /** The internal submit; `code` is the code form's value. */
    method StartSubmitPhoneNumberVerificationCode(code: string) returns (c: Completion)
      requires Valid()
      modifies this`submittingPhoneNumberVerificationCode, this`calls
      ensures Valid()
      ensures StartedSubmit(code, c)
    {
      if phoneNumberCountryCode == None || phoneNumberCountryCode == Some("") {
        return Returned;
      }
      submittingPhoneNumberVerificationCode := true;
      if code == "" {
        return Threw(VerificationCodeRequired);
      }
      calls := calls + [SubmitPhoneNumberVerificationCode(
        publicKey, phoneNumber, phoneNumberCountryCode.value, code)];
      return Returned;
    }

    /** The submit button: an invalid code form changes nothing; a valid one submits. */
    method SubmitVerificationCode(codeFormValid: bool, code: string) returns (c: Completion)
      requires Valid()
      modifies this`submittingPhoneNumberVerificationCode, this`calls
      ensures Valid()
      ensures !codeFormValid ==>
        c == Returned && calls == old(calls) &&
        submittingPhoneNumberVerificationCode == old(submittingPhoneNumberVerificationCode)
      ensures codeFormValid ==> StartedSubmit(code, c)
    {
      if !codeFormValid {
        return Returned;
      }
      c := StartSubmitPhoneNumberVerificationCode(code);
    }

    /** The code was accepted: look the returned transaction up in the mempool and
        lower the submitting flag. */
    method OnSubmitCodeSuccess(txnHashHex: string)
      requires Valid() && IssuedSubmitCode()
      modifies this`calls, this`submittingPhoneNumberVerificationCode
      ensures Valid()
      ensures calls == old(calls) + [GetTxn(txnHashHex, InMempool)]
      ensures !submittingPhoneNumberVerificationCode
    {
      calls := calls + [GetTxn(txnHashHex, InMempool)];
      submittingPhoneNumberVerificationCode := false;
    }

    /** The code was rejected with backend text `message`: record it and lower the
        submitting flag. */
    method OnSubmitCodeError(message: string, detail: string)
      requires Valid() && IssuedSubmitCode()
      modifies this`submitPhoneNumberVerificationCodeServerErrors, this`submittingPhoneNumberVerificationCode
      ensures Valid()
      ensures submitPhoneNumberVerificationCodeServerErrors ==
        RecordSubmitError(old(submitPhoneNumberVerificationCodeServerErrors), ClassifySubmitError(message), detail)
      ensures !submittingPhoneNumberVerificationCode
    {
      ParseSubmitPhoneNumberVerificationCodeServerErrors(message, detail);
      submittingPhoneNumberVerificationCode := false;
    }

    /** Sets the one field of the submit-error record that the first matching fragment
        names, or stores the prefixed message when none matches. */
    method ParseSubmitPhoneNumberVerificationCodeServerErrors(message: string, detail: string)
      requires Valid()
      modifies this`submitPhoneNumberVerificationCodeServerErrors
      ensures Valid()
      ensures submitPhoneNumberVerificationCodeServerErrors ==
        RecordSubmitError(old(submitPhoneNumberVerificationCodeServerErrors), ClassifySubmitError(message), detail)
    {
      var e := submitPhoneNumberVerificationCodeServerErrors;
      if Substrings.Contains(message, InvalidParameterCodeText) {
        submitPhoneNumberVerificationCodeServerErrors := e.(invalidCode := true);
      } else if Substrings.Contains(message, RequestedResourceText) {
        submitPhoneNumberVerificationCodeServerErrors := e.(invalidCode := true);
      } else if Substrings.Contains(message, CodeNotValidText) {
        submitPhoneNumberVerificationCodeServerErrors := e.(invalidCode := true);
      } else if Substrings.Contains(message, MaxCheckAttemptsText) {
        submitPhoneNumberVerificationCodeServerErrors := e.(maxCheckAttemptsReached := true);
      } else {
        submitPhoneNumberVerificationCodeServerErrors :=
          e.(unknownError := UnknownMessage(SubmitUnknownPrefix + detail));
      }
    }

    /** The transaction was found in the mempool: the flow is complete. */
    method OnGetTxnSuccess()
      requires Valid() && IssuedGetTxn()
      modifies this`screenToShow, this`phoneNumberVerifiedEmitted, this`isPhoneNumberSuccess
      ensures Valid()
      ensures screenToShow == Some(CompletedPhoneNumberVerification)
      ensures phoneNumberVerifiedEmitted == old(phoneNumberVerifiedEmitted) + 1
      ensures isPhoneNumberSuccess
    {
      screenToShow := Some(CompletedPhoneNumberVerification);
      phoneNumberVerifiedEmitted := phoneNumberVerifiedEmitted + 1;
      isPhoneNumberSuccess := true;
    }

    /** Editing the code clears the submit errors. */
    method OnVerificationCodeInputChanged()
      requires Valid()
      modifies this`submitPhoneNumberVerificationCodeServerErrors
      ensures Valid()
      ensures submitPhoneNumberVerificationCodeServerErrors == NoSubmitErrors
    {
      submitPhoneNumberVerificationCodeServerErrors := NoSubmitErrors;
    }

    // -------------------------------------------------------------------------
    // Leaving the step

    /** The finish button: always emits `finishFlowEvent` first, then acts as
        `FinishDecision` says. */
    method FinishFlow() returns (action: FinishAction)
      requires Valid()
      modifies this`finishFlowEmitted
      ensures Valid()
      ensures finishFlowEmitted == old(finishFlowEmitted) + 1
      ensures action == FinishDecision(derive, finishFlowEventOnly, isPhoneNumberSuccess)
    {
      finishFlowEmitted := finishFlowEmitted + 1;
      if derive {
        return NavigateToDerive;
      }
      if !finishFlowEventOnly {
        return LogIn(isPhoneNumberSuccess);
      }
      return EmitOnly;
    }
  }

  /** A completed screen reached from a user without a phone number means the code was
      confirmed: the verification event has fired and both the code submission and the
      transaction lookup were sent. */
  lemma CompletedMeansConfirmed(c: SignUpGetStarterDeso)
    requires c.Valid()
    requires c.screenToShow == Some(CompletedPhoneNumberVerification)
    requires c.user.None? || !c.user.value.hasPhoneNumber
    ensures c.isPhoneNumberSuccess && c.phoneNumberVerifiedEmitted > 0
    ensures c.IssuedGetTxn() && c.IssuedSubmitCode()
  {
  }

  /** Without a public key no user lookup is made, so the phone widget is never created
      and no verification text can be sent. */
  lemma PhoneInputNeedsPublicKey(c: SignUpGetStarterDeso)
    requires c.Valid() && c.phoneInputReady
    ensures c.usersFetched && c.IssuedGetUsers() && c.publicKey != ""
  {
  }
}
