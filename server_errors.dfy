/** The two server-error records of the phone-number verification screen and the
    classification of the backend's error text (Twilio messages) into them. */
module ServerErrors {
  import opened Wrappers
  import opened Substrings

  /** The `unknownError` member, declared `boolean | string`: it is only ever
      `false` (nothing recorded) or a display message. */
  datatype UnknownError = NoUnknownError | UnknownMessage(text: string)

  /** `SendPhoneNumberVerificationTextServerErrors`: what went wrong sending the text. */
  datatype SendErrors = SendErrors(
    phoneNumberAlreadyInUse: bool,
    maxSendAttemptsReached: bool,
    voipNumberNotAllowed: bool,
    chineseNumberNotAllowed: bool,
    unknownError: UnknownError)

  /** `SubmitPhoneNumberVerificationCodeServerErrors`: what went wrong checking the code. */
  datatype SubmitErrors = SubmitErrors(
    invalidCode: bool,
    maxCheckAttemptsReached: bool,
    unknownError: UnknownError)

  /** A freshly constructed record: every flag false. */
  const NoSendErrors := SendErrors(false, false, false, false, NoUnknownError)
  const NoSubmitErrors := SubmitErrors(false, false, NoUnknownError)

  // Fragments of the backend's error text, as the parsers look for them.
  const AlreadyInUseText := "Phone number already in use"
  const MaxSendAttemptsText := "Max send attempts reached"        // Twilio error 60203
  const VoipNotAllowedText := "VOIP number not allowed"
  const ChinaVettingText := "Messages to China require use case vetting"  // Twilio error 60220
  const InvalidParameterCodeText := "Invalid parameter: Code"     // Twilio error 60200
  const RequestedResourceText := "requested resource"             // Twilio error 20404
  const CodeNotValidText := "Code is not valid"
  const MaxCheckAttemptsText := "Max check attempts reached"      // Twilio error 60202

  // Prefixes of the message kept when no fragment matches.
  const SendUnknownPrefix := "Error sending phone number verification text: "
  const SubmitUnknownPrefix := "Error submitting phone number verification code: "

  /** Which branch of the send-error parser a message takes. */
  datatype SendErrorKind =
    | PhoneNumberAlreadyInUse
    | MaxSendAttemptsReached
    | VoipNumberNotAllowed
    | ChineseNumberNotAllowed
    | UnknownSendError

  /** Which field of the submit-error record a message sets. */
  datatype SubmitErrorKind = InvalidCode | MaxCheckAttemptsReached | UnknownSubmitError

  /** The send-error parser's if/else chain: the first fragment found wins. */
  function ClassifySendError(message: string): (k: SendErrorKind)
    ensures k == PhoneNumberAlreadyInUse <==> Contains(message, AlreadyInUseText)
    ensures k == MaxSendAttemptsReached <==>
      !Contains(message, AlreadyInUseText) && Contains(message, MaxSendAttemptsText)
    ensures k == VoipNumberNotAllowed <==>
      !Contains(message, AlreadyInUseText) && !Contains(message, MaxSendAttemptsText) &&
      Contains(message, VoipNotAllowedText)
    ensures k == ChineseNumberNotAllowed <==>
      !Contains(message, AlreadyInUseText) && !Contains(message, MaxSendAttemptsText) &&
      !Contains(message, VoipNotAllowedText) && Contains(message, ChinaVettingText)
    ensures k == UnknownSendError <==>
      !Contains(message, AlreadyInUseText) && !Contains(message, MaxSendAttemptsText) &&
      !Contains(message, VoipNotAllowedText) && !Contains(message, ChinaVettingText)
  {
    if Contains(message, AlreadyInUseText) then PhoneNumberAlreadyInUse
    else if Contains(message, MaxSendAttemptsText) then MaxSendAttemptsReached
    else if Contains(message, VoipNotAllowedText) then VoipNumberNotAllowed
    else if Contains(message, ChinaVettingText) then ChineseNumberNotAllowed
    else UnknownSendError
  }

  /** The submit-error parser's if/else chain: three fragments mean a bad code, and
      "Max check attempts reached" counts only when none of them is present. */
  function ClassifySubmitError(message: string): (k: SubmitErrorKind)
    ensures k == InvalidCode <==>
      Contains(message, InvalidParameterCodeText) || Contains(message, RequestedResourceText) ||
      Contains(message, CodeNotValidText)
    ensures k == MaxCheckAttemptsReached <==>
      !Contains(message, InvalidParameterCodeText) && !Contains(message, RequestedResourceText) &&
      !Contains(message, CodeNotValidText) && Contains(message, MaxCheckAttemptsText)
    ensures k == UnknownSubmitError <==>
      !Contains(message, InvalidParameterCodeText) && !Contains(message, RequestedResourceText) &&
      !Contains(message, CodeNotValidText) && !Contains(message, MaxCheckAttemptsText)
  {
    if Contains(message, InvalidParameterCodeText) then InvalidCode
    else if Contains(message, RequestedResourceText) then InvalidCode
    else if Contains(message, CodeNotValidText) then InvalidCode
    else if Contains(message, MaxCheckAttemptsText) then MaxCheckAttemptsReached
    else UnknownSubmitError
  }

  // ---------------------------------------------------------------------------
  // Writing one field of a record

  /** The fields of the send-error record, by name. */
  datatype SendField = AlreadyInUseField | MaxSendField | VoipField | ChineseField | SendUnknownField

  datatype SubmitField = InvalidCodeField | MaxCheckField | SubmitUnknownField

  function SendFieldOf(k: SendErrorKind): SendField
  {
    match k
    case PhoneNumberAlreadyInUse => AlreadyInUseField
    case MaxSendAttemptsReached => MaxSendField
    case VoipNumberNotAllowed => VoipField
    case ChineseNumberNotAllowed => ChineseField
    case UnknownSendError => SendUnknownField
  }

  function SubmitFieldOf(k: SubmitErrorKind): SubmitField
  {
    match k
    case InvalidCode => InvalidCodeField
    case MaxCheckAttemptsReached => MaxCheckField
    case UnknownSubmitError => SubmitUnknownField
  }

  /** The fields in which two send-error records differ. */
  function SendFieldsChanged(a: SendErrors, b: SendErrors): set<SendField>
  {
    (if a.phoneNumberAlreadyInUse != b.phoneNumberAlreadyInUse then {AlreadyInUseField} else {}) +
    (if a.maxSendAttemptsReached != b.maxSendAttemptsReached then {MaxSendField} else {}) +
    (if a.voipNumberNotAllowed != b.voipNumberNotAllowed then {VoipField} else {}) +
    (if a.chineseNumberNotAllowed != b.chineseNumberNotAllowed then {ChineseField} else {}) +
    (if a.unknownError != b.unknownError then {SendUnknownField} else {})
  }

  /** The fields in which two submit-error records differ. */
  function SubmitFieldsChanged(a: SubmitErrors, b: SubmitErrors): set<SubmitField>
  {
    (if a.invalidCode != b.invalidCode then {InvalidCodeField} else {}) +
    (if a.maxCheckAttemptsReached != b.maxCheckAttemptsReached then {MaxCheckField} else {}) +
    (if a.unknownError != b.unknownError then {SubmitUnknownField} else {})
  }

  /** The record after the parser has handled one failure of kind `k`; `detail` is what
      the backend service's `stringifyError` made of the error. */
  function RecordSendError(e: SendErrors, k: SendErrorKind, detail: string): (r: SendErrors)
    ensures SendFieldsChanged(e, r) <= {SendFieldOf(k)}
    ensures k == PhoneNumberAlreadyInUse ==> r.phoneNumberAlreadyInUse
    ensures k == MaxSendAttemptsReached ==> r.maxSendAttemptsReached
    ensures k == VoipNumberNotAllowed ==> r.voipNumberNotAllowed
    ensures k == ChineseNumberNotAllowed ==> r.chineseNumberNotAllowed
    ensures k == UnknownSendError ==> r.unknownError == UnknownMessage(SendUnknownPrefix + detail)
  {
    match k
    case PhoneNumberAlreadyInUse => e.(phoneNumberAlreadyInUse := true)
    case MaxSendAttemptsReached => e.(maxSendAttemptsReached := true)
    case VoipNumberNotAllowed => e.(voipNumberNotAllowed := true)
    case ChineseNumberNotAllowed => e.(chineseNumberNotAllowed := true)
    case UnknownSendError => e.(unknownError := UnknownMessage(SendUnknownPrefix + detail))
  }

  /** The record after the parser has handled one failure of kind `k`. */
  function RecordSubmitError(e: SubmitErrors, k: SubmitErrorKind, detail: string): (r: SubmitErrors)
    ensures SubmitFieldsChanged(e, r) <= {SubmitFieldOf(k)}
    ensures k == InvalidCode ==> r.invalidCode
    ensures k == MaxCheckAttemptsReached ==> r.maxCheckAttemptsReached
    ensures k == UnknownSubmitError ==> r.unknownError == UnknownMessage(SubmitUnknownPrefix + detail)
  {
    match k
    case InvalidCode => e.(invalidCode := true)
    case MaxCheckAttemptsReached => e.(maxCheckAttemptsReached := true)
    case UnknownSubmitError => e.(unknownError := UnknownMessage(SubmitUnknownPrefix + detail))
  }

  // ---------------------------------------------------------------------------
  // An independent statement of "first match wins": a table of fragments

  /** The kind of the first rule whose fragment occurs in `message`, if any. */
  function FirstMatch<K>(rules: seq<(string, K)>, message: string): Option<K>
  {
    if |rules| == 0 then None
    else if Contains(message, rules[0].0) then Some(rules[0].1)
    else FirstMatch(rules[1..], message)
  }

  /** `FirstMatch` yields the kind of the lowest-numbered matching rule, and nothing
      exactly when no rule matches. */
  lemma {:induction false} FirstMatchIsLeastIndex<K>(rules: seq<(string, K)>, message: string, i: int)
    requires 0 <= i < |rules| && Contains(message, rules[i].0)
    requires forall j :: 0 <= j < i ==> !Contains(message, rules[j].0)
    ensures FirstMatch(rules, message) == Some(rules[i].1)
  {
    if i > 0 {
      assert !Contains(message, rules[0].0);
      FirstMatchIsLeastIndex(rules[1..], message, i - 1);
    }
  }

  lemma {:induction false} FirstMatchNone<K>(rules: seq<(string, K)>, message: string)
    ensures FirstMatch(rules, message) == None <==>
      forall j :: 0 <= j < |rules| ==> !Contains(message, rules[j].0)
  {
    if |rules| > 0 {
      FirstMatchNone(rules[1..], message);
      assert forall j :: 1 <= j < |rules| ==> rules[j] == rules[1..][j - 1];
    }
  }

  /** The send-error fragments in the order the parser tests them. */
  const SendErrorRules: seq<(string, SendErrorKind)> := [
    (AlreadyInUseText, PhoneNumberAlreadyInUse),
    (MaxSendAttemptsText, MaxSendAttemptsReached),
    (VoipNotAllowedText, VoipNumberNotAllowed),
    (ChinaVettingText, ChineseNumberNotAllowed)
  ]

  /** The submit-error fragments in the order the parser tests them. */
  const SubmitErrorRules: seq<(string, SubmitErrorKind)> := [
    (InvalidParameterCodeText, InvalidCode),
    (RequestedResourceText, InvalidCode),
    (CodeNotValidText, InvalidCode),
    (MaxCheckAttemptsText, MaxCheckAttemptsReached)
  ]

  /** The send-error chain is the first-match rule over its table, with the unknown
      error as the fallback. */
  lemma ClassifySendErrorIsFirstMatch(message: string)
    ensures ClassifySendError(message) ==
      match FirstMatch(SendErrorRules, message)
      case Some(k) => k
      case None => UnknownSendError
  {
    var rules := SendErrorRules;
    FirstMatchNone(rules, message);
    var k := ClassifySendError(message);
    if k != UnknownSendError {
      var i := match k
        case PhoneNumberAlreadyInUse => 0
        case MaxSendAttemptsReached => 1
        case VoipNumberNotAllowed => 2
        case ChineseNumberNotAllowed => 3
        case UnknownSendError => 0;
      FirstMatchIsLeastIndex(rules, message, i);
    }
  }

  /** The submit-error chain is the first-match rule over its table, with the unknown
      error as the fallback. */
  lemma ClassifySubmitErrorIsFirstMatch(message: string)
    ensures ClassifySubmitError(message) ==
      match FirstMatch(SubmitErrorRules, message)
      case Some(k) => k
      case None => UnknownSubmitError
  {
    var rules := SubmitErrorRules;
    FirstMatchNone(rules, message);
    if Contains(message, InvalidParameterCodeText) {
      FirstMatchIsLeastIndex(rules, message, 0);
    } else if Contains(message, RequestedResourceText) {
      FirstMatchIsLeastIndex(rules, message, 1);
    } else if Contains(message, CodeNotValidText) {
      FirstMatchIsLeastIndex(rules, message, 2);
    } else if Contains(message, MaxCheckAttemptsText) {
      FirstMatchIsLeastIndex(rules, message, 3);
    }
  }

  // ---------------------------------------------------------------------------
  // Consequences stated over whole messages

  /** A message carrying "Max send attempts reached" (and not the higher-priority
      "already in use" text) sets exactly that flag on a fresh record. */
  lemma MaxSendAttemptsOnFreshRecord(message: string, detail: string)
    requires Contains(message, MaxSendAttemptsText) && !Contains(message, AlreadyInUseText)
    ensures RecordSendError(NoSendErrors, ClassifySendError(message), detail) ==
      NoSendErrors.(maxSendAttemptsReached := true)
  {
  }

  /** A Twilio "not found" message is classified as an invalid code, not an unknown error. */
  lemma RequestedResourceNotFoundIsInvalidCode()
    ensures ClassifySubmitError("Error: requested resource was not found") == InvalidCode
  {
    var m := "Error: requested resource was not found";
    var before, after := "Error: ", " was not found";
    assert m == before + RequestedResourceText + after;
    assert m[|before|..|before| + |RequestedResourceText|] == RequestedResourceText;
    ContainsAt(m, RequestedResourceText, 7);
  }

  /** The records are not kept to one flag: the send button does not reset the record,
      so two failures in a row with different texts leave two flags set. */
  lemma TwoFailuresCanSetTwoFlags()
    ensures var first := RecordSendError(NoSendErrors, ClassifySendError(MaxSendAttemptsText), "");
            var second := RecordSendError(first, ClassifySendError(VoipNotAllowedText), "");
            second.maxSendAttemptsReached && second.voipNumberNotAllowed
  {
    assert MaxSendAttemptsText <= MaxSendAttemptsText;
    assert VoipNotAllowedText <= VoipNotAllowedText;
  }
}
