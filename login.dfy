/**
 * The login screen (app/login.tsx): one phone field formatted as it is
 * typed, and a button that asks the server to text a code to the number.
 * The signup screen repeats the same phone handling and reuses it from here.
 */
module Login {
  import opened Wrappers
  import opened Text
  import opened Phone
  import opened Api
  import opened Routing

  const InvalidPhoneMessage := "Please enter a valid 10-digit phone number"
  const SendCodeFallback := "Failed to send code"

  /**
   * The number a code is requested for: the field's digits in E.164 form
   * when there are exactly ten of them, nothing otherwise.
   */
  function MobileNumber(phoneField: string): (r: Option<string>)
    ensures r.Some? <==> |Digits(phoneField)| == 10
    ensures r.Some? ==> r.value == "+1" + Digits(phoneField)
    ensures r.Some? ==> |r.value| == 12 && AllIn(Digit, r.value[1..])
  {
    var cleaned := Digits(phoneField);
    if |cleaned| != 10 then None
    else
      KeepAllIn(Digit, cleaned);
      Some(ToE164(cleaned))
  }

  /** Formatting the field as it is typed never changes which number is sent. */
  lemma TypedNumberSent(text: string)
    ensures MobileNumber(DashFormat(text)) == MobileNumber(text)
  {
    DashFormatKeepsDigits(text);
  }

  /** A number typed in the field is sent exactly when its dashed form is the full "ddd-ddd-dddd". */
  lemma SentWhenComplete(text: string)
    ensures MobileNumber(DashFormat(text)).Some? <==> |Digits(text)| == 10
    ensures |Digits(text)| == 10 ==> |DashFormat(text)| == 12
  {
    TypedNumberSent(text);
  }

  /** What pressing a send-code button leads to. */
  datatype CodeOutcome =
    | NotSent(message: string)                        // a validation toast, no request
    | SendFailed(request: Request, message: string)   // the request went out; an error toast
    | CodeSent(request: Request, params: VerifyParams) // the request went out; on to the verification screen

  /** `handleSendCode`, given the server's reply to the request it sends. */
  function SendCode(phoneField: string, reply: Reply<()>): (o: CodeOutcome)
    ensures o.NotSent? <==> |Digits(phoneField)| != 10
    ensures o.NotSent? ==> o.message == InvalidPhoneMessage
    ensures !o.NotSent? ==> o.request == RequestCode("+1" + Digits(phoneField))
    ensures o.CodeSent? <==> |Digits(phoneField)| == 10 && reply.Ok?
    ensures o.CodeSent? ==> o.params == VerifyParams("+1" + Digits(phoneField), None, None, LoginFlow)
    ensures o.SendFailed? ==> o.message == FailureMessage(reply, SendCodeFallback)
  {
    match MobileNumber(phoneField)
    case None => NotSent(InvalidPhoneMessage)
    case Some(e164) =>
      if reply.Ok? then CodeSent(RequestCode(e164), VerifyParams(e164, None, None, LoginFlow))
      else SendFailed(RequestCode(e164), FailureMessage(reply, SendCodeFallback))
  }

  /** The login screen's state. */
  class Screen {
    var phoneNumber: string
    var loading: bool
    var showToast: bool
    var toastMessage: string

    constructor()
      ensures phoneNumber == "" && !loading && !showToast && toastMessage == ""
    {
      phoneNumber := "";
      loading := false;
      showToast := false;
      toastMessage := "";
    }

    /** `handlePhoneChange`: the field holds the dashed form of what was typed. */
    method PhoneChange(text: string)
      modifies this
      ensures phoneNumber == DashFormat(text)
      ensures loading == old(loading) && showToast == old(showToast) && toastMessage == old(toastMessage)
    {
      phoneNumber := DashFormat(text);
    }

    /** The toast's `onHide`. */
    method HideToast()
      modifies this
      ensures !showToast
      ensures phoneNumber == old(phoneNumber) && loading == old(loading) && toastMessage == old(toastMessage)
    {
      showToast := false;
    }

    /**
     * `handleSendCode` (the button is disabled while loading), given the
     * reply to the request: returns the request sent, if any, and the
     * parameters of the verification screen when it navigates there.
     */
    method SendCodePressed(reply: Reply<()>) returns (sent: Option<Request>, next: Option<VerifyParams>)
      requires !loading
      modifies this
      ensures var o := SendCode(old(phoneNumber), reply);
              && (o.NotSent? ==> sent.None? && next.None? && showToast && toastMessage == o.message)
              && (o.SendFailed? ==> sent == Some(o.request) && next.None? && showToast && toastMessage == o.message)
              && (o.CodeSent? ==> sent == Some(o.request) && next == Some(o.params)
                                  && showToast == old(showToast) && toastMessage == old(toastMessage))
      ensures phoneNumber == old(phoneNumber) && !loading
    {
      sent, next := None, None;
      var cleaned := Digits(phoneNumber);
      if |cleaned| != 10 {
        toastMessage := InvalidPhoneMessage;
        showToast := true;
        return;
      }
      loading := true;
      var e164Phone := ToE164(cleaned);
      sent := Some(RequestCode(e164Phone));
      if !reply.Ok? {
        toastMessage := FailureMessage(reply, SendCodeFallback);
        showToast := true;
        loading := false;
        return;
      }
      loading := false;
      next := Some(VerifyParams(e164Phone, None, None, LoginFlow));
    }
  }
}
