/**
 * The signup screen (app/signup.tsx): phone, full name and alias fields, and
 * a button that validates them, asks the server to text a code and passes
 * the name and alias on to the verification screen.
 */
module Signup {
  import opened Wrappers
  import opened Text
  import opened Phone
  import opened Alias
  import opened Api
  import opened Routing
  import opened Login

  const NameMessage := "Please enter your full name"
  const AliasMessage := "Please enter a valid alias"

  /**
   * The name and alias checks shared with the complete-profile screen: a
   * name that is blank once trimmed, then an alias shorter than two characters.
   */
  function NameAliasProblem(fullName: string, alias: string): (r: Option<string>)
    ensures r.None? <==> !AllSpace(fullName) && |alias| >= 2
    ensures AllSpace(fullName) ==> r == Some(NameMessage)
    ensures !AllSpace(fullName) && |alias| < 2 ==> r == Some(AliasMessage)
  {
    TrimBlank(fullName);
    if Trim(fullName) == [] then Some(NameMessage)
    else if alias == [] || |alias| < 2 then Some(AliasMessage)
    else None
  }

  /** The first failing check of `handleSignUp`, in the order the screen makes them. */
  function SignupProblem(phoneField: string, fullName: string, alias: string): (r: Option<string>)
    ensures r.None? <==> |Digits(phoneField)| == 10 && !AllSpace(fullName) && |alias| >= 2
    ensures |Digits(phoneField)| != 10 ==> r == Some(InvalidPhoneMessage)
    ensures |Digits(phoneField)| == 10 && AllSpace(fullName) ==> r == Some(NameMessage)
    ensures |Digits(phoneField)| == 10 && !AllSpace(fullName) && |alias| < 2 ==> r == Some(AliasMessage)
  {
    if |Digits(phoneField)| != 10 then Some(InvalidPhoneMessage)
    else NameAliasProblem(fullName, alias)
  }

  /** `handleSignUp`, given the server's reply to the code request. */
  function SignUp(phoneField: string, fullName: string, alias: string, reply: Reply<()>): (o: CodeOutcome)
    ensures o.NotSent? <==> SignupProblem(phoneField, fullName, alias).Some?
    ensures o.NotSent? ==> o.message == SignupProblem(phoneField, fullName, alias).value
    ensures !o.NotSent? ==> o.request == RequestCode("+1" + Digits(phoneField))
    ensures o.CodeSent? <==> SignupProblem(phoneField, fullName, alias).None? && reply.Ok?
    ensures o.CodeSent? ==> o.params == VerifyParams("+1" + Digits(phoneField), Some(Trim(fullName)),
                                                    Some(RemoveFirst(alias, '@')), SignupFlow)
    ensures o.SendFailed? ==> o.message == FailureMessage(reply, SendCodeFallback)
  {
    match SignupProblem(phoneField, fullName, alias)
    case Some(message) => NotSent(message)
    case None =>
      var e164 := MobileNumber(phoneField).value;
      if reply.Ok? then
        CodeSent(RequestCode(e164), VerifyParams(e164, Some(Trim(fullName)), Some(RemoveFirst(alias, '@')), SignupFlow))
      else SendFailed(RequestCode(e164), FailureMessage(reply, SendCodeFallback))
  }

  /**
   * For fields filled through the screen's own handlers, what reaches the
   * verification screen: the trimmed, non-blank name and the sanitised alias
   * without its leading '@', never empty.
   */
  lemma SignupParams(phone: string, name: string, aliasText: string, reply: Reply<()>)
    requires SignUp(DashFormat(phone), name, ForceAt(aliasText), reply).CodeSent?
    ensures var p := SignUp(DashFormat(phone), name, ForceAt(aliasText), reply).params;
            && p.phoneNumber == ToE164(phone) && |Digits(phone)| == 10
            && p.fullName.Some? && p.fullName.value != [] && !IsSpace(p.fullName.value[0])
            && !IsSpace(p.fullName.value[|p.fullName.value| - 1])
            && p.alias == Some(ForceAt(aliasText)[1..]) && p.alias.value != [] && AllIn(AliasChar, p.alias.value)
  {
    var alias := ForceAt(aliasText);
    var p := SignUp(DashFormat(phone), name, alias, reply).params;
    assert SignupProblem(DashFormat(phone), name, alias).None?;
    assert !AllSpace(name) && |alias| >= 2;
    DashFormatKeepsDigits(phone);
    assert Digits(DashFormat(phone)) == Digits(phone);
    E164Shape(phone);
    assert p.phoneNumber == ToE164(phone);
    TrimBlank(name);
    TrimEnds(name);
    ApiAliasOfForceAt(aliasText);
    assert p.alias == Some(alias[1..]);
    assert AllIn(AliasChar, alias[1..]);
  }

  /** The signup screen's state. */
  class Screen {
    var phoneNumber: string
    var fullName: string
    var alias: string
    var loading: bool
    var showToast: bool
    var toastMessage: string

    constructor()
      ensures phoneNumber == "" && fullName == "" && alias == ""
      ensures !loading && !showToast && toastMessage == ""
    {
      phoneNumber, fullName, alias := "", "", "";
      loading, showToast, toastMessage := false, false, "";
    }

    /** `handlePhoneChange`. */
    method PhoneChange(text: string)
      modifies this
      ensures phoneNumber == DashFormat(text)
      ensures fullName == old(fullName) && alias == old(alias)
      ensures loading == old(loading) && showToast == old(showToast) && toastMessage == old(toastMessage)
    {
      phoneNumber := DashFormat(text);
    }

    /** `setFullName`: the name is stored as typed. */
    method NameChange(text: string)
      modifies this
      ensures fullName == text
      ensures phoneNumber == old(phoneNumber) && alias == old(alias)
      ensures loading == old(loading) && showToast == old(showToast) && toastMessage == old(toastMessage)
    {
      fullName := text;
    }

    /** `handleAliasChange`. */
    method AliasChange(text: string)
      modifies this
      ensures alias == ForceAt(text)
      ensures phoneNumber == old(phoneNumber) && fullName == old(fullName)
      ensures loading == old(loading) && showToast == old(showToast) && toastMessage == old(toastMessage)
    {
      alias := ForceAt(text);
    }

    /** `handleSignUp` (the button is disabled while loading), given the reply to the code request. */
    method SignUpPressed(reply: Reply<()>) returns (sent: Option<Request>, next: Option<VerifyParams>)
      requires !loading
      modifies this
      ensures var o := SignUp(old(phoneNumber), old(fullName), old(alias), reply);
              && (o.NotSent? ==> sent.None? && next.None? && showToast && toastMessage == o.message)
              && (o.SendFailed? ==> sent == Some(o.request) && next.None? && showToast && toastMessage == o.message)
              && (o.CodeSent? ==> sent == Some(o.request) && next == Some(o.params)
                                  && showToast == old(showToast) && toastMessage == old(toastMessage))
      ensures phoneNumber == old(phoneNumber) && fullName == old(fullName) && alias == old(alias) && !loading
    {
      sent, next := None, None;
      ghost var o := SignUp(phoneNumber, fullName, alias, reply);
      var problem := SignupProblem(phoneNumber, fullName, alias);
      if problem.Some? {
        assert o == NotSent(problem.value);
        toastMessage := problem.value;
        showToast := true;
        return;
      }
      assert !o.NotSent?;
      loading := true;
      var e164Phone := MobileNumber(phoneNumber).value;
      sent := Some(RequestCode(e164Phone));
      if !reply.Ok? {
        toastMessage := FailureMessage(reply, SendCodeFallback);
        showToast := true;
        loading := false;
        return;
      }
      loading := false;
      next := Some(VerifyParams(e164Phone, Some(Trim(fullName)), Some(RemoveFirst(alias, '@')), SignupFlow));
    }
  }
}
