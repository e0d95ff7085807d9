/**
 * The verification screen (app/verify-sms.tsx): six one-character code
 * slots, automatic verification once the last slot fills, the verify and
 * resend buttons, and the mapping from the server's reply to the session
 * record.
 */
module VerifySms {
  import opened Wrappers
  import opened Text
  import opened Alias
  import opened Api
  import opened Session
  import opened Routing

  const CodeLength := 6
  const EmptyCode: seq<string> := ["", "", "", "", "", ""]
  const PlaceholderAvatar := "https://i.pravatar.cc/150?img=12"
  const DefaultAlias := "@user"
  const DefaultName := "User"
  const IncompleteMessage := "Please enter the complete 6-digit code"
  const VerifyFallback := "Invalid verification code"
  const CreateUserFallback := "Failed to create user account"
  const ResentMessage := "Verification code resent!"
  const ResendFallback := "Failed to resend code"

  /** What a slot keeps of a change: the last character when more than one arrives. */
  function SlotText(text: string): (r: string)
    ensures |r| <= 1
    ensures r == [] <==> text == []
    ensures r != [] ==> r[0] == text[|text| - 1]
  {
    if |text| > 1 then [text[|text| - 1]] else text
  }

  /** The shape the slots always have: six of them, none longer than one character. */
  predicate Slots(code: seq<string>) {
    |code| == CodeLength && forall i :: 0 <= i < |code| ==> |code[i]| <= 1
  }

  /** `newCode = [...code]; newCode[index] = text` after the last-character rule. */
  function WriteSlot(code: seq<string>, index: nat, text: string): (r: seq<string>)
    requires index < |code|
    ensures |r| == |code|
    ensures r[index] == SlotText(text)
    ensures forall i :: 0 <= i < |code| && i != index ==> r[i] == code[i]
    ensures Slots(code) ==> Slots(r)
  {
    code[index := SlotText(text)]
  }

  /** `code.every(digit => digit)`. */
  predicate Filled(code: seq<string>) {
    forall i :: 0 <= i < |code| ==> code[i] != []
  }

  /** `code.join('')`. */
  function Joined(code: seq<string>): string {
    if code == [] then "" else code[0] + Joined(code[1..])
  }

  /** With slots of at most one character, the joined code is full length exactly when every slot is filled. */
  lemma {:induction false} JoinedLength(code: seq<string>)
    requires forall i :: 0 <= i < |code| ==> |code[i]| <= 1
    ensures |Joined(code)| <= |code|
    ensures |Joined(code)| == |code| <==> Filled(code)
  {
    if code != [] {
      JoinedLength(code[1..]);
      if Filled(code[1..]) && code[0] != [] {
        forall i | 0 <= i < |code| ensures code[i] != [] {
          if i > 0 {
            assert code[i] == code[1..][i - 1];
          }
        }
      }
      if Filled(code) {
        assert Filled(code[1..]) by {
          forall i | 0 <= i < |code[1..]| ensures code[1..][i] != [] {
            assert code[1..][i] == code[i + 1];
          }
        }
      }
    }
  }

  /** For well-shaped slots, the joined code has six characters exactly when every slot is filled. */
  lemma JoinedFull(code: seq<string>)
    ensures Slots(code) ==> (|Joined(code)| == CodeLength <==> Filled(code))
  {
    if Slots(code) {
      JoinedLength(code);
    }
  }

  /**
   * Auto-verify: a non-empty change to the last slot that leaves every slot
   * filled, which for well-shaped slots is a joined code of six characters.
   */
  predicate AutoVerifies(newCode: seq<string>, index: nat, text: string): (b: bool)
    ensures b ==> text != [] && index == CodeLength - 1
    ensures Slots(newCode) ==> (b <==> text != [] && index == CodeLength - 1 && |Joined(newCode)| == CodeLength)
  {
    JoinedFull(newCode);
    text != [] && index == CodeLength - 1 && Filled(newCode)
  }

  /**
   * `disabled={loading || code.some(digit => !digit)}`, negated: for
   * well-shaped slots, enabled exactly when not loading and the joined code
   * has six characters.
   */
  predicate VerifyEnabled(loading: bool, code: seq<string>): (b: bool)
    ensures b ==> !loading
    ensures Slots(code) ==> (b <==> !loading && |Joined(code)| == CodeLength)
  {
    JoinedFull(code);
    !loading && Filled(code)
  }

  /**
   * `verificationCode || code.join('')`: a code passed by the auto-verify
   * path wins; otherwise the slots are joined, six characters exactly when
   * every slot is filled.
   */
  function CodeToVerify(verificationCode: Option<string>, code: seq<string>): (r: string)
    ensures Truthy(verificationCode) ==> r == verificationCode.value
    ensures !Truthy(verificationCode) ==> r == Joined(code)
    ensures !Truthy(verificationCode) && Slots(code) ==> (|r| == CodeLength <==> Filled(code))
  {
    JoinedFull(code);
    Or(verificationCode, Joined(code))
  }

  /** The session record of an existing user (and of a returning user on the signup flow). */
  function LoginUser(params: VerifyParams, info: ProfileInfo): (u: User)
    ensures u.id == info.id && u.phoneNumber == params.phoneNumber
    ensures |u.alias| >= 1 && u.alias[0] == '@'
    ensures Truthy(info.alias) ==> u.alias[1..] == info.alias.value
    ensures !Truthy(info.alias) ==> u.alias == DefaultAlias
    ensures u.fullName.Some? && u.fullName.value != []
    ensures Truthy(info.fullName) ==> u.fullName == info.fullName
    ensures !Truthy(info.fullName) ==> u.fullName == Some(DefaultName)
    ensures u.avatar.Some? && u.avatar.value != []
    ensures Truthy(info.avatarUrl) ==> u.avatar == info.avatarUrl
    ensures !Truthy(info.avatarUrl) ==> u.avatar == Some(PlaceholderAvatar)
    ensures u.token.None? && u.profileComplete.None?
  {
    User(info.id, params.phoneNumber,
         if Truthy(info.alias) then "@" + info.alias.value else DefaultAlias,
         Some(Or(info.fullName, DefaultName)),
         Some(Or(info.avatarUrl, PlaceholderAvatar)),
         None, None)
  }

  /** The session record of a user just created on the signup flow. */
  function SignupUser(params: VerifyParams, info: ProfileInfo): (u: User)
    ensures u.id == info.id && u.phoneNumber == params.phoneNumber
    ensures Truthy(info.alias) ==> u.alias == "@" + info.alias.value
    ensures !Truthy(info.alias) && Truthy(params.alias) ==> u.alias == params.alias.value
    ensures !Truthy(info.alias) && !Truthy(params.alias) ==> u.alias == DefaultAlias
    ensures u.alias != []
    ensures u.fullName.Some? && u.fullName.value != []
    ensures Truthy(info.fullName) ==> u.fullName == info.fullName
    ensures !Truthy(info.fullName) && Truthy(params.fullName) ==> u.fullName == params.fullName
    ensures !Truthy(info.fullName) && !Truthy(params.fullName) ==> u.fullName == Some(DefaultName)
    ensures u.avatar.Some? && u.avatar.value != []
    ensures Truthy(info.avatarUrl) ==> u.avatar == info.avatarUrl
    ensures !Truthy(info.avatarUrl) ==> u.avatar == Some(PlaceholderAvatar)
    ensures u.token.None? && u.profileComplete.None?
  {
    User(info.id, params.phoneNumber,
         if Truthy(info.alias) then "@" + info.alias.value else Or(params.alias, DefaultAlias),
         Some(Or(OrElse(info.fullName, params.fullName), DefaultName)),
         Some(Or(info.avatarUrl, PlaceholderAvatar)),
         None, None)
  }

  /**
   * The signup screen passes on its sanitised alias minus the leading '@'.
   * When the create-user reply has no alias, the session keeps that value as
   * it is, without the '@' the login mapping puts in front of a server
   * alias: it holds one '@' fewer than the alias field, so none at all
   * unless the typed text held two or more.
   */
  lemma SignupFallbackAlias(phoneNumber: string, fullName: Option<string>, aliasText: string, info: ProfileInfo)
    requires !Truthy(info.alias) && |ForceAt(aliasText)| >= 2
    ensures var u := SignupUser(VerifyParams(phoneNumber, fullName, Some(RemoveFirst(ForceAt(aliasText), '@')), SignupFlow), info);
            && u.alias == ForceAt(aliasText)[1..]
            && multiset(u.alias)['@'] == multiset(ForceAt(aliasText))['@'] - 1
            && (multiset(aliasText)['@'] <= 1 <==> '@' !in u.alias)
    ensures LoginUser(VerifyParams(phoneNumber, None, None, LoginFlow), info).alias == DefaultAlias
  {
    ApiAliasOfForceAt(aliasText);
    ApiAliasAtCount(aliasText);
  }

  /** How a verification attempt ends. */
  datatype Outcome =
    | Incomplete               // the code is not six characters: a toast, no request
    | Failure(message: string) // a request failed: a toast and the slots cleared
    | SignedUp(user: User)     // a new account was created and stored
    | LoggedIn(user: User)     // an existing account was stored

  /** The requests an attempt sent, in order, and how it ended. */
  datatype Attempt = Attempt(sent: seq<Request>, outcome: Outcome)

  /**
   * `handleVerify` with the code it checks, given the replies to the
   * verify-code request and (on the signup flow, for a new user) to the
   * create-user request.
   */
  function Verify(params: VerifyParams, codeToVerify: string,
                  verifyReply: Reply<VerifyBody>, createReply: Reply<CreateUserBody>): (a: Attempt)
    ensures a.outcome.Incomplete? <==> |codeToVerify| != CodeLength
    ensures a.outcome.Incomplete? ==> a.sent == []
    ensures !a.outcome.Incomplete? ==> 1 <= |a.sent| <= 2 && a.sent[0] == VerifyCode(params.phoneNumber, codeToVerify)
    ensures |a.sent| == 2 <==> |codeToVerify| == CodeLength && verifyReply.Ok?
                               && params.flow == SignupFlow && verifyReply.body.isNewUser
    ensures |a.sent| == 2 ==> a.sent[1] == CreateUser(verifyReply.body.token, params.fullName, params.alias)
    ensures a.outcome.LoggedIn? <==> |codeToVerify| == CodeLength && verifyReply.Ok?
                                     && !(params.flow == SignupFlow && verifyReply.body.isNewUser)
    ensures a.outcome.SignedUp? <==> |a.sent| == 2 && createReply.Ok?
    ensures a.outcome.Failure? && |a.sent| == 1 ==> a.outcome.message == FailureMessage(verifyReply, VerifyFallback)
    ensures a.outcome.Failure? && |a.sent| == 2 ==> a.outcome.message == FailureMessage(createReply, CreateUserFallback)
    ensures a.outcome.LoggedIn? ==>
              verifyReply.Ok? && a.outcome.user == LoginUser(params, UserOr(verifyReply.body.user, verifyReply.body.root))
    ensures a.outcome.SignedUp? ==>
              createReply.Ok? && a.outcome.user == SignupUser(params, UserOr(createReply.body.user, createReply.body.root))
    ensures a.outcome.LoggedIn? || a.outcome.SignedUp? ==>
              a.outcome.user.phoneNumber == params.phoneNumber && a.outcome.user.token.None?
  {
    if |codeToVerify| != CodeLength then Attempt([], Incomplete)
    else
      var verifyRequest := VerifyCode(params.phoneNumber, codeToVerify);
      match verifyReply
      case Rejected(_) => Attempt([verifyRequest], Failure(FailureMessage(verifyReply, VerifyFallback)))
      case Failed(_) => Attempt([verifyRequest], Failure(FailureMessage(verifyReply, VerifyFallback)))
      case Ok(verifyData) =>
        if params.flow == SignupFlow && verifyData.isNewUser then
          var sent := [verifyRequest, CreateUser(verifyData.token, params.fullName, params.alias)];
          match createReply
          case Rejected(_) => Attempt(sent, Failure(FailureMessage(createReply, CreateUserFallback)))
          case Failed(_) => Attempt(sent, Failure(FailureMessage(createReply, CreateUserFallback)))
          case Ok(createData) => Attempt(sent, SignedUp(SignupUser(params, UserOr(createData.user, createData.root))))
        else
          Attempt([verifyRequest], LoggedIn(LoginUser(params, UserOr(verifyData.user, verifyData.root))))
  }

  /** The automatic verification always checks six characters: its length check never fails. */
  lemma AutoVerifyComplete(code: seq<string>, index: nat, text: string)
    requires Slots(code) && index < CodeLength
    ensures var newCode := WriteSlot(code, index, SlotText(text));
            AutoVerifies(newCode, index, SlotText(text)) ==> |Joined(newCode)| == CodeLength
  {
    var newCode := WriteSlot(code, index, SlotText(text));
    JoinedLength(newCode);
  }

  /** Nor does the button's, since it is enabled only when every slot is filled. */
  lemma ButtonVerifyComplete(loading: bool, code: seq<string>)
    requires Slots(code) && VerifyEnabled(loading, code)
    ensures |CodeToVerify(None, code)| == CodeLength
  {
    JoinedLength(code);
  }

  /** Automatic and button verification of the same slots send the same requests and end the same way. */
  lemma AutoAndButtonAgree(params: VerifyParams, code: seq<string>,
                           verifyReply: Reply<VerifyBody>, createReply: Reply<CreateUserBody>)
    requires Slots(code) && Filled(code)
    ensures Verify(params, CodeToVerify(Some(Joined(code)), code), verifyReply, createReply)
         == Verify(params, CodeToVerify(None, code), verifyReply, createReply)
    ensures !Verify(params, CodeToVerify(None, code), verifyReply, createReply).outcome.Incomplete?
  {
    JoinedLength(code);
  }

  /** The slots after typing `chars` one character per slot, from the first slot on. */
  function Typed(chars: string): (code: seq<string>)
    requires |chars| <= CodeLength
    ensures Slots(code)
  {
    if chars == [] then EmptyCode
    else WriteSlot(Typed(chars[..|chars| - 1]), |chars| - 1, [chars[|chars| - 1]])
  }

  /** Each typed character sits in its own slot; the slots after it are still empty. */
  lemma {:induction false} TypedSlots(chars: string)
    requires |chars| <= CodeLength
    ensures forall i :: 0 <= i < |chars| ==> Typed(chars)[i] == [chars[i]]
    ensures forall i :: |chars| <= i < CodeLength ==> Typed(chars)[i] == []
  {
    if chars != [] {
      var prefix := chars[..|chars| - 1];
      TypedSlots(prefix);
      forall i | 0 <= i < |chars| - 1 ensures Typed(chars)[i] == [chars[i]] {
        assert prefix[i] == chars[i];
      }
    }
  }

  /** Slots holding one character each join back to those characters. */
  lemma {:induction false} JoinedSingles(code: seq<string>, chars: string)
    requires |code| == |chars| && forall i :: 0 <= i < |code| ==> code[i] == [chars[i]]
    ensures Joined(code) == chars
  {
    if code != [] {
      JoinedSingles(code[1..], chars[1..]);
      assert chars == [chars[0]] + chars[1..];
    }
  }

  /**
   * Typing six characters into the slots in order triggers no verification
   * before the last one, and the last one verifies exactly those characters.
   */
  lemma TypingSixCharacters(chars: string)
    requires |chars| == CodeLength
    ensures forall k :: 0 <= k < CodeLength - 1 ==> !AutoVerifies(Typed(chars[..k + 1]), k, [chars[k]])
    ensures AutoVerifies(Typed(chars), CodeLength - 1, [chars[CodeLength - 1]])
    ensures Joined(Typed(chars)) == chars
  {
    TypedSlots(chars);
    JoinedSingles(Typed(chars), chars);
  }

  /** The toast is styled as a success exactly when its message contains "resent". */
  predicate SuccessToast(message: string) {
    Includes(message, "resent")
  }

  lemma ResentIsSuccess()
    ensures SuccessToast(ResentMessage)
  {
    IncludesAt(ResentMessage, "resent", 18);
  }

  /** The verification screen's state; `params` are its route parameters. */
  class Screen {
    const params: VerifyParams
    var code: seq<string>
    var loading: bool
    var showToast: bool
    var toastMessage: string

    ghost predicate Valid()
      reads this
    {
      Slots(code)
    }

    constructor(params: VerifyParams)
      ensures this.params == params && code == EmptyCode && Valid()
      ensures !loading && !showToast && toastMessage == ""
    {
      this.params := params;
      code := EmptyCode;
      loading, showToast, toastMessage := false, false, "";
    }

    /**
     * `handleVerify(verificationCode)`, given the replies: returns the
     * requests sent and the route it replaces the screen with, if any.
     */
    method VerifyPressed(verificationCode: Option<string>, auth: AuthStore,
                         verifyReply: Reply<VerifyBody>, createReply: Reply<CreateUserBody>)
      returns (sent: seq<Request>, next: Option<string>)
      requires Valid()
      modifies this, auth
      ensures Valid()
      ensures var a := Verify(params, CodeToVerify(verificationCode, old(code)), verifyReply, createReply);
              && sent == a.sent
              && (a.outcome.Incomplete? ==> showToast && toastMessage == IncompleteMessage && code == old(code)
                                            && auth.user == old(auth.user) && next.None? && loading == old(loading))
              && (!a.outcome.Incomplete? ==> !loading)
              && (a.outcome.Failure? ==> showToast && toastMessage == a.outcome.message && code == EmptyCode
                                         && auth.user == old(auth.user) && next.None?)
              && (a.outcome.SignedUp? || a.outcome.LoggedIn? ==>
                    auth.user == Some(a.outcome.user) && next == Some(TabsRoute) && code == old(code)
                    && showToast == old(showToast) && toastMessage == old(toastMessage))
    {
      sent, next := [], None;
      ghost var a := Verify(params, CodeToVerify(verificationCode, code), verifyReply, createReply);
      var codeToVerify := Or(verificationCode, Joined(code));
      if |codeToVerify| != CodeLength {
        toastMessage := IncompleteMessage;
        showToast := true;
        return;
      }
      loading := true;
      sent := [VerifyCode(params.phoneNumber, codeToVerify)];
      if !verifyReply.Ok? {
        loading := false;
        toastMessage := FailureMessage(verifyReply, VerifyFallback);
        showToast := true;
        code := EmptyCode;
        return;
      }
      var verifyData := verifyReply.body;
      if params.flow == SignupFlow && verifyData.isNewUser {
        sent := sent + [CreateUser(verifyData.token, params.fullName, params.alias)];
        if !createReply.Ok? {
          loading := false;
          toastMessage := FailureMessage(createReply, CreateUserFallback);
          showToast := true;
          code := EmptyCode;
          return;
        }
        var createData := createReply.body;
        var userInfo := UserOr(createData.user, createData.root);
        auth.Signup(SignupUser(params, userInfo));
      } else {
        var userInfo := UserOr(verifyData.user, verifyData.root);
        auth.Login(LoginUser(params, userInfo));
      }
      loading := false;
      next := Some(TabsRoute);
    }

    /**
     * `handleCodeChange(text, index)`: writes one slot and, when that fills
     * the last slot and leaves none empty, verifies the joined code at once.
     */
    method CodeChange(text: string, index: nat, auth: AuthStore,
                      verifyReply: Reply<VerifyBody>, createReply: Reply<CreateUserBody>)
      returns (sent: seq<Request>, next: Option<string>)
      requires Valid() && index < CodeLength
      modifies this, auth
      ensures Valid()
      ensures var newCode := WriteSlot(old(code), index, text);
              if AutoVerifies(newCode, index, SlotText(text)) then
                var a := Verify(params, Joined(newCode), verifyReply, createReply);
                && sent == a.sent && !a.outcome.Incomplete? && !loading
                && (a.outcome.Failure? ==> showToast && toastMessage == a.outcome.message && code == EmptyCode
                                           && auth.user == old(auth.user) && next.None?)
                && (a.outcome.SignedUp? || a.outcome.LoggedIn? ==>
                      auth.user == Some(a.outcome.user) && next == Some(TabsRoute) && code == newCode)
              else
                && sent == [] && next.None? && code == newCode && auth.user == old(auth.user)
                && loading == old(loading) && showToast == old(showToast) && toastMessage == old(toastMessage)
    {
      sent, next := [], None;
      var slot := SlotText(text);
      var newCode := WriteSlot(code, index, text);
      code := newCode;
      if slot != [] && index == CodeLength - 1 && Filled(newCode) {
        JoinedLength(newCode);
        sent, next := VerifyPressed(Some(Joined(newCode)), auth, verifyReply, createReply);
      }
    }

    /** `handleResendCode` (the button is disabled while loading), given the reply. */
    method ResendPressed(reply: Reply<()>) returns (sent: Request)
      requires !loading
      modifies this
      ensures sent == RequestCode(params.phoneNumber)
      ensures showToast && !loading && code == old(code)
      ensures reply.Ok? ==> toastMessage == ResentMessage && SuccessToast(toastMessage)
      ensures !reply.Ok? ==> toastMessage == FailureMessage(reply, ResendFallback)
    {
      loading := true;
      sent := RequestCode(params.phoneNumber);
      if !reply.Ok? {
        loading := false;
        toastMessage := FailureMessage(reply, ResendFallback);
        showToast := true;
        return;
      }
      loading := false;
      toastMessage := ResentMessage;
      showToast := true;
      ResentIsSuccess();
    }
  }
}
