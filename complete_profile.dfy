/**
 * The complete-profile screen (app/complete-profile.tsx): name and alias
 * fields and a button that sends them to the profile endpoint with the
 * session's bearer token and stores the completed profile in the session.
 */
module CompleteProfile {
  import opened Wrappers
  import opened Text
  import opened Alias
  import opened Api
  import opened Session
  import opened Routing
  import opened Signup
  import VerifySms

  const NoTokenMessage := "No authentication token found. Please log in again."
  const UpdateFallback := "Failed to update profile"

  /** The bearer token the screen reads from the session (`user?.token`). */
  function SessionToken(session: Option<User>): Option<string> {
    if session.Some? then session.value.token else None
  }

  /**
   * `updatedUser`: the previous record with the server's name, its alias behind
   * '@', its avatar URL when it sent one (else the previous avatar) and the
   * profile marked complete.
   */
  function CompletedUser(prev: User, profile: ProfileInfo): (u: User)
    ensures u.id == prev.id && u.phoneNumber == prev.phoneNumber && u.token == prev.token
    ensures u.fullName == profile.fullName
    ensures |u.alias| >= 1 && u.alias[0] == '@' && u.alias[1..] == Render(profile.alias)
    ensures Truthy(profile.avatarUrl) ==> u.avatar == profile.avatarUrl
    ensures !Truthy(profile.avatarUrl) ==> u.avatar == prev.avatar
    ensures u.profileComplete == Some(true)
  {
    prev.(fullName := profile.fullName,
         alias := "@" + Render(profile.alias),
         avatar := OrElse(profile.avatarUrl, prev.avatar),
         profileComplete := Some(true))
  }

  /** How pressing the button ends. */
  datatype Saved =
    | NotSaved(message: string)                     // a toast, no request
    | SaveFailed(request: Request, message: string) // the request went out; a toast
    | SavedAs(request: Request, user: User)         // the session now holds `user`

  /** `handleCompleteProfile` on the current session and fields, given the reply to the update. */
  function Complete(session: Option<User>, fullName: string, alias: string, reply: Reply<ProfileBody>): (o: Saved)
    ensures o.NotSaved? <==> NameAliasProblem(fullName, alias).Some? || !Truthy(SessionToken(session))
    ensures NameAliasProblem(fullName, alias).Some? ==> o == NotSaved(NameAliasProblem(fullName, alias).value)
    ensures NameAliasProblem(fullName, alias).None? && !Truthy(SessionToken(session)) ==> o == NotSaved(NoTokenMessage)
    ensures !o.NotSaved? ==> session.Some? && o.request == UpdateProfile(session.value.token, Trim(fullName), RemoveFirst(alias, '@'))
    ensures o.SavedAs? <==> !o.NotSaved? && reply.Ok?
    ensures o.SavedAs? ==> o.user == CompletedUser(session.value, Unwrap(reply.body))
    ensures o.SaveFailed? ==> o.message == FailureMessage(reply, UpdateFallback)
  {
    match NameAliasProblem(fullName, alias)
    case Some(message) => NotSaved(message)
    case None =>
      var token := SessionToken(session);
      if !Truthy(token) then NotSaved(NoTokenMessage)
      else
        var request := UpdateProfile(token, Trim(fullName), RemoveFirst(alias, '@'));
        match reply
        case Ok(data) => SavedAs(request, CompletedUser(session.value, Unwrap(data)))
        case Rejected(_) => SaveFailed(request, FailureMessage(reply, UpdateFallback))
        case Failed(_) => SaveFailed(request, FailureMessage(reply, UpdateFallback))
  }

  /**
   * A session stored by the verification screen carries no token, so the
   * profile can never be completed from it: nothing is sent and the best
   * outcome is the no-token message.
   */
  lemma VerifiedSessionCannotComplete(params: VerifyParams, code: string,
                                      verifyReply: Reply<VerifyBody>, createReply: Reply<CreateUserBody>,
                                      fullName: string, alias: string, reply: Reply<ProfileBody>)
    requires var a := VerifySms.Verify(params, code, verifyReply, createReply);
             a.outcome.LoggedIn? || a.outcome.SignedUp?
    ensures var u := VerifySms.Verify(params, code, verifyReply, createReply).outcome.user;
            && Complete(Some(u), fullName, alias, reply).NotSaved?
            && (NameAliasProblem(fullName, alias).None? ==> Complete(Some(u), fullName, alias, reply) == NotSaved(NoTokenMessage))
  {
  }

  /** For an alias typed into the screen, the alias sent is the sanitised one without its leading '@'. */
  lemma SentAlias(session: Option<User>, fullName: string, aliasText: string, reply: Reply<ProfileBody>)
    requires !Complete(session, fullName, ForceAt(aliasText), reply).NotSaved?
    ensures Complete(session, fullName, ForceAt(aliasText), reply).request.alias == ForceAt(aliasText)[1..]
    ensures Complete(session, fullName, ForceAt(aliasText), reply).request.alias != []
  {
    ApiAliasOfForceAt(aliasText);
  }

  /** The complete-profile screen's state. */
  class Screen {
    var fullName: string
    var alias: string
    var loading: bool
    var showToast: bool
    var toastMessage: string

    constructor()
      ensures fullName == "" && alias == "" && !loading && !showToast && toastMessage == ""
    {
      fullName, alias := "", "";
      loading, showToast, toastMessage := false, false, "";
    }

    /** `setFullName`. */
    method NameChange(text: string)
      modifies this
      ensures fullName == text && alias == old(alias)
      ensures loading == old(loading) && showToast == old(showToast) && toastMessage == old(toastMessage)
    {
      fullName := text;
    }

    /** `handleAliasChange`. */
    method AliasChange(text: string)
      modifies this
      ensures alias == ForceAt(text) && fullName == old(fullName)
      ensures loading == old(loading) && showToast == old(showToast) && toastMessage == old(toastMessage)
    {
      alias := ForceAt(text);
    }

    /** `handleCompleteProfile` (the button is disabled while loading), given the reply to the update. */
    method CompletePressed(auth: AuthStore, reply: Reply<ProfileBody>) returns (sent: Option<Request>, next: Option<string>)
      requires !loading
      modifies this, auth
      ensures var o := Complete(old(auth.user), old(fullName), old(alias), reply);
              && (o.NotSaved? ==> sent.None? && next.None? && showToast && toastMessage == o.message
                                  && auth.user == old(auth.user))
              && (o.SaveFailed? ==> sent == Some(o.request) && next.None? && showToast && toastMessage == o.message
                                    && auth.user == old(auth.user))
              && (o.SavedAs? ==> sent == Some(o.request) && next == Some(TabsRoute) && auth.user == Some(o.user)
                                 && showToast == old(showToast) && toastMessage == old(toastMessage))
      ensures fullName == old(fullName) && alias == old(alias) && !loading
    {
      sent, next := None, None;
      ghost var o := Complete(auth.user, fullName, alias, reply);
      var problem := NameAliasProblem(fullName, alias);
      if problem.Some? {
        toastMessage := problem.value;
        showToast := true;
        return;
      }
      loading := true;
      var token := SessionToken(auth.user);
      if !Truthy(token) {
        toastMessage := NoTokenMessage;
        showToast := true;
        loading := false;
        return;
      }
      sent := Some(UpdateProfile(token, Trim(fullName), RemoveFirst(alias, '@')));
      if !reply.Ok? {
        toastMessage := FailureMessage(reply, UpdateFallback);
        showToast := true;
        loading := false;
        return;
      }
      var updatedProfile := Unwrap(reply.body);
      var updatedUser := CompletedUser(auth.user.value, updatedProfile);
      auth.Login(updatedUser);
      loading := false;
      next := Some(TabsRoute);
    }
  }
}
