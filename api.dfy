/**
 * The requests the screens send and the replies they read, as values. The
 * backend is external: a reply is an input of the model, never computed.
 */
module Api {
  import opened Wrappers
  import opened Text

  /** What `fetch` followed by `response.json()` yields. */
  datatype Reply<T> =
    | Ok(body: T)                        // 2xx with a parsed body
    | Rejected(message: Option<string>)  // non-2xx; the `message` field of the parsed error body
    | Failed(error: string)              // an Error thrown on the way: transport failure or a body that is not JSON

  /**
   * The message a screen shows for a reply that is not ok: the handler throws
   * `new Error(errorData.message || fallback)` and the catch block shows the
   * message of whatever Error reached it.
   */
  function FailureMessage<T>(reply: Reply<T>, fallback: string): (m: string)
    requires !reply.Ok?
    ensures reply.Rejected? && Truthy(reply.message) ==> m == reply.message.value
    ensures reply.Rejected? && !Truthy(reply.message) ==> m == fallback
    ensures reply.Failed? ==> m == reply.error
  {
    match reply
    case Rejected(message) => Or(message, fallback)
    case Failed(error) => error
  }

  /** Which screen sent the user to the verification screen. */
  datatype Flow = LoginFlow | SignupFlow

  /**
   * The outgoing requests (the body fields that vary; the constant
   * `canGiveTips: true, canReceiveTips: true` of the profile bodies is left
   * implicit). A bearer token is kept as the optional value the screen reads.
   */
  datatype Request =
    | RequestCode(mobileNumber: string)                                                 // POST /auth/request-code
    | VerifyCode(mobileNumber: string, code: string)                                    // POST /auth/verify-code
    | CreateUser(token: Option<string>, nameParam: Option<string>, aliasParam: Option<string>) // POST /users
    | UpdateProfile(token: Option<string>, fullName: string, alias: string)             // PUT /users/profile
    | UploadAvatar(token: Option<string>, uri: string, filename: string, mimeType: string) // POST /users/avatar

  /** A user object in a reply; every field may be missing. */
  datatype ProfileInfo = ProfileInfo(id: Option<string>, fullName: Option<string>, alias: Option<string>, avatarUrl: Option<string>)

  /** A profile-update reply body, which may nest the user under `data` or `user`. */
  datatype ProfileBody = ProfileBody(data: Option<ProfileInfo>, user: Option<ProfileInfo>, root: ProfileInfo)

  /** `data.data || data.user || data`: the first nested object present, else the body itself. */
  function Unwrap(body: ProfileBody): (p: ProfileInfo)
    ensures body.data.Some? ==> p == body.data.value
    ensures body.data.None? && body.user.Some? ==> p == body.user.value
    ensures body.data.None? && body.user.None? ==> p == body.root
  {
    if body.data.Some? then body.data.value
    else if body.user.Some? then body.user.value
    else body.root
  }

  /** The verify-code reply body. */
  datatype VerifyBody = VerifyBody(token: Option<string>, isNewUser: bool, user: Option<ProfileInfo>, root: ProfileInfo)

  /** The create-user reply body. */
  datatype CreateUserBody = CreateUserBody(user: Option<ProfileInfo>, root: ProfileInfo)

  /** The avatar-upload reply body. */
  datatype UploadBody = UploadBody(data: Option<UploadData>, avatarUrl: Option<string>)
  datatype UploadData = UploadData(avatarUrl: Option<string>)

  /** `body.user || body`. */
  function UserOr(user: Option<ProfileInfo>, root: ProfileInfo): ProfileInfo {
    user.GetOr(root)
  }
}
