/**
 * The edit-profile screen (app/edit-profile.tsx): name, alias and avatar
 * fields seeded from the session, the avatar upload helper, and a save
 * button that uploads a changed avatar, updates the profile and rewrites
 * the session.
 */
module EditProfile {
  import opened Wrappers
  import opened Text
  import opened Alias
  import opened Api
  import opened Session
  import opened Signup
  import opened CompleteProfile
  import VerifySms

  const PlaceholderHost := "pravatar.cc"
  const DefaultFilename := "avatar.jpg"
  const DefaultMimeType := "image/jpeg"
  const ShortAliasMessage := "Alias must be at least 3 characters"
  const SavedMessage := "Profile updated successfully"

  datatype ToastType = Success | Error

  /** `avatar?.includes('pravatar.cc') ? null : avatar`: placeholder pictures are dropped. */
  function CleanAvatar(avatar: Option<string>): (r: Option<string>)
    ensures avatar.Some? && Includes(avatar.value, PlaceholderHost) ==> r.None?
    ensures !(avatar.Some? && Includes(avatar.value, PlaceholderHost)) ==> r == avatar
  {
    if avatar.Some? && Includes(avatar.value, PlaceholderHost) then None else avatar
  }

  /** The placeholder the verification screen stores is always dropped. */
  lemma PlaceholderDropped()
    ensures CleanAvatar(Some(VerifySms.PlaceholderAvatar)) == None
  {
    var url := VerifySms.PlaceholderAvatar;
    assert url == "https://i." + PlaceholderHost + "/150?img=12";
    assert url[10..10 + |PlaceholderHost|] == PlaceholderHost;
    IncludesAt(url, PlaceholderHost, 10);
  }

  /** The name field's first value: `user?.fullName || ''`. */
  function InitialName(session: Option<User>): (r: string)
    ensures session.Some? && Truthy(session.value.fullName) ==> r == session.value.fullName.value
    ensures !(session.Some? && Truthy(session.value.fullName)) ==> r == ""
  {
    if session.Some? then Or(session.value.fullName, "") else ""
  }

  /** The alias field's first value: `user?.alias?.replace('@', '') || ''`. */
  function InitialAlias(session: Option<User>): (r: string)
    ensures session.Some? ==> r == RemoveFirst(session.value.alias, '@')
    ensures session.None? ==> r == ""
  {
    if session.Some? then RemoveFirst(session.value.alias, '@') else ""
  }

  /** The avatar field's first value: the stored avatar unless it is absent or a placeholder. */
  function InitialAvatarUri(session: Option<User>): (r: string)
    ensures session.Some? && Truthy(CleanAvatar(session.value.avatar)) ==> r == session.value.avatar.value
    ensures !(session.Some? && Truthy(CleanAvatar(session.value.avatar))) ==> r == ""
  {
    if session.Some? then Or(CleanAvatar(session.value.avatar), "") else ""
  }

  /** An alias stored as '@' followed by the server's alias comes back into the field without the '@'. */
  lemma InitialAliasOfStored(session: User, serverAlias: string)
    requires session.alias == "@" + serverAlias
    ensures InitialAlias(Some(session)) == serverAlias
  {
    RemoveFirstLeading(session.alias, '@');
  }

  /** `uri.split('/').pop() || 'avatar.jpg'`. */
  function UploadFilename(uri: string): (r: string)
    ensures r != [] && '/' !in r
    ensures LastSegment(uri, '/') != [] ==> r == LastSegment(uri, '/')
    ensures LastSegment(uri, '/') == [] ==> r == DefaultFilename
  {
    var segment := LastSegment(uri, '/');
    if segment == [] then
      DefaultFilenameIsSegment();
      DefaultFilename
    else segment
  }

  lemma DefaultFilenameIsSegment()
    ensures '/' !in DefaultFilename
  {
    assert forall i | 0 <= i < |DefaultFilename| :: DefaultFilename[i] != '/';
  }

  /**
   * The group `/\.(\w+)$/` captures: the run of word characters ending the
   * name, when it is non-empty and a '.' comes right before it.
   */
  function Extension(filename: string): (r: Option<string>)
    ensures r.Some? ==> r.value != [] && AllIn(Word, r.value)
    ensures r.Some? ==> |r.value| < |filename| && filename == filename[..|filename| - |r.value| - 1] + "." + r.value
  {
    var ext := TrailingWord(filename);
    if ext != [] && |ext| < |filename| && filename[|filename| - |ext| - 1] == '.' then
      assert filename == filename[..|filename| - |ext| - 1] + "." + ext;
      Some(ext)
    else None
  }

  /** Every way the pattern can match: a name ending in '.' and a non-empty word yields that word. */
  lemma ExtensionMatches(prefix: string, ext: string)
    requires ext != [] && AllIn(Word, ext)
    ensures Extension(prefix + "." + ext) == Some(ext)
  {
    var f := prefix + "." + ext;
    var w := TrailingWord(f);
    assert f[|f| - |ext|..] == ext;
    assert f[|f| - |ext| - 1] == '.';
  }

  /** `match ? `image/${match[1]}` : 'image/jpeg'`. */
  function MimeType(filename: string): (r: string)
    ensures Extension(filename).Some? ==> r == "image/" + Extension(filename).value
    ensures Extension(filename).None? ==> r == DefaultMimeType
  {
    match Extension(filename)
    case Some(ext) => "image/" + ext
    case None => DefaultMimeType
  }

  /** The fallback name "avatar.jpg" is sent with the type "image/jpg", not the fallback "image/jpeg". */
  lemma DefaultFilenameMime()
    ensures MimeType(DefaultFilename) == "image/jpg"
  {
    assert DefaultFilename == "avatar" + "." + "jpg";
    ExtensionMatches("avatar", "jpg");
  }

  /** The upload request for a picked image. */
  function UploadRequest(token: Option<string>, uri: string): (q: Request)
    ensures q.UploadAvatar? && q.token == token && q.uri == uri
    ensures q.filename == UploadFilename(uri) && q.mimeType == MimeType(UploadFilename(uri))
  {
    var filename := UploadFilename(uri);
    UploadAvatar(token, uri, filename, MimeType(filename))
  }

  /** `data.data?.avatarUrl || data.avatarUrl || null`; any failure gives null. */
  function UploadResult(reply: Reply<UploadBody>): (r: Option<string>)
    ensures r.Some? ==> r.value != [] && reply.Ok?
    ensures reply.Ok? && reply.body.data.Some? && Truthy(reply.body.data.value.avatarUrl) ==> r == reply.body.data.value.avatarUrl
    ensures reply.Ok? && !(reply.body.data.Some? && Truthy(reply.body.data.value.avatarUrl)) && Truthy(reply.body.avatarUrl)
            ==> r == reply.body.avatarUrl
    ensures reply.Ok? && !(reply.body.data.Some? && Truthy(reply.body.data.value.avatarUrl)) && !Truthy(reply.body.avatarUrl)
            ==> r.None?
  {
    match reply
    case Ok(data) =>
      var nested := if data.data.Some? then data.data.value.avatarUrl else None;
      var url := OrElse(nested, data.avatarUrl);
      if Truthy(url) then url else None
    case Rejected(_) => None
    case Failed(_) => None
  }

  /** `avatarUri && avatarUri !== user?.avatar`: a picked image that differs from the stored avatar. */
  predicate ShouldUpload(avatarUri: string, stored: Option<string>): (b: bool)
    ensures avatarUri == [] ==> !b
    ensures stored == Some(avatarUri) ==> !b
    ensures avatarUri != [] && stored != Some(avatarUri) ==> b
  {
    avatarUri != [] && stored != Some(avatarUri)
  }

  /** Saving without picking a new image never uploads: the field starts as the stored avatar or empty. */
  lemma NoUploadWithoutPick(session: User)
    ensures !ShouldUpload(InitialAvatarUri(Some(session)), session.avatar)
  {
  }

  /** The checks of `handleSaveProfile`: a non-blank name, then an alias of at least three characters. */
  function SaveProblem(fullName: string, alias: string): (r: Option<string>)
    ensures r.None? <==> !AllSpace(fullName) && |alias| >= 3
    ensures AllSpace(fullName) ==> r == Some(NameMessage)
    ensures !AllSpace(fullName) && |alias| < 3 ==> r == Some(ShortAliasMessage)
  {
    TrimBlank(fullName);
    if Trim(fullName) == [] then Some(NameMessage)
    else if alias == [] || |alias| < 3 then Some(ShortAliasMessage)
    else None
  }

  /** The avatar URL saved: the uploaded one when an upload happened and returned one, else the stored one. */
  function SavedAvatarUrl(session: User, avatarUri: string, uploadReply: Reply<UploadBody>): (r: Option<string>)
    ensures ShouldUpload(avatarUri, session.avatar) && UploadResult(uploadReply).Some? ==> r == UploadResult(uploadReply)
    ensures !(ShouldUpload(avatarUri, session.avatar) && UploadResult(uploadReply).Some?) ==> r == session.avatar
  {
    if ShouldUpload(avatarUri, session.avatar) && Truthy(UploadResult(uploadReply)) then UploadResult(uploadReply)
    else session.avatar
  }

  /** `updatedUser`: like the completed profile, but with the placeholder-free avatar URL. */
  function SavedUser(prev: User, profile: ProfileInfo, avatarUrl: Option<string>): (u: User)
    ensures u.id == prev.id && u.phoneNumber == prev.phoneNumber && u.token == prev.token
    ensures u.fullName == profile.fullName
    ensures |u.alias| >= 1 && u.alias[0] == '@' && u.alias[1..] == Render(profile.alias)
    ensures u.avatar == CleanAvatar(avatarUrl)
    ensures u.profileComplete == Some(true)
  {
    CompletedUser(prev, profile).(avatar := CleanAvatar(avatarUrl))
  }

  /** The requests a save that passed the checks sends: the upload when one is due, then the update. */
  function SaveRequests(session: User, fullName: string, alias: string, avatarUri: string): (sent: seq<Request>)
    ensures |sent| == (if ShouldUpload(avatarUri, session.avatar) then 2 else 1)
    ensures sent[|sent| - 1] == UpdateProfile(session.token, Trim(fullName), alias)
    ensures |sent| == 2 ==> sent[0] == UploadRequest(session.token, avatarUri)
  {
    var upload := if ShouldUpload(avatarUri, session.avatar) then [UploadRequest(session.token, avatarUri)] else [];
    upload + [UpdateProfile(session.token, Trim(fullName), alias)]
  }

  /** How pressing save ends: the requests sent, in order, and the result. */
  datatype Edit =
    | EditRejected(message: string)
    | EditFailed(sent: seq<Request>, message: string)
    | EditSaved(sent: seq<Request>, user: User)

  /** `handleSaveProfile` on the signed-in `session`, given the replies to the upload and the update. */
  function Save(session: User, fullName: string, alias: string, avatarUri: string,
                uploadReply: Reply<UploadBody>, updateReply: Reply<ProfileBody>): (o: Edit)
    ensures o.EditRejected? <==> SaveProblem(fullName, alias).Some?
    ensures o.EditRejected? ==> o.message == SaveProblem(fullName, alias).value
    ensures !o.EditRejected? ==> o.sent == SaveRequests(session, fullName, alias, avatarUri)
    ensures o.EditSaved? <==> !o.EditRejected? && updateReply.Ok?
    ensures o.EditSaved? ==> o.user == SavedUser(session, Unwrap(updateReply.body), SavedAvatarUrl(session, avatarUri, uploadReply))
    ensures o.EditFailed? ==> o.message == FailureMessage(updateReply, UpdateFallback)
  {
    match SaveProblem(fullName, alias)
    case Some(message) => EditRejected(message)
    case None =>
      var sent := SaveRequests(session, fullName, alias, avatarUri);
      match updateReply
      case Ok(data) => EditSaved(sent, SavedUser(session, Unwrap(data), SavedAvatarUrl(session, avatarUri, uploadReply)))
      case Rejected(_) => EditFailed(sent, FailureMessage(updateReply, UpdateFallback))
      case Failed(_) => EditFailed(sent, FailureMessage(updateReply, UpdateFallback))
  }

  /** A failed upload keeps the stored avatar, minus a placeholder. */
  lemma FailedUploadKeepsAvatar(session: User, fullName: string, alias: string, avatarUri: string,
                                uploadReply: Reply<UploadBody>, updateReply: Reply<ProfileBody>)
    requires !uploadReply.Ok?
    requires Save(session, fullName, alias, avatarUri, uploadReply, updateReply).EditSaved?
    ensures Save(session, fullName, alias, avatarUri, uploadReply, updateReply).user.avatar == CleanAvatar(session.avatar)
  {
  }

  /** A session whose avatar is the placeholder loses it on the first save without a new picture. */
  lemma PlaceholderClearedOnSave(session: User, fullName: string, alias: string,
                                 uploadReply: Reply<UploadBody>, updateReply: Reply<ProfileBody>)
    requires session.avatar == Some(VerifySms.PlaceholderAvatar)
    requires Save(session, fullName, alias, InitialAvatarUri(Some(session)), uploadReply, updateReply).EditSaved?
    ensures InitialAvatarUri(Some(session)) == ""
    ensures Save(session, fullName, alias, InitialAvatarUri(Some(session)), uploadReply, updateReply).user.avatar == None
  {
    PlaceholderDropped();
  }

  /** The edit-profile screen's state. */
  class Screen {
    var fullName: string
    var alias: string
    var avatarUri: string
    var loading: bool
    var showToast: bool
    var toastMessage: string
    var toastType: ToastType

    /** The fields seeded from the session when the screen opens. */
    constructor(session: Option<User>)
      ensures fullName == InitialName(session) && alias == InitialAlias(session)
      ensures avatarUri == InitialAvatarUri(session)
      ensures !loading && !showToast && toastMessage == "" && toastType == Success
    {
      fullName := InitialName(session);
      alias := InitialAlias(session);
      avatarUri := InitialAvatarUri(session);
      loading, showToast, toastMessage, toastType := false, false, "", Success;
    }

    /** `setFullName`. */
    method NameChange(text: string)
      modifies this
      ensures fullName == text && alias == old(alias) && avatarUri == old(avatarUri)
      ensures loading == old(loading) && showToast == old(showToast)
      ensures toastMessage == old(toastMessage) && toastType == old(toastType)
    {
      fullName := text;
    }

    /** `handleAliasChange`. */
    method AliasChange(text: string)
      modifies this
      ensures alias == StripAt(text) && fullName == old(fullName) && avatarUri == old(avatarUri)
      ensures loading == old(loading) && showToast == old(showToast)
      ensures toastMessage == old(toastMessage) && toastType == old(toastType)
    {
      alias := StripAt(text);
    }

    /** `setAvatarUri` with the URI of the image the picker or the camera returned. */
    method ImagePicked(uri: string)
      modifies this
      ensures avatarUri == uri && fullName == old(fullName) && alias == old(alias)
      ensures loading == old(loading) && showToast == old(showToast)
      ensures toastMessage == old(toastMessage) && toastType == old(toastType)
    {
      avatarUri := uri;
    }

    /** `uploadImage(uri)`, given the reply to the upload: the request sent and the URL it yields. */
    method UploadImage(token: Option<string>, uri: string, reply: Reply<UploadBody>) returns (request: Request, url: Option<string>)
      ensures request.UploadAvatar? && request.uri == uri && request.filename != [] && '/' !in request.filename
      ensures request == UploadRequest(token, uri)
      ensures url == UploadResult(reply)
      ensures url.Some? ==> url.value != []
    {
      var filename := UploadFilename(uri);
      var mimeType := MimeType(filename);
      request := UploadAvatar(token, uri, filename, mimeType);
      url := UploadResult(reply);
    }

    /**
     * `handleSaveProfile` (the button is disabled while loading; the screen
     * is reached only from the signed-in tabs), given the replies.
     */
    method SavePressed(auth: AuthStore, uploadReply: Reply<UploadBody>, updateReply: Reply<ProfileBody>)
      returns (sent: seq<Request>)
      requires !loading && auth.user.Some?
      modifies this, auth
      ensures var o := Save(old(auth.user.value), old(fullName), old(alias), old(avatarUri), uploadReply, updateReply);
              && (o.EditRejected? ==> sent == [] && showToast && toastMessage == o.message && toastType == Error
                                      && auth.user == old(auth.user))
              && (o.EditFailed? ==> sent == o.sent && showToast && toastMessage == o.message && toastType == Error
                                    && auth.user == old(auth.user))
              && (o.EditSaved? ==> sent == o.sent && showToast && toastMessage == SavedMessage && toastType == Success
                                   && auth.user == Some(o.user))
      ensures fullName == old(fullName) && alias == old(alias) && avatarUri == old(avatarUri) && !loading
    {
      sent := [];
      var user := auth.user.value;
      ghost var o := Save(user, fullName, alias, avatarUri, uploadReply, updateReply);
      var problem := SaveProblem(fullName, alias);
      if problem.Some? {
        assert o == EditRejected(problem.value);
        toastMessage := problem.value;
        toastType := Error;
        showToast := true;
        return;
      }
      loading := true;
      var avatarUrl := user.avatar;
      if ShouldUpload(avatarUri, user.avatar) {
        var request, uploadedUrl := UploadImage(user.token, avatarUri, uploadReply);
        sent := [request];
        if Truthy(uploadedUrl) {
          avatarUrl := uploadedUrl;
        }
      }
      assert avatarUrl == SavedAvatarUrl(user, avatarUri, uploadReply);
      ghost var expected := SaveRequests(user, fullName, alias, avatarUri);
      var update := UpdateProfile(user.token, Trim(fullName), alias);
      assert expected == sent + [update];
      sent := sent + [update];
      assert !o.EditRejected? && o.sent == sent;
      if !updateReply.Ok? {
        toastMessage := FailureMessage(updateReply, UpdateFallback);
        toastType := Error;
        showToast := true;
        loading := false;
        return;
      }
      var updatedProfile := Unwrap(updateReply.body);
      var updatedUser := SavedUser(user, updatedProfile, avatarUrl);
      auth.Login(updatedUser);
      loading := false;
      toastMessage := SavedMessage;
      toastType := Success;
      showToast := true;
    }
  }
}
