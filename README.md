# tipslap-app front-end logic in Dafny

A model of the logic underneath the screens of the tipslap mobile app: the
phone-number formatters and the E.164 normaliser, the two alias sanitisers,
the six-slot SMS-code entry with automatic verification, the validation and
result mapping of the login, signup, verification, complete-profile and
edit-profile screens, the in-memory auth, balance and history stores, the
entry route's guard, the tip rule and the avatar helpers.

Strings are sequences of characters and every regular expression is an
explicit character-class filter (`Text.Keep`). A server reply is an input of
the model (`Api.Reply`: a parsed 2xx body, a non-2xx status with the optional
`message` of its error body, or a thrown error), so each screen handler is a
pure decision function over its fields and the replies it receives, plus a
method on a class whose fields are the screen's state hooks and whose
contract ties the new state to that function. The stores (`Session.AuthStore`,
`Balance.BalanceStore`, `History.HistoryStore`) are classes whose methods
update their one field in place. Amounts are `real`.

Modules, one per source file: `Phone` (config/api.ts and the formatters of
app/login.tsx, app/signup.tsx, app/verify-sms.tsx), `Alias` (the alias
handlers), `Login`, `Signup`, `VerifySms`, `CompleteProfile`, `EditProfile`,
`Tip` (the screens), `Session`, `Balance`, `History` (contexts/), `Routing`
(app/index.tsx), `Avatar` (components/avatar.tsx); `Text`, `Api` and
`Wrappers` hold the JavaScript string operations, the request and reply
shapes and the optional type they share.

Behaviour of the code worth knowing, each proved by the member named:

- After a successful verification the screen stores a session built from
  the verify or create-user reply and goes to the main tabs; no profile
  request is made (`VerifySms.Verify`).
- The entry route's guard ignores `profileComplete`: a session whose profile
  is incomplete still goes to the main tabs (`Routing.RedirectIgnoresProfile`).
- The session record built by the verification screen never holds the
  bearer token the server returned. The complete-profile screen therefore
  always stops at "No authentication token found. Please log in again." for
  such a session (`CompleteProfile.VerifiedSessionCannotComplete`), and the
  edit-profile screen sends a header built from an absent token.
- `formatPhoneToE164`'s last line keeps a value that already starts with
  '+', but it tests the digits-only string, so that branch is dead
  (`Phone.PlusBranchDead`); eleven digits starting with '1' give the same
  result as the fallback branch.
- The signup screen passes on its sanitised alias minus the leading '@'.
  When the create-user reply has no alias, the session alias is that value
  as it is: no '@' is put in front, as the login mapping does for a server
  alias, so it holds one '@' fewer than the alias field and none at all
  unless the typed text held two or more (`VerifySms.SignupFallbackAlias`).
- The verification screen's parenthesised formatter receives the E.164
  number, which starts with '+', so it always shows the number unchanged
  (`Phone.ParenFormatOfE164`).
- The default upload file name "avatar.jpg" is sent with the type
  "image/jpg", not the fallback "image/jpeg" (`EditProfile.DefaultFilenameMime`).

## Model

| member | source | states |
|---|---|---|
| Phone.ToE164 | config/api.ts:26-42 | the result is '+' followed only by decimal digits, whatever the input |
| Phone.PlusBranchDead | config/api.ts:28-41 | the digits-only string never starts with '+', so the pass-through branch cannot fire |
| Phone.E164Digits | config/api.ts:28-41 | the result's digits are the input's digits, behind a '1' exactly when there are ten of them |
| Phone.E164Shape | config/api.ts:31-41 | ten digits give "+1" + digits; eleven digits starting with '1' and every other count (zero gives "+") give "+" + digits |
| Phone.E164SameDigits | config/api.ts:28 | inputs with the same digit sequence give the same result |
| Phone.E164Idempotent | config/api.ts:26-42 | normalising a normalised number returns it unchanged |
| Phone.E164DigitsSuffix | config/api.ts:26-42 | the input's digits are a suffix of the result's digits |
| Phone.DashGroups | app/login.tsx:26 | the pattern matches exactly when there are at most ten digits; its greedy groups have at most 3, 3 and 4 digits and concatenate to the digits |
| Phone.DashFormat | app/login.tsx:24-32 | more than ten digits return the text unchanged; otherwise the digits come out as "ddd", "ddd-ddd" or "ddd-ddd-dddd" with the last group partial (app/signup.tsx:26-34 is the same code) |
| Phone.DashShape | app/login.tsx:26-28 | joining the non-empty greedy groups with '-' gives that layout |
| Phone.DashFormatted | app/login.tsx:25-29 | up to ten digits: only digits and dashes, no leading, trailing or doubled dash, the same digits in order, at most 12 characters (app/login.tsx:137) |
| Phone.DashFormatTooLong | app/login.tsx:26-31 | more than ten digits return the raw text unchanged |
| Phone.DashFormatKeepsDigits | app/login.tsx:24-32 | the digits never change, whatever their number |
| Phone.DashFormatIdempotent | app/login.tsx:24-32 | formatting a formatted value changes nothing |
| Phone.ParenFormat | app/verify-sms.tsx:222-228 | ten digits become "(" + the first three + ") " + the next three + "-" + the last four; anything else is shown as it is |
| Phone.ParenFormatted | app/verify-sms.tsx:222-228 | ten digits become the 14-character "(ddd) ddd-dddd" holding the same digits |
| Phone.ParenFormatOfE164 | app/verify-sms.tsx:222-228 | the E.164 number the screen receives is always shown unchanged |
| Alias.ForceAt | app/signup.tsx:41-49 | the sanitised alias starts with '@' and holds only `[@A-Za-z0-9_]` (app/complete-profile.tsx:24-32 is the same code) |
| Alias.ForceAtCountsAt | app/signup.tsx:44-46 | only the first '@' is removed before '@' is prefixed: the result has as many '@'s as the input, at least one |
| Alias.ForceAtKeepsWordChars | app/signup.tsx:43-47 | the word characters of the result are those of the input, in order |
| Alias.ForceAtIdempotent | app/signup.tsx:41-49 | sanitising a sanitised alias changes nothing |
| Alias.ApiAliasOfForceAt | app/signup.tsx:115 | `replace('@', '')` on a sanitised alias removes exactly its leading '@' |
| Alias.ApiAliasAtCount | app/signup.tsx:43-47 | the alias sent on has exactly one '@' fewer than the sanitised one, so it keeps an '@' exactly when the typed text held two or more (app/signup.tsx:115) |
| Alias.StripAt | app/edit-profile.tsx:29-36 | the edit-profile alias holds only `[A-Za-z0-9_]`, never '@' |
| Alias.StripAtIsWordFilter | app/edit-profile.tsx:29-36 | dropping one leading '@' first makes no difference: the result is the input's word characters |
| Alias.StripAtIdempotent | app/edit-profile.tsx:29-36 | stripping a stripped alias changes nothing |
| Alias.StripAtOfForceAt | app/edit-profile.tsx:29-36 | stripping a signup-sanitised alias gives the original input's word characters |
| Login.MobileNumber | app/login.tsx:40-42 | a number is sent exactly when the field has ten digits, and it is "+1" + those digits (app/login.tsx:65) |
| Login.TypedNumberSent | app/login.tsx:34-42 | formatting the field as it is typed never changes which number is sent |
| Login.SentWhenComplete | app/login.tsx:34-46 | a typed number is sent exactly when it has ten digits, which is when the field shows the full 12-character form |
| Login.SendCode | app/login.tsx:39-96 | no ten digits: the invalid-number message and no request; otherwise a code request for "+1" + digits, then on an ok reply the verification screen with that number and the login flow, else the server's message or "Failed to send code" |
| Login.Screen.SendCodePressed | app/login.tsx:39-96 | the toast, the request and the navigation are those of `SendCode` on the field; `loading` ends false and the field is unchanged |
| Login.Screen.constructor | app/login.tsx:15-18 | the field is empty, nothing is loading and no toast shows |
| Login.Screen.PhoneChange | app/login.tsx:34-37 | the field holds the dashed form of the typed text |
| Login.Screen.HideToast | app/login.tsx:108 | the toast is hidden and nothing else changes |
| Signup.NameAliasProblem | app/signup.tsx:59-70 | a blank trimmed name gives the name message, then an alias shorter than 2 gives the alias message; otherwise no problem |
| Signup.SignupProblem | app/signup.tsx:52-70 | the checks run in the order phone, name, alias and the first failure's message is reported |
| Signup.SignUp | app/signup.tsx:51-126 | a failed check sends nothing; otherwise a code request for "+1" + digits, then on an ok reply the verification screen gets that number, the trimmed name, the alias with its first '@' removed and the signup flow |
| Signup.SignupParams | app/signup.tsx:109-118 | for fields filled through the screen's handlers, the name passed on is non-blank and trimmed and the alias is the sanitised one minus its leading '@', never empty |
| Signup.Screen.SignUpPressed | app/signup.tsx:51-126 | the toast, the request and the navigation are those of `SignUp` on the fields |
| Signup.Screen.constructor | app/signup.tsx:16-21 | every field is empty, nothing is loading and no toast shows |
| Signup.Screen.PhoneChange | app/signup.tsx:36-39 | the phone field holds the dashed form of the typed text; the other fields are unchanged |
| Signup.Screen.NameChange | app/signup.tsx:165 | the name field holds the text as typed; the other fields are unchanged |
| Signup.Screen.AliasChange | app/signup.tsx:41-49 | the alias field holds the '@'-forced sanitised text |
| VerifySms.SlotText | app/verify-sms.tsx:36-38 | a change longer than one character keeps only its last character |
| VerifySms.WriteSlot | app/verify-sms.tsx:40-42 | a change writes only its slot; the others are unchanged and there are still six |
| VerifySms.JoinedLength | app/verify-sms.tsx:50-52 | with one-character slots the joined code has six characters exactly when every slot is filled |
| VerifySms.TypedSlots | app/verify-sms.tsx:35-42 | typing characters into consecutive slots leaves each character in its own slot and the rest empty |
| VerifySms.TypingSixCharacters | app/verify-sms.tsx:50-52 | typing six characters verifies nothing before the sixth, then verifies exactly those six characters |
| VerifySms.AutoVerifyComplete | app/verify-sms.tsx:50-52 | the automatic verification always checks a six-character code |
| VerifySms.ButtonVerifyComplete | app/verify-sms.tsx:288 | the Verify button is enabled only when the joined code has six characters |
| VerifySms.AutoAndButtonAgree | app/verify-sms.tsx:51 | automatic and button verification of the same slots send the same requests and end the same way (app/verify-sms.tsx:62) |
| VerifySms.LoginUser | app/verify-sms.tsx:160-169 | the id is the server's; the alias is '@' + the server's alias, else "@user"; the name is the server's, else "User"; the avatar is the server's URL, else the placeholder; the phone comes from the route and no token is kept |
| VerifySms.SignupUser | app/verify-sms.tsx:148-157 | the same, except that a missing server alias falls back to the route's alias as it is, then "@user", and a missing server name to the route's name, then "User" |
| VerifySms.SignupFallbackAlias | app/verify-sms.tsx:151 | for an alias typed on the signup screen and no server alias, the session alias is the sanitised field minus its leading '@': one '@' fewer than the field, and none exactly when the typed text held at most one (app/signup.tsx:115) |
| VerifySms.CodeToVerify | app/verify-sms.tsx:62 | a code passed in wins; otherwise the joined slots, six characters exactly when every slot is filled |
| VerifySms.AutoVerifies | app/verify-sms.tsx:50-52 | only a non-empty change to the last slot can verify, and it does exactly when the joined code then has six characters |
| VerifySms.VerifyEnabled | app/verify-sms.tsx:288 | the button is enabled exactly when nothing is loading and the joined code has six characters |
| VerifySms.Verify | app/verify-sms.tsx:61-183 | a code that is not six characters sends nothing; otherwise the verify request, then for a new user on the signup flow the create-user request; a failure reports the server's message or the step's fallback; success stores `LoginUser` of the verify reply's user, or `SignupUser` of the create-user reply's user |
| VerifySms.Screen.constructor | app/verify-sms.tsx:25-28 | six empty slots, nothing loading and no toast |
| VerifySms.Screen.VerifyPressed | app/verify-sms.tsx:61-183 | the requests and the session are those of `Verify`; any failure clears all six slots and ends `loading` (app/verify-sms.tsx:174-181) |
| VerifySms.Screen.CodeChange | app/verify-sms.tsx:35-53 | the slot is written; when that fills the last slot and every slot, the joined code is verified at once and never found incomplete |
| VerifySms.Screen.ResendPressed | app/verify-sms.tsx:185-220 | the code is requested again for the route's number; the toast says it was resent (a success toast, app/verify-sms.tsx:235) or gives the failure |
| VerifySms.ResentIsSuccess | app/verify-sms.tsx:235 | the resend message is styled as a success |
| CompleteProfile.CompletedUser | app/complete-profile.tsx:85-91 | the session keeps its other fields and takes the server's name, '@' + its alias, its avatar URL or else the old avatar, and `profileComplete` true |
| CompleteProfile.Complete | app/complete-profile.tsx:34-102 | a blank name or short alias, then a missing token, stop before any request; otherwise the update carries the trimmed name and the alias minus its first '@', and an ok reply, unwrapped, completes the session |
| CompleteProfile.VerifiedSessionCannotComplete | app/complete-profile.tsx:50-57 | a session stored by the verification screen never sends the update: valid fields end at the no-token message |
| CompleteProfile.SentAlias | app/complete-profile.tsx:65-70 | the alias sent is the sanitised alias without its leading '@', never empty |
| CompleteProfile.Screen.constructor | app/complete-profile.tsx:14-18 | both fields empty, nothing loading and no toast |
| CompleteProfile.Screen.NameChange | app/complete-profile.tsx:137 | the name field holds the text as typed; the alias is unchanged |
| CompleteProfile.Screen.AliasChange | app/complete-profile.tsx:24-32 | the alias field holds the '@'-forced sanitised text; the name is unchanged |
| CompleteProfile.Screen.CompletePressed | app/complete-profile.tsx:34-102 | the toast, the request and the session are those of `Complete`; on any failure the session is unchanged |
| Api.Unwrap | app/complete-profile.tsx:82 | the profile is `data.data`, else `data.user`, else the body itself |
| Api.FailureMessage | app/login.tsx:76-94 | a non-ok reply shows its `message` when there is one, else the fallback; a thrown error shows its own message |
| EditProfile.CleanAvatar | app/edit-profile.tsx:22 | an avatar URL containing "pravatar.cc" is dropped, any other is kept |
| EditProfile.PlaceholderDropped | app/edit-profile.tsx:22 | the placeholder the verification screen stores is dropped |
| EditProfile.InitialName | app/edit-profile.tsx:19 | the name field starts as the stored name when it is non-empty, else empty |
| EditProfile.InitialAlias | app/edit-profile.tsx:20 | the alias field starts as the stored alias with its first '@' removed |
| EditProfile.InitialAvatarUri | app/edit-profile.tsx:22-23 | the avatar field starts empty for an absent or placeholder avatar |
| EditProfile.InitialAliasOfStored | app/edit-profile.tsx:20 | an alias stored as '@' + the server's alias comes back as the server's alias |
| EditProfile.UploadFilename | app/edit-profile.tsx:84 | the file name is the last '/'-segment, or "avatar.jpg" when that is empty; never empty and never containing '/' |
| EditProfile.Extension | app/edit-profile.tsx:85 | a match is a non-empty run of word characters ending the name with a '.' before it |
| EditProfile.ExtensionMatches | app/edit-profile.tsx:85 | every name ending in '.' and a non-empty word yields that word |
| EditProfile.MimeType | app/edit-profile.tsx:85-86 | the type is "image/" + the extension, else "image/jpeg" |
| EditProfile.DefaultFilenameMime | app/edit-profile.tsx:84-86 | the default name "avatar.jpg" is sent as "image/jpg" |
| EditProfile.UploadRequest | app/edit-profile.tsx:84-104 | the upload carries the token, the URI, the derived file name and the type derived from that name |
| EditProfile.UploadResult | app/edit-profile.tsx:107-111 | the URL is a non-empty `data.data.avatarUrl`, else a non-empty `data.avatarUrl`, else none; any failure gives none |
| EditProfile.Screen.UploadImage | app/edit-profile.tsx:81-112 | the upload request carries the URI, the derived file name and type; the result is `UploadResult` of the reply |
| EditProfile.SaveProblem | app/edit-profile.tsx:115-127 | a blank trimmed name, then an alias shorter than 3, is rejected with its message |
| EditProfile.ShouldUpload | app/edit-profile.tsx:136 | an upload is due exactly when the picked URI is non-empty and not the stored avatar |
| EditProfile.NoUploadWithoutPick | app/edit-profile.tsx:22-23 | the avatar field as the screen opens never causes an upload (app/edit-profile.tsx:136) |
| EditProfile.SavedAvatarUrl | app/edit-profile.tsx:132-140 | the avatar saved is the uploaded URL when an upload was due and returned one, else the stored one |
| EditProfile.SaveRequests | app/edit-profile.tsx:135-159 | an upload request only when the picked URI is non-empty and differs from the stored avatar, then the update with the trimmed name and the alias as typed |
| EditProfile.SavedUser | app/edit-profile.tsx:164-170 | the session keeps its other fields and takes the server's name, '@' + its alias, the placeholder-free avatar URL and `profileComplete` true |
| EditProfile.Save | app/edit-profile.tsx:114-188 | a failed check sends nothing; otherwise the requests of `SaveRequests`, and an ok reply, unwrapped, rewrites the session |
| EditProfile.FailedUploadKeepsAvatar | app/edit-profile.tsx:136-139 | a failed upload keeps the stored avatar, minus a placeholder |
| EditProfile.PlaceholderClearedOnSave | app/edit-profile.tsx:22-23 | a stored placeholder avatar is cleared by the first save without a new picture (app/edit-profile.tsx:168) |
| EditProfile.Screen.SavePressed | app/edit-profile.tsx:114-188 | the toast, its type, the requests and the session are those of `Save`; failures leave the session unchanged |
| EditProfile.Screen.constructor | app/edit-profile.tsx:19-27 | the fields start as `InitialName`, `InitialAlias` and `InitialAvatarUri` of the session, nothing loading and no toast |
| EditProfile.Screen.NameChange | app/edit-profile.tsx:248 | the name field holds the text as typed; the other fields are unchanged |
| EditProfile.Screen.AliasChange | app/edit-profile.tsx:29-36 | the alias field holds the '@'-stripped sanitised text |
| EditProfile.Screen.ImagePicked | app/edit-profile.tsx:56 | the avatar field holds the picked URI (also app/edit-profile.tsx:77); the other fields are unchanged |
| Session.AuthStore.constructor | contexts/auth-context.tsx:22 | there is no user at first and the store is not authenticated |
| Session.AuthStore.Authenticated | contexts/auth-context.tsx:40 | authenticated exactly when there is a user |
| Session.AuthStore.Login | contexts/auth-context.tsx:24-26 | the user becomes exactly the given record; the last write wins |
| Session.AuthStore.Signup | contexts/auth-context.tsx:32-34 | the same effect as `Login` |
| Session.AuthStore.Logout | contexts/auth-context.tsx:28-30 | the user is cleared and the store is no longer authenticated |
| Routing.Redirect | app/index.tsx:7-11 | the target is "/(tabs)" exactly when authenticated, else "/login" |
| Routing.RedirectIgnoresProfile | app/index.tsx:5-11 | `profileComplete` never changes the target |
| Routing.GuardAfterLogout | app/index.tsx:11 | after `logout` the guard always yields "/login" (contexts/auth-context.tsx:28-30) |
| Routing.GuardAfterLogin | app/index.tsx:7-9 | after `login` the guard always yields "/(tabs)" (contexts/auth-context.tsx:24-26) |
| Balance.Deducted | contexts/balance-context.tsx:15 | the new balance is never negative: lower by exactly the amount when it is covered, else 0 |
| Balance.AddThenDeduct | contexts/balance-context.tsx:15-19 | adding then deducting an amount restores a non-negative balance |
| Balance.BalanceStore.constructor | contexts/balance-context.tsx:12 | the balance starts at 54.00 |
| Balance.BalanceStore.Deduct | contexts/balance-context.tsx:14-16 | the balance becomes `Deducted` of the old balance |
| Balance.BalanceStore.Add | contexts/balance-context.tsx:18-20 | the amount is added with no sign check |
| History.Stamp | contexts/history-context.tsx:54-58 | the entry copies the caller's fields; its id and date come from the clock |
| History.InitialHistory | contexts/history-context.tsx:20-48 | the seed is three tips with ids "1", "2", "3" and negative amounts |
| History.ExtendsTransitive | contexts/history-context.tsx:53-61 | entries are only ever added in front, never removed or edited, across any number of additions |
| History.HistoryStore.constructor | contexts/history-context.tsx:51 | the list starts as the seed |
| History.HistoryStore.AddTransaction | contexts/history-context.tsx:53-61 | the new entry is prepended; the length grows by one and the old entries are unchanged and in order |
| Tip.TipAmount | app/tip-worker.tsx:42 | a selected preset wins over the parsed custom text |
| Tip.CheckTip | app/tip-worker.tsx:44-54 | an unparsable or non-positive amount is invalid, one above the balance is insufficient, and exactly the finite amounts in (0, balance] are sent |
| Tip.RefusalMessage | app/tip-worker.tsx:44-54 | an invalid amount and an insufficient balance each get their own message, never the other's |
| Tip.PresetsValid | app/tip-worker.tsx:13 | every preset is sent exactly when the balance covers it |
| Tip.PresetIgnoresCustom | app/tip-worker.tsx:42 | with a preset selected the custom text is irrelevant |
| Tip.SentTipNeverClamps | app/tip-worker.tsx:50-56 | a sent tip lowers the balance by exactly its amount, never meeting the clamp |
| Tip.DisplayedAmount | app/tip-worker.tsx:74-78 | the shown amount is the preset, else the parsed custom text, else 1 |
| Tip.DisplayedIsSent | app/tip-worker.tsx:42 | with a preset or some custom text, the shown amount is the one a send checks (app/tip-worker.tsx:74-78) |
| Tip.Screen.constructor | app/tip-worker.tsx:22-23 | the preset 1 is selected and the custom text is empty |
| Tip.Screen.SelectAmount | app/tip-worker.tsx:32-39 | a preset selects it and clears the custom text; "custom" clears the selection and keeps the text |
| Tip.Screen.CustomChange | app/tip-worker.tsx:153 | the custom text is stored as typed; the selection is unchanged |
| Tip.Screen.SendTip | app/tip-worker.tsx:41-72 | a refused amount changes neither store; a sent tip deducts exactly the amount, prepends one tip of minus the amount and reports it |
| Avatar.Initial | components/avatar.tsx:13-16 | empty exactly for a blank name, else the upper-cased first character of the trimmed name |
| Avatar.CodeSum | components/avatar.tsx:24 | every character's code is counted: none exceeds the sum |
| Avatar.CodeSumConcat | components/avatar.tsx:24 | the sum of a concatenation is the sum of the parts' sums, so the left fold adds each code once |
| Avatar.ColorIndex | components/avatar.tsx:24 | the index is the code sum mod 10, always within the palette |
| Avatar.BackgroundColor | components/avatar.tsx:18-26 | the colour is one of the ten palette colours |
| Avatar.CodeSumPermutation | components/avatar.tsx:24 | the code sum depends only on the multiset of characters |
| Avatar.ColorIgnoresOrder | components/avatar.tsx:24 | any rearrangement of the name's characters gets the same colour |
| Avatar.ShowsFallback | components/avatar.tsx:28 | after an image error the fallback always shows; before one, exactly when the URI is absent or empty |
| Avatar.AvatarView.constructor | components/avatar.tsx:11 | there is no image error at first; the fallback shows exactly when the URI is falsy |
| Avatar.AvatarView.ImageFailed | components/avatar.tsx:65 | the error flag only goes from false to true, and the fallback then shows (components/avatar.tsx:28) |

## Left out

- Network I/O: every `fetch`, `response.json()` and the construction of headers and bodies; replies are inputs and requests are values listing the fields that vary.
- Rendering, styles, navigation calls, focus moves between the code slots, the backspace handler and the `setTimeout` delays.
- The toast component's animation; only the message, its visibility and its type are kept.
- app/_layout.tsx, metro.config.js and `getBaseUrl` (platform and build wiring).
- The image picker and camera permission flows and the FormData body of the upload; a picked URI enters through `EditProfile.Screen.ImagePicked`.
- The `MOCK_MODE` branches, which a constant switches off.
- Floating point: amounts are `real`; `parseFloat` and `toFixed(2)` are parameters of `Tip.Screen.SendTip`.
- The clock: transaction ids and dates are parameters of `History.HistoryStore.AddTransaction`.
- Console logging.
- Thrown values that are not `Error` objects, whose generic fallback messages are therefore not modelled.
- Interleaving: each handler runs to completion, so the window in which `loading` is true and another event could arrive is not modelled.
- Avatar.Initial: upper-cases ASCII letters only; Unicode case mapping, including one character becoming several, is not modelled.
- Avatar.CodeSum: a character's code is its scalar value, which agrees with `charCodeAt` only inside the Basic Multilingual Plane.
- VerifySms.SlotText: keeps the last character, which is the last UTF-16 unit only inside the Basic Multilingual Plane.
- EditProfile.Screen.SavePressed: requires a signed-in session, as the screen's `user!` assumes; spreading a null session is not modelled.
- The text fields' `maxLength` truncation by the platform, apart from the 12-character bound proved for the dashed form.
