# Session, profile and form logic of a minimal profile app, in Dafny

The application is a thin React client over a hosted backend (identity
provider, `profiles` table, `avatars` storage bucket). This project models the
client's own decision logic and proves what it promises:

- **`AuthContext`**: the `AuthProvider` component as a class holding its three
  state cells `user`, `profile` and `loading`. It has one method per event:
  the initial session snapshot, a pushed session change, profile resolution
  (found, provisioned after `PGRST116`, or failed), `updateProfile`,
  `uploadAvatar` and `signOut`. The pure parts are functions with lemmas:
  the default username, the optimistic merge and the avatar storage path.
- **`Signup`**: the username sanitiser (`toLowerCase` then delete everything
  outside `[a-z0-9_]`) with its character-class, idempotence,
  fixed-point, per-character and subsequence properties, and the
  `SignupForm` class whose `HandleSignup` branches over the sign-up and
  profile-insert results.
- **`SupabaseClient`**: `ensureProfile` as a pure function from the lookup
  result and `userData` to the row it inserts, with its `||` fallback chains.
- **`ProfilePage`**: the profile page's state as a class that calls into the
  `AuthProvider`. It covers loading by username, the edit form,
  `handleSubmit` with its uniqueness pre-check, avatar pick and upload. It
  also has the pure display rules: own-profile test, avatar source, heading
  and the loading/not-found screen.
- **`Js`** and **`Remote`**: JavaScript values (objects as string-keyed maps,
  truthiness, `||`, `${n}` for a timestamp) and the shapes of backend results.

Every backend call is an input: the model receives the fetch, insert, update,
upload or sign-up result as a parameter and never performs the call. Events
run one at a time, to completion. Clock readings (`Date.now()` and ISO
timestamps) are parameters too.

Behaviour of the code worth knowing:

- `updateProfile` merges whatever keys it is given, not a fixed field set.
  The profile page passes its whole form object, including any field an
  input named.
- `uploadAvatar` ignores the outcome of its `updateProfile` call. Once the
  upload succeeded it reports success with the URL, even if recording the
  URL failed.
- A failed provisioning insert or a failed fetch leaves the cached profile as
  it was; it is not reset to null.
- No username length rule is applied anywhere in the code.
- The initial session snapshot without a user does not clear the cached
  profile. Only the pushed "no session" event and `signOut` do.
- The usernames the provisioning paths insert (the email's local part, or
  the given or metadata username) never pass through the sign-up form's
  sanitiser. An address such as `J.D@x` provisions the username `J.D`, which
  the form could not have produced.

## Model

| member | source | states |
|---|---|---|
| `Js.Or` | src/lib/supabaseClient.js:26-27 | an `or` chain yields one of its operands, which is truthy unless it is the last |
| `Js.OrIsFirstTruthy` | src/lib/supabaseClient.js:26-27 | the operand an `or` chain yields is the one at the first truthy position, or the last operand when none before it is truthy |
| `Js.Display` | src/components/Profile.jsx:206 | a rendered value is non-empty text exactly when the value is truthy |
| `Js.Decimal` | src/context/AuthContext.jsx:97 | `${Date.now()}` is a non-empty string of decimal digits with no leading zero |
| `Js.DecimalRoundTrip` | src/context/AuthContext.jsx:97 | reading the digits of `${ts}` back gives `ts` |
| `Js.DecimalInjective` | src/context/AuthContext.jsx:97 | two timestamps render alike only when they are equal |
| `Remote.NewProfileRow` | src/lib/supabaseClient.js:24-32 | a provisioned row has exactly the keys id, username, full_name, avatar_url, bio, created_at and updated_at, with the given id, username and full name, a null avatar, an empty bio, equal timestamps, and a string in every field but the avatar |
| `Remote.Data` | src/lib/supabaseClient.js:13-19 | a `.single()` query has data exactly when it returned a row |
| `AuthContext.LocalPartOf` | src/context/AuthContext.jsx:46 | `email?.split('@')[0]` is undefined without a string email, and otherwise a '@'-free prefix of it |
| `AuthContext.LocalPart` | src/context/AuthContext.jsx:46 | `split('@')[0]` is the prefix of the email before its first '@', or the whole email when it has none |
| `AuthContext.DefaultUsername` | src/context/AuthContext.jsx:46 | the provisioned username is never empty |
| `AuthContext.DefaultUsernameIsLocalPartOrTimestamp` | src/context/AuthContext.jsx:46 | the provisioned username is the email's local part when non-empty, else `user_` + the timestamp |
| `AuthContext.ProvisionRow` | src/context/AuthContext.jsx:46-59 | the provisioned row has the user's id, the default username (the email's local part when non-empty, else `user_<ts>`), empty full_name and bio, a null avatar_url and both timestamps equal to now |
| `AuthContext.ProvisionedUsernameCanBreakFormRule` | src/context/AuthContext.jsx:46 | the email `J.D@x` provisions the username `J.D`, which is not over `[a-z0-9_]` |
| `AuthContext.Merge` | src/context/AuthContext.jsx:87 | the merged profile has the keys of the previous profile, of the updates and `updated_at`; update keys are overwritten, all other keys keep their previous values |
| `AuthContext.MergeIntoNull` | src/context/AuthContext.jsx:87 | merging into a null profile yields exactly the updates plus `updated_at` |
| `AuthContext.MergeIdempotent` | src/context/AuthContext.jsx:87 | applying the same update twice equals applying it once |
| `AuthContext.Extension` | src/context/AuthContext.jsx:96 | the extension contains no '.' and is no longer than the file name |
| `AuthContext.ExtensionIsAfterLastDot` | src/context/AuthContext.jsx:96 | the extension is the longest dot-free suffix of the file name: the text after the last '.', or the whole name |
| `AuthContext.AvatarPath` | src/context/AuthContext.jsx:97 | the storage path is the user's folder `<id>/` followed by the timestamp's digits, '.', and the extension |
| `AuthContext.AvatarPathsDiffer` | src/context/AuthContext.jsx:96-97 | for one user, equal storage paths imply equal timestamps, whatever the file names |
| `AuthContext.AuthProvider.constructor` | src/context/AuthContext.jsx:9-11 | no user, no profile, loading |
| `AuthContext.AuthProvider.InitialSession` | src/context/AuthContext.jsx:14-21 | user becomes the session's user; without one, loading ends and the profile is untouched; with one, getProfile is started for its id |
| `AuthContext.AuthProvider.SessionChanged` | src/context/AuthContext.jsx:23-31 | user becomes the session's user; without one, the profile is discarded and loading ends; with one, getProfile is started for its id |
| `AuthContext.AuthProvider.GetProfile` | src/context/AuthContext.jsx:36-76 | loading always ends; a fetched row is cached; on `PGRST116` the default row is inserted and the stored row cached; an insert failure or any other fetch error is logged and leaves the profile unchanged |
| `AuthContext.AuthProvider.UpdateProfile` | src/context/AuthContext.jsx:78-92 | with a user: sends the updates plus `updated_at` for the user's id; on success the profile becomes the merge and the reply is success; on failure the reply carries the message and the profile is unchanged; without a user the `user.id` TypeError is the reply and nothing is sent |
| `AuthContext.AuthProvider.UploadAvatar` | src/context/AuthContext.jsx:94-115 | the path is `<id>/<ts>.<ext>`; an upload error is the reply, no update is sent and the profile is unchanged; after a successful upload an update of `avatar_url` to the URL plus `updated_at` is sent for the user's id, the reply is success with the URL whatever the update's outcome, and the profile holds the URL only if the update succeeded |
| `AuthContext.AuthProvider.SignOut` | src/context/AuthContext.jsx:117-121 | user and profile become null whatever the provider answered; loading is untouched |
| `Signup.ToLower` | src/components/Signup.jsx:71 | lowering keeps the length, leaves no character in 'A'..'Z', turns each capital into the letter 32 code points above it, and keeps every other character in place |
| `Signup.KeepUsernameChars` | src/components/Signup.jsx:71 | the deletion leaves only `[a-z0-9_]` and never lengthens |
| `Signup.Sanitize` | src/components/Signup.jsx:71 | the sanitised username contains only `[a-z0-9_]` and is never longer than the input |
| `Signup.KeepUsernameCharsIsSubsequence` | src/components/Signup.jsx:71 | the deletion's output is a subsequence of its input |
| `Signup.SanitizeIsSubsequence` | src/components/Signup.jsx:71 | the sanitised username is an order-preserving subsequence of the lowered input |
| `Signup.KeepUsernameCharsFixesUsernames` | src/components/Signup.jsx:71 | the deletion leaves text over `[a-z0-9_]` unchanged |
| `Signup.SanitizeFixesUsernames` | src/components/Signup.jsx:71 | text already over `[a-z0-9_]` is returned unchanged |
| `Signup.SanitizeIdempotent` | src/components/Signup.jsx:71 | sanitising twice equals sanitising once |
| `Signup.SanitizeChar` | src/components/Signup.jsx:71 | one character is lowered and kept exactly when the lowered character is in `[a-z0-9_]` |
| `Signup.SanitizeLowersCapitals` | src/components/Signup.jsx:71 | an ASCII capital becomes its lowercase letter, not deleted |
| `Signup.KeepUsernameCharsAppend` | src/components/Signup.jsx:71 | the deletion distributes over concatenation |
| `Signup.SanitizeAppend` | src/components/Signup.jsx:71 | sanitising a concatenation sanitises each part, so with `SanitizeChar` it fixes the output on every input |
| `Signup.TimestampUsernameIsSanitized` | src/context/AuthContext.jsx:46 | the fallback username `user_<ts>` is over `[a-z0-9_]` and the sanitiser keeps it as it is |
| `Signup.SignupForm.constructor` | src/components/Signup.jsx:7-12 | all fields empty, not loading, no error |
| `Signup.SignupForm.ChangeUsername` | src/components/Signup.jsx:71 | the username field holds the sanitised input |
| `Signup.SignupForm.HandleSignup` | src/components/Signup.jsx:14-60 | loading ends; a sign-up error is stored with no insert, alert or navigation; otherwise the error is cleared, a returned user gets a row with the form's username and full_name, empty bio and null avatar, an insert error is logged only when its code is not `23505`, and the page alerts and navigates to `/signin` |
| `SupabaseClient.FallbackUsername` | src/lib/supabaseClient.js:26 | the inserted username is never empty |
| `SupabaseClient.FallbackUsernameIsFirstTruthy` | src/lib/supabaseClient.js:26 | the inserted username is the first truthy one of `userData.username`, `userData.user_metadata.username` and `user_<ts>` |
| `SupabaseClient.FallbackFullName` | src/lib/supabaseClient.js:27 | the inserted full name is empty exactly when neither `userData.full_name` nor `userData.user_metadata.full_name` is truthy |
| `SupabaseClient.FallbackFullNameIsFirstTruthy` | src/lib/supabaseClient.js:27 | the inserted full name is the first truthy one of `userData.full_name` and `userData.user_metadata.full_name`, else empty |
| `SupabaseClient.EnsureProfile` | src/lib/supabaseClient.js:10-40 | a lookup returning a row inserts nothing; any lookup without data, failed ones included, inserts a row with `id = userId`, the fallback username and full name, null avatar and empty bio; the insert error is only logged |
| `ProfilePage.ScreenOf` | src/components/Profile.jsx:117-123 | loading shows the loading text; otherwise a missing profile shows "Profile not found" and a present one is shown |
| `ProfilePage.IsOwnProfile` | src/components/Profile.jsx:57 | own profile exactly when there is a user, a profile, and the profile's id equals the user's id |
| `ProfilePage.AvatarSource` | src/components/Profile.jsx:131 | the avatar source is never empty |
| `ProfilePage.AvatarSourceFallsBack` | src/components/Profile.jsx:131 | the preview if any, else a non-empty stored `avatar_url`, else the placeholder |
| `ProfilePage.Heading` | src/components/Profile.jsx:206 | the heading is empty only when neither full_name nor username is truthy |
| `ProfilePage.HeadingFallsBack` | src/components/Profile.jsx:206 | the heading is a non-empty full_name, else the username |
| `ProfilePage.TextOrEmpty` | src/components/Profile.jsx:32-34 | `x or ''` is the text of a truthy value and empty otherwise |
| `ProfilePage.FormFromProfile` | src/components/Profile.jsx:31-35 | the form filled from a profile has exactly the username, full_name and bio fields, each holding the profile's text for that field, and empty when that value is missing, null or empty |
| `ProfilePage.UsernameChanged` | src/components/Profile.jsx:78 | the username counts as unchanged exactly when the profile's username is a string equal to the form's, so a missing or null one always counts as changed |
| `ProfilePage.ProfilePageState.constructor` | src/components/Profile.jsx:10-20 | no profile, loading, not editing, empty three-field form, no file, no preview, no message |
| `ProfilePage.ProfilePageState.LoadProfileByUsername` | src/components/Profile.jsx:40-55 | loading ends; a found row is shown; any failed lookup keeps the profile, so a page without one shows "Profile not found" whatever the error |
| `ProfilePage.ProfilePageState.AdoptSessionProfile` | src/components/Profile.jsx:28-38 | without a route username and with a session profile, the page shows that profile, fills the form from it and stops loading; otherwise nothing changes |
| `ProfilePage.ProfilePageState.HandleInputChange` | src/components/Profile.jsx:59-64 | the named field takes the value and every other field is unchanged |
| `ProfilePage.ProfilePageState.HandleAvatarChange` | src/components/Profile.jsx:66-72 | a picked file is kept with its preview URL; no file changes nothing |
| `ProfilePage.ProfilePageState.HandleSubmit` | src/components/Profile.jsx:74-101 | the pre-check runs exactly when the username changed; a pre-check row stops with "Username already taken" and sends no update; otherwise `updateProfile` gets the form, so the update sent is the form's fields plus `updated_at` for the signed-in user's id; success closes the form and navigates to the new username only if it changed, failure shows the error and keeps editing |
| `ProfilePage.ProfilePageState.HandleAvatarUpload` | src/components/Profile.jsx:103-115 | without a file nothing changes and nothing is sent; an upload error is shown, the file kept and no update sent; a successful upload sends the `avatar_url` update for the user's id; a successful upload shows success and clears the picker even when the profile update failed |

## Left out

- Building the backend client and its credentials (src/lib/supabaseClient.js:4-7). Every call into the identity provider, the table or the bucket is a parameter holding its result.
- Asynchrony: events are atomic and sequential. A `getProfile` or `updateProfile` result that arrives after a later session event is not modelled, and neither is unsubscribing from the session stream (src/context/AuthContext.jsx:33).
- Clocks: `Date.now()` is the parameter `ts` and `new Date().toISOString()` the parameter `now`. Two readings within one call are taken as one instant.
- `toLowerCase` beyond ASCII: only 'A'..'Z' are lowered. Characters such as the Kelvin sign, which JavaScript lowers to an ASCII letter, are deleted in the model.
- Values other than strings, `null` and `undefined` inside rows and `userData`: truthiness is modelled for strings only.
- The TypeError text for `user.id` on a null user is the V8 engine's message. Other engines word it differently.
- `ensureProfile`'s outer `catch` (src/lib/supabaseClient.js:37-39): the backend library reports errors as values, so no call throws. The function has no error result at all, which is how the helper never propagates one.
- ProfilePage.ProfilePageState.HandleSubmit: requires a loaded page profile. The edit form is only rendered once one is loaded (src/components/Profile.jsx:121-123), so the `profile.username` access on a null profile cannot happen.
- Browser-enforced input constraints (`required`, `pattern`, `minLength`), JSX markup, CSS, `alert` and `console.error`. The alert text, logged errors and navigation targets are returned as out-parameters. `URL.createObjectURL` is a parameter.
- Plain input setters and toggles: email, password and full-name inputs (src/components/Signup.jsx:82,90,99), the edit and cancel buttons (src/components/Profile.jsx:199,215) and the sign-out button (src/components/Profile.jsx:218), which calls `signOut` directly.
- The row the store echoes back after provisioning is a parameter. Server defaults, triggers and uniqueness enforcement belong to the backend.
- `getPublicUrl` is a parameter, not a derivation from the path.
- src/components/Signin.jsx, src/components/Dashboard.jsx, src/App.jsx, src/router.jsx, src/main.jsx and vite.config.js: routing and view glue.
