/** The public profile page (`/:username`): loading a profile by username,
    the edit form and its submit handler, the avatar picker and upload, and
    the values the page renders. Identity-bound writes go through the
    `AuthProvider` the page reads from. */
module ProfilePage {
  import opened Js
  import opened Remote
  import opened AuthContext

  /** The `{ type, text }` banner of the page. */
  datatype Message = Message(kind: string, text: string)

  const NoMessage: Message := Message("", "")
  const TakenMessage: Message := Message("error", "Username already taken")
  const UpdatedMessage: Message := Message("success", "Profile updated successfully!")
  const AvatarUpdatedMessage: Message := Message("success", "Avatar updated successfully!")
  const PlaceholderAvatar: string := "https://via.placeholder.com/150x150?text=Avatar"

  /** What the page shows: the loading text, "Profile not found", or the
      profile itself. */
  datatype Screen = LoadingScreen | NotFoundScreen | ProfileScreen(shown: Record)

  /** Lines 117-123 of the page: loading first, then a missing profile. */
  function ScreenOf(loading: bool, profile: Option<Record>): (screen: Screen)
    ensures screen.LoadingScreen? <==> loading
    ensures screen.NotFoundScreen? <==> !loading && profile.None?
    ensures screen.ProfileScreen? ==> profile == Some(screen.shown)
  {
    if loading then LoadingScreen
    else if profile.None? then NotFoundScreen
    else ProfileScreen(profile.value)
  }

  /** `user && profile?.id === user.id` */
  function IsOwnProfile(user: Option<User>, profile: Option<Record>): (own: bool)
    ensures own <==> user.Some? && profile.Some? && Field(profile.value, "id") == Str(user.value.id)
  {
    user.Some? && (if profile.Some? then Field(profile.value, "id") else Undefined) == Str(user.value.id)
  }

  /** The `<img>` source: `avatarPreview || profile.avatar_url || placeholder`. */
  function AvatarSource(preview: Option<string>, profile: Record): (src: string)
    ensures src != ""
  {
    var previewValue := if preview.Some? then Str(preview.value) else Null;
    Or([previewValue, Field(profile, "avatar_url"), Str(PlaceholderAvatar)]).s
  }

  /** The preview wins when there is one, then a stored avatar URL, then the
      placeholder. */
  lemma AvatarSourceFallsBack(preview: Option<string>, profile: Record)
    ensures preview.Some? && preview.value != "" ==> AvatarSource(preview, profile) == preview.value
    ensures !(preview.Some? && preview.value != "") && Truthy(Field(profile, "avatar_url")) ==>
      AvatarSource(preview, profile) == Field(profile, "avatar_url").s
    ensures !(preview.Some? && preview.value != "") && !Truthy(Field(profile, "avatar_url")) ==>
      AvatarSource(preview, profile) == PlaceholderAvatar
  {
    var previewValue := if preview.Some? then Str(preview.value) else Null;
    var operands := [previewValue, Field(profile, "avatar_url"), Str(PlaceholderAvatar)];
    if Truthy(operands[0]) {
      OrIsFirstTruthy(operands, 0);
    } else if Truthy(operands[1]) {
      OrIsFirstTruthy(operands, 1);
    } else {
      OrIsFirstTruthy(operands, 2);
    }
  }

  /** The heading: `profile.full_name || profile.username`, as rendered. */
  function Heading(profile: Record): (text: string)
    ensures text == "" ==> !Truthy(Field(profile, "full_name")) && !Truthy(Field(profile, "username"))
  {
    Display(Or([Field(profile, "full_name"), Field(profile, "username")]))
  }

  /** A non-empty display name is the heading; otherwise the username is. */
  lemma HeadingFallsBack(profile: Record)
    ensures Truthy(Field(profile, "full_name")) ==> Heading(profile) == Field(profile, "full_name").s
    ensures !Truthy(Field(profile, "full_name")) ==> Heading(profile) == Display(Field(profile, "username"))
  {
    var operands := [Field(profile, "full_name"), Field(profile, "username")];
    if Truthy(operands[0]) {
      OrIsFirstTruthy(operands, 0);
    } else {
      OrIsFirstTruthy(operands, 1);
    }
  }

  /** `x || ''` on a profile field. */
  function TextOrEmpty(v: Value): (text: string)
    ensures Truthy(v) ==> text == v.s
    ensures !Truthy(v) ==> text == ""
  {
    var operands := [v, Str("")];
    if Truthy(v) then OrIsFirstTruthy(operands, 0); Or(operands).s
    else OrIsFirstTruthy(operands, 1); Or(operands).s
  }

  /** The fields of the edit form. */
  const FormFields: set<string> := {"username", "full_name", "bio"}

  /** The edit form filled from a profile: each field shows the profile's
      text for it, or nothing when that is missing, null or empty. */
  function FormFromProfile(profile: Record): (form: map<string, string>)
    ensures form.Keys == FormFields
    ensures forall k :: k in form ==> form[k] == TextOrEmpty(Field(profile, k))
    ensures forall k :: k in form && !Truthy(Field(profile, k)) ==> form[k] == ""
  {
    map k | k in FormFields :: TextOrEmpty(Field(profile, k))
  }

  /** The form's fields as the object passed to `updateProfile`. */
  function AsRecord(form: map<string, string>): (values: Record)
    ensures values.Keys == form.Keys
    ensures forall k :: k in form ==> values[k] == Str(form[k])
  {
    map k | k in form :: Str(form[k])
  }

  /** `formData.username !== profile.username`: a strict comparison, so a
      profile whose username is missing or null never matches the form. */
  function UsernameChanged(form: map<string, string>, profile: Record): (changed: bool)
    requires "username" in form
    ensures !Field(profile, "username").Str? ==> changed
    ensures !changed <==> Field(profile, "username").Str? && Field(profile, "username").s == form["username"]
  {
    Str(form["username"]) != Field(profile, "username")
  }

  /** The `Profile` component's state, with the `AuthProvider` it reads. */
  class ProfilePageState {
    const auth: AuthProvider
    const routeUsername: Value
    var profile: Option<Record>
    var loading: bool
    var editing: bool
    var formData: map<string, string>
    var avatarFile: Option<string>
    var avatarPreview: Option<string>
    var message: Message

    /** The form always has the three fields it starts with; input changes
        only add or replace fields. */
    ghost predicate Valid()
      reads this
    {
      "username" in formData && "full_name" in formData && "bio" in formData
    }

    /** The component's initial state (lines 10-20). */
    constructor (auth: AuthProvider, routeUsername: Value)
      ensures Valid()
      ensures this.auth == auth && this.routeUsername == routeUsername
      ensures profile == None && loading && !editing
      ensures formData == map["username" := "", "full_name" := "", "bio" := ""]
      ensures avatarFile == None && avatarPreview == None && message == NoMessage
    {
      this.auth := auth;
      this.routeUsername := routeUsername;
      profile, loading, editing := None, true, false;
      formData := map["username" := "", "full_name" := "", "bio" := ""];
      avatarFile, avatarPreview, message := None, None, NoMessage;
    }

    /** `loadProfileByUsername()`: a found row is shown; a failed lookup,
        whatever its error, leaves the profile as it was, so a page that had
        none shows "Profile not found". Loading always ends. */
    method LoadProfileByUsername(response: FetchResult)
      modifies this`profile, this`loading
      ensures !loading
      ensures response.Fetched? ==> profile == Some(response.row) && ScreenOf(loading, profile) == ProfileScreen(response.row)
      ensures response.FetchFailed? ==> profile == old(profile)
      ensures response.FetchFailed? && old(profile).None? ==> ScreenOf(loading, profile) == NotFoundScreen
    {
      if response.Fetched? {
        profile := Some(response.row);
      }
      loading := false;
    }

    /** The effect on lines 28-38: without a route username, the page shows
        the signed-in user's own profile and fills the form from it. */
    method AdoptSessionProfile()
      requires Valid()
      modifies this`profile, this`formData, this`loading
      ensures Valid()
      ensures !Truthy(routeUsername) && auth.profile.Some? ==>
        profile == auth.profile && formData == FormFromProfile(auth.profile.value) && !loading
      ensures !(!Truthy(routeUsername) && auth.profile.Some?) ==>
        profile == old(profile) && formData == old(formData) && loading == old(loading)
    {
      if !Truthy(routeUsername) && auth.profile.Some? {
        profile := auth.profile;
        formData := FormFromProfile(auth.profile.value);
        loading := false;
      }
    }

    /** `handleInputChange`: exactly the named field takes the new value. */
    method HandleInputChange(name: string, value: string)
      requires Valid()
      modifies this`formData
      ensures Valid()
      ensures formData.Keys == old(formData).Keys + {name}
      ensures formData[name] == value
      ensures forall k :: k in old(formData) && k != name ==> formData[k] == old(formData)[k]
    {
      formData := formData[name := value];
    }

    /** `handleAvatarChange`: a picked file is kept with its object URL as
        the preview; an empty pick changes nothing. */
    method HandleAvatarChange(file: Option<string>, objectUrl: string)
      modifies this`avatarFile, this`avatarPreview
      ensures file.Some? ==> avatarFile == file && avatarPreview == Some(objectUrl)
      ensures file.None? ==> avatarFile == old(avatarFile) && avatarPreview == old(avatarPreview)
    {
      if file.Some? {
        avatarFile := file;
        avatarPreview := Some(objectUrl);
      }
    }

    /** `handleSubmit`. A changed username is first looked up: if the lookup
        returns a row the submit stops with "Username already taken".
        Otherwise the whole form goes to `updateProfile`; on success the form
        closes and, only if the username changed, the page navigates to the
        new username; on failure the error is shown and the form stays. */
    method HandleSubmit(precheck: Option<Record>, updateResponse: Option<RemoteError>, now: string)
      returns (checked: Option<string>, navigatedTo: Option<string>, sent: Option<UpdateRequest>)
      requires Valid() && profile.Some?
      modifies this`message, this`editing, auth`profile
      ensures Valid()
      ensures UsernameChanged(formData, profile.value) <==> checked == Some(formData["username"])
      ensures !UsernameChanged(formData, profile.value) ==> checked == None
      ensures checked.Some? && precheck.Some? ==>
        message == TakenMessage && editing == old(editing) && navigatedTo == None && sent == None &&
        auth.profile == old(auth.profile)
      ensures (checked.None? || precheck.None?) && auth.user.Some? ==>
        sent == Some(UpdateRequest(auth.user.value.id, AsRecord(formData)[UpdatedAt := Str(now)]))
      ensures (checked.None? || precheck.None?) && auth.user.None? ==>
        message == Message("error", NullUserMessage) && editing == old(editing) && navigatedTo == None &&
        sent == None && auth.profile == old(auth.profile)
      ensures (checked.None? || precheck.None?) && auth.user.Some? && updateResponse.Some? ==>
        message == Message("error", updateResponse.value.message) && editing == old(editing) && navigatedTo == None &&
        auth.profile == old(auth.profile)
      ensures (checked.None? || precheck.None?) && auth.user.Some? && updateResponse.None? ==>
        && message == UpdatedMessage && !editing
        && auth.profile == Some(Merge(old(auth.profile), AsRecord(formData), now))
        && navigatedTo == (if checked.Some? then Some("/" + formData["username"]) else None)
    {
      message := NoMessage;
      var changed := UsernameChanged(formData, profile.value);
      checked, navigatedTo, sent := None, None, None;
      if changed {
        checked := Some(formData["username"]);
        if precheck.Some? {
          message := TakenMessage;
          return;
        }
      }
      var result;
      result, sent := auth.UpdateProfile(AsRecord(formData), updateResponse, now);
      if result.Success? {
        message := UpdatedMessage;
        editing := false;
        if changed {
          navigatedTo := Some("/" + formData["username"]);
        }
      } else {
        message := Message("error", result.error);
      }
    }

    /** `handleAvatarUpload`. Without a picked file nothing happens. Otherwise
        the file goes through `uploadAvatar`: a success message and a cleared
        picker follow a successful upload even when recording the URL on the
        profile failed; an error is shown and the picked file kept. */
    method HandleAvatarUpload(ts: nat, uploadError: Option<RemoteError>, publicUrl: string,
                              updateResponse: Option<RemoteError>, now: string)
      returns (path: Option<string>, sent: Option<UpdateRequest>)
      modifies this`message, this`avatarFile, this`avatarPreview, auth`profile
      ensures old(avatarFile).None? ==>
        path == None && sent == None && message == old(message) && avatarFile == None && avatarPreview == old(avatarPreview) &&
        auth.profile == old(auth.profile)
      ensures old(avatarFile).Some? && auth.user.None? ==>
        path == None && sent == None && message == Message("error", NullUserMessage) &&
        avatarFile == old(avatarFile) && avatarPreview == old(avatarPreview) && auth.profile == old(auth.profile)
      ensures old(avatarFile).Some? && auth.user.Some? ==>
        path == Some(AvatarPath(auth.user.value.id, ts, old(avatarFile).value))
      ensures old(avatarFile).Some? && auth.user.Some? && uploadError.Some? ==>
        message == Message("error", uploadError.value.message) && sent == None &&
        avatarFile == old(avatarFile) && avatarPreview == old(avatarPreview) && auth.profile == old(auth.profile)
      ensures old(avatarFile).Some? && auth.user.Some? && uploadError.None? ==>
        message == AvatarUpdatedMessage && avatarFile == None && avatarPreview == None &&
        sent == Some(UpdateRequest(auth.user.value.id, map["avatar_url" := Str(publicUrl), UpdatedAt := Str(now)])) &&
        auth.profile == (if updateResponse.None?
                         then Some(Merge(old(auth.profile), map["avatar_url" := Str(publicUrl)], now))
                         else old(auth.profile))
    {
      path, sent := None, None;
      if avatarFile.None? {
        return;
      }
      message := NoMessage;
      var result;
      result, path, sent := auth.UploadAvatar(avatarFile.value, ts, uploadError, publicUrl, updateResponse, now);
      if result.Success? {
        message := AvatarUpdatedMessage;
        avatarFile := None;
        avatarPreview := None;
      } else {
        message := Message("error", result.error);
      }
    }
  }
}
