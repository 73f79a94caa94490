/** `ensureProfile(userId, userData)`: look the profile up by id and, when
    the lookup yields no row, insert a default one whose username and display
    name come from `||` fallback chains. Nothing it meets is propagated: the
    helper resolves to `undefined` and only logs. */
module SupabaseClient {
  import opened Js
  import opened Remote

  /** `userData.user_metadata` as far as it is read. */
  datatype Metadata = Metadata(username: Value, fullName: Value)

  /** The `userData` argument as far as it is read; the argument itself may
      be null or undefined (`None`). */
  datatype UserData = UserData(username: Value, fullName: Value, userMetadata: Option<Metadata>)

  /** What a call leaves behind: the row it asked the store to insert, and
      the insert error it logged. */
  datatype Ensured = Ensured(inserted: Option<Record>, logged: Option<RemoteError>)

  /** `userData?.username` */
  function GivenUsername(userData: Option<UserData>): Value {
    if userData.Some? then userData.value.username else Undefined
  }

  /** `userData?.user_metadata?.username` */
  function MetadataUsername(userData: Option<UserData>): Value {
    if userData.Some? && userData.value.userMetadata.Some? then userData.value.userMetadata.value.username else Undefined
  }

  /** `userData?.full_name` */
  function GivenFullName(userData: Option<UserData>): Value {
    if userData.Some? then userData.value.fullName else Undefined
  }

  /** `userData?.user_metadata?.full_name` */
  function MetadataFullName(userData: Option<UserData>): Value {
    if userData.Some? && userData.value.userMetadata.Some? then userData.value.userMetadata.value.fullName else Undefined
  }

  /** The inserted username:
      `userData?.username || userData?.user_metadata?.username || \`user_${Date.now()}\``. */
  function FallbackUsername(userData: Option<UserData>, ts: nat): (username: string)
    ensures username != ""
  {
    Or([GivenUsername(userData), MetadataUsername(userData), Str("user_" + Decimal(ts))]).s
  }

  /** The inserted display name:
      `userData?.full_name || userData?.user_metadata?.full_name || ''`. */
  function FallbackFullName(userData: Option<UserData>): (fullName: string)
    ensures fullName == "" <==> !Truthy(GivenFullName(userData)) && !Truthy(MetadataFullName(userData))
  {
    var operands := [GivenFullName(userData), MetadataFullName(userData), Str("")];
    if Truthy(operands[0]) then OrIsFirstTruthy(operands, 0); Or(operands).s
    else if Truthy(operands[1]) then OrIsFirstTruthy(operands, 1); Or(operands).s
    else OrIsFirstTruthy(operands, 2); Or(operands).s
  }

  /** The username is the first truthy one of the given username, the
      metadata username and `user_<ts>`. */
  lemma FallbackUsernameIsFirstTruthy(userData: Option<UserData>, ts: nat)
    ensures Truthy(GivenUsername(userData)) ==>
      FallbackUsername(userData, ts) == GivenUsername(userData).s
    ensures !Truthy(GivenUsername(userData)) && Truthy(MetadataUsername(userData)) ==>
      FallbackUsername(userData, ts) == MetadataUsername(userData).s
    ensures !Truthy(GivenUsername(userData)) && !Truthy(MetadataUsername(userData)) ==>
      FallbackUsername(userData, ts) == "user_" + Decimal(ts)
  {
    var operands := [GivenUsername(userData), MetadataUsername(userData), Str("user_" + Decimal(ts))];
    if Truthy(operands[0]) {
      OrIsFirstTruthy(operands, 0);
    } else if Truthy(operands[1]) {
      OrIsFirstTruthy(operands, 1);
    } else {
      OrIsFirstTruthy(operands, 2);
    }
  }

  /** The display name is the first truthy one of the given name and the
      metadata name, and empty when neither is. */
  lemma FallbackFullNameIsFirstTruthy(userData: Option<UserData>)
    ensures Truthy(GivenFullName(userData)) ==>
      FallbackFullName(userData) == GivenFullName(userData).s
    ensures !Truthy(GivenFullName(userData)) && Truthy(MetadataFullName(userData)) ==>
      FallbackFullName(userData) == MetadataFullName(userData).s
    ensures !Truthy(GivenFullName(userData)) && !Truthy(MetadataFullName(userData)) ==>
      FallbackFullName(userData) == ""
  {
    var operands := [GivenFullName(userData), MetadataFullName(userData), Str("")];
    if Truthy(operands[0]) {
      OrIsFirstTruthy(operands, 0);
    } else if Truthy(operands[1]) {
      OrIsFirstTruthy(operands, 1);
    } else {
      OrIsFirstTruthy(operands, 2);
    }
  }

  /** `ensureProfile`. A lookup that returns a row inserts nothing; any
      lookup without data, a failed one included, leads to one insert of a
      row keyed by `userId` with no avatar and an empty bio, and that
      insert's error is logged and goes no further. */
  function EnsureProfile(userId: string, lookup: FetchResult, userData: Option<UserData>,
                         insertError: Option<RemoteError>, ts: nat, now: string): (e: Ensured)
    ensures lookup.Fetched? ==> e.inserted == None && e.logged == None
    ensures lookup.FetchFailed? ==> e.inserted.Some? && e.logged == insertError
    ensures e.inserted.Some? ==>
      && Field(e.inserted.value, "id") == Str(userId)
      && Field(e.inserted.value, "username") == Str(FallbackUsername(userData, ts))
      && Field(e.inserted.value, "full_name") == Str(FallbackFullName(userData))
      && Field(e.inserted.value, "avatar_url") == Null
      && Field(e.inserted.value, "bio") == Str("")
  {
    if Data(lookup).Some? then Ensured(None, None)
    else Ensured(Some(NewProfileRow(userId, FallbackUsername(userData, ts), FallbackFullName(userData), now)), insertError)
  }
}
