/** The session/profile snapshot manager: the `AuthProvider` component's
    three state cells (user, profile, loading) and the events that overwrite
    them. Each event runs to completion before the next one; the outcome of
    every call into the backend is a parameter. */
module AuthContext {
  import opened Js
  import opened Remote
  import Signup

  /** `{ success: true }` / `{ success: true, url }` or
      `{ success: false, error: message }`. */
  datatype Reply = Success(url: Option<string>) | Failure(error: string)

  /** `.update(values).eq('id', id)` as sent to the `profiles` table. */
  datatype UpdateRequest = UpdateRequest(id: string, values: Record)

  /** The message of the TypeError a JavaScript engine (V8) raises for
      `user.id` while `user` is null. */
  const NullUserMessage: string := "Cannot read properties of null (reading 'id')"

  const UpdatedAt: string := "updated_at"

  /** `email.split('@')[0]`: the text before the first '@', or the whole
      address when it has none. */
  function LocalPart(email: string): (local: string)
    ensures local <= email
    ensures '@' !in local
    ensures |local| < |email| ==> email[|local|] == '@'
  {
    if email == [] || email[0] == '@' then [] else [email[0]] + LocalPart(email[1..])
  }

  /** `email?.split('@')[0]`: undefined unless the email is a string. */
  function LocalPartOf(email: Value): (local: Value)
    ensures !email.Str? ==> local == Undefined
    ensures email.Str? ==> local.Str? && local.s <= email.s && '@' !in local.s
  {
    if email.Str? then Str(LocalPart(email.s)) else Undefined
  }

  /** The username a provisioned profile gets:
      `user?.email?.split('@')[0] || \`user_${Date.now()}\``. */
  function DefaultUsername(email: Value, ts: nat): (username: string)
    ensures username != ""
  {
    Or([LocalPartOf(email), Str("user_" + Decimal(ts))]).s
  }

  /** The default username is the email's local part when that is non-empty,
      and otherwise `user_` followed by the timestamp's digits. */
  lemma DefaultUsernameIsLocalPartOrTimestamp(email: Value, ts: nat)
    ensures email.Str? && LocalPart(email.s) != "" ==> DefaultUsername(email, ts) == LocalPart(email.s)
    ensures !(email.Str? && LocalPart(email.s) != "") ==> DefaultUsername(email, ts) == "user_" + Decimal(ts)
  {
    var operands := [LocalPartOf(email), Str("user_" + Decimal(ts))];
    if Truthy(operands[0]) {
      OrIsFirstTruthy(operands, 0);
    } else {
      OrIsFirstTruthy(operands, 1);
    }
  }

  /** The row `getProfile` inserts when the fetch reports `PGRST116`: its
      username is the email's local part, or `user_<ts>` when that is empty
      or there is no email. */
  function ProvisionRow(userId: string, email: Value, ts: nat, now: string): (row: Record)
    ensures Field(row, "id") == Str(userId)
    ensures Field(row, "username") == Str(DefaultUsername(email, ts))
    ensures email.Str? && LocalPart(email.s) != "" ==> Field(row, "username") == Str(LocalPart(email.s))
    ensures !(email.Str? && LocalPart(email.s) != "") ==> Field(row, "username") == Str("user_" + Decimal(ts))
    ensures Field(row, "full_name") == Str("") && Field(row, "bio") == Str("")
    ensures Field(row, "avatar_url") == Null
    ensures Field(row, "created_at") == Field(row, "updated_at") == Str(now)
  {
    DefaultUsernameIsLocalPartOrTimestamp(email, ts);
    NewProfileRow(userId, DefaultUsername(email, ts), "", now)
  }

  /** The provisioned username is not passed through the sign-up form's
      sanitiser: an address such as `J.D@x` yields `J.D`, which the form
      itself could never have produced. */
  lemma ProvisionedUsernameCanBreakFormRule(ts: nat)
    ensures DefaultUsername(Str("J.D@x"), ts) == "J.D"
    ensures !Signup.IsUsername("J.D")
  {
    var email := "J.D@x";
    var local := LocalPart(email);
    assert |local| == 3 by {
      assert |local| < |email|;
      assert email[|local|] == '@';
    }
    assert local == email[..3] == "J.D";
    DefaultUsernameIsLocalPartOrTimestamp(Str(email), ts);
    assert !Signup.IsUsernameChar("J.D"[0]);
  }

  /** `{ ...prev, ...updates, updated_at: now }`: a null `prev` spreads to
      nothing. */
  function Merge(prev: Option<Record>, updates: Record, now: string): (merged: Record)
    ensures merged.Keys == (if prev.Some? then prev.value.Keys else {}) + updates.Keys + {UpdatedAt}
    ensures merged[UpdatedAt] == Str(now)
    ensures forall k :: k in updates && k != UpdatedAt ==> merged[k] == updates[k]
    ensures forall k :: prev.Some? && k in prev.value && k !in updates && k != UpdatedAt ==> merged[k] == prev.value[k]
  {
    (if prev.Some? then prev.value else map[]) + updates + map[UpdatedAt := Str(now)]
  }

  /** Merging into no profile yields exactly the updates plus the stamp. */
  lemma MergeIntoNull(updates: Record, now: string)
    ensures Merge(None, updates, now) == updates[UpdatedAt := Str(now)]
  {
  }

  /** Applying the same update twice is the same as applying it once. */
  lemma MergeIdempotent(prev: Option<Record>, updates: Record, now: string)
    ensures Merge(Some(Merge(prev, updates, now)), updates, now) == Merge(prev, updates, now)
  {
  }

  /** `file.name.split('.').pop()`: a dot-free piece of the name. */
  function Extension(fileName: string): (ext: string)
    ensures |ext| <= |fileName|
    ensures '.' !in ext
  {
    if fileName == [] || fileName[|fileName| - 1] == '.' then []
    else Extension(fileName[..|fileName| - 1]) + [fileName[|fileName| - 1]]
  }

  /** The extension is the longest dot-free suffix of the name: the text
      after the last '.', or the whole name when it has none. */
  lemma {:induction false} ExtensionIsAfterLastDot(fileName: string)
    ensures |Extension(fileName)| <= |fileName|
    ensures Extension(fileName) == fileName[|fileName| - |Extension(fileName)|..]
    ensures '.' !in Extension(fileName)
    ensures |Extension(fileName)| < |fileName| ==> fileName[|fileName| - |Extension(fileName)| - 1] == '.'
    decreases |fileName|
  {
    if fileName != [] && fileName[|fileName| - 1] != '.' {
      var init, last := fileName[..|fileName| - 1], fileName[|fileName| - 1];
      ExtensionIsAfterLastDot(init);
      var e := Extension(init);
      assert fileName == init + [last];
      assert Extension(fileName) == e + [last];
      assert fileName[|fileName| - |e| - 1..] == init[|init| - |e|..] + [last];
      assert |e| < |init| ==> fileName[|fileName| - |e| - 2] == init[|init| - |e| - 1];
    }
  }

  /** `rest` follows `prefix` in `prefix + rest`. */
  lemma SplitAfterPrefix(prefix: string, rest: string)
    ensures prefix <= prefix + rest
    ensures (prefix + rest)[|prefix|..] == rest
  {
  }

  /** `${user.id}/${Date.now()}.${fileExt}`: every upload lands in the
      user's own folder `<id>/`, under a name made of the timestamp's
      digits, a '.', and the file's extension. */
  function AvatarPath(userId: string, ts: nat, fileName: string): (path: string)
    ensures userId + "/" <= path
    ensures path[|userId| + 1..] == Decimal(ts) + "." + Extension(fileName)
  {
    SplitAfterPrefix(userId + "/", Decimal(ts) + "." + Extension(fileName));
    (userId + "/") + (Decimal(ts) + "." + Extension(fileName))
  }

  /** In `digits + "." + rest` the first '.' is the one right after the
      digits, so the digits can be read back from the whole. */
  lemma DigitsBeforeFirstDot(d1: string, rest1: string, d2: string, rest2: string)
    requires forall j :: 0 <= j < |d1| ==> IsDigit(d1[j])
    requires forall j :: 0 <= j < |d2| ==> IsDigit(d2[j])
    requires d1 + "." + rest1 == d2 + "." + rest2
    ensures d1 == d2
  {
    var q := d1 + "." + rest1;
    assert q == d2 + "." + rest2;
    assert forall i :: 0 <= i < |d1| ==> q[i] == d1[i] && q[i] != '.';
    assert forall i :: 0 <= i < |d2| ==> q[i] == d2[i] && q[i] != '.';
    assert q[|d1|] == '.' && q[|d2|] == '.';
    assert |d1| == |d2|;
    assert d1 == q[..|d1|] == d2;
  }

  /** Equal strings with a common prefix agree after it. */
  lemma SamePrefixSameRest(prefix: string, rest1: string, rest2: string)
    requires prefix + rest1 == prefix + rest2
    ensures rest1 == rest2
  {
    SplitAfterPrefix(prefix, rest1);
    SplitAfterPrefix(prefix, rest2);
  }

  /** Within one user's folder, uploads at different timestamps never share
      a path, whatever the file names. */
  lemma AvatarPathsDiffer(userId: string, ts1: nat, name1: string, ts2: nat, name2: string)
    requires AvatarPath(userId, ts1, name1) == AvatarPath(userId, ts2, name2)
    ensures ts1 == ts2
  {
    var d1, d2 := Decimal(ts1), Decimal(ts2);
    var e1, e2 := Extension(name1), Extension(name2);
    SamePrefixSameRest(userId + "/", d1 + "." + e1, d2 + "." + e2);
    DigitsBeforeFirstDot(d1, e1, d2, e2);
    DecimalInjective(ts1, ts2);
  }

  /** The `AuthProvider` component's state. */
  class AuthProvider {
    var user: Option<User>
    var profile: Option<Record>
    var loading: bool

    /** `useState(null)`, `useState(null)`, `useState(true)`. */
    constructor ()
      ensures user == None && profile == None && loading
    {
      user, profile, loading := None, None, true;
    }

    /** The initial `getSession()` snapshot. With a user it sets `user` and
        starts `getProfile` for that user's id (returned, for the caller to
        run); without one it clears `user` and stops loading, but leaves the
        cached profile as it is. */
    method InitialSession(sessionUser: Option<User>) returns (fetchFor: Option<string>)
      modifies this`user, this`loading
      ensures user == sessionUser
      ensures sessionUser.None? ==> fetchFor == None && !loading
      ensures sessionUser.Some? ==> fetchFor == Some(sessionUser.value.id) && loading == old(loading)
    {
      user := sessionUser;
      if sessionUser.Some? {
        fetchFor := Some(sessionUser.value.id);
      } else {
        fetchFor := None;
        loading := false;
      }
    }

    /** An `onAuthStateChange` notification. Like the initial snapshot, except
        that "no session" also discards the cached profile. */
    method SessionChanged(sessionUser: Option<User>) returns (fetchFor: Option<string>)
      modifies this`user, this`profile, this`loading
      ensures user == sessionUser
      ensures sessionUser.None? ==> fetchFor == None && profile == None && !loading
      ensures sessionUser.Some? ==> fetchFor == Some(sessionUser.value.id) && profile == old(profile) && loading == old(loading)
    {
      user := sessionUser;
      if sessionUser.Some? {
        fetchFor := Some(sessionUser.value.id);
      } else {
        fetchFor := None;
        profile := None;
        loading := false;
      }
    }

    /** `getProfile(userId)`. A fetched row is cached. On `PGRST116` a default
        row is provisioned (returned as `inserted`) and the row the store
        echoes back is cached. An insert failure or any other fetch error is
        only logged and the cached profile is kept. Loading always ends. */
    method GetProfile(userId: string, fetch: FetchResult, authEmail: Value, ts: nat, insert: InsertResult, now: string)
      returns (inserted: Option<Record>, logged: Option<RemoteError>)
      modifies this`profile, this`loading
      ensures !loading
      ensures fetch.Fetched? ==> profile == Some(fetch.row) && inserted == None && logged == None
      ensures fetch.FetchFailed? && fetch.error.code == NoRowsCode ==>
        && inserted == Some(ProvisionRow(userId, authEmail, ts, now))
        && (insert.Inserted? ==> profile == Some(insert.row) && logged == None)
        && (insert.InsertFailed? ==> profile == old(profile) && logged == Some(insert.error))
      ensures fetch.FetchFailed? && fetch.error.code != NoRowsCode ==>
        inserted == None && profile == old(profile) && logged == Some(fetch.error)
    {
      inserted, logged := None, None;
      if fetch.FetchFailed? && fetch.error.code == NoRowsCode {
        var row := NewProfileRow(userId, DefaultUsername(authEmail, ts), "", now);
        inserted := Some(row);
        if insert.InsertFailed? {
          logged := Some(insert.error);
        } else {
          profile := Some(insert.row);
        }
      } else if fetch.FetchFailed? {
        logged := Some(fetch.error);
      } else {
        profile := Some(fetch.row);
      }
      loading := false;
    }

    /** `updateProfile(updates)`. Sends the given keys plus a fresh
        `updated_at` for the current user's row; on success merges exactly
        those keys into the cached profile, on failure reports the message and
        keeps it. Without a user, `user.id` throws before anything is sent. */
    method UpdateProfile(updates: Record, response: Option<RemoteError>, now: string)
      returns (reply: Reply, sent: Option<UpdateRequest>)
      modifies this`profile
      ensures user.None? ==> reply == Failure(NullUserMessage) && sent == None && profile == old(profile)
      ensures user.Some? ==> sent == Some(UpdateRequest(user.value.id, updates[UpdatedAt := Str(now)]))
      ensures user.Some? && response.None? ==> reply == Success(None) && profile == Some(Merge(old(profile), updates, now))
      ensures user.Some? && response.Some? ==> reply == Failure(response.value.message) && profile == old(profile)
    {
      if user.None? {
        return Failure(NullUserMessage), None;
      }
      sent := Some(UpdateRequest(user.value.id, updates[UpdatedAt := Str(now)]));
      if response.Some? {
        return Failure(response.value.message), sent;
      }
      profile := Some(Merge(profile, updates, now));
      reply := Success(None);
    }

    /** `uploadAvatar(file)`. Stores the file under the user's folder, then
        records its public URL through `updateProfile`, whose outcome is not
        looked at: once the upload succeeded the reply is a success with the
        URL. An upload error is reported and no update is sent. */
    method UploadAvatar(fileName: string, ts: nat, uploadError: Option<RemoteError>, publicUrl: string,
                        updateResponse: Option<RemoteError>, now: string)
      returns (reply: Reply, path: Option<string>, sent: Option<UpdateRequest>)
      modifies this`profile
      ensures user.None? ==> reply == Failure(NullUserMessage) && path == None && sent == None && profile == old(profile)
      ensures user.Some? ==> path == Some(AvatarPath(user.value.id, ts, fileName))
      ensures user.Some? && uploadError.Some? ==>
        reply == Failure(uploadError.value.message) && sent == None && profile == old(profile)
      ensures user.Some? && uploadError.None? ==>
        && reply == Success(Some(publicUrl))
        && sent == Some(UpdateRequest(user.value.id, map["avatar_url" := Str(publicUrl), UpdatedAt := Str(now)]))
      ensures user.Some? && uploadError.None? && updateResponse.None? ==>
        profile == Some(Merge(old(profile), map["avatar_url" := Str(publicUrl)], now))
      ensures user.Some? && uploadError.None? && updateResponse.Some? ==> profile == old(profile)
    {
      if user.None? {
        return Failure(NullUserMessage), None, None;
      }
      path := Some(AvatarPath(user.value.id, ts, fileName));
      if uploadError.Some? {
        return Failure(uploadError.value.message), path, None;
      }
      var ignored;
      ignored, sent := UpdateProfile(map["avatar_url" := Str(publicUrl)], updateResponse, now);
      reply := Success(Some(publicUrl));
    }

    /** `signOut()`: whatever the provider answers, the identity and the
        cached profile are dropped; `loading` is not touched. */
    method SignOut(response: Option<RemoteError>)
      modifies this`user, this`profile
      ensures user == None && profile == None
    {
      user := None;
      profile := None;
    }
  }
}
