/** The sign-up form: the username sanitiser applied on every keystroke and
    the submit handler's branching over the identity provider's and the
    store's answers. */
module Signup {
  import opened Js
  import opened Remote

  /** The characters `/[^a-z0-9_]/` does not match. */
  predicate IsUsernameChar(c: char) {
    'a' <= c <= 'z' || '0' <= c <= '9' || c == '_'
  }

  /** A string over `[a-z0-9_]` (of any length, the empty one included). */
  predicate IsUsername(s: string) {
    forall i :: 0 <= i < |s| ==> IsUsernameChar(s[i])
  }

  /** `toLowerCase` on one character, for ASCII: 'A'..'Z' become 'a'..'z'. */
  function LowerChar(c: char): char {
    if 'A' <= c <= 'Z' then (c as int + 32) as char else c
  }

  /** `toLowerCase()`, for ASCII: no capital survives, each capital becomes
      the small letter 32 code points above it, and every other character
      stays where it was. */
  function ToLower(s: string): (lowered: string)
    ensures |lowered| == |s|
    ensures forall i :: 0 <= i < |lowered| ==> !('A' <= lowered[i] <= 'Z')
    ensures forall i :: 0 <= i < |s| && 'A' <= s[i] <= 'Z' ==> lowered[i] as int == s[i] as int + 32
    ensures forall i :: 0 <= i < |s| && !('A' <= s[i] <= 'Z') ==> lowered[i] == s[i]
  {
    seq(|s|, i requires 0 <= i < |s| => LowerChar(s[i]))
  }

  /** `.replace(/[^a-z0-9_]/g, '')`: every character outside the class is
      deleted. */
  function KeepUsernameChars(s: string): (kept: string)
    ensures IsUsername(kept)
    ensures |kept| <= |s|
  {
    if s == [] then []
    else (if IsUsernameChar(s[0]) then [s[0]] else []) + KeepUsernameChars(s[1..])
  }

  /** The username input's `onChange` rewrite:
      `value.toLowerCase().replace(/[^a-z0-9_]/g, '')`. */
  function Sanitize(typed: string): (username: string)
    ensures IsUsername(username)
    ensures |username| <= |typed|
  {
    KeepUsernameChars(ToLower(typed))
  }

  /** `a` can be obtained from `b` by deleting characters. */
  predicate IsSubsequence(a: string, b: string)
    decreases |b|
  {
    if a == [] then true
    else if b == [] then false
    else if a[0] == b[0] then IsSubsequence(a[1..], b[1..])
    else IsSubsequence(a, b[1..])
  }

  lemma {:induction false} KeepUsernameCharsIsSubsequence(s: string)
    ensures IsSubsequence(KeepUsernameChars(s), s)
    decreases |s|
  {
    if s != [] {
      KeepUsernameCharsIsSubsequence(s[1..]);
      var rest := KeepUsernameChars(s[1..]);
      if IsUsernameChar(s[0]) {
        assert KeepUsernameChars(s) == [s[0]] + rest;
        assert ([s[0]] + rest)[1..] == rest;
      } else {
        assert KeepUsernameChars(s) == rest;
        assert rest != [] ==> IsUsernameChar(rest[0]);
      }
    }
  }

  /** The sanitised username keeps the lowered input's order: it is the
      lowered input with some characters deleted. */
  lemma SanitizeIsSubsequence(typed: string)
    ensures IsSubsequence(Sanitize(typed), ToLower(typed))
  {
    KeepUsernameCharsIsSubsequence(ToLower(typed));
  }

  lemma {:induction false} KeepUsernameCharsFixesUsernames(s: string)
    requires IsUsername(s)
    ensures KeepUsernameChars(s) == s
    decreases |s|
  {
    if s != [] {
      assert IsUsernameChar(s[0]);
      KeepUsernameCharsFixesUsernames(s[1..]);
      assert [s[0]] + s[1..] == s;
    }
  }

  /** Text already over `[a-z0-9_]` passes through unchanged. */
  lemma SanitizeFixesUsernames(typed: string)
    requires IsUsername(typed)
    ensures Sanitize(typed) == typed
  {
    assert ToLower(typed) == typed;
    KeepUsernameCharsFixesUsernames(typed);
  }

  /** Sanitising twice is sanitising once. */
  lemma SanitizeIdempotent(typed: string)
    ensures Sanitize(Sanitize(typed)) == Sanitize(typed)
  {
    SanitizeFixesUsernames(Sanitize(typed));
  }

  /** One character: lowered, then kept exactly when the lowered character
      is in `[a-z0-9_]`. */
  lemma SanitizeChar(c: char)
    ensures Sanitize([c]) == if IsUsernameChar(LowerChar(c)) then [LowerChar(c)] else []
  {
    assert ToLower([c]) == [LowerChar(c)];
    assert ToLower([c])[1..] == [];
  }

  /** An ASCII capital is lowered, not dropped. */
  lemma SanitizeLowersCapitals(c: char)
    requires 'A' <= c <= 'Z'
    ensures Sanitize([c]) == [(c as int + 32) as char]
  {
    SanitizeChar(c);
  }

  lemma {:induction false} KeepUsernameCharsAppend(a: string, b: string)
    ensures KeepUsernameChars(a + b) == KeepUsernameChars(a) + KeepUsernameChars(b)
    decreases |a|
  {
    if a != [] {
      assert (a + b)[1..] == a[1..] + b;
      KeepUsernameCharsAppend(a[1..], b);
    } else {
      assert a + b == b;
    }
  }

  /** The rewrite works character by character: sanitising a concatenation
      sanitises each part. Together with `SanitizeChar` this determines
      `Sanitize` on every input. */
  lemma SanitizeAppend(a: string, b: string)
    ensures Sanitize(a + b) == Sanitize(a) + Sanitize(b)
  {
    assert ToLower(a + b) == ToLower(a) + ToLower(b);
    KeepUsernameCharsAppend(ToLower(a), ToLower(b));
  }

  /** The provisioning fallback `user_<digits>` is itself a valid sign-up
      username, so the sanitiser leaves it alone. */
  lemma TimestampUsernameIsSanitized(ts: nat)
    ensures IsUsername("user_" + Decimal(ts))
    ensures Sanitize("user_" + Decimal(ts)) == "user_" + Decimal(ts)
  {
    var u := "user_" + Decimal(ts);
    forall i | 0 <= i < |u| ensures IsUsernameChar(u[i]) {
      if i >= 5 {
        assert u[i] == Decimal(ts)[i - 5];
      }
    }
    SanitizeFixesUsernames(u);
  }

  /** `supabase.auth.signUp(…)`: the new user (which the provider may leave
      null), or an error. */
  datatype SignUpResult = SignedUp(userId: Option<string>) | SignUpFailed(error: RemoteError)

  /** What `handleSignup` sends to the identity provider. */
  datatype SignUpRequest = SignUpRequest(email: string, password: string, metadata: Record)

  const ConfirmAlert: string := "Check your email for confirmation!"
  const SigninRoute: string := "/signin"

  /** The `Signup` component's state. */
  class SignupForm {
    var email: string
    var password: string
    var username: string
    var fullName: string
    var loading: bool
    var error: Option<string>

    /** The username field only ever holds sanitised text. */
    ghost predicate Valid()
      reads this
    {
      IsUsername(username)
    }

    constructor ()
      ensures Valid()
      ensures email == password == username == fullName == ""
      ensures !loading && error == None
    {
      email, password, username, fullName := "", "", "", "";
      loading, error := false, None;
    }

    /** The username input's `onChange`. */
    method ChangeUsername(typed: string)
      modifies this`username
      ensures Valid()
      ensures username == Sanitize(typed)
    {
      username := Sanitize(typed);
    }

    /** `handleSignup`. A sign-up error is shown and nothing else happens.
        Otherwise, when the provider returned a user, a profile row is
        inserted from the form; its failure is only logged (and not even that
        for a duplicate key), and the user is sent to the sign-in page in
        every case. Loading is over when the handler returns. */
    method HandleSignup(signUp: SignUpResult, insertError: Option<RemoteError>, now: string)
      returns (request: SignUpRequest, inserted: Option<Record>, logged: Option<RemoteError>,
               alert: Option<string>, navigatedTo: Option<string>)
      requires Valid()
      modifies this`loading, this`error
      ensures Valid() && !loading
      ensures request == SignUpRequest(email, password, map["username" := Str(username), "full_name" := Str(fullName)])
      ensures signUp.SignUpFailed? ==>
        error == Some(signUp.error.message) && inserted == None && logged == None && alert == None && navigatedTo == None
      ensures signUp.SignedUp? ==> error == None && alert == Some(ConfirmAlert) && navigatedTo == Some(SigninRoute)
      ensures signUp.SignedUp? && signUp.userId.Some? ==>
        inserted == Some(NewProfileRow(signUp.userId.value, username, fullName, now)) && IsUsername(username)
      ensures signUp.SignedUp? && signUp.userId.None? ==> inserted == None
      ensures logged.Some? <==> inserted.Some? && insertError.Some? && insertError.value.code != UniqueViolationCode
      ensures logged.Some? ==> logged == insertError
    {
      loading := true;
      error := None;
      request := SignUpRequest(email, password, map["username" := Str(username), "full_name" := Str(fullName)]);
      inserted, logged, alert, navigatedTo := None, None, None, None;
      if signUp.SignUpFailed? {
        error := Some(signUp.error.message);
      } else {
        if signUp.userId.Some? {
          inserted := Some(NewProfileRow(signUp.userId.value, username, fullName, now));
          if insertError.Some? && insertError.value.code != UniqueViolationCode {
            logged := insertError;
          }
        }
        alert := Some(ConfirmAlert);
        navigatedTo := Some(SigninRoute);
      }
      loading := false;
    }
  }
}
