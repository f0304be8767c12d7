/**
 * The user registry behind the sign-in flows: a list of user entries
 * kept in local storage, matched by email or phone, a mock one-time-code
 * store, and the session the flows finish with. Random ids, the clock
 * and `encodeURIComponent` are parameters.
 */
module Auth {
  import opened Wrappers

  datatype AuthMethod = Google | Email | Phone

  /** The signed-in user. `None` is a property the object does not carry. */
  datatype UserProfile = UserProfile(
    id: string, name: string, email: Option<string>, phone: Option<string>,
    photoUrl: Option<string>, authMethod: AuthMethod)

  /** One entry of the stored user list. */
  datatype UserEntry = UserEntry(
    id: string, name: string, email: Option<string>, phone: Option<string>,
    password: Option<string>, photoUrl: Option<string>, authMethod: AuthMethod,
    created: Option<string>)

  const MOCK_OTP: string := "123456"
  const EMAIL_TAKEN: string := "This email is already registered."
  const BAD_CREDENTIALS: string := "Incorrect email or password."
  const ACCOUNT_NOT_FOUND: string := "Account not found. Please click 'Create Account'."
  const OTP_MISMATCH: string := "Verification code mismatch."
  /** Avatar background of accounts created by email sign-up. */
  const SIGNUP_BACKGROUND: string := "f97316"
  /** Avatar background of phone accounts and of the email sign-in fallback. */
  const DEFAULT_BACKGROUND: string := "15803d"

  /** A present, non-empty string (JavaScript truthiness of a string property). */
  predicate Truthy(o: Option<string>)
  {
    o.Some? && o.value != ""
  }

  /** `u_` followed by the nine random base-36 characters drawn by the caller. */
  function NewId(randomId: string): string
  {
    "u_" + randomId
  }

  /** The generated avatar address for an already URI-encoded name. */
  function AvatarUrl(encodedName: string, background: string): (url: string)
    ensures url != ""
  {
    "https://ui-avatars.com/api/?name=" + encodedName + "&background=" + background + "&color=fff&bold=true"
  }

  // ---- lookups (`findIndex`, `find`) ----

  /** The first index whose entry satisfies `p`, or -1. */
  function FirstIndex(users: seq<UserEntry>, p: UserEntry -> bool): (i: int)
    ensures -1 <= i < |users|
    ensures i == -1 <==> forall k :: 0 <= k < |users| ==> !p(users[k])
    ensures 0 <= i ==> p(users[i]) && forall k :: 0 <= k < i ==> !p(users[k])
  {
    if |users| == 0 then -1
    else if p(users[0]) then 0
    else
      var j := FirstIndex(users[1..], p);
      if j == -1 then -1 else j + 1
  }

  /** The entry shares the profile's email or phone, counting only a non-empty one. */
  predicate SameContact(u: UserEntry, profile: UserProfile)
  {
    (Truthy(profile.email) && u.email == profile.email) || (Truthy(profile.phone) && u.phone == profile.phone)
  }

  function MatchIndex(users: seq<UserEntry>, profile: UserProfile): (i: int)
    ensures -1 <= i < |users|
    ensures i == -1 <==> forall k :: 0 <= k < |users| ==> !SameContact(users[k], profile)
    ensures 0 <= i ==> SameContact(users[i], profile) && forall k :: 0 <= k < i ==> !SameContact(users[k], profile)
  {
    FirstIndex(users, (u: UserEntry) => SameContact(u, profile))
  }

  function EmailIndex(users: seq<UserEntry>, email: string): (i: int)
    ensures -1 <= i < |users|
    ensures i == -1 <==> forall k :: 0 <= k < |users| ==> users[k].email != Some(email)
    ensures 0 <= i ==> users[i].email == Some(email)
  {
    FirstIndex(users, (u: UserEntry) => u.email == Some(email))
  }

  /** The first entry with this email and this password. */
  function CredentialIndex(users: seq<UserEntry>, email: string, pass: string): (i: int)
    ensures -1 <= i < |users|
    ensures i == -1 <==> forall k :: 0 <= k < |users| ==> !(users[k].email == Some(email) && users[k].password == Some(pass))
    ensures 0 <= i ==> users[i].email == Some(email) && users[i].password == Some(pass)
    ensures 0 <= i ==> forall k :: 0 <= k < i ==> !(users[k].email == Some(email) && users[k].password == Some(pass))
  {
    FirstIndex(users, (u: UserEntry) => u.email == Some(email) && u.password == Some(pass))
  }

  function PhoneIndex(users: seq<UserEntry>, phone: string): (i: int)
    ensures -1 <= i < |users|
    ensures i == -1 <==> forall k :: 0 <= k < |users| ==> users[k].phone != Some(phone)
    ensures 0 <= i ==> users[i].phone == Some(phone) && forall k :: 0 <= k < i ==> users[k].phone != Some(phone)
  {
    FirstIndex(users, (u: UserEntry) => u.phone == Some(phone))
  }

  // ---- the entries and sessions the flows build ----

  /** `{...profile, id: profile.id || u_<random>, created: now}`. */
  function NewEntry(profile: UserProfile, randomId: string, nowIso: string): UserEntry
  {
    UserEntry(if profile.id != "" then profile.id else NewId(randomId), profile.name, profile.email,
              profile.phone, None, profile.photoUrl, profile.authMethod, Some(nowIso))
  }

  /** `{...u, ...profile}`: the profile's properties win, the entry keeps the rest. */
  function Merged(u: UserEntry, profile: UserProfile): UserEntry
  {
    UserEntry(profile.id, profile.name,
              if profile.email.Some? then profile.email else u.email,
              if profile.phone.Some? then profile.phone else u.phone,
              u.password,
              if profile.photoUrl.Some? then profile.photoUrl else u.photoUrl,
              profile.authMethod, u.created)
  }

  /**
   * The list after `syncUserToDb`: a profile no entry matches is appended;
   * otherwise it is merged into the first matching entry, the others and
   * the length unchanged.
   */
  function Synced(users: seq<UserEntry>, profile: UserProfile, randomId: string, nowIso: string): (r: seq<UserEntry>)
    ensures (forall k :: 0 <= k < |users| ==> !SameContact(users[k], profile)) ==>
              r == users + [NewEntry(profile, randomId, nowIso)]
    ensures forall i :: (0 <= i < |users| && SameContact(users[i], profile) &&
                         (forall k :: 0 <= k < i ==> !SameContact(users[k], profile))) ==>
              (|r| == |users| && r[i] == Merged(users[i], profile) &&
               forall k :: 0 <= k < |users| && k != i ==> r[k] == users[k])
  {
    var i := MatchIndex(users, profile);
    if i == -1 then users + [NewEntry(profile, randomId, nowIso)] else users[i := Merged(users[i], profile)]
  }

  function SignupEntry(name: string, email: string, pass: string, randomId: string, encode: string -> string): UserEntry
  {
    UserEntry(NewId(randomId), name, Some(email), None, Some(pass),
              Some(AvatarUrl(encode(name), SIGNUP_BACKGROUND)), Email, None)
  }

  function PhoneEntry(name: string, phone: string, randomId: string, encode: string -> string): UserEntry
  {
    UserEntry(NewId(randomId), name, None, Some(phone), None,
              Some(AvatarUrl(encode(name), DEFAULT_BACKGROUND)), Phone, None)
  }

  /** The session an email sign-in opens: a missing or empty photo falls back to a generated avatar. */
  function EmailSession(u: UserEntry, encode: string -> string): (p: UserProfile)
    ensures Truthy(p.photoUrl) && p.authMethod == Email && p.id == u.id && p.email == u.email
  {
    UserProfile(u.id, u.name, u.email, None,
                Some(if Truthy(u.photoUrl) then u.photoUrl.value else AvatarUrl(encode(u.name), DEFAULT_BACKGROUND)),
                Email)
  }

  function PhoneSession(u: UserEntry): UserProfile
  {
    UserProfile(u.id, u.name, None, u.phone, u.photoUrl, Phone)
  }

  /** The code stored for the phone equals the one typed (no code stored never matches). */
  predicate OtpMatches(otpStore: map<string, string>, phone: string, otp: string)
  {
    phone in otpStore && otpStore[phone] == otp
  }

  // ---- properties of the registry ----

  /** No two entries share an email. */
  predicate EmailsUnique(users: seq<UserEntry>)
  {
    forall i, j :: 0 <= i < j < |users| && users[i].email.Some? ==> users[i].email != users[j].email
  }

  /** An email sign-up keeps the registered emails distinct. */
  lemma SignupKeepsEmailsUnique(users: seq<UserEntry>, name: string, email: string, pass: string,
                                randomId: string, encode: string -> string)
    requires EmailsUnique(users) && EmailIndex(users, email) == -1
    ensures EmailsUnique(users + [SignupEntry(name, email, pass, randomId, encode)])
  {
  }

  /** Right after a successful sign-up, signing in with the same email and password finds the new entry. */
  lemma {:induction false} SignupThenLogin(users: seq<UserEntry>, name: string, email: string, pass: string,
                                           randomId: string, encode: string -> string)
    requires EmailIndex(users, email) == -1
    ensures var e := SignupEntry(name, email, pass, randomId, encode);
      CredentialIndex(users + [e], email, pass) == |users| &&
      EmailSession(e, encode) == UserProfile(e.id, name, Some(email), None, e.photoUrl, Email)
  {
    var e := SignupEntry(name, email, pass, randomId, encode);
    var us := users + [e];
    assert forall k :: 0 <= k < |users| ==> us[k] == users[k];
    assert us[|users|] == e;
    assert forall k :: 0 <= k < |users| ==> us[k].email != Some(email);
  }

  /** A phone account created by a code check is the one the next code check for that phone signs into. */
  lemma {:induction false} PhoneSignupThenLogin(users: seq<UserEntry>, name: string, phone: string,
                                                randomId: string, encode: string -> string)
    requires PhoneIndex(users, phone) == -1
    ensures PhoneIndex(users + [PhoneEntry(name, phone, randomId, encode)], phone) == |users|
  {
    var us := users + [PhoneEntry(name, phone, randomId, encode)];
    assert forall k :: 0 <= k < |users| ==> us[k] == users[k];
    assert us[|users|].phone == Some(phone);
  }

  /** The second sync of a profile the first one appended merges into that very entry, unchanged. */
  lemma {:induction false} SyncTwiceAppended(users: seq<UserEntry>, profile: UserProfile,
                                             r1: string, t1: string, r2: string, t2: string)
    requires profile.id != "" && (Truthy(profile.email) || Truthy(profile.phone))
    requires MatchIndex(users, profile) == -1
    ensures Synced(Synced(users, profile, r1, t1), profile, r2, t2) == Synced(users, profile, r1, t1)
  {
    var e := NewEntry(profile, r1, t1);
    var once := users + [e];
    assert forall k :: 0 <= k < |users| ==> once[k] == users[k];
    assert once[|users|] == e && SameContact(e, profile);
    assert forall k :: 0 <= k < |users| ==> !SameContact(once[k], profile);
    assert Merged(e, profile) == e;
    assert once[|users| := e] == once;
  }

  /** Replacing the first matching entry by another matching entry keeps it the first match. */
  lemma {:induction false} MatchIndexKept(users: seq<UserEntry>, profile: UserProfile, m: UserEntry)
    requires MatchIndex(users, profile) != -1 && SameContact(m, profile)
    ensures MatchIndex(users[MatchIndex(users, profile) := m], profile) == MatchIndex(users, profile)
  {
    var i := MatchIndex(users, profile);
    var once := users[i := m];
    assert once[i] == m;
    assert forall k :: 0 <= k < i ==> once[k] == users[k];
  }

  /** Merging the same profile again changes nothing. */
  lemma MergedIdempotent(u: UserEntry, profile: UserProfile)
    ensures Merged(Merged(u, profile), profile) == Merged(u, profile)
  {
  }

  /** The second sync of a profile the first one merged finds the same entry and changes nothing. */
  lemma {:induction false} SyncTwiceMerged(users: seq<UserEntry>, profile: UserProfile,
                                           r1: string, t1: string, r2: string, t2: string)
    requires MatchIndex(users, profile) != -1
    ensures Synced(Synced(users, profile, r1, t1), profile, r2, t2) == Synced(users, profile, r1, t1)
  {
    var i := MatchIndex(users, profile);
    var m := Merged(users[i], profile);
    var once := users[i := m];
    assert SameContact(m, profile);
    MatchIndexKept(users, profile, m);
    MergedIdempotent(users[i], profile);
    assert once[i := Merged(once[i], profile)] == once;
  }

  /**
   * Syncing the same profile twice leaves the list one sync leaves, once
   * the profile has an id and a non-empty email or phone to be found by.
   */
  lemma SyncTwice(users: seq<UserEntry>, profile: UserProfile, r1: string, t1: string, r2: string, t2: string)
    requires profile.id != "" && (Truthy(profile.email) || Truthy(profile.phone))
    ensures Synced(Synced(users, profile, r1, t1), profile, r2, t2) == Synced(users, profile, r1, t1)
  {
    if MatchIndex(users, profile) == -1 {
      SyncTwiceAppended(users, profile, r1, t1, r2, t2);
    } else {
      SyncTwiceMerged(users, profile, r1, t1, r2, t2);
    }
  }

  /** A profile with neither a non-empty email nor phone matches nobody: every sync appends a new entry. */
  lemma SyncWithoutContactAppends(users: seq<UserEntry>, profile: UserProfile, randomId: string, nowIso: string)
    requires !Truthy(profile.email) && !Truthy(profile.phone)
    ensures Synced(users, profile, randomId, nowIso) == users + [NewEntry(profile, randomId, nowIso)]
  {
  }

  /**
   * The registry state of the sign-in flows: the stored user list, the
   * mock code store, the open session and the last error shown.
   */
  class AuthRegistry {
    var users: seq<UserEntry>
    var otpStore: map<string, string>
    var session: Option<UserProfile>
    var error: Option<string>

    constructor (users: seq<UserEntry>, session: Option<UserProfile>)
      ensures this.users == users && this.session == session
      ensures otpStore == map[] && error == None
    {
      this.users := users;
      this.session := session;
      otpStore := map[];
      error := None;
    }

    /** `finalizeLogin`: the session opened and the error cleared. */
    method FinalizeLogin(profile: UserProfile)
      modifies this`session, this`error
      ensures session == Some(profile) && error == None
    {
      session := Some(profile);
      error := None;
    }

    /** `syncUserToDb`: append the profile, or merge it into the first entry with its email or phone. */
    method SyncUserToDb(profile: UserProfile, randomId: string, nowIso: string)
      modifies this`users
      ensures users == Synced(old(users), profile, randomId, nowIso)
    {
      var existingIdx := MatchIndex(users, profile);
      if existingIdx == -1 {
        users := users + [NewEntry(profile, randomId, nowIso)];
      } else {
        users := users[existingIdx := Merged(users[existingIdx], profile)];
      }
    }

    /** `loginEmail`: succeeds exactly when some entry has both this email and this password. */
    method LoginEmail(email: string, pass: string, encode: string -> string) returns (ok: bool)
      modifies this`session, this`error
      ensures ok <==> exists k :: 0 <= k < |users| && users[k].email == Some(email) && users[k].password == Some(pass)
      ensures ok ==> session == Some(EmailSession(users[CredentialIndex(users, email, pass)], encode)) && error == None
      ensures !ok ==> session == old(session) && error == Some(BAD_CREDENTIALS)
    {
      var i := CredentialIndex(users, email, pass);
      if i != -1 {
        var found := users[i];
        var photo := if Truthy(found.photoUrl) then found.photoUrl.value else AvatarUrl(encode(found.name), DEFAULT_BACKGROUND);
        FinalizeLogin(UserProfile(found.id, found.name, found.email, None, Some(photo), Email));
        assert users[i].email == Some(email) && users[i].password == Some(pass);
        return true;
      } else {
        error := Some(BAD_CREDENTIALS);
        return false;
      }
    }

    /** `signupEmail`: refused for a registered email; otherwise one entry appended and signed in. */
    method SignupEmail(name: string, email: string, pass: string, randomId: string, encode: string -> string)
      returns (ok: bool)
      modifies this`users, this`session, this`error
      ensures ok <==> forall k :: 0 <= k < |old(users)| ==> old(users)[k].email != Some(email)
      ensures !ok ==> users == old(users) && session == old(session) && error == Some(EMAIL_TAKEN)
      ensures ok ==> users == old(users) + [SignupEntry(name, email, pass, randomId, encode)]
      ensures ok ==> session == Some(EmailSession(SignupEntry(name, email, pass, randomId, encode), encode)) && error == None
    {
      if EmailIndex(users, email) != -1 {
        error := Some(EMAIL_TAKEN);
        return false;
      }
      var entry := SignupEntry(name, email, pass, randomId, encode);
      users := users + [entry];
      FinalizeLogin(UserProfile(entry.id, entry.name, entry.email, None, entry.photoUrl, Email));
      return true;
    }

    /** `requestOTP`: the fixed mock code stored for the phone. */
    method RequestOTP(phone: string) returns (ok: bool)
      modifies this`otpStore
      ensures ok && otpStore == old(otpStore)[phone := MOCK_OTP]
    {
      otpStore := otpStore[phone := MOCK_OTP];
      return true;
    }

    /**
     * `verifyOTP`: a mismatching code fails; a matching one signs into the
     * first entry with the phone, or creates one when a name is given.
     * The code stays stored after use.
     */
    method VerifyOTP(phone: string, otp: string, name: Option<string>, randomId: string, encode: string -> string)
      returns (ok: bool)
      modifies this`users, this`session, this`error
      ensures ok <==> OtpMatches(otpStore, phone, otp) && (PhoneIndex(old(users), phone) != -1 || Truthy(name))
      ensures !OtpMatches(otpStore, phone, otp) ==>
        users == old(users) && session == old(session) && error == Some(OTP_MISMATCH)
      ensures OtpMatches(otpStore, phone, otp) && PhoneIndex(old(users), phone) == -1 && !Truthy(name) ==>
        users == old(users) && session == old(session) && error == Some(ACCOUNT_NOT_FOUND)
      ensures OtpMatches(otpStore, phone, otp) && PhoneIndex(old(users), phone) != -1 ==>
        users == old(users) && session == Some(PhoneSession(users[PhoneIndex(users, phone)])) && error == None
      ensures OtpMatches(otpStore, phone, otp) && PhoneIndex(old(users), phone) == -1 && Truthy(name) ==>
        users == old(users) + [PhoneEntry(name.value, phone, randomId, encode)] &&
        session == Some(PhoneSession(PhoneEntry(name.value, phone, randomId, encode))) && error == None
    {
      if !OtpMatches(otpStore, phone, otp) {
        error := Some(OTP_MISMATCH);
        return false;
      }
      var i := PhoneIndex(users, phone);
      var existingUser: UserEntry;
      if i == -1 {
        if !Truthy(name) {
          error := Some(ACCOUNT_NOT_FOUND);
          return false;
        }
        existingUser := PhoneEntry(name.value, phone, randomId, encode);
        users := users + [existingUser];
      } else {
        existingUser := users[i];
      }
      FinalizeLogin(UserProfile(existingUser.id, existingUser.name, None, existingUser.phone, existingUser.photoUrl, Phone));
      return true;
    }
  }
}
