/**
 * The `signUp` server action: validate the form, refuse a username the
 * lookup finds, create the auth user, then insert the profile; when the
 * insert fails the new auth user is deleted again.
 */
module Signup {
  import opened Wrappers
  import opened Text
  import opened Types
  import opened Backend
  import opened AccountActions

  const InvalidEmail := "Please enter a valid email address."
  const PasswordTooShort := "Password must be at least 6 characters long."

  /** What the auth service's `signUp` reports: an error, or the new user (possibly `null`). */
  datatype AuthOutcome = AuthError(message: string) | Created(user: Option<UserId>)

  /** `email` issues; `isEmail` is zod's e-mail recogniser. */
  function EmailMessages(email: Option<string>, isEmail: string -> bool): (ms: seq<string>)
    ensures ms == [] <==> email.Some? && isEmail(email.value)
  {
    match email
    case None => [ExpectedString]
    case Some(e) => if isEmail(e) then [] else [InvalidEmail]
  }

  function PasswordMessages(password: Option<string>): (ms: seq<string>)
    ensures ms == [] <==> password.Some? && |password.value| >= 6
  {
    match password
    case None => [ExpectedString]
    case Some(p) => if |p| < 6 then [PasswordTooShort] else []
  }

  /** `signupSchema`'s issues in schema order: email, password, username. */
  function SignupMessages(email: Option<string>, password: Option<string>, username: Option<string>,
                          isEmail: string -> bool): (ms: seq<string>)
    ensures ms == [] <==> ValidSignup(email, password, username, isEmail)
    ensures PasswordTooShort in ms <==> password.Some? && |password.value| < 6
    ensures UsernameBadChars in ms <==> username.Some? && !IsWord(username.value)
  {
    EmailMessages(email, isEmail) + PasswordMessages(password) + UsernameMessages(username)
  }

  /** A well-formed e-mail, a password of 6 or more characters, a username of 3 or more `[a-zA-Z0-9_]`. */
  predicate ValidSignup(email: Option<string>, password: Option<string>, username: Option<string>,
                        isEmail: string -> bool) {
    && email.Some? && isEmail(email.value)
    && password.Some? && |password.value| >= 6
    && username.Some? && |username.value| >= 3 && IsWord(username.value)
  }

  /** The profile row a sign-up inserts: the username doubles as the full name. */
  function SignupProfile(uid: UserId, username: Option<string>): (ins: ProfileInsert)
    ensures ins.id == uid && WellTyped(ins.columns)
    ensures ins.columns.Keys == {Username, FullName}
    ensures ins.columns[Username] == OfText(username) && ins.columns[FullName] == OfText(username)
  {
    ProfileInsert(uid, map[Username := OfText(username), FullName := OfText(username)])
  }

  /**
   * `signUp(formData)`. The auth outcome, the insert's error (if any) and
   * whether the compensating `deleteUser` fails (its result is ignored)
   * are inputs. The auth service hands out an id no existing user has.
   */
  method SignUp(db: Backend, email: Option<string>, password: Option<string>, username: Option<string>,
                isEmail: string -> bool, auth: AuthOutcome, insertError: Option<string>, deleteFails: bool)
    returns (reply: Reply)
    requires db.Valid()
    requires auth.Created? && auth.user.Some? ==> auth.user.value !in db.authUsers
    modifies db
    ensures db.Valid()
    ensures db.links == old(db.links) && db.analytics == old(db.analytics) && db.storage == old(db.storage)
    ensures !ValidSignup(email, password, username, isEmail) ==>
      reply == Failed(Join(SignupMessages(email, password, username, isEmail), " ")) && unchanged(db)
    ensures ValidSignup(email, password, username, isEmail) && SingleMatch(old(db.profiles), username.value, None) ==>
      reply == Failed(UsernameTaken) && unchanged(db)
    ensures ValidSignup(email, password, username, isEmail) && !SingleMatch(old(db.profiles), username.value, None) ==>
      match auth
      case AuthError(m) => reply == Failed(m) && unchanged(db)
      case Created(None) => reply == Done && unchanged(db)
      case Created(Some(uid)) =>
        if insertError.Some? then
          && reply == Failed(insertError.value)
          && db.profiles == old(db.profiles)
          && db.authUsers == (if deleteFails then old(db.authUsers) + {uid} else old(db.authUsers))
        else
          && reply == Done
          && db.authUsers == old(db.authUsers) + {uid}
          && db.profiles == old(db.profiles)[uid := InsertedProfile(SignupProfile(uid, username))]
  {
    var messages := SignupMessages(email, password, username, isEmail);
    if messages != [] {
      return Failed(Join(messages, " "));
    }
    if SingleMatch(db.profiles, username.value, None) {
      return Failed(UsernameTaken);
    }
    if auth.AuthError? {
      return Failed(auth.message);
    }
    if auth.user.Some? {
      var uid := auth.user.value;
      db.authUsers := db.authUsers + {uid};
      if insertError.Some? {
        if !deleteFails {
          db.authUsers := db.authUsers - {uid};
        }
        return Failed(insertError.value);
      }
      db.profiles := db.profiles[uid := InsertedProfile(SignupProfile(uid, username))];
    }
    reply := Done;
  }

  /**
   * While usernames are unique, a sign-up the lookup lets through keeps
   * them unique: the new row's name is one no profile holds.
   */
  lemma SignUpKeepsUsernamesUnique(profiles: map<UserId, Profile>, uid: UserId, username: string)
    requires UniqueUsernames(profiles) && uid !in profiles
    requires !SingleMatch(profiles, username, None)
    ensures UniqueUsernames(profiles[uid := InsertedProfile(SignupProfile(uid, Some(username)))])
  {
    var r := profiles[uid := InsertedProfile(SignupProfile(uid, Some(username)))];
    SingleMatchIffHeld(profiles, username, None);
    InsertedProfileColumns(SignupProfile(uid, Some(username)));
    assert Get(r[uid], Username) == Str(username);
    ClaimingFreeNameKeepsUnique(profiles, r, uid, username);
  }
}
