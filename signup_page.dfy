/**
 * The sign-up page: its inline `signUp` action (no validation, no
 * username lookup) ends every path in a redirect carrying a message, and
 * the page shows that message in an alert, classified and with a leading
 * "Could not create user: " or "Could not authenticate user: " removed.
 */
module SignupPage {
  import opened Wrappers
  import opened Text
  import opened Types
  import opened Backend
  import opened Signup

  const CreateUserPrefix := "Could not create user: "
  const AuthenticatePrefix := "Could not authenticate user: "
  const CreateProfilePrefix := "Could not create profile: "
  // In two pieces: the verifier reads the characters of a short literal only.
  const VerifyEmail := "Check your email " + "to verify your account and then sign in."

  /** `redirect(`${path}?message=${message}`)`; URL encoding is left to the framework. */
  datatype Redirect = Redirect(path: string, message: string)

  /**
   * The page's `signUp` action. Inputs as in `Signup.SignUp`; every path
   * ends in a redirect.
   */
  method PageSignUp(db: Backend, username: Option<string>, auth: AuthOutcome, insertError: Option<string>,
                    deleteFails: bool) returns (r: Redirect)
    requires db.Valid()
    requires auth.Created? && auth.user.Some? ==> auth.user.value !in db.authUsers
    modifies db
    ensures db.Valid()
    ensures db.links == old(db.links) && db.analytics == old(db.analytics) && db.storage == old(db.storage)
    ensures match auth
      case AuthError(m) => r == Redirect("/signup", CreateUserPrefix + m) && unchanged(db)
      case Created(None) => r == Redirect("/login", VerifyEmail) && unchanged(db)
      case Created(Some(uid)) =>
        if insertError.Some? then
          && r == Redirect("/signup", CreateProfilePrefix + insertError.value)
          && db.profiles == old(db.profiles)
          && db.authUsers == (if deleteFails then old(db.authUsers) + {uid} else old(db.authUsers))
        else
          && r == Redirect("/login", VerifyEmail)
          && db.authUsers == old(db.authUsers) + {uid}
          && db.profiles == old(db.profiles)[uid := InsertedProfile(SignupProfile(uid, username))]
  {
    if auth.AuthError? {
      return Redirect("/signup", CreateUserPrefix + auth.message);
    }
    if auth.user.Some? {
      var uid := auth.user.value;
      db.authUsers := db.authUsers + {uid};
      if insertError.Some? {
        if !deleteFails {
          db.authUsers := db.authUsers - {uid};
        }
        return Redirect("/signup", CreateProfilePrefix + insertError.value);
      }
      db.profiles := db.profiles[uid := InsertedProfile(SignupProfile(uid, username))];
    }
    r := Redirect("/login", VerifyEmail);
  }

  /** The alert is shown only for a non-empty message. */
  predicate ShowsAlert(message: Option<string>) {
    Truthy(message)
  }

  /** Destructive variant with title "Error" for messages starting "Could not", default with "Info" otherwise. */
  function AlertTitle(message: string): (title: string)
    ensures title == "Error" || title == "Info"
    ensures title == "Error" <==> IsDestructive(message)
  {
    if StartsWith(message, "Could not") then "Error" else "Info"
  }

  predicate IsDestructive(message: string) {
    StartsWith(message, "Could not")
  }

  /**
   * `message.replace(/Could not (create|authenticate) user: /, '')`: the
   * leftmost match, wherever it stands, is removed; the rest is kept.
   */
  function DisplayText(message: string): (text: string)
    ensures |text| <= |message|
  {
    if StartsWith(message, CreateUserPrefix) then message[|CreateUserPrefix|..]
    else if StartsWith(message, AuthenticatePrefix) then message[|AuthenticatePrefix|..]
    else if message == [] then []
    else [message[0]] + DisplayText(message[1..])
  }

  /** The pattern matches at `i`. */
  predicate MatchesAt(message: string, i: nat) {
    OccursAt(message, CreateUserPrefix, i) || OccursAt(message, AuthenticatePrefix, i)
  }

  /** A message the pattern does not match anywhere is shown as it is. */
  lemma {:induction false} DisplayTextNoMatch(message: string)
    requires forall i: nat :: !MatchesAt(message, i)
    ensures DisplayText(message) == message
    decreases |message|
  {
    assert !MatchesAt(message, 0);
    if message != [] {
      forall i: nat ensures !MatchesAt(message[1..], i) {
        OccursAtTail(message, CreateUserPrefix, i);
        OccursAtTail(message, AuthenticatePrefix, i);
        assert !MatchesAt(message, i + 1);
      }
      DisplayTextNoMatch(message[1..]);
    }
  }

  /** The leftmost match is the one removed: text before it is kept, text after it is kept verbatim. */
  lemma {:induction false} DisplayTextFirstMatch(message: string, i: nat)
    requires MatchesAt(message, i)
    requires forall j: nat :: j < i ==> !MatchesAt(message, j)
    ensures var p := if OccursAt(message, CreateUserPrefix, i) then CreateUserPrefix else AuthenticatePrefix;
      DisplayText(message) == message[..i] + message[i + |p|..]
    decreases i
  {
    if i == 0 {
      assert !OccursAt(message, CreateUserPrefix, 0) ==> !StartsWith(message, CreateUserPrefix);
      assert message[..0] == [];
    } else {
      assert !MatchesAt(message, 0);
      forall j: nat | j < i - 1 ensures !MatchesAt(message[1..], j) {
        OccursAtTail(message, CreateUserPrefix, j);
        OccursAtTail(message, AuthenticatePrefix, j);
        assert !MatchesAt(message, j + 1);
      }
      OccursAtTail(message, CreateUserPrefix, i - 1);
      OccursAtTail(message, AuthenticatePrefix, i - 1);
      DisplayTextFirstMatch(message[1..], i - 1);
      assert message[..i] == [message[0]] + message[1..][..i - 1];
    }
  }

  /** An auth error comes back to the page as the auth service's own message. */
  lemma UserErrorShownBare(m: string)
    ensures DisplayText(CreateUserPrefix + m) == m
  {
    var s := CreateUserPrefix + m;
    assert s[..|CreateUserPrefix|] == CreateUserPrefix;
    assert s[|CreateUserPrefix|..] == m;
  }

  /** Only the first character of the profile prefix is a `C`, the first character of both patterns. */
  lemma ProfilePrefixOneC()
    ensures forall i :: 0 < i < |CreateProfilePrefix| ==> CreateProfilePrefix[i] != 'C'
    ensures CreateUserPrefix[0] == 'C' && AuthenticatePrefix[0] == 'C'
  {
  }

  /** One differing character rules an occurrence out. */
  lemma NoOccurrence(s: string, t: string, i: nat, k: nat)
    requires k < |t| && (i + k < |s| ==> s[i + k] != t[k])
    ensures !OccursAt(s, t, i)
  {
  }

  /** A profile error keeps its prefix (when the database's message does not itself contain the pattern). */
  lemma ProfileErrorKeepsPrefix(m: string)
    requires forall i: nat :: !MatchesAt(m, i)
    ensures DisplayText(CreateProfilePrefix + m) == CreateProfilePrefix + m
  {
    var s := CreateProfilePrefix + m;
    var n := |CreateProfilePrefix|;
    ProfilePrefixOneC();
    forall i: nat ensures !MatchesAt(s, i) {
      if i == 0 {
        assert s[17] == 'p' && s[10] == 'c';
        NoOccurrence(s, CreateUserPrefix, 0, 17);
        NoOccurrence(s, AuthenticatePrefix, 0, 10);
      } else if i < n {
        assert s[i] == CreateProfilePrefix[i];
        NoOccurrence(s, CreateUserPrefix, i, 0);
        NoOccurrence(s, AuthenticatePrefix, i, 0);
      } else {
        assert !MatchesAt(m, i - n);
        if i + |CreateUserPrefix| <= |s| {
          assert s[i..i + |CreateUserPrefix|] == m[i - n..i - n + |CreateUserPrefix|];
        }
        if i + |AuthenticatePrefix| <= |s| {
          assert s[i..i + |AuthenticatePrefix|] == m[i - n..i - n + |AuthenticatePrefix|];
        }
      }
    }
    DisplayTextNoMatch(s);
  }

  /**
   * Both failures the action reports come back to this page and are shown
   * as errors. The success notice would be classified as information, but
   * it goes to `/login`, whose page does not display a message.
   */
  lemma RedirectsClassified(m: string)
    ensures AlertTitle(CreateUserPrefix + m) == "Error" && IsDestructive(CreateUserPrefix + m)
    ensures AlertTitle(CreateProfilePrefix + m) == "Error" && IsDestructive(CreateProfilePrefix + m)
    ensures AlertTitle(VerifyEmail) == "Info" && !IsDestructive(VerifyEmail)
  {
    assert (CreateUserPrefix + m)[..9] == "Could not";
    assert (CreateProfilePrefix + m)[..9] == "Could not";
    assert VerifyEmail[..9][1] == 'h';
  }
}
