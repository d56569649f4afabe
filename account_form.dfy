/**
 * The profile form (`AccountForm`): its own schema, checked before
 * anything is sent; the defaults taken from the stored profile; and what
 * it does with `updateProfile`'s answer — one field error per key of an
 * error object, a toast for an error string, a toast and a refresh on
 * success.
 */
module AccountForm {
  import opened Wrappers
  import opened Text
  import opened Types
  import opened Backend
  import opened AccountActions
  import opened Ui

  const ClientUsernameTooShort := "Username must be at least 3 characters."
  /** zod's default message for `max(160)`. */
  const ClientBioTooLong := "String must contain at most 160 character(s)"
  const ProfileUpdated := "Your profile has been updated."

  /** `profileFormSchema`: a username of 3 or more `[a-zA-Z0-9_]` characters, a bio absent or of at most 160. */
  predicate ClientValid(username: string, bio: Option<string>) {
    |username| >= 3 && IsWord(username) && (bio.None? || |bio.value| <= 160)
  }

  /** The schema's issues per field, in schema order; both username checks run. */
  function ClientFieldErrors(username: string, bio: Option<string>): (r: seq<FieldError>)
    ensures r == [] <==> ClientValid(username, bio)
    ensures forall e :: e in r ==> e.messages != []
    ensures (exists e :: e in r && e.field == "username") <==> !(|username| >= 3 && IsWord(username))
    ensures (exists e :: e in r && e.field == "bio") <==> bio.Some? && |bio.value| > 160
  {
    var u := (if |username| < 3 then [ClientUsernameTooShort] else []) + (if IsWord(username) then [] else [UsernameBadChars]);
    var b := if bio.Some? && |bio.value| > 160 then [ClientBioTooLong] else [];
    (if u == [] then [] else [FieldError("username", u)]) + (if b == [] then [] else [FieldError("bio", b)])
  }

  /** `profile?.username || ""`. */
  function DefaultUsername(profile: Option<Profile>): (u: string)
    ensures profile.Some? && Truthy(profile.value.username) ==> u == profile.value.username.value
    ensures profile.None? || !Truthy(profile.value.username) ==> u == ""
  {
    if profile.Some? then OrElse(profile.value.username, "") else ""
  }

  /** `profile?.bio || ""`. */
  function DefaultBio(profile: Option<Profile>): (b: string)
    ensures profile.Some? && Truthy(profile.value.bio) ==> b == profile.value.bio.value
    ensures profile.None? || !Truthy(profile.value.bio) ==> b == ""
  {
    if profile.Some? then OrElse(profile.value.bio, "") else ""
  }

  /** `data.bio || ''`: what goes into the form data's `bio`. */
  function BioToSend(bio: Option<string>): (b: string)
    ensures bio.Some? ==> b == bio.value
    ensures bio.None? ==> b == ""
  {
    OrElse(bio, "")
  }

  /**
   * Values the form lets through also pass the server's schema: the
   * server's only field error for them is the taken username.
   */
  lemma ClientValidPassesServer(username: string, bio: Option<string>)
    requires ClientValid(username, bio)
    ensures ValidProfileInput(Some(username), Some(BioToSend(bio)))
    ensures ProfileFieldErrors(Some(username), Some(BioToSend(bio))) == []
  {
  }

  /** A form value the server would refuse is caught by the form first, with its own wording. */
  lemma ServerRefusalCaughtFirst(username: string, bio: Option<string>)
    requires !ValidProfileInput(Some(username), Some(BioToSend(bio)))
    ensures ClientFieldErrors(username, bio) != []
  {
  }

  /** `forEach(([key, value]) => setError(key, { message: value.join(", ") }))`, key by key in order. */
  function SetErrors(errors: map<string, string>, fieldErrors: seq<FieldError>): (r: map<string, string>)
    ensures r.Keys == errors.Keys + set e | e in fieldErrors :: e.field
    ensures forall k :: k in errors && (forall e :: e in fieldErrors ==> e.field != k) ==> r[k] == errors[k]
    decreases |fieldErrors|
  {
    if fieldErrors == [] then errors
    else
      var last := fieldErrors[|fieldErrors| - 1];
      var r := SetErrors(errors, fieldErrors[..|fieldErrors| - 1])[last.field := Join(last.messages, ", ")];
      assert forall e :: e in fieldErrors <==> e in fieldErrors[..|fieldErrors| - 1] || e == last;
      r
  }

  /** With each key reported once, each field shows its own messages joined by ", ". */
  lemma {:induction false} SetErrorsShows(errors: map<string, string>, fieldErrors: seq<FieldError>, i: nat)
    requires i < |fieldErrors|
    requires forall j, k :: 0 <= j < k < |fieldErrors| ==> fieldErrors[j].field != fieldErrors[k].field
    ensures SetErrors(errors, fieldErrors)[fieldErrors[i].field] == Join(fieldErrors[i].messages, ", ")
    decreases |fieldErrors|
  {
    if i < |fieldErrors| - 1 {
      SetErrorsShows(errors, fieldErrors[..|fieldErrors| - 1], i);
    }
  }

  /** A name refused by the server's schema is shown under `username` with all its messages. */
  lemma ServerUsernameErrorShown(username: Option<string>, bio: Option<string>)
    requires UsernameMessages(username) != []
    ensures var shown := SetErrors(map[], ProfileFieldErrors(username, bio));
      "username" in shown && shown["username"] == Join(UsernameMessages(username), ", ")
  {
    var fes := ProfileFieldErrors(username, bio);
    assert fes[0] == FieldError("username", UsernameMessages(username));
    SetErrorsShows(map[], fes, 0);
  }

  /** The form's values as the page keeps them. */
  class ProfileForm {
    var username: string
    var bio: Option<string>
    /** Field errors on display, by field name. */
    var errors: map<string, string>
    var toasts: seq<Toast>
    /** How many times the page was refreshed (`router.refresh()`). */
    var refreshes: nat

    /** `defaultValues` from the stored profile (`null` when there is none). */
    constructor (profile: Option<Profile>)
      ensures username == DefaultUsername(profile) && bio == Some(DefaultBio(profile))
      ensures errors == map[] && toasts == [] && refreshes == 0
    {
      username := DefaultUsername(profile);
      bio := Some(DefaultBio(profile));
      errors := map[];
      toasts := [];
      refreshes := 0;
    }

    /**
     * `handleSubmit(onProfileSubmit)`: invalid values show the schema's
     * first message per field and send nothing; valid ones clear the errors
     * and send the username and `bio || ''`.
     */
    method Submit() returns (sent: Option<(string, string)>)
      modifies this
      ensures username == old(username) && bio == old(bio) && toasts == old(toasts) && refreshes == old(refreshes)
      ensures sent.Some? <==> ClientValid(username, bio)
      ensures sent.Some? ==> sent.value == (username, BioToSend(bio)) && errors == map[]
      ensures sent.None? ==> errors == FirstMessages(ClientFieldErrors(username, bio))
    {
      var issues := ClientFieldErrors(username, bio);
      if issues != [] {
        errors := FirstMessages(issues);
        return None;
      }
      errors := map[];
      sent := Some((username, BioToSend(bio)));
    }

    /** The `startTransition` callback once `updateProfile` has answered. */
    method HandleResult(reply: Reply)
      modifies this
      ensures username == old(username) && bio == old(bio)
      ensures reply.FieldErrors? ==>
        errors == SetErrors(old(errors), reply.errors) && toasts == old(toasts) && refreshes == old(refreshes)
      ensures reply.Failed? ==>
        errors == old(errors) && toasts == old(toasts) + [ErrorToast(reply.message)] && refreshes == old(refreshes)
      ensures (reply.Done? || reply.DoneWithUrl?) ==>
        errors == old(errors) && toasts == old(toasts) + [SuccessToast(ProfileUpdated)] && refreshes == old(refreshes) + 1
    {
      match reply
      case FieldErrors(fes) =>
        var i := 0;
        while i < |fes|
          invariant 0 <= i <= |fes|
          invariant errors == SetErrors(old(errors), fes[..i])
          invariant username == old(username) && bio == old(bio) && toasts == old(toasts) && refreshes == old(refreshes)
        {
          assert fes[..i + 1][..i] == fes[..i];
          errors := errors[fes[i].field := Join(fes[i].messages, ", ")];
          i := i + 1;
        }
        assert fes[..|fes|] == fes;
      case Failed(m) =>
        toasts := toasts + [ErrorToast(m)];
      case _ =>
        toasts := toasts + [SuccessToast(ProfileUpdated)];
        refreshes := refreshes + 1;
    }
  }

  /**
   * zodResolver's errors: one per failing field, holding the first message
   * of the field's first report.
   */
  function FirstMessages(fieldErrors: seq<FieldError>): (r: map<string, string>)
    requires forall e :: e in fieldErrors ==> e.messages != []
    ensures r.Keys == set e | e in fieldErrors :: e.field
    ensures forall i :: 0 <= i < |fieldErrors| && (forall j :: 0 <= j < i ==> fieldErrors[j].field != fieldErrors[i].field) ==>
              r[fieldErrors[i].field] == fieldErrors[i].messages[0]
    decreases |fieldErrors|
  {
    if fieldErrors == [] then map[]
    else
      var rest := FirstMessages(fieldErrors[1..]);
      assert forall e :: e in fieldErrors <==> e == fieldErrors[0] || e in fieldErrors[1..];
      assert forall i :: 1 <= i < |fieldErrors| && (forall j :: 0 <= j < i ==> fieldErrors[j].field != fieldErrors[i].field) ==>
               rest[fieldErrors[i].field] == fieldErrors[i].messages[0] by {
        forall i | 1 <= i < |fieldErrors| && (forall j :: 0 <= j < i ==> fieldErrors[j].field != fieldErrors[i].field)
          ensures rest[fieldErrors[i].field] == fieldErrors[i].messages[0]
        {
          assert fieldErrors[1..][i - 1] == fieldErrors[i];
          forall j | 0 <= j < i - 1 ensures fieldErrors[1..][j].field != fieldErrors[1..][i - 1].field {
            assert fieldErrors[1..][j] == fieldErrors[j + 1];
          }
        }
      }
      rest[fieldErrors[0].field := fieldErrors[0].messages[0]]
  }
}
