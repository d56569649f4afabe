/**
 * The server actions of the account area: profile validation and update,
 * the batch link save, customization updates, background removal and
 * analytics tracking. (Avatar replacement is in module Assets.)
 *
 * The studio copy of these actions repeats `profileSchema`,
 * `updateProfile`, `updateCustomization` and the two tracking actions
 * word for word, and builds its delete set the same way; those are
 * modelled once, here, and module StudioActions uses them.
 */
module AccountActions {
  import opened Wrappers
  import opened Text
  import opened Types
  import opened Backend

  const NotLoggedInProfile := "You must be logged in to update your profile."
  const NotLoggedInLinks := "You must be logged in to update links."
  const NotLoggedIn := "You must be logged in."
  const UsernameTooShort := "Username must be at least 3 characters long."
  const UsernameBadChars := "Username can only contain letters, numbers, and underscores."
  const BioTooLong := "Bio must be 160 characters or less."
  /** zod's message for `null` where a string is expected (a missing form field). */
  const ExpectedString := "Expected string, received null"
  const UsernameTaken := "Username is already taken."
  const ProfileUpsertFailed := "Failed to update profile."
  const RemoveLinksFailed := "Failed to remove old links."
  const UpsertLinksFailed := "Failed to update links."
  const CustomizationFailed := "Failed to update customization."
  const RemoveBackgroundFailed := "Failed to remove background."

  // ---------------------------------------------------------- profileSchema

  /** What `profileSchema` accepts: a username of 3 or more `[a-zA-Z0-9_]` characters, a bio of at most 160. */
  predicate ValidProfileInput(username: Option<string>, bio: Option<string>) {
    && username.Some? && |username.value| >= 3 && IsWord(username.value)
    && bio.Some? && |bio.value| <= 160
  }

  /** The username's issues: both string checks run, so a short name with a bad character gets both messages. */
  function UsernameMessages(username: Option<string>): (ms: seq<string>)
    ensures ms == [] <==> username.Some? && |username.value| >= 3 && IsWord(username.value)
    ensures username.None? ==> ms == [ExpectedString]
    ensures username.Some? ==> (UsernameTooShort in ms <==> |username.value| < 3)
    ensures username.Some? ==> (UsernameBadChars in ms <==> !IsWord(username.value))
  {
    match username
    case None => [ExpectedString]
    case Some(u) =>
      (if |u| < 3 then [UsernameTooShort] else []) + (if IsWord(u) then [] else [UsernameBadChars])
  }

  /** The bio's issues; the field is optional but `null` (absent from the form) is not `undefined`. */
  function BioMessages(bio: Option<string>): (ms: seq<string>)
    ensures ms == [] <==> bio.Some? && |bio.value| <= 160
    ensures bio.Some? && |bio.value| > 160 ==> ms == [BioTooLong]
  {
    match bio
    case None => [ExpectedString]
    case Some(b) => if |b| > 160 then [BioTooLong] else []
  }

  /** `profileSchema.safeParse(values).error.flatten().fieldErrors`, fields in schema order. */
  function ProfileFieldErrors(username: Option<string>, bio: Option<string>): (r: seq<FieldError>)
    ensures r == [] <==> ValidProfileInput(username, bio)
    ensures forall e :: e in r ==> e.messages != [] && (e.field == "username" || e.field == "bio")
    ensures (exists e :: e in r && e.field == "username") <==> UsernameMessages(username) != []
  {
    var u := UsernameMessages(username);
    var b := BioMessages(bio);
    (if u == [] then [] else [FieldError("username", u)]) + (if b == [] then [] else [FieldError("bio", b)])
  }

  // ---------------------------------------------------------- updateProfile

  /**
   * The object `updateProfile` upserts (besides `id`): username, bio and
   * the time, and the auth metadata's name and avatar when the metadata
   * has them (an `undefined` value is dropped from the request).
   */
  function ProfileUpsert(user: AuthUser, username: string, bio: string, now: string): (patch: Patch)
    ensures WellTyped(patch)
    ensures Username in patch && patch[Username] == Str(username)
    ensures Bio in patch && patch[Bio] == Str(bio)
    ensures UpdatedAt in patch && patch[UpdatedAt] == Str(now)
    ensures FullName in patch <==> user.fullName.Some?
    ensures AvatarUrl in patch <==> user.avatarUrl.Some?
    ensures FullName in patch ==> patch[FullName] == Str(user.fullName.value)
    ensures AvatarUrl in patch ==> patch[AvatarUrl] == Str(user.avatarUrl.value)
    ensures forall c :: c in patch ==> c in {Username, Bio, UpdatedAt, FullName, AvatarUrl}
  {
    var base := map[Username := Str(username), Bio := Str(bio), UpdatedAt := Str(now)];
    var named := if user.fullName.Some? then base[FullName := Str(user.fullName.value)] else base;
    if user.avatarUrl.Some? then named[AvatarUrl := Str(user.avatarUrl.value)] else named
  }

  /**
   * `updateProfile`: signed in, valid input, the name not found on another
   * profile by the `single()` lookup, then one upsert of the caller's row.
   */
  method UpdateProfile(db: Backend, user: Option<AuthUser>, username: Option<string>, bio: Option<string>,
                       now: string, upsertFails: bool) returns (reply: Reply)
    requires db.Valid()
    requires user.Some? ==> user.value.id in db.authUsers
    modifies db
    ensures db.Valid()
    ensures db.authUsers == old(db.authUsers) && db.links == old(db.links)
    ensures db.analytics == old(db.analytics) && db.storage == old(db.storage)
    ensures user.None? ==> reply == Failed(NotLoggedInProfile) && db.profiles == old(db.profiles)
    ensures user.Some? && !ValidProfileInput(username, bio) ==>
      reply == FieldErrors(ProfileFieldErrors(username, bio)) && db.profiles == old(db.profiles)
    ensures user.Some? && ValidProfileInput(username, bio) ==>
      var uid := user.value.id;
      if SingleMatch(old(db.profiles), username.value, Some(uid)) then
        reply == FieldErrors([FieldError("username", [UsernameTaken])]) && db.profiles == old(db.profiles)
      else if upsertFails then
        reply == Failed(ProfileUpsertFailed) && db.profiles == old(db.profiles)
      else
        reply == Done
        && db.profiles == UpsertedProfiles(old(db.profiles), uid, ProfileUpsert(user.value, username.value, bio.value, now))
  {
    if user.None? {
      return Failed(NotLoggedInProfile);
    }
    var errors := ProfileFieldErrors(username, bio);
    if errors != [] {
      return FieldErrors(errors);
    }
    var uid := user.value.id;
    if SingleMatch(db.profiles, username.value, Some(uid)) {
      return FieldErrors([FieldError("username", [UsernameTaken])]);
    }
    if upsertFails {
      return Failed(ProfileUpsertFailed);
    }
    db.profiles := UpsertedProfiles(db.profiles, uid, ProfileUpsert(user.value, username.value, bio.value, now));
    reply := Done;
  }

  /**
   * While usernames are unique, a successful `updateProfile` keeps them
   * unique: the lookup lets a name through only if no other profile holds it.
   */
  lemma {:induction false} UpdateProfileKeepsUsernamesUnique(profiles: map<UserId, Profile>, user: AuthUser,
                                                             username: string, bio: string, now: string)
    requires UniqueUsernames(profiles)
    requires !SingleMatch(profiles, username, Some(user.id))
    ensures UniqueUsernames(UpsertedProfiles(profiles, user.id, ProfileUpsert(user, username, bio, now)))
  {
    var patch := ProfileUpsert(user, username, bio, now);
    var r := UpsertedProfiles(profiles, user.id, patch);
    SingleMatchIffHeld(profiles, username, Some(user.id));
    UpsertedProfilesRow(profiles, user.id, patch);
    assert Get(r[user.id], Username) == Str(username);
    ClaimingFreeNameKeepsUnique(profiles, r, user.id, username);
  }

  // ------------------------------------------------------------ updateLinks

  /** The ids in the submitted list (`new Set(links.map(l => l.id))`, without `undefined`). */
  function SubmittedIds(links: seq<LinkDraft>): (ids: set<LinkId>)
    ensures forall k :: k in ids <==> exists i :: 0 <= i < |links| && links[i].id == Some(k)
  {
    set i | 0 <= i < |links| && links[i].id.Some? :: links[i].id.value
  }

  /** `initialLinks.filter(link => !currentLinkIds.has(link.id))`. */
  function LinksToDelete(links: seq<LinkDraft>, initial: seq<Link>): (r: seq<Link>)
    ensures |r| <= |initial|
    ensures forall l :: l in r <==> l in initial && l.id !in SubmittedIds(links)
    decreases |initial|
  {
    if initial == [] then []
    else
      var rest := LinksToDelete(links, initial[1..]);
      assert forall l :: l in initial <==> l == initial[0] || l in initial[1..];
      if initial[0].id in SubmittedIds(links) then rest else [initial[0]] + rest
  }

  /** The ids handed to `.delete().in('id', …)`. */
  function DeletedIds(links: seq<LinkDraft>, initial: seq<Link>): (ids: set<LinkId>)
    ensures forall k :: k in ids <==> k !in SubmittedIds(links) && exists l :: l in initial && l.id == k
    ensures ids == {} <==> LinksToDelete(links, initial) == []
  {
    var doomed := LinksToDelete(links, initial);
    assert doomed != [] ==> doomed[0] in doomed;
    set l | l in doomed :: l.id
  }

  /** The table after deleting the rows whose ids are in `ids`. */
  function Without(table: map<LinkId, Link>, ids: set<LinkId>): (t: map<LinkId, Link>)
    ensures t.Keys == table.Keys - ids
    ensures forall k :: k in t ==> t[k] == table[k]
  {
    map k | k in table && k !in ids :: table[k]
  }

  /** A row of the batch upsert; `id` is `None` where the entry was new. */
  datatype PlannedRow = PlannedRow(id: Option<LinkId>, user_id: UserId, title: string, url: string, order: nat)

  /** The filter `link.title && link.url`: both present and non-empty. */
  predicate Kept(d: LinkDraft) {
    Truthy(d.title) && Truthy(d.url)
  }

  /** An id the form made up for an unsaved entry. */
  predicate IsNewId(id: Option<LinkId>) {
    id.Some? && StartsWith(id.value, "new-")
  }

  function RowFor(d: LinkDraft, uid: UserId, index: nat): PlannedRow
    requires Kept(d)
  {
    PlannedRow(if IsNewId(d.id) then None else d.id, uid, d.title.value, d.url.value, index)
  }

  /** The rows planned for `links`, whose first entry stands at index `start` of the submitted list. */
  function PlanFrom(links: seq<LinkDraft>, uid: UserId, start: nat): (rows: seq<PlannedRow>)
    ensures |rows| <= |links|
    decreases |links|
  {
    if links == [] then []
    else
      var rest := PlanFrom(links[1..], uid, start + 1);
      if Kept(links[0]) then [RowFor(links[0], uid, start)] + rest else rest
  }

  lemma {:induction false} PlanFromSound(links: seq<LinkDraft>, uid: UserId, start: nat, i: nat)
    requires i < |PlanFrom(links, uid, start)|
    ensures var r := PlanFrom(links, uid, start)[i];
      start <= r.order < start + |links| && Kept(links[r.order - start])
      && r == RowFor(links[r.order - start], uid, r.order)
    decreases |links|
  {
    var rest := PlanFrom(links[1..], uid, start + 1);
    if Kept(links[0]) {
      if i > 0 {
        PlanFromSound(links[1..], uid, start + 1, i - 1);
      }
    } else {
      PlanFromSound(links[1..], uid, start + 1, i);
    }
  }

  lemma {:induction false} PlanFromOrdered(links: seq<LinkDraft>, uid: UserId, start: nat, i: nat, j: nat)
    requires i < j < |PlanFrom(links, uid, start)|
    ensures PlanFrom(links, uid, start)[i].order < PlanFrom(links, uid, start)[j].order
    decreases |links|
  {
    if Kept(links[0]) {
      if i == 0 {
        PlanFromSound(links[1..], uid, start + 1, j - 1);
      } else {
        PlanFromOrdered(links[1..], uid, start + 1, i - 1, j - 1);
      }
    } else {
      PlanFromOrdered(links[1..], uid, start + 1, i, j);
    }
  }

  lemma {:induction false} PlanFromComplete(links: seq<LinkDraft>, uid: UserId, start: nat, k: nat)
    requires k < |links| && Kept(links[k])
    ensures exists i :: 0 <= i < |PlanFrom(links, uid, start)| && PlanFrom(links, uid, start)[i].order == start + k
    decreases |links|
  {
    var rows := PlanFrom(links, uid, start);
    if k == 0 {
      assert rows[0].order == start;
    } else {
      assert links[1..][k - 1] == links[k];
      PlanFromComplete(links[1..], uid, start + 1, k - 1);
      var i :| 0 <= i < |PlanFrom(links[1..], uid, start + 1)| && PlanFrom(links[1..], uid, start + 1)[i].order == start + k;
      if Kept(links[0]) {
        assert rows[i + 1].order == start + k;
      } else {
        assert rows[i].order == start + k;
      }
    }
  }

  /**
   * The batch `updateLinks` upserts: each entry is mapped with its index
   * as `order`, the caller as owner and no id when the id is a `new-` one;
   * entries without a title or url are dropped afterwards.
   */
  function Plan(links: seq<LinkDraft>, uid: UserId): (rows: seq<PlannedRow>)
    ensures |rows| <= |links|
  {
    PlanFrom(links, uid, 0)
  }

  /**
   * Each planned row comes from the entry at index `order`, which has a
   * title and a url; the row belongs to the caller and has no id exactly
   * when the entry's id is a `new-` one.
   */
  lemma PlanRows(links: seq<LinkDraft>, uid: UserId, i: nat)
    requires i < |Plan(links, uid)|
    ensures var r := Plan(links, uid)[i];
      && r.order < |links| && Kept(links[r.order])
      && r.user_id == uid
      && r.id == (if IsNewId(links[r.order].id) then None else links[r.order].id)
      && Some(r.title) == links[r.order].title && Some(r.url) == links[r.order].url
  {
    PlanFromSound(links, uid, 0, i);
  }

  /** The rows keep the order of the submitted list. */
  lemma PlanOrdered(links: seq<LinkDraft>, uid: UserId, i: nat, j: nat)
    requires i < j < |Plan(links, uid)|
    ensures Plan(links, uid)[i].order < Plan(links, uid)[j].order
  {
    PlanFromOrdered(links, uid, 0, i, j);
  }

  /** Every entry with a title and a url gets a row. */
  lemma PlanComplete(links: seq<LinkDraft>, uid: UserId, k: nat)
    requires k < |links| && Kept(links[k])
    ensures exists i :: 0 <= i < |Plan(links, uid)| && Plan(links, uid)[i].order == k
  {
    PlanFromComplete(links, uid, 0, k);
    var i :| 0 <= i < |PlanFrom(links, uid, 0)| && PlanFrom(links, uid, 0)[i].order == 0 + k;
    assert Plan(links, uid)[i].order == k;
  }

  /** Nothing is upserted exactly when no entry has both a title and a url. */
  lemma PlanEmpty(links: seq<LinkDraft>, uid: UserId)
    ensures Plan(links, uid) == [] <==> forall k :: 0 <= k < |links| ==> !Kept(links[k])
  {
    if Plan(links, uid) != [] {
      PlanRows(links, uid, 0);
    }
    forall k | 0 <= k < |links| && Kept(links[k]) ensures Plan(links, uid) != [] {
      PlanComplete(links, uid, k);
    }
  }

  /** When every entry survives the filter, row `i` is entry `i`. */
  lemma {:induction false} PlanFromAllKept(links: seq<LinkDraft>, uid: UserId, start: nat)
    requires forall k :: 0 <= k < |links| ==> Kept(links[k])
    ensures |PlanFrom(links, uid, start)| == |links|
    ensures forall i :: 0 <= i < |links| ==> PlanFrom(links, uid, start)[i] == RowFor(links[i], uid, start + i)
    decreases |links|
  {
    if links != [] {
      PlanFromAllKept(links[1..], uid, start + 1);
    }
  }

  /** ... so the orders are then exactly 0, 1, 2, … */
  lemma PlanDense(links: seq<LinkDraft>, uid: UserId)
    requires forall k :: 0 <= k < |links| ==> Kept(links[k])
    ensures |Plan(links, uid)| == |links|
    ensures forall i :: 0 <= i < |links| ==> Plan(links, uid)[i].order == i
  {
    PlanFromAllKept(links, uid, 0);
  }

  /** Dropping happens after numbering: a blank first entry leaves a gap at order 0. */
  lemma PlanLeavesGaps(uid: UserId)
    ensures Plan([LinkDraft(None, Some(""), Some("u")), LinkDraft(None, Some("t"), Some("u"))], uid)
      == [PlannedRow(None, uid, "t", "u", 1)]
  {
    var links := [LinkDraft(None, Some(""), Some("u")), LinkDraft(None, Some("t"), Some("u"))];
    assert links[1..] == [LinkDraft(None, Some("t"), Some("u"))];
    assert links[1..][1..] == [];
  }

  /** The key a planned row lands on: its own id, or the one the database generates. */
  function RowKey(r: PlannedRow, generated: LinkId): LinkId {
    r.id.GetOr(generated)
  }

  /** No two planned rows carry the same id (Postgres refuses to touch one row twice in a statement). */
  predicate DistinctExplicitIds(rows: seq<PlannedRow>) {
    forall i, j :: 0 <= i < j < |rows| && rows[i].id.Some? ==> rows[i].id != rows[j].id
  }

  /** The rows land on pairwise distinct keys. */
  predicate DistinctKeys(rows: seq<PlannedRow>, newIds: seq<LinkId>)
    requires |newIds| == |rows|
  {
    forall i, j :: 0 <= i < j < |rows| ==> RowKey(rows[i], newIds[i]) != RowKey(rows[j], newIds[j])
  }

  /**
   * `links.upsert(rows, { onConflict: 'id' })`: a row whose key exists
   * overwrites title, url, owner and order and keeps `created_at`; any
   * other row is inserted, `newIds[i]` standing for the id the database
   * generates for row `i` when it has none.
   */
  function UpsertLinks(table: map<LinkId, Link>, rows: seq<PlannedRow>, newIds: seq<LinkId>, now: string): (t: map<LinkId, Link>)
    requires |newIds| == |rows|
    ensures forall k :: k in t <==> k in table || exists i :: 0 <= i < |rows| && RowKey(rows[i], newIds[i]) == k
    ensures (forall k :: k in table ==> table[k].id == k) ==> forall k :: k in t ==> t[k].id == k
    decreases |rows|
  {
    if rows == [] then table
    else
      var r := rows[0];
      var k := RowKey(r, newIds[0]);
      var created := if k in table then table[k].created_at else now;
      var t := UpsertLinks(table[k := Link(created, k, r.order, r.title, r.url, r.user_id)], rows[1..], newIds[1..], now);
      assert forall i :: 0 < i < |rows| ==> RowKey(rows[i], newIds[i]) == RowKey(rows[1..][i - 1], newIds[1..][i - 1]);
      t
  }

  /**
   * With distinct keys, row `i` of the batch is stored under its key with
   * its title, url, owner and order; an existing row keeps its creation time.
   */
  lemma {:induction false} UpsertLinksStores(table: map<LinkId, Link>, rows: seq<PlannedRow>, newIds: seq<LinkId>,
                                             now: string, i: nat)
    requires |newIds| == |rows| && i < |rows|
    requires DistinctKeys(rows, newIds)
    ensures var k := RowKey(rows[i], newIds[i]);
      var t := UpsertLinks(table, rows, newIds, now);
      && k in t && t[k].id == k
      && t[k].title == rows[i].title && t[k].url == rows[i].url
      && t[k].user_id == rows[i].user_id && t[k].order == rows[i].order
      && t[k].created_at == (if k in table then table[k].created_at else now)
    decreases |rows|
  {
    var r := rows[0];
    var k0 := RowKey(r, newIds[0]);
    var created := if k0 in table then table[k0].created_at else now;
    var next := table[k0 := Link(created, k0, r.order, r.title, r.url, r.user_id)];
    if i == 0 {
      UpsertLinksSkips(next, rows[1..], newIds[1..], now, k0);
    } else {
      assert DistinctKeys(rows[1..], newIds[1..]) by {
        forall a, b | 0 <= a < b < |rows[1..]|
          ensures RowKey(rows[1..][a], newIds[1..][a]) != RowKey(rows[1..][b], newIds[1..][b])
        {
          assert rows[1..][a] == rows[a + 1] && rows[1..][b] == rows[b + 1];
        }
      }
      UpsertLinksStores(next, rows[1..], newIds[1..], now, i - 1);
      assert RowKey(rows[i], newIds[i]) != k0;
    }
  }

  /** A key no row of the batch lands on keeps its row. */
  lemma {:induction false} UpsertLinksSkips(table: map<LinkId, Link>, rows: seq<PlannedRow>, newIds: seq<LinkId>,
                                            now: string, k: LinkId)
    requires |newIds| == |rows|
    requires forall i :: 0 <= i < |rows| ==> RowKey(rows[i], newIds[i]) != k
    ensures k in table ==> k in UpsertLinks(table, rows, newIds, now) && UpsertLinks(table, rows, newIds, now)[k] == table[k]
    decreases |rows|
  {
    if rows != [] {
      var r := rows[0];
      var k0 := RowKey(r, newIds[0]);
      var created := if k0 in table then table[k0].created_at else now;
      var next := table[k0 := Link(created, k0, r.order, r.title, r.url, r.user_id)];
      assert forall i :: 0 <= i < |rows[1..]| ==> RowKey(rows[1..][i], newIds[1..][i]) == RowKey(rows[i + 1], newIds[i + 1]);
      UpsertLinksSkips(next, rows[1..], newIds[1..], now, k);
    }
  }

  /**
   * `updateLinks` (batch version): delete the initial links the list no
   * longer has (only when there are any), then upsert the planned rows
   * (only when there are any). A failed delete stops before the upsert.
   * A `null` initial list makes `initialLinks.filter` throw before any write.
   */
  method UpdateLinks(db: Backend, user: Option<UserId>, links: seq<LinkDraft>, initial: Option<seq<Link>>,
                     deleteFails: bool, upsertFails: bool, newIds: seq<LinkId>, now: string) returns (result: Completion)
    requires db.Valid()
    requires user.Some? ==> |newIds| == |Plan(links, user.value)|
    requires forall i :: 0 <= i < |newIds| ==> newIds[i] !in db.links && newIds[i] !in SubmittedIds(links)
    requires forall i, j :: 0 <= i < j < |newIds| ==> newIds[i] != newIds[j]
    modifies db
    ensures db.Valid()
    ensures db.authUsers == old(db.authUsers) && db.profiles == old(db.profiles)
    ensures db.analytics == old(db.analytics) && db.storage == old(db.storage)
    ensures user.None? ==> result == Returned(Failed(NotLoggedInLinks)) && db.links == old(db.links)
    ensures user.Some? && initial.None? ==> result == Threw && db.links == old(db.links)
    ensures user.Some? && initial.Some? ==>
      var doomed := DeletedIds(links, initial.value);
      var kept := Without(old(db.links), doomed);
      var rows := Plan(links, user.value);
      if doomed != {} && deleteFails then
        result == Returned(Failed(RemoveLinksFailed)) && db.links == old(db.links)
      else if rows == [] then
        result == Returned(Done) && db.links == kept
      else if upsertFails || !DistinctExplicitIds(rows) then
        result == Returned(Failed(UpsertLinksFailed)) && db.links == kept
      else
        result == Returned(Done) && db.links == UpsertLinks(kept, rows, newIds, now)
  {
    if user.None? {
      return Returned(Failed(NotLoggedInLinks));
    }
    if initial.None? {
      return Threw;
    }
    var doomed := DeletedIds(links, initial.value);
    if doomed != {} {
      if deleteFails {
        return Returned(Failed(RemoveLinksFailed));
      }
      db.links := Without(db.links, doomed);
    } else {
      assert Without(db.links, doomed) == db.links;
    }
    var rows := Plan(links, user.value);
    if rows != [] {
      if upsertFails || !DistinctExplicitIds(rows) {
        return Returned(Failed(UpsertLinksFailed));
      }
      db.links := UpsertLinks(db.links, rows, newIds, now);
    }
    result := Returned(Done);
  }

  // ----------------------------------------------------- updateCustomization

  /**
   * `updateCustomization`: the supplied columns and `updated_at` are
   * written to the caller's row; a caller without a row changes nothing.
   */
  method UpdateCustomization(db: Backend, user: Option<UserId>, patch: Patch, now: string, updateFails: bool)
    returns (reply: Reply)
    requires db.Valid() && WellTyped(patch)
    modifies db
    ensures db.Valid()
    ensures db.authUsers == old(db.authUsers) && db.links == old(db.links)
    ensures db.analytics == old(db.analytics) && db.storage == old(db.storage)
    ensures user.None? ==> reply == Failed(NotLoggedInProfile) && db.profiles == old(db.profiles)
    ensures user.Some? && updateFails ==> reply == Failed(CustomizationFailed) && db.profiles == old(db.profiles)
    ensures user.Some? && !updateFails ==>
      reply == Done && db.profiles == UpdatedProfiles(old(db.profiles), user.value, patch[UpdatedAt := Str(now)])
  {
    if user.None? {
      return Failed(NotLoggedInProfile);
    }
    if updateFails {
      return Failed(CustomizationFailed);
    }
    db.profiles := UpdatedProfiles(db.profiles, user.value, patch[UpdatedAt := Str(now)]);
    reply := Done;
  }

  /** The customization write touches exactly the supplied columns and `updated_at`. */
  lemma CustomizationWrites(profiles: map<UserId, Profile>, uid: UserId, patch: Patch, now: string, c: Column)
    requires WellTyped(patch) && uid in profiles
    ensures var row := UpdatedProfiles(profiles, uid, patch[UpdatedAt := Str(now)])[uid];
      && row.updated_at == Some(now)
      && (c != UpdatedAt && c in patch ==> Get(row, c) == patch[c])
      && (c != UpdatedAt && c !in patch ==> Get(row, c) == Get(profiles[uid], c))
  {
    var row := UpdatedProfiles(profiles, uid, patch[UpdatedAt := Str(now)])[uid];
    UpdatedProfilesRow(profiles, uid, patch[UpdatedAt := Str(now)]);
    assert Get(row, UpdatedAt) == Str(now);
  }

  // -------------------------------------------------------- removeBackground

  /**
   * `removeBackground` (account version): stamps `updated_at` on the
   * caller's row. It also clears `background_image_data_uri`, a column the
   * row type does not have; see the README.
   */
  method RemoveBackground(db: Backend, user: Option<UserId>, now: string, updateFails: bool) returns (reply: Reply)
    requires db.Valid()
    modifies db
    ensures db.Valid()
    ensures db.authUsers == old(db.authUsers) && db.links == old(db.links)
    ensures db.analytics == old(db.analytics) && db.storage == old(db.storage)
    ensures user.None? ==> reply == Failed(NotLoggedIn) && db.profiles == old(db.profiles)
    ensures user.Some? && updateFails ==> reply == Failed(RemoveBackgroundFailed) && db.profiles == old(db.profiles)
    ensures user.Some? && !updateFails ==>
      reply == Done && db.profiles == UpdatedProfiles(old(db.profiles), user.value, map[UpdatedAt := Str(now)])
  {
    if user.None? {
      return Failed(NotLoggedIn);
    }
    if updateFails {
      return Failed(RemoveBackgroundFailed);
    }
    db.profiles := UpdatedProfiles(db.profiles, user.value, map[UpdatedAt := Str(now)]);
    reply := Done;
  }

  // ---------------------------------------------------------------- tracking

  /**
   * `trackProfileView`: one `profile_view` row for `userId`, unless the
   * insert fails (a user without a profile breaks the foreign key); a
   * failure is only logged.
   */
  method TrackProfileView(db: Backend, userId: UserId, insertFails: bool, generatedId: string, now: string)
    requires db.Valid()
    modifies db
    ensures db.Valid()
    ensures db.authUsers == old(db.authUsers) && db.profiles == old(db.profiles)
    ensures db.links == old(db.links) && db.storage == old(db.storage)
    ensures db.analytics ==
      if !insertFails && userId in old(db.profiles) then
        old(db.analytics) + [InsertedEvent(AnalyticsInsert(None, None, userId, ProfileView, None), generatedId, now)]
      else old(db.analytics)
  {
    if !insertFails && userId in db.profiles {
      db.analytics := db.analytics + [InsertedEvent(AnalyticsInsert(None, None, userId, ProfileView, None), generatedId, now)];
    }
  }

  /** `trackLinkClick`: one `link_click` row naming the link, under the same rules. */
  method TrackLinkClick(db: Backend, linkId: LinkId, userId: UserId, insertFails: bool, generatedId: string, now: string)
    requires db.Valid()
    modifies db
    ensures db.Valid()
    ensures db.authUsers == old(db.authUsers) && db.profiles == old(db.profiles)
    ensures db.links == old(db.links) && db.storage == old(db.storage)
    ensures db.analytics ==
      if !insertFails && userId in old(db.profiles) && linkId in old(db.links) then
        old(db.analytics) + [InsertedEvent(AnalyticsInsert(None, None, userId, LinkClick, Some(Some(linkId))), generatedId, now)]
      else old(db.analytics)
  {
    if !insertFails && userId in db.profiles && linkId in db.links {
      db.analytics := db.analytics + [InsertedEvent(AnalyticsInsert(None, None, userId, LinkClick, Some(Some(linkId))), generatedId, now)];
    }
  }

  /** How many `profile_view` events of user `u` there are: the count the overview page shows. */
  function ViewCount(events: seq<AnalyticsEvent>, u: UserId): (n: nat)
    ensures n <= |events|
    ensures n == 0 <==> forall i :: 0 <= i < |events| ==> !(events[i].user_id == u && events[i].event_type == ProfileView)
  {
    if events == [] then 0
    else
      assert forall i :: 0 < i < |events| ==> events[i] == events[1..][i - 1];
      (if events[0].user_id == u && events[0].event_type == ProfileView then 1 else 0) + ViewCount(events[1..], u)
  }

  /** Appending one event adds one to the count exactly when it is a view by `u`. */
  lemma {:induction false} ViewCountAppend(events: seq<AnalyticsEvent>, e: AnalyticsEvent, u: UserId)
    ensures ViewCount(events + [e], u) == ViewCount(events, u) + (if e.user_id == u && e.event_type == ProfileView then 1 else 0)
    decreases |events|
  {
    if events != [] {
      assert (events + [e])[1..] == events[1..] + [e];
      ViewCountAppend(events[1..], e, u);
    }
  }

  /**
   * What the two tracking actions record, as the overview page counts it:
   * a recorded view raises its user's view count by one and nobody else's;
   * a recorded click changes no view count.
   */
  lemma TrackedEvents(events: seq<AnalyticsEvent>, userId: UserId, linkId: LinkId, generatedId: string, now: string, u: UserId)
    ensures var e := InsertedEvent(AnalyticsInsert(None, None, userId, ProfileView, None), generatedId, now);
      ViewCount(events + [e], u) == ViewCount(events, u) + (if u == userId then 1 else 0)
    ensures var e := InsertedEvent(AnalyticsInsert(None, None, userId, LinkClick, Some(Some(linkId))), generatedId, now);
      ViewCount(events + [e], u) == ViewCount(events, u)
  {
    ViewCountAppend(events, InsertedEvent(AnalyticsInsert(None, None, userId, ProfileView, None), generatedId, now), u);
    ViewCountAppend(events, InsertedEvent(AnalyticsInsert(None, None, userId, LinkClick, Some(Some(linkId))), generatedId, now), u);
  }
}
