/**
 * The studio copy of the account actions, where it differs from module
 * AccountActions: `updateLinks` writes link by link instead of in one
 * batch, and `removeBackground` also deletes the stored image. Its
 * `updateBackground` is `Assets.ReplaceAsset` with `Assets.Background`.
 */
module StudioActions {
  import opened Wrappers
  import opened Text
  import opened Types
  import opened Backend
  import opened AccountActions

  const AddLinkFailed := "Failed to add new link."
  const UpdateLinkFailed := "Failed to update link."
  /** The segment `removeBackground` splits the image URL's path on. */
  const BackgroundsSegment := "/backgrounds/"

  // ------------------------------------------------------------ updateLinks

  /** `links.findIndex(l => l.id === id)`: the first index holding `id`, or -1 (`FindIndexFirst`). */
  function FindIndex(links: seq<LinkDraft>, id: Option<LinkId>): (r: int)
    ensures -1 <= r < |links|
  {
    if links == [] then -1
    else if links[0].id == id then 0
    else
      var r := FindIndex(links[1..], id);
      if r == -1 then -1 else r + 1
  }

  /** `FindIndex` finds the leftmost entry holding `id`, and -1 means no entry holds it. */
  lemma {:induction false} FindIndexFirst(links: seq<LinkDraft>, id: Option<LinkId>)
    ensures var r := FindIndex(links, id);
      && (r >= 0 ==> links[r].id == id && forall j :: 0 <= j < r ==> links[j].id != id)
      && (r == -1 ==> forall j :: 0 <= j < |links| ==> links[j].id != id)
  {
    if links != [] && links[0].id != id {
      FindIndexFirst(links[1..], id);
      assert forall j :: 0 < j < |links| ==> links[j] == links[1..][j - 1];
    }
  }

  /** The order an entry is written with: never past its own position. */
  lemma FindIndexOfEntry(links: seq<LinkDraft>, k: nat)
    requires k < |links|
    ensures 0 <= FindIndex(links, links[k].id) <= k
  {
    FindIndexFirst(links, links[k].id);
  }

  /** With no id submitted twice, an entry's order is its own position. */
  lemma FindIndexDistinct(links: seq<LinkDraft>, k: nat)
    requires k < |links|
    requires forall i, j :: 0 <= i < j < |links| ==> links[i].id != links[j].id
    ensures FindIndex(links, links[k].id) == k
  {
    FindIndexFirst(links, links[k].id);
  }

  /**
   * Whether the write for one entry succeeds: an insert needs a title and
   * a url (they are required columns); `fails` is the database's answer.
   */
  predicate WriteSucceeds(d: LinkDraft, fails: bool) {
    !fails && (IsNewId(d.id) ==> d.title.Some? && d.url.Some?)
  }

  /**
   * The effect of a successful write for entry `k`: a `new-` entry is
   * inserted under the generated id `newId`, owned by the caller; any
   * other entry updates the row with its id (title and url only when
   * present). Either way `order` is `findIndex` of the entry's id.
   */
  function Write(table: map<LinkId, Link>, links: seq<LinkDraft>, k: nat, uid: UserId, newId: LinkId, now: string)
    : (t: map<LinkId, Link>)
    requires k < |links|
    ensures t.Keys == table.Keys + (if IsNewId(links[k].id) then {newId} else {})
  {
    var d := links[k];
    var order := FindIndex(links, d.id);
    if IsNewId(d.id) then
      table[newId := InsertedLink(LinkInsert(None, None, Some(order), d.title.GetOr(""), d.url.GetOr(""), uid), newId, now)]
    else if d.id.Some? && d.id.value in table then
      var row := table[d.id.value];
      table[d.id.value := row.(order := order, title := d.title.GetOr(row.title), url := d.url.GetOr(row.url))]
    else table
  }

  /** A write keeps every row stored under its own id. */
  lemma WriteKeyed(table: map<LinkId, Link>, links: seq<LinkDraft>, k: nat, uid: UserId, newId: LinkId, now: string)
    requires k < |links|
    requires forall key :: key in table ==> table[key].id == key
    ensures var t := Write(table, links, k, uid, newId, now);
      forall key :: key in t ==> t[key].id == key
  {
  }

  /** The table after the writes for the first `n` entries. */
  function Written(table: map<LinkId, Link>, links: seq<LinkDraft>, uid: UserId, newIds: seq<LinkId>, now: string, n: nat)
    : (t: map<LinkId, Link>)
    requires n <= |links| && |newIds| == |links|
  {
    if n == 0 then table else Write(Written(table, links, uid, newIds, now, n - 1), links, n - 1, uid, newIds[n - 1], now)
  }

  /** The first entry from `i` on whose write fails. */
  function FirstFailure(links: seq<LinkDraft>, fails: seq<bool>, i: nat): (r: Option<nat>)
    requires |fails| == |links| && i <= |links|
    ensures r.Some? ==> i <= r.value < |links| && !WriteSucceeds(links[r.value], fails[r.value])
    decreases |links| - i
  {
    if i == |links| then None
    else if !WriteSucceeds(links[i], fails[i]) then Some(i)
    else FirstFailure(links, fails, i + 1)
  }

  /**
   * The search from `i` stops at the first failing write at or after `i`,
   * and finds nothing only when every write from `i` on succeeds.
   */
  lemma {:induction false} FirstFailureFirst(links: seq<LinkDraft>, fails: seq<bool>, i: nat)
    requires |fails| == |links| && i <= |links|
    ensures var r := FirstFailure(links, fails, i);
      && (r.Some? ==> forall j :: i <= j < r.value ==> WriteSucceeds(links[j], fails[j]))
      && (r.None? ==> forall j :: i <= j < |links| ==> WriteSucceeds(links[j], fails[j]))
    decreases |links| - i
  {
    if i < |links| && WriteSucceeds(links[i], fails[i]) {
      FirstFailureFirst(links, fails, i + 1);
    }
  }

  /** The first failure is at `i` when every earlier write succeeds and the one at `i` does not. */
  lemma FirstFailureAt(links: seq<LinkDraft>, fails: seq<bool>, i: nat)
    requires |fails| == |links| && i < |links|
    requires forall j :: 0 <= j < i ==> WriteSucceeds(links[j], fails[j])
    requires !WriteSucceeds(links[i], fails[i])
    ensures FirstFailure(links, fails, 0) == Some(i)
  {
    FirstFailureFirst(links, fails, 0);
  }

  /** There is no failure when every write succeeds. */
  lemma FirstFailureNone(links: seq<LinkDraft>, fails: seq<bool>)
    requires |fails| == |links|
    requires forall j :: 0 <= j < |links| ==> WriteSucceeds(links[j], fails[j])
    ensures FirstFailure(links, fails, 0) == None
  {
    FirstFailureFirst(links, fails, 0);
  }

  function FailureMessage(d: LinkDraft): string {
    if IsNewId(d.id) then AddLinkFailed else UpdateLinkFailed
  }

  /**
   * `updateLinks` (studio version): the same delete as the batch version,
   * then one insert or update per entry in list order (`WriteEach`).
   * A `null` initial list makes `initialLinks.filter` throw before any write.
   */
  method UpdateLinks(db: Backend, user: Option<UserId>, links: seq<LinkDraft>, initial: Option<seq<Link>>,
                     deleteFails: bool, fails: seq<bool>, newIds: seq<LinkId>, now: string) returns (result: Completion)
    requires db.Valid()
    requires |fails| == |links| && |newIds| == |links|
    modifies db
    ensures db.Valid()
    ensures db.authUsers == old(db.authUsers) && db.profiles == old(db.profiles)
    ensures db.analytics == old(db.analytics) && db.storage == old(db.storage)
    ensures user.None? ==> result == Returned(Failed(NotLoggedInLinks)) && db.links == old(db.links)
    ensures user.Some? && initial.None? ==> result == Threw && db.links == old(db.links)
    ensures user.Some? && initial.Some? ==>
      var doomed := DeletedIds(links, initial.value);
      var kept := Without(old(db.links), doomed);
      if doomed != {} && deleteFails then
        result == Returned(Failed(RemoveLinksFailed)) && db.links == old(db.links)
      else match FirstFailure(links, fails, 0)
        case None => result == Returned(Done) && db.links == Written(kept, links, user.value, newIds, now, |links|)
        case Some(k) =>
          result == Returned(Failed(FailureMessage(links[k]))) && db.links == Written(kept, links, user.value, newIds, now, k)
  {
    if user.None? {
      return Returned(Failed(NotLoggedInLinks));
    }
    if initial.None? {
      return Threw;
    }
    var doomed := DeletedIds(links, initial.value);
    if doomed != {} {
      if deleteFails {
        return Returned(Failed(RemoveLinksFailed));
      }
      db.links := Without(db.links, doomed);
    } else {
      assert Without(db.links, doomed) == db.links;
    }
    var reply := WriteEach(db, user.value, links, fails, newIds, now);
    result := Returned(reply);
  }

  /**
   * The loop of `updateLinks` (studio version): writes entry by entry in
   * list order and returns at the first failure, with the earlier writes
   * left in place.
   */
  method WriteEach(db: Backend, uid: UserId, links: seq<LinkDraft>, fails: seq<bool>, newIds: seq<LinkId>, now: string)
    returns (reply: Reply)
    requires db.Valid()
    requires |fails| == |links| && |newIds| == |links|
    modifies db
    ensures db.Valid()
    ensures db.authUsers == old(db.authUsers) && db.profiles == old(db.profiles)
    ensures db.analytics == old(db.analytics) && db.storage == old(db.storage)
    ensures match FirstFailure(links, fails, 0)
      case None => reply == Done && db.links == Written(old(db.links), links, uid, newIds, now, |links|)
      case Some(k) => reply == Failed(FailureMessage(links[k])) && db.links == Written(old(db.links), links, uid, newIds, now, k)
  {
    var i := 0;
    while i < |links|
      invariant 0 <= i <= |links|
      invariant db.links == Written(old(db.links), links, uid, newIds, now, i)
      invariant forall j :: 0 <= j < i ==> WriteSucceeds(links[j], fails[j])
      invariant db.Valid()
      invariant db.authUsers == old(db.authUsers) && db.profiles == old(db.profiles)
      invariant db.analytics == old(db.analytics) && db.storage == old(db.storage)
    {
      var d := links[i];
      if IsNewId(d.id) {
        if fails[i] || d.title.None? || d.url.None? {
          FirstFailureAt(links, fails, i);
          return Failed(AddLinkFailed);
        }
      } else if fails[i] {
        FirstFailureAt(links, fails, i);
        return Failed(UpdateLinkFailed);
      }
      WriteKeyed(db.links, links, i, uid, newIds[i], now);
      db.links := Write(db.links, links, i, uid, newIds[i], now);
      i := i + 1;
    }
    FirstFailureNone(links, fails);
    reply := Done;
  }

  /** A write leaves alone every key other than the one it inserts or updates. */
  lemma WriteKeeps(table: map<LinkId, Link>, links: seq<LinkDraft>, k: nat, uid: UserId, newId: LinkId, now: string,
                   key: LinkId)
    requires k < |links|
    requires IsNewId(links[k].id) ==> key != newId
    requires links[k].id != Some(key)
    ensures key in table <==> key in Write(table, links, k, uid, newId, now)
    ensures key in table ==> Write(table, links, k, uid, newId, now)[key] == table[key]
  {
  }

  /**
   * Entry `k`, a `new-` one, ends up as a row under its generated id,
   * owned by the caller, with `order` = `findIndex` of its id, as long as
   * generated ids are fresh and distinct.
   */
  lemma {:induction false} WrittenInserts(table: map<LinkId, Link>, links: seq<LinkDraft>, uid: UserId,
                                          newIds: seq<LinkId>, now: string, n: nat, k: nat)
    requires n <= |links| && |newIds| == |links| && k < n
    requires IsNewId(links[k].id) && links[k].title.Some? && links[k].url.Some?
    requires forall i :: 0 <= i < |newIds| ==> newIds[i] !in SubmittedIds(links)
    requires forall i, j :: 0 <= i < j < |newIds| ==> newIds[i] != newIds[j]
    ensures var t := Written(table, links, uid, newIds, now, n);
      newIds[k] in t
      && t[newIds[k]] == Link(now, newIds[k], FindIndex(links, links[k].id), links[k].title.value, links[k].url.value, uid)
    decreases n
  {
    if n - 1 != k {
      WrittenInserts(table, links, uid, newIds, now, n - 1, k);
      assert links[n - 1].id != Some(newIds[k]);
      WriteKeeps(Written(table, links, uid, newIds, now, n - 1), links, n - 1, uid, newIds[n - 1], now, newIds[k]);
    }
  }

  /**
   * With no id submitted twice, an existing row named by entry `k` ends up
   * with `order` = `k` and the entry's title and url where it has them.
   */
  lemma {:induction false} WrittenUpdates(table: map<LinkId, Link>, links: seq<LinkDraft>, uid: UserId,
                                          newIds: seq<LinkId>, now: string, n: nat, k: nat)
    requires n <= |links| && |newIds| == |links| && k < n
    requires !IsNewId(links[k].id) && links[k].id.Some? && links[k].id.value in table
    requires forall i, j :: 0 <= i < j < |links| ==> links[i].id != links[j].id
    requires forall i :: 0 <= i < |newIds| ==> newIds[i] !in table && newIds[i] !in SubmittedIds(links)
    ensures var e := links[k].id.value;
      var t := Written(table, links, uid, newIds, now, n);
      && e in t && t[e].order == k && t[e].id == table[e].id
      && t[e].title == links[k].title.GetOr(table[e].title)
      && t[e].url == links[k].url.GetOr(table[e].url)
      && t[e].created_at == table[e].created_at && t[e].user_id == table[e].user_id
    decreases n
  {
    var e := links[k].id.value;
    assert e in SubmittedIds(links);
    FindIndexDistinct(links, k);
    if n - 1 == k {
      WrittenUntouched(table, links, uid, newIds, now, k, e);
    } else {
      WrittenUpdates(table, links, uid, newIds, now, n - 1, k);
      WriteKeeps(Written(table, links, uid, newIds, now, n - 1), links, n - 1, uid, newIds[n - 1], now, e);
    }
  }

  /** A key that no entry names and no generated id equals keeps its row throughout. */
  lemma {:induction false} WrittenUntouched(table: map<LinkId, Link>, links: seq<LinkDraft>, uid: UserId,
                                            newIds: seq<LinkId>, now: string, n: nat, key: LinkId)
    requires n <= |links| && |newIds| == |links|
    requires forall i :: 0 <= i < n ==> links[i].id != Some(key) && newIds[i] != key
    ensures key in table <==> key in Written(table, links, uid, newIds, now, n)
    ensures key in table ==> Written(table, links, uid, newIds, now, n)[key] == table[key]
    decreases n
  {
    if n > 0 {
      WrittenUntouched(table, links, uid, newIds, now, n - 1, key);
      WriteKeeps(Written(table, links, uid, newIds, now, n - 1), links, n - 1, uid, newIds[n - 1], now, key);
    }
  }

  // -------------------------------------------------------- removeBackground

  /**
   * The storage key `removeBackground` deletes: when the caller's
   * `background_image_url` is set and its URL parses, the piece of the
   * pathname after the first `/backgrounds/` (up to a second one), if
   * that piece is non-empty.
   */
  function BackgroundKey(profiles: map<UserId, Profile>, uid: UserId, pathnameOf: string -> Option<string>): Option<string>
  {
    var current := if uid in profiles then profiles[uid].background_image_url else None;
    if !Truthy(current) then None
    else match pathnameOf(current.value)
      case None => None
      case Some(p) => KeyOfPathname(p)
  }

  /** `pathname.split('/backgrounds/')[1]`, when it is a non-empty string. */
  function KeyOfPathname(pathname: string): (key: Option<string>)
    ensures key.Some? ==> key.value != "" && SplitSecond(pathname, BackgroundsSegment) == key
    ensures key.None? ==> !Truthy(SplitSecond(pathname, BackgroundsSegment))
  {
    var piece := SplitSecond(pathname, BackgroundsSegment);
    if Truthy(piece) then piece else None
  }

  /**
   * `removeBackground` (studio version): best-effort removal of the stored
   * image (a failure to parse or remove is swallowed), then, whatever
   * happened, clear `background_image_url` and stamp `updated_at`.
   * `pathnameOf` is `new URL(u).pathname`, `None` where the constructor throws.
   */
  method RemoveBackground(db: Backend, user: Option<UserId>, pathnameOf: string -> Option<string>, now: string,
                          removeFails: bool, updateFails: bool) returns (reply: Reply)
    requires db.Valid()
    modifies db
    ensures db.Valid()
    ensures db.authUsers == old(db.authUsers) && db.links == old(db.links) && db.analytics == old(db.analytics)
    ensures user.None? ==> reply == Failed(NotLoggedIn) && unchanged(db)
    ensures user.Some? ==>
      var key := BackgroundKey(old(db.profiles), user.value, pathnameOf);
      && db.storage == (if key.Some? && !removeFails then old(db.storage) - {StoredObject("backgrounds", key.value)}
                        else old(db.storage))
      && (updateFails ==> reply == Failed(RemoveBackgroundFailed) && db.profiles == old(db.profiles))
      && (!updateFails ==>
            reply == Done
            && db.profiles == UpdatedProfiles(old(db.profiles), user.value, map[BackgroundImageUrl := Null, UpdatedAt := Str(now)]))
  {
    if user.None? {
      return Failed(NotLoggedIn);
    }
    var uid := user.value;
    var key := BackgroundKey(db.profiles, uid, pathnameOf);
    if key.Some? && !removeFails {
      db.storage := db.storage - {StoredObject("backgrounds", key.value)};
    }
    if updateFails {
      return Failed(RemoveBackgroundFailed);
    }
    db.profiles := UpdatedProfiles(db.profiles, uid, map[BackgroundImageUrl := Null, UpdatedAt := Str(now)]);
    reply := Done;
  }

  /** A successful removal always leaves the caller's row without a background and with a fresh `updated_at`. */
  lemma RemovedBackgroundCleared(profiles: map<UserId, Profile>, uid: UserId, now: string)
    requires uid in profiles
    ensures var row := UpdatedProfiles(profiles, uid, map[BackgroundImageUrl := Null, UpdatedAt := Str(now)])[uid];
      row.background_image_url == None && row.updated_at == Some(now)
  {
    var row := UpdatedProfiles(profiles, uid, map[BackgroundImageUrl := Null, UpdatedAt := Str(now)])[uid];
    UpdatedProfilesRow(profiles, uid, map[BackgroundImageUrl := Null, UpdatedAt := Str(now)]);
    assert Get(row, BackgroundImageUrl) == Null;
    assert Get(row, UpdatedAt) == Str(now);
  }
}
