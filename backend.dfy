/**
 * The hosted services the server actions talk to, as one piece of state:
 * the auth service's user set, the `profiles`, `links` and `analytics`
 * tables, and the storage buckets. Row-level security, constraints beyond
 * the primary keys and network behaviour are not modelled; whether a write
 * fails is an input of each action.
 */
module Backend {
  import opened Wrappers
  import opened Types

  /** An object in a storage bucket. */
  datatype StoredObject = StoredObject(bucket: string, path: string)

  /** The signed-in user as the auth service reports it (`user.id`, `user.user_metadata`). */
  datatype AuthUser = AuthUser(id: UserId, fullName: Option<string>, avatarUrl: Option<string>)

  /** One entry of a zod `flatten().fieldErrors` object. */
  datatype FieldError = FieldError(field: string, messages: seq<string>)

  /**
   * What a server action returns: `{ success: true }`, `{ success: true, url }`,
   * `{ error: string }` or `{ error: { field: messages } }`.
   */
  datatype Reply = Done | DoneWithUrl(url: string) | Failed(message: string) | FieldErrors(errors: seq<FieldError>)

  /** How a call to a server action ends: with a reply, or by throwing (the caller's promise rejects). */
  datatype Completion = Returned(reply: Reply) | Threw

  class Backend {
    /** The storage API's base URL (`<project url>/storage/v1`). */
    const storageUrl: string
    var authUsers: set<UserId>
    var profiles: map<UserId, Profile>
    var links: map<LinkId, Link>
    var analytics: seq<AnalyticsEvent>
    var storage: set<StoredObject>

    /**
     * Every profile belongs to an auth user (profiles.id references users.id
     * one-to-one) and every row is stored under its own key.
     */
    ghost predicate Valid()
      reads this
    {
      && profiles.Keys <= authUsers
      && (forall u :: u in profiles ==> profiles[u].id == u)
      && (forall k :: k in links ==> links[k].id == k)
    }

    constructor (storageUrl: string)
      ensures Valid()
      ensures this.storageUrl == storageUrl
      ensures authUsers == {} && profiles == map[] && links == map[] && analytics == [] && storage == {}
    {
      this.storageUrl := storageUrl;
      authUsers := {};
      profiles := map[];
      links := map[];
      analytics := [];
      storage := {};
    }
  }

  /** `storage.from(bucket).getPublicUrl(path)`. */
  function PublicUrl(storageUrl: string, bucket: string, path: string): string {
    storageUrl + "/object/public/" + bucket + "/" + path
  }

  /**
   * `profiles.update(patch).eq('id', uid)`: the caller's row, if there is
   * one, takes the patch; no other row changes and a missing row is not
   * created.
   */
  function UpdatedProfiles(profiles: map<UserId, Profile>, uid: UserId, patch: Patch): (r: map<UserId, Profile>)
    requires WellTyped(patch)
    ensures r.Keys == profiles.Keys
    ensures forall u :: u in r && u != uid ==> r[u] == profiles[u]
    ensures uid in r ==> r[uid].id == profiles[uid].id
  {
    if uid in profiles then profiles[uid := ApplyPatch(profiles[uid], patch)] else profiles
  }

  /** The caller's updated row: patched columns take the patch's values, the rest keep theirs. */
  lemma UpdatedProfilesRow(profiles: map<UserId, Profile>, uid: UserId, patch: Patch)
    requires WellTyped(patch) && uid in profiles
    ensures var row := UpdatedProfiles(profiles, uid, patch)[uid];
      forall c :: Get(row, c) == (if c in patch then patch[c] else Get(profiles[uid], c))
  {
    ApplyPatchColumns(profiles[uid], patch);
  }

  /**
   * `profiles.upsert({ id: uid, ...patch })`: updates the caller's row, or
   * inserts one holding only the patched columns.
   */
  function UpsertedProfiles(profiles: map<UserId, Profile>, uid: UserId, patch: Patch): (r: map<UserId, Profile>)
    requires WellTyped(patch)
    ensures r.Keys == profiles.Keys + {uid}
    ensures forall u :: u in r && u != uid ==> r[u] == profiles[u]
    ensures r[uid].id == (if uid in profiles then profiles[uid].id else uid)
  {
    if uid in profiles then profiles[uid := ApplyPatch(profiles[uid], patch)]
    else profiles[uid := InsertedProfile(ProfileInsert(uid, patch))]
  }

  /**
   * The caller's upserted row: patched columns take the patch's values; the
   * rest keep the old row's values, or are `null` in a newly inserted row.
   */
  lemma UpsertedProfilesRow(profiles: map<UserId, Profile>, uid: UserId, patch: Patch)
    requires WellTyped(patch)
    ensures var row := UpsertedProfiles(profiles, uid, patch)[uid];
      forall c :: Get(row, c) == (if c in patch then patch[c] else if uid in profiles then Get(profiles[uid], c) else Null)
  {
    if uid in profiles {
      ApplyPatchColumns(profiles[uid], patch);
    } else {
      InsertedProfileColumns(ProfileInsert(uid, patch));
    }
  }

  /** The profiles other than `exclude` whose username is `name`. */
  function Holders(profiles: map<UserId, Profile>, name: string, exclude: Option<UserId>): (r: set<UserId>)
    ensures forall u :: u in r <==> u in profiles && profiles[u].username == Some(name) && Some(u) != exclude
  {
    set u | u in profiles.Keys && profiles[u].username == Some(name) && Some(u) != exclude
  }

  /**
   * `select('id').eq('username', name)[.not('id', 'eq', uid)].single()`:
   * `single()` yields a row only when exactly one row matches.
   */
  predicate SingleMatch(profiles: map<UserId, Profile>, name: string, exclude: Option<UserId>) {
    |Holders(profiles, name, exclude)| == 1
  }

  ghost predicate UniqueUsernames(profiles: map<UserId, Profile>) {
    forall u, v :: u in profiles && v in profiles && u != v && profiles[u].username.Some?
      ==> profiles[u].username != profiles[v].username
  }

  /**
   * While usernames are unique, the `single()` lookup finds a row exactly
   * when some profile other than the excluded one holds the name.
   */
  lemma {:induction false} SingleMatchIffHeld(profiles: map<UserId, Profile>, name: string, exclude: Option<UserId>)
    requires UniqueUsernames(profiles)
    ensures SingleMatch(profiles, name, exclude) <==>
      exists u :: u in profiles && profiles[u].username == Some(name) && Some(u) != exclude
  {
    var h := Holders(profiles, name, exclude);
    if u :| u in profiles && profiles[u].username == Some(name) && Some(u) != exclude {
      assert h == {u} by {
        forall v | v in h ensures v == u {
        }
      }
    } else {
      assert h == {};
    }
  }

  /** Two other profiles holding the same name make the `single()` lookup come back empty. */
  lemma {:induction false} SingleMatchMissesDuplicates(profiles: map<UserId, Profile>, name: string, exclude: Option<UserId>, u: UserId, v: UserId)
    requires u in profiles && v in profiles && u != v
    requires profiles[u].username == Some(name) && profiles[v].username == Some(name)
    requires exclude.None? || (exclude.value != u && exclude.value != v)
    ensures !SingleMatch(profiles, name, exclude)
  {
    var h := Holders(profiles, name, exclude);
    assert u in h && v in h - {u};
    assert |h - {u}| == |h| - 1;
    assert h - {u} != {};
  }

  /**
   * A profile taking a name nobody else holds keeps usernames unique: the
   * rows other than `uid` are as before, and `uid`'s row, if any, holds `name`.
   */
  lemma {:induction false} ClaimingFreeNameKeepsUnique(profiles: map<UserId, Profile>, r: map<UserId, Profile>, uid: UserId, name: string)
    requires UniqueUsernames(profiles)
    requires forall v :: v in profiles && v != uid ==> profiles[v].username != Some(name)
    requires forall v :: v in r && v != uid ==> v in profiles && r[v] == profiles[v]
    requires uid in r ==> r[uid].username == Some(name)
    ensures UniqueUsernames(r)
  {
    forall u, v | u in r && v in r && u != v && r[u].username.Some?
      ensures r[u].username != r[v].username
    {
      if u == uid {
        assert r[v] == profiles[v];
      } else if v == uid {
        assert r[u] == profiles[u];
      } else {
        assert r[u] == profiles[u] && r[v] == profiles[v];
      }
    }
  }
}
