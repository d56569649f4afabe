/**
 * Replacing a profile image: `updateAvatar` (in both copies of the
 * account actions) and `updateBackground` (studio) upload the file to a
 * bucket under a per-user, per-timestamp path, point the profile column
 * at the object's public URL and, when that update fails, remove the
 * object they just uploaded.
 */
module Assets {
  import opened Wrappers
  import opened Text
  import opened Types
  import opened Backend

  const NoFileSelected := "No file selected."

  datatype Asset = Avatar | Background {
    /** The storage bucket the file goes to. */
    function Bucket(): string {
      match this
      case Avatar => "profiles"
      case Background => "backgrounds"
    }

    /** The first path segment inside the bucket. */
    function Folder(): string {
      match this
      case Avatar => "avatars"
      case Background => "backgrounds"
    }

    /** The profile column that points at the image. */
    function Target(): Column {
      match this
      case Avatar => AvatarUrl
      case Background => BackgroundImageUrl
    }

    function UploadFailed(): string {
      match this
      case Avatar => "Failed to upload avatar."
      case Background => "Failed to upload background."
    }

    function UpdateFailed(): string {
      match this
      case Avatar => "Failed to update profile with new avatar."
      case Background => "Failed to update profile with new background."
    }
  }

  /** `${folder}/${user.id}/${Date.now()}`. */
  function UploadPath(asset: Asset, uid: UserId, now: nat): (path: string)
    ensures StartsWith(path, asset.Folder() + "/" + uid + "/")
    ensures path[|asset.Folder() + "/" + uid + "/"|..] == Decimal(now)
  {
    var prefix := asset.Folder() + "/" + uid + "/";
    var path := prefix + Decimal(now);
    assert path[..|prefix|] == prefix;
    path
  }

  /** Two uploads by one user at different times never share a path, so an upload never hits an old object. */
  lemma UploadPathInjective(asset: Asset, uid: UserId, t1: nat, t2: nat)
    requires UploadPath(asset, uid, t1) == UploadPath(asset, uid, t2)
    ensures t1 == t2
  {
    DecimalInjective(t1, t2);
  }

  /**
   * Upload, then point the profile at the object's public URL; if the
   * profile update fails, remove the object again (that removal may itself
   * fail, leaving the object behind). The upload does not overwrite: an
   * object already at the path makes it fail.
   */
  method ReplaceAsset(db: Backend, asset: Asset, user: Option<UserId>, hasFile: bool, now: nat,
                      uploadFails: bool, updateFails: bool, removeFails: bool) returns (reply: Reply)
    requires db.Valid()
    modifies db
    ensures db.Valid()
    ensures db.authUsers == old(db.authUsers) && db.links == old(db.links) && db.analytics == old(db.analytics)
    ensures user.None? ==> reply == Failed("You must be logged in.") && unchanged(db)
    ensures user.Some? && !hasFile ==> reply == Failed(NoFileSelected) && unchanged(db)
    ensures user.Some? && hasFile ==>
      var obj := StoredObject(asset.Bucket(), UploadPath(asset, user.value, now));
      var url := PublicUrl(db.storageUrl, asset.Bucket(), UploadPath(asset, user.value, now));
      if uploadFails || obj in old(db.storage) then
        reply == Failed(asset.UploadFailed()) && unchanged(db)
      else if updateFails then
        && reply == Failed(asset.UpdateFailed())
        && db.profiles == old(db.profiles)
        && db.storage == (if removeFails then old(db.storage) + {obj} else old(db.storage))
      else
        && reply == DoneWithUrl(url)
        && db.storage == old(db.storage) + {obj}
        && db.profiles == UpdatedProfiles(old(db.profiles), user.value, map[asset.Target() := Str(url)])
  {
    if user.None? {
      return Failed("You must be logged in.");
    }
    if !hasFile {
      return Failed(NoFileSelected);
    }
    var path := UploadPath(asset, user.value, now);
    var obj := StoredObject(asset.Bucket(), path);
    if uploadFails || obj in db.storage {
      return Failed(asset.UploadFailed());
    }
    db.storage := db.storage + {obj};
    var url := PublicUrl(db.storageUrl, asset.Bucket(), path);
    if updateFails {
      if !removeFails {
        db.storage := db.storage - {obj};
      }
      return Failed(asset.UpdateFailed());
    }
    db.profiles := UpdatedProfiles(db.profiles, user.value, map[asset.Target() := Str(url)]);
    reply := DoneWithUrl(url);
  }

  /**
   * A successful replacement writes only the image column: `updated_at`
   * and every other column keep their values.
   */
  lemma ReplaceWritesOnlyTarget(profiles: map<UserId, Profile>, uid: UserId, asset: Asset, url: string, c: Column)
    requires uid in profiles
    ensures var row := UpdatedProfiles(profiles, uid, map[asset.Target() := Str(url)])[uid];
      && Get(row, asset.Target()) == Str(url)
      && (c != asset.Target() ==> Get(row, c) == Get(profiles[uid], c))
  {
    UpdatedProfilesRow(profiles, uid, map[asset.Target() := Str(url)]);
  }
}
