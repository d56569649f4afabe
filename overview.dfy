/**
 * The studio's account overview page: the profile-completion figure over
 * three criteria (a bio, an avatar, at least one link), the warning shown
 * while it is below 100, the checklist buttons, and the short forms of the
 * user id and the view count. Counts the database could not give are
 * `None`.
 */
module Overview {
  import opened Wrappers
  import opened Text
  import opened Types

  /** `profile?.bio`, as a condition. */
  predicate HasBio(profile: Option<Profile>) {
    profile.Some? && Truthy(profile.value.bio)
  }

  /** `profile?.avatar_url`, as a condition. */
  predicate HasAvatar(profile: Option<Profile>) {
    profile.Some? && Truthy(profile.value.avatar_url)
  }

  /** `(linkCount ?? 0) > 0`. */
  predicate HasLinks(linkCount: Option<nat>) {
    linkCount.GetOr(0) > 0
  }

  /** How many of the three criteria hold. */
  function CompletionCount(profile: Option<Profile>, linkCount: Option<nat>): (n: nat)
    ensures n <= 3
    ensures n == 3 <==> HasBio(profile) && HasAvatar(profile) && HasLinks(linkCount)
    ensures n == 0 <==> !HasBio(profile) && !HasAvatar(profile) && !HasLinks(linkCount)
  {
    (if HasBio(profile) then 1 else 0) + (if HasAvatar(profile) then 1 else 0) + (if HasLinks(linkCount) then 1 else 0)
  }

  /** `count / 3 * 100`, on exact reals. */
  function CompletionPercent(n: nat): (p: real)
    requires n <= 3
    ensures 0.0 <= p <= 100.0
    ensures p == 100.0 <==> n == 3
    ensures p == 0.0 <==> n == 0
  {
    n as real / 3.0 * 100.0
  }

  /** `toFixed(0)` on a non-negative number: halves round up. */
  function Rounded(p: real): (r: int)
    requires p >= 0.0
    ensures r as real <= p + 0.5 < r as real + 1.0
  {
    (p + 0.5).Floor
  }

  /** The figure shown beside the progress bar. */
  lemma PercentLabels()
    ensures Rounded(CompletionPercent(0)) == 0
    ensures Rounded(CompletionPercent(1)) == 33
    ensures Rounded(CompletionPercent(2)) == 67
    ensures Rounded(CompletionPercent(3)) == 100
  {
    assert CompletionPercent(1) == 100.0 / 3.0;
    assert CompletionPercent(2) == 200.0 / 3.0;
  }

  /** `user.id.substring(0, 8)` followed by `...`. */
  function ShortUid(id: UserId): (s: string)
    ensures |s| == (if |id| >= 8 then 11 else |id| + 3)
    ensures s[|s| - 3..] == "..." && StartsWith(id, s[..|s| - 3])
  {
    (if |id| >= 8 then id[..8] else id) + "..."
  }

  /** The short id does not tell apart two ids that share their first eight characters. */
  lemma ShortUidSharedPrefix(a: UserId, b: UserId)
    requires |a| >= 8 && |b| >= 8 && a[..8] == b[..8]
    ensures ShortUid(a) == ShortUid(b)
  {
  }

  /** What the page shows. */
  datatype Overview = Overview(
    username: string,
    uid: string,
    views: nat,
    percent: real,
    warning: bool,
    avatarDone: bool,
    bioDone: bool,
    linksDone: bool)

  datatype Page = ToLogin | Show(overview: Overview)

  /** `AccountPageContent`: a visitor without a session is sent to `/login`. */
  function AccountPage(user: Option<UserId>, profile: Option<Profile>, viewCount: Option<nat>,
                       linkCount: Option<nat>): (page: Page)
    ensures page.ToLogin? <==> user.None?
    ensures page.Show? ==> page.overview.uid == ShortUid(user.value)
  {
    match user
    case None => ToLogin
    case Some(uid) =>
      var percent := CompletionPercent(CompletionCount(profile, linkCount));
      Show(Overview(
        username := if profile.Some? then OrElse(profile.value.username, "N/A") else "N/A",
        uid := ShortUid(uid),
        views := viewCount.GetOr(0),
        percent := percent,
        warning := percent < 100.0,
        avatarDone := HasAvatar(profile),
        bioDone := HasBio(profile),
        linksDone := HasLinks(linkCount)))
  }

  /** How many checklist buttons are in the "done" style. */
  function DoneButtons(o: Overview): nat {
    (if o.avatarDone then 1 else 0) + (if o.bioDone then 1 else 0) + (if o.linksDone then 1 else 0)
  }

  /**
   * The warning is shown exactly while some checklist button is not done,
   * each button is done exactly when its own criterion holds, a missing view
   * count shows as 0, and the figure is the share of done buttons.
   */
  lemma WarningIffChecklistOpen(user: UserId, profile: Option<Profile>, viewCount: Option<nat>, linkCount: Option<nat>)
    ensures var o := AccountPage(Some(user), profile, viewCount, linkCount).overview;
      && (o.warning <==> !(o.avatarDone && o.bioDone && o.linksDone))
      && o.avatarDone == HasAvatar(profile) && o.bioDone == HasBio(profile) && o.linksDone == HasLinks(linkCount)
      && DoneButtons(o) == CompletionCount(profile, linkCount)
      && o.views == viewCount.GetOr(0)
      && o.percent == DoneButtons(o) as real / 3.0 * 100.0
  {
  }

  /** A page without a profile row or without a link count still renders: nothing done, no views. */
  lemma MissingDataShowsNothingDone(user: UserId)
    ensures var o := AccountPage(Some(user), None, None, None).overview;
      && o.username == "N/A" && o.views == 0 && o.percent == 0.0 && o.warning
      && !o.avatarDone && !o.bioDone && !o.linksDone
  {
  }
}
