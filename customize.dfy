/**
 * The customize page's form, in both copies: the account version (bio,
 * presence, opacity, blur, effects, location) and the studio version,
 * which adds the colour inputs, the switches and the Discord toggles.
 *
 * Each control shows its column's stored value, or a fixed default when
 * that value is falsy (`profile.x || default`), and each change hands a
 * one-column patch to a single debounced updater. The debounce keeps only
 * the latest call, so when two controls change within one wait only the
 * second change is saved. `Fire` stands for the timer running out.
 */
module Customize {
  import opened Wrappers
  import opened Text
  import opened Types
  import opened Backend
  import opened Assets
  import opened AccountActions
  import opened Ui

  /** Which copy of the form: `src/app/account/...` or `homeuser/studio/src/app/account/...`. */
  datatype Version = Account | Studio

  const SavedToast := Toast("Saved!", "Your customization has been saved.", false)
  const RemovedToast := Toast("Background Removed", "", false)

  /** Whether a version of the form has a control for column `c`. */
  predicate HasControl(version: Version, c: Column) {
    match c
    case Bio | DiscordPresence | ProfileOpacity | ProfileBlur | BackgroundEffects | Location => true
    case AccentColor | TextColor | BackgroundColor | IconColor | EnableProfileGradient | MonochromeIcons
      | AnimatedTitle | SwapBoxColors | VolumeControl | UseDiscordAvatar | DiscordAvatarDecoration => version == Studio
    case _ => false
  }

  /** `n || d` on a nullable number: `null` and `0` are falsy. */
  function NumberOr(n: Option<int>, d: int): (r: int)
    ensures n.Some? && n.value != 0 ==> r == n.value
    ensures n.None? || n.value == 0 ==> r == d
  {
    if n.Some? && n.value != 0 then n.value else d
  }

  /** `b || false`: a switch is on only for a stored `true`. */
  predicate Checked(b: Option<bool>) {
    b == Some(true)
  }

  /** JavaScript falsiness of a column value. */
  predicate Falsy(v: Value) {
    v == Null || v == Str("") || v == Num(0) || v == Bool(false)
  }

  /** The value a control falls back to. */
  function Default(c: Column): (v: Value)
    requires HasControl(Studio, c)
    ensures Fits(c, v) && v != Null
  {
    match c
    case AccentColor => Str("#1b1b1b")
    case TextColor => Str("#ffffff")
    case BackgroundColor => Str("#080808")
    case IconColor => Str("#ffffff")
    case DiscordPresence => Str("enabled")
    case ProfileOpacity => Num(80)
    case ProfileBlur => Num(10)
    case BackgroundEffects => Str("none")
    case Bio | Location => Str("")
    case _ => Bool(false)
  }

  /**
   * What the control for column `c` shows when the form is rendered from
   * row `p`, field by field as the form reads it. The bio, presence,
   * opacity, blur, effects and location controls take this only as their
   * initial value: a refresh keeps what the user last set in them.
   */
  function Shown(p: Profile, c: Column): (v: Value)
    requires HasControl(Studio, c)
    ensures Fits(c, v) && v != Null
  {
    match c
    case AccentColor => Str(OrElse(p.accent_color, "#1b1b1b"))
    case TextColor => Str(OrElse(p.text_color, "#ffffff"))
    case BackgroundColor => Str(OrElse(p.background_color, "#080808"))
    case IconColor => Str(OrElse(p.icon_color, "#ffffff"))
    case EnableProfileGradient => Bool(Checked(p.enable_profile_gradient))
    case MonochromeIcons => Bool(Checked(p.monochrome_icons))
    case AnimatedTitle => Bool(Checked(p.animated_title))
    case SwapBoxColors => Bool(Checked(p.swap_box_colors))
    case VolumeControl => Bool(Checked(p.volume_control))
    case UseDiscordAvatar => Bool(Checked(p.use_discord_avatar))
    case DiscordAvatarDecoration => Bool(Checked(p.discord_avatar_decoration))
    case Bio => Str(OrElse(p.bio, ""))
    case DiscordPresence => Str(OrElse(p.discord_presence, "enabled"))
    case ProfileOpacity => Num(NumberOr(p.profile_opacity, 80))
    case ProfileBlur => Num(NumberOr(p.profile_blur, 10))
    case BackgroundEffects => Str(OrElse(p.background_effects, "none"))
    case Location => Str(OrElse(p.location, ""))
  }

  /** Every control shows its column's stored value, or its default when that value is falsy. */
  lemma {:induction false} ShownIsStoredOrDefault(p: Profile, c: Column)
    requires HasControl(Studio, c)
    ensures Shown(p, c) == if Falsy(Get(p, c)) then Default(c) else Get(p, c)
  {
    match c
    case ProfileOpacity =>
    case ProfileBlur =>
    case EnableProfileGradient | MonochromeIcons | AnimatedTitle | SwapBoxColors | VolumeControl
      | UseDiscordAvatar | DiscordAvatarDecoration =>
    case _ =>
  }

  /** A row with nothing stored shows every default. */
  lemma BlankRowShowsDefaults(id: UserId, c: Column)
    requires HasControl(Studio, c)
    ensures Shown(BlankProfile(id), c) == Default(c)
  {
    ShownIsStoredOrDefault(BlankProfile(id), c);
  }

  /** A change made through one control: the column it writes and the value it sends. */
  datatype Edit = Edit(column: Column, value: Value)

  /**
   * The changes a version's controls can produce: the two selects offer
   * their listed options, the sliders whole numbers from 0 up to their
   * maximum, the colour and text inputs any string, the switches either
   * state. The volume switch is always disabled, and the two Discord
   * toggles are disabled without a linked Discord identity.
   */
  predicate Offered(version: Version, discordLinked: bool, e: Edit) {
    && HasControl(version, e.column)
    && match e.column
       case DiscordPresence => e.value == Str("enabled") || e.value == Str("disabled")
       case BackgroundEffects =>
         e.value == Str("rain") || e.value == Str("snow") || e.value == Str("stars") || e.value == Str("none")
       case ProfileOpacity => e.value.Num? && 0 <= e.value.n <= 100
       case ProfileBlur => e.value.Num? && 0 <= e.value.n <= 80
       case VolumeControl => false
       case UseDiscordAvatar | DiscordAvatarDecoration => discordLinked && e.value.Bool?
       case _ => (KindOf(e.column) == TextKind ==> e.value.Str?) && (KindOf(e.column) == BoolKind ==> e.value.Bool?)
  }

  /** The one-column patch an edit hands to the debounced updater. */
  function EditPatch(e: Edit): (patch: Patch)
    ensures e.column in patch && |patch.Keys| == 1
  {
    map[e.column := e.value]
  }

  /** Every patch a control can send is one `updateCustomization` accepts: well typed and without `updated_at`. */
  lemma OfferedEditsFit(version: Version, discordLinked: bool, e: Edit)
    requires Offered(version, discordLinked, e)
    ensures WellTyped(EditPatch(e)) && UpdatedAt !in EditPatch(e)
    ensures HasControl(Studio, e.column)
  {
    var patch := EditPatch(e);
    forall c | c in patch ensures Fits(c, patch[c]) {
      assert c == e.column;
    }
  }

  /** A control whose column changed to `v` shows `v` (its default when `v` is falsy); the others are as they were. */
  lemma ColumnShown(before: Profile, after: Profile, e: Edit, c: Column)
    requires HasControl(Studio, c) && HasControl(Studio, e.column)
    requires Get(after, c) == if c == e.column then e.value else Get(before, c)
    ensures c == e.column ==> Shown(after, c) == if Falsy(e.value) then Default(c) else e.value
    ensures c != e.column ==> Shown(after, c) == Shown(before, c)
  {
    ShownIsStoredOrDefault(after, c);
    ShownIsStoredOrDefault(before, c);
  }

  /** After a saved edit, a form next rendered from the row shows the value sent in the edited control (its default when that value is falsy). */
  lemma SavedEditShown(version: Version, discordLinked: bool, profiles: map<UserId, Profile>, uid: UserId,
                       e: Edit, now: string)
    requires Offered(version, discordLinked, e) && uid in profiles
    ensures HasControl(Studio, e.column)
    ensures var row := UpdatedProfiles(profiles, uid, EditPatch(e)[UpdatedAt := Str(now)])[uid];
      Shown(row, e.column) == if Falsy(e.value) then Default(e.column) else e.value
  {
    var row := UpdatedProfiles(profiles, uid, EditPatch(e)[UpdatedAt := Str(now)])[uid];
    OfferedEditsFit(version, discordLinked, e);
    CustomizationWrites(profiles, uid, EditPatch(e), now, e.column);
    ColumnShown(profiles[uid], row, e, e.column);
  }

  /** ... and every other control as a render from the old row showed it. */
  lemma SavedEditKeepsOthers(version: Version, discordLinked: bool, profiles: map<UserId, Profile>, uid: UserId,
                             e: Edit, now: string, c: Column)
    requires Offered(version, discordLinked, e) && uid in profiles && HasControl(Studio, c) && c != e.column
    ensures var row := UpdatedProfiles(profiles, uid, EditPatch(e)[UpdatedAt := Str(now)])[uid];
      Shown(row, c) == Shown(profiles[uid], c)
  {
    var row := UpdatedProfiles(profiles, uid, EditPatch(e)[UpdatedAt := Str(now)])[uid];
    OfferedEditsFit(version, discordLinked, e);
    CustomizationWrites(profiles, uid, EditPatch(e), now, c);
    ColumnShown(profiles[uid], row, e, c);
  }

  /** Sliding opacity or blur to 0 saves 0, and a form next rendered from the row shows the default again (80 and 10). */
  lemma ZeroSliderShowsDefault(version: Version, discordLinked: bool, profiles: map<UserId, Profile>,
                               uid: UserId, now: string, c: Column)
    requires uid in profiles && (c == ProfileOpacity || c == ProfileBlur)
    ensures Offered(version, discordLinked, Edit(c, Num(0)))
    ensures var row := UpdatedProfiles(profiles, uid, EditPatch(Edit(c, Num(0)))[UpdatedAt := Str(now)])[uid];
      && Get(row, c) == Num(0)
      && Shown(row, c) == (if c == ProfileOpacity then Num(80) else Num(10))
  {
    var e := Edit(c, Num(0));
    SavedEditShown(version, discordLinked, profiles, uid, e, now);
    CustomizationWrites(profiles, uid, EditPatch(e), now, c);
  }

  /** Without a linked Discord identity no change can reach the two Discord columns. */
  lemma DiscordTogglesNeedIdentity(version: Version, e: Edit)
    requires Offered(version, false, e)
    ensures e.column != UseDiscordAvatar && e.column != DiscordAvatarDecoration && e.column != VolumeControl
  {
  }

  /** The toast an upload ends with. */
  function UploadToast(asset: Asset, reply: Reply): (t: Toast)
    ensures t.destructive <==> reply.Failed?
    ensures reply.Failed? ==> t.description == reply.message
  {
    match (asset, reply)
    case (Avatar, Failed(m)) => Toast("Error uploading avatar", m, true)
    case (Background, Failed(m)) => Toast("Error uploading background", m, true)
    case (Avatar, _) => Toast("Avatar updated successfully!", "", false)
    case (Background, _) => Toast("Background updated successfully!", "", false)
  }

  class CustomizeForm {
    const version: Version
    /** The row the page was rendered with. */
    const profile: Profile
    /** `user.identities?.find(i => i.provider === 'discord')` found one (studio only). */
    const discordLinked: bool
    var currentBio: string
    /** The debounced updater's waiting call, if any. */
    var pending: Option<Patch>
    var isRemoving: bool
    var isUploading: bool
    var isBgUploading: bool
    var toasts: seq<Toast>
    /** How many times the page was refreshed (`router.refresh()`). */
    var refreshes: nat

    /** The account version gets no user and so never sees a Discord identity. */
    constructor (version: Version, profile: Profile, providers: Option<seq<string>>)
      ensures this.version == version && this.profile == profile
      ensures discordLinked <==> version == Studio && providers.Some? && "discord" in providers.value
      ensures currentBio == OrElse(profile.bio, "") && pending.None?
      ensures !isRemoving && !isUploading && !isBgUploading && toasts == [] && refreshes == 0
    {
      this.version := version;
      this.profile := profile;
      discordLinked := version == Studio && providers.Some? && "discord" in providers.value;
      currentBio := OrElse(profile.bio, "");
      pending := None;
      isRemoving, isUploading, isBgUploading := false, false, false;
      toasts := [];
      refreshes := 0;
    }

    /** A control changes: its one-column patch replaces whatever call was waiting. */
    method Change(e: Edit)
      requires Offered(version, discordLinked, e)
      modifies this
      ensures pending == Some(EditPatch(e))
      ensures currentBio == if e.column == Bio then e.value.s else old(currentBio)
      ensures isRemoving == old(isRemoving) && isUploading == old(isUploading) && isBgUploading == old(isBgUploading)
      ensures toasts == old(toasts) && refreshes == old(refreshes)
    {
      if e.column == Bio {
        currentBio := e.value.s;
      }
      pending := Some(EditPatch(e));
    }

    /** The wait runs out: the waiting patch goes to `updateCustomization`. */
    method Fire() returns (sent: Patch)
      requires pending.Some?
      modifies this
      ensures sent == old(pending).value && pending.None?
      ensures currentBio == old(currentBio) && toasts == old(toasts) && refreshes == old(refreshes)
      ensures isRemoving == old(isRemoving) && isUploading == old(isUploading) && isBgUploading == old(isBgUploading)
    {
      sent := pending.value;
      pending := None;
    }

    /** `updateCustomization`'s answer: an error toasts; success toasts and refreshes. */
    method Saved(reply: Reply)
      modifies this
      ensures reply.Failed? ==> toasts == old(toasts) + [ErrorToast(reply.message)] && refreshes == old(refreshes)
      ensures !reply.Failed? ==> toasts == old(toasts) + [SavedToast] && refreshes == old(refreshes) + 1
      ensures currentBio == old(currentBio) && pending == old(pending)
      ensures isRemoving == old(isRemoving) && isUploading == old(isUploading) && isBgUploading == old(isBgUploading)
    {
      if reply.Failed? {
        toasts := toasts + [ErrorToast(reply.message)];
      } else {
        toasts := toasts + [SavedToast];
        refreshes := refreshes + 1;
      }
    }

    /** Whether the upload of `asset` is in progress. */
    predicate Uploading(asset: Asset)
      reads this
    {
      match asset
      case Avatar => isUploading
      case Background => isBgUploading
    }

    /**
     * A file input changes (it is disabled while its upload is out). With
     * no file nothing happens at all; otherwise the upload starts.
     */
    method StartUpload(asset: Asset, hasFile: bool) returns (started: bool)
      requires !Uploading(asset)
      modifies this
      ensures started == hasFile
      ensures !hasFile ==> unchanged(this)
      ensures hasFile ==> Uploading(asset)
      ensures isUploading == (old(isUploading) || (hasFile && asset == Avatar))
      ensures isBgUploading == (old(isBgUploading) || (hasFile && asset == Background))
      ensures isRemoving == old(isRemoving) && currentBio == old(currentBio) && pending == old(pending)
      ensures toasts == old(toasts) && refreshes == old(refreshes)
    {
      if !hasFile {
        return false;
      }
      match asset {
        case Avatar => isUploading := true;
        case Background => isBgUploading := true;
      }
      started := true;
    }

    /** The upload action's answer: a toast, a refresh on success, and the flag goes down. */
    method FinishUpload(asset: Asset, reply: Reply)
      requires Uploading(asset)
      modifies this
      ensures !Uploading(asset)
      ensures isUploading == (old(isUploading) && asset != Avatar)
      ensures isBgUploading == (old(isBgUploading) && asset != Background)
      ensures toasts == old(toasts) + [UploadToast(asset, reply)]
      ensures refreshes == old(refreshes) + (if reply.Failed? then 0 else 1)
      ensures isRemoving == old(isRemoving) && currentBio == old(currentBio) && pending == old(pending)
    {
      toasts := toasts + [UploadToast(asset, reply)];
      if !reply.Failed? {
        refreshes := refreshes + 1;
      }
      match asset {
        case Avatar => isUploading := false;
        case Background => isBgUploading := false;
      }
    }

    /** The remove button (disabled while a removal is out) is pressed. */
    method StartRemove()
      requires !isRemoving
      modifies this
      ensures isRemoving
      ensures isUploading == old(isUploading) && isBgUploading == old(isBgUploading)
      ensures currentBio == old(currentBio) && pending == old(pending)
      ensures toasts == old(toasts) && refreshes == old(refreshes)
    {
      isRemoving := true;
    }

    /** `removeBackground`'s answer. */
    method FinishRemove(reply: Reply)
      requires isRemoving
      modifies this
      ensures !isRemoving
      ensures reply.Failed? ==> toasts == old(toasts) + [ErrorToast(reply.message)] && refreshes == old(refreshes)
      ensures !reply.Failed? ==> toasts == old(toasts) + [RemovedToast] && refreshes == old(refreshes) + 1
      ensures isUploading == old(isUploading) && isBgUploading == old(isBgUploading)
      ensures currentBio == old(currentBio) && pending == old(pending)
    {
      if reply.Failed? {
        toasts := toasts + [ErrorToast(reply.message)];
      } else {
        toasts := toasts + [RemovedToast];
        refreshes := refreshes + 1;
      }
      isRemoving := false;
    }
  }

  /**
   * Two controls changed within one wait: only the second change is sent,
   * and the first column is not in the patch.
   */
  method TwoQuickChanges(form: CustomizeForm, first: Edit, second: Edit) returns (sent: Patch)
    requires Offered(form.version, form.discordLinked, first) && Offered(form.version, form.discordLinked, second)
    modifies form
    ensures sent == EditPatch(second)
    ensures first.column != second.column ==> first.column !in sent
    ensures form.pending.None?
  {
    form.Change(first);
    form.Change(second);
    sent := form.Fire();
  }
}
