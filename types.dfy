/**
 * The row and insert shapes of the three tables (profiles, links,
 * analytics) and the two-factor `Factor` record.
 *
 * A profile row has one typed field per column. `Partial<Profile>`, the
 * object handed to the database's `update`/`upsert`, is a `Patch`: a map
 * from column to the value written there (`Null` for an explicit `null`);
 * a column absent from the map is left alone.
 */
module Types {
  import opened Wrappers

  type UserId = string
  type LinkId = string

  // ---------------------------------------------------------------- profiles

  datatype Profile = Profile(
    avatar_url: Option<string>,
    background_image_url: Option<string>,
    bio: Option<string>,
    full_name: Option<string>,
    id: UserId,
    role: Option<string>,
    updated_at: Option<string>,
    username: Option<string>,
    unlocked_badges: Option<seq<string>>,
    equipped_badges: Option<seq<string>>,
    profile_opacity: Option<int>,
    profile_blur: Option<int>,
    discord_presence: Option<string>,
    background_effects: Option<string>,
    location: Option<string>,
    accent_color: Option<string>,
    text_color: Option<string>,
    background_color: Option<string>,
    icon_color: Option<string>,
    enable_profile_gradient: Option<bool>,
    monochrome_icons: Option<bool>,
    animated_title: Option<bool>,
    swap_box_colors: Option<bool>,
    volume_control: Option<bool>,
    use_discord_avatar: Option<bool>,
    discord_avatar_decoration: Option<bool>,
    email: Option<string>
  )

  /** Every column of `profiles` except the primary key `id`. */
  datatype Column =
    | AvatarUrl | BackgroundImageUrl | Bio | FullName | Role | UpdatedAt | Username
    | UnlockedBadges | EquippedBadges | ProfileOpacity | ProfileBlur
    | DiscordPresence | BackgroundEffects | Location
    | AccentColor | TextColor | BackgroundColor | IconColor
    | EnableProfileGradient | MonochromeIcons | AnimatedTitle | SwapBoxColors
    | VolumeControl | UseDiscordAvatar | DiscordAvatarDecoration | Email

  datatype Kind = TextKind | NumberKind | BoolKind | TextListKind

  /** A column value as written in a request body. */
  datatype Value = Null | Str(s: string) | Num(n: int) | Bool(b: bool) | Strs(xs: seq<string>)

  type Patch = map<Column, Value>

  function KindOf(c: Column): Kind {
    match c
    case UnlockedBadges | EquippedBadges => TextListKind
    case ProfileOpacity | ProfileBlur => NumberKind
    case EnableProfileGradient | MonochromeIcons | AnimatedTitle | SwapBoxColors
      | VolumeControl | UseDiscordAvatar | DiscordAvatarDecoration => BoolKind
    case _ => TextKind
  }

  /** Every column is nullable; otherwise the value must have the column's type. */
  predicate Fits(c: Column, v: Value) {
    match v
    case Null => true
    case Str(_) => KindOf(c) == TextKind
    case Num(_) => KindOf(c) == NumberKind
    case Bool(_) => KindOf(c) == BoolKind
    case Strs(_) => KindOf(c) == TextListKind
  }

  predicate WellTyped(patch: Patch) {
    forall c :: c in patch ==> Fits(c, patch[c])
  }

  function OfText(o: Option<string>): Value {
    match o case None => Null case Some(s) => Str(s)
  }

  function OfNumber(o: Option<int>): Value {
    match o case None => Null case Some(n) => Num(n)
  }

  function OfBool(o: Option<bool>): Value {
    match o case None => Null case Some(b) => Bool(b)
  }

  function OfTextList(o: Option<seq<string>>): Value {
    match o case None => Null case Some(xs) => Strs(xs)
  }

  /** The value stored in column `c` of row `p`. */
  function Get(p: Profile, c: Column): (v: Value)
    ensures Fits(c, v)
  {
    match c
    case AvatarUrl => OfText(p.avatar_url)
    case BackgroundImageUrl => OfText(p.background_image_url)
    case Bio => OfText(p.bio)
    case FullName => OfText(p.full_name)
    case Role => OfText(p.role)
    case UpdatedAt => OfText(p.updated_at)
    case Username => OfText(p.username)
    case UnlockedBadges => OfTextList(p.unlocked_badges)
    case EquippedBadges => OfTextList(p.equipped_badges)
    case ProfileOpacity => OfNumber(p.profile_opacity)
    case ProfileBlur => OfNumber(p.profile_blur)
    case DiscordPresence => OfText(p.discord_presence)
    case BackgroundEffects => OfText(p.background_effects)
    case Location => OfText(p.location)
    case AccentColor => OfText(p.accent_color)
    case TextColor => OfText(p.text_color)
    case BackgroundColor => OfText(p.background_color)
    case IconColor => OfText(p.icon_color)
    case EnableProfileGradient => OfBool(p.enable_profile_gradient)
    case MonochromeIcons => OfBool(p.monochrome_icons)
    case AnimatedTitle => OfBool(p.animated_title)
    case SwapBoxColors => OfBool(p.swap_box_colors)
    case VolumeControl => OfBool(p.volume_control)
    case UseDiscordAvatar => OfBool(p.use_discord_avatar)
    case DiscordAvatarDecoration => OfBool(p.discord_avatar_decoration)
    case Email => OfText(p.email)
  }

  // The field a patch leaves in column `c`: the patched value or the old one.

  function TextAt(patch: Patch, c: Column, prior: Option<string>): Option<string>
    requires WellTyped(patch) && KindOf(c) == TextKind
  {
    if c !in patch then prior
    else match patch[c] case Str(s) => Some(s) case _ => None
  }

  function NumberAt(patch: Patch, c: Column, prior: Option<int>): Option<int>
    requires WellTyped(patch) && KindOf(c) == NumberKind
  {
    if c !in patch then prior
    else match patch[c] case Num(n) => Some(n) case _ => None
  }

  function BoolAt(patch: Patch, c: Column, prior: Option<bool>): Option<bool>
    requires WellTyped(patch) && KindOf(c) == BoolKind
  {
    if c !in patch then prior
    else match patch[c] case Bool(b) => Some(b) case _ => None
  }

  function TextListAt(patch: Patch, c: Column, prior: Option<seq<string>>): Option<seq<string>>
    requires WellTyped(patch) && KindOf(c) == TextListKind
  {
    if c !in patch then prior
    else match patch[c] case Strs(xs) => Some(xs) case _ => None
  }

  /**
   * `update(patch).eq('id', p.id)` on an existing row, column by column:
   * the columns named in the patch take the patch's values, every other
   * column and the key keep theirs (`ApplyPatchGet`).
   */
  function ApplyPatch(p: Profile, patch: Patch): (r: Profile)
    requires WellTyped(patch)
    ensures r.id == p.id
  {
    Profile(
      TextAt(patch, AvatarUrl, p.avatar_url),
      TextAt(patch, BackgroundImageUrl, p.background_image_url),
      TextAt(patch, Bio, p.bio),
      TextAt(patch, FullName, p.full_name),
      p.id,
      TextAt(patch, Role, p.role),
      TextAt(patch, UpdatedAt, p.updated_at),
      TextAt(patch, Username, p.username),
      TextListAt(patch, UnlockedBadges, p.unlocked_badges),
      TextListAt(patch, EquippedBadges, p.equipped_badges),
      NumberAt(patch, ProfileOpacity, p.profile_opacity),
      NumberAt(patch, ProfileBlur, p.profile_blur),
      TextAt(patch, DiscordPresence, p.discord_presence),
      TextAt(patch, BackgroundEffects, p.background_effects),
      TextAt(patch, Location, p.location),
      TextAt(patch, AccentColor, p.accent_color),
      TextAt(patch, TextColor, p.text_color),
      TextAt(patch, BackgroundColor, p.background_color),
      TextAt(patch, IconColor, p.icon_color),
      BoolAt(patch, EnableProfileGradient, p.enable_profile_gradient),
      BoolAt(patch, MonochromeIcons, p.monochrome_icons),
      BoolAt(patch, AnimatedTitle, p.animated_title),
      BoolAt(patch, SwapBoxColors, p.swap_box_colors),
      BoolAt(patch, VolumeControl, p.volume_control),
      BoolAt(patch, UseDiscordAvatar, p.use_discord_avatar),
      BoolAt(patch, DiscordAvatarDecoration, p.discord_avatar_decoration),
      TextAt(patch, Email, p.email)
    )
  }

  /** One column of a patched row: the patch's value if it names the column, the old value otherwise. */
  lemma {:induction false} ApplyPatchGet(p: Profile, patch: Patch, c: Column)
    requires WellTyped(patch)
    ensures Get(ApplyPatch(p, patch), c) == (if c in patch then patch[c] else Get(p, c))
  {
    match c
    case AvatarUrl =>
    case BackgroundImageUrl =>
    case Bio =>
    case FullName =>
    case Role =>
    case UpdatedAt =>
    case Username =>
    case UnlockedBadges =>
    case EquippedBadges =>
    case ProfileOpacity =>
    case ProfileBlur =>
    case DiscordPresence =>
    case BackgroundEffects =>
    case Location =>
    case AccentColor =>
    case TextColor =>
    case BackgroundColor =>
    case IconColor =>
    case EnableProfileGradient =>
    case MonochromeIcons =>
    case AnimatedTitle =>
    case SwapBoxColors =>
    case VolumeControl =>
    case UseDiscordAvatar =>
    case DiscordAvatarDecoration =>
    case Email =>
  }

  /** `ApplyPatchGet` for every column at once. */
  lemma ApplyPatchColumns(p: Profile, patch: Patch)
    requires WellTyped(patch)
    ensures forall c :: Get(ApplyPatch(p, patch), c) == (if c in patch then patch[c] else Get(p, c))
  {
    forall c ensures Get(ApplyPatch(p, patch), c) == (if c in patch then patch[c] else Get(p, c)) {
      ApplyPatchGet(p, patch, c);
    }
  }

  /** The row a profile insert creates before any column is filled. */
  function BlankProfile(id: UserId): (r: Profile)
    ensures r.id == id
    ensures forall c :: Get(r, c) == Null
  {
    Profile(None, None, None, None, id, None, None, None, None, None, None, None,
            None, None, None, None, None, None, None, None, None, None, None,
            None, None, None, None)
  }

  /** A profile insert: `id` is required, every other column optional and nullable. */
  datatype ProfileInsert = ProfileInsert(id: UserId, columns: Patch)

  /** The row inserted: the supplied columns, `null` everywhere else. */
  function InsertedProfile(ins: ProfileInsert): (r: Profile)
    requires WellTyped(ins.columns)
    ensures r.id == ins.id
  {
    ApplyPatch(BlankProfile(ins.id), ins.columns)
  }

  /** An inserted row holds the supplied columns and `null` in every other one. */
  lemma InsertedProfileColumns(ins: ProfileInsert)
    requires WellTyped(ins.columns)
    ensures forall c :: Get(InsertedProfile(ins), c) == (if c in ins.columns then ins.columns[c] else Null)
  {
    ApplyPatchColumns(BlankProfile(ins.id), ins.columns);
  }

  // ------------------------------------------------------------------- links

  datatype Link = Link(created_at: string, id: LinkId, order: int, title: string, url: string, user_id: UserId)

  /** A link insert: `title`, `url` and `user_id` required; `id`, `order`, `created_at` optional. */
  datatype LinkInsert = LinkInsert(
    created_at: Option<string>, id: Option<LinkId>, order: Option<int>,
    title: string, url: string, user_id: UserId)

  /**
   * The row a link insert creates: a missing `id` or `created_at` is
   * generated by the database (`generatedId`, `now`).
   */
  function InsertedLink(ins: LinkInsert, generatedId: LinkId, now: string): (r: Link)
    requires ins.order.Some?
    ensures r.id == (if ins.id.Some? then ins.id.value else generatedId)
    ensures r.created_at == (if ins.created_at.Some? then ins.created_at.value else now)
    ensures (r.title, r.url, r.user_id, r.order) == (ins.title, ins.url, ins.user_id, ins.order.value)
  {
    Link(ins.created_at.GetOr(now), ins.id.GetOr(generatedId), ins.order.value, ins.title, ins.url, ins.user_id)
  }

  /**
   * A link as the links form submits it (`Partial<Link>`): only the id,
   * title and url are read by the actions, and each may be missing.
   */
  datatype LinkDraft = LinkDraft(id: Option<LinkId>, title: Option<string>, url: Option<string>)

  // --------------------------------------------------------------- analytics

  datatype EventType = ProfileView | LinkClick

  function EventTypeText(t: EventType): (s: string)
    ensures s == "profile_view" || s == "link_click"
  {
    match t case ProfileView => "profile_view" case LinkClick => "link_click"
  }

  /** The stored spelling of an event type; any other text is not an event type. */
  function ParseEventType(s: string): (r: Option<EventType>)
    ensures r.Some? <==> s == "profile_view" || s == "link_click"
  {
    if s == "profile_view" then Some(ProfileView)
    else if s == "link_click" then Some(LinkClick)
    else None
  }

  lemma {:induction false} EventTypeRoundTrip(t: EventType)
    ensures ParseEventType(EventTypeText(t)) == Some(t)
  {
    match t
    case ProfileView =>
    case LinkClick =>
  }

  datatype AnalyticsEvent = AnalyticsEvent(
    id: string, created_at: string, user_id: UserId, event_type: EventType, link_id: Option<LinkId>)

  /** An analytics insert: `link_id` may be absent (outer None) or null (Some(None)). */
  datatype AnalyticsInsert = AnalyticsInsert(
    id: Option<string>, created_at: Option<string>, user_id: UserId,
    event_type: EventType, link_id: Option<Option<LinkId>>)

  function InsertedEvent(ins: AnalyticsInsert, generatedId: string, now: string): (r: AnalyticsEvent)
    ensures r.user_id == ins.user_id && r.event_type == ins.event_type
    ensures r.link_id.None? <==> (ins.link_id.None? || ins.link_id.value.None?)
    ensures r.link_id.Some? ==> ins.link_id == Some(r.link_id)
  {
    AnalyticsEvent(ins.id.GetOr(generatedId), ins.created_at.GetOr(now), ins.user_id,
                   ins.event_type, ins.link_id.GetOr(None))
  }

  // ----------------------------------------------------------------- factors

  datatype FactorType = Totp
  datatype FactorStatus = Verified | Unverified

  datatype Factor = Factor(
    id: string, friendly_name: string, factor_type: FactorType, status: FactorStatus,
    created_at: string, updated_at: string)
}
