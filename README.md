# Bind: a model of the link-in-bio account area

Bind is a link-in-bio service. A user signs up with an e-mail address, a
password and a username. They then edit their public page from an account
area: a profile form (username, bio), a links editor, a customize page
(colours, switches, sliders, avatar and background images, and in the
studio copy an AI assistant chat), security settings (password change,
TOTP two-factor) and an overview page with a profile-completion figure.
The server side is a set of server actions over a hosted Postgres
database, an auth service and storage buckets. A request middleware keeps
signed-out users out of the account area.

The model covers:

- **The hosted services.** `Backend.Backend` is one class holding the auth
  user set, the `profiles`, `links` and `analytics` tables, and the storage
  objects. Each server action is a method that `modifies` it. Every outcome
  the services decide (a write failing, a generated id, the clock, the auth
  result) is an input of the action.
- **The rows.** Module `Types` models the rows and inserts of the three
  tables. `Partial<Profile>` becomes a `Patch`, a map from column to value.
- **The server actions.** Module `AccountActions` models the account copy.
  Module `StudioActions` models where the studio copy differs: link-by-link
  writes, and deleting the stored background. Module `Assets` models the
  avatar and background replacement. Modules `Signup` and `SignupPage`
  model the sign-up action and the sign-up page's own inline action.
- **The client components.** Each is a class whose methods are the
  component's event handlers: `AccountForm.ProfileForm`,
  `LinksForm.LinksForm`, `Customize.CustomizeForm`,
  `AssistantChat.AssistantChat` and `SecurityForms.SecurityForms`. A
  request to the server is split into its start (the click) and its finish
  (the answer).
- **Pure helpers.** `Overview` models the overview page, `Middleware` the
  middleware and its matcher, and `Icons` the icon chosen for a link. The
  JavaScript string operations they rely on (`indexOf`, `replace` with a
  string or regular expression, `split(...)[1]`, `join`, truthiness and
  `||`) are in `Text`.

Some of the code's behaviour is easy to misread; the model follows the code:

- The sign-up page's prefix-stripping expression is not anchored. It removes
  the leftmost occurrence wherever it stands, not only a leading one.
- The studio `removeBackground` takes `split('/backgrounds/')[1]`. That is
  the text between the first and the second occurrence, not all the text
  after the first.
- zod's `min` and `regex` checks on a username both run, so a short name
  with a bad character gets both messages. The password refinement runs
  even when the length check has failed.
- Supabase's `.single()` yields a row only when exactly one row matches. A
  username held by two profiles is therefore "not found" by the lookups
  (`Backend.SingleMatchMissesDuplicates`).
- The batch `updateLinks` numbers the entries before dropping those without
  a title or url, so `order` can have gaps (`AccountActions.PlanLeavesGaps`).

## Model

| member | source | states |
|---|---|---|
| Types.Get | src/lib/types.ts:88-117 | the value read from a profile column always has the column's type (or is null) |
| Types.ApplyPatch | src/lib/types.ts:147-175 | an update of a row keeps its primary key |
| Types.ApplyPatchGet | src/lib/types.ts:147-175 | after an update, a column named in the patch holds the patch's value and every other column keeps its old value |
| Types.ApplyPatchColumns | src/lib/types.ts:147-175 | the same, for all columns at once |
| Types.BlankProfile | src/lib/types.ts:118-146 | a freshly inserted row with no column supplied holds null in every column |
| Types.InsertedProfile | src/lib/types.ts:118-146 | an inserted profile row has the id of its insert |
| Types.InsertedProfileColumns | src/lib/types.ts:118-146 | an inserted profile holds exactly the supplied columns, null elsewhere |
| Types.InsertedLink | src/lib/types.ts:53-69 | an inserted link keeps the supplied title, url, owner and order; a missing id or creation time is the database's |
| Types.EventTypeText | src/lib/types.ts:19 | an event type is stored as `profile_view` or `link_click` |
| Types.ParseEventType | src/lib/types.ts:19 | only those two spellings are event types |
| Types.EventTypeRoundTrip | src/lib/types.ts:19 | reading back a stored event type gives the same type |
| Types.InsertedEvent | src/lib/types.ts:15-28 | an analytics row keeps user and event type; its link is null exactly when the insert's link is absent or null |
| Text.OccursAtTail | src/app/signup/page.tsx:73 | an occurrence in the tail of a string is an occurrence one place further right in the string |
| Text.IndexOf | src/components/icons.tsx:5-11 | a found index leaves room for the pattern |
| Text.IndexOfLeftmost | src/components/icons.tsx:5-11 | the index found is an occurrence, no occurrence lies further left, and nothing is found only when there is no occurrence |
| Text.ContainsIff | src/components/icons.tsx:6-11 | `includes` holds exactly when the pattern occurs somewhere |
| Text.ReplaceFirstAbsent | src/components/icons.tsx:5 | `replace` with an absent pattern leaves the string unchanged |
| Text.ReplaceFirstLeading | src/components/icons.tsx:5 | a leading occurrence is the one `replace` substitutes |
| Text.Join | src/app/account/account-form.tsx:55-62 | joining no messages gives the empty string; joining one gives that message |
| Text.OrElse | src/app/account/account-form.tsx:39-45 | JavaScript's logical or on a nullable string yields the string when it is non-empty and the fallback otherwise |
| Text.Decimal | src/app/account/actions.ts:255 | a timestamp's text is a non-empty run of digits |
| Text.DecimalLength | src/app/account/actions.ts:255 | a number of 10 or more has at least two digits |
| Text.DecimalInjective | src/app/account/actions.ts:255 | different timestamps give different texts |
| Ui.ErrorToast | src/app/account/account-form.tsx:63-65 | an error toast is titled "Error" and destructive |
| Ui.SuccessToast | src/app/account/account-form.tsx:66-69 | a success toast is titled "Success" and not destructive |
| Backend.Backend.constructor | src/lib/types.ts:11-200 | an empty backend satisfies the invariant: every profile belongs to an auth user and every row sits under its own key |
| Backend.UpdatedProfiles | src/app/account/actions.ts:196-199 | `update(...).eq('id', uid)` changes no other row, creates no row and keeps the key |
| Backend.UpdatedProfilesRow | src/app/account/actions.ts:196-199 | the caller's row takes the patched columns and keeps the others |
| Backend.UpsertedProfiles | src/app/account/actions.ts:51-58 | an upsert adds the caller's row if missing and changes no other row |
| Backend.UpsertedProfilesRow | src/app/account/actions.ts:51-58 | the upserted row holds the patched columns, with the rest kept or null in a new row |
| Backend.Holders | src/app/account/actions.ts:40-49 | the profiles other than the excluded one whose username is the name |
| Backend.SingleMatchIffHeld | src/app/account/actions.ts:40-49 | while usernames are unique, the `single()` lookup finds a row exactly when another profile holds the name |
| Backend.SingleMatchMissesDuplicates | src/app/account/actions.ts:40-49 | two other holders of a name make the lookup come back empty |
| Backend.ClaimingFreeNameKeepsUnique | src/app/account/actions.ts:40-58 | taking a name nobody else holds keeps usernames unique |
| AccountActions.UsernameMessages | src/app/account/actions.ts:10-15 | a username is accepted exactly when it has 3 or more `[a-zA-Z0-9_]` characters; length and character messages appear independently; a missing field gets the null message |
| AccountActions.BioMessages | src/app/account/actions.ts:10-15 | a bio is accepted exactly when present and at most 160 characters |
| AccountActions.ProfileFieldErrors | src/app/account/actions.ts:30-36 | no field errors exactly for valid input; every error names `username` or `bio` and carries messages |
| AccountActions.ProfileUpsert | src/app/account/actions.ts:51-58 | the upserted object holds username, bio and time, and the metadata's name and avatar exactly when the metadata has them |
| AccountActions.UpdateProfile | src/app/account/actions.ts:17-68 | not signed in, invalid input, a taken name and a failed upsert each leave the profiles unchanged with their own reply; otherwise exactly the upsert is applied |
| AccountActions.UpdateProfileKeepsUsernamesUnique | src/app/account/actions.ts:40-58 | a successful update keeps usernames unique |
| AccountActions.SubmittedIds | src/app/account/actions.ts:79 | the set of ids present in the submitted list |
| AccountActions.LinksToDelete | src/app/account/actions.ts:80 | exactly the initial links whose id is no longer submitted |
| AccountActions.DeletedIds | src/app/account/actions.ts:82-86 | exactly the ids of those links; empty exactly when there is nothing to delete |
| AccountActions.Without | src/app/account/actions.ts:83-86 | deleting removes exactly those keys and keeps every other row |
| AccountActions.PlanFrom | src/app/account/actions.ts:94-100 | the planned rows are never more than the entries |
| AccountActions.PlanFromSound | src/app/account/actions.ts:94-100 | each planned row comes from a kept entry at its order |
| AccountActions.PlanFromOrdered | src/app/account/actions.ts:94-100 | planned rows keep list order |
| AccountActions.PlanFromComplete | src/app/account/actions.ts:94-100 | every kept entry gets a row |
| AccountActions.Plan | src/app/account/actions.ts:94-100 | the rows to upsert are never more than the entries |
| AccountActions.PlanRows | src/app/account/actions.ts:94-100 | row `i` carries its entry's title and url and the caller as owner; it keeps the entry's id unless that id is missing or a `new-` one, in which case it has none |
| AccountActions.PlanOrdered | src/app/account/actions.ts:94-100 | the rows' orders increase along the list |
| AccountActions.PlanComplete | src/app/account/actions.ts:94-100 | every entry with a title and a url gets a row |
| AccountActions.PlanEmpty | src/app/account/actions.ts:94-102 | nothing is upserted exactly when no entry has both a title and a url |
| AccountActions.PlanFromAllKept | src/app/account/actions.ts:94-100 | when every entry is kept, row `i` is entry `i` |
| AccountActions.PlanDense | src/app/account/actions.ts:94-100 | the orders are then exactly 0, 1, 2, … |
| AccountActions.PlanLeavesGaps | src/app/account/actions.ts:94-100 | a dropped first entry leaves order 0 unused |
| AccountActions.UpsertLinks | src/app/account/actions.ts:102-108 | the batch upsert keeps every existing key and adds exactly the rows' keys; rows stay under their own ids |
| AccountActions.UpsertLinksStores | src/app/account/actions.ts:102-108 | with distinct keys, each row is stored with its fields and an existing row keeps its creation time |
| AccountActions.UpsertLinksSkips | src/app/account/actions.ts:102-108 | a key no row lands on keeps its row |
| AccountActions.UpdateLinks | src/app/account/actions.ts:71-117 | not signed in changes nothing; a `null` initial list throws before any write; a failed delete stops before the upsert; otherwise the table is the old one without the deleted ids, then upserted with the plan |
| AccountActions.UpdateCustomization | src/app/account/actions.ts:188-213 | not signed in or a failed write changes nothing; otherwise the patch plus `updated_at` is written to the caller's row only |
| AccountActions.CustomizationWrites | src/app/account/actions.ts:196-199 | the write touches exactly the supplied columns and `updated_at` |
| AccountActions.RemoveBackground | src/app/account/actions.ts:215-240 | signed in and not failing, only `updated_at` of the caller's row changes among modelled columns |
| AccountActions.TrackProfileView | src/app/account/actions.ts:164-173 | one `profile_view` event is appended unless the insert fails, and nothing else changes |
| AccountActions.TrackLinkClick | src/app/account/actions.ts:175-186 | one `link_click` event naming the link is appended unless the insert fails |
| AccountActions.ViewCount | homeuser/studio/src/app/account/page.tsx:26-30 | the count of a user's `profile_view` rows is at most the number of events, and zero exactly when the user has none |
| AccountActions.ViewCountAppend | homeuser/studio/src/app/account/page.tsx:26-30 | one more event raises the count by one exactly when it is a view by that user |
| AccountActions.TrackedEvents | src/app/account/actions.ts:164-186 | a recorded view raises its user's view count by one and nobody else's; a recorded click changes no view count |
| Assets.UploadPath | src/app/account/actions.ts:255 | the path is the folder, the user id, then the timestamp's digits |
| Assets.UploadPathInjective | src/app/account/actions.ts:255 | one user's uploads at different times never share a path |
| Assets.ReplaceAsset | src/app/account/actions.ts:242-288 | no user or no file changes nothing; a failed upload changes nothing; a failed update removes the uploaded object again unless that removal fails; success points the column at the public URL |
| Assets.ReplaceWritesOnlyTarget | src/app/account/actions.ts:269-272 | a successful replacement writes only the image column |
| StudioActions.FindIndex | homeuser/studio/src/app/account/actions.ts:99 | the result is -1 or an index into the list |
| StudioActions.FindIndexFirst | homeuser/studio/src/app/account/actions.ts:99 | the index found holds the id with none further left, and -1 means no entry holds it |
| StudioActions.FindIndexOfEntry | homeuser/studio/src/app/account/actions.ts:99 | an entry's order never exceeds its position |
| StudioActions.FindIndexDistinct | homeuser/studio/src/app/account/actions.ts:99 | with distinct ids an entry's order is its position |
| StudioActions.Write | homeuser/studio/src/app/account/actions.ts:93-118 | a write adds a key only for a `new-` entry |
| StudioActions.WriteKeyed | homeuser/studio/src/app/account/actions.ts:93-118 | a write keeps every row under its own id |
| StudioActions.WriteKeeps | homeuser/studio/src/app/account/actions.ts:93-118 | a write leaves every other key alone |
| StudioActions.FirstFailure | homeuser/studio/src/app/account/actions.ts:93-118 | a reported failure is a failing write at or after the start |
| StudioActions.FirstFailureFirst | homeuser/studio/src/app/account/actions.ts:93-118 | it is the first failing write, and none is reported only when all succeed |
| StudioActions.FirstFailureAt | homeuser/studio/src/app/account/actions.ts:93-118 | earlier writes succeeding and write `i` failing make `i` the failure |
| StudioActions.FirstFailureNone | homeuser/studio/src/app/account/actions.ts:93-118 | all writes succeeding means no failure |
| StudioActions.UpdateLinks | homeuser/studio/src/app/account/actions.ts:70-127 | not signed in changes nothing; a `null` initial list throws before any write; a failed delete stops; otherwise the deletes, then the writes up to the first failure |
| StudioActions.WriteEach | homeuser/studio/src/app/account/actions.ts:93-118 | the loop applies the writes before the first failure and stops there with that entry's error, or applies all and succeeds |
| StudioActions.WrittenInserts | homeuser/studio/src/app/account/actions.ts:93-118 | a `new-` entry ends up under its generated id, owned by the caller, with its `findIndex` order |
| StudioActions.WrittenUpdates | homeuser/studio/src/app/account/actions.ts:93-118 | an existing row named by entry `k` gets order `k` and the entry's title and url |
| StudioActions.WrittenUntouched | homeuser/studio/src/app/account/actions.ts:93-118 | a key no entry names keeps its row |
| StudioActions.KeyOfPathname | homeuser/studio/src/app/account/actions.ts:188-199 | the key is the non-empty piece after `/backgrounds/`, and there is none when that piece is missing or empty |
| StudioActions.RemoveBackground | homeuser/studio/src/app/account/actions.ts:180-218 | a signed-in caller's stored image is removed when its key is found; whatever happened there, the background is cleared and `updated_at` stamped unless the update fails |
| StudioActions.RemovedBackgroundCleared | homeuser/studio/src/app/account/actions.ts:201-204 | after success the row has no background and a fresh `updated_at` |
| Signup.EmailMessages | src/app/signup/actions.ts:14-19 | an e-mail is accepted exactly when present and well formed |
| Signup.PasswordMessages | src/app/signup/actions.ts:14-19 | a password is accepted exactly when it has 6 or more characters |
| Signup.SignupMessages | src/app/signup/actions.ts:14-26 | no message exactly for valid input; the short-password and bad-character messages appear exactly in their cases |
| Signup.SignupProfile | src/app/signup/actions.ts:56-67 | the inserted profile holds exactly the username and the same text as full name |
| Signup.SignUp | src/app/signup/actions.ts:9-70 | invalid input and a taken name change nothing; an auth error changes nothing; a failed profile insert removes the new auth user; success adds the user and its profile |
| Signup.SignUpKeepsUsernamesUnique | src/app/signup/actions.ts:31-67 | a sign-up the lookup lets through keeps usernames unique |
| SignupPage.PageSignUp | src/app/signup/page.tsx:14-57 | every path ends in a redirect: auth error, profile error (user deleted), or the verify-e-mail notice |
| SignupPage.AlertTitle | src/app/signup/page.tsx:69-71 | the title is "Error" or "Info", and it is "Error" exactly when the alert takes the destructive variant |
| SignupPage.DisplayText | src/app/signup/page.tsx:73 | the shown text is never longer than the message |
| SignupPage.DisplayTextNoMatch | src/app/signup/page.tsx:73 | a message without the pattern is shown as it is |
| SignupPage.DisplayTextFirstMatch | src/app/signup/page.tsx:73 | the leftmost match is removed and the text around it is kept |
| SignupPage.UserErrorShownBare | src/app/signup/page.tsx:35-73 | an auth error is shown as the auth service's own message |
| SignupPage.ProfilePrefixOneC | src/app/signup/page.tsx:50-73 | only the first character of the profile prefix can start a match |
| SignupPage.NoOccurrence | src/app/signup/page.tsx:73 | one differing character rules out an occurrence |
| SignupPage.ProfileErrorKeepsPrefix | src/app/signup/page.tsx:50-73 | a profile error keeps its "Could not create profile: " prefix |
| SignupPage.RedirectsClassified | src/app/signup/page.tsx:35-71 | both failures come back to the sign-up page and show as errors; the success notice would be classified as information, but it goes to the login page, which does not display it |
| Middleware.Decide | src/middleware.ts:5-23 | a signed-in user on `/login` or `/signup` goes to `/account`, a signed-out user on an `/account…` path to `/login`, everyone else passes |
| Middleware.Route | src/middleware.ts:25-31 | paths outside the matcher pass through |
| Middleware.RedirectsExclusive | src/middleware.ts:13-20 | the two redirects never apply to one request |
| Middleware.AccountAreaGuarded | src/middleware.ts:18-31 | every matched account path turns away a signed-out user |
| Middleware.NoRedirectLoop | src/middleware.ts:5-31 | a redirect's target is matched and then passes for the same user |
| Middleware.AccountLookalikeUnguarded | src/middleware.ts:18-31 | `/accounting` would be refused by the test but is outside the matcher |
| Icons.IconForUrl | src/components/icons.tsx:3-16 | a URL that does not parse shows the link icon |
| Icons.IconFirstMatch | src/components/icons.tsx:6-11 | the first pattern the domain contains decides the icon |
| Icons.IconLinkIffNoMatch | src/components/icons.tsx:6-15 | the link icon shows exactly when no pattern occurs |
| Icons.LeadingWwwIgnored | src/components/icons.tsx:5 | a leading `www.` does not affect the icon |
| Icons.DropboxShowsTwitter | src/components/icons.tsx:7 | matching is by substring, so `dropbox.com` shows the Twitter icon |
| AccountForm.ClientFieldErrors | src/app/account/account-form.tsx:20-25 | no errors exactly for valid values; each field errs exactly in its own failing case |
| AccountForm.DefaultUsername | src/app/account/account-form.tsx:39-45 | the stored username when non-empty, else empty |
| AccountForm.DefaultBio | src/app/account/account-form.tsx:39-45 | the stored bio when non-empty, else empty |
| AccountForm.BioToSend | src/app/account/account-form.tsx:49-51 | the bio sent is the form's bio, or empty when absent |
| AccountForm.ClientValidPassesServer | src/app/account/account-form.tsx:20-25 | values the form accepts pass the server's schema |
| AccountForm.ServerRefusalCaughtFirst | src/app/account/account-form.tsx:20-25 | values the server would refuse are refused by the form first |
| AccountForm.SetErrors | src/app/account/account-form.tsx:55-62 | the fields with an error are the old ones plus every reported field, and a field not reported keeps its old message |
| AccountForm.SetErrorsShows | src/app/account/account-form.tsx:55-62 | each field shows its messages joined by ", " |
| AccountForm.ServerUsernameErrorShown | src/app/account/account-form.tsx:55-62 | a server username error is shown under `username` with all its messages |
| AccountForm.FirstMessages | src/app/account/account-form.tsx:20-25 | the resolver reports one error per failing field, holding the first message of that field's first report |
| AccountForm.ProfileForm.constructor | src/app/account/account-form.tsx:39-45 | the form starts from the stored profile with no errors |
| AccountForm.ProfileForm.Submit | src/app/account/account-form.tsx:47-51 | values are sent exactly when the form's schema accepts them; otherwise the first message per field is shown |
| AccountForm.ProfileForm.HandleResult | src/app/account/account-form.tsx:53-70 | field errors are shown, an error string toasts, success toasts and refreshes |
| LinksForm.EntryOf | src/app/account/links/links-form.tsx:39-44 | a stored link starts as an entry with its id, title and url |
| LinksForm.EntriesOf | src/app/account/links/links-form.tsx:39-44 | the entries are the stored links, in order |
| LinksForm.FreshEntry | src/app/account/links/links-form.tsx:114 | an added entry has a `new-` id and empty title and url |
| LinksForm.EntryMessages | src/app/account/links/links-form.tsx:18-26 | an empty title and an invalid URL are each reported exactly in their case |
| LinksForm.Drafts | src/app/account/links/links-form.tsx:51-61 | the submitted drafts carry every entry's fields |
| LinksForm.LinksForm.constructor | src/app/account/links/links-form.tsx:39-44 | the editor starts with the page's links, or none |
| LinksForm.LinksForm.Append | src/app/account/links/links-form.tsx:114 | "Add Link" appends one fresh entry |
| LinksForm.LinksForm.Remove | src/app/account/links/links-form.tsx:103 | the trash button removes exactly that entry and keeps the others' order |
| LinksForm.LinksForm.Submit | src/app/account/links/links-form.tsx:51-61 | the list is sent exactly when every entry is valid, together with the original links as the page passed them, possibly `null` |
| LinksForm.LinksForm.HandleResult | src/app/account/links/links-form.tsx:53-59 | an error toasts; success toasts and refreshes; a thrown call does neither; the entries stay |
| LinksForm.FreshEntryBlocksSubmit | src/app/account/links/links-form.tsx:18-26 | a freshly added entry blocks submission |
| LinksForm.ValidFormPlansEveryEntry | src/app/account/links/links-form.tsx:18-26 | a valid list survives the batch filter whole, entry `i` at order `i` |
| LinksForm.UnchangedListDeletesNothing | src/app/account/links/links-form.tsx:51-61 | submitting the list as loaded deletes no link |
| Customize.NumberOr | homeuser/studio/src/app/account/customize/customize-form.tsx:379-382 | a null or zero number falls back to the default |
| Customize.Default | homeuser/studio/src/app/account/customize/customize-form.tsx:280-440 | every default fits its column and is not null |
| Customize.Shown | homeuser/studio/src/app/account/customize/customize-form.tsx:280-440 | what a control shows on a render from the row fits its column and is not null |
| Customize.ShownIsStoredOrDefault | homeuser/studio/src/app/account/customize/customize-form.tsx:280-440 | each control shows the stored value, or its default when that value is falsy |
| Customize.BlankRowShowsDefaults | homeuser/studio/src/app/account/customize/customize-form.tsx:280-440 | a row with nothing stored shows every default |
| Customize.EditPatch | homeuser/studio/src/app/account/customize/customize-form.tsx:92-100 | a change sends a patch with exactly its own column |
| Customize.OfferedEditsFit | homeuser/studio/src/app/account/customize/customize-form.tsx:280-440 | every change a control offers is well typed and has no `updated_at` |
| Customize.ColumnShown | homeuser/studio/src/app/account/customize/customize-form.tsx:280-440 | after a one-column change only that column's control shows something new |
| Customize.SavedEditShown | homeuser/studio/src/app/account/customize/customize-form.tsx:92-100 | after a saved change, a form next rendered from the row shows the value sent in that control (or its default when falsy) |
| Customize.SavedEditKeepsOthers | homeuser/studio/src/app/account/customize/customize-form.tsx:92-100 | and every other control as a render from the old row showed it |
| Customize.ZeroSliderShowsDefault | homeuser/studio/src/app/account/customize/customize-form.tsx:379-398 | sliding opacity or blur to 0 stores 0, but a form next rendered from the row shows 80 or 10 |
| Customize.DiscordTogglesNeedIdentity | homeuser/studio/src/app/account/customize/customize-form.tsx:313-334 | without a Discord identity no change reaches the Discord columns, and the volume switch never changes |
| Customize.UploadToast | homeuser/studio/src/app/account/customize/customize-form.tsx:114-150 | an upload's toast is destructive exactly for a failure, and then carries the error |
| Customize.CustomizeForm.constructor | homeuser/studio/src/app/account/customize/customize-form.tsx:83-85 | the bio starts as the stored bio or empty; Discord counts as linked only in the studio copy with a Discord identity |
| Customize.CustomizeForm.Change | homeuser/studio/src/app/account/customize/customize-form.tsx:92-100 | a change replaces whatever call was waiting |
| Customize.CustomizeForm.Fire | homeuser/studio/src/app/account/customize/customize-form.tsx:92-100 | when the wait ends the waiting patch is sent |
| Customize.CustomizeForm.Saved | homeuser/studio/src/app/account/customize/customize-form.tsx:93-99 | an error toasts; success toasts "Saved!" and refreshes |
| Customize.CustomizeForm.StartUpload | homeuser/studio/src/app/account/customize/customize-form.tsx:114-118 | no file does nothing; a file raises that upload's flag |
| Customize.CustomizeForm.FinishUpload | homeuser/studio/src/app/account/customize/customize-form.tsx:122-131 | the answer toasts, refreshes on success and lowers the flag |
| Customize.CustomizeForm.StartRemove | homeuser/studio/src/app/account/customize/customize-form.tsx:102-104 | removal raises its flag |
| Customize.CustomizeForm.FinishRemove | homeuser/studio/src/app/account/customize/customize-form.tsx:105-112 | the answer toasts, refreshes on success and lowers the flag |
| Customize.TwoQuickChanges | homeuser/studio/src/app/account/customize/customize-form.tsx:92-100 | of two changes within one wait only the second is sent |
| AssistantChat.UserMessagesAnswered | homeuser/studio/src/app/account/customize/customize-form.tsx:152-177 | in a settled chat every user message is followed by an assistant message |
| AssistantChat.Pairs | homeuser/studio/src/app/account/customize/customize-form.tsx:152-177 | a settled chat reads as question/answer pairs |
| AssistantChat.ExchangeAddsPair | homeuser/studio/src/app/account/customize/customize-form.tsx:156-173 | an exchange keeps the alternation and adds exactly one pair |
| AssistantChat.AssistantChat.constructor | homeuser/studio/src/app/account/customize/customize-form.tsx:87-90 | the chat starts empty and idle |
| AssistantChat.AssistantChat.Type | homeuser/studio/src/app/account/customize/customize-form.tsx:533-538 | typing (only while idle) changes the input alone |
| AssistantChat.AssistantChat.Submit | homeuser/studio/src/app/account/customize/customize-form.tsx:152-166 | a blank message (only the white space `trim()` strips, Unicode space separators and line separators included) or a pending reply is ignored; otherwise the user message is appended, the input cleared and the request built |
| AssistantChat.AssistantChat.Answered | homeuser/studio/src/app/account/customize/customize-form.tsx:167-176 | exactly one assistant message is appended (the apology when the call throws) and loading ends |
| AssistantChat.Exchange | homeuser/studio/src/app/account/customize/customize-form.tsx:152-177 | a full exchange adds the pair (message, answer) and settles the chat |
| SecurityForms.PasswordIssues | src/app/account/settings/security-forms.tsx:20-26 | no issue exactly for a password of 6 or more that matches its confirmation; each issue appears exactly in its case |
| SecurityForms.SecurityForms.constructor | src/app/account/settings/security-forms.tsx:39-42 | the forms start empty and idle |
| SecurityForms.SecurityForms.SubmitPassword | src/app/account/settings/security-forms.tsx:44-47 | the new password is sent exactly when there is no issue |
| SecurityForms.SecurityForms.PasswordAnswered | src/app/account/settings/security-forms.tsx:47-56 | an error toasts and keeps the fields; success toasts and clears them |
| SecurityForms.SecurityForms.StartEnroll | src/app/account/settings/security-forms.tsx:58-60 | enrolment raises its flag |
| SecurityForms.SecurityForms.FinishEnroll | src/app/account/settings/security-forms.tsx:60-70 | new data opens the dialog; an error toasts |
| SecurityForms.SecurityForms.StartVerify | src/app/account/settings/security-forms.tsx:72-75 | verification sends the enrolled factor's id |
| SecurityForms.SecurityForms.FinishVerify | src/app/account/settings/security-forms.tsx:75-84 | success closes the dialog; an error keeps it open and toasts |
| SecurityForms.SecurityForms.CloseDialog | src/app/account/settings/security-forms.tsx:124 | closing drops the enrolment data |
| SecurityForms.SecurityForms.StartDisable | src/app/account/settings/security-forms.tsx:86-89 | without a factor nothing happens; otherwise its id is sent |
| SecurityForms.SecurityForms.FinishDisable | src/app/account/settings/security-forms.tsx:89-96 | the answer toasts and the flag goes down |
| SecurityForms.EnrollThenVerify | src/app/account/settings/security-forms.tsx:58-84 | the factor verified is the one enrolled, and success leaves the dialog closed and all flags down |
| Overview.CompletionCount | homeuser/studio/src/app/account/page.tsx:39-43 | the count is at most 3, is 3 exactly when all criteria hold and 0 exactly when none does |
| Overview.CompletionPercent | homeuser/studio/src/app/account/page.tsx:39-43 | the figure lies in 0..100, is 100 exactly when complete and 0 exactly when nothing is done |
| Overview.Rounded | homeuser/studio/src/app/account/page.tsx:103 | the label is the figure rounded half up |
| Overview.PercentLabels | homeuser/studio/src/app/account/page.tsx:103 | the possible labels are 0, 33, 67 and 100 |
| Overview.ShortUid | homeuser/studio/src/app/account/page.tsx:76 | the short id is the id's first eight characters (or all of a shorter id) followed by "..." |
| Overview.ShortUidSharedPrefix | homeuser/studio/src/app/account/page.tsx:76 | ids sharing their first eight characters look the same |
| Overview.AccountPage | homeuser/studio/src/app/account/page.tsx:16-18 | a visitor without a user goes to the login page; otherwise the page shows the short id |
| Overview.WarningIffChecklistOpen | homeuser/studio/src/app/account/page.tsx:108-136 | the warning shows exactly while a checklist item is open, each item is done exactly when its own criterion holds, a missing view count shows as 0, and the figure is the share of done items |
| Overview.MissingDataShowsNothingDone | homeuser/studio/src/app/account/page.tsx:20-56 | with no profile and no counts the page shows "N/A", no views and nothing done |

## Left out

- URL, e-mail and hostname parsing are not modelled: zod's `url()` and `email()` recognisers and `new URL(...)` are parameters.
- Auth sessions, row-level security, `revalidatePath` and console logging are not modelled. Every write's failure, generated id and timestamp is an input.
- The AI flows are not modelled. `generateAndUpdateBackground` is left out because its outcome is an external model's. The assistant's answer is an input of `AssistantChat.AssistantChat.Answered`.
- `signInWithDiscord` is left out: it only starts the OAuth redirect.
- String lengths count characters, one per UTF-16 code unit. Surrogate pairs are not distinguished.
- `AccountActions.RemoveBackground`: the account copy also writes `background_image_data_uri`, a column the row type does not have. Only `updated_at` is modelled.
- The `id` key inside update and upsert objects is implied by the row key rather than being a column of `Patch`.
- A batch upsert in which two rows carry the same id is modelled as a failed upsert. The database refuses to touch one row twice in one statement.
- Auth metadata keys that are absent and keys that are `undefined` are both `None`.
- `Customize.CustomizeForm.Fire`: the 1000 ms wait is not modelled. `Fire` stands for the timer running out, and a call lost on unmount is not modelled.
- `Customize.Shown`: the bio, presence, opacity, blur, effects and location controls are uncontrolled (`defaultValue`), so `router.refresh()` does not reset them. `Shown` is what a fresh render shows, not what such a control shows after the user has moved it.
- `SignupPage.RedirectsClassified`: the success notice is sent to the login page, which does not display messages; its classification is stated but never shown.
- Typing into form fields is modelled only where it matters to an action (the chat input). Other fields are set directly.
- URL encoding of redirect messages is left to the framework.
- The studio copies of `updateProfile`, `updateCustomization`, `updateAvatar` and the tracking actions match the account copies and are modelled once. The studio `updateBackground` is `Assets.ReplaceAsset` with `Background`.
- The assistant sheet's open/closed state and the file inputs' accept filters are not modelled.
- `AssistantChat.Exchange`: the studio customize form renders `<Avatar>` for assistant messages and for the pending reply but never imports it, so the sheet cannot render once a reply is pending or present. The modelled exchange is the handlers' state, not something a user sees.
- `Overview.CompletionPercent` is computed on exact reals, not on JavaScript floating point.
- The analytics, status, badges, templates, image-host and public profile pages are not modelled. The customize, links and settings page loaders are not modelled either.
