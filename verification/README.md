# chainfrenTivi core, modelled in Dafny

chainfrenTivi is a creator streaming front end. Creators sign in with an
embedded or external wallet, set up a profile and one channel, go live, and
price their streams and recorded videos as free, one-time or monthly.
Viewers pay in SOL or USDC to pass a gate. The video service, the wallet
provider, the chain and the hosted database all sit behind SDKs. What is left
in the application is a set of sequential decision rules, and this project
models those rules and proves properties about them:

- **The pay-per-view gates**:
  - for a live stream (`StreamGate`), which also needs the store and the lamports floor;
  - for a recorded video (`AssetGate`);
  - for a creator's page, with its device-local payment record and 30-day monthly expiry (`CreatorGate`);
  - the gate modal of the player (`Player`).
- **The database service layer** (`Store`): the tables are `map`s keyed by playback id or wallet address. It covers:
  - the read-check-append writes (paid lists, subscriptions) and the update-or-create upsert;
  - lookups that return nothing for a missing row and throw on any other error;
  - the file-name sanitiser of image uploads.
- **The two social-link encodings** (`SocialLinks`):
  - one-key JSON objects on stream rows;
  - bare URLs on profile rows, classified back by domain substring.
- **The form validators**, each checking its rules in first-match order:
  - channel settings (`ChannelSettings`);
  - the username dialog (`UserSetup`);
  - the stream-session dialog (`StreamSetup`);
  - the avatar file checks (`UserSetup`, `ProfilePage`).
- **Identity selection** (`Identity`): the creator-address rule, login-method descriptions and address abbreviation.
- **Merging and filtering**:
  - enrichment of the video service's stream list with metadata rows (`StreamApi`);
  - the dashboard's channel and asset selection (`Dashboard`);
  - the creator page's listings (`CreatorPage`);
  - chat row mapping (`ChatApi`);
  - the broadcaster's `HH:MM:SS` session timer (`Broadcast`);
  - the public-profile link choice (`ProfileLink`).

Every external call is a parameter, never a guess. A database call that may
fail takes a `fault: Option<string>`. A call whose answer matters (the video
service, a wallet send, an upload, the uniqueness query) takes a `Result`. The
clock and device storage are explicit values too. JavaScript's truthiness is
written out: `Present`, `OrElse` and `OrDefault` model `x || y` on strings,
and `NumOr` models `x || 0` on numbers, where NaN and undefined are `None`.

`common.dfy` holds Option/Result and these helpers. It also models string
`trim`, the `find`/`filter` helpers and their lemmas, and the ASCII
case-insensitive comparison.

The model follows the code where it differs from the system's design notes:

- **Self-subscription.** There is no check against subscribing to oneself in
  the store; the page only hides the control (`CreatorPage.SelfSubscriptionOnlyHidden`).
- **Write failure after payment.** When the stream gate's paid-list write
  fails, access is granted in memory only. No local fallback record is
  written.
- **Case sensitivity.** The gates compare addresses ignoring case, but the
  store's membership test and the page listings are case-sensitive.
- **Username length message.** The username rule's message says "less than
  30 characters", yet 30 characters are accepted (`UserSetup.UsernameLengthBoundary`).
- **Chat column names.** The chat thunks read `stream_id`/`wallet_address`,
  while the declared row type names them `streamId`/`walletAddress`. The
  model uses the columns the thunks read.
- **Gate column names.** The row conversions of both the stream gate and the
  video gate read snake_case fields that the declared row types lack. The
  model takes the declared columns as what is read (see Left out).
- **JavaScript lengths.** String lengths and character-class replacements
  work on UTF-16 code units, so a character outside the Basic Multilingual
  Plane (an emoji) counts twice (`Common.Utf16Length`). This holds for the
  username and session-name length rules and the file-name sanitiser.

## Model

| member | source | states |
|---|---|---|
| Identity.CreatorAddress | src/components/templates/settings/ProfileCustomization.tsx:52-68 | the creator address, when present, is a non-empty wallet address |
| Identity.CreatorAddressIsFirstWallet | src/app/dashboard/profile/page.tsx:73-89 | the rule picks exactly the first linked account that is a wallet with an address, and yields nothing exactly when there is none |
| Identity.FindWalletIsFirst | src/components/templates/settings/ProfileCustomization.tsx:61-65 | `find` returns the address of the earliest wallet account with an address, and nothing exactly when none qualifies |
| Identity.Describe | src/app/dashboard/profile/page.tsx:35-48 | one account is described by its type: wallet (provider defaulting to "External", chain to "ethereum"), email, farcaster (name never empty), or the raw type |
| Identity.PrimaryLoginMethod | src/app/dashboard/profile/page.tsx:32-49 | the primary method is absent exactly when there are no linked accounts |
| Identity.LinkedAccountsView | src/app/dashboard/profile/page.tsx:52-69 | the linked list is empty for at most one account, else has one entry per account after the first |
| Identity.PrimaryAndLinkedCoverAll | src/app/dashboard/profile/page.tsx:32-69 | primary followed by linked describes every account exactly once, in order |
| Identity.FormatAddress | src/app/dashboard/profile/page.tsx:126-129 | empty exactly for an empty address; otherwise the first six characters, `...`, and the last four, 13 characters for an address of ten or more |
| Store.GetStreamByPlaybackId | src/lib/supabase-service.ts:85-101 | a missing stream row is a successful `null`; any other query error is thrown with a non-empty message |
| Store.GetVideoByPlaybackId | src/lib/supabase-service.ts:377-393 | the same null-versus-throw rule on the videos table |
| Store.GetUserProfile | src/lib/supabase-service.ts:220-236 | the same null-versus-throw rule on the users table |
| Store.AppendIfAbsent | src/lib/supabase-service.ts:188-196 | the element is in the result; a present element leaves the list unchanged and an absent one is appended at the end |
| Store.AppendIfAbsentIdempotent | src/lib/supabase-service.ts:188-196 | appending twice is appending once |
| Store.AppendIfAbsentCount | src/lib/supabase-service.ts:188-196 | after the append the element occurs once if it was absent, and as often as before otherwise |
| Store.AddPayingUserToStream | src/lib/supabase-service.ts:176-213 | an unknown playback id fails with "Stream not found"; a failure writes nothing; a listed address returns the row unchanged; otherwise the address is appended and only that row changes |
| Store.AddPayingUserToStreamIdempotent | src/lib/supabase-service.ts:188-206 | paying twice equals paying once, and the address then occurs exactly once if it was new |
| Store.AddPayingUserToStreamMonotone | src/lib/supabase-service.ts:188-206 | the paid list only grows: the old list is a prefix of the new one, whatever the faults |
| Store.StoreMembershipIsCaseSensitive | src/lib/supabase-service.ts:189 | an address differing only in letter case from a listed one is appended as a new entry |
| Store.AddPayingUserToVideo | src/lib/supabase-service.ts:452-489 | the same not-found, no-write-on-failure, idempotent append on the videos table, failing with "Video not found" |
| Store.AddPayingUserToVideoIdempotent | src/lib/supabase-service.ts:457-476 | paying for a video twice equals paying once |
| Store.UpdateUserProfile | src/lib/supabase-service.ts:258-274 | succeeds exactly when the query works and the row exists, and then writes the patched row back; a failure writes nothing |
| Store.CreateUserProfile | src/lib/supabase-service.ts:241-253 | succeeds exactly without a fault and then stores the row under its wallet address |
| Store.UpsertPath | src/lib/supabase-service.ts:280-291 | the update branch is taken exactly when a profile exists |
| Store.UpsertUserProfile | src/lib/supabase-service.ts:280-291 | an existing profile is overwritten with every given column; a missing one is created; either way the stored row is the given one |
| Store.UpsertFailureNamesPath | src/lib/supabase-service.ts:280-291 | a failing upsert fails with the message of the branch it took |
| Store.NewSubscriber | src/lib/supabase-service.ts:302-310 | a first subscription creates a profile whose only channel is the creator, with empty texts and links |
| Store.SubscribeToCreator | src/lib/supabase-service.ts:296-327 | no profile creates one subscribed to the creator; a listed creator returns the profile unchanged; otherwise the creator is appended to Channels; a failure writes nothing |
| Store.SubscribeIdempotent | src/lib/supabase-service.ts:314-326 | subscribing twice equals subscribing once |
| Store.SelfSubscriptionIsAccepted | src/lib/supabase-service.ts:296-327 | the store accepts a creator subscribing to themself |
| Store.FoundProfilesMembership | src/lib/supabase-service.ts:341-352 | a profile is in the result exactly when a listed channel's lookup found it |
| Store.FoundProfilesAppend | src/lib/supabase-service.ts:341-352 | the result follows Channels order: more channels only add profiles at the end |
| Store.GetSubscribedChannels | src/lib/supabase-service.ts:332-353 | a failed read of the viewer's own profile rejects; a missing profile or empty Channels gives `[]`; otherwise the found profiles in Channels order, a failed lookup of one creator being skipped, never more than there are channels |
| Store.SubscribedChannelsAreFoundChannels | src/lib/supabase-service.ts:332-353 | every returned profile is a stored profile of a subscribed channel |
| Store.CreateStream | src/lib/supabase-service.ts:68-80 | the insert stores the row under its playback id or fails and writes nothing |
| Store.UpdateStream | src/lib/supabase-service.ts:138-157 | the update applies the patch to an existing stream row and fails without writing for an unknown one |
| Store.ApplyStreamPatch | src/lib/supabase-service.ts:138-147 | every column the patch names takes the patch's value and every other column keeps the row's; the playback id, creator and users are never changed |
| Store.EmptyPatchKeepsRow | src/lib/supabase-service.ts:138-147 | a patch naming no column leaves the row unchanged |
| Store.PatchesCompose | src/lib/supabase-service.ts:138-147 | applying a patch twice equals applying it once, and on each of the eleven patchable columns a later patch wins when it names the column, the earlier result stays otherwise |
| Store.LaterPatchWinsText | src/lib/supabase-service.ts:138-147 | for title, stream name, description, logo and social links, a later patch wins when it names the column and the earlier result stays otherwise |
| Store.LaterPatchWinsPricing | src/lib/supabase-service.ts:138-147 | for view mode, amount, donations, stream mode, stream amount and recording, a later patch wins when it names the column and the earlier result stays otherwise |
| Common.Utf16Length | src/components/UserSetupModal.tsx:89-91 | `length` counts UTF-16 code units: at least the number of characters and at most twice it, equal to it without astral characters and twice it with only astral ones |
| Common.Utf16LengthAppend | src/components/UserSetupModal.tsx:89-91 | the UTF-16 length of a concatenation is the sum of the parts' lengths |
| Common.Trim | src/components/UserSetupModal.tsx:87-93 | `trim()`: the result is no longer than the input and starts and ends with a non-space character |
| Common.TrimCutsOnlyEdges | src/components/UserSetupModal.tsx:87-93 | `trim()` keeps a contiguous part of the input and cuts only white space before and after it |
| Common.Lower | src/components/templates/creator/CreatorProfile.tsx:89 | `toLowerCase()` keeps the length and lowers each character, ASCII capitals becoming small letters |
| Common.SameAddressCharwise | src/components/templates/creator/CreatorProfile.tsx:89 | two addresses compare equal after lowering exactly when they have equal length and agree character by character ignoring ASCII case |
| Store.SanitizeFileName | src/lib/supabase-service.ts:29 | the result is as long as the name's UTF-16 length, and every character is in `[A-Za-z0-9.-]` or is `_` |
| Store.SanitizeAppend | src/lib/supabase-service.ts:29 | the replacement works character by character: sanitising a concatenation concatenates the sanitised parts |
| Store.SanitizeAstral | src/lib/supabase-service.ts:29 | a character outside the Basic Multilingual Plane becomes two underscores, one per surrogate |
| Store.SanitizePointwise | src/lib/supabase-service.ts:29 | in a name of Basic Multilingual Plane characters, allowed characters stay in place and each other one becomes `_` |
| Store.SanitizeKeepsClean | src/lib/supabase-service.ts:29 | a name made only of allowed characters and `_` is left unchanged |
| Store.SanitizeFileNameProperties | src/lib/supabase-service.ts:29 | the result uses only allowed characters and `_`, and sanitising is idempotent |
| SocialLinks.ParseSocialLinks | src/components/templates/settings/ProfileCustomization.tsx:71-99 | a missing array gives no links |
| SocialLinks.ParseLaterEntryOverwrites | src/components/templates/settings/ProfileCustomization.tsx:80-90 | a later entry with a known key and a non-empty value sets that platform's slot and leaves the others; any other entry changes nothing |
| SocialLinks.ParseSkipsUnreadable | src/components/templates/settings/ProfileCustomization.tsx:74-95 | an unparsable or non-string entry leaves the parsed links unchanged |
| SocialLinks.ParseEntriesConcat | src/components/templates/settings/ProfileCustomization.tsx:74-95 | parsing a concatenation continues from the first part's links, so later entries overwrite earlier ones |
| SocialLinks.StringifySocialLinks | src/components/templates/settings/ProfileCustomization.tsx:102-117 | at most four entries, each a one-key object with a non-empty value |
| SocialLinks.PositionsFollowRank | src/components/templates/settings/ProfileCustomization.tsx:102-117 | of two non-empty slots, the one of the earlier platform (twitter, instagram, youtube, website) is written at the smaller index |
| SocialLinks.StringifyPlacesEachSlot | src/components/templates/settings/ProfileCustomization.tsx:102-117 | one entry per non-empty slot: a non-empty slot p is written as `{KeyOf(p): value}` at the index counting the non-empty slots before it; an empty slot's key never appears |
| SocialLinks.EntryAt | src/components/templates/settings/ProfileCustomization.tsx:102-117 | every written entry names a known platform whose slot is non-empty, carries that slot's value and sits at that platform's index |
| SocialLinks.StringifyKeepsRankOrder | src/components/templates/settings/ProfileCustomization.tsx:102-117 | the entries' platforms strictly increase in the order twitter, instagram, youtube, website |
| SocialLinks.StringifyThenParse | src/components/templates/settings/ProfileCustomization.tsx:71-117 | parsing what was stringified gives the links restricted to their non-empty slots |
| SocialLinks.ParsedLinksAreNormal | src/components/templates/settings/ProfileCustomization.tsx:86-90 | parsed links never hold an empty value, so a second round trip is the identity |
| SocialLinks.Classify | src/features/profileAPI.ts:55-65 | first match wins: twitter.com or x.com, then instagram.com, then youtube.com, and anything else is a website |
| SocialLinks.UrlsFromLinks | src/features/profileAPI.ts:33-37 | at most four URLs, none empty |
| SocialLinks.UrlsMatchEntries | src/features/profileAPI.ts:33-37 | the URL list has one URL per one-key entry of the stream encoding, and URL i is entry i's value |
| SocialLinks.UrlsPlaceEachSlot | src/features/profileAPI.ts:33-37 | a non-empty slot's URL is at the index counting the non-empty slots before it, and every URL is the value of a non-empty slot at its index: exactly the non-empty slots, in the order twitter, instagram, youtube, website |
| SocialLinks.LinksFromUrlsSlot | src/features/profileAPI.ts:53-65 | a slot is filled exactly when some URL classifies to it, and then holds the last such URL |
| SocialLinks.LinksFromUrls | src/features/profileAPI.ts:53-65 | every filled slot holds one of the given URLs, and that URL classifies to the slot's platform |
| SocialLinks.UrlsRoundTrip | src/features/profileAPI.ts:24-79 | writing links as URLs and classifying them back restores every non-empty slot, when each URL names its own platform's domain |
| SocialLinks.SubstringMatchMisreadsDomains | src/features/profileAPI.ts:56 | the test is a substring test: a dropbox.com link contains "x.com" and is read as the twitter link |
| ProfileApi.ToRow | src/features/profileAPI.ts:24-47 | empty name, bio and avatar become null and others are kept; the links column is the URL list of the non-empty slots in platform order; Channels is always empty |
| ProfileApi.FromRow | src/features/profileAPI.ts:50-79 | no row gives no profile; null texts read as empty; the theme is the fixed default and the profile is public |
| ProfileApi.ProfileRoundTrip | src/features/profileAPI.ts:24-79 | converting a profile to a row and back returns it with normalised links and the default theme, when each URL names its own platform's domain |
| ProfileApi.FetchProfile | src/features/profileAPI.ts:82-94 | fails exactly when the query fails; otherwise converts the stored row, or gives none |
| ProfileApi.UpdateProfile | src/features/profileAPI.ts:96-109 | succeeds exactly for an existing profile without a fault, writing the whole converted row |
| ProfileApi.UpdateProfileClearsChannels | src/features/profileAPI.ts:96-101 | an update overwrites the owner's subscriptions with the empty list |
| ProfileApi.CreateProfile | src/features/profileAPI.ts:111-124 | upserts the converted row; succeeds exactly without faults |
| ProfileApi.SavedProfileIsFetched | src/features/profileAPI.ts:82-124 | fetching right after a create returns what was saved, read back through the conversion |
| ChannelSettings.LoadChannel | src/components/templates/settings/ProfileCustomization.tsx:133-141 | the channel form is filled from the first stream row: title, else stream name; description; logo; parsed links |
| ChannelSettings.LoadPricing | src/components/templates/settings/ProfileCustomization.tsx:142-148 | the mode defaults to free, the amount to 0 and the presets to four zeros; recording reads as off |
| ChannelSettings.Load | src/components/templates/settings/ProfileCustomization.tsx:121-160 | a failed or empty fetch changes nothing; otherwise the first row fills the form and becomes the channel |
| ChannelSettings.ViewModeChange | src/components/templates/settings/ProfileCustomization.tsx:230-236 | switching to free zeroes the amount; another mode keeps it |
| ChannelSettings.DonationChange | src/components/templates/settings/ProfileCustomization.tsx:238-245 | only preset i changes, to the parsed number or 0 for non-numeric input; the length is kept |
| ChannelSettings.Validate | src/components/templates/settings/ProfileCustomization.tsx:275-297 | each field error is reported exactly when its rule fails: blank name, bio or logo, or a paid mode without a positive amount |
| ChannelSettings.ValidIff | src/components/templates/settings/ProfileCustomization.tsx:275-297 | the form is valid exactly when name, bio and logo each hold a non-space character and a paid mode has a positive amount |
| ChannelSettings.FreeNeedsNoAmount | src/components/templates/settings/ProfileCustomization.tsx:230-236 | after switching to free the amount rule never fires |
| ChannelSettings.UpdatePatch | src/components/templates/settings/ProfileCustomization.tsx:313-327 | the update writes the name to title and stream name, the stringified links, the presets, and a null amount for a free channel |
| ChannelSettings.CreateRequest | src/components/templates/settings/ProfileCustomization.tsx:329-345 | the first save creates a stream for the creator, sending amount 0 for a free channel |
| ChannelSettings.Save | src/components/templates/settings/ProfileCustomization.tsx:299-365 | no wallet refuses; an invalid form reports the errors; a valid one updates the loaded channel or creates the first one |
| ChannelSettings.FreeChannelStoresNullAmount | src/components/templates/settings/ProfileCustomization.tsx:322-338 | both save paths store a free channel's amount as null |
| ChannelSettings.SaveThenLoad | src/components/templates/settings/ProfileCustomization.tsx:121-345 | reloading an updated row gives back the form, with links normalised and a free amount reading as 0 |
| StreamApi.Metadata | src/features/streamAPI.ts:69-85 | the metadata row: mode defaults to free, the paid list starts empty, presets default to empty, and a falsy amount, description or logo is stored as null |
| StreamApi.CreateLivestream | src/features/streamAPI.ts:34-110 | succeeds exactly when both the video service and the metadata insert succeed; a failed insert rejects with the metadata prefix and writes nothing |
| StreamApi.CreatedStreamIsStoredFree | src/features/streamAPI.ts:69-108 | a stream created without mode or amount is found by its playback id as free, with a null amount and an empty paid list |
| StreamApi.IndexLastWins | src/features/streamAPI.ts:119-131 | the metadata index holds exactly the non-empty playback ids, each mapped to the last row that carries it |
| StreamApi.Index | src/features/streamAPI.ts:123-129 | every key of the metadata index is a non-empty playback id mapped to a row carrying that id |
| StreamApi.IndexDomain | src/features/streamAPI.ts:123-129 | the index holds exactly the non-empty playback ids some row carries |
| StreamApi.IndexOf | src/features/streamAPI.ts:115-131 | a failed metadata fetch gives the empty index |
| StreamApi.EnrichOne | src/features/streamAPI.ts:134-163 | no playback id or no match only defaults the logo to empty; a match takes logo, title (metadata title, then stream name, then the stream's name and title), description, mode, amount, paid list and presets from the metadata when truthy, else the stream, else the default (empty, free, 0, empty list) |
| StreamApi.Enrich | src/features/streamAPI.ts:134-163 | the list keeps its length, order, ids and playback ids |
| StreamApi.EnrichWithoutMetadata | src/features/streamAPI.ts:128-131 | after a failed metadata fetch every stream is unchanged but for its logo |
| StreamApi.EnrichIdempotent | src/features/streamAPI.ts:134-163 | a consistency property of the merge: enriching twice with the same metadata equals enriching once |
| StreamApi.EnrichUsesLastRow | src/features/streamAPI.ts:119-157 | a matched stream takes its paid list from the last metadata row with its playback id |
| StreamGate.FromRow | src/app/hook/useStreamGate.ts:44-59 | the conversion defaults the amount to 0 and the paid list to empty, and keeps mode and creator |
| StreamGate.Load | src/app/hook/useStreamGate.ts:35-74 | a free stream grants access at once; no row is "Stream not found" without access; a thrown error keeps its message; an empty id does nothing |
| StreamGate.CheckAccess | src/app/hook/useStreamGate.ts:77-94 | with a loaded paid stream and a key, access is granted exactly when the key is the creator or on the paid list ignoring case; no key changes nothing; access is never revoked |
| StreamGate.MarkPaid | src/app/hook/useStreamGate.ts:165-169 | grants exactly on case-insensitive membership of the paid list; never revokes |
| StreamGate.Lamports | src/app/hook/useStreamGate.ts:117-118 | the lamports are the floor of the SOL amount times 10^9 |
| StreamGate.LamportsPositiveIff | src/app/hook/useStreamGate.ts:117-121 | the lamports are positive exactly for at least one lamport's worth of SOL |
| StreamGate.ProcessPayment | src/app/hook/useStreamGate.ts:97-162 | skipped without a paid stream or with access; throws with nothing changed for a missing wallet or bad recipient; rejects a non-positive amount without sending; pays and grants access on a successful send; processing is off on every exit |
| StreamGate.PaymentUpdatesLists | src/app/hook/useStreamGate.ts:135-153 | after a send the in-memory list gains the key, without a duplicate check, exactly when the store write succeeded |
| StreamGate.PaidDespiteWriteFailure | src/app/hook/useStreamGate.ts:135-153 | access is granted even when the paid-list write fails |
| StreamGate.ReloadAfterPaymentGrants | src/app/hook/useStreamGate.ts:35-153 | after a payment whose write went through, reloading the stream and checking the same key grants access |
| AssetGate.FromRow | src/app/hook/useAssetGate.ts:30-38 | the amount defaults to 0 and the paid list and presets to empty |
| AssetGate.Load | src/app/hook/useAssetGate.ts:21-52 | a free video grants access; no row is "Video not found" without access; a thrown error keeps its message |
| AssetGate.MarkPaid | src/app/hook/useAssetGate.ts:56-61 | grants exactly on case-insensitive membership of the paid list; never revokes and changes nothing else |
| AssetGate.StoredPaymentOpensGate | src/app/hook/useAssetGate.ts:21-61 | an address the store recorded as paying opens the reloaded gate in any letter case |
| CreatorGate.FirstEmbedded | src/components/CreatorPaymentGate.tsx:44-48 | the chosen wallet is a listed embedded wallet |
| CreatorGate.FirstEmbeddedIsFirst | src/components/CreatorPaymentGate.tsx:44-48 | `find` returns the earliest embedded wallet, and nothing exactly when none is embedded |
| CreatorGate.WalletAddress | src/components/CreatorPaymentGate.tsx:40-70 | the embedded wallet's address first, then the first listed wallet's, then the first linked wallet account's, else none |
| CreatorGate.EmbeddedWalletPreferred | src/components/CreatorPaymentGate.tsx:40-70 | an embedded wallet is chosen even when an external one is listed first |
| CreatorGate.NoProviderWalletUsesAccounts | src/components/CreatorPaymentGate.tsx:58-69 | with no provider wallets the choice is exactly the first linked wallet account with an address |
| CreatorGate.AccessKey | src/components/CreatorPaymentGate.tsx:81 | the record key is `creator_access_` followed by the creator id |
| CreatorGate.CheckAccess | src/components/CreatorPaymentGate.tsx:73-95 | free always grants; otherwise a parsed record under the key grants for one-time, and for monthly exactly while unexpired; an unparsable or missing record grants nothing |
| CreatorGate.NewRecord | src/components/CreatorPaymentGate.tsx:162-173 | a monthly record expires 2 592 000 000 ms after payment; any other has no expiry |
| CreatorGate.NormalizeRecipient | src/components/CreatorPaymentGate.tsx:131-133 | `0x` is prepended only when absent, so the result always starts with `0x` |
| CreatorGate.NormalizeRecipientIdempotent | src/components/CreatorPaymentGate.tsx:131-133 | normalising twice is normalising once |
| CreatorGate.HandlePayment | src/components/CreatorPaymentGate.tsx:99-190 | refused, with nothing stored, exactly when not signed in, without a wallet or without a send function; on success the record is stored and access granted; on failure nothing is stored and access is unchanged; processing is reset |
| CreatorGate.EnabledButtonIsNotRefused | src/components/CreatorPaymentGate.tsx:265 | a click on an enabled pay button is never refused |
| CreatorGate.PaidRecordAdmits | src/components/CreatorPaymentGate.tsx:81-173 | after paying, a later check admits for one-time always and for monthly exactly within thirty days |
| CreatorGate.MonthlyAccessExpires | src/components/CreatorPaymentGate.tsx:88-90 | monthly access holds one millisecond before the thirty days end and not at the end |
| CreatorGate.OneTimeRecordDoesNotOpenMonthlyGate | src/components/CreatorPaymentGate.tsx:84-95 | a one-time record's null expiry does not admit a monthly gate |
| CreatorGate.Render | src/components/CreatorPaymentGate.tsx:193-203 | the content shows exactly when checking is over and the mode is free or access is held |
| CreatorGate.PaymentOpensContent | src/components/CreatorPaymentGate.tsx:99-203 | after a successful payment the gate renders the content in every mode unless a check is running; after a failed one the view is unchanged |
| CreatorPage.CurrentUserAddress | src/components/templates/creator/CreatorProfile.tsx:79-84 | the provider wallet's address when it is a Solana wallet with one, else the stored Solana address, else empty |
| CreatorPage.IsCreator | src/components/templates/creator/CreatorProfile.tsx:87-90 | the viewer is the creator when both addresses are non-empty and equal ignoring letter case |
| CreatorPage.ViewerIsCreatorIff | src/components/templates/creator/CreatorProfile.tsx:79-90 | the viewer owns the page exactly when the creator id is non-empty and matches, ignoring case, the Solana provider wallet's address or, without one, the stored Solana address; with neither the address is empty and the viewer is never the creator |
| CreatorPage.EmptyIsNeverCreator | src/components/templates/creator/CreatorProfile.tsx:87-90 | an empty side is never the creator |
| CreatorPage.LoadProfile | src/components/templates/creator/CreatorProfile.tsx:132-184 | no row is "Profile not found"; a thrown error keeps its message; a row loads with the default theme and zero counts |
| CreatorPage.PageAgreesWithProfileApi | src/components/templates/creator/CreatorProfile.tsx:140-169 | the page reads a profile row exactly as the profile thunks do, including the link classification |
| CreatorPage.CreatorStreams | src/components/templates/creator/CreatorProfile.tsx:204-208 | every listed stream has a playback id and this exact creator id |
| CreatorPage.CreatorStreamsExactly | src/components/templates/creator/CreatorProfile.tsx:204-208 | a stream is listed exactly when it has a playback id and this exact creator; the filter keeps list order |
| CreatorPage.CreatorAssets | src/components/templates/creator/CreatorProfile.tsx:209-212 | every listed asset has a playback id and this exact creator id |
| CreatorPage.CreatorAssetsExactly | src/components/templates/creator/CreatorProfile.tsx:209-212 | an asset is listed exactly when it has a playback id and this exact creator; order is kept |
| CreatorPage.ListingIsCaseSensitive | src/components/templates/creator/CreatorProfile.tsx:87-212 | a creator id differing in case is recognised as the creator but its streams are not listed |
| CreatorPage.HandleSubscribe | src/components/templates/creator/CreatorProfile.tsx:329-350 | a viewer who is not logged in gets the sign-up prompt and nothing is written; otherwise the store's subscription decides |
| CreatorPage.SelfSubscriptionOnlyHidden | src/components/templates/creator/CreatorProfile.tsx:408 | the creator never sees the subscribe control, yet a subscription to themself would be accepted |
| UserSetup.UsernameError | src/components/UserSetupModal.tsx:84-113 | the first failing rule's message, on the trimmed name: required, at least 3 and at most 30 UTF-16 code units, the character class, then uniqueness |
| UserSetup.UsernameAcceptedIff | src/components/UserSetupModal.tsx:87-106 | accepted exactly when the trimmed name has 3 to 30 characters of `[A-Za-z0-9_-]` and the uniqueness query answers true |
| UserSetup.UsernameLengthBoundary | src/components/UserSetupModal.tsx:91-92 | 30 characters pass the length rule and 31 fail it |
| UserSetup.AstralCountsTwice | src/components/UserSetupModal.tsx:87-94 | one emoji is too short, and two emoji pass the length rules but fail the character class |
| UserSetup.InnerSpaceIsRejected | src/components/UserSetupModal.tsx:93-94 | whitespace inside a name fails the character class |
| UserSetup.UniquenessFailureBlocks | src/components/UserSetupModal.tsx:102-105 | a failing uniqueness query is reported as an error |
| UserSetup.AvatarError | src/components/UserSetupModal.tsx:61-74 | a file is rejected exactly when it is not an image or is larger than 5 MiB, with the type checked first |
| UserSetup.Open | src/components/UserSetupModal.tsx:33-38 | opening the dialog clears the success flag |
| UserSetup.SelectAvatar | src/components/UserSetupModal.tsx:57-82 | no file does nothing; a rejected file only sets the error; an accepted file replaces the selection and preview |
| UserSetup.SelectAvatarKeepsSelectionValid | src/components/UserSetupModal.tsx:57-82 | a rejected file is never left selected |
| UserSetup.CloseHonoured | src/components/UserSetupModal.tsx:177-190 | a close request is honoured after a successful submit, ignored during first-time setup, and honoured otherwise |
| UserSetup.SetupRow | src/components/UserSetupModal.tsx:147-157 | the written row has the trimmed name and the avatar URL, and keeps the existing bio, links and Channels |
| UserSetup.Submit | src/components/UserSetupModal.tsx:115-172 | no wallet or an invalid username writes nothing; an empty upload answer stops; a save stores the row and marks the dialog submitted |
| UserSetup.SubmitPreservesProfile | src/components/UserSetupModal.tsx:147-157 | a successful submit keeps the subscriptions, links and bio of the existing profile |
| UserSetup.SavedDialogCloses | src/components/UserSetupModal.tsx:155-190 | after a successful submit the dialog can close, even during first-time setup |
| UserSetup.UniquenessFailureWritesNothing | src/components/UserSetupModal.tsx:97-123 | a failed uniqueness query stops the submit before any write |
| StreamSetup.FromRow | src/components/StreamSetupModal.tsx:39-46 | the session fields of a stream row |
| StreamSetup.LoadStream | src/components/StreamSetupModal.tsx:39-46 | loading defaults to an empty name, free mode, amount 0 and recording off; no stream changes nothing |
| StreamSetup.NameChange | src/components/StreamSetupModal.tsx:124-129 | typing a name clears the name error |
| StreamSetup.ModeChange | src/components/StreamSetupModal.tsx:149-154 | picking a mode clears the amount error and keeps the amount |
| StreamSetup.AmountChange | src/components/StreamSetupModal.tsx:178-184 | typing an amount stores the parsed number, or 0 for non-numeric input, and clears the amount error |
| StreamSetup.Validate | src/components/StreamSetupModal.tsx:48-68 | name rules on the trimmed name, first failure only (required, at least 3, at most 100 UTF-16 code units); a paid mode needs a positive amount |
| StreamSetup.ValidIff | src/components/StreamSetupModal.tsx:48-68 | valid exactly when the trimmed name has 3 to 100 UTF-16 code units and the mode is free or the amount positive; without emoji that is 3 to 100 characters, and more than fifty emoji are too long |
| StreamSetup.SessionPatch | src/components/StreamSetupModal.tsx:86-91 | the update sends the trimmed name, the mode and recording, and a null amount when free |
| StreamSetup.Confirm | src/components/StreamSetupModal.tsx:70-101 | a missing stream or playback id, or an invalid form, writes nothing; otherwise the store's update decides |
| StreamSetup.ConfirmThenLoad | src/components/StreamSetupModal.tsx:39-101 | reopening the dialog on the saved row gives back the confirmed session |
| StreamSetup.FreeSessionClearsAmount | src/components/StreamSetupModal.tsx:86-91 | a confirmed free session leaves no amount in the row |
| ProfilePage.AvatarOnlyProfile | src/app/dashboard/profile/page.tsx:184-191 | a created profile holds only the address and avatar, with empty links and Channels |
| ProfilePage.UploadAvatar | src/app/dashboard/profile/page.tsx:144-209 | no wallet, a non-image or an oversized file is refused before any upload; with a loaded profile only the avatar is updated, otherwise a profile is created |
| ProfilePage.AvatarUpdateKeepsProfile | src/app/dashboard/profile/page.tsx:177-181 | changing the avatar keeps the profile's name, bio, links and Channels |
| ProfilePage.SameChecksAsSetup | src/app/dashboard/profile/page.tsx:148-163 | a file the setup dialog rejects is rejected here with the same message |
| Dashboard.SelectedChannelId | src/components/templates/dashboard/Dashboard.tsx:48-51 | the URL's channel id when present, else the one kept in context |
| Dashboard.UrlChannelOverridesContext | src/components/templates/dashboard/Dashboard.tsx:48-51 | a URL channel id decides the selected channel whatever the context holds; without one the context id decides it |
| Dashboard.FilteredStreams | src/components/templates/dashboard/Dashboard.tsx:177-180 | empty without an address; otherwise never longer than the list |
| Dashboard.FindChannel | src/components/templates/dashboard/Dashboard.tsx:183-186 | the first stream with the playback id, and nothing exactly when none has it |
| Dashboard.SelectedChannel | src/components/templates/dashboard/Dashboard.tsx:183-186 | nothing without a selected id, else the first creator stream with that id |
| Dashboard.SelectedChannelIsOwn | src/components/templates/dashboard/Dashboard.tsx:177-186 | the selected channel is one of the creator's own streams and carries the selected id |
| Dashboard.ChannelAssets | src/components/templates/dashboard/Dashboard.tsx:189-196 | no assets without a selected channel or an address |
| Dashboard.FilteredAssets | src/components/templates/dashboard/Dashboard.tsx:199-202 | no assets without an address |
| Dashboard.ChannelAssetsAreCreatorAssets | src/components/templates/dashboard/Dashboard.tsx:189-202 | a selected channel's assets are exactly all of the creator's assets |
| Dashboard.CanCreateStream | src/components/templates/dashboard/Dashboard.tsx:205 | creation is offered exactly when loaded, without error and with no creator stream |
| Dashboard.CanCreateMeansNoOwnStream | src/components/templates/dashboard/Dashboard.tsx:177-205 | when creation is offered, no listed stream with a playback id belongs to the creator |
| Dashboard.CheckProfile | src/components/templates/dashboard/Dashboard.tsx:118-146 | skipped until signed in with an address; then first-time exactly for no profile, no display name or a failed lookup, which shows the dialog |
| Dashboard.CloseSetup | src/components/templates/dashboard/Dashboard.tsx:261-265 | closing is ignored for a first-time user and hides the dialog otherwise |
| Dashboard.SetupSucceeded | src/components/templates/dashboard/Dashboard.tsx:155-162 | after setup the user is no longer first-time and the dialog is hidden |
| Dashboard.RequestClose | src/components/templates/dashboard/Dashboard.tsx:261-265 | a close passes the dialog's own rule first, then the dashboard's |
| Dashboard.FirstTimeCannotClose | src/components/templates/dashboard/Dashboard.tsx:261-265 | a first-time user cannot dismiss the dialog |
| Dashboard.SetupEndsFirstTime | src/components/templates/dashboard/Dashboard.tsx:126-162 | after the dialog saved, the profile check finds a display name and the user is no longer first-time |
| Dashboard.ActiveStreamData | src/components/templates/dashboard/Dashboard.tsx:229-244 | present exactly while streaming with an active id and a stream that has a stream key and a playback id; the name is never empty and falls back to "Live Stream" |
| Dashboard.InitiateLiveVideo | src/components/templates/dashboard/Dashboard.tsx:207-220 | an empty id changes nothing; otherwise streaming starts for that id with the fetched stream as current, whether or not the fetch succeeded |
| Dashboard.StopStreaming | src/components/templates/dashboard/Dashboard.tsx:222-225 | stopping hides the broadcaster and clears the active id |
| Dashboard.GoLiveOnSelectedChannel | src/components/templates/dashboard/Dashboard.tsx:207-244 | going live on the selected channel, when the fetch returns that channel, hands the broadcaster a stream exactly when the channel has a stream key, with the selected playback id and one of the creator's own streams; after a stop there is none |
| ProfileLink.FetchedDisplayName | src/components/templates/dashboard/DashboardBroadcast.tsx:48-61 | only a non-empty stored display name is kept; an empty id or a failed lookup gives none |
| ProfileLink.TargetOf | src/components/templates/dashboard/DashboardBroadcast.tsx:89-93 | the link names the display name first, then the address, and there is no link exactly when both are missing |
| ProfileLink.TargetFollowsStore | src/components/templates/player/player/Player.tsx:64-84 | with a reachable store the link uses the stored display name when there is one; a failed lookup falls back to the address |
| Broadcast.DigitsRoundTrip | src/components/templates/dashboard/DashboardBroadcast.tsx:73-75 | the decimal text of a number reads back as the number |
| Broadcast.IntText | src/components/templates/dashboard/DashboardBroadcast.tsx:73-75 | `String(n)` of a whole number: the decimal digits for a non-negative one, a minus sign and at least one digit for a negative one |
| Broadcast.Pad2 | src/components/templates/dashboard/DashboardBroadcast.tsx:73-75 | `padStart(2, '0')`: a text of two or more characters is unchanged; a shorter one gets leading zeros up to exactly two characters, and the original text ends the result |
| Broadcast.Pad2RoundTrip | src/components/templates/dashboard/DashboardBroadcast.tsx:73-75 | a number below 100 pads to exactly two digits that read back as it |
| Broadcast.JsRem | src/components/templates/dashboard/DashboardBroadcast.tsx:73-74 | JavaScript's remainder keeps the sign of the dividend and is smaller in size than the divisor |
| Broadcast.Split | src/components/templates/dashboard/DashboardBroadcast.tsx:72-75 | for a non-negative elapsed time the hours are non-negative and minutes and seconds are below 60; for a negative one the hours are negative |
| Broadcast.SplitBounds | src/components/templates/dashboard/DashboardBroadcast.tsx:72-76 | for a non-negative elapsed time, minutes and seconds are below 60 and hours·3600 + minutes·60 + seconds is the whole seconds elapsed |
| Broadcast.FormatSessionTime | src/components/templates/dashboard/DashboardBroadcast.tsx:72-76 | the label is at least `HH:MM:SS` long and exactly eight characters for an elapsed time under 100 hours |
| Broadcast.FormatReadsBack | src/components/templates/dashboard/DashboardBroadcast.tsx:72-76 | the label is three colon-separated digit fields, the last two of two digits, that read back as the whole seconds elapsed |
| Broadcast.NegativeElapsedShowsSign | src/components/templates/dashboard/DashboardBroadcast.tsx:72-76 | a start in the future shows a minus sign in the hour field |
| Broadcast.ZeroIsReset | src/components/templates/dashboard/DashboardBroadcast.tsx:72-82 | zero elapsed reads `00:00:00`, the label shown when stopped |
| Broadcast.SetStarted | src/components/templates/dashboard/DashboardBroadcast.tsx:64-86 | starting reuses a stored start or takes now and stores it; stopping forgets it and resets the label |
| Broadcast.Tick | src/components/templates/dashboard/DashboardBroadcast.tsx:71-77 | a running timer's tick shows the time since the start; a stopped timer is unchanged |
| Broadcast.Mount | src/components/templates/dashboard/DashboardBroadcast.tsx:45-86 | mounting leaves the timer stopped, the stored start removed and the label reset |
| Broadcast.StartAfterMountOrStopIsNow | src/components/templates/dashboard/DashboardBroadcast.tsx:64-86 | after a reload or a stop, whatever device storage held, the next start takes that moment's clock reading and stores it |
| Broadcast.EndStream | src/components/templates/dashboard/DashboardBroadcast.tsx:110-116 | ending stops the timer and resets the label; the end callback runs exactly when one was given |
| Broadcast.BroadcasterMessage | src/components/templates/dashboard/DashboardBroadcast.tsx:118-124 | the broadcaster's message is trimmed and carries the full address as sender and wallet |
| Broadcast.BroadcasterShownInFull | src/components/templates/dashboard/DashboardBroadcast.tsx:118-124 | sent through the chat insert, the broadcaster's message is stored exactly when the insert succeeds and then comes back with the full address as sender and wallet and the trimmed text |
| Broadcast.ViewerSenderIsShortened | src/components/templates/player/player/Player.tsx:119-131 | a viewer writing from the creator's wallet (an address longer than eight characters) is shown under a different sender than the broadcaster, with the same wallet stored |
| Player.WalletAddress | src/components/templates/player/player/Player.tsx:52 | the first wallet's address, absent exactly when there is no wallet |
| Player.ShortSender | src/components/templates/player/player/Player.tsx:125-130 | the sender is the first five address characters and `...` |
| Player.ChatRequest | src/components/templates/player/player/Player.tsx:119-131 | nothing is sent exactly for a blank message or a viewer who is not connected; otherwise the trimmed message goes with the shortened sender and the full wallet |
| Player.ChatKeepsFullWallet | src/components/templates/player/player/Player.tsx:125-130 | for an address longer than five characters the sender is 8 characters starting with the address's first five, and the full address is stored beside it |
| Player.ModalIffPaymentRuns | src/components/templates/player/player/Player.tsx:170-183 | the payment modal shows exactly when the page body renders (not loading, no error) and the stream gate would take a payment |
| Player.ShowGateModal | src/components/templates/player/player/Player.tsx:399 | the payment modal covers the player only when loading is over and no error is set (the page returns early at lines 171 and 181 otherwise), access is not held and a loaded stream is not marked free (a stream without a mode is gated) |
| Player.LoadedPaidStreamShowsModal | src/components/templates/player/player/Player.tsx:399 | a freshly loaded stream that is not marked free puts the modal over the player |
| Player.ErrorHidesModal | src/components/templates/player/player/Player.tsx:180-183 | a failed or empty reload shows only the error, even while a stale gated stream is still held |
| Player.LoadedFreeStreamHasNoModal | src/components/templates/player/player/Player.tsx:399 | a loaded free stream never shows the modal |
| Player.PaymentSucceeded | src/components/templates/player/player/Player.tsx:409-414 | a successful payment grants access whatever the paid list says, and the modal closes |
| ChatApi.TimeOf | src/features/chatAPI.ts:27 | the time is the row's timestamp, else its creation time, else now |
| ChatApi.ToMessage | src/features/chatAPI.ts:22-31 | a missing id reads as empty; sender, message, stream and wallet are copied verbatim |
| ChatApi.InsertOf | src/lib/supabase-service.ts:496-502 | the insert maps the request's fields one to one and stamps `timestamp` with the sender's clock; id and `created_at` are left to the database |
| ChatApi.SendMessage | src/features/chatAPI.ts:34-48 | fails exactly when the insert fails; otherwise returns the inserted row as a message |
| ChatApi.SentMessageEchoesRequest | src/features/chatAPI.ts:34-48 | a sent message comes back with the request's text, sender, stream and wallet, timed by the sender's clock |
| ChatApi.MapMessages | src/features/chatAPI.ts:54-56 | the fetched rows map one to one, in order, keeping sender and message |
| ChatApi.FetchMessages | src/features/chatAPI.ts:51-58 | fails exactly when the query fails; otherwise keeps the row count |
| ChatApi.MapMessagesAppend | src/features/chatAPI.ts:54-56 | mapping commutes with concatenation, so more rows only add messages at the end |

## Left out

- Hosted services are parameters. The database, storage uploads, the wallet
  provider, the video service and the chain are not modelled; their answers
  are inputs (`fault` options and `Result` values). Query semantics, `.single()`
  details beyond "no row is an error" and `updated_at` stamps are not modelled.
- JavaScript's `toLowerCase` and `trim` are Unicode-aware. The model lowers
  ASCII letters only and trims ASCII whitespace and the no-break space.
- Floating point is not modelled. Amounts are reals; `parseFloat`'s NaN and an
  absent value are `None`. The USDC amount encoding (`parseUnits` of a
  six-decimal string) is not modelled, and neither is the duration label of
  the stream showcase.
- JSON parsing is abstracted. A stored link entry is a one-key object, an
  unparsable string or a non-string; a device-local payment record is parsed
  or unparsable.
- `encodeURIComponent` is not modelled. The profile link's target records
  which value is encoded.
- The username pattern is a character predicate, not a regular expression.
- The uniqueness query `isDisplayNameUnique` is an oracle (a `Result<bool>` input).
- Colour, font and theme columns other than the fixed default theme are not
  modelled.
- Polling intervals, effect ordering and re-renders are not modelled. Each
  effect is a function of the state and its inputs, and the timer's interval
  is the `Tick` function.
- The file reader that makes an avatar preview is not modelled. The preview
  is an input.
- StreamGate.FromRow: the hook reads snake_case `playback_id`/`view_mode`
  fields that the declared row type lacks. The model reads the declared
  columns as if those names matched.
- AssetGate.FromRow: the hook reads snake_case `playback_id`/`view_mode`
  fields that the declared video row type lacks. The model reads the declared
  columns as if those names matched.
- ChatApi.TimeOf: a time text is kept as text, not parsed into a date. The
  clock reading is one value for the whole fetch rather than one per row.
- Dashboard.ActiveStreamData: the `createdAt` field, taken from the clock, is
  not modelled.
- Dashboard.InitiateLiveVideo: the store slice that keeps the fetched stream
  is not part of this model; what it holds after the fetch is an input.
  `GoLiveOnSelectedChannel` takes the case where the fetch returns the
  selected channel's own record. The switch to the live-streams tab is not
  modelled.
- ChannelSettings.DonationChange: its index must be one of the presets
  rendered (`requires i < |f.donations|`); an out-of-range index is not
  modelled.
- Broadcast.SetStarted: the stored start is read back as a number; a stored
  value that is not a number is not modelled.
- The settings page's own avatar upload handler, the stream-details hook, the
  start and stop controls that call the video service, and reading recent
  chat messages are not modelled. They are thin wrappers around external
  calls or repeat rules modelled above.
- Copying and sharing links to the clipboard, toasts as side effects, and
  navigation are not modelled. Toast texts appear as outcome messages where
  the rules choose them.
- Presentational components (cards, sidebars, the showcase, the bottom
  navigation, layout and configuration) are not modelled. Some repeat the
  creator-address rule or the link parser modelled above.
