/** The public page of one creator: who is looking, the creator's profile
    with its links classified by domain, the creator's streams and assets,
    and the subscribe action. */
module CreatorPage {
  import opened Common
  import SocialLinks
  import Store
  import StreamApi
  import ProfileApi

  /** The authentication provider's wallet for the viewer. */
  datatype ViewerWallet = ViewerWallet(chainType: Option<string>, address: Option<string>)

  /** The viewer's address: the provider wallet's when it is a Solana wallet
      with an address, else the stored Solana address, else empty. */
  function CurrentUserAddress(wallet: Option<ViewerWallet>, storedSolana: Option<string>): (r: string)
    ensures wallet.Some? && wallet.value.chainType == Some("solana") && Present(wallet.value.address) ==>
      r == wallet.value.address.value
    ensures !(wallet.Some? && wallet.value.chainType == Some("solana") && Present(wallet.value.address)) ==>
      r == OrDefault(storedSolana, "")
  {
    if wallet.Some? && wallet.value.chainType == Some("solana") && Present(wallet.value.address) then wallet.value.address.value
    else OrDefault(storedSolana, "")
  }

  /** The viewer is the creator: both non-empty and equal ignoring case. */
  predicate IsCreator(viewer: string, creatorId: string) {
    viewer != "" && creatorId != "" && SameAddress(viewer, creatorId)
  }

  predicate IsLoggedIn(authenticated: bool, ready: bool, viewer: string) {
    authenticated && ready && viewer != ""
  }

  /** Whether the viewer owns the page: the Solana provider wallet's address
      when there is one, else the stored Solana address, compared ignoring
      letter case; without either the viewer is never the creator. */
  lemma ViewerIsCreatorIff(wallet: Option<ViewerWallet>, storedSolana: Option<string>, creatorId: string)
    ensures var solana := wallet.Some? && wallet.value.chainType == Some("solana") && Present(wallet.value.address);
      IsCreator(CurrentUserAddress(wallet, storedSolana), creatorId) <==>
        creatorId != "" &&
        if solana then SameAddress(wallet.value.address.value, creatorId)
        else Present(storedSolana) && SameAddress(storedSolana.value, creatorId)
    ensures !(wallet.Some? && wallet.value.chainType == Some("solana") && Present(wallet.value.address)) && !Present(storedSolana) ==>
      CurrentUserAddress(wallet, storedSolana) == "" && !IsCreator(CurrentUserAddress(wallet, storedSolana), creatorId)
  {
  }

  /** An empty side is never the creator, whatever the other side is. */
  lemma EmptyIsNeverCreator(x: string)
    ensures !IsCreator("", x) && !IsCreator(x, "")
  {
  }

  // ---------------------------------------------------------------------------
  // Profile

  datatype CreatorProfileData = CreatorProfileData(
    creatorId: string,
    displayName: string,
    bio: string,
    avatar: string,
    socialLinks: SocialLinks.Links,
    theme: ProfileApi.Theme,
    isVerified: bool,
    totalViews: nat,
    totalStreams: nat,
    totalVideos: nat)

  datatype PageLoad = Loaded(profile: CreatorProfileData) | PageError(message: string)

  /** The profile fetch: a row is converted with the same domain rule the
      profile thunks use, no row is "Profile not found", and a thrown error
      keeps its message. */
  function LoadProfile(fetched: Result<Option<Store.UserRow>, string>): (r: PageLoad)
    ensures fetched == Success(None) ==> r == PageError("Profile not found")
    ensures fetched.Failure? ==> r == PageError(if fetched.error == "" then "Failed to fetch creator profile" else fetched.error)
    ensures fetched.Success? && fetched.value.Some? ==>
      && r.Loaded? && r.profile.creatorId == fetched.value.value.creatorId
      && r.profile.theme == ProfileApi.DefaultTheme && !r.profile.isVerified
      && r.profile.totalViews == 0 && r.profile.totalStreams == 0 && r.profile.totalVideos == 0
  {
    match fetched
    case Failure(m) => PageError(if m == "" then "Failed to fetch creator profile" else m)
    case Success(None) => PageError("Profile not found")
    case Success(Some(u)) =>
      Loaded(CreatorProfileData(u.creatorId, OrDefault(u.displayName, ""), OrDefault(u.bio, ""), OrDefault(u.avatar, ""),
                                SocialLinks.LinksFromUrls(u.socialLinks), ProfileApi.DefaultTheme, false, 0, 0, 0))
  }

  /** The page reads a profile row exactly as the profile thunks do: same
      texts, same domain classification of the links. */
  lemma PageAgreesWithProfileApi(u: Store.UserRow)
    ensures var page := LoadProfile(Success(Some(u))).profile;
      var api := ProfileApi.FromRow(Some(u)).value;
      && page.displayName == api.displayName && page.bio == api.bio && page.avatar == api.avatar
      && page.socialLinks == api.socialLinks && page.theme == api.theme
  {
  }

  // ---------------------------------------------------------------------------
  // Streams and assets of this creator

  predicate OfCreatorStream(creatorId: string, s: StreamApi.LiveStream) {
    s.creatorId == Some(creatorId) && Present(s.playbackId)
  }

  predicate OfCreatorAsset(creatorId: string, a: StreamApi.Asset) {
    a.creatorId == Some(creatorId) && Present(a.playbackId)
  }

  function CreatorStreams(streams: seq<StreamApi.LiveStream>, creatorId: string): (r: seq<StreamApi.LiveStream>)
    ensures |r| <= |streams|
    ensures forall i :: 0 <= i < |r| ==> r[i].creatorId == Some(creatorId) && Present(r[i].playbackId)
  {
    Filter(streams, s => OfCreatorStream(creatorId, s))
  }

  function CreatorAssets(assets: seq<StreamApi.Asset>, creatorId: string): (r: seq<StreamApi.Asset>)
    ensures |r| <= |assets|
    ensures forall i :: 0 <= i < |r| ==> r[i].creatorId == Some(creatorId) && Present(r[i].playbackId)
  {
    Filter(assets, a => OfCreatorAsset(creatorId, a))
  }

  /** A stream is listed exactly when it is in the list, has a playback id
      and names this creator verbatim; the filter keeps list order. */
  lemma CreatorStreamsExactly(streams: seq<StreamApi.LiveStream>, more: seq<StreamApi.LiveStream>, creatorId: string, s: StreamApi.LiveStream)
    ensures s in CreatorStreams(streams, creatorId) <==> s in streams && s.creatorId == Some(creatorId) && Present(s.playbackId)
    ensures CreatorStreams(streams + more, creatorId) == CreatorStreams(streams, creatorId) + CreatorStreams(more, creatorId)
  {
    FilterMembership(streams, s => OfCreatorStream(creatorId, s), s);
    FilterAppend(streams, more, s => OfCreatorStream(creatorId, s));
  }

  lemma CreatorAssetsExactly(assets: seq<StreamApi.Asset>, more: seq<StreamApi.Asset>, creatorId: string, a: StreamApi.Asset)
    ensures a in CreatorAssets(assets, creatorId) <==> a in assets && a.creatorId == Some(creatorId) && Present(a.playbackId)
    ensures CreatorAssets(assets + more, creatorId) == CreatorAssets(assets, creatorId) + CreatorAssets(more, creatorId)
  {
    FilterMembership(assets, a => OfCreatorAsset(creatorId, a), a);
    FilterAppend(assets, more, a => OfCreatorAsset(creatorId, a));
  }

  /** Unlike the viewer check, the listing is case-sensitive: a stream whose
      creator id differs only in letter case is not listed. */
  lemma ListingIsCaseSensitive(s: StreamApi.LiveStream)
    requires s.creatorId == Some("ABC") && Present(s.playbackId)
    ensures CreatorStreams([s], "abc") == [] && IsCreator("ABC", "abc")
  {
    assert !OfCreatorStream("abc", s);
  }

  // ---------------------------------------------------------------------------
  // Subscribing

  datatype SubscribeOutcome = ShowSignup | MissingAddress | Subscribed(profile: Store.UserRow) | SubscribeFailed(message: string)

  datatype SubscribeStep = SubscribeStep(outcome: SubscribeOutcome, users: Store.Table<Store.UserRow>)

  /** `handleSubscribe`: a viewer who is not logged in is shown the sign-up
      prompt and nothing is written; otherwise the store subscribes them. */
  function HandleSubscribe(authenticated: bool, ready: bool, viewer: string, creatorId: string,
                           users: Store.Table<Store.UserRow>, readFault: Option<string>, writeFault: Option<string>): (s: SubscribeStep)
    ensures !IsLoggedIn(authenticated, ready, viewer) ==> s == SubscribeStep(ShowSignup, users)
    ensures IsLoggedIn(authenticated, ready, viewer) ==>
      var w := Store.SubscribeToCreator(users, viewer, creatorId, readFault, writeFault);
      && s.users == w.table
      && (w.result.Success? ==> s.outcome == Subscribed(w.result.value))
      && (w.result.Failure? ==> s.outcome.SubscribeFailed?)
  {
    if !IsLoggedIn(authenticated, ready, viewer) then SubscribeStep(ShowSignup, users)
    else if viewer == "" then SubscribeStep(MissingAddress, users)
    else
      var w := Store.SubscribeToCreator(users, viewer, creatorId, readFault, writeFault);
      match w.result
      case Success(row) => SubscribeStep(Subscribed(row), w.table)
      case Failure(m) => SubscribeStep(SubscribeFailed(if m == "" then "Failed to subscribe" else m), w.table)
  }

  /** The subscribe control is rendered only for a viewer who is not the creator. */
  predicate SubscribeShown(viewer: string, creatorId: string) {
    !IsCreator(viewer, creatorId)
  }

  /** Self-subscription is prevented only by hiding the control: the creator,
      in any letter case, never sees it, yet the store would accept the call. */
  lemma SelfSubscriptionOnlyHidden(viewer: string, creatorId: string, users: Store.Table<Store.UserRow>)
    requires viewer != "" && SameAddress(viewer, creatorId) && creatorId != ""
    ensures !SubscribeShown(viewer, creatorId)
    ensures HandleSubscribe(true, true, viewer, viewer, users, None, None).outcome.Subscribed?
  {
  }
}
