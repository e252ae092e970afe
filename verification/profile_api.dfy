/** The profile thunks: the form's profile record, its conversion to and
    from a profile row (links as bare URLs, classified back by domain), and
    the fetch, update and create calls built on the store. */
module ProfileApi {
  import opened Common
  import SocialLinks
  import Store

  datatype Theme = Theme(backgroundColor: string, textColor: string, accentColor: string)

  const DefaultTheme := Theme("#ffffff", "#000000", "#0000ff")

  datatype ProfileData = ProfileData(
    displayName: string,
    bio: string,
    avatar: string,
    socialLinks: SocialLinks.Links,
    theme: Theme,
    isPublic: bool)

  /** `profileDataToSupabase`: empty texts become null, the non-empty links
      become a URL list in slot order, and Channels is always empty. */
  function ToRow(creatorAddress: string, d: ProfileData): (r: Store.UserRow)
    ensures r.creatorId == creatorAddress
    ensures r.displayName.None? <==> d.displayName == ""
    ensures r.bio.None? <==> d.bio == ""
    ensures r.avatar.None? <==> d.avatar == ""
    ensures r.displayName.Some? ==> r.displayName.value == d.displayName
    ensures r.bio.Some? ==> r.bio.value == d.bio
    ensures r.avatar.Some? ==> r.avatar.value == d.avatar
    ensures |r.socialLinks| <= 4 && forall i :: 0 <= i < |r.socialLinks| ==> r.socialLinks[i] != ""
    ensures r.socialLinks == SocialLinks.UrlsFromLinks(d.socialLinks)
    ensures r.channels == []
  {
    Store.UserRow(creatorAddress, NonEmpty(d.displayName), NonEmpty(d.bio), NonEmpty(d.avatar),
                  SocialLinks.UrlsFromLinks(d.socialLinks), [])
  }

  /** `supabaseToProfileData`: no row gives no profile; null texts read as
      empty, links are classified by domain, the theme and visibility are
      fixed defaults. */
  function FromRow(row: Option<Store.UserRow>): (r: Option<ProfileData>)
    ensures r.None? <==> row.None?
    ensures r.Some? ==>
      && r.value.displayName == OrDefault(row.value.displayName, "")
      && r.value.bio == OrDefault(row.value.bio, "")
      && r.value.avatar == OrDefault(row.value.avatar, "")
      && r.value.theme == DefaultTheme && r.value.isPublic
  {
    match row
    case None => None
    case Some(u) =>
      Some(ProfileData(OrDefault(u.displayName, ""), OrDefault(u.bio, ""), OrDefault(u.avatar, ""),
                       SocialLinks.LinksFromUrls(u.socialLinks), DefaultTheme, true))
  }

  /** Writing a profile and reading it back gives the same texts, the
      non-empty links (when each names its own platform's domain), and the
      default theme and visibility. */
  lemma ProfileRoundTrip(creatorAddress: string, d: ProfileData)
    requires SocialLinks.WellClassified(d.socialLinks)
    ensures FromRow(Some(ToRow(creatorAddress, d))) ==
      Some(d.(socialLinks := SocialLinks.Normalize(d.socialLinks), theme := DefaultTheme, isPublic := true))
  {
    SocialLinks.UrlsRoundTrip(d.socialLinks);
  }

  /** A rejected thunk carries the error's message, or its own when that is empty. */
  function Rejection(m: string, fallback: string): (r: string)
    ensures m != "" ==> r == m
    ensures m == "" ==> r == fallback
  {
    if m == "" then fallback else m
  }

  /** `fetchProfile` */
  function FetchProfile(users: Store.Table<Store.UserRow>, creatorAddress: string, fault: Option<string>): (r: Result<Option<ProfileData>, string>)
    ensures r.Failure? <==> fault.Some?
    ensures r.Success? ==> r.value == FromRow(if creatorAddress in users then Some(users[creatorAddress]) else None)
  {
    match Store.GetUserProfile(users, creatorAddress, fault)
    case Failure(m) => Failure(Rejection(m, "Failed to fetch profile"))
    case Success(row) => Success(FromRow(row))
  }

  datatype ProfileStep = ProfileStep(result: Result<ProfileData, string>, users: Store.Table<Store.UserRow>)

  /** `updateProfile`: every column of the converted row is written, so the
      profile's Channels are overwritten with the empty list. */
  function UpdateProfile(users: Store.Table<Store.UserRow>, creatorAddress: string, d: ProfileData, fault: Option<string>): (s: ProfileStep)
    ensures s.result.Success? <==> fault.None? && creatorAddress in users
    ensures s.result.Failure? ==> s.users == users
    ensures s.result.Success? ==>
      && s.users == users[creatorAddress := ToRow(creatorAddress, d)]
      && s.result.value == FromRow(Some(ToRow(creatorAddress, d))).value
  {
    var row := ToRow(creatorAddress, d);
    var step := Store.UpdateUserProfile(users, creatorAddress, Store.FullPatch(row), fault);
    match step.result
    case Failure(m) => ProfileStep(Failure(Rejection(m, "Failed to update profile")), step.table)
    case Success(u) => ProfileStep(Success(FromRow(Some(u)).value), step.table)
  }

  /** Updating a profile unsubscribes its owner from every channel. */
  lemma UpdateProfileClearsChannels(users: Store.Table<Store.UserRow>, creatorAddress: string, d: ProfileData)
    requires creatorAddress in users
    ensures var s := UpdateProfile(users, creatorAddress, d, None);
      creatorAddress in s.users && s.users[creatorAddress].channels == []
  {
  }

  /** `createProfile`: upsert the converted row. */
  function CreateProfile(users: Store.Table<Store.UserRow>, creatorAddress: string, d: ProfileData,
                         readFault: Option<string>, writeFault: Option<string>): (s: ProfileStep)
    ensures s.result.Success? <==> readFault.None? && writeFault.None?
    ensures s.result.Failure? ==> s.users == users
    ensures s.result.Success? ==>
      && s.users == users[creatorAddress := ToRow(creatorAddress, d)]
      && s.result.value == FromRow(Some(ToRow(creatorAddress, d))).value
  {
    var row := ToRow(creatorAddress, d);
    var step := Store.UpsertUserProfile(users, row, readFault, writeFault);
    match step.result
    case Failure(m) => ProfileStep(Failure(Rejection(m, "Failed to create profile")), step.table)
    case Success(u) => ProfileStep(Success(FromRow(Some(u)).value), step.table)
  }

  /** Fetching right after a successful create or update returns what was
      saved, read back through the conversion. */
  lemma SavedProfileIsFetched(users: Store.Table<Store.UserRow>, creatorAddress: string, d: ProfileData)
    requires SocialLinks.WellClassified(d.socialLinks)
    ensures var s := CreateProfile(users, creatorAddress, d, None, None);
      FetchProfile(s.users, creatorAddress, None) ==
        Success(Some(d.(socialLinks := SocialLinks.Normalize(d.socialLinks), theme := DefaultTheme, isPublic := true)))
  {
    ProfileRoundTrip(creatorAddress, d);
  }
}
