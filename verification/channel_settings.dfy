/** The channel settings form: a creator's channel is their first stream
    row. The form loads from it, edits the pricing mode, amount and donation
    presets, validates, and saves by updating that row or, on the first
    save, by creating the stream. */
module ChannelSettings {
  import opened Common
  import SocialLinks
  import Store
  import StreamApi

  /** The channel's public face: name, description, logo and links. */
  datatype ChannelForm = ChannelForm(displayName: string, bio: string, avatar: string, socialLinks: SocialLinks.Links)

  /** The pricing part of the form. The amount input turns anything that does
      not parse into 0, so the amount is always a number here. */
  datatype PricingForm = PricingForm(viewMode: ViewMode, amount: real, record: bool, donations: seq<real>)

  const EmptyChannel := ChannelForm("", "", "", SocialLinks.NoLinks)
  const InitialPricing := PricingForm(Free, 0.0, false, [0.0, 0.0, 0.0, 0.0])

  // ---------------------------------------------------------------------------
  // Loading

  /** The form filled from the creator's first stream row. */
  function LoadChannel(row: Store.StreamRow): (f: ChannelForm)
    ensures f.displayName == OrDefault(OrElse(row.title, Some(row.streamName)), "")
    ensures f.bio == OrDefault(row.description, "") && f.avatar == OrDefault(row.logo, "")
    ensures f.socialLinks == SocialLinks.ParseSocialLinks(row.socialLinks)
  {
    ChannelForm(OrDefault(OrElse(row.title, Some(row.streamName)), ""), OrDefault(row.description, ""),
                OrDefault(row.logo, ""), SocialLinks.ParseSocialLinks(row.socialLinks))
  }

  /** The pricing filled from the row: mode defaults to free, amount to 0,
      presets to four zeros; recording is not stored and reads as off. */
  function LoadPricing(row: Store.StreamRow): (f: PricingForm)
    ensures f.viewMode == row.viewMode.GetOr(Free)
    ensures f.amount == NumOr(row.amount, 0.0)
    ensures !f.record
    ensures f.donations == row.donations.GetOr([0.0, 0.0, 0.0, 0.0])
  {
    PricingForm(row.viewMode.GetOr(Free), NumOr(row.amount, 0.0), false, row.donations.GetOr([0.0, 0.0, 0.0, 0.0]))
  }

  datatype Settings = Settings(channel: ChannelForm, pricing: PricingForm, existing: Option<Store.StreamRow>)

  /** The load effect on the creator's streams: the first row, if any, fills
      the form and becomes the channel; a failed or empty fetch changes nothing. */
  function Load(st: Settings, fetched: Result<seq<Store.StreamRow>, string>): (r: Settings)
    ensures fetched.Failure? || fetched.value == [] ==> r == st
    ensures fetched.Success? && fetched.value != [] ==>
      r == Settings(LoadChannel(fetched.value[0]), LoadPricing(fetched.value[0]), Some(fetched.value[0]))
  {
    match fetched
    case Failure(_) => st
    case Success(rows) =>
      if rows == [] then st else Settings(LoadChannel(rows[0]), LoadPricing(rows[0]), Some(rows[0]))
  }

  // ---------------------------------------------------------------------------
  // Editing

  /** `handleViewModeChange`: switching to free zeroes the amount; any other
      mode keeps it. */
  function ViewModeChange(f: PricingForm, mode: ViewMode): (r: PricingForm)
    ensures r.viewMode == mode
    ensures mode == Free ==> r.amount == 0.0
    ensures mode != Free ==> r.amount == f.amount
    ensures r.record == f.record && r.donations == f.donations
  {
    f.(viewMode := mode, amount := if mode == Free then 0.0 else f.amount)
  }

  /** `handleDonationChange(i, v)` for the preset input at index i, where
      `parsed` is `parseFloat(v)` (None when it is not a number). */
  function DonationChange(f: PricingForm, i: nat, parsed: Option<real>): (r: PricingForm)
    requires i < |f.donations|
    ensures |r.donations| == |f.donations|
    ensures r.donations[i] == (if PresentNum(parsed) then parsed.value else 0.0)
    ensures forall j :: 0 <= j < |f.donations| && j != i ==> r.donations[j] == f.donations[j]
    ensures r == f.(donations := r.donations)
  {
    f.(donations := f.donations[i := NumOr(parsed, 0.0)])
  }

  // ---------------------------------------------------------------------------
  // Validation

  /** One optional message per field; every rule is checked. */
  datatype FormErrors = FormErrors(displayName: Option<string>, bio: Option<string>, avatar: Option<string>, amount: Option<string>)

  predicate Blank(s: string) {
    Trim(s) == []
  }

  function Validate(c: ChannelForm, p: PricingForm): (e: FormErrors)
    ensures e.displayName.Some? <==> Blank(c.displayName)
    ensures e.bio.Some? <==> Blank(c.bio)
    ensures e.avatar.Some? <==> Blank(c.avatar)
    ensures e.amount.Some? <==> p.viewMode != Free && p.amount <= 0.0
  {
    FormErrors(
      if Blank(c.displayName) then Some("Channel name is required") else None,
      if Blank(c.bio) then Some("Channel description is required") else None,
      if Blank(c.avatar) then Some("Channel logo is required") else None,
      if p.viewMode != Free && p.amount <= 0.0 then Some("Amount is required for paid streams") else None)
  }

  predicate Valid(c: ChannelForm, p: PricingForm) {
    Validate(c, p) == FormErrors(None, None, None, None)
  }

  /** The form is valid exactly when name, description and logo each have a
      non-blank character and a paid mode has a positive amount. */
  lemma ValidIff(c: ChannelForm, p: PricingForm)
    ensures Valid(c, p) <==>
      && (exists i :: 0 <= i < |c.displayName| && !IsSpace(c.displayName[i]))
      && (exists i :: 0 <= i < |c.bio| && !IsSpace(c.bio[i]))
      && (exists i :: 0 <= i < |c.avatar| && !IsSpace(c.avatar[i]))
      && (p.viewMode == Free || p.amount > 0.0)
  {
    TrimEmptyIffBlank(c.displayName);
    TrimEmptyIffBlank(c.bio);
    TrimEmptyIffBlank(c.avatar);
  }

  /** Switching to free always clears the amount rule. */
  lemma FreeNeedsNoAmount(c: ChannelForm, p: PricingForm)
    ensures Validate(c, ViewModeChange(p, Free)).amount.None?
  {
  }

  // ---------------------------------------------------------------------------
  // Saving

  /** What a save click does. */
  datatype SaveAction =
    | NoWallet
    | Invalid(errors: FormErrors)
    | UpdateChannel(playbackId: string, patch: Store.StreamPatch)
    | CreateChannel(props: StreamApi.CreateProps)

  /** The update written to an existing channel: the name goes to both title
      and stream name, and a free channel's amount is cleared to null. */
  function UpdatePatch(c: ChannelForm, p: PricingForm): (patch: Store.StreamPatch)
    ensures patch.amount == Some(if p.viewMode != Free then Some(p.amount) else None)
    ensures patch.viewMode == Some(Some(p.viewMode))
    ensures patch.title == Some(Some(c.displayName)) && patch.streamName == Some(c.displayName)
    ensures patch.socialLinks == Some(Some(SocialLinks.StringifySocialLinks(c.socialLinks)))
    ensures patch.donations == Some(Some(p.donations))
    ensures patch.streamMode.None? && patch.streamAmount.None? && patch.record.None?
  {
    Store.EmptyStreamPatch.(
      title := Some(Some(c.displayName)),
      streamName := Some(c.displayName),
      description := Some(Some(c.bio)),
      logo := Some(Some(c.avatar)),
      viewMode := Some(Some(p.viewMode)),
      amount := Some(if p.viewMode != Free then Some(p.amount) else None),
      socialLinks := Some(Some(SocialLinks.StringifySocialLinks(c.socialLinks))),
      donations := Some(Some(p.donations)))
  }

  /** The arguments of the first save's create: a free channel sends 0. */
  function CreateRequest(creatorAddress: string, c: ChannelForm, p: PricingForm): (props: StreamApi.CreateProps)
    ensures props.amount == Some(if p.viewMode != Free then p.amount else 0.0)
    ensures props.viewMode == Some(p.viewMode) && props.creatorId == creatorAddress
    ensures props.streamName == c.displayName && props.donation == Some(p.donations)
  {
    StreamApi.CreateProps(c.displayName, p.record, creatorAddress, Some(p.viewMode),
                          Some(if p.viewMode != Free then p.amount else 0.0), c.bio, c.avatar,
                          Some(p.donations), Some(SocialLinks.StringifySocialLinks(c.socialLinks)))
  }

  /** `handleSave`: no wallet, then validation, then update or create. */
  function Save(creatorAddress: Option<string>, st: Settings): (a: SaveAction)
    ensures a == NoWallet <==> !Present(creatorAddress)
    ensures a.Invalid? <==> Present(creatorAddress) && !Valid(st.channel, st.pricing)
    ensures a.Invalid? ==> a.errors == Validate(st.channel, st.pricing)
    ensures a.UpdateChannel? <==> Present(creatorAddress) && Valid(st.channel, st.pricing) && st.existing.Some?
    ensures a.UpdateChannel? ==> a.playbackId == st.existing.value.playbackId
    ensures a.CreateChannel? ==> a.props.creatorId == creatorAddress.value
  {
    if !Present(creatorAddress) then NoWallet
    else if !Valid(st.channel, st.pricing) then Invalid(Validate(st.channel, st.pricing))
    else match st.existing
      case Some(row) => UpdateChannel(row.playbackId, UpdatePatch(st.channel, st.pricing))
      case None => CreateChannel(CreateRequest(creatorAddress.value, st.channel, st.pricing))
  }

  /** Both save paths store a free channel's amount as null: the update
      clears it, and the create's 0 is turned into null by `amount || null`. */
  lemma FreeChannelStoresNullAmount(creatorAddress: string, c: ChannelForm, p: PricingForm,
                                    row: Store.StreamRow, created: StreamApi.Created)
    requires p.viewMode == Free
    ensures Store.ApplyStreamPatch(row, UpdatePatch(c, p)).amount.None?
    ensures StreamApi.Metadata(CreateRequest(creatorAddress, c, p), created).amount.None?
  {
  }

  /** A valid update round-trips through the stream row: reloading the saved
      row gives back the channel form (links restricted to their non-empty
      slots) and the pricing, with a free channel's amount reading as 0. */
  lemma SaveThenLoad(c: ChannelForm, p: PricingForm, row: Store.StreamRow)
    requires Valid(c, p)
    ensures var saved := Store.ApplyStreamPatch(row, UpdatePatch(c, p));
      && LoadChannel(saved) == c.(socialLinks := SocialLinks.Normalize(c.socialLinks))
      && LoadPricing(saved) == p.(amount := if p.viewMode == Free then 0.0 else p.amount, record := false)
  {
    var saved := Store.ApplyStreamPatch(row, UpdatePatch(c, p));
    SocialLinks.StringifyThenParse(c.socialLinks);
    assert c.displayName != "" by { assert Trim(c.displayName) != []; }
    assert c.bio != "" by { assert Trim(c.bio) != []; }
    assert c.avatar != "" by { assert Trim(c.avatar) != []; }
    assert saved.title == Some(c.displayName);
  }
}
