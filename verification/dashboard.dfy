/** The creator dashboard: which channel is selected, which streams and
    assets are the creator's, whether a new stream may be created, the
    first-time profile prompt, and the data handed to the broadcaster. */
module Dashboard {
  import opened Common
  import Store
  import StreamApi
  import CreatorPage
  import UserSetup

  // ---------------------------------------------------------------------------
  // Channel selection

  /** The channel id from the URL query, else the one kept in context. */
  function SelectedChannelId(urlChannelId: Option<string>, contextChannelId: Option<string>): (r: Option<string>)
    ensures Present(urlChannelId) ==> r == urlChannelId
    ensures !Present(urlChannelId) ==> r == contextChannelId
  {
    OrElse(urlChannelId, contextChannelId)
  }

  /** The creator's streams: none without an address, else those with a
      playback id whose creator id is exactly the address, in list order. */
  function FilteredStreams(streams: seq<StreamApi.LiveStream>, creatorAddress: Option<string>): (r: seq<StreamApi.LiveStream>)
    ensures !Present(creatorAddress) ==> r == []
    ensures |r| <= |streams|
  {
    if !Present(creatorAddress) then [] else CreatorPage.CreatorStreams(streams, creatorAddress.value)
  }

  /** Row i is the first whose playback id is `id`. */
  predicate FirstChannelAt(streams: seq<StreamApi.LiveStream>, id: string, i: int) {
    0 <= i < |streams| && streams[i].playbackId == Some(id) && forall j :: 0 <= j < i ==> streams[j].playbackId != Some(id)
  }

  /** `find` by playback id: the first match, or nothing. */
  function FindChannel(streams: seq<StreamApi.LiveStream>, id: string): (r: Option<StreamApi.LiveStream>)
    ensures r.None? <==> forall i :: 0 <= i < |streams| ==> streams[i].playbackId != Some(id)
    ensures r.Some? ==> exists i :: FirstChannelAt(streams, id, i) && r.value == streams[i]
  {
    if streams == [] then None
    else if streams[0].playbackId == Some(id) then
      assert FirstChannelAt(streams, id, 0);
      Some(streams[0])
    else
      var r := FindChannel(streams[1..], id);
      if r.Some? then
        var i :| FirstChannelAt(streams[1..], id, i) && r.value == streams[1..][i];
        assert FirstChannelAt(streams, id, i + 1);
        r
      else
        assert forall i :: 1 <= i < |streams| ==> streams[i] == streams[1..][i - 1];
        r
  }

  /** The selected channel: nothing without a selected id, else the first of
      the creator's streams with that playback id. */
  function SelectedChannel(selectedId: Option<string>, filtered: seq<StreamApi.LiveStream>): (r: Option<StreamApi.LiveStream>)
    ensures !Present(selectedId) ==> r.None?
    ensures Present(selectedId) ==> r == FindChannel(filtered, selectedId.value)
  {
    if !Present(selectedId) then None else FindChannel(filtered, selectedId.value)
  }

  /** A channel id in the URL decides the selection, whatever the context
      holds; without one the context's id decides it. */
  lemma UrlChannelOverridesContext(urlChannelId: Option<string>, contextChannelId: Option<string>,
                                   filtered: seq<StreamApi.LiveStream>)
    ensures Present(urlChannelId) ==>
      SelectedChannel(SelectedChannelId(urlChannelId, contextChannelId), filtered) == FindChannel(filtered, urlChannelId.value)
    ensures !Present(urlChannelId) ==>
      SelectedChannel(SelectedChannelId(urlChannelId, contextChannelId), filtered) == SelectedChannel(contextChannelId, filtered)
  {
  }

  /** The selected channel is always one of the creator's own streams, and
      carries the selected id. */
  lemma SelectedChannelIsOwn(streams: seq<StreamApi.LiveStream>, creatorAddress: Option<string>, selectedId: Option<string>)
    ensures var filtered := FilteredStreams(streams, creatorAddress);
      var r := SelectedChannel(selectedId, filtered);
      r.Some? ==>
        && r.value in filtered && r.value in streams
        && r.value.playbackId == selectedId
        && r.value.creatorId == creatorAddress
  {
    var filtered := FilteredStreams(streams, creatorAddress);
    var r := SelectedChannel(selectedId, filtered);
    if r.Some? {
      var i :| FirstChannelAt(filtered, selectedId.value, i) && r.value == filtered[i];
      CreatorPage.CreatorStreamsExactly(streams, [], creatorAddress.value, r.value);
    }
  }

  // ---------------------------------------------------------------------------
  // Assets

  /** The assets of the selected channel: none without a channel or an
      address; else the creator's assets whose creator also matches the
      channel's. */
  function ChannelAssets(assets: seq<StreamApi.Asset>, selected: Option<StreamApi.LiveStream>, creatorAddress: Option<string>): (r: seq<StreamApi.Asset>)
    ensures selected.None? || !Present(creatorAddress) ==> r == []
    ensures |r| <= |assets|
  {
    if selected.None? || !Present(creatorAddress) then []
    else Filter(assets, (a: StreamApi.Asset) =>
      Present(a.playbackId) && a.creatorId == creatorAddress && a.creatorId == selected.value.creatorId)
  }

  /** All of the creator's assets. */
  function FilteredAssets(assets: seq<StreamApi.Asset>, creatorAddress: Option<string>): (r: seq<StreamApi.Asset>)
    ensures !Present(creatorAddress) ==> r == []
  {
    if !Present(creatorAddress) then [] else CreatorPage.CreatorAssets(assets, creatorAddress.value)
  }

  /** The channel's third condition is redundant: a selected channel is the
      creator's own, so its assets are exactly all of the creator's assets. */
  lemma ChannelAssetsAreCreatorAssets(assets: seq<StreamApi.Asset>, streams: seq<StreamApi.LiveStream>,
                                      creatorAddress: Option<string>, selectedId: Option<string>)
    requires SelectedChannel(selectedId, FilteredStreams(streams, creatorAddress)).Some?
    ensures var selected := SelectedChannel(selectedId, FilteredStreams(streams, creatorAddress));
      ChannelAssets(assets, selected, creatorAddress) == FilteredAssets(assets, creatorAddress)
  {
    var selected := SelectedChannel(selectedId, FilteredStreams(streams, creatorAddress));
    SelectedChannelIsOwn(streams, creatorAddress, selectedId);
    var addr := creatorAddress.value;
    FilterCongruent(assets,
      (a: StreamApi.Asset) => Present(a.playbackId) && a.creatorId == creatorAddress && a.creatorId == selected.value.creatorId,
      (a: StreamApi.Asset) => CreatorPage.OfCreatorAsset(addr, a));
  }

  // ---------------------------------------------------------------------------
  // Creating a stream

  /** Creation is offered only once the list has loaded without error and
      shows none of the creator's streams. */
  function CanCreateStream(loading: bool, error: Option<string>, filtered: seq<StreamApi.LiveStream>): (ok: bool)
    ensures ok <==> !loading && !Present(error) && filtered == []
  {
    !loading && !Present(error) && |filtered| == 0
  }

  /** When creation is offered, no loaded stream with a playback id belongs
      to the creator: the one-channel-per-creator rule as the dashboard sees it. */
  lemma CanCreateMeansNoOwnStream(streams: seq<StreamApi.LiveStream>, addr: string, s: StreamApi.LiveStream)
    requires addr != ""
    requires CanCreateStream(false, None, FilteredStreams(streams, Some(addr)))
    requires s in streams && Present(s.playbackId)
    ensures s.creatorId != Some(addr)
  {
    CreatorPage.CreatorStreamsExactly(streams, [], addr, s);
  }

  // ---------------------------------------------------------------------------
  // First-time profile prompt

  /** Whether the user is treated as first-time and whether the setup dialog
      is shown. */
  datatype Prompt = Prompt(isFirstTime: bool, showSetup: bool)

  const NoPrompt := Prompt(false, false)

  /** The profile check: skipped until signed in with an address; otherwise
      a missing profile, a profile without a display name, or a failed lookup
      all make the user first-time and show the dialog. */
  function CheckProfile(st: Prompt, ready: bool, authenticated: bool, creatorAddress: Option<string>,
                        lookup: Result<Option<Store.UserRow>, string>): (r: Prompt)
    ensures !ready || !authenticated || !Present(creatorAddress) ==> r == st
    ensures ready && authenticated && Present(creatorAddress) ==>
      && (r.isFirstTime <==> lookup.Failure? || lookup.value.None? || !Present(lookup.value.value.displayName))
      && (r.isFirstTime ==> r.showSetup)
      && (!r.isFirstTime ==> r.showSetup == st.showSetup)
  {
    if !ready || !authenticated || !Present(creatorAddress) then st
    else match lookup
      case Failure(_) => Prompt(true, true)
      case Success(profile) =>
        var first := profile.None? || !Present(profile.value.displayName);
        Prompt(first, if first then true else st.showSetup)
  }

  /** The dashboard's `onClose` for the dialog: ignored for a first-time user. */
  function CloseSetup(st: Prompt): (r: Prompt)
    ensures st.isFirstTime ==> r == st
    ensures !st.isFirstTime ==> !r.showSetup
  {
    if !st.isFirstTime then st.(showSetup := false) else st
  }

  /** `handleProfileSetupSuccess`: no longer first-time, dialog hidden. */
  function SetupSucceeded(st: Prompt): (r: Prompt)
    ensures !r.isFirstTime && !r.showSetup
  {
    Prompt(false, false)
  }

  /** A close request as the dialog passes it on: the dialog's own rule, then
      the dashboard's. */
  function RequestClose(st: Prompt, submitted: bool): (r: Prompt)
    ensures UserSetup.CloseHonoured(submitted, st.isFirstTime) ==> r == CloseSetup(st)
    ensures !UserSetup.CloseHonoured(submitted, st.isFirstTime) ==> r == st
  {
    if UserSetup.CloseHonoured(submitted, st.isFirstTime) then CloseSetup(st) else st
  }

  /** A first-time user cannot dismiss the dialog, whatever the dialog says. */
  lemma FirstTimeCannotClose(st: Prompt, submitted: bool)
    requires st.isFirstTime
    ensures RequestClose(st, submitted).showSetup == st.showSetup
  {
  }

  /** Once the setup dialog has saved, checking the profile again finds a
      display name: the user is no longer first-time. */
  lemma SetupEndsFirstTime(form: UserSetup.SetupForm, addr: string, world: UserSetup.SubmitWorld,
                           users: Store.Table<Store.UserRow>, st: Prompt)
    requires addr != ""
    requires UserSetup.Submit(form, Some(addr), world, users).outcome.Saved?
    ensures var after := UserSetup.Submit(form, Some(addr), world, users).users;
      !CheckProfile(st, true, true, Some(addr), Store.GetUserProfile(after, addr, None)).isFirstTime
  {
    UserSetup.UsernameAcceptedIff(form.displayName, world.unique);
  }

  // ---------------------------------------------------------------------------
  // Broadcasting

  /** What the broadcaster is given for the live stream. */
  datatype ActiveStream = ActiveStream(id: string, streamKey: string, playbackId: string, name: string, isActive: bool)

  /** `activeStreamData`: only while streaming, with an active id and a
      fetched stream that has a stream key and a playback id; the name falls
      back to the title and then to "Live Stream". */
  function ActiveStreamData(isStreaming: bool, activeStreamId: Option<string>, current: Option<StreamApi.LiveStream>): (r: Option<ActiveStream>)
    ensures r.Some? <==>
      isStreaming && Present(activeStreamId) && current.Some?
      && Present(current.value.streamKey) && Present(current.value.playbackId)
    ensures r.Some? ==>
      && r.value.streamKey == current.value.streamKey.value
      && r.value.playbackId == current.value.playbackId.value
      && r.value.name != ""
      && (Present(current.value.name) ==> r.value.name == current.value.name.value)
  {
    if !isStreaming || !Present(activeStreamId) || current.None? then None
    else
      var s := current.value;
      if Present(s.streamKey) && Present(s.playbackId) then
        Some(ActiveStream(s.id, s.streamKey.value, s.playbackId.value,
                          OrDefault(OrElse(s.name, s.title), "Live Stream"), s.isActive))
      else None
  }

  /** The going-live state: whether the broadcaster is shown, the id it was
      started for, and the stream the store holds after fetching it. */
  datatype LiveSession = LiveSession(isStreaming: bool, activeStreamId: Option<string>, current: Option<StreamApi.LiveStream>)

  /** `initiateLiveVideo(id)`: an empty id does nothing. Otherwise the stream
      is fetched and streaming starts for that id; a dispatched fetch does not
      throw, so this happens whether or not the fetch succeeded. `fetched` is
      the current stream the store holds afterwards. */
  function InitiateLiveVideo(st: LiveSession, id: string, fetched: Option<StreamApi.LiveStream>): (r: LiveSession)
    ensures id == "" ==> r == st
    ensures id != "" ==> r.isStreaming && r.activeStreamId == Some(id) && r.current == fetched
  {
    if id == "" then st else LiveSession(true, Some(id), fetched)
  }

  /** `handleStopStreaming`: the broadcaster is hidden and the active id cleared. */
  function StopStreaming(st: LiveSession): (r: LiveSession)
    ensures !r.isStreaming && r.activeStreamId.None? && r.current == st.current
  {
    st.(isStreaming := false, activeStreamId := None)
  }

  /** Going live on the selected channel, when the fetch returns that
      channel's own record, hands the broadcaster a stream of the creator's
      with the selected playback id, exactly when the channel has a stream
      key; after a stop there is no active stream. */
  lemma GoLiveOnSelectedChannel(streams: seq<StreamApi.LiveStream>, creatorAddress: Option<string>,
                                selectedId: Option<string>, st: LiveSession)
    ensures var sel := SelectedChannel(selectedId, FilteredStreams(streams, creatorAddress));
      sel.Some? && sel.value.id != "" ==>
        var live := InitiateLiveVideo(st, sel.value.id, sel);
        var a := ActiveStreamData(live.isStreaming, live.activeStreamId, live.current);
        && (a.Some? <==> Present(sel.value.streamKey))
        && (a.Some? ==> Some(a.value.playbackId) == selectedId && a.value.id == sel.value.id
                        && sel.value.creatorId == creatorAddress && sel.value in streams)
    ensures var live := StopStreaming(st);
      ActiveStreamData(live.isStreaming, live.activeStreamId, live.current).None?
  {
    SelectedChannelIsOwn(streams, creatorAddress, selectedId);
  }
}
