/** The hosted-database service layer: rows of the `streams`, `videos` and
    `users` tables as maps keyed by playback id or wallet address, and the
    read-check-write helpers built on them. Every database call may fail; its
    failure is an input (`fault`), never a guess. */
module Store {
  import opened Common
  import SocialLinks

  datatype StreamRow = StreamRow(
    playbackId: string,
    creatorId: string,
    viewMode: Option<ViewMode>,
    amount: Option<real>,
    streamName: string,
    description: Option<string>,
    logo: Option<string>,
    title: Option<string>,
    socialLinks: Option<seq<SocialLinks.LinkEntry>>,
    users: Option<seq<string>>,
    donations: Option<seq<real>>,
    streamMode: Option<ViewMode>,
    streamAmount: Option<real>,
    record: Option<bool>)

  datatype VideoRow = VideoRow(
    playbackId: string,
    viewMode: Option<ViewMode>,
    amount: Option<real>,
    assetName: string,
    creatorId: string,
    users: Option<seq<string>>,
    donations: Option<seq<real>>)

  /** A profile row; a null array column reads as the empty array everywhere
      the application touches it, so the arrays are plain sequences here. */
  datatype UserRow = UserRow(
    creatorId: string,
    displayName: Option<string>,
    bio: Option<string>,
    avatar: Option<string>,
    socialLinks: seq<string>,
    channels: seq<string>)

  type Table<T> = map<string, T>

  /** The outcome of a call that may write: its result and the table afterwards. */
  datatype Step<T> = Step(result: Result<T, string>, table: Table<T>)

  // ---------------------------------------------------------------------------
  // Lookups: a missing row is `null`, any other query error is thrown.

  function Lookup<T>(table: Table<T>, key: string, fault: Option<string>, what: string): (r: Result<Option<T>, string>)
    ensures r.Failure? <==> fault.Some?
    ensures r.Success? ==> (r.value.Some? <==> key in table)
    ensures r.Success? && key in table ==> r.value == Some(table[key])
  {
    if fault.Some? then Failure("Failed to fetch " + what + ": " + fault.value)
    else if key in table then Success(Some(table[key]))
    else Success(None)
  }

  function GetStreamByPlaybackId(streams: Table<StreamRow>, id: string, fault: Option<string>): (r: Result<Option<StreamRow>, string>)
    ensures fault.None? ==> r == Success(if id in streams then Some(streams[id]) else None)
    ensures fault.Some? ==> r.Failure? && r.error != ""
  {
    Lookup(streams, id, fault, "stream")
  }

  function GetVideoByPlaybackId(videos: Table<VideoRow>, id: string, fault: Option<string>): (r: Result<Option<VideoRow>, string>)
    ensures fault.None? ==> r == Success(if id in videos then Some(videos[id]) else None)
    ensures fault.Some? ==> r.Failure? && r.error != ""
  {
    Lookup(videos, id, fault, "video")
  }

  function GetUserProfile(users: Table<UserRow>, id: string, fault: Option<string>): (r: Result<Option<UserRow>, string>)
    ensures fault.None? ==> r == Success(if id in users then Some(users[id]) else None)
    ensures fault.Some? ==> r.Failure? && r.error != ""
  {
    Lookup(users, id, fault, "user profile")
  }

  // ---------------------------------------------------------------------------
  // Paid-address lists

  /** `list.includes(x) ? list : [...list, x]`: exact, case-sensitive membership. */
  function AppendIfAbsent(list: seq<string>, x: string): (r: seq<string>)
    ensures x in r
    ensures x in list ==> r == list
    ensures x !in list ==> r == list + [x]
  {
    if x in list then list else list + [x]
  }

  lemma AppendIfAbsentIdempotent(list: seq<string>, x: string)
    ensures AppendIfAbsent(AppendIfAbsent(list, x), x) == AppendIfAbsent(list, x)
  {
  }

  /** After the append, x occurs once if it was absent and as often as before otherwise. */
  lemma AppendIfAbsentCount(list: seq<string>, x: string)
    ensures Count(AppendIfAbsent(list, x), x) == if x in list then Count(list, x) else 1
  {
    if x !in list {
      CountAppend(list, [x], x);
      assert Count([x], x) == 1 + Count([x][1..], x);
    }
  }

  function UsersOf(row: StreamRow): seq<string> {
    row.users.GetOr([])
  }

  /** `addPayingUserToStream`: fetch, check, append and write back. */
  function AddPayingUserToStream(streams: Table<StreamRow>, id: string, addr: string, readFault: Option<string>, writeFault: Option<string>): (s: Step<StreamRow>)
    ensures s.result.Failure? ==> s.table == streams
    ensures readFault.None? && id !in streams ==> s.result == Failure("Stream not found")
    ensures s.result.Success? ==>
      && id in streams && readFault.None? && id in s.table
      && s.result.value == s.table[id]
      && UsersOf(s.table[id]) == AppendIfAbsent(UsersOf(streams[id]), addr)
      && s.table[id] == streams[id].(users := s.table[id].users)
      && s.table == streams[id := s.table[id]]
    ensures readFault.None? && writeFault.None? && id in streams ==> s.result.Success?
    ensures readFault.None? && id in streams && addr in UsersOf(streams[id]) ==> s == Step(Success(streams[id]), streams)
  {
    match GetStreamByPlaybackId(streams, id, readFault)
    case Failure(e) => Step(Failure(e), streams)
    case Success(None) => Step(Failure("Stream not found"), streams)
    case Success(Some(row)) =>
      var current := UsersOf(row);
      if addr in current then Step(Success(row), streams)
      else if writeFault.Some? then Step(Failure("Failed to add paying user: " + writeFault.value), streams)
      else
        var row' := row.(users := Some(current + [addr]));
        Step(Success(row'), streams[id := row'])
  }

  /** Paying twice is paying once. */
  lemma AddPayingUserToStreamIdempotent(streams: Table<StreamRow>, id: string, addr: string)
    requires id in streams
    ensures var once := AddPayingUserToStream(streams, id, addr, None, None);
      AddPayingUserToStream(once.table, id, addr, None, None) == Step(once.result, once.table)
    ensures var once := AddPayingUserToStream(streams, id, addr, None, None);
      Count(UsersOf(once.table[id]), addr) == if addr in UsersOf(streams[id]) then Count(UsersOf(streams[id]), addr) else 1
  {
    AppendIfAbsentCount(UsersOf(streams[id]), addr);
  }

  /** The paid list only grows: the old list is a prefix of the new one. */
  lemma AddPayingUserToStreamMonotone(streams: Table<StreamRow>, id: string, addr: string, rf: Option<string>, wf: Option<string>)
    requires id in streams
    ensures var s := AddPayingUserToStream(streams, id, addr, rf, wf);
      id in s.table && UsersOf(streams[id]) <= UsersOf(s.table[id])
  {
  }

  /** Membership in the store is case-sensitive: a case variant of a listed
      address is appended as a new entry. */
  lemma StoreMembershipIsCaseSensitive()
    ensures var row := StreamRow("p", "c", Some(OneTime), Some(1.0), "s", None, None, None, None, Some(["abc"]), None, None, None, None);
      var s := AddPayingUserToStream(map["p" := row], "p", "ABC", None, None);
      UsersOf(s.table["p"]) == ["abc", "ABC"]
  {
  }

  function VideoUsersOf(row: VideoRow): seq<string> {
    row.users.GetOr([])
  }

  /** `addPayingUserToVideo`: the same fetch-check-append on the videos table. */
  function AddPayingUserToVideo(videos: Table<VideoRow>, id: string, addr: string, readFault: Option<string>, writeFault: Option<string>): (s: Step<VideoRow>)
    ensures s.result.Failure? ==> s.table == videos
    ensures readFault.None? && id !in videos ==> s.result == Failure("Video not found")
    ensures s.result.Success? ==>
      && id in videos && readFault.None? && id in s.table
      && s.result.value == s.table[id]
      && VideoUsersOf(s.table[id]) == AppendIfAbsent(VideoUsersOf(videos[id]), addr)
      && s.table[id] == videos[id].(users := s.table[id].users)
      && s.table == videos[id := s.table[id]]
    ensures readFault.None? && writeFault.None? && id in videos ==> s.result.Success?
    ensures readFault.None? && id in videos && addr in VideoUsersOf(videos[id]) ==> s == Step(Success(videos[id]), videos)
  {
    match GetVideoByPlaybackId(videos, id, readFault)
    case Failure(e) => Step(Failure(e), videos)
    case Success(None) => Step(Failure("Video not found"), videos)
    case Success(Some(row)) =>
      var current := VideoUsersOf(row);
      if addr in current then Step(Success(row), videos)
      else if writeFault.Some? then Step(Failure("Failed to add paying user: " + writeFault.value), videos)
      else
        var row' := row.(users := Some(current + [addr]));
        Step(Success(row'), videos[id := row'])
  }

  lemma AddPayingUserToVideoIdempotent(videos: Table<VideoRow>, id: string, addr: string)
    requires id in videos
    ensures var once := AddPayingUserToVideo(videos, id, addr, None, None);
      AddPayingUserToVideo(once.table, id, addr, None, None) == Step(once.result, once.table)
    ensures var once := AddPayingUserToVideo(videos, id, addr, None, None);
      Count(VideoUsersOf(once.table[id]), addr) == if addr in VideoUsersOf(videos[id]) then Count(VideoUsersOf(videos[id]), addr) else 1
  {
    AppendIfAbsentCount(VideoUsersOf(videos[id]), addr);
  }

  // ---------------------------------------------------------------------------
  // Profiles

  /** A partial update of a profile row; an absent field is left alone. */
  datatype UserPatch = UserPatch(
    creatorId: Option<string>,
    displayName: Option<Option<string>>,
    bio: Option<Option<string>>,
    avatar: Option<Option<string>>,
    socialLinks: Option<seq<string>>,
    channels: Option<seq<string>>)

  const EmptyPatch := UserPatch(None, None, None, None, None, None)

  function ApplyPatch(row: UserRow, p: UserPatch): (r: UserRow)
    ensures r.creatorId == p.creatorId.GetOr(row.creatorId)
    ensures r.displayName == p.displayName.GetOr(row.displayName)
    ensures r.bio == p.bio.GetOr(row.bio)
    ensures r.avatar == p.avatar.GetOr(row.avatar)
    ensures r.socialLinks == p.socialLinks.GetOr(row.socialLinks)
    ensures r.channels == p.channels.GetOr(row.channels)
  {
    row.(creatorId := p.creatorId.GetOr(row.creatorId),
         displayName := p.displayName.GetOr(row.displayName),
         bio := p.bio.GetOr(row.bio),
         avatar := p.avatar.GetOr(row.avatar),
         socialLinks := p.socialLinks.GetOr(row.socialLinks),
         channels := p.channels.GetOr(row.channels))
  }

  /** The patch that writes every column of `data`, as `upsertUserProfile`
      passes the whole insert object to the update. */
  function FullPatch(data: UserRow): (p: UserPatch)
    ensures forall row: UserRow :: ApplyPatch(row, p) == data
  {
    UserPatch(Some(data.creatorId), Some(data.displayName), Some(data.bio), Some(data.avatar), Some(data.socialLinks), Some(data.channels))
  }

  /** `updateUserProfile`: `.single()` on no matching row is an error. */
  function UpdateUserProfile(users: Table<UserRow>, id: string, p: UserPatch, fault: Option<string>): (s: Step<UserRow>)
    ensures s.result.Failure? ==> s.table == users
    ensures s.result.Success? <==> fault.None? && id in users
    ensures s.result.Success? ==> s.result.value == ApplyPatch(users[id], p) && s.table == users[id := s.result.value]
  {
    if fault.Some? then Step(Failure("Failed to update user profile: " + fault.value), users)
    else if id !in users then Step(Failure("Failed to update user profile: no row"), users)
    else
      var row := ApplyPatch(users[id], p);
      Step(Success(row), users[id := row])
  }

  /** `createUserProfile`: insert the row under its wallet address. */
  function CreateUserProfile(users: Table<UserRow>, data: UserRow, fault: Option<string>): (s: Step<UserRow>)
    ensures s.result.Failure? <==> fault.Some?
    ensures s.result.Failure? ==> s.table == users
    ensures s.result.Success? ==> s.result.value == data && s.table == users[data.creatorId := data]
  {
    if fault.Some? then Step(Failure("Failed to create user profile: " + fault.value), users)
    else Step(Success(data), users[data.creatorId := data])
  }

  datatype WritePath = UpdatePath | CreatePath

  /** Which branch `upsertUserProfile` takes. */
  function UpsertPath(users: Table<UserRow>, data: UserRow): (w: WritePath)
    ensures w == UpdatePath <==> data.creatorId in users
  {
    if data.creatorId in users then UpdatePath else CreatePath
  }

  /** `upsertUserProfile`: look the profile up, then update it or create it. */
  function UpsertUserProfile(users: Table<UserRow>, data: UserRow, readFault: Option<string>, writeFault: Option<string>): (s: Step<UserRow>)
    ensures s.result.Failure? ==> s.table == users
    ensures s.result.Success? <==> readFault.None? && writeFault.None?
    ensures s.result.Success? ==> s.result.value == data && s.table == users[data.creatorId := data]
  {
    match GetUserProfile(users, data.creatorId, readFault)
    case Failure(e) => Step(Failure(e), users)
    case Success(Some(_)) => UpdateUserProfile(users, data.creatorId, FullPatch(data), writeFault)
    case Success(None) => CreateUserProfile(users, data, writeFault)
  }

  /** A failed write reports the branch it was on. */
  lemma UpsertFailureNamesPath(users: Table<UserRow>, data: UserRow, m: string)
    ensures UpsertUserProfile(users, data, None, Some(m)).result ==
      Failure((if UpsertPath(users, data) == UpdatePath then "Failed to update user profile: " else "Failed to create user profile: ") + m)
  {
  }

  /** The profile `subscribeToCreator` creates for a viewer without one. */
  function NewSubscriber(viewer: string, creatorId: string): (r: UserRow)
    ensures r.creatorId == viewer && r.channels == [creatorId]
    ensures r.displayName.None? && r.bio.None? && r.avatar.None? && r.socialLinks == []
  {
    UserRow(viewer, None, None, None, [], [creatorId])
  }

  /** `subscribeToCreator`: add a creator to the viewer's Channels, creating
      the profile when there is none. There is no self-subscription check. */
  function SubscribeToCreator(users: Table<UserRow>, viewer: string, creatorId: string, readFault: Option<string>, writeFault: Option<string>): (s: Step<UserRow>)
    ensures s.result.Failure? ==> s.table == users
    ensures s.result.Success? <==> readFault.None? && (writeFault.None? || (viewer in users && creatorId in users[viewer].channels))
    ensures s.result.Success? ==>
      && viewer in s.table && s.result.value == s.table[viewer]
      && s.table == users[viewer := s.table[viewer]]
      && creatorId in s.table[viewer].channels
    ensures s.result.Success? && viewer !in users ==> s.table[viewer] == NewSubscriber(viewer, creatorId)
    ensures s.result.Success? && viewer in users ==>
      s.table[viewer] == users[viewer].(channels := AppendIfAbsent(users[viewer].channels, creatorId))
  {
    match GetUserProfile(users, viewer, readFault)
    case Failure(e) => Step(Failure(e), users)
    case Success(None) => CreateUserProfile(users, NewSubscriber(viewer, creatorId), writeFault)
    case Success(Some(profile)) =>
      if creatorId in profile.channels then Step(Success(profile), users)
      else UpdateUserProfile(users, viewer, EmptyPatch.(channels := Some(profile.channels + [creatorId])), writeFault)
  }

  lemma SubscribeIdempotent(users: Table<UserRow>, viewer: string, creatorId: string)
    ensures var once := SubscribeToCreator(users, viewer, creatorId, None, None);
      SubscribeToCreator(once.table, viewer, creatorId, None, None) == once
  {
  }

  /** A viewer can subscribe to themself: the store does not refuse it. */
  lemma SelfSubscriptionIsAccepted(users: Table<UserRow>, viewer: string)
    ensures var s := SubscribeToCreator(users, viewer, viewer, None, None);
      s.result.Success? && viewer in s.table[viewer].channels
  {
  }

  /** The profiles found for a list of creator ids, in list order; a lookup
      that finds nothing or fails (`failing`) is dropped. */
  function FoundProfiles(users: Table<UserRow>, ids: seq<string>, failing: set<string>): (r: seq<UserRow>)
    ensures |r| <= |ids|
  {
    if ids == [] then []
    else
      var head := if ids[0] in users && ids[0] !in failing then [users[ids[0]]] else [];
      head + FoundProfiles(users, ids[1..], failing)
  }

  lemma {:induction false} FoundProfilesMembership(users: Table<UserRow>, ids: seq<string>, failing: set<string>, row: UserRow)
    ensures row in FoundProfiles(users, ids, failing) <==>
      exists i :: 0 <= i < |ids| && ids[i] in users && ids[i] !in failing && users[ids[i]] == row
  {
    if ids != [] {
      FoundProfilesMembership(users, ids[1..], failing, row);
      if exists i :: 0 <= i < |ids| && ids[i] in users && ids[i] !in failing && users[ids[i]] == row {
        var i :| 0 <= i < |ids| && ids[i] in users && ids[i] !in failing && users[ids[i]] == row;
        if i > 0 {
          assert ids[1..][i - 1] == ids[i];
        }
      }
      if exists i :: 0 <= i < |ids[1..]| && ids[1..][i] in users && ids[1..][i] !in failing && users[ids[1..][i]] == row {
        var i :| 0 <= i < |ids[1..]| && ids[1..][i] in users && ids[1..][i] !in failing && users[ids[1..][i]] == row;
        assert ids[i + 1] == ids[1..][i];
      }
    }
  }

  lemma {:induction false} FoundProfilesAppend(users: Table<UserRow>, a: seq<string>, b: seq<string>, failing: set<string>)
    ensures FoundProfiles(users, a + b, failing) == FoundProfiles(users, a, failing) + FoundProfiles(users, b, failing)
  {
    if a == [] {
      assert a + b == b;
    } else {
      assert (a + b)[1..] == a[1..] + b;
      FoundProfilesAppend(users, a[1..], b, failing);
    }
  }

  /** `getSubscribedChannels`: [] without a profile or channels; otherwise the
      creators' profiles in Channels order, skipping missing or failed lookups.
      Only a failure of the viewer's own lookup is reported. */
  function GetSubscribedChannels(users: Table<UserRow>, viewer: string, readFault: Option<string>, failing: set<string>): (r: Result<seq<UserRow>, string>)
    ensures r.Failure? <==> readFault.Some?
    ensures r.Success? && (viewer !in users || users[viewer].channels == []) ==> r.value == []
    ensures r.Success? && viewer in users ==> |r.value| <= |users[viewer].channels|
    ensures r.Success? && viewer in users && users[viewer].channels != [] ==>
      r.value == FoundProfiles(users, users[viewer].channels, failing)
  {
    match GetUserProfile(users, viewer, readFault)
    case Failure(e) => Failure(e)
    case Success(None) => Success([])
    case Success(Some(profile)) =>
      if profile.channels == [] then Success([])
      else Success(FoundProfiles(users, profile.channels, failing))
  }

  /** A profile is listed exactly when one of the viewer's channels finds it. */
  lemma SubscribedChannelsAreFoundChannels(users: Table<UserRow>, viewer: string, failing: set<string>, row: UserRow)
    requires viewer in users
    ensures var cs := users[viewer].channels;
      row in GetSubscribedChannels(users, viewer, None, failing).value <==>
      exists i :: 0 <= i < |cs| && cs[i] in users && cs[i] !in failing && users[cs[i]] == row
  {
    FoundProfilesMembership(users, users[viewer].channels, failing, row);
  }

  // ---------------------------------------------------------------------------
  // Streams: create and update

  /** `createStream`: insert under the playback id. */
  function CreateStream(streams: Table<StreamRow>, row: StreamRow, fault: Option<string>): (s: Step<StreamRow>)
    ensures s.result.Failure? <==> fault.Some?
    ensures s.result.Failure? ==> s.table == streams
    ensures s.result.Success? ==> s.result.value == row && s.table == streams[row.playbackId := row]
  {
    if fault.Some? then Step(Failure("Failed to create stream: " + fault.value), streams)
    else Step(Success(row), streams[row.playbackId := row])
  }

  /** A partial update of a stream row; an absent field is left alone. */
  datatype StreamPatch = StreamPatch(
    title: Option<Option<string>>,
    streamName: Option<string>,
    description: Option<Option<string>>,
    logo: Option<Option<string>>,
    viewMode: Option<Option<ViewMode>>,
    amount: Option<Option<real>>,
    socialLinks: Option<Option<seq<SocialLinks.LinkEntry>>>,
    donations: Option<Option<seq<real>>>,
    streamMode: Option<Option<ViewMode>>,
    streamAmount: Option<Option<real>>,
    record: Option<Option<bool>>)

  const EmptyStreamPatch := StreamPatch(None, None, None, None, None, None, None, None, None, None, None)

  function ApplyStreamPatch(row: StreamRow, p: StreamPatch): (r: StreamRow)
    ensures r.playbackId == row.playbackId && r.creatorId == row.creatorId && r.users == row.users
    ensures r.streamName == p.streamName.GetOr(row.streamName)
    ensures r.amount == p.amount.GetOr(row.amount)
    ensures r.viewMode == p.viewMode.GetOr(row.viewMode)
    ensures r.streamAmount == p.streamAmount.GetOr(row.streamAmount)
    ensures r.streamMode == p.streamMode.GetOr(row.streamMode)
    ensures r.title == p.title.GetOr(row.title) && r.description == p.description.GetOr(row.description)
    ensures r.logo == p.logo.GetOr(row.logo) && r.socialLinks == p.socialLinks.GetOr(row.socialLinks)
    ensures r.donations == p.donations.GetOr(row.donations) && r.record == p.record.GetOr(row.record)
  {
    row.(title := p.title.GetOr(row.title),
         streamName := p.streamName.GetOr(row.streamName),
         description := p.description.GetOr(row.description),
         logo := p.logo.GetOr(row.logo),
         viewMode := p.viewMode.GetOr(row.viewMode),
         amount := p.amount.GetOr(row.amount),
         socialLinks := p.socialLinks.GetOr(row.socialLinks),
         donations := p.donations.GetOr(row.donations),
         streamMode := p.streamMode.GetOr(row.streamMode),
         streamAmount := p.streamAmount.GetOr(row.streamAmount),
         record := p.record.GetOr(row.record))
  }

  /** A patch that names no column leaves the row as it was. */
  lemma EmptyPatchKeepsRow(row: StreamRow)
    ensures ApplyStreamPatch(row, EmptyStreamPatch) == row
  {
  }

  /** A later patch wins on each descriptive column it names; the others
      keep the earlier patch's result. */
  lemma LaterPatchWinsText(row: StreamRow, p: StreamPatch, q: StreamPatch)
    ensures q.title.Some? ==> ApplyStreamPatch(ApplyStreamPatch(row, p), q).title == q.title.value
    ensures q.title.None? ==> ApplyStreamPatch(ApplyStreamPatch(row, p), q).title == ApplyStreamPatch(row, p).title
    ensures q.streamName.Some? ==> ApplyStreamPatch(ApplyStreamPatch(row, p), q).streamName == q.streamName.value
    ensures q.streamName.None? ==> ApplyStreamPatch(ApplyStreamPatch(row, p), q).streamName == ApplyStreamPatch(row, p).streamName
    ensures q.description.Some? ==> ApplyStreamPatch(ApplyStreamPatch(row, p), q).description == q.description.value
    ensures q.description.None? ==> ApplyStreamPatch(ApplyStreamPatch(row, p), q).description == ApplyStreamPatch(row, p).description
    ensures q.logo.Some? ==> ApplyStreamPatch(ApplyStreamPatch(row, p), q).logo == q.logo.value
    ensures q.logo.None? ==> ApplyStreamPatch(ApplyStreamPatch(row, p), q).logo == ApplyStreamPatch(row, p).logo
    ensures q.socialLinks.Some? ==> ApplyStreamPatch(ApplyStreamPatch(row, p), q).socialLinks == q.socialLinks.value
    ensures q.socialLinks.None? ==> ApplyStreamPatch(ApplyStreamPatch(row, p), q).socialLinks == ApplyStreamPatch(row, p).socialLinks
  {
  }

  /** A later patch wins on each pricing and recording column it names; the
      others keep the earlier patch's result. */
  lemma LaterPatchWinsPricing(row: StreamRow, p: StreamPatch, q: StreamPatch)
    ensures q.viewMode.Some? ==> ApplyStreamPatch(ApplyStreamPatch(row, p), q).viewMode == q.viewMode.value
    ensures q.viewMode.None? ==> ApplyStreamPatch(ApplyStreamPatch(row, p), q).viewMode == ApplyStreamPatch(row, p).viewMode
    ensures q.amount.Some? ==> ApplyStreamPatch(ApplyStreamPatch(row, p), q).amount == q.amount.value
    ensures q.amount.None? ==> ApplyStreamPatch(ApplyStreamPatch(row, p), q).amount == ApplyStreamPatch(row, p).amount
    ensures q.donations.Some? ==> ApplyStreamPatch(ApplyStreamPatch(row, p), q).donations == q.donations.value
    ensures q.donations.None? ==> ApplyStreamPatch(ApplyStreamPatch(row, p), q).donations == ApplyStreamPatch(row, p).donations
    ensures q.streamMode.Some? ==> ApplyStreamPatch(ApplyStreamPatch(row, p), q).streamMode == q.streamMode.value
    ensures q.streamMode.None? ==> ApplyStreamPatch(ApplyStreamPatch(row, p), q).streamMode == ApplyStreamPatch(row, p).streamMode
    ensures q.streamAmount.Some? ==> ApplyStreamPatch(ApplyStreamPatch(row, p), q).streamAmount == q.streamAmount.value
    ensures q.streamAmount.None? ==> ApplyStreamPatch(ApplyStreamPatch(row, p), q).streamAmount == ApplyStreamPatch(row, p).streamAmount
    ensures q.record.Some? ==> ApplyStreamPatch(ApplyStreamPatch(row, p), q).record == q.record.value
    ensures q.record.None? ==> ApplyStreamPatch(ApplyStreamPatch(row, p), q).record == ApplyStreamPatch(row, p).record
  {
  }

  /** Applying the same patch twice is applying it once, and a later patch
      wins on every column it names. */
  lemma PatchesCompose(row: StreamRow, p: StreamPatch, q: StreamPatch)
    ensures ApplyStreamPatch(ApplyStreamPatch(row, p), p) == ApplyStreamPatch(row, p)
    ensures q.title.Some? ==> ApplyStreamPatch(ApplyStreamPatch(row, p), q).title == q.title.value
    ensures q.title.None? ==> ApplyStreamPatch(ApplyStreamPatch(row, p), q).title == ApplyStreamPatch(row, p).title
    ensures q.streamName.Some? ==> ApplyStreamPatch(ApplyStreamPatch(row, p), q).streamName == q.streamName.value
    ensures q.streamName.None? ==> ApplyStreamPatch(ApplyStreamPatch(row, p), q).streamName == ApplyStreamPatch(row, p).streamName
    ensures q.description.Some? ==> ApplyStreamPatch(ApplyStreamPatch(row, p), q).description == q.description.value
    ensures q.description.None? ==> ApplyStreamPatch(ApplyStreamPatch(row, p), q).description == ApplyStreamPatch(row, p).description
    ensures q.logo.Some? ==> ApplyStreamPatch(ApplyStreamPatch(row, p), q).logo == q.logo.value
    ensures q.logo.None? ==> ApplyStreamPatch(ApplyStreamPatch(row, p), q).logo == ApplyStreamPatch(row, p).logo
    ensures q.socialLinks.Some? ==> ApplyStreamPatch(ApplyStreamPatch(row, p), q).socialLinks == q.socialLinks.value
    ensures q.socialLinks.None? ==> ApplyStreamPatch(ApplyStreamPatch(row, p), q).socialLinks == ApplyStreamPatch(row, p).socialLinks
    ensures q.viewMode.Some? ==> ApplyStreamPatch(ApplyStreamPatch(row, p), q).viewMode == q.viewMode.value
    ensures q.viewMode.None? ==> ApplyStreamPatch(ApplyStreamPatch(row, p), q).viewMode == ApplyStreamPatch(row, p).viewMode
    ensures q.amount.Some? ==> ApplyStreamPatch(ApplyStreamPatch(row, p), q).amount == q.amount.value
    ensures q.amount.None? ==> ApplyStreamPatch(ApplyStreamPatch(row, p), q).amount == ApplyStreamPatch(row, p).amount
    ensures q.donations.Some? ==> ApplyStreamPatch(ApplyStreamPatch(row, p), q).donations == q.donations.value
    ensures q.donations.None? ==> ApplyStreamPatch(ApplyStreamPatch(row, p), q).donations == ApplyStreamPatch(row, p).donations
    ensures q.streamMode.Some? ==> ApplyStreamPatch(ApplyStreamPatch(row, p), q).streamMode == q.streamMode.value
    ensures q.streamMode.None? ==> ApplyStreamPatch(ApplyStreamPatch(row, p), q).streamMode == ApplyStreamPatch(row, p).streamMode
    ensures q.streamAmount.Some? ==> ApplyStreamPatch(ApplyStreamPatch(row, p), q).streamAmount == q.streamAmount.value
    ensures q.streamAmount.None? ==> ApplyStreamPatch(ApplyStreamPatch(row, p), q).streamAmount == ApplyStreamPatch(row, p).streamAmount
    ensures q.record.Some? ==> ApplyStreamPatch(ApplyStreamPatch(row, p), q).record == q.record.value
    ensures q.record.None? ==> ApplyStreamPatch(ApplyStreamPatch(row, p), q).record == ApplyStreamPatch(row, p).record
  {
    LaterPatchWinsText(row, p, q);
    LaterPatchWinsPricing(row, p, q);
  }

  /** `updateStream`: `.single()` on no matching row is an error. */
  function UpdateStream(streams: Table<StreamRow>, id: string, p: StreamPatch, fault: Option<string>): (s: Step<StreamRow>)
    ensures s.result.Failure? ==> s.table == streams
    ensures s.result.Success? <==> fault.None? && id in streams
    ensures s.result.Success? ==> s.result.value == ApplyStreamPatch(streams[id], p) && s.table == streams[id := s.result.value]
  {
    if fault.Some? then Step(Failure("Failed to update stream: " + fault.value), streams)
    else if id !in streams then Step(Failure("Failed to update stream: no row"), streams)
    else
      var row := ApplyStreamPatch(streams[id], p);
      Step(Success(row), streams[id := row])
  }

  // ---------------------------------------------------------------------------
  // Upload file names

  predicate FileNameChar(c: char) {
    ('a' <= c <= 'z') || ('A' <= c <= 'Z') || ('0' <= c <= '9') || c == '.' || c == '-'
  }

  /** What the pattern does to one character: an allowed one stays, and any
      other becomes one `_` per UTF-16 code unit, since a pattern without the
      `u` flag matches the two halves of a surrogate pair separately. */
  function SanitizeChar(c: char): string {
    if FileNameChar(c) then [c] else if Astral(c) then "__" else "_"
  }

  /** `name.replace(/[^a-zA-Z0-9.-]/g, '_')`: as long as the name is in
      JavaScript's count, and made of allowed characters and `_` only. */
  function SanitizeFileName(name: string): (r: string)
    ensures |r| == Utf16Length(name)
    ensures forall i :: 0 <= i < |r| ==> FileNameChar(r[i]) || r[i] == '_'
  {
    if name == [] then [] else SanitizeChar(name[0]) + SanitizeFileName(name[1..])
  }

  /** The replacement works character by character, so it distributes over
      concatenation. */
  lemma {:induction false} SanitizeAppend(a: string, b: string)
    ensures SanitizeFileName(a + b) == SanitizeFileName(a) + SanitizeFileName(b)
  {
    if a == [] {
      assert a + b == b;
    } else {
      assert (a + b)[0] == a[0];
      assert (a + b)[1..] == a[1..] + b;
      SanitizeAppend(a[1..], b);
    }
  }

  /** A character outside the Basic Multilingual Plane (an emoji, say)
      anywhere in the name becomes two underscores. */
  lemma SanitizeAstral(pre: string, c: char, post: string)
    requires Astral(c)
    ensures SanitizeFileName(pre + [c] + post) == SanitizeFileName(pre) + "__" + SanitizeFileName(post)
  {
    assert SanitizeFileName([c]) == "__" by {
      assert !FileNameChar(c) && SanitizeChar(c) == "__";
      assert [c][1..] == [];
    }
    SanitizeAppend(pre + [c], post);
    SanitizeAppend(pre, [c]);
  }

  /** In a name of Basic Multilingual Plane characters each character is kept
      if allowed and becomes `_` otherwise, in place. */
  lemma {:induction false} SanitizePointwise(name: string)
    requires forall i :: 0 <= i < |name| ==> !Astral(name[i])
    ensures |SanitizeFileName(name)| == |name|
    ensures forall i :: 0 <= i < |name| ==>
      SanitizeFileName(name)[i] == if FileNameChar(name[i]) then name[i] else '_'
  {
    if name != [] {
      SanitizePointwise(name[1..]);
      forall i | 0 < i < |name|
        ensures SanitizeFileName(name)[i] == if FileNameChar(name[i]) then name[i] else '_'
      {
        assert SanitizeFileName(name)[i] == SanitizeFileName(name[1..])[i - 1];
      }
    }
  }

  /** A name already made of allowed characters and `_` is left alone. */
  lemma {:induction false} SanitizeKeepsClean(name: string)
    requires forall i :: 0 <= i < |name| ==> FileNameChar(name[i]) || name[i] == '_'
    ensures SanitizeFileName(name) == name
  {
    if name != [] {
      SanitizeKeepsClean(name[1..]);
    }
  }

  /** The sanitised name uses only allowed characters and `_`, and
      sanitising it again changes nothing. */
  lemma SanitizeFileNameProperties(name: string)
    ensures forall i :: 0 <= i < |SanitizeFileName(name)| ==>
      FileNameChar(SanitizeFileName(name)[i]) || SanitizeFileName(name)[i] == '_'
    ensures SanitizeFileName(SanitizeFileName(name)) == SanitizeFileName(name)
  {
    SanitizeKeepsClean(SanitizeFileName(name));
  }
}
