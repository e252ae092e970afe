/** The stream thunks: creating a stream at the video service and saving its
    metadata row, and enriching the video service's stream list with the
    metadata rows. The video service's answers are inputs. */
module StreamApi {
  import opened Common
  import SocialLinks
  import Store

  /** A stream object from the video service, merged with metadata or not. */
  datatype LiveStream = LiveStream(
    id: string,
    playbackId: Option<string>,
    name: Option<string>,
    title: Option<string>,
    logo: Option<string>,
    description: Option<string>,
    viewMode: Option<ViewMode>,
    amount: Option<real>,
    donation: Option<seq<real>>,
    users: Option<seq<string>>,
    creatorId: Option<string>,
    streamKey: Option<string>,
    isActive: bool)

  /** A recorded asset from the video service, as the pages filter it. */
  datatype Asset = Asset(id: string, playbackId: Option<string>, creatorId: Option<string>)

  // ---------------------------------------------------------------------------
  // createLivestream

  /** The arguments of `createLivestream`. */
  datatype CreateProps = CreateProps(
    streamName: string,
    record: bool,
    creatorId: string,
    viewMode: Option<ViewMode>,
    amount: Option<real>,
    description: string,
    logo: string,
    donation: Option<seq<real>>,
    socialLinks: Option<seq<SocialLinks.LinkEntry>>)

  /** What the video service answers to the create request. */
  datatype Created = Created(playbackId: string, name: Option<string>)

  /** The metadata row saved for a new stream: the mode defaults to free,
      the paid list starts empty, donations default to empty, and a falsy
      amount, description or logo is stored as null. */
  function Metadata(props: CreateProps, created: Created): (row: Store.StreamRow)
    ensures row.playbackId == created.playbackId && row.creatorId == props.creatorId
    ensures row.viewMode == Some(props.viewMode.GetOr(Free))
    ensures row.users == Some([])
    ensures row.donations == Some(props.donation.GetOr([]))
    ensures row.amount.None? <==> !PresentNum(props.amount)
    ensures row.amount.Some? ==> row.amount == props.amount
    ensures row.description == NonEmpty(props.description) && row.logo == NonEmpty(props.logo)
    ensures row.streamName == OrDefault(created.name, props.streamName)
    ensures row.socialLinks == props.socialLinks
  {
    Store.StreamRow(
      created.playbackId,
      props.creatorId,
      Some(props.viewMode.GetOr(Free)),
      if PresentNum(props.amount) then props.amount else None,
      OrDefault(created.name, props.streamName),
      NonEmpty(props.description),
      NonEmpty(props.logo),
      OrElse(created.name, NonEmpty(props.streamName)),
      props.socialLinks,
      Some([]),
      Some(props.donation.GetOr([])),
      None,
      None,
      None)
  }

  datatype CreateStep = CreateStep(result: Result<Created, string>, streams: Store.Table<Store.StreamRow>)

  const MetadataFailurePrefix := "Stream created in Livepeer but failed to save metadata to Supabase: "

  /** `createLivestream`: a failed create at the video service or a failed
      metadata insert rejects the whole call; the second case says so. */
  function CreateLivestream(props: CreateProps, service: Result<Created, string>,
                            streams: Store.Table<Store.StreamRow>, fault: Option<string>): (s: CreateStep)
    ensures s.result.Success? <==> service.Success? && fault.None?
    ensures s.result.Failure? ==> s.streams == streams
    ensures service.Success? && fault.Some? ==>
      s.result.Failure? && StartsWith(s.result.error, MetadataFailurePrefix)
    ensures s.result.Success? ==>
      s.result.value == service.value
      && s.streams == streams[service.value.playbackId := Metadata(props, service.value)]
  {
    match service
    case Failure(m) => CreateStep(Failure(m), streams)
    case Success(created) =>
      var insert := Store.CreateStream(streams, Metadata(props, created), fault);
      match insert.result
      case Failure(m) => CreateStep(Failure(MetadataFailurePrefix + m), streams)
      case Success(_) => CreateStep(Success(created), insert.table)
  }

  /** A stream created with no mode or amount is stored free with a null
      amount, and the store finds it under its playback id. */
  lemma CreatedStreamIsStoredFree(props: CreateProps, created: Created, streams: Store.Table<Store.StreamRow>)
    requires props.viewMode.None? && props.amount.None?
    ensures var s := CreateLivestream(props, Success(created), streams, None);
      var found := Store.GetStreamByPlaybackId(s.streams, created.playbackId, None);
      found.Success? && found.value.Some? && found.value.value.viewMode == Some(Free)
      && found.value.value.amount.None? && Store.UsersOf(found.value.value) == []
  {
  }

  // ---------------------------------------------------------------------------
  // getAllStreams enrichment

  /** The metadata rows by playback id; rows without one are skipped and a
      later row with the same id replaces an earlier one. */
  function Index(rows: seq<Store.StreamRow>): (m: map<string, Store.StreamRow>)
    ensures forall k :: k in m ==> k != "" && m[k].playbackId == k
  {
    if rows == [] then map[]
    else
      var m := Index(rows[..|rows| - 1]);
      var last := rows[|rows| - 1];
      if last.playbackId != "" then m[last.playbackId := last] else m
  }

  /** Row i carries id k and no later row does. */
  predicate LastWithId(rows: seq<Store.StreamRow>, k: string, i: int) {
    0 <= i < |rows| && rows[i].playbackId == k && forall j :: i < j < |rows| ==> rows[j].playbackId != k
  }

  /** The index holds exactly the non-empty ids that some row carries. */
  lemma {:induction false} IndexDomain(rows: seq<Store.StreamRow>, k: string)
    ensures k in Index(rows) <==> k != "" && exists i :: 0 <= i < |rows| && rows[i].playbackId == k
  {
    if rows != [] {
      var init := rows[..|rows| - 1];
      var n := |rows| - 1;
      IndexDomain(init, k);
      if !(rows[n].playbackId == k && k != "") {
        assert k in Index(rows) <==> k in Index(init);
        if k != "" && exists i :: 0 <= i < |rows| && rows[i].playbackId == k {
          var i :| 0 <= i < |rows| && rows[i].playbackId == k;
          assert init[i] == rows[i];
        }
        if k in Index(init) {
          var i :| 0 <= i < |init| && init[i].playbackId == k;
          assert rows[i] == init[i];
        }
      }
    }
  }

  /** Each id in the index is mapped to the last row that carries it. */
  lemma {:induction false} IndexLastWins(rows: seq<Store.StreamRow>, k: string)
    ensures k in Index(rows) <==> k != "" && exists i :: 0 <= i < |rows| && rows[i].playbackId == k
    ensures k in Index(rows) ==> exists i :: LastWithId(rows, k, i) && Index(rows)[k] == rows[i]
  {
    IndexDomain(rows, k);
    if rows != [] {
      var init := rows[..|rows| - 1];
      var n := |rows| - 1;
      IndexLastWins(init, k);
      if rows[n].playbackId == k && k != "" {
        assert LastWithId(rows, k, n);
      } else if k in Index(rows) {
        assert Index(rows)[k] == Index(init)[k];
        var i :| LastWithId(init, k, i) && Index(init)[k] == init[i];
        assert rows[i] == init[i];
        assert LastWithId(rows, k, i);
      }
    }
  }

  /** The metadata index a fetch yields; a failed fetch is an empty index. */
  function IndexOf(fetched: Result<seq<Store.StreamRow>, string>): (m: map<string, Store.StreamRow>)
    ensures fetched.Failure? ==> m == map[]
  {
    match fetched
    case Failure(_) => map[]
    case Success(rows) => Index(rows)
  }

  /** One stream of the list, merged with its metadata row when there is one:
      each merged field is the metadata's value when truthy, else the
      stream's own, else a default. */
  function EnrichOne(s: LiveStream, index: map<string, Store.StreamRow>): (r: LiveStream)
    ensures r.id == s.id && r.playbackId == s.playbackId && r.name == s.name && r.creatorId == s.creatorId
    ensures r.streamKey == s.streamKey && r.isActive == s.isActive
    ensures !Present(s.playbackId) ==> r == s.(logo := Some(""))
    ensures Present(s.playbackId) && s.playbackId.value !in index ==> r == s.(logo := Some(OrDefault(s.logo, "")))
    ensures Present(s.playbackId) && s.playbackId.value in index ==>
      var meta := index[s.playbackId.value];
      && r.logo == Some(OrDefault(meta.logo, OrDefault(s.logo, "")))
      && r.viewMode == Some(meta.viewMode.GetOr(s.viewMode.GetOr(Free)))
      && r.amount == Some(NumOr(meta.amount, NumOr(s.amount, 0.0)))
      && r.users == Some(meta.users.GetOr(s.users.GetOr([])))
      && (meta.users.Some? ==> r.users == meta.users)
    ensures Present(s.playbackId) && s.playbackId.value in index ==>
      var meta := index[s.playbackId.value];
      && (Present(meta.title) ==> r.title == meta.title)
      && (!Present(meta.title) && meta.streamName != "" ==> r.title == Some(meta.streamName))
      && (!Present(meta.title) && meta.streamName == "" ==> r.title == Some(OrDefault(OrElse(s.name, s.title), "")))
      && (Present(meta.description) ==> r.description == meta.description)
      && (!Present(meta.description) ==> r.description == Some(OrDefault(s.description, "")))
      && (meta.donations.Some? ==> r.donation == meta.donations)
      && (meta.donations.None? ==> r.donation == Some(s.donation.GetOr([])))
  {
    if !Present(s.playbackId) then s.(logo := Some(""))
    else if s.playbackId.value !in index then s.(logo := Some(OrDefault(s.logo, "")))
    else
      var meta := index[s.playbackId.value];
      s.(logo := Some(OrDefault(meta.logo, OrDefault(s.logo, ""))),
         title := Some(OrDefault(OrElse(OrElse(meta.title, Some(meta.streamName)), OrElse(s.name, s.title)), "")),
         description := Some(OrDefault(meta.description, OrDefault(s.description, ""))),
         viewMode := Some(meta.viewMode.GetOr(s.viewMode.GetOr(Free))),
         amount := Some(NumOr(meta.amount, NumOr(s.amount, 0.0))),
         donation := Some(meta.donations.GetOr(s.donation.GetOr([]))),
         users := Some(meta.users.GetOr(s.users.GetOr([]))))
  }

  /** `getAllStreams` after the video service answered with `streams`. */
  function Enrich(streams: seq<LiveStream>, fetched: Result<seq<Store.StreamRow>, string>): (r: seq<LiveStream>)
    ensures |r| == |streams|
    ensures forall i :: 0 <= i < |r| ==> r[i].id == streams[i].id && r[i].playbackId == streams[i].playbackId
  {
    var index := IndexOf(fetched);
    seq(|streams|, i requires 0 <= i < |streams| => EnrichOne(streams[i], index))
  }

  /** A failed metadata fetch leaves every stream as it was but for its logo. */
  lemma EnrichWithoutMetadata(streams: seq<LiveStream>, m: string)
    ensures var r := Enrich(streams, Failure(m));
      forall i :: 0 <= i < |r| ==> r[i] == streams[i].(logo := r[i].logo) && r[i].logo.Some?
  {
  }

  /** A consistency property of the merge rather than a behaviour the page
      relies on (it enriches each fetch once): since a merged field already
      holds the value the metadata chain chooses, enriching an enriched list
      again with the same metadata changes nothing. */
  lemma EnrichIdempotent(streams: seq<LiveStream>, fetched: Result<seq<Store.StreamRow>, string>)
    ensures var index := IndexOf(fetched);
      Enrich(streams, fetched) == seq(|streams|, i requires 0 <= i < |streams| => EnrichOne(EnrichOne(streams[i], index), index))
  {
    var index := IndexOf(fetched);
    forall i | 0 <= i < |streams|
      ensures EnrichOne(EnrichOne(streams[i], index), index) == EnrichOne(streams[i], index)
    {
      EnrichOneIdempotent(streams[i], index);
    }
  }

  lemma EnrichOneIdempotent(s: LiveStream, index: map<string, Store.StreamRow>)
    ensures EnrichOne(EnrichOne(s, index), index) == EnrichOne(s, index)
  {
  }

  /** A stream whose playback id appears in the metadata takes its paid list
      from the last metadata row with that id. */
  lemma EnrichUsesLastRow(streams: seq<LiveStream>, rows: seq<Store.StreamRow>, i: int)
    requires 0 <= i < |streams| && Present(streams[i].playbackId)
    requires exists j :: 0 <= j < |rows| && rows[j].playbackId == streams[i].playbackId.value
    ensures exists j ::
      && LastWithId(rows, streams[i].playbackId.value, j)
      && Enrich(streams, Success(rows))[i].users == Some(rows[j].users.GetOr(streams[i].users.GetOr([])))
  {
    IndexLastWins(rows, streams[i].playbackId.value);
  }
}
