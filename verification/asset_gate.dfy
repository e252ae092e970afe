/** The pay-per-view gate of a recorded video: load the video row, open free
    videos, and `markPaid`. The fetch outcome is an input. */
module AssetGate {
  import opened Common
  import Store

  /** The hook's view of a video row after the conversion defaults. */
  datatype GateVideo = GateVideo(
    playbackId: string,
    viewMode: Option<ViewMode>,
    amount: real,
    assetName: string,
    creatorId: string,
    donations: seq<real>,
    users: seq<string>)

  datatype AssetState = AssetState(video: Option<GateVideo>, loading: bool, error: Option<string>, hasAccess: bool)

  const Initial := AssetState(None, false, None, false)

  /** `amount || 0`, `donations || []`, `Users || []`. */
  function FromRow(row: Store.VideoRow): (v: GateVideo)
    ensures v.amount == NumOr(row.amount, 0.0)
    ensures row.amount.None? ==> v.amount == 0.0
    ensures row.users.None? ==> v.users == []
    ensures row.users.Some? ==> v.users == row.users.value
    ensures row.donations.None? ==> v.donations == []
    ensures v.playbackId == row.playbackId && v.viewMode == row.viewMode && v.creatorId == row.creatorId && v.assetName == row.assetName
  {
    GateVideo(row.playbackId, row.viewMode, NumOr(row.amount, 0.0), row.assetName, row.creatorId,
              row.donations.GetOr([]), Store.VideoUsersOf(row))
  }

  /** The load effect: a free video opens the gate, no row is "Video not
      found", a thrown error keeps its message or a generic one. */
  function Load(st: AssetState, playbackId: string, fetched: Result<Option<Store.VideoRow>, string>): (r: AssetState)
    ensures playbackId == "" ==> r == st
    ensures playbackId != "" ==> !r.loading
    ensures playbackId != "" && fetched.Success? && fetched.value.Some? ==>
      && r.video == Some(FromRow(fetched.value.value)) && r.error.None?
      && r.hasAccess == (st.hasAccess || fetched.value.value.viewMode == Some(Free))
    ensures playbackId != "" && fetched == Success(None) ==>
      r.error == Some("Video not found") && r.hasAccess == st.hasAccess && r.video == st.video
    ensures playbackId != "" && fetched.Failure? ==>
      && r.error == Some(if fetched.error == "" then "Failed to fetch video" else fetched.error)
      && r.hasAccess == st.hasAccess && r.video == st.video
  {
    if playbackId == "" then st
    else
      match fetched
      case Success(Some(row)) =>
        var v := FromRow(row);
        st.(video := Some(v), loading := false, error := None, hasAccess := st.hasAccess || v.viewMode == Some(Free))
      case Success(None) => st.(loading := false, error := Some("Video not found"))
      case Failure(m) => st.(loading := false, error := Some(if m == "" then "Failed to fetch video" else m))
  }

  /** `markPaid(a)`: grant exactly when some listed address equals `a`
      ignoring case; never revoke and touch nothing else. */
  function MarkPaid(st: AssetState, addr: string): (r: AssetState)
    ensures r == st.(hasAccess := r.hasAccess)
    ensures r.hasAccess <==> st.hasAccess || (st.video.Some? && ListedIgnoringCase(st.video.value.users, addr))
  {
    if st.video.Some? && ListedIgnoringCase(st.video.value.users, addr) then st.(hasAccess := true) else st
  }

  /** A viewer the store has recorded as paying is let in by `markPaid` once
      the video is loaded, whatever the case of the address they present. */
  lemma StoredPaymentOpensGate(videos: Store.Table<Store.VideoRow>, playbackId: string, addr: string, presented: string)
    requires playbackId != "" && playbackId in videos
    requires SameAddress(addr, presented)
    ensures var w := Store.AddPayingUserToVideo(videos, playbackId, addr, None, None);
      var st := Load(Initial, playbackId, Store.GetVideoByPlaybackId(w.table, playbackId, None));
      MarkPaid(st, presented).hasAccess
  {
    var w := Store.AddPayingUserToVideo(videos, playbackId, addr, None, None);
    var users := Store.VideoUsersOf(w.table[playbackId]);
    var i :| 0 <= i < |users| && users[i] == addr;
    var st := Load(Initial, playbackId, Store.GetVideoByPlaybackId(w.table, playbackId, None));
    assert st.video.value.users[i] == addr;
  }
}
