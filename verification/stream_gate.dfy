/** The pay-per-view gate of a live stream: load the stream row, decide
    access from the viewer's wallet key, and run the payment path.

    The hook's React state is a `GateState` value; each effect or callback is
    a function from the state (and the outcomes of the external calls it
    makes) to the next state. The wallet, the chain and the database are
    inputs: whether the wallet is connected, whether the recipient parses as
    a public key, what `sendTransaction` returned, and the faults of the two
    database calls that `addPayingUserToStream` makes. */
module StreamGate {
  import opened Common
  import Store

  /** The hook's view of a stream row, after the conversion defaults. */
  datatype GateStream = GateStream(
    playbackId: string,
    creatorId: string,
    viewMode: Option<ViewMode>,
    amount: real,
    users: seq<string>,
    description: string,
    streamName: string,
    logo: string,
    title: string,
    donations: seq<real>)

  predicate IsFree(s: GateStream) {
    s.viewMode == Some(Free)
  }

  datatype GateState = GateState(
    stream: Option<GateStream>,
    loading: bool,
    error: Option<string>,
    hasAccess: bool,
    processing: bool)

  const Initial := GateState(None, true, None, false, false)

  /** The row-to-stream conversion: `amount || 0`, `Users || []`,
      `title || streamName`, empty strings for missing text. */
  function FromRow(row: Store.StreamRow): (s: GateStream)
    ensures s.amount == NumOr(row.amount, 0.0)
    ensures s.users == Store.UsersOf(row)
    ensures s.viewMode == row.viewMode && s.creatorId == row.creatorId
    ensures Present(row.title) ==> s.title == row.title.value
    ensures !Present(row.title) ==> s.title == row.streamName
  {
    GateStream(
      row.playbackId,
      row.creatorId,
      row.viewMode,
      NumOr(row.amount, 0.0),
      Store.UsersOf(row),
      OrDefault(row.description, ""),
      row.streamName,
      OrDefault(row.logo, ""),
      OrDefault(row.title, row.streamName),
      row.donations.GetOr([]))
  }

  /** The load effect. An empty playback id does nothing; otherwise the fetch
      outcome decides: a row is converted and a free one opens the gate, no
      row is "Stream not found", a thrown error keeps its message (or a
      generic one when the message is empty). Loading ends in every case. */
  function Load(st: GateState, playbackId: string, fetched: Result<Option<Store.StreamRow>, string>): (r: GateState)
    ensures playbackId == "" ==> r == st
    ensures playbackId != "" ==> !r.loading && r.processing == st.processing
    ensures playbackId != "" && fetched.Success? && fetched.value.Some? ==>
      && r.stream == Some(FromRow(fetched.value.value))
      && r.error.None?
      && r.hasAccess == (st.hasAccess || fetched.value.value.viewMode == Some(Free))
    ensures playbackId != "" && fetched == Success(None) ==>
      r.error == Some("Stream not found") && r.hasAccess == st.hasAccess && r.stream == st.stream
    ensures playbackId != "" && fetched.Failure? ==>
      && r.error == Some(if fetched.error == "" then "Failed to fetch stream" else fetched.error)
      && r.hasAccess == st.hasAccess && r.stream == st.stream
  {
    if playbackId == "" then st
    else
      match fetched
      case Success(Some(row)) =>
        var s := FromRow(row);
        st.(stream := Some(s), loading := false, error := None, hasAccess := st.hasAccess || IsFree(s))
      case Success(None) =>
        st.(loading := false, error := Some("Stream not found"))
      case Failure(m) =>
        st.(loading := false, error := Some(if m == "" then "Failed to fetch stream" else m))
  }

  /** Whether a connected key may watch: it is the creator's, or it is on the
      paid list, both compared case-insensitively. */
  predicate Entitled(s: GateStream, key: string) {
    SameAddress(s.creatorId, key) || ListedIgnoringCase(s.users, key)
  }

  /** The access effect: for a loaded paid stream and a connected key, grant
      exactly when the key is entitled. It never revokes access. */
  function CheckAccess(st: GateState, key: Option<string>): (r: GateState)
    ensures key.None? || st.stream.None? ==> r == st
    ensures r == st.(hasAccess := r.hasAccess)
    ensures st.hasAccess ==> r.hasAccess
    ensures key.Some? && st.stream.Some? && !IsFree(st.stream.value) ==>
      (r.hasAccess <==> st.hasAccess || Entitled(st.stream.value, key.value))
  {
    match (st.stream, key)
    case (Some(s), Some(k)) =>
      if IsFree(s) then st
      else if Entitled(s, k) then st.(hasAccess := true)
      else st
    case _ => st
  }

  /** `markPaid`: grant when the address is on the loaded paid list,
      case-insensitively; never revoke. */
  function MarkPaid(st: GateState, addr: string): (r: GateState)
    ensures r == st.(hasAccess := r.hasAccess)
    ensures r.hasAccess <==> st.hasAccess || (st.stream.Some? && ListedIgnoringCase(st.stream.value.users, addr))
  {
    if st.stream.Some? && ListedIgnoringCase(st.stream.value.users, addr) then st.(hasAccess := true) else st
  }

  /** `Math.floor(solAmount * 1e9)`. */
  function Lamports(sol: real): (n: int)
    ensures n as real <= sol * 1000000000.0 < n as real + 1.0
  {
    (sol * 1000000000.0).Floor
  }

  /** A payment clears the `lamports <= 0` check exactly when it is worth at
      least one lamport. */
  lemma LamportsPositiveIff(sol: real)
    ensures Lamports(sol) > 0 <==> sol >= 0.000000001
  {
    if sol >= 0.000000001 {
      assert sol * 1000000000.0 >= 1.0;
    }
  }

  /** The wallet adapter as `processPayment` sees it. */
  datatype Wallet = Wallet(connected: bool, publicKey: Option<string>, canSend: bool)

  predicate WalletReady(w: Wallet) {
    w.connected && w.publicKey.Some? && w.canSend
  }

  /** How the call ends: it returns early, resolves with a signature, or throws. */
  datatype PayResult = Skipped | Paid(signature: string) | Threw(message: string)

  datatype Payment = Payment(state: GateState, streams: Store.Table<Store.StreamRow>, result: PayResult)

  /** The external outcomes one call of `processPayment` depends on. */
  datatype PayWorld = PayWorld(
    wallet: Wallet,
    recipientValid: bool,
    sent: Result<string, string>,
    readFault: Option<string>,
    writeFault: Option<string>)

  /** `processPayment(sol, recipient)` for the hook's `playbackId`. */
  function ProcessPayment(st: GateState, playbackId: string, sol: real, world: PayWorld, streams: Store.Table<Store.StreamRow>): (p: Payment)
    // The early return changes nothing.
    ensures st.stream.None? || IsFree(st.stream.value) || st.hasAccess ==> p == Payment(st, streams, Skipped)
    // The precondition errors are thrown before any state change.
    ensures p.result.Threw? && (!WalletReady(world.wallet) || !world.recipientValid) ==> p.state == st && p.streams == streams
    ensures p.result != Skipped && !WalletReady(world.wallet) ==>
      p.result == Threw("Wallet not connected or transaction not supported")
    ensures p.result != Skipped && WalletReady(world.wallet) && !world.recipientValid ==>
      p.result == Threw("Invalid recipient wallet address")
    // Past the checks, a non-positive amount is refused without sending.
    ensures p.result != Skipped && WalletReady(world.wallet) && world.recipientValid && Lamports(sol) <= 0 ==>
      p == Payment(st.(processing := false), streams, Threw("Payment amount must be greater than 0"))
    // A failed send leaves access and the store alone.
    ensures p.result != Skipped && WalletReady(world.wallet) && world.recipientValid && Lamports(sol) > 0 && world.sent.Failure? ==>
      p == Payment(st.(processing := false), streams,
                   Threw(if world.sent.error == "" then "Payment failed" else world.sent.error))
    // A successful send grants access whatever the paid-list write did.
    ensures p.result.Paid? <==> p.result != Skipped && WalletReady(world.wallet) && world.recipientValid && Lamports(sol) > 0 && world.sent.Success?
    ensures p.result.Paid? ==> p.result.signature == world.sent.value && p.state.hasAccess
    // Processing is false again on every exit after the checks.
    ensures p.result != Skipped && WalletReady(world.wallet) && world.recipientValid ==> !p.state.processing
    ensures p.state.stream.Some? <==> st.stream.Some?
  {
    if st.stream.None? || IsFree(st.stream.value) || st.hasAccess then Payment(st, streams, Skipped)
    else if !WalletReady(world.wallet) then Payment(st, streams, Threw("Wallet not connected or transaction not supported"))
    else if !world.recipientValid then Payment(st, streams, Threw("Invalid recipient wallet address"))
    else
      var lamports := Lamports(sol);
      if lamports <= 0 then Payment(st.(processing := false), streams, Threw("Payment amount must be greater than 0"))
      else
        match world.sent
        case Failure(m) => Payment(st.(processing := false), streams, Threw(if m == "" then "Payment failed" else m))
        case Success(signature) =>
          var key := world.wallet.publicKey.value;
          var write := Store.AddPayingUserToStream(streams, playbackId, key, world.readFault, world.writeFault);
          var s := st.stream.value;
          var stream' := if write.result.Success? then s.(users := s.users + [key]) else s;
          var granted := MarkPaid(st.(stream := Some(stream'), hasAccess := true), key);
          Payment(granted.(processing := false), write.table, Paid(signature))
  }

  /** After a successful send the in-memory paid list gains the key, without
      a duplicate check, exactly when the store write succeeded; the store
      row changes as `addPayingUserToStream` says. */
  lemma PaymentUpdatesLists(st: GateState, playbackId: string, sol: real, world: PayWorld, streams: Store.Table<Store.StreamRow>)
    requires ProcessPayment(st, playbackId, sol, world, streams).result.Paid?
    ensures var p := ProcessPayment(st, playbackId, sol, world, streams);
      var key := world.wallet.publicKey.value;
      var write := Store.AddPayingUserToStream(streams, playbackId, key, world.readFault, world.writeFault);
      && p.streams == write.table
      && (write.result.Success? ==> p.state.stream.value.users == st.stream.value.users + [key])
      && (write.result.Failure? ==> p.state.stream.value.users == st.stream.value.users && p.streams == streams)
  {
  }

  /** Access is granted even when the paid-list write fails. */
  lemma PaidDespiteWriteFailure(st: GateState, playbackId: string, sol: real, world: PayWorld, streams: Store.Table<Store.StreamRow>)
    requires st.stream.Some? && !IsFree(st.stream.value) && !st.hasAccess
    requires WalletReady(world.wallet) && world.recipientValid && Lamports(sol) > 0 && world.sent.Success?
    requires world.writeFault.Some? || world.readFault.Some?
    ensures var p := ProcessPayment(st, playbackId, sol, world, streams);
      p.result == Paid(world.sent.value) && p.state.hasAccess
  {
  }

  /** The gate and the store agree: once a payment's write has gone through,
      loading the stream afresh and checking the same key grants access. */
  lemma ReloadAfterPaymentGrants(st: GateState, playbackId: string, sol: real, world: PayWorld, streams: Store.Table<Store.StreamRow>)
    requires playbackId != ""
    requires ProcessPayment(st, playbackId, sol, world, streams).result.Paid?
    requires world.readFault.None? && world.writeFault.None? && playbackId in streams
    ensures var p := ProcessPayment(st, playbackId, sol, world, streams);
      var reloaded := Load(Initial, playbackId, Store.GetStreamByPlaybackId(p.streams, playbackId, None));
      CheckAccess(reloaded, world.wallet.publicKey).hasAccess
  {
    var p := ProcessPayment(st, playbackId, sol, world, streams);
    var key := world.wallet.publicKey.value;
    var row := p.streams[playbackId];
    assert key in Store.UsersOf(row);
    var i :| 0 <= i < |Store.UsersOf(row)| && Store.UsersOf(row)[i] == key;
    var reloaded := Load(Initial, playbackId, Store.GetStreamByPlaybackId(p.streams, playbackId, None));
    assert reloaded.stream.value.users[i] == key;
    assert ListedIgnoringCase(reloaded.stream.value.users, key);
  }
}
