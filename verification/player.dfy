/** The viewer's player page around the stream gate: whether the viewer is
    connected, the chat send guard, when the payment modal
    covers the player, and what a completed payment does to the gate. */
module Player {
  import opened Common
  import StreamGate
  import ChatApi
  import Store

  /** The address of the viewer's first wallet, if any. */
  function WalletAddress(wallets: seq<string>): (r: Option<string>)
    ensures r.None? <==> wallets == []
    ensures r.Some? ==> r.value == wallets[0]
  {
    if wallets == [] then None else Some(wallets[0])
  }

  /** Signed in, ready, and a first wallet with a non-empty address. */
  predicate Connected(authenticated: bool, ready: bool, walletAddress: Option<string>) {
    authenticated && ready && Present(walletAddress)
  }

  /** The shortened sender shown in chat: the first five characters and an
      ellipsis. */
  function ShortSender(addr: string): (s: string)
    ensures |s| == (if |addr| < 5 then |addr| else 5) + 3
    ensures s[..|s| - 3] == Take(addr, 5) && s[|s| - 3..] == "..."
  {
    Take(addr, 5) + "..."
  }

  /** `handleSendChat`: a blank message or a viewer who is not connected
      sends nothing; otherwise the trimmed message goes out under the
      shortened sender. */
  function ChatRequest(input: string, authenticated: bool, ready: bool, walletAddress: Option<string>, playbackId: string): (r: Option<ChatApi.SendRequest>)
    ensures r.None? <==> Trim(input) == [] || !Connected(authenticated, ready, walletAddress)
    ensures r.Some? ==>
      && r.value.message == Trim(input) && r.value.message != []
      && r.value.streamId == playbackId
      && r.value.walletAddress == walletAddress.value
      && r.value.sender == ShortSender(walletAddress.value)
  {
    if Trim(input) == [] || !Connected(authenticated, ready, walletAddress) then None
    else Some(ChatApi.SendRequest(Trim(input), playbackId, walletAddress.value, ShortSender(walletAddress.value)))
  }

  /** For an address longer than five characters the sender shown is its
      first five characters and an ellipsis, while the full address is
      stored beside it. */
  lemma ChatKeepsFullWallet(input: string, addr: string, playbackId: string)
    requires Trim(input) != [] && |addr| > 5
    ensures var r := ChatRequest(input, true, true, Some(addr), playbackId);
      r.Some? && r.value.walletAddress == addr && |r.value.sender| == 8
      && StartsWith(addr, r.value.sender[..5])
  {
    var r := ChatRequest(input, true, true, Some(addr), playbackId);
    assert r.value.sender[..5] == addr[..5];
  }

  /** The page body renders only once loading is over and no error is set:
      before that it returns the loading view or the error text. */
  predicate PageShown(st: StreamGate.GateState) {
    !st.loading && !Present(st.error)
  }

  /** The payment modal covers the player exactly when the page body renders,
      access is not held, a stream is loaded and it is not marked free (a
      stream with no mode is gated). */
  predicate ShowGateModal(st: StreamGate.GateState) {
    PageShown(st) && !st.hasAccess && st.stream.Some? && st.stream.value.viewMode != Some(Free)
  }

  /** On a rendered page the modal shows exactly when the gate would take a
      payment; the gate itself does not look at the loading or error flags. */
  lemma ModalIffPaymentRuns(st: StreamGate.GateState, playbackId: string, sol: real, world: StreamGate.PayWorld,
                            streams: Store.Table<Store.StreamRow>)
    ensures ShowGateModal(st) <==>
      PageShown(st) && StreamGate.ProcessPayment(st, playbackId, sol, world, streams).result != StreamGate.Skipped
  {
  }

  /** The modal after loading a stream row: never for a free row. */
  lemma LoadedFreeStreamHasNoModal(playbackId: string, row: Store.StreamRow)
    requires playbackId != "" && row.viewMode == Some(Free)
    ensures !ShowGateModal(StreamGate.Load(StreamGate.Initial, playbackId, Success(Some(row))))
  {
  }

  /** A freshly loaded row that is not marked free puts the modal over the
      player. */
  lemma LoadedPaidStreamShowsModal(playbackId: string, row: Store.StreamRow)
    requires playbackId != "" && row.viewMode != Some(Free)
    ensures ShowGateModal(StreamGate.Load(StreamGate.Initial, playbackId, Success(Some(row))))
  {
  }

  /** A failed or empty reload shows only the error text, even while a stale
      gated stream is still held. */
  lemma ErrorHidesModal(st: StreamGate.GateState, playbackId: string, fetched: Result<Option<Store.StreamRow>, string>)
    requires playbackId != "" && (fetched.Failure? || fetched == Success(None))
    ensures var r := StreamGate.Load(st, playbackId, fetched);
      r.stream == st.stream && !ShowGateModal(r)
  {
  }

  /** `onPaymentSuccess`: access is set first, whatever the paid list says,
      and then `markPaid` runs for a present wallet address. */
  function PaymentSucceeded(st: StreamGate.GateState, walletAddress: Option<string>): (r: StreamGate.GateState)
    ensures r.hasAccess
    ensures r == st.(hasAccess := true)
    ensures !ShowGateModal(r)
  {
    var granted := st.(hasAccess := true);
    if Present(walletAddress) then StreamGate.MarkPaid(granted, walletAddress.value) else granted
  }
}
