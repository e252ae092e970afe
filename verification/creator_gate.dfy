/** The payment gate in front of a creator's page: choose the viewer's
    wallet, read a device-local payment record, and on a confirmed USDC
    transfer write a new record that lasts forever (one-time) or thirty days
    (monthly). The browser's local storage is a map from key to entry; the
    clock and the transaction outcome are inputs. */
module CreatorGate {
  import opened Common
  import Identity

  // ---------------------------------------------------------------------------
  // Wallet choice

  /** A wallet as the embedded-wallet provider lists it. */
  datatype ProviderWallet = ProviderWallet(
    walletClientType: Option<string>,
    clientType: Option<string>,
    connectorType: Option<string>,
    address: Option<string>)

  predicate IsEmbedded(w: ProviderWallet) {
    w.walletClientType == Some("privy") || w.clientType == Some("privy") || w.connectorType == Some("privy")
  }

  /** `wallets.find(isEmbedded)` */
  function FirstEmbedded(wallets: seq<ProviderWallet>): (r: Option<ProviderWallet>)
    ensures r.Some? ==> r.value in wallets && IsEmbedded(r.value)
  {
    if wallets == [] then None
    else if IsEmbedded(wallets[0]) then Some(wallets[0])
    else FirstEmbedded(wallets[1..])
  }

  /** `find` returns the earliest embedded wallet, and nothing exactly when
      none is embedded. */
  lemma {:induction false} FirstEmbeddedIsFirst(wallets: seq<ProviderWallet>)
    ensures FirstEmbedded(wallets).None? <==> forall i :: 0 <= i < |wallets| ==> !IsEmbedded(wallets[i])
    ensures forall i :: 0 <= i < |wallets| && IsEmbedded(wallets[i]) && (forall j :: 0 <= j < i ==> !IsEmbedded(wallets[j])) ==>
      FirstEmbedded(wallets) == Some(wallets[i])
  {
    if wallets != [] && !IsEmbedded(wallets[0]) {
      var tail := wallets[1..];
      FirstEmbeddedIsFirst(tail);
      forall i | 0 <= i < |wallets| && IsEmbedded(wallets[i]) && (forall j :: 0 <= j < i ==> !IsEmbedded(wallets[j]))
        ensures FirstEmbedded(wallets) == Some(wallets[i])
      {
        assert wallets[i] == tail[i - 1];
        forall j | 0 <= j < i - 1 ensures !IsEmbedded(tail[j]) {
          assert tail[j] == wallets[j + 1];
        }
      }
      if FirstEmbedded(wallets).None? {
        forall i | 0 <= i < |wallets| ensures !IsEmbedded(wallets[i]) {
          if i > 0 { assert wallets[i] == tail[i - 1]; }
        }
      }
    }
  }

  /** The paying wallet: the first embedded wallet if it has an address,
      else the first listed wallet if it has one, else the first linked
      wallet account with an address, else none. */
  function WalletAddress(wallets: seq<ProviderWallet>, accounts: seq<Identity.Account>): (r: Option<string>)
    ensures r.Some? ==> r.value != ""
    ensures FirstEmbedded(wallets).Some? && Present(FirstEmbedded(wallets).value.address) ==>
      r == FirstEmbedded(wallets).value.address
    ensures (!(FirstEmbedded(wallets).Some? && Present(FirstEmbedded(wallets).value.address))
             && |wallets| > 0 && Present(wallets[0].address)) ==> r == wallets[0].address
    ensures (!(FirstEmbedded(wallets).Some? && Present(FirstEmbedded(wallets).value.address))
             && !(|wallets| > 0 && Present(wallets[0].address))) ==> r == Identity.FindWallet(accounts)
  {
    var embedded := FirstEmbedded(wallets);
    if embedded.Some? && Present(embedded.value.address) then embedded.value.address
    else if |wallets| > 0 && Present(wallets[0].address) then wallets[0].address
    else Identity.FindWallet(accounts)
  }

  /** An embedded wallet with an address always beats the listed order: it is
      chosen even when an external wallet comes first. */
  lemma EmbeddedWalletPreferred(external: ProviderWallet, embedded: ProviderWallet, accounts: seq<Identity.Account>)
    requires !IsEmbedded(external) && Present(external.address)
    requires IsEmbedded(embedded) && Present(embedded.address)
    ensures WalletAddress([external, embedded], accounts) == embedded.address
  {
    assert [external, embedded][1..] == [embedded];
    assert FirstEmbedded([embedded]) == Some(embedded);
  }

  /** With no provider wallets the choice is the first linked wallet account. */
  lemma NoProviderWalletUsesAccounts(accounts: seq<Identity.Account>)
    ensures WalletAddress([], accounts).None? <==> forall i :: 0 <= i < |accounts| ==> !Identity.IsWalletWithAddress(accounts[i])
    ensures forall i :: Identity.FirstWalletAt(accounts, i) ==> WalletAddress([], accounts) == accounts[i].address
  {
    Identity.FindWalletIsFirst(accounts);
  }

  // ---------------------------------------------------------------------------
  // Device-local payment records

  /** Thirty days in milliseconds. */
  const MonthMs: int := 30 * 24 * 60 * 60 * 1000

  /** The record stored after a payment; `expiresAt` is null except for monthly. */
  datatype PaymentRecord = PaymentRecord(
    creatorId: string,
    viewMode: ViewMode,
    amount: real,
    txHash: string,
    paidAt: int,
    expiresAt: Option<int>)

  /** A stored item as `JSON.parse` reads it. */
  datatype Entry = Parsed(record: PaymentRecord) | Unparsable

  type Storage = map<string, Entry>

  function AccessKey(creatorId: string): (k: string)
    ensures StartsWith(k, "creator_access_") && k[15..] == creatorId
  {
    "creator_access_" + creatorId
  }

  /** `record.expiresAt > Date.now()`, where a null expiry compares as 0. */
  predicate Unexpired(rec: PaymentRecord, now: int) {
    rec.expiresAt.GetOr(0) > now
  }

  /** Whether a stored entry admits the viewer under `mode`. */
  predicate RecordGrants(mode: ViewMode, e: Entry, now: int) {
    e.Parsed? && (mode == OneTime || (mode == Monthly && Unexpired(e.record, now)))
  }

  datatype CreatorGateState = CreatorGateState(hasAccess: bool, checking: bool, processing: bool)

  const Initial := CreatorGateState(false, true, false)

  /** The access-check effect. Free grants at once; otherwise a stored record
      under the creator's key grants when it parses and either the mode is
      one-time or the mode is monthly and it has not expired. It never
      revokes, and checking ends in every case. */
  function CheckAccess(st: CreatorGateState, creatorId: string, mode: ViewMode, storage: Storage, now: int): (r: CreatorGateState)
    ensures !r.checking && r.processing == st.processing
    ensures mode == Free ==> r.hasAccess
    ensures mode != Free ==>
      (r.hasAccess <==> st.hasAccess || (AccessKey(creatorId) in storage && RecordGrants(mode, storage[AccessKey(creatorId)], now)))
    ensures mode != Free && AccessKey(creatorId) in storage && storage[AccessKey(creatorId)] == Unparsable ==>
      r.hasAccess == st.hasAccess
    ensures mode != Free && AccessKey(creatorId) !in storage ==> r.hasAccess == st.hasAccess
  {
    if mode == Free then st.(hasAccess := true, checking := false)
    else
      var key := AccessKey(creatorId);
      var granted := key in storage && RecordGrants(mode, storage[key], now);
      st.(hasAccess := st.hasAccess || granted, checking := false)
  }

  /** The record written after a confirmed transfer at time `now`. */
  function NewRecord(creatorId: string, mode: ViewMode, amount: real, txHash: string, now: int): (rec: PaymentRecord)
    ensures rec.paidAt == now && rec.creatorId == creatorId && rec.txHash == txHash && rec.viewMode == mode
    ensures mode == Monthly ==> rec.expiresAt == Some(now + 2592000000)
    ensures mode != Monthly ==> rec.expiresAt.None?
  {
    PaymentRecord(creatorId, mode, amount, txHash, now, if mode == Monthly then Some(now + MonthMs) else None)
  }

  // ---------------------------------------------------------------------------
  // Paying

  /** The recipient is the creator id with `0x` put in front when missing. */
  function NormalizeRecipient(creatorId: string): (r: string)
    ensures StartsWith(r, "0x")
    ensures StartsWith(creatorId, "0x") ==> r == creatorId
    ensures !StartsWith(creatorId, "0x") ==> r == "0x" + creatorId
  {
    if StartsWith(creatorId, "0x") then creatorId else "0x" + creatorId
  }

  lemma NormalizeRecipientIdempotent(creatorId: string)
    ensures NormalizeRecipient(NormalizeRecipient(creatorId)) == NormalizeRecipient(creatorId)
  {
  }

  /** What the authentication provider reports at the time of the click. */
  datatype Session = Session(authenticated: bool, ready: bool, walletAddress: Option<string>, canSend: bool)

  /** `disabled={isProcessing || !authenticated || !ready || !walletAddress || !sendTransaction}` */
  predicate PayDisabled(st: CreatorGateState, s: Session) {
    st.processing || !s.authenticated || !s.ready || !Present(s.walletAddress) || !s.canSend
  }

  const SignInFirst := "Please sign in first"
  const NoWallet := "No wallet available. Please wait for your embedded wallet to be created, or connect an external wallet."
  const CannotSend := "Transaction functionality is not available. Please try again."
  const PaymentFailed := "Payment failed. Please try again."

  /** How a click ends: refused with a toast before anything happens, paid
      with a transaction hash, or failed with a toast message. */
  datatype PayOutcome = Refused(message: string) | Succeeded(txHash: string) | Failed(message: string)

  datatype PayStep = PayStep(state: CreatorGateState, storage: Storage, outcome: PayOutcome, notified: bool)

  /** `handlePayment`: the three refusals in order, then the transfer. On
      success the record is stored under the creator's key, access is granted
      and the page is notified; on failure nothing is stored and access is
      unchanged. Processing is off again on every exit. */
  function HandlePayment(st: CreatorGateState, s: Session, creatorId: string, mode: ViewMode, amount: real,
                         sent: Result<string, string>, storage: Storage, now: int): (p: PayStep)
    ensures p.outcome.Refused? <==> !s.authenticated || !s.ready || !Present(s.walletAddress) || !s.canSend
    ensures p.outcome.Refused? ==> p == PayStep(st, storage, p.outcome, false)
    ensures p.outcome.Refused? && (!s.authenticated || !s.ready) ==> p.outcome.message == SignInFirst
    ensures !p.outcome.Refused? ==> !p.state.processing && p.state.checking == st.checking
    ensures p.outcome.Failed? ==> p.storage == storage && p.state.hasAccess == st.hasAccess && !p.notified
    ensures p.outcome.Failed? ==> p.outcome.message != ""
    ensures p.outcome.Succeeded? <==> !PayDisabled(st.(processing := false), s) && sent.Success?
    ensures p.outcome.Succeeded? ==>
      && p.outcome.txHash == sent.value
      && p.storage == storage[AccessKey(creatorId) := Parsed(NewRecord(creatorId, mode, amount, sent.value, now))]
      && p.state.hasAccess && p.notified
  {
    if !s.authenticated || !s.ready then PayStep(st, storage, Refused(SignInFirst), false)
    else if !Present(s.walletAddress) then
      PayStep(st, storage, Refused(NoWallet), false)
    else if !s.canSend then PayStep(st, storage, Refused(CannotSend), false)
    else
      match sent
      case Failure(m) =>
        PayStep(st.(processing := false), storage, Failed(if m == "" then PaymentFailed else m), false)
      case Success(txHash) =>
        var rec := NewRecord(creatorId, mode, amount, txHash, now);
        PayStep(st.(processing := false, hasAccess := true), storage[AccessKey(creatorId) := Parsed(rec)], Succeeded(txHash), true)
  }

  /** An enabled button is never refused. */
  lemma EnabledButtonIsNotRefused(st: CreatorGateState, s: Session, creatorId: string, mode: ViewMode, amount: real,
                                  sent: Result<string, string>, storage: Storage, now: int)
    requires !PayDisabled(st, s)
    ensures !HandlePayment(st, s, creatorId, mode, amount, sent, storage, now).outcome.Refused?
  {
  }

  /** Writer and reader agree: after paying at time `paid`, a later visit at
      time `now` is admitted for one-time always and for monthly exactly while
      `now` is less than thirty days after `paid`. */
  lemma PaidRecordAdmits(st: CreatorGateState, s: Session, creatorId: string, mode: ViewMode, amount: real,
                         txHash: string, storage: Storage, paid: int, now: int)
    requires mode != Free
    requires !PayDisabled(st.(processing := false), s)
    ensures var p := HandlePayment(st, s, creatorId, mode, amount, Success(txHash), storage, paid);
      CheckAccess(Initial, creatorId, mode, p.storage, now).hasAccess <==> mode == OneTime || now < paid + MonthMs
  {
  }

  /** A monthly payment lapses: thirty days later to the millisecond the
      fresh page no longer admits the viewer. */
  lemma MonthlyAccessExpires(creatorId: string, amount: real, txHash: string, paid: int)
    ensures var storage := map[AccessKey(creatorId) := Parsed(NewRecord(creatorId, Monthly, amount, txHash, paid))];
      && CheckAccess(Initial, creatorId, Monthly, storage, paid + MonthMs - 1).hasAccess
      && !CheckAccess(Initial, creatorId, Monthly, storage, paid + MonthMs).hasAccess
  {
  }

  /** A one-time record (null expiry) does not admit a monthly gate: the null
      compares as 0 against the current time. */
  lemma OneTimeRecordDoesNotOpenMonthlyGate(creatorId: string, amount: real, txHash: string, paid: int, now: int)
    requires now >= 0
    ensures var storage := map[AccessKey(creatorId) := Parsed(NewRecord(creatorId, OneTime, amount, txHash, paid))];
      !CheckAccess(Initial, creatorId, Monthly, storage, now).hasAccess
  {
  }

  datatype View = Checking | Content | PaymentPrompt

  /** What the gate renders. */
  function Render(st: CreatorGateState, mode: ViewMode): (v: View)
    ensures v == Content <==> !st.checking && (mode == Free || st.hasAccess)
    ensures v == Checking <==> st.checking
  {
    if st.checking then Checking
    else if mode == Free || st.hasAccess then Content
    else PaymentPrompt
  }

  /** A payment that goes through replaces the prompt with the content in
      every mode (unless a check is still running); a failed one leaves the
      view as it was. */
  lemma PaymentOpensContent(st: CreatorGateState, s: Session, creatorId: string, mode: ViewMode, amount: real,
                            sent: Result<string, string>, storage: Storage, now: int)
    ensures var p := HandlePayment(st, s, creatorId, mode, amount, sent, storage, now);
      p.outcome.Succeeded? ==> Render(p.state, mode) == (if st.checking then Checking else Content)
    ensures var p := HandlePayment(st, s, creatorId, mode, amount, sent, storage, now);
      p.outcome.Failed? ==> Render(p.state, mode) == Render(st, mode)
  {
  }
}
