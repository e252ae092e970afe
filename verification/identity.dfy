/** Identity selection over the accounts the identity provider links to a user:
    the "creator address" rule that many pages repeat, the login-method
    classification of the profile page, and address abbreviation. */
module Identity {
  import opened Common

  /** A linked account as the pages read it; every field but `kind` may be absent. */
  datatype Account = Account(
    kind: string,
    address: Option<string>,
    walletClientType: Option<string>,
    chainType: Option<string>,
    username: Option<string>)

  /** `account.type === 'wallet' && 'address' in account && account.address` */
  predicate IsWalletWithAddress(a: Account) {
    a.kind == "wallet" && Present(a.address)
  }

  /** Account i is a wallet with an address and no earlier account is. */
  predicate FirstWalletAt(accounts: seq<Account>, i: int) {
    0 <= i < |accounts| && IsWalletWithAddress(accounts[i])
    && forall j :: 0 <= j < i ==> !IsWalletWithAddress(accounts[j])
  }

  /** `linkedAccounts.find(isWalletWithAddress)?.address` */
  function FindWallet(accounts: seq<Account>): (r: Option<string>)
    ensures r.Some? ==> r.value != ""
  {
    if accounts == [] then None
    else if IsWalletWithAddress(accounts[0]) then Some(accounts[0].address.value)
    else FindWallet(accounts[1..])
  }

  /** The creator address: the first linked account if it is a wallet with an
      address, otherwise the first such wallet among all linked accounts,
      otherwise nothing. */
  function CreatorAddress(accounts: seq<Account>): (r: Option<string>)
    ensures r.Some? ==> r.value != ""
  {
    if |accounts| == 0 then None
    else if IsWalletWithAddress(accounts[0]) then Some(accounts[0].address.value)
    else FindWallet(accounts)
  }

  lemma {:induction false} FindWalletIsFirst(accounts: seq<Account>)
    ensures FindWallet(accounts).None? <==> forall i :: 0 <= i < |accounts| ==> !IsWalletWithAddress(accounts[i])
    ensures forall i :: FirstWalletAt(accounts, i) ==> FindWallet(accounts) == accounts[i].address
  {
    if accounts != [] && !IsWalletWithAddress(accounts[0]) {
      var tail := accounts[1..];
      FindWalletIsFirst(tail);
      forall i | FirstWalletAt(accounts, i)
        ensures FindWallet(accounts) == accounts[i].address
      {
        assert FirstWalletAt(tail, i - 1);
      }
      if FindWallet(accounts).None? {
        forall i | 0 <= i < |accounts|
          ensures !IsWalletWithAddress(accounts[i])
        {
          if i > 0 {
            assert accounts[i] == tail[i - 1];
          }
        }
      }
    }
  }

  /** The rule picks exactly the first wallet-with-address account, and
      yields nothing exactly when there is none. */
  lemma CreatorAddressIsFirstWallet(accounts: seq<Account>)
    ensures CreatorAddress(accounts).None? <==> forall i :: 0 <= i < |accounts| ==> !IsWalletWithAddress(accounts[i])
    ensures forall i :: FirstWalletAt(accounts, i) ==> CreatorAddress(accounts) == accounts[i].address
  {
    FindWalletIsFirst(accounts);
    if |accounts| > 0 && IsWalletWithAddress(accounts[0]) {
      assert FirstWalletAt(accounts, 0);
    }
  }

  /** How the profile page describes one linked account. */
  datatype LoginMethod =
    | WalletLogin(provider: string, address: Option<string>, chainType: string)
    | EmailLogin(email: Option<string>)
    | FarcasterLogin(username: string)
    | OtherLogin(kind: string)

  function Describe(a: Account): (m: LoginMethod)
    ensures m.WalletLogin? <==> a.kind == "wallet"
    ensures m.EmailLogin? <==> a.kind == "email"
    ensures m.FarcasterLogin? <==> a.kind == "farcaster"
    ensures m.OtherLogin? ==> m.kind == a.kind
    ensures m.WalletLogin? ==> m.address == a.address && m.provider != "" && m.chainType != ""
    ensures m.WalletLogin? && Present(a.walletClientType) ==> m.provider == a.walletClientType.value
    ensures m.WalletLogin? && !Present(a.walletClientType) ==> m.provider == "External"
    ensures m.WalletLogin? && !Present(a.chainType) ==> m.chainType == "ethereum"
    ensures m.FarcasterLogin? ==> m.username != ""
  {
    if a.kind == "wallet" then
      WalletLogin(OrDefault(a.walletClientType, "External"), a.address, OrDefault(a.chainType, "ethereum"))
    else if a.kind == "email" then EmailLogin(a.address)
    else if a.kind == "farcaster" then FarcasterLogin(OrDefault(OrElse(a.username, a.address), "farcaster"))
    else OtherLogin(a.kind)
  }

  /** The primary login method: the first linked account, described. */
  function PrimaryLoginMethod(accounts: seq<Account>): (r: Option<LoginMethod>)
    ensures r.None? <==> |accounts| == 0
  {
    if |accounts| == 0 then None else Some(Describe(accounts[0]))
  }

  /** The remaining linked accounts, described in order. */
  function LinkedAccountsView(accounts: seq<Account>): (r: seq<LoginMethod>)
    ensures |accounts| <= 1 ==> r == []
    ensures |accounts| > 1 ==> |r| == |accounts| - 1
  {
    if |accounts| <= 1 then [] else seq(|accounts| - 1, i requires 0 <= i < |accounts| - 1 => Describe(accounts[i + 1]))
  }

  /** The primary method followed by the linked-accounts list describes every
      account exactly once, in order. */
  lemma PrimaryAndLinkedCoverAll(accounts: seq<Account>)
    requires |accounts| > 0
    ensures var all := [PrimaryLoginMethod(accounts).value] + LinkedAccountsView(accounts);
      |all| == |accounts| && forall i :: 0 <= i < |accounts| ==> all[i] == Describe(accounts[i])
  {
  }

  /** `formatAddress`: empty for empty input, otherwise the first six
      characters, `...`, and the last four. */
  function FormatAddress(a: string): (r: string)
    ensures r == "" <==> a == ""
    ensures a != "" ==> |r| == |Take(a, 6)| + 3 + |TakeLast(a, 4)|
    ensures a != "" ==> StartsWith(r, Take(a, 6)) && StartsWith(a, r[..|Take(a, 6)|])
    ensures a != "" ==> r[|r| - |TakeLast(a, 4)|..] == a[|a| - |TakeLast(a, 4)|..]
    ensures |a| >= 10 ==> |r| == 13 && r[..6] == a[..6] && r[6..9] == "..." && r[9..] == a[|a| - 4..]
  {
    if a == "" then "" else Take(a, 6) + "..." + TakeLast(a, 4)
  }
}
