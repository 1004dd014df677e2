/** The wallet panel of `src/components/wallet/wallet-connection.tsx`: the
    network name of a chain id, the shortened address, and which of the three
    panels is drawn. Whether MetaMask is present, the account, the chain and
    the balance come from the wallet library and are inputs; the balance's
    decimal rendering (`formatEther`, `parseFloat`, `toFixed(4)`) is a
    parameter. */
module WalletConnection {
  import opened Options
  import opened Text

  /** The chains `getNetworkName` knows, with their names. */
  const KnownChains: seq<(int, string)> := [
    (1, "Ethereum Mainnet"),
    (11155111, "Sepolia"),
    (137, "Polygon"),
    (80001, "Mumbai")]

  const UnknownNetwork := "Unknown Network"

  /** `getNetworkName`. */
  function NetworkName(chainId: Option<int>): (r: string)
    // a known chain gets its own name
    ensures forall k :: 0 <= k < |KnownChains| && chainId == Some(KnownChains[k].0) ==> r == KnownChains[k].1
    // anything else, including no chain at all, is unknown
    ensures (forall k :: 0 <= k < |KnownChains| ==> chainId != Some(KnownChains[k].0)) ==> r == UnknownNetwork
  {
    match chainId
    case Some(1) => assert KnownChains[0].0 == 1; "Ethereum Mainnet"
    case Some(11155111) => assert KnownChains[1].0 == 11155111; "Sepolia"
    case Some(137) => assert KnownChains[2].0 == 137; "Polygon"
    case Some(80001) => assert KnownChains[3].0 == 80001; "Mumbai"
    case _ => UnknownNetwork
  }

  /** The chain a shown network name stands for, if the name is one of the
      known ones. */
  function ChainOfName(name: string): (r: Option<int>)
    ensures r.Some? <==> exists k :: 0 <= k < |KnownChains| && KnownChains[k].1 == name
  {
    if name == "Ethereum Mainnet" then assert KnownChains[0].1 == name; Some(1)
    else if name == "Sepolia" then assert KnownChains[1].1 == name; Some(11155111)
    else if name == "Polygon" then assert KnownChains[2].1 == name; Some(137)
    else if name == "Mumbai" then assert KnownChains[3].1 == name; Some(80001)
    else None
  }

  /** The name shown tells the chain apart: a known name leads back to the
      chain id it was made from, and the unknown name to none of them. */
  lemma NetworkNameRoundTrip(chainId: Option<int>)
    ensures var name := NetworkName(chainId);
            && (name != UnknownNetwork ==> ChainOfName(name) == chainId)
            && (name == UnknownNetwork ==> ChainOfName(name).None?)
  {
    var name := NetworkName(chainId);
    if name == UnknownNetwork {
      forall k | 0 <= k < |KnownChains| ensures KnownChains[k].1 != name {
      }
    }
  }

  /** Two chains shown under the same known name are the same chain. */
  lemma NetworkNameInjective(a: Option<int>, b: Option<int>)
    requires NetworkName(a) == NetworkName(b) != UnknownNetwork
    ensures a == b
  {
    NetworkNameRoundTrip(a);
    NetworkNameRoundTrip(b);
  }

  const Ellipsis := "..."

  /** `{address?.slice(0, 6)}...{address?.slice(-4)}`; an absent address
      draws as nothing on both sides. */
  function ShortenAddress(address: Option<string>): (r: string)
    ensures address.None? ==> r == Ellipsis
    // in general: the first (up to) six characters, the dots, the last (up
    // to) four characters
    ensures address.Some? ==>
              var a := address.value;
              var head := if |a| < 6 then |a| else 6;
              var tail := if |a| < 4 then 0 else |a| - 4;
              r == a[..head] + Ellipsis + a[tail..]
  {
    match address
    case None => Ellipsis
    case Some(a) => JsSlice(a, 0, Some(6)) + Ellipsis + JsSlice(a, -4, None)
  }

  /** An address of at least ten characters is shown in thirteen: its first
      six, the dots and its last four, so nothing is repeated. For a 42
      character Ethereum address the "0x" prefix survives. */
  lemma ShortenLongAddress(a: string)
    requires |a| >= 10
    ensures var r := ShortenAddress(Some(a));
            && |r| == 13
            && r[..6] == a[..6] && r[6..9] == Ellipsis && r[9..] == a[|a| - 4..]
            && forall k :: 0 <= k < 6 ==> r[k] == a[k]
  {
    var r := ShortenAddress(Some(a));
    assert r == a[..6] + Ellipsis + a[|a| - 4..];
  }

  /** A shorter address has its ends overlap: characters in the middle of a
      seven-character address appear on both sides of the dots. */
  lemma ShortenShortAddressRepeats()
    ensures ShortenAddress(Some("abcdefg")) == "abcdef...defg"
  {
    assert "abcdefg"[..6] == "abcdef";
    assert "abcdefg"[3..] == "defg";
  }

  datatype Balance = Balance(value: nat, symbol: string)

  /** The three panels. */
  datatype Panel =
    | InstallMetaMask
    | ConnectPrompt
    | Details(address: string, network: string, balance: string)

  const LoadingBalance := "Loading..."

  /** Which panel is drawn: without MetaMask the install prompt whatever the
      account says; with MetaMask but no connection the connect prompt; only
      then the details. */
  function Render(isMetaMask: bool, isConnected: bool, address: Option<string>, chainId: Option<int>,
                  balance: Option<Balance>, formatUnits: nat -> string): (p: Panel)
    ensures p.InstallMetaMask? <==> !isMetaMask
    ensures p.ConnectPrompt? <==> isMetaMask && !isConnected
    ensures p.Details? <==> isMetaMask && isConnected
    ensures p.Details? ==> p.address == ShortenAddress(address) && p.network == NetworkName(chainId)
    ensures p.Details? && balance.None? ==> p.balance == LoadingBalance
    ensures p.Details? && balance.Some? ==>
              p.balance == formatUnits(balance.value.value) + " " + balance.value.symbol
  {
    if !isMetaMask then InstallMetaMask
    else if !isConnected then ConnectPrompt
    else
      var shown := match balance
        case None => LoadingBalance
        case Some(b) => formatUnits(b.value) + " " + b.symbol;
      Details(ShortenAddress(address), NetworkName(chainId), shown)
  }

  /** The MetaMask check runs in an effect after the first paint, with the
      flag starting false: the first paint is always the install prompt, even
      for a connected wallet. */
  lemma FirstPaintIsInstallPrompt(isConnected: bool, address: Option<string>, chainId: Option<int>,
                                  balance: Option<Balance>, formatUnits: nat -> string)
    ensures Render(false, isConnected, address, chainId, balance, formatUnits) == InstallMetaMask
  {
  }
}
