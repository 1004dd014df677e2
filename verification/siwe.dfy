/** Sign-In with Ethereum from `src/components/siew.tsx`: the text the wallet
    signs, and the order in which `login` talks to the wallet and the auth
    server.

    The message follows the fixed template of the component, not the ABNF of
    EIP-4361 ("Message Format"): with no statement line the component leaves a
    single blank line after the address, where the ABNF has two. */
module Siwe {
  import opened Options
  import opened Text

  const Domain := "myapp.com"
  const Header := Domain + " wants you" + " to sign in" + " with your" + " Ethereum" + " account:"
  const UriLine := "URI: " + "https://" + Domain
  const VersionLine := "Version: 1"
  const ChainIdLabel := "Chain ID: "
  const NonceLabel := "Nonce: "
  const IssuedAtLabel := "Issued At: "

  /** `${chainId}` in a template literal: the decimal number, or the text
      "undefined" when the wallet reports no chain. */
  function ChainIdText(chainId: Option<nat>): (r: string)
    ensures '\n' !in r
    ensures chainId.Some? ==> r == NatToDecimal(chainId.value)
    ensures chainId.None? ==> r == "undefined"
  {
    match chainId
    case None => "undefined"
    case Some(n) => NatToDecimal(n)
  }

  /** The eight lines of a sign-in message, in order. */
  function MessageLines(address: string, chainId: Option<nat>, nonce: string, issuedAt: string): seq<string> {
    [Header, address, "", UriLine, VersionLine,
     ChainIdLabel + ChainIdText(chainId), NonceLabel + nonce, IssuedAtLabel + issuedAt]
  }

  /** The sign-in text built by `login`: the template literal of lines
      29-36, whose eight lines are separated by line breaks. When no field
      holds a line break, splitting the text at line breaks gives back exactly
      the eight lines domain/address/blank/URI/Version/Chain ID/Nonce/Issued At. */
  function BuildMessage(address: string, chainId: Option<nat>, nonce: string, issuedAt: string): (msg: string)
    ensures '\n' !in address && '\n' !in nonce && '\n' !in issuedAt ==>
              Split(msg, '\n') == MessageLines(address, chainId, nonce, issuedAt)
  {
    var lines := MessageLines(address, chainId, nonce, issuedAt);
    assert '\n' !in address && '\n' !in nonce && '\n' !in issuedAt ==> Split(Join(lines, '\n'), '\n') == lines by {
      if '\n' !in address && '\n' !in nonce && '\n' !in issuedAt {
        LinesWithoutBreaks(address, chainId, nonce, issuedAt);
        SplitJoin(lines, '\n');
      }
    }
    Join(lines, '\n')
  }

  lemma LinesWithoutBreaks(address: string, chainId: Option<nat>, nonce: string, issuedAt: string)
    requires '\n' !in address && '\n' !in nonce && '\n' !in issuedAt
    ensures forall k :: 0 <= k < 8 ==> '\n' !in MessageLines(address, chainId, nonce, issuedAt)[k]
  {
    var lines := MessageLines(address, chainId, nonce, issuedAt);
    assert '\n' !in Header && '\n' !in UriLine && '\n' !in VersionLine;
    assert '\n' !in ChainIdLabel + ChainIdText(chainId);
    assert '\n' !in NonceLabel + nonce;
    assert '\n' !in IssuedAtLabel + issuedAt;
  }

  /** The fields a sign-in message carries, as text. */
  datatype MessageFields = MessageFields(address: string, chainId: string, nonce: string, issuedAt: string)

  /** Reads the fields back out of a sign-in text, or None when the text does
      not have the fixed shape. */
  function ParseMessage(msg: string): Option<MessageFields> {
    var lines := Split(msg, '\n');
    if |lines| == 8 && lines[0] == Header && lines[2] == "" && lines[3] == UriLine
       && lines[4] == VersionLine && ChainIdLabel <= lines[5] && NonceLabel <= lines[6]
       && IssuedAtLabel <= lines[7]
    then Some(MessageFields(lines[1], lines[5][|ChainIdLabel|..], lines[6][|NonceLabel|..],
                            lines[7][|IssuedAtLabel|..]))
    else None
  }

  /** Building then parsing gives back the address, chain id, nonce and
      timestamp. */
  lemma ParseBuildRoundTrip(address: string, chainId: Option<nat>, nonce: string, issuedAt: string)
    requires '\n' !in address && '\n' !in nonce && '\n' !in issuedAt
    ensures ParseMessage(BuildMessage(address, chainId, nonce, issuedAt))
            == Some(MessageFields(address, ChainIdText(chainId), nonce, issuedAt))
  {
    var lines := MessageLines(address, chainId, nonce, issuedAt);
    assert (ChainIdLabel + ChainIdText(chainId))[|ChainIdLabel|..] == ChainIdText(chainId);
    assert (NonceLabel + nonce)[|NonceLabel|..] == nonce;
    assert (IssuedAtLabel + issuedAt)[|IssuedAtLabel|..] == issuedAt;
  }

  /** The chain id text identifies the chain id. */
  lemma ChainIdTextInjective(a: Option<nat>, b: Option<nat>)
    requires ChainIdText(a) == ChainIdText(b)
    ensures a == b
  {
    if a.Some? && b.Some? {
      NatToDecimalInjective(a.value, b.value);
    }
  }

  /** Different (address, chain, nonce, timestamp) give different texts, so a
      signature over one message cannot stand for another. */
  lemma BuildMessageInjective(a1: string, c1: Option<nat>, n1: string, t1: string,
                              a2: string, c2: Option<nat>, n2: string, t2: string)
    requires '\n' !in a1 && '\n' !in n1 && '\n' !in t1
    requires '\n' !in a2 && '\n' !in n2 && '\n' !in t2
    requires BuildMessage(a1, c1, n1, t1) == BuildMessage(a2, c2, n2, t2)
    ensures a1 == a2 && c1 == c2 && n1 == n2 && t1 == t2
  {
    ParseBuildRoundTrip(a1, c1, n1, t1);
    ParseBuildRoundTrip(a2, c2, n2, t2);
    ChainIdTextInjective(c1, c2);
  }

  // ---------------------------------------------------------------------------
  // The `login` sequence

  /** What the wallet hook reports when `login` runs. `address` is the value
      captured at render time: awaiting `connect` does not refresh it. */
  datatype Wallet = Wallet(isConnected: bool, address: Option<string>, chainId: Option<nat>)

  /** An awaited call either throws or returns a value. */
  datatype Step<+T> = Threw | Returned(value: T)

  /** The answers the outside world gives, in the order they are asked for:
      the connector, the nonce endpoint (`data`, possibly missing), the wallet's
      signature, the verify endpoint (`data.user.id`, possibly missing), and the
      clock read for "Issued At". */
  datatype Responses = Responses(
    connect: Step<()>,
    nonce: Step<Option<string>>,
    signature: Step<string>,
    verify: Step<Option<string>>,
    issuedAt: string)

  /** A call `login` makes to the wallet or the auth server. */
  datatype Call =
    | Connect
    | RequestNonce(walletAddress: string, chainId: Option<nat>)
    | SignMessage(message: string)
    | VerifySignature(message: string, signature: string, walletAddress: string, chainId: Option<nat>)

  /** The toast `login` ends with; `NoToast` for the silent early return. */
  datatype Toast = NoToast | LoggedInAs(userId: string) | LoginFailed | LoginError

  datatype Run = Run(calls: seq<Call>, toast: Toast)

  /** `!address` is false exactly for a present, non-empty address. */
  predicate HasAddress(w: Wallet) {
    w.address.Some? && w.address.value != ""
  }

  /** Position of each kind of call in the protocol. */
  function Rank(c: Call): nat {
    match c
    case Connect => 0
    case RequestNonce(_, _) => 1
    case SignMessage(_) => 2
    case VerifySignature(_, _, _, _) => 3
  }

  /** The run reached the verify endpoint (which can only be its last call). */
  predicate EndsWithVerify(calls: seq<Call>) {
    |calls| > 0 && calls[|calls| - 1].VerifySignature?
  }

  /** The last call of a run is one whose answer ended the run with an error:
      it threw, or (for the nonce) returned no data. */
  predicate LastCallFailed(calls: seq<Call>, env: Responses)
    requires |calls| > 0
  {
    match calls[|calls| - 1]
    case Connect => env.connect.Threw?
    case RequestNonce(_, _) => env.nonce.Threw? || env.nonce.value.None?
    case SignMessage(_) => env.signature.Threw?
    case VerifySignature(_, _, _, _) => env.verify.Threw?
  }

  /** `login`: connect if needed, then nonce, message, signature, verification,
      each step leaving early on a missing value or an exception. */
  function Login(w: Wallet, env: Responses): (run: Run)
    // connect is attempted exactly when the wallet is not already connected
    ensures Connect in run.calls <==> !w.isConnected
    // without an address nothing reaches the auth server or the signer
    ensures !HasAddress(w) ==> run.calls == [] || run.calls == [Connect]
    // success is reported exactly when verification returned data
    ensures run.toast.LoggedInAs? <==>
              EndsWithVerify(run.calls) && env.verify.Returned? && env.verify.value.Some?
    ensures run.toast.LoggedInAs? ==> run.toast.userId == env.verify.value.value
    // every exception (and the missing nonce) ends in the error toast
    ensures run.toast == LoginError <==> |run.calls| > 0 && LastCallFailed(run.calls, env)
    // the silent return happens only for a missing address
    ensures run.toast == NoToast <==> !HasAddress(w) && !(!w.isConnected && env.connect.Threw?)
  {
    var c0 := if w.isConnected then [] else [Connect];
    if !w.isConnected && env.connect.Threw? then Run(c0, LoginError)
    else if !HasAddress(w) then Run(c0, NoToast)
    else
      var rest := Authenticate(w.address.value, w.chainId, env);
      Run(c0 + rest.calls, rest.toast)
  }

  /** The part of `login` after the address check: nonce, message,
      signature, verification. */
  function Authenticate(address: string, chainId: Option<nat>, env: Responses): (run: Run)
    ensures 1 <= |run.calls| <= 3 && run.calls[0] == RequestNonce(address, chainId)
    ensures forall i :: 0 <= i < |run.calls| ==> Rank(run.calls[i]) == i + 1
    ensures env.nonce.Returned? && env.nonce.value.None? ==> |run.calls| == 1
    ensures |run.calls| >= 2 ==>
              env.nonce.Returned? && env.nonce.value.Some? &&
              run.calls[1] == SignMessage(BuildMessage(address, chainId, env.nonce.value.value, env.issuedAt))
    ensures |run.calls| == 3 ==>
              env.signature.Returned? &&
              run.calls[2] == VerifySignature(run.calls[1].message, env.signature.value, address, chainId)
    ensures run.toast.LoggedInAs? <==> |run.calls| == 3 && env.verify.Returned? && env.verify.value.Some?
    ensures run.toast.LoggedInAs? ==> run.toast.userId == env.verify.value.value
    ensures run.toast == LoginError <==> LastCallFailed(run.calls, env)
    ensures run.toast != NoToast
  {
    var c1 := [RequestNonce(address, chainId)];
    match env.nonce
    case Threw => Run(c1, LoginError)
    case Returned(None) => Run(c1, LoginError)
    case Returned(Some(nonce)) =>
      var message := BuildMessage(address, chainId, nonce, env.issuedAt);
      var c2 := c1 + [SignMessage(message)];
      match env.signature
      case Threw => Run(c2, LoginError)
      case Returned(signature) =>
        var c3 := c2 + [VerifySignature(message, signature, address, chainId)];
        match env.verify
        case Threw => Run(c3, LoginError)
        case Returned(None) => Run(c3, LoginFailed)
        case Returned(Some(id)) => Run(c3, LoggedInAs(id))
  }

  /** When `login` gets past the address check, its calls are the optional
      connect followed by those of `Authenticate`. */
  lemma LoginCallsSplit(w: Wallet, env: Responses)
    requires HasAddress(w) && !(!w.isConnected && env.connect.Threw?)
    ensures var calls := Login(w, env).calls;
            var rest := Authenticate(w.address.value, w.chainId, env).calls;
            var n := if w.isConnected then 0 else 1;
            && |calls| == n + |rest|
            && (forall i :: 0 <= i < n ==> calls[i] == Connect)
            && (forall i :: n <= i < |calls| ==> calls[i] == rest[i - n])
  {
  }

  /** The calls of `login` come in protocol order: connect, nonce, sign,
      verify, each at most once; a missing nonce stops the run before
      anything is signed. */
  lemma LoginCallOrder(w: Wallet, env: Responses)
    ensures var calls := Login(w, env).calls;
            forall i, j :: 0 <= i < j < |calls| ==> Rank(calls[i]) < Rank(calls[j])
    ensures env.nonce.Returned? && env.nonce.value.None? ==>
              var calls := Login(w, env).calls;
              forall i :: 0 <= i < |calls| ==> Rank(calls[i]) < 2
  {
    if HasAddress(w) && !(!w.isConnected && env.connect.Threw?) {
      LoginCallsSplit(w, env);
    }
  }

  /** The nonce request carries the wallet's address and chain, and what is
      signed is the template filled with this address, chain, nonce and
      clock. */
  lemma LoginCallArguments(w: Wallet, env: Responses)
    ensures var calls := Login(w, env).calls;
            forall i :: 0 <= i < |calls| && calls[i].RequestNonce? ==>
              HasAddress(w) && calls[i] == RequestNonce(w.address.value, w.chainId)
    ensures var calls := Login(w, env).calls;
            forall i :: 0 <= i < |calls| && calls[i].SignMessage? ==>
              HasAddress(w) && env.nonce.Returned? && env.nonce.value.Some? &&
              calls[i].message == BuildMessage(w.address.value, w.chainId, env.nonce.value.value, env.issuedAt)
  {
    if HasAddress(w) && !(!w.isConnected && env.connect.Threw?) {
      LoginCallsSplit(w, env);
    }
  }

  /** Verification comes last, right after the signature, and receives that
      very message, the returned signature, and the same address and chain. */
  lemma LoginVerifiesLast(w: Wallet, env: Responses)
    ensures var calls := Login(w, env).calls;
            EndsWithVerify(calls) ==>
              var v := calls[|calls| - 1];
              && |calls| >= 2 && calls[|calls| - 2] == SignMessage(v.message)
              && env.signature == Returned(v.signature)
              && v.walletAddress == w.address.value && v.chainId == w.chainId
  {
    if HasAddress(w) && !(!w.isConnected && env.connect.Threw?) {
      LoginCallsSplit(w, env);
    }
  }

  /** The walk-through of a successful sign-in: a connected wallet, a nonce,
      a signature and verification data end in the success toast with the
      user id from the server, after exactly three calls. */
  lemma LoginHappyPath(address: string, chainId: nat, nonce: string, signature: string, userId: string, issuedAt: string)
    requires address != ""
    ensures var env := Responses(Returned(()), Returned(Some(nonce)), Returned(signature), Returned(Some(userId)), issuedAt);
            var run := Login(Wallet(true, Some(address), Some(chainId)), env);
            && run.toast == LoggedInAs(userId)
            && run.calls == [RequestNonce(address, Some(chainId)),
                             SignMessage(BuildMessage(address, Some(chainId), nonce, issuedAt)),
                             VerifySignature(BuildMessage(address, Some(chainId), nonce, issuedAt), signature, address, Some(chainId))]
  {
  }
}
