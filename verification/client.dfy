/** The browser side of Header.js that is not the countdown: turning the
    server's base64 transaction into bytes, and the mint button's guard and
    error reporting. */
module Client {
  import opened Js

  /** An element of a `Uint8Array`. */
  newtype uint8 = x: int | 0 <= x < 256

  /** The value a `Uint8Array` element holds after `bytes[i] = code`: the
      code taken modulo 256. */
  function ToUint8(code: int): (b: uint8)
    ensures b as int == code % 256
  {
    (code % 256) as uint8
  }

  /** What `window.atob` returns: one character per byte, each below 256. */
  predicate IsBinaryString(s: string) {
    forall i :: 0 <= i < |s| ==> s[i] as int < 256
  }

  /** `base64ToUint8Array`, given `binary`, the string `window.atob` decoded
      from the base64 text: an array as long as `binary` whose element `i`
      is the code of character `i`. */
  method Base64ToUint8Array(binary: string) returns (bytes: seq<uint8>)
    ensures |bytes| == |binary|
    ensures forall i :: 0 <= i < |bytes| ==> bytes[i] as int == binary[i] as int % 256
  {
    bytes := seq(|binary|, _ => 0);
    var i := 0;
    while i < |binary|
      invariant 0 <= i <= |binary|
      invariant |bytes| == |binary|
      invariant forall j :: 0 <= j < i ==> bytes[j] as int == binary[j] as int % 256
    {
      bytes := bytes[i := ToUint8(binary[i] as int)];
      i := i + 1;
    }
  }

  /** `String.fromCharCode` applied to every byte. */
  function Latin1(bytes: seq<uint8>): (s: string)
    ensures |s| == |bytes| && IsBinaryString(s)
  {
    seq(|bytes|, i requires 0 <= i < |bytes| => bytes[i] as int as char)
  }

  /** On `atob`'s output no code is cut down: reading the bytes back as
      characters gives the decoded string again. */
  lemma BytesKeepBinary(binary: string, bytes: seq<uint8>)
    requires IsBinaryString(binary)
    requires |bytes| == |binary|
    requires forall i :: 0 <= i < |bytes| ==> bytes[i] as int == binary[i] as int % 256
    ensures Latin1(bytes) == binary
  {
    assert forall i :: 0 <= i < |binary| ==> Latin1(bytes)[i] == binary[i];
  }

  const ConnectWalletFirst := "Please connect a wallet first."
  const DefaultMintFailure := "Failed to create transaction"
  const MintFailedPrefix := "Minting failed: "

  /** The message `handleMint` throws for a non-OK reply:
      `data.details || data.error || 'Failed to create transaction'`. */
  function FailureMessage(details: JsValue, error: JsValue): (m: string)
    ensures |m| > 0
    ensures Truthy(details) ==> m == ToJsString(details)
    ensures !Truthy(details) && Truthy(error) ==> m == ToJsString(error)
    ensures !Truthy(details) && !Truthy(error) ==> m == DefaultMintFailure
  {
    if Truthy(details) then ToJsString(details)
    else if Truthy(error) then ToJsString(error)
    else DefaultMintFailure
  }

  /** What the mint request produced: `fetch` or `response.json()` threw,
      or a reply with its `ok` flag and the `details` and `error` fields of
      its JSON body. */
  datatype MintReply =
    | Thrown(message: string)
    | Reply(ok: bool, details: JsValue, error: JsValue)

  /** The observable effect of one click: the wallet key sent in the request
      body, if a request was sent, and the alert shown, if any. */
  datatype MintClick = MintClick(sent: Option<string>, alert: Option<string>)

  /** `handleMint`, with the connected wallet's key (if any) and the reply
      the request would receive. */
  function HandleMint(wallet: Option<string>, reply: MintReply): (c: MintClick)
    ensures wallet.None? <==> c.sent.None?
    ensures wallet.None? ==> c.alert == Some(ConnectWalletFirst)
    ensures wallet.Some? ==> c.sent == Some(wallet.value)
    ensures wallet.Some? && reply.Reply? && reply.ok ==> c.alert.None?
    ensures wallet.Some? && reply.Reply? && !reply.ok ==>
              c.alert == Some(MintFailedPrefix + FailureMessage(reply.details, reply.error))
    ensures wallet.Some? && reply.Thrown? ==> c.alert == Some(MintFailedPrefix + reply.message)
  {
    match wallet
    case None => MintClick(None, Some(ConnectWalletFirst))
    case Some(w) =>
      match reply
      case Thrown(message) => MintClick(Some(w), Some(MintFailedPrefix + message))
      case Reply(ok, details, error) =>
        if ok then MintClick(Some(w), None)
        else MintClick(Some(w), Some(MintFailedPrefix + FailureMessage(details, error)))
  }
}
