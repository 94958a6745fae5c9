/** The server-side service of dist/app.cjs: building the candy-machine
    creation transaction, minting from the machine created last, and the
    single process-wide slot that remembers that machine. Every SDK and RPC
    call is an oracle: a value given with the request that says whether the
    call completed and, where it returns something the code uses, what. */
module CandyService {
  import opened Js

  type PublicKey = string

  /** A key pair made by `generateSigner`; only its public key is observable. */
  datatype Signer = Signer(publicKey: PublicKey)

  /** The module-level `newCandyMachine` and `newCollectionMint` variables
      (`undefined` is `None`). */
  datatype Slot = Slot(candyMachine: Option<Signer>, collectionMint: Option<Signer>)

  const EmptySlot := Slot(None, None)

  /** The slot's fields are only ever assigned together. */
  predicate SlotValid(s: Slot) {
    s.candyMachine.Some? <==> s.collectionMint.Some?
  }

  datatype ConfigLine = ConfigLine(name: string, uri: string)

  /** The instructions the creation transaction carries, with the
      parameters this code fixes. */
  datatype Instruction =
    | CreateCandyMachine(candyMachine: PublicKey, collection: PublicKey, authority: PublicKey,
                         collectionUpdateAuthority: PublicKey, itemsAvailable: nat,
                         solPaymentDestination: PublicKey)
    | AddConfigLines(candyMachine: PublicKey, index: nat, configLines: seq<ConfigLine>)
    | SetComputeUnitLimit(units: nat)

  const ItemsAvailable: nat := 10
  const ComputeUnits: nat := 800000
  const InitialConfigLines := [ConfigLine("1", "1.json"), ConfigLine("2", "2.json")]

  /** `transactionBuilder().add(create).add(addConfigLines).add(setComputeUnitLimit)`. */
  function CombinedInstructions(server: PublicKey, candyMachine: PublicKey, collection: PublicKey)
    : (ixs: seq<Instruction>)
    ensures |ixs| == 3
    ensures ixs[0].CreateCandyMachine? && ixs[1].AddConfigLines? && ixs[2].SetComputeUnitLimit?
    ensures ixs[0].candyMachine == ixs[1].candyMachine == candyMachine
    ensures ixs[0].authority == ixs[0].collectionUpdateAuthority == ixs[0].solPaymentDestination == server
    ensures ixs[0].collection == collection
    ensures ixs[1].index == 0 && |ixs[1].configLines| == 2
    ensures ixs[2].units == 800000
  {
    [ CreateCandyMachine(candyMachine, collection, server, server, ItemsAvailable, server),
      AddConfigLines(candyMachine, 0, InitialConfigLines),
      SetComputeUnitLimit(ComputeUnits) ]
  }

  /** The transaction the server signs: its instructions in order, the fee
      payer (the Umi identity, which is the server key), and the keys that
      have signed it. */
  datatype Transaction = Transaction(instructions: seq<Instruction>, feePayer: PublicKey, signedBy: seq<PublicKey>)

  /** The oracles of one creation: the two generated signers, then, in
      program order, `publicKey(...)`, `getLatestBlockhash`, `create`,
      `addConfigLines`, `buildWithLatestBlockhash`, the conversion and
      signing, and the serialisation to base64 text. */
  datatype CreateSdk = CreateSdk(
    candyMachine: Signer,
    collectionMint: Signer,
    parsePayer: Outcome<JsError>,
    fetchBlockhash: Outcome<JsError>,
    createIx: Outcome<JsError>,
    addConfigLinesIx: Outcome<JsError>,
    build: Outcome<JsError>,
    sign: Outcome<JsError>,
    serialize: Result<string, JsError>)

  /** Every SDK step of a creation completes. */
  predicate SdkSucceeds(sdk: CreateSdk) {
    sdk.parsePayer.Pass? && sdk.fetchBlockhash.Pass? && sdk.createIx.Pass? && sdk.addConfigLinesIx.Pass?
    && sdk.build.Pass? && sdk.sign.Pass? && sdk.serialize.Success?
  }

  datatype Created = Created(serialized: string, transaction: Transaction)

  datatype CreateOutcome = CreateOutcome(result: Result<Created, JsError>, slot: Slot)

  const MissingWalletPubkey := "phantomWalletPubkey is missing or undefined!"

  /** The first SDK step of a creation that throws, in program order. */
  function FirstCreateFailure(sdk: CreateSdk): (e: Option<JsError>)
    ensures e.None? <==> SdkSucceeds(sdk)
  {
    if sdk.parsePayer.Fail? then Some(sdk.parsePayer.error)
    else if sdk.fetchBlockhash.Fail? then Some(sdk.fetchBlockhash.error)
    else if sdk.createIx.Fail? then Some(sdk.createIx.error)
    else if sdk.addConfigLinesIx.Fail? then Some(sdk.addConfigLinesIx.error)
    else if sdk.build.Fail? then Some(sdk.build.error)
    else if sdk.sign.Fail? then Some(sdk.sign.error)
    else if sdk.serialize.Failure? then Some(sdk.serialize.error)
    else None
  }

  /** `buildAndSerializeCandyMachineTx({ phantomWalletPubkey })` run against
      the slot `slot`, with `server` the server identity's public key. */
  function BuildAndSerialize(slot: Slot, server: PublicKey, phantomWalletPubkey: JsValue, sdk: CreateSdk)
    : (out: CreateOutcome)
    ensures !Truthy(phantomWalletPubkey) ==> out == CreateOutcome(Failure(Error(MissingWalletPubkey)), slot)
    ensures out.result.Failure? <==> !Truthy(phantomWalletPubkey) || !SdkSucceeds(sdk)
    ensures out.result.Failure? ==> out.slot == slot
    ensures Truthy(phantomWalletPubkey) && !SdkSucceeds(sdk) ==>
              Some(out.result.error) == FirstCreateFailure(sdk)
    ensures out.result.Success? ==>
              && out.slot == Slot(Some(sdk.candyMachine), Some(sdk.collectionMint))
              && out.result.value.serialized == sdk.serialize.value
              && out.result.value.transaction.instructions
                   == CombinedInstructions(server, sdk.candyMachine.publicKey, sdk.collectionMint.publicKey)
              && out.result.value.transaction.feePayer == server
              && out.result.value.transaction.signedBy == [server]
    ensures SlotValid(slot) ==> SlotValid(out.slot)
  {
    if !Truthy(phantomWalletPubkey) then CreateOutcome(Failure(Error(MissingWalletPubkey)), slot)
    else match FirstCreateFailure(sdk)
      case Some(e) => CreateOutcome(Failure(e), slot)
      case None =>
        var ixs := CombinedInstructions(server, sdk.candyMachine.publicKey, sdk.collectionMint.publicKey);
        var tx := Transaction(ixs, server, [server]);
        CreateOutcome(Success(Created(sdk.serialize.value, tx)), Slot(Some(sdk.candyMachine), Some(sdk.collectionMint)))
  }

  /** The oracles of one mint: the asset signer, then `fetchCandyMachine`,
      `sendAndConfirm` (with the transaction signature it returns),
      `fetchDigitalAsset`, and writing the summary file. */
  datatype MintSdk = MintSdk(
    asset: Signer,
    fetchMachine: Outcome<JsError>,
    sendAndConfirm: Result<string, JsError>,
    fetchAsset: Outcome<JsError>,
    writeFile: Outcome<JsError>)

  /** The summary a successful mint returns. */
  datatype MintedInfo = MintedInfo(mintedNftPubkey: PublicKey, candyMachinePubkey: PublicKey,
                                   mintedBy: JsValue, transactionSignature: string)

  datatype Minted = Minted(message: string, mintedNft: MintedInfo, transactionSignature: string)

  const MissingUserPubkey := "Missing user pubkey for the mint transaction"
  const NoCandyMachine := "No Candy Machine is set. Please call create-candy-machine first."
  const MintedMessage := "NFT minted successfully"

  /** V8's message for `undefined.publicKey`. */
  const ReadPublicKeyOfUndefined := "Cannot read properties of undefined (reading 'publicKey')"
  const ServerUmiSignerUndefined := "serverUmiSigner is not defined"

  /** The checks `mintCandyMachineNft` makes before any SDK call, in order. */
  function MintPrecondition(slot: Slot, phantomWalletPubkey: JsValue): (e: Option<JsError>)
    ensures e.None? <==> Truthy(phantomWalletPubkey) && slot.candyMachine.Some?
    ensures !Truthy(phantomWalletPubkey) ==> e == Some(Error(MissingUserPubkey))
    ensures Truthy(phantomWalletPubkey) && slot.candyMachine.None? ==> e == Some(Error(NoCandyMachine))
  {
    if !Truthy(phantomWalletPubkey) then Some(Error(MissingUserPubkey))
    else if slot.candyMachine.None? then Some(Error(NoCandyMachine))
    else None
  }

  /** Every step of a mint after the precondition completes: the SDK calls,
      and reading `newCollectionMint.publicKey` for the `mintV1` arguments. */
  predicate MintStepsSucceed(slot: Slot, sdk: MintSdk) {
    sdk.fetchMachine.Pass? && slot.collectionMint.Some? && sdk.sendAndConfirm.Success?
    && sdk.fetchAsset.Pass? && sdk.writeFile.Pass?
  }

  /** The first step of a mint after the precondition that throws, in
      program order: `fetchCandyMachine`, the `newCollectionMint.publicKey`
      read, `sendAndConfirm`, `fetchDigitalAsset`, the file write. */
  function FirstMintFailure(slot: Slot, sdk: MintSdk): (e: Option<JsError>)
    ensures e.None? <==> MintStepsSucceed(slot, sdk)
  {
    if sdk.fetchMachine.Fail? then Some(sdk.fetchMachine.error)
    else if slot.collectionMint.None? then Some(TypeError(ReadPublicKeyOfUndefined))
    else if sdk.sendAndConfirm.Failure? then Some(sdk.sendAndConfirm.error)
    else if sdk.fetchAsset.Fail? then Some(sdk.fetchAsset.error)
    else if sdk.writeFile.Fail? then Some(sdk.writeFile.error)
    else None
  }

  /** `mintCandyMachineNft` as evidently intended: the payment destination
      is the server identity, the file-system helpers are in scope, and the
      `catch` block re-throws the error it caught whatever the slot holds. */
  function Mint(slot: Slot, phantomWalletPubkey: JsValue, sdk: MintSdk): (r: Result<Minted, JsError>)
    ensures MintPrecondition(slot, phantomWalletPubkey).Some? ==>
              r == Failure(MintPrecondition(slot, phantomWalletPubkey).value)
    ensures r.Success? <==> MintPrecondition(slot, phantomWalletPubkey).None? && MintStepsSucceed(slot, sdk)
    ensures MintPrecondition(slot, phantomWalletPubkey).None? && !MintStepsSucceed(slot, sdk) ==>
              Some(r.error) == FirstMintFailure(slot, sdk)
    ensures r.Success? ==>
              && r.value.message == MintedMessage
              && r.value.mintedNft.candyMachinePubkey == slot.candyMachine.value.publicKey
              && r.value.mintedNft.mintedBy == phantomWalletPubkey
              && r.value.mintedNft.mintedNftPubkey == sdk.asset.publicKey
              && r.value.transactionSignature == r.value.mintedNft.transactionSignature == sdk.sendAndConfirm.value
  {
    match MintPrecondition(slot, phantomWalletPubkey)
    case Some(e) => Failure(e)
    case None =>
      match FirstMintFailure(slot, sdk)
      case Some(e) => Failure(e)
      case None =>
        var signature := sdk.sendAndConfirm.value;
        var info := MintedInfo(sdk.asset.publicKey, slot.candyMachine.value.publicKey, phantomWalletPubkey, signature);
        Success(Minted(MintedMessage, info, signature))
  }

  /** The error the body of `mintCandyMachineNft`'s `try` block throws as
      written: the pubkey check, then the slot check, then
      `fetchCandyMachine`, and then, evaluating the `mintV1` arguments, the
      read of `newCollectionMint.publicKey` and the reference to
      `serverUmiSigner`, which no line of the module defines. Up to that
      reference it throws what the intended version throws. */
  function MintBodyErrorAsWritten(slot: Slot, phantomWalletPubkey: JsValue, sdk: MintSdk): (e: JsError)
    ensures MintPrecondition(slot, phantomWalletPubkey).None? && sdk.fetchMachine.Pass? && slot.collectionMint.Some? ==>
              e == ReferenceError(ServerUmiSignerUndefined)
    ensures !(MintPrecondition(slot, phantomWalletPubkey).None? && sdk.fetchMachine.Pass? && slot.collectionMint.Some?) ==>
              Mint(slot, phantomWalletPubkey, sdk) == Failure(e)
  {
    if !Truthy(phantomWalletPubkey) then Error(MissingUserPubkey)
    else if slot.candyMachine.None? then Error(NoCandyMachine)
    else if sdk.fetchMachine.Fail? then sdk.fetchMachine.error
    else if slot.collectionMint.None? then TypeError(ReadPublicKeyOfUndefined)
    else ReferenceError(ServerUmiSignerUndefined)
  }

  /** `mintCandyMachineNft({ phantomWalletPubkey })` as written: the `catch`
      block logs `newCandyMachine.publicKey` before re-throwing, so with an
      empty slot the caller gets that dereference's TypeError instead. */
  function MintAsWritten(slot: Slot, phantomWalletPubkey: JsValue, sdk: MintSdk): (r: Result<Minted, JsError>)
    ensures r.Failure?
    ensures slot.candyMachine.None? ==> r.error == TypeError(ReadPublicKeyOfUndefined)
    ensures slot.candyMachine.Some? ==> r.error == MintBodyErrorAsWritten(slot, phantomWalletPubkey, sdk)
  {
    var thrown := MintBodyErrorAsWritten(slot, phantomWalletPubkey, sdk);
    if slot.candyMachine.None? then Failure(TypeError(ReadPublicKeyOfUndefined)) else Failure(thrown)
  }

  /** As written, minting never succeeds: every path through the `try`
      block throws, at the latest on `serverUmiSigner`. */
  lemma MintAsWrittenNeverSucceeds(slot: Slot, phantomWalletPubkey: JsValue, sdk: MintSdk)
    requires Truthy(phantomWalletPubkey) && slot.candyMachine.Some? && MintStepsSucceed(slot, sdk)
    ensures Mint(slot, phantomWalletPubkey, sdk).Success?
    ensures MintAsWritten(slot, phantomWalletPubkey, sdk) == Failure(ReferenceError(ServerUmiSignerUndefined))
  {
  }

  /** As written, a mint before any creation reports the TypeError of the
      `catch` block, not "No Candy Machine is set…", which the intended
      version reports. */
  lemma MintAsWrittenMasksMissingMachine(phantomWalletPubkey: JsValue, sdk: MintSdk)
    requires Truthy(phantomWalletPubkey)
    ensures MintAsWritten(EmptySlot, phantomWalletPubkey, sdk) == Failure(TypeError(ReadPublicKeyOfUndefined))
    ensures Mint(EmptySlot, phantomWalletPubkey, sdk) == Failure(Error(NoCandyMachine))
  {
  }
}
