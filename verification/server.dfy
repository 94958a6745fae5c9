/** The two POST routes of server.js, and the process they run in: a
    sequence of requests handled one after another against the single
    candy-machine slot of the service. */
module Server {
  import opened Js
  import opened CandyService

  const CreateSucceededMessage := "Candy Machine creation transaction built successfully"
  const CreateFailedError := "Candy machine creation failed"
  const MintFailedError := "Minting from Candy Machine failed"
  const MissingUserPubkeyDetails := "Missing userPubkey (undefined or empty)!"
  const InvalidFormatDetails := "Invalid public key format"

  datatype Body =
    | CreatedBody(message: string, transaction: string)
    | MintedBody(minted: Minted)
    | ErrorBody(error: string, details: string)

  /** `res.json(...)` answers 200; the `catch` blocks answer 500. */
  datatype Response = Response(status: nat, body: Body)

  /** The route's own checks of `userPubkey`, in order: present and
      non-empty first, then 43 or 44 characters long. */
  function ValidateUserPubkey(userPubkey: JsValue): (o: Outcome<string>)
    ensures o == Fail(MissingUserPubkeyDetails) <==> !Truthy(userPubkey)
    ensures o == Fail(InvalidFormatDetails) <==>
              Truthy(userPubkey) && !(userPubkey.Str? && (|userPubkey.s| == 43 || |userPubkey.s| == 44))
    ensures o.Pass? <==> userPubkey.Str? && (|userPubkey.s| == 43 || |userPubkey.s| == 44)
  {
    if !Truthy(userPubkey) then Fail(MissingUserPubkeyDetails)
    else
      var length := Length(userPubkey);
      if length != Some(44) && length != Some(43) then Fail(InvalidFormatDetails)
      else Pass
  }

  /** `POST /create-candy-machine` with body field `userPubkey`. */
  function CreateRoute(slot: Slot, server: PublicKey, userPubkey: JsValue, sdk: CreateSdk): (r: (Response, Slot))
    ensures ValidateUserPubkey(userPubkey).Fail? ==>
              r == (Response(500, ErrorBody(CreateFailedError, ValidateUserPubkey(userPubkey).error)), slot)
    ensures r.0.status == 200 <==> ValidateUserPubkey(userPubkey).Pass? && SdkSucceeds(sdk)
    ensures r.0.status == 200 ==>
              r.0.body == CreatedBody(CreateSucceededMessage, sdk.serialize.value)
              && r.1 == Slot(Some(sdk.candyMachine), Some(sdk.collectionMint))
    ensures r.0.status != 200 ==> r.0.status == 500 && r.0.body.ErrorBody? && r.0.body.error == CreateFailedError && r.1 == slot
    ensures ValidateUserPubkey(userPubkey).Pass? && !SdkSucceeds(sdk) ==>
              r.0.body.details == FirstCreateFailure(sdk).value.message
  {
    match ValidateUserPubkey(userPubkey)
    case Fail(details) => (Response(500, ErrorBody(CreateFailedError, details)), slot)
    case Pass =>
      var out := BuildAndSerialize(slot, server, userPubkey, sdk);
      match out.result
      case Success(created) => (Response(200, CreatedBody(CreateSucceededMessage, created.serialized)), out.slot)
      case Failure(e) => (Response(500, ErrorBody(CreateFailedError, e.message)), out.slot)
  }

  /** The route's length check makes the service's own missing-key check
      unreachable: whatever passes the route is truthy. */
  lemma RouteSubsumesServiceCheck(slot: Slot, server: PublicKey, userPubkey: JsValue, sdk: CreateSdk)
    requires ValidateUserPubkey(userPubkey).Pass?
    ensures BuildAndSerialize(slot, server, userPubkey, sdk).result.Failure? <==> !SdkSucceeds(sdk)
  {
  }

  /** Maps the outcome of `mintCandyMachineNft` to the reply of
      `POST /mint-candy-machine`. */
  function MintReply(minted: Result<Minted, JsError>): (r: Response)
    ensures minted.Success? <==> r.status == 200
    ensures minted.Success? ==> r.body == MintedBody(minted.value)
    ensures minted.Failure? ==> r.body == ErrorBody(MintFailedError, minted.error.message) && r.status == 500
  {
    match minted
    case Success(m) => Response(200, MintedBody(m))
    case Failure(e) => Response(500, ErrorBody(MintFailedError, e.message))
  }

  /** `POST /mint-candy-machine` over the service as written: every request
      gets a 500 reply carrying the error the service threw, and the slot
      is never written. */
  function MintRouteAsWritten(slot: Slot, userPubkey: JsValue, sdk: MintSdk): (r: (Response, Slot))
    ensures r.1 == slot
    ensures r.0.status == 500 && r.0.body.ErrorBody? && r.0.body.error == MintFailedError
    ensures r.0.body.details == MintAsWritten(slot, userPubkey, sdk).error.message
  {
    (MintReply(MintAsWritten(slot, userPubkey, sdk)), slot)
  }

  /** `POST /mint-candy-machine` over the corrected service: `userPubkey`
      goes to the service as it came, with no check of its own; the slot is
      never written. */
  function MintRoute(slot: Slot, userPubkey: JsValue, sdk: MintSdk): (r: (Response, Slot))
    ensures r.1 == slot
    ensures r.0 == MintReply(Mint(slot, userPubkey, sdk))
    ensures r.0.status == 200 ==> r.0.body.minted.mintedNft.mintedBy == userPubkey
  {
    (MintReply(Mint(slot, userPubkey, sdk)), slot)
  }

  /** Over the corrected service, the mint route answers any non-empty key,
      whatever its length, once a machine is stored and the SDK calls
      complete. */
  lemma MintRouteHasNoLengthCheck(slot: Slot, key: string, sdk: MintSdk)
    requires key != "" && slot.candyMachine.Some? && MintStepsSucceed(slot, sdk)
    ensures MintRoute(slot, Str(key), sdk).0.status == 200
  {
  }

  /** One request with the SDK behaviour it meets. */
  datatype Request =
    | CreateRequest(userPubkey: JsValue, createSdk: CreateSdk)
    | MintRequest(userPubkey: JsValue, mintSdk: MintSdk)

  function Handle(slot: Slot, server: PublicKey, req: Request): (r: (Response, Slot))
    ensures req.MintRequest? ==> r.1 == slot
    ensures SlotValid(slot) ==> SlotValid(r.1)
  {
    match req
    case CreateRequest(userPubkey, sdk) => CreateRoute(slot, server, userPubkey, sdk)
    case MintRequest(userPubkey, sdk) => MintRoute(slot, userPubkey, sdk)
  }

  /** A creation request that the route accepts and the SDK completes. */
  predicate CreateSucceeds(req: Request) {
    req.CreateRequest? && ValidateUserPubkey(req.userPubkey).Pass? && SdkSucceeds(req.createSdk)
  }

  /** The slot a successful creation request leaves behind. */
  function CreatedSlot(req: Request): Slot
    requires req.CreateRequest?
  {
    Slot(Some(req.createSdk.candyMachine), Some(req.createSdk.collectionMint))
  }

  /** The slot after requests are handled one at a time, in order. */
  function FinalSlot(slot: Slot, server: PublicKey, reqs: seq<Request>): Slot
    decreases |reqs|
  {
    if |reqs| == 0 then slot else FinalSlot(Handle(slot, server, reqs[0]).1, server, reqs[1..])
  }

  /** Requests of which no creation succeeds leave the slot as it was. */
  lemma {:induction false} NoCreationKeepsSlot(slot: Slot, server: PublicKey, reqs: seq<Request>)
    requires forall j :: 0 <= j < |reqs| ==> !CreateSucceeds(reqs[j])
    ensures FinalSlot(slot, server, reqs) == slot
    decreases |reqs|
  {
    if |reqs| > 0 {
      assert !CreateSucceeds(reqs[0]);
      assert Handle(slot, server, reqs[0]).1 == slot;
      NoCreationKeepsSlot(slot, server, reqs[1..]);
    }
  }

  /** Last writer wins: the slot holds the signers of the last creation
      that succeeded, whatever came before it. */
  lemma {:induction false} LastCreationWins(slot: Slot, server: PublicKey, reqs: seq<Request>, i: nat)
    requires i < |reqs| && CreateSucceeds(reqs[i])
    requires forall j :: i < j < |reqs| ==> !CreateSucceeds(reqs[j])
    ensures FinalSlot(slot, server, reqs) == CreatedSlot(reqs[i])
    decreases |reqs|
  {
    var next := Handle(slot, server, reqs[0]).1;
    if i == 0 {
      assert next == CreatedSlot(reqs[0]);
      assert forall j :: 0 <= j < |reqs[1..]| ==> !CreateSucceeds(reqs[1..][j]) by {
        forall j | 0 <= j < |reqs[1..]| ensures !CreateSucceeds(reqs[1..][j]) {
          assert reqs[1..][j] == reqs[j + 1];
        }
      }
      NoCreationKeepsSlot(next, server, reqs[1..]);
    } else {
      assert reqs[1..][i - 1] == reqs[i];
      assert forall j :: i - 1 < j < |reqs[1..]| ==> !CreateSucceeds(reqs[1..][j]) by {
        forall j | i - 1 < j < |reqs[1..]| ensures !CreateSucceeds(reqs[1..][j]) {
          assert reqs[1..][j] == reqs[j + 1];
        }
      }
      LastCreationWins(next, server, reqs[1..], i - 1);
    }
  }

  /** With one global slot, a mint over the corrected service targets the
      machine of the most recent successful creation, even when it was made
      for another user. */
  lemma MintTargetsLastCreation(slot: Slot, server: PublicKey, reqs: seq<Request>, i: nat,
                                userPubkey: JsValue, sdk: MintSdk)
    requires i < |reqs| && CreateSucceeds(reqs[i])
    requires forall j :: i < j < |reqs| ==> !CreateSucceeds(reqs[j])
    requires Truthy(userPubkey)
    requires sdk.fetchMachine.Pass? && sdk.sendAndConfirm.Success? && sdk.fetchAsset.Pass? && sdk.writeFile.Pass?
    ensures var r := Handle(FinalSlot(slot, server, reqs), server, MintRequest(userPubkey, sdk)).0;
            r.status == 200 && r.body.minted.mintedNft.candyMachinePubkey == reqs[i].createSdk.candyMachine.publicKey
  {
    LastCreationWins(slot, server, reqs, i);
  }

  /** The slot starts empty and every request keeps both of its fields
      assigned together. */
  lemma {:induction false} SlotStaysValid(slot: Slot, server: PublicKey, reqs: seq<Request>)
    requires SlotValid(slot)
    ensures SlotValid(FinalSlot(slot, server, reqs))
    decreases |reqs|
  {
    if |reqs| > 0 {
      SlotStaysValid(Handle(slot, server, reqs[0]).1, server, reqs[1..]);
    }
  }
}
