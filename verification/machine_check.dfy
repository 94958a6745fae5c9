/** The test script app.ts: comparing a fetched candy-machine account with
    the state the script expects, and counting the mints of its loop. */
module MachineCheck {
  import opened Js
  import Decimal

  /** The fields of the fetched account the check reads (`itemsRedeemed`
      already converted with `Number`; keys in their string form). */
  datatype LoadedCandyMachine = LoadedCandyMachine(itemsRedeemed: int, itemsLoaded: int,
                                                   authority: string, collectionMint: string)

  datatype ExpectedState = ExpectedState(itemsLoaded: int, itemsRedeemed: int, authority: string, collection: string)

  /** What `fetchCandyMachine` produced: the account, a thrown `Error` with
      its message, or a thrown value that is not an `Error`. */
  datatype Fetched = Loaded(account: LoadedCandyMachine) | ThrewError(message: string) | ThrewOther

  const RedeemedMismatch := "Incorrect number of items available in the Candy Machine."
  const LoadedMismatch := "Incorrect number of items loaded in the Candy Machine."
  const AuthorityMismatch := "Incorrect authority in the Candy Machine."
  const CollectionMismatch := "Incorrect collection in the Candy Machine."

  /** The account agrees with the expected state on every field compared. */
  predicate Matches(a: LoadedCandyMachine, e: ExpectedState) {
    a.itemsRedeemed == e.itemsRedeemed && a.itemsLoaded == e.itemsLoaded
    && a.authority == e.authority && a.collectionMint == e.collection
  }

  datatype Check = Check(passes: bool, message: string)

  /** The comparisons as a list, in the order the function makes them. */
  function Checks(a: LoadedCandyMachine, e: ExpectedState): (cs: seq<Check>)
    ensures |cs| == 4
  {
    [ Check(a.itemsRedeemed == e.itemsRedeemed, RedeemedMismatch),
      Check(a.itemsLoaded == e.itemsLoaded, LoadedMismatch),
      Check(a.authority == e.authority, AuthorityMismatch),
      Check(a.collectionMint == e.collection, CollectionMismatch) ]
  }

  /** The position of the first failing check of a list. */
  function FirstFailing(cs: seq<Check>): (k: Option<nat>)
    ensures k.None? <==> forall j :: 0 <= j < |cs| ==> cs[j].passes
    ensures k.Some? ==> k.value < |cs| && !cs[k.value].passes
    ensures k.Some? ==> forall j :: 0 <= j < k.value ==> cs[j].passes
    decreases |cs|
  {
    if |cs| == 0 then None
    else if !cs[0].passes then Some(0)
    else match FirstFailing(cs[1..])
      case None => None
      case Some(k) => Some(k + 1)
  }

  /** The error the `try` block of `checkCandyMachine` throws for a fetched
      account, if any: the four `if` statements in source order. */
  function Mismatch(a: LoadedCandyMachine, e: ExpectedState): (m: Option<string>)
    ensures m.None? <==> Matches(a, e)
  {
    if a.itemsRedeemed != e.itemsRedeemed then Some(RedeemedMismatch)
    else if a.itemsLoaded != e.itemsLoaded then Some(LoadedMismatch)
    else if a.authority != e.authority then Some(AuthorityMismatch)
    else if a.collectionMint != e.collection then Some(CollectionMismatch)
    else None
  }

  /** The reported mismatch is that of the first comparison that fails;
      the comparisons after it play no part. */
  lemma MismatchIsFirstFailing(a: LoadedCandyMachine, e: ExpectedState)
    ensures Mismatch(a, e).None? <==> FirstFailing(Checks(a, e)).None?
    ensures FirstFailing(Checks(a, e)).Some? ==>
              Mismatch(a, e) == Some(Checks(a, e)[FirstFailing(Checks(a, e)).value].message)
  {
    var cs := Checks(a, e);
    var k := FirstFailing(cs);
    if !cs[0].passes {
      assert k == Some(0);
    } else if !cs[1].passes {
      assert k == Some(1);
    } else if !cs[2].passes {
      assert k == Some(2);
    } else if !cs[3].passes {
      assert k == Some(3);
    } else {
      assert k.None?;
    }
  }

  const CheckMark := "\U{2705}"
  const CrossMark := "\U{274C}"

  /** `step && …`: a step number logs only when it is present and not 0. */
  predicate StepTruthy(step: Option<int>) {
    step.Some? && step.value != 0
  }

  function CorrectLine(step: int): string {
    Decimal.FromInt(step) + ". " + CheckMark + " - Candy Machine has the correct configuration."
  }

  function IncorrectLine(step: int, message: string): string {
    Decimal.FromInt(step) + ". " + CrossMark + " - Candy Machine incorrect configuration: " + message
  }

  function FetchFailedLine(step: int): string {
    Decimal.FromInt(step) + ". " + CrossMark + " - Error fetching the Candy Machine."
  }

  /** `checkCandyMachine`: it never throws; its only effect is the line it
      logs, if any. */
  function CheckCandyMachine(fetched: Fetched, expected: ExpectedState, step: Option<int>): (log: Option<string>)
    ensures log.Some? <==> StepTruthy(step)
    ensures StepTruthy(step) ==>
              (log.value == CorrectLine(step.value) <==> fetched.Loaded? && Matches(fetched.account, expected))
    ensures StepTruthy(step) && fetched.Loaded? && !Matches(fetched.account, expected) ==>
              log.value == IncorrectLine(step.value, Mismatch(fetched.account, expected).value)
    ensures StepTruthy(step) && fetched.ThrewError? ==> log.value == IncorrectLine(step.value, fetched.message)
    ensures StepTruthy(step) && fetched.ThrewOther? ==> log.value == FetchFailedLine(step.value)
  {
    if !StepTruthy(step) then None
    else
      var n := step.value;
      LinesDistinct(n);
      match fetched
      case Loaded(a) =>
        (match Mismatch(a, expected)
         case None => Some(CorrectLine(n))
         case Some(m) => Some(IncorrectLine(n, m)))
      case ThrewError(m) => Some(IncorrectLine(n, m))
      case ThrewOther => Some(FetchFailedLine(n))
  }

  /** A failure line is never the success line: they differ in the mark
      after the step number. */
  lemma LinesDistinct(n: int)
    ensures forall m :: IncorrectLine(n, m) != CorrectLine(n)
    ensures FetchFailedLine(n) != CorrectLine(n)
  {
    var p := Decimal.FromInt(n) + ". ";
    assert CorrectLine(n)[|p|] == CheckMark[0];
    forall m ensures IncorrectLine(n, m) != CorrectLine(n) {
      assert IncorrectLine(n, m)[|p|] == CrossMark[0];
    }
    assert FetchFailedLine(n)[|p|] == CrossMark[0];
  }

  const NumMints: nat := 3

  /** The mint loop of `main`, where `completes(i)` says whether the `i`-th
      `sendAndConfirm` resolves: `minted` counts the completed iterations,
      the first rejection ends the loop, and the logged line reports either
      all mints or the failure. */
  method MintLoop(completes: nat -> bool) returns (minted: nat, log: string)
    ensures minted <= NumMints
    ensures forall j :: 0 <= j < minted ==> completes(j)
    ensures minted < NumMints ==> !completes(minted)
    ensures minted == NumMints ==> log == "6. " + CheckMark + " - Minted " + Decimal.FromNat(minted) + " NFTs."
    ensures minted < NumMints ==> log == "6. " + CrossMark + " - Error minting NFTs."
  {
    minted := 0;
    var i := 0;
    while i < NumMints
      invariant i <= NumMints && minted == i
      invariant forall j :: 0 <= j < minted ==> completes(j)
    {
      if !completes(i) {
        log := "6. " + CrossMark + " - Error minting NFTs.";
        return;
      }
      minted := minted + 1;
      i := i + 1;
    }
    log := "6. " + CheckMark + " - Minted " + Decimal.FromNat(minted) + " NFTs.";
  }
}
