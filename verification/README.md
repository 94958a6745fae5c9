# Candy-machine demo stack: the logic it owns, in Dafny

This project models the part of the candy-machine demo stack that does not come from
a third-party SDK. The stack is a React landing page, an Express server and a Metaplex
service module. The model covers:

- **Countdown** (`Header.js`): `formatTime` turns a count of seconds into
  `DD:HH:MM:SS`. A timer effect lowers `timeLeft` once a second and raises
  `isButtonVisible` at zero. The page shows the countdown text, the "Explore Now"
  button, or nothing.
- **Client helpers** (`Header.js`): `base64ToUint8Array`, which copies characters to
  bytes, and `handleMint`, with its wallet guard and its chain of error-message
  fallbacks.
- **Routes** (`server.js`): `POST /create-candy-machine` checks `userPubkey` (present,
  then 43 or 44 characters) and maps the builder's outcome to a reply.
  `POST /mint-candy-machine` passes the key through unchecked.
- **Service** (`dist/app.cjs`): `buildAndSerializeCandyMachineTx` and
  `mintCandyMachineNft`, with the one process-wide slot (`newCandyMachine`,
  `newCollectionMint`) that remembers the last machine created. Requests are handled
  one after another, and the last successful creation wins.
- **Test script** (`app.ts`): `checkCandyMachine`, which reports the first field of
  the fetched account that differs from the expected state, and the mint loop's
  counter.

Every SDK, RPC and file call is an *oracle*: a value supplied with the request that
says whether the call completed and what it returned, if the code uses the return
value. Key generation is an oracle of the same kind. JSON body fields are `Js.JsValue`:
undefined, null, a boolean, an integer or a string. JavaScript truthiness, `length` and
`String(x)` are written out for these values.

Modules: `Js` (values, truthiness, errors, Option/Result), `Decimal` (numerals and
`padStart`), `Countdown`, `Client`, `CandyService`, `Server` and `MachineCheck`.

Comments in the page (Header.js:169, and Header.js:190 with the commented-out call at Header.js:191) speak
of letting the wallet act as fee payer. The service's own comment at
dist/app.cjs:116-118 says it does not: it leaves out `.setFeePayer(...)` so that the
server covers the fees. `keypairIdentity(serverKeypair)` (dist/app.cjs:42) makes the
server key Umi's identity and payer. The model therefore builds the transaction with
the server key as fee payer and sole signer. This is a modelling choice, not a proved
fact: the SDK's builder is an oracle.

## Model

| member | source | states |
|---|---|---|
| Decimal.FromNat | Header.js:154 | `String(n)` is a non-empty numeral with no leading zero whose digit value is `n` |
| Decimal.PadStart | Header.js:154 | `padStart` keeps the string as its suffix, fills only in front, and never truncates: the length is the larger of the original and the width |
| Decimal.ZeroPadKeepsValue | Header.js:154 | zero padding leaves a numeral a numeral with the same value |
| Countdown.ToClock | Header.js:148-152 | for every count of seconds, hours < 24, minutes < 60 and secs < 60, and days·86400 + hours·3600 + minutes·60 + secs gives back the count |
| Countdown.Field | Header.js:154 | each field is exactly two characters wide for a one-digit component and the full numeral otherwise; it ends in that numeral, has the component's value, and contains no `:` |
| Countdown.FormatTime | Header.js:148-155 | hours, minutes and seconds always take two characters; the day field takes two below ten days and the whole day numeral from then on |
| Countdown.DisplayFields | Header.js:154 | split at `:`, the display is exactly four fields: days, hours, minutes, seconds |
| Countdown.LongDayCountShownWhole | Header.js:149-154 | a day count of 100 or more is shown in full: the first field has at least three digits and still denotes the day count |
| Countdown.FormatTimeRoundTrip | Header.js:148-154 | parsing the display back gives the count it was made from |
| Countdown.FormatTimeInjective | Header.js:148-154 | different counts never produce the same display |
| Countdown.InitialDisplay | Header.js:41 | the initial count of 172800 seconds displays as `02:00:00:00` |
| Countdown.Tick | Header.js:157-166 | a positive count drops by exactly one and the flag is kept; a count that is not positive raises the flag; the invariant (count ≥ 0, flag ⇒ count = 0) is preserved |
| Countdown.TicksFrom | Header.js:157-166 | after n effect runs the count is max(count − n, 0), and the flag is up exactly when it was up before or n exceeds the count |
| Countdown.Render | Header.js:242-250 | the countdown text shows exactly while `timeLeft > 0`, and it reads back as `timeLeft`; the button shows exactly when `timeLeft <= 0` and the flag is up; nothing shows otherwise |
| Countdown.CountdownViews | Header.js:242-250 | from the initial state, the countdown text shows while the count is positive, nothing shows for the one render at zero, and the button shows afterwards |
| Client.Base64ToUint8Array | Header.js:18-25 | the bytes are as many as the decoded characters, and byte i is the code of character i modulo 256 |
| Client.BytesKeepBinary | Header.js:18-25 | on `atob` output (all codes below 256) the bytes read back as characters give the decoded string exactly |
| Client.FailureMessage | Header.js:135 | the message is never empty: `details` if truthy, else `error` if truthy, else "Failed to create transaction" |
| Client.HandleMint | Header.js:117-143 | with no wallet, nothing is sent and the connect alert is shown; otherwise the wallet key is sent; an OK reply shows no alert; a non-OK reply or a thrown error shows "Minting failed: " and the message |
| CandyService.CombinedInstructions | dist/app.cjs:81-122 | the creation transaction holds three instructions in a fixed order: create, addConfigLines (index 0, two lines), setComputeUnitLimit(800000). The server is the authority, the update authority and the payment destination |
| CandyService.FirstCreateFailure | dist/app.cjs:60-138 | a creation's SDK steps all complete exactly when no step reports a failure |
| CandyService.BuildAndSerialize | dist/app.cjs:52-156 | a falsy key throws the missing-key error and nothing else happens. Otherwise the first failing SDK step's error is thrown. Any failure leaves the slot unchanged. On success, both slot fields hold this call's signers, and the result is the serialised text of the three-instruction transaction, paid for and signed by the server |
| CandyService.MintBodyErrorAsWritten | dist/app.cjs:189-222 | once the precondition and the fetch pass and a collection is stored, the `try` block throws `serverUmiSigner is not defined`; before that point it throws exactly what the corrected mint throws |
| CandyService.MintAsWritten | dist/app.cjs:188-272 | the code as written never succeeds. With an empty slot the caller always gets the TypeError from the `catch` block; with a stored machine it gets the error from the `try` block |
| CandyService.MintPrecondition | dist/app.cjs:190-199 | the key check comes before the slot check; both pass exactly when the key is truthy and a machine is stored |
| CandyService.FirstMintFailure | dist/app.cjs:210-258 | the mint steps after the precondition (fetch, the collection read, send, asset fetch, file write) all complete exactly when none reports a failure |
| CandyService.Mint | dist/app.cjs:188-272 | the corrected mint fails with the first precondition error if one applies, and otherwise with the first failing step's own error. It succeeds exactly when the preconditions and all steps pass, and then returns "NFT minted successfully" with the stored machine, the key passed in unchanged, the new asset, and the transaction signature |
| CandyService.MintAsWrittenNeverSucceeds | dist/app.cjs:213-222 | even when every SDK step would complete and a collection is stored, the code as written throws `serverUmiSigner is not defined`, where the corrected mint succeeds |
| CandyService.MintAsWrittenMasksMissingMachine | dist/app.cjs:266-270 | before any creation, the code as written reports the TypeError, where the corrected mint reports "No Candy Machine is set…" |
| Server.ValidateUserPubkey | server.js:21-27 | "Missing userPubkey…" exactly for falsy values, including the empty string. "Invalid public key format" exactly for other values that are not 43- or 44-character strings. Acceptance exactly for 43- or 44-character strings |
| Server.CreateRoute | server.js:16-44 | a rejected key gets a 500 reply with the route's message and no builder call, and the slot is unchanged. A 200 reply comes exactly when the key is accepted and the SDK completes, and it carries the fixed message and the serialised text. Every other outcome is a 500 reply with "Candy machine creation failed" and the thrown message |
| Server.RouteSubsumesServiceCheck | server.js:21-31 | a key the route accepts never hits the service's own missing-key check; the builder then fails only when an SDK step fails |
| Server.MintReply | server.js:51-59 | a mint outcome becomes a 200 reply with the mint summary, or a 500 reply with "Minting from Candy Machine failed" and the thrown message |
| Server.MintRouteAsWritten | server.js:46-60 | over the service as written, every mint request gets a 500 reply with "Minting from Candy Machine failed" and the service's error, and the slot is unchanged |
| Server.MintRoute | server.js:46-60 | with the corrected mint, the key reaches the service unchanged, a successful reply names it as `mintedBy`, and the slot is unchanged |
| Server.MintRouteHasNoLengthCheck | server.js:46-52 | with the corrected mint, any non-empty key succeeds, whatever its length, once a machine is stored and the SDK completes |
| Server.Handle | server.js:16-60 | with the corrected mint, a mint request never changes the slot; every request keeps the two slot fields assigned together |
| Server.NoCreationKeepsSlot | dist/app.cjs:147-148 | a run of requests in which no creation succeeds leaves the slot as it was |
| Server.LastCreationWins | dist/app.cjs:147-148 | after any run of requests, the slot holds the signers of the last successful creation |
| Server.MintTargetsLastCreation | dist/app.cjs:197-214 | with the corrected mint, a later successful mint targets the machine of the most recent successful creation, whoever requested it |
| Server.SlotStaysValid | dist/app.cjs:46-47 | starting from an empty or full slot, the two slot fields stay assigned together |
| MachineCheck.FirstFailing | app.ts:185-196 | the index it returns is of a failing check with every earlier check passing; none is returned exactly when all checks pass |
| MachineCheck.Mismatch | app.ts:185-196 | no error is thrown exactly when the account agrees with the expectation on redeemed count, loaded count, authority and collection |
| MachineCheck.MismatchIsFirstFailing | app.ts:185-196 | the reported error is that of the first failing comparison, in the order redeemed, loaded, authority, collection |
| MachineCheck.CheckCandyMachine | app.ts:176-205 | it never throws, and logs only when `step` is truthy. The success line is logged exactly when the fetch succeeded and every field matched. A mismatch logs the first mismatch's message; a thrown `Error` logs its message; any other thrown value logs "Error fetching the Candy Machine." |
| MachineCheck.LinesDistinct | app.ts:197-203 | no failure line equals the success line |
| MachineCheck.MintLoop | app.ts:125-147 | `minted` is at most 3 and counts iterations that completed. The first rejection stops it, and the log reports all three mints or the failure |

## Findings

| source | as written | input that shows it | evidently intended | confidence | as-written member | corrected member |
|---|---|---|---|---|---|---|
| dist/app.cjs:266-270 | the `catch` block of `mintCandyMachineNft` reads `newCandyMachine.publicKey` before re-throwing | `/mint-candy-machine` with a valid key before any creation: the caller gets "Cannot read properties of undefined (reading 'publicKey')" instead of "No Candy Machine is set…" | log without dereferencing an empty slot and re-throw the caught error | high; not executed | CandyService.MintAsWrittenMasksMissingMachine | CandyService.Mint |
| dist/app.cjs:220 | the payment destination is `serverUmiSigner.publicKey`, and nothing defines `serverUmiSigner` (`fs` and `path`, used at lines 253-258, are not imported either) | any mint with a stored machine whose fetch succeeds: it throws `serverUmiSigner is not defined` before any transaction is sent, so no mint ever succeeds | the server identity `serverKeypair` as destination, with the file helpers imported | high; not executed | CandyService.MintAsWrittenNeverSucceeds | CandyService.Mint |

`Server.MintRoute` and the request sequence in `Server` use the corrected
`CandyService.Mint`. The code as written is `CandyService.MintAsWritten`, and
`Server.MintRouteAsWritten` is the route over it.

## Left out

- SDK, RPC and file calls (`create`, `addConfigLines`, `buildWithLatestBlockhash`, `toWeb3JsTransaction`, `sign`, `serialize`, `fetchCandyMachine`, `mintV1`, `sendAndConfirm`, `fetchDigitalAsset`, `createCollectionV1`, `getLatestBlockhash`, `airdrop`, file writes): these are foreign code, modelled only as oracles that complete or throw. The blockhash fetched at dist/app.cjs:71 is never used, so it appears only as a step that may fail.
- `window.atob`: a browser built-in. `Client.Base64ToUint8Array` takes the string it decoded, and a failed decode is not modelled.
- Fee-payer substitution and re-signing after it: the code does not perform them, so nothing models them.
- Wallet adapters, `fetch` to the server, `logConnection`, `logWalletBalance` (floating-point SOL amount), the navigation, the modal, and `handleCreateCandyMachine` beyond its byte conversion: these are UI and network glue.
- `createCandyMachineViaMetaplex` and the first four steps of `main` in app.ts: each is a single SDK call whose failure is only logged.
- `mintNFTWithWallet` in app.ts: a single SDK call that logs its failure and re-throws it, with no caller in the code modelled here.
- app.cjs: an older copy of the service whose own logic (the missing-key check and the slot assignment) is the same as the service model's.
- Concurrent requests: a request is handled to completion before the next one starts. The interleaving race on the slot is out of scope.
- The mint summary's `nftData` and `mintedAt` fields: SDK data and the clock.
- Express wiring (static files, `listen`) and logging other than `checkCandyMachine`'s.
- `Js.JsValue`: JSON objects and arrays, and non-integer numbers, are not modelled as body fields.
- Number range: the model's integers match JavaScript numbers only up to 2^53, and `String(n)` (`Decimal.FromNat`) gives a plain numeral only below 10^21. Above 2^53 distinct counts collapse, so `Countdown.FormatTimeInjective` holds of the page only below that bound. The countdown (which starts at 172800) and the script's step numbers never leave this range.
- Server.ValidateUserPubkey: counts characters, whereas JavaScript's `length` counts UTF-16 code units. The two differ only for characters outside the Basic Multilingual Plane.
- MachineCheck.CheckCandyMachine: `itemsRedeemed` is taken as already converted by `Number`. Exact conversion of very large on-chain counts is not modelled.
- Client.HandleMint: the request goes to `/mint`, which `server.js` does not define. The reply is an oracle, so the model does not connect the two.
