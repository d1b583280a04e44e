# FiatRails: verified model of the escrow and of its callback server

This project models FiatRails in Dafny and proves what its documentation promises about it.

FiatRails takes stablecoin deposits as *intents*, mints a country token one to one for each intent once a
compliance registry clears the user and a daily cap allows it, or refunds the deposit. An HTTP server submits
intents and, on payment callbacks, executes them on chain with retries, an expiring idempotency store and a
dead-letter directory.

* **On chain** (`escrow`, `chain`, `ledgers`, `registry`, with `ledger_laws` and `completion`): storage, entry points and errors of `MintEscrow`, EIP-20
  ledgers, `UserRegistry`, block time and a log of completed transactions. A transaction completes or reverts
  without a trace. The properties are about every run of arbitrary transactions by arbitrary accounts from a fresh
  deployment in any configuration: `intents`, `accounting`, `solvency`, `refunds`, `daily_cap`, `compliance`, `settlement`, `administration`. `completion` says of
  every call exactly when it completes and with which error it reverts otherwise. `reentrancy` and
  `hostile_runs` replace the honest token by one whose code calls back and whose ledger does as it likes.
* **Off chain** (`callbacks`, `callback_safety`, `callback_accounting`, `handler_loop`, `broadcasts`, `replay`, `own_intent`, `retry`, `stores`, `hmac_auth`, `intent_ids`):
  request handlers as program counters that interleave with each other, with the store, with a transaction pool and with
  the chain model above.
* **Contracts and stores as objects** (`contracts`, `mint_escrow`, `store_objects`): the same operations writing their state in
  place, each proved against the functions the properties are about; the escrow object calls the token and registry objects.
* **Vendored arithmetic** (`packed_slot`, `bound`): forge-std's packed storage fields and range folding.

Hashes and MACs are parameters. A hash from all byte strings to 32 bytes cannot be injective, so where injectivity
matters it is asked only of the finite set of pre-images in play. RPC outcomes, clocks, disk and database failures are
parameters of the actions. `dafny verify dfyconfig.toml` checks everything.

## Where the code and its promise part

* The delayed delete of `PostgresStore` is unconditional: a save that falls between an expired lookup and its delete is lost
  (`Stores.PostgresLosesASave`). `Stores.PostgresAgreesIff` gives the exact condition.
* A fresh replay of a completed request can miss the store, and so call the escrow again, although the window is long enough
  and every store operation works: two handlers for one key save their records in the opposite order of making them
  (`Replay.CrossedSavesBreakReplay`). `Replay.NoReplayMissesIff` gives the exact condition, request by request.
* A callback can be answered from the store for another intent: a mint request may use a key with the callbacks' prefix, and
  two callbacks may share a reference but not the intent (`OwnIntent.MixedUp`). `OwnIntent.OwnAnswersIff` gives the exact condition.
* The backoff formula of `docs/ADR.md` holds while the product fits an int64; beyond, it wraps
  (`Retry.BackoffOverflows`, `Retry.SleepIsIdealIff`).
* A failed file write can make a reopened `FileStore` forget a live record until the next write
  (`StoreObjects.FailedWriteForgets`). `StoreObjects.ReopenedAnswersAlikeIff` gives the exact condition.
* The signature covers timestamp and body run together, so a body that starts with a digit can be read as part of the timestamp
  (`HmacAuth.AmbiguousPair`). `HmacAuth.LongerReadingIff` gives the exact condition.
* `computeIntentID` hashes the magnitude of an amount and does not bound it; outside `uint256` its layout is another one
  (`IntentIds.LayoutOutOfRange`).
* The dead-letter directory holds one entry per failure exactly when no write fails and no file name repeats
  (`CallbackAccounting.OneLetterPerFailureIff`).

## Model

| member | source | states |
|---|---|---|
| Intents.RunSound | contracts/src/MintEscrow.sol:118-217 | in every reachable state every intent has a real user, an amount in range, a consumed reference, a status other than Failed and the id its fields hash to |
| Intents.ReachableBijection | contracts/src/MintEscrow.sol:141-161 | in every reachable state consumed references and stored intents correspond one to one and Failed is never reached |
| Intents.RunEvolves | contracts/src/MintEscrow.sol:172-212 | from any reachable state on, stored intents keep every field but the status, and Executed and Refunded are final |
| Intents.AlreadyExistsUnreachable | contracts/src/MintEscrow.sol:141-148 | unless the id function collides on the intents in play, no submission can revert with IntentAlreadyExists |
| IntentIds.HashesLift | contracts/src/MintEscrow.sol:145 | a hash without collisions on the packed pre-images gives ids without collisions on the intents |
| Accounting.RunBalanced | contracts/src/MintEscrow.sol:118-217 | in every reachable state the log, the intents by status, the daily counters and the number of mints per intent agree |
| Accounting.MintsCovered | contracts/src/MintEscrow.sol:145-215 | total minted equals the Executed amounts and the sum of the daily counters; Pending, Executed and Refunded amounts partition the deposits; mints plus refunds plus Pending equal deposits |
| Solvency.RunSolvent | contracts/src/MintEscrow.sol:118-217 | if at no moment of the run the escrow points at another stablecoin, its balance is its initial balance plus gifts plus all Pending and Executed amounts, in every reachable state |
| Solvency.RunHonest | contracts/src/USDStablecoin.sol:14-28 | in every reachable state the balances of each token add up to its supply and no balance exceeds a uint256 |
| Solvency.RunSupply | contracts/src/CountryToken.sol:17-37 | over every run each token's supply changes by exactly what the escrow and others minted less what was burned |
| Solvency.ForeignOp | contracts/src/USDStablecoin.sol:14-28 | an operation by anybody but the escrow changes the escrow's balance by exactly the gift it carries, never downwards |
| Solvency.WhoPaysWhom | contracts/src/MintEscrow.sol:150-214 | deposit, mint and refund move exactly the intent's amount between exactly the right accounts, and no other account or token changes |
| Ledgers.ApplyOpHonest | contracts/src/CountryToken.sol:30-32 | every ledger operation keeps balances adding up to the supply within a word |
| LedgerLaws.OpExact | contracts/src/USDStablecoin.sol:14-28 | when each ledger operation completes, and what it then does to balances and allowances |
| LedgerLaws.TransferFromExact | contracts/src/USDStablecoin.sol:14-28 | a completed transfer on an allowance moves exactly the amount and lowers a finite allowance by exactly that |
| LedgerLaws.MintExact | contracts/src/CountryToken.sol:30-32 | a mint completes iff the sender may mint and the supply fits, and credits exactly the receiver |
| Refunds.EverybodyRepaid | contracts/src/MintEscrow.sol:198-217 | from every reachable state of such a run, paused or not, refunding all Pending intents in any order never fails, leaves none Pending and pays each user exactly what was Pending for them |
| Refunds.ListRefunded | contracts/src/MintEscrow.sol:198-217 | any list of distinct Pending intents is refunded without a revert, and all others stay Pending |
| DailyCap.DayWithinLimit | contracts/src/MintEscrow.sol:184-191 | a day's counter is what the log says was minted that day and never exceeds the limit |
| DailyCap.SpanWithinTwiceLimit | contracts/src/MintEscrow.sol:184-191 | any span of 86,400 seconds mints at most twice the daily limit |
| DailyCap.MintsPerDay | contracts/src/utils/SeedConstants.sol:30-32 | no day has more than 10,000 mints |
| DailyCap.FirstTenNeverBlocked | contracts/src/MintEscrow.sol:129-131 | with fewer than ten mints on the current day the cap rejects no intent |
| Compliance.RunCleared | contracts/src/MintEscrow.sol:175-193 | at each mint of every run the user's latest update in the registry then in force existed and scored at most 91 |
| Registry.ReachableRecords | contracts/src/UserRegistry.sol:52-87 | in every reachable registry scores are at most 100, existing users have an attestation with equal times, and the record is the last successful update |
| Registry.CompliantIffLastScore | contracts/src/UserRegistry.sol:93-119 | a user is compliant iff the last successful update scored at most 91 |
| Registry.UpdateCompletesIff | contracts/src/UserRegistry.sol:52-87 | an update completes iff a manager sends it with real accounts, a score of at most 100 and an attestation; then it writes that record and no other; otherwise which error |
| Registry.RecordChangeIsAuthorised | contracts/src/UserRegistry.sol:58-58 | a record changes only by a manager's update of that user |
| Registry.ManagerIsLastAppointed | contracts/src/UserRegistry.sol:45-50 | over every run an account is a manager iff the admins' last word on it made it one |
| Chain.SettlingIsAuthorised | contracts/src/MintEscrow.sol:118-203 | only executors settle intents, and nothing is deposited or minted while paused or re-entered |
| Chain.StepCases | contracts/src/MintEscrow.sol:118-217 | a transaction reverts without a trace or has exactly the effects of its kind |
| Completion.ExecuteCompletesIff | contracts/src/MintEscrow.sol:167-196 | `executeMint` completes iff unpaused, not re-entered, sent by an executor, the intent known and Pending, the registry deployed and the user's record attested with a score of at most 91, the country's token configured and deployed, the amount within what is left of 10,000 tokens for the day, the escrow a minter and the supply within a word |
| Completion.ExecuteOutcome | contracts/src/MintEscrow.sol:167-196 | otherwise it reverts with the error of the first of these conditions that fails |
| Completion.ExecuteEffect | contracts/src/MintEscrow.sol:190-193 | a completed execution makes the intent Executed, adds its amount to the day's counter and to its user's balance in its country's token, and changes nothing else |
| Completion.SubmitCompletesIff | contracts/src/MintEscrow.sol:118-163 | `submitIntent` completes iff its eleven conditions hold, among them balance and allowance of the sender |
| Completion.SubmitOutcome | contracts/src/MintEscrow.sol:122-150 | otherwise it reverts with the error of the first condition that fails |
| Completion.SubmitEffect | contracts/src/MintEscrow.sol:150-161 | a completed submission stores the Pending intent, uses up the reference, moves the deposit and lowers a finite allowance by it, and changes nothing else |
| Completion.RefundCompletesIff | contracts/src/MintEscrow.sol:198-217 | `refundIntent` completes iff not re-entered, sent by an executor, the intent known and Pending and the escrow's balance large enough; being paused is no obstacle |
| Completion.RefundOutcome | contracts/src/MintEscrow.sol:198-214 | otherwise it reverts with the error of the first condition that fails |
| Completion.RefundEffect | contracts/src/MintEscrow.sol:212-214 | a completed refund makes the intent Refunded and moves its amount to its user, and changes nothing else |
| Completion.OtherCompletesIff | contracts/src/USDStablecoin.sol:14-28 | a token or registry transaction completes iff that contract exists and accepts the call, and touches no other part of the state |
| Settlement.ReachableExecuteIff | contracts/src/MintEscrow.sol:167-193 | in every reachable state an intent can be executed iff, among the rest, the latest logged update of its user in the registry in force scored at most 91 and the day's logged mints leave room for it |
| Settlement.ExecutableBecomesExecuted | contracts/src/MintEscrow.sol:190-193 | in every reachable state an executable intent, once executed, is Executed, was minted once, and its user and nobody else has its amount more |
| Settlement.DepositThenMint | contracts/src/MintEscrow.sol:150-193 | a deposit followed by its execution moves the amount of stablecoin from user to escrow and gives the user as much of the country's token, in every account of every token exactly that |
| Settlement.DepositThenRefund | contracts/src/MintEscrow.sol:150-214 | a refund undoes a deposit in every account of every token; the reference stays used up |
| Administration.RoleIsLastSet | contracts/src/MintEscrow.sol:95-102 | over every run an account has a role iff the last completed grant, revocation or renunciation left it with it, or there was none and it had it at the start |
| Administration.SettingsAreLastSet | contracts/src/MintEscrow.sol:60-116 | over every run pause flag, registry and stablecoin are what the last completed setter made them |
| Administration.CountryTokenIsLastSet | contracts/src/MintEscrow.sol:84-90 | and so is the token of each country |
| Administration.RoleChangeIsAuthorised | contracts/src/MintEscrow.sol:95-102 | roles change only at the hands of holders of the administrative roles, or by giving up one's own |
| Administration.SettingChangeIsAuthorised | contracts/src/MintEscrow.sol:60-116 | settings change only at the hands of admins |
| Administration.AdminCompletesIff | contracts/src/MintEscrow.sol:60-116 | an administrative call completes iff the sender has the role it asks for and its argument makes sense, and reverts with which error otherwise |
| Reentrancy.ReentrantRunIsFlat | contracts/src/MintEscrow.sol:118-217 | whatever tree of calls token code makes, every nested guarded call reverts and the final storage is that of the outer call followed by its direct administrative callbacks; a failing token call leaves nothing |
| Reentrancy.NestedCallsRevert | contracts/src/MintEscrow.sol:118-203 | while a guarded call is under way, every nested guarded call reverts in the very state it meets, and the intents do not change |
| Reentrancy.SilentTokenIsChainStep | contracts/src/MintEscrow.sol:118-217 | with a token that does not call back, delivery gives the storage of the chain step |
| Reentrancy.ReentrantIsChainRun | contracts/src/MintEscrow.sol:118-217 | a transaction whose token calls back leaves the storage of the chain run of that transaction followed by the administrative callbacks as transactions of their own |
| HostileRuns.HostileRunSafe | contracts/src/MintEscrow.sol:118-217 | over every run with token code that calls back and keeps any ledger it likes: intents stay sound, the log, the intents and the daily counters agree, each intent is minted at most once and for a cleared user only, no day exceeds the limit |
| HostileRuns.HostileRunEvolves | contracts/src/MintEscrow.sol:172-212 | over every such run stored intents keep every field but the status, and settled statuses are final |
| HostileRuns.HonestRound | contracts/src/MintEscrow.sol:118-217 | runs with hostile tokens include the honest ones |
| CallbackSafety.MintedAtMostOnce | api/internal/server/server.go:181-309 | for any interleaving of handlers, retries, lost replies and mining order each intent is minted at most once, and exactly once iff it is Executed |
| CallbackSafety.StoredOnlyIfCalled | api/internal/server/server.go:199-229 | a stored response exists only if a client call by a handler for that key returned exactly that response without error; it carries the right status and expires a window after it was made |
| Broadcasts.RunBroadcasting | api/internal/escrow/eth_client.go:115-155 | over every run all the API broadcasts is executeMint for the decoded id of a callback, or submitIntent with a mint request's arguments, from the executor's account, and never a refund; and every call that returned without error had broadcast its own |
| Broadcasts.ProcessedWasBroadcast | api/internal/server/server.go:205-229 | a stored processed response implies that executeMint was broadcast for that very intent |
| Broadcasts.MiningFulfils | api/internal/escrow/eth_client.go:137-155 | mining it while the intent is executable leaves the intent Executed and its user credited |
| Broadcasts.PaymentIsMinted | api/internal/server/server.go:181-236 | from every reachable state, a fresh unanswered callback for an executable intent whose call goes through and is mined next ends with the intent Executed, the user credited and the response stored for the window |
| Broadcasts.CallbackKeys | api/internal/server/server.go:199-199 | callbacks share a key iff their references are equal, and a mint request meets one iff its key carries the prefix |
| HandlerLoop.CallsFollowLoop | api/internal/server/server.go:270-323 | under any interleaving a handler calls again only after a failure that is not final, and only below max(1, MaxAttempts) |
| HandlerLoop.TriesGoOn | api/internal/server/server.go:282-306 | any fewer transient failures than max(1, MaxAttempts) bring the handler to its next attempt |
| HandlerLoop.ReplyMoves | api/internal/server/server.go:282-306 | what each reply makes of an attempt: a response to save, another try, or a dead letter |
| HandlerLoop.MintReplyMoves | api/internal/server/server.go:149-176 | a mint request makes one call: its response is kept with status 201, or its error returned |
| HandlerLoop.MalformedGivesUp | api/internal/escrow/eth_client.go:141-143 | a malformed id is given up at the first attempt and nothing is broadcast |
| HandlerLoop.LookupAnswersIff | api/internal/server/server.go:199-206 | a request is answered from the store iff the lookup works and finds an unexpired record |
| HandlerLoop.LettersAreTrue | api/internal/server/server.go:325-358 | over every run each dead letter holds the payload and the error of a callback that was refused, under its reference |
| CallbackAccounting.EverythingCountedOnce | api/internal/server/server.go:181-309 | over every run success, failed and retry each equal the number of callbacks' client calls of their kind, and the kinds partition the calls; each settled callback adds to exactly one of cached, processed and failed |
| CallbackAccounting.OneLetterPerFailureIff | api/internal/server/server.go:325-358 | the dead-letter directory holds one entry per failed callback iff no write failed and no name was reused |
| CallbackAccounting.RunBounded | api/internal/server/server.go:270-309 | under any interleaving no handler makes more than max(1, MaxAttempts) client calls, numbered from 1 |
| Replay.ReplayGetsStoredResponse | api/internal/hmacauth/middleware.go:68-92 | with window at least twice the skew plus the lookup delay, and no save or eviction under its own key that cuts the record short, a fresh replay is answered with the response of the last handler that saved under the key and never calls the escrow, in any future |
| Replay.ReplayIsIdentical | api/internal/server/server.go:199-229 | while a handler is the last that saved under its key, the stored record is its response unchanged |
| Replay.NoReplayMissesIff | api/internal/server/server.go:122-136 | from the moment a response is saved on, at no moment of any further run can a timely fresh replay of that request miss, iff no save under its key and no eviction of it cuts the record below the last timely lookup |
| Replay.AnsweringIffCovered | api/internal/idempotency/store.go:39-50 | in any state: no timely replay can miss from here on iff none is due or the stored record outlives the last that can be; otherwise a late replay goes on to call the escrow |
| Replay.StoredIsLastSaved | api/internal/server/server.go:223-229 | over every run a stored record is the response of the last handler whose save under its key worked |
| Replay.CrossedSavesBreakReplay | api/internal/server/server.go:223-229 | a run with working store operations in which a fresh replay misses, because an older record was saved last |
| OwnIntent.OwnAnswersIff | api/internal/server/server.go:199-229 | for any set of requests: in every run of such requests callbacks answered from the store are answered for their own intent iff nothing that can be stored under a callback's key belongs to another intent or to a mint request |
| OwnIntent.MixedUp | api/internal/server/server.go:122-136 | whenever another request shares a callback's key, a run in which the callback is answered with that request's response |
| Retry.ExecuteMintWithRetry | api/internal/server/server.go:270-309 | at most max(1, MaxAttempts) calls; exactly one if the first failure is final, and all of them if none is; which reply ends the loop and how; every sleep is the wrapped and capped product; the return after the loop is unreachable |
| Retry.RetryableIff | api/internal/server/server.go:311-323 | a failure is final iff its message contains UserNotCompliant, or invalid in any case |
| Retry.BackoffIsIdeal | docs/ADR.md:162 | while the largest product fits an int64 the sleeps are the design's formula, positive and nondecreasing |
| Retry.SleepIsIdealIff | api/internal/server/server.go:292-305 | a sleep follows the formula iff its product fits an int64 or wraps to at least the cap |
| Retry.BackoffOverflows | api/internal/server/server.go:303-305 | with the seed's backoff values and 36 attempts the 35th sleep is negative, where the formula asks for the cap |
| Retry.WrapPower | api/internal/server/server.go:303-305 | multiplying and wrapping at each attempt equals wrapping the whole product once |
| Stores.SaveAgrees | api/internal/idempotency/store.go:52-57 | a map that answers like the abstract expiring map still does after a save |
| Stores.ReferenceLaws | api/internal/idempotency/store.go:39-57 | the abstract map is empty at first, finds a record under its own key up to and at its expiry, and keeps keys apart |
| Stores.DeleteAgreesIff | api/internal/idempotency/postgres_store.go:96-98 | deleting a key keeps the answers iff its row is gone or expired |
| Stores.MissedSavesAgreeIff | api/internal/idempotency/store.go:94-125 | a copy that missed any number of saves answers alike iff under each key its row and the last record missed cannot be told apart from now on |
| Stores.PostgresAgreesIff | api/internal/idempotency/postgres_store.go:61-98 | the table answers like the abstract map at every moment of a run iff no delayed delete hits a live row |
| Stores.PostgresAgrees | api/internal/idempotency/postgres_store.go:61-98 | it does so on every run without a save between an expired lookup and its delete |
| Stores.PostgresLosesASave | api/internal/idempotency/postgres_store.go:76-98 | a run in which a save in between is lost |
| StoreObjects.MemoryStore.Get | api/internal/idempotency/store.go:39-50 | every lookup answers like the abstract expiring map |
| StoreObjects.MemoryStore.Save | api/internal/idempotency/store.go:52-57 | the save is added to the history the answers refer to |
| StoreObjects.FileStore.Get | api/internal/idempotency/store.go:105-118 | every lookup answers like the abstract map under a nondecreasing clock, whether or not the cleanup reaches the disk, and removes expired records only; a cleanup that is written makes up for every save the file missed |
| StoreObjects.FileStore.Save | api/internal/idempotency/store.go:120-125 | the save is added to the history; a write that succeeds makes up for every save the file missed, one that fails adds this one |
| StoreObjects.FileStore.Open | api/internal/idempotency/store.go:66-92 | a store opened on a file that agrees with a history answers by that history |
| StoreObjects.ReopenedAnswersAlike | api/internal/idempotency/store.go:66-125 | if the last write since the last save succeeded, a reopened store answers all later lookups alike, and file and memory differ in expired records only |
| StoreObjects.ReopenedAnswersAlikeIff | api/internal/idempotency/store.go:66-125 | in every reachable state a reopened store answers all later lookups alike iff no save since the last successful write can be told from what the file holds |
| StoreObjects.FailedWriteForgets | api/internal/idempotency/store.go:94-125 | a run in which one failed write makes a reopened store forget a live record, and a later write brings it back |
| StoreObjects.PostgresStore.Get | api/internal/idempotency/postgres_store.go:61-81 | answers from the unexpired row and schedules a delete exactly for an expired one |
| StoreObjects.PostgresStore.Save | api/internal/idempotency/postgres_store.go:83-94 | the table is the one of the run extended by the save |
| StoreObjects.PostgresStore.DeleteKey | api/internal/idempotency/postgres_store.go:96-98 | the table is the one of the run extended by the unconditional delete |
| IntentIds.SameLayout | api/internal/escrow/eth_client.go:188-202 | for every amount a uint256 can hold the API hashes the contract's 116-byte packed layout |
| IntentIds.LayoutOutOfRange | api/internal/escrow/eth_client.go:195-200 | the layout has 116 bytes iff the magnitude fits a uint256, and the sign is ignored |
| IntentIds.IdsMatchIff | api/internal/escrow/eth_client.go:115-131 | without a collision of the two pre-images, predicted and stored id are equal iff the request names the transaction's sender |
| IntentIds.SameBytes32Iff | api/internal/escrow/eth_client.go:182-186 | two strings give the same word iff their first 32 bytes agree after stripping trailing zeros |
| IntentIds.Bytes32At | api/internal/escrow/eth_client.go:182-186 | byte by byte: the string, at most 32 bytes of it, then zeros |
| IntentIds.PaddedIsBigEndian | api/internal/escrow/eth_client.go:195-200 | padding the minimal bytes of a number that fits gives its fixed-width encoding |
| Words.PackedInjective | contracts/src/MintEscrow.sol:145 | equal packed bytes come from equal sender, amount, country code and reference |
| Words.PackedFields | contracts/src/MintEscrow.sol:145-145 | the packed bytes are 20 of the sender, then a word each of amount, country code and reference |
| HmacAuth.HttpRequest.Verify | api/internal/hmacauth/middleware.go:46-93 | the verdict by the first failing check, with saturating time differences; an accepted request carries the MAC of its timestamp and of the body the handler reads next |
| HmacAuth.HttpRequest.ReadBody | api/internal/hmacauth/middleware.go:102-113 | returns the body and leaves an equal one to read |
| HmacAuth.GenuineAcceptedIff | api/internal/hmacauth/middleware.go:68-92 | a request with the right signature is accepted iff its timestamp is a number within the skew of now and its body can be read |
| HmacAuth.RefusedWith | api/internal/hmacauth/middleware.go:46-93 | any other signature is refused; each request gets the error of the first thing wrong with it |
| HmacAuth.ParseRendered | api/internal/hmacauth/middleware.go:65-69 | a timestamp in decimal notation is read back iff it is an int64 |
| HmacAuth.AcceptedWasSigned | api/internal/hmacauth/middleware.go:88-100 | without a collision of the MACs in play, an accepted request carries a timestamp and body that were really signed |
| HmacAuth.AcceptedSpan | api/internal/hmacauth/middleware.go:73-81 | an accepted request is accepted again iff still fresh, hence only within two skews of the first time |
| HmacAuth.SignedBytesDetermineRequest | api/internal/hmacauth/middleware.go:95-100 | the signed bytes determine timestamp and body when bodies do not start like a number |
| HmacAuth.LongerReadingIff | api/internal/hmacauth/middleware.go:95-100 | the signed bytes of a request also sign a longer timestamp iff the body's first character continues the number |
| HmacAuth.AmbiguousPair | api/internal/hmacauth/middleware.go:95-100 | two requests that sign the same bytes |
| Contracts.TokenContract.Move | contracts/src/USDStablecoin.sol:14-28 | the in-place transfer does what the ledger function says or changes nothing |
| Contracts.TokenContract.TransferFrom | contracts/src/USDStablecoin.sol:14-28 | the in-place transfer on an allowance does what the ledger function says or changes nothing |
| Contracts.TokenContract.Mint | contracts/src/CountryToken.sol:30-32 | the in-place mint does what the ledger function says or changes nothing |
| Contracts.UserRegistry.UpdateUser | contracts/src/UserRegistry.sol:52-87 | the in-place update does what the model says or changes nothing |
| Contracts.UserRegistry.IsCompliant | contracts/src/UserRegistry.sol:93-119 | answers the model's compliance predicate |
| MintEscrowContract.MintEscrow.constructor | contracts/src/MintEscrow.sol:48-55 | a fresh escrow is empty, unpaused and administered by the admin alone |
| MintEscrowContract.MintEscrow.SubmitIntent | contracts/src/MintEscrow.sol:118-165 | the in-place submission reaches the chain model's state or reverts with its error and changes nothing |
| MintEscrowContract.MintEscrow.CheckSubmit | contracts/src/MintEscrow.sol:122-148 | the first failing check decides the error, in the source's order |
| MintEscrowContract.MintEscrow.TakeDeposit | contracts/src/MintEscrow.sol:150-163 | the token object is asked for the deposit under the guard, and the intent is stored only if it complied |
| MintEscrowContract.MintEscrow.ExecuteMint | contracts/src/MintEscrow.sol:167-196 | the in-place execution, calling the registry and token objects, reaches the chain model's state; a failing mint undoes the writes before it |
| MintEscrowContract.MintEscrow.CheckExecute | contracts/src/MintEscrow.sol:167-188 | the first failing check decides the error, in the source's order |
| MintEscrowContract.MintEscrow.MintIntent | contracts/src/MintEscrow.sol:190-193 | status and daily counter are written before the token object is called, and undone if it fails |
| MintEscrowContract.MintEscrow.RefundIntent | contracts/src/MintEscrow.sol:198-217 | the in-place refund reaches the chain model's state; a failing transfer undoes the status |
| MintEscrowContract.MintEscrow.CheckRefund | contracts/src/MintEscrow.sol:198-210 | the first failing check decides the error; being paused is no obstacle |
| MintEscrowContract.MintEscrow.PayBack | contracts/src/MintEscrow.sol:212-214 | the status is written before the token object is called, and undone if it fails |
| MintEscrowContract.MintEscrow.CallToken | contracts/src/MintEscrow.sol:150-214 | exactly one token object changes, as its ledger function says for a call by the escrow, or none; registries and other tokens stay |
| MintEscrowContract.MintEscrow.AvailableMintingCapacity | contracts/src/MintEscrow.sol:231-236 | capacity and counter add up to the limit unless the counter is past it |
| MintEscrowContract.MintEscrow.SetStablecoin | contracts/src/MintEscrow.sol:60-67 | the setter changes its field as the model says or reverts |
| MintEscrowContract.MintEscrow.SetUserRegistry | contracts/src/MintEscrow.sol:72-79 | the setter changes its field as the model says or reverts |
| MintEscrowContract.MintEscrow.SetCountryToken | contracts/src/MintEscrow.sol:84-90 | the setter changes its entry as the model says or reverts |
| MintEscrowContract.MintEscrow.SetExecutor | contracts/src/MintEscrow.sol:95-102 | the role is granted or revoked as the model says or the call reverts |
| MintEscrowContract.MintEscrow.SetPaused | contracts/src/MintEscrow.sol:107-116 | pausing and resuming as the model says, or a revert |
| PackedSlot.Target.FindOffset | contracts/lib/forge-std/src/StdStorage.sol:71-83 | finds exactly the gap on the given side of the field |
| PackedSlot.Target.FindOffsets | contracts/lib/forge-std/src/StdStorage.sol:85-94 | returns exactly (256 - r - w, r) and restores the slot |
| PackedSlot.Target.CheckedWrite | contracts/lib/forge-std/src/StdStorage.sol:410-444 | with the found offsets a write succeeds iff the value is below 2^w, then the getter returns it and every bit outside the field is unchanged; a failed write changes nothing |
| PackedSlot.WriteThenRead | contracts/lib/forge-std/src/StdStorage.sol:216-331 | writing a value below 2^w and reading gives it back and keeps every bit outside, the full word included |
| PackedSlot.MaskBits | contracts/lib/forge-std/src/StdStorage.sol:316-322 | the mask covers exactly the bits between the offsets, also when the shift by 256 wraps to zero |
| PackedSlot.ExtractIsField | contracts/lib/forge-std/src/StdStorage.sol:216-222 | masking and shifting yields the field |
| PackedSlot.FitsIff | contracts/lib/forge-std/src/StdStorage.sol:420-423 | a word is below 2^w iff none of its bits from w on is set |
| PackedSlot.DecrementSubtracts | contracts/lib/forge-std/src/StdStorage.sol:319-321 | the borrow chain subtracts one modulo the word size |
| Bound.BoundUnsigned | contracts/lib/forge-std/src/StdUtils.sol:31-56 | total for min at most max without any overflow, lands in the range, fixes values in the range |
| Bound.BoundIsCongruent | contracts/lib/forge-std/src/StdUtils.sol:44-55 | away from the two special cases the result differs from x by a multiple of the range size |
| Bound.CongruentIsUnique | contracts/lib/forge-std/src/StdUtils.sol:44-55 | only one value of the range is congruent to x |
| Bound.EndsAreCovered | contracts/lib/forge-std/src/StdUtils.sol:39-42 | the lowest and highest words reach the ends of the range |
| Bound.SignedIsConjugate | contracts/lib/forge-std/src/StdUtils.sol:63-81 | the signed form is the unsigned one conjugated by the shift, lands in range and fixes values in range |
| Bound.ShiftIsOrderPreserving | contracts/lib/forge-std/src/StdUtils.sol:73-80 | the shift adds 2^255, preserves order and is undone |

## Left out

- MintEscrowContract.MintEscrow.CallToken: the token objects do not call back; token code that does is modelled on values, in `reentrancy` and `hostile_runs`.
- Solvency.RunSolvent: is stated for runs in which the escrow points at one stablecoin at most; refunds in another token after a change are not modelled.
- Retry.ExecuteMintWithRetry: replies and cancellations are parameters; elapsed time is not modelled, only the durations asked for.
- StoreObjects.PostgresStore.Get: a failing SQL statement is not an operation of the run; it changes nothing and returns an error.
- HTTP routing, JSON decoding and encoding, health endpoint, request ids and the Prometheus registry: plumbing around the modelled steps.
- Decimal and hexadecimal parsing of amounts, addresses and ids: the parsed values are parameters.
- Dialing, gas, nonces, keys and receipt polling of the Ethereum client: a call fails, fails after broadcasting, or succeeds.
- Partial file writes, path handling of dead-letter names and SQL details: each is one atomic operation that works or fails.
- Role administration of tokens and of the registry beyond minters and managers, and OpenZeppelin's internals: roles are sets, the pause a flag.
- `ComplianceManager`, the deployment script and the read-only getters: delegation and configuration.
- StdStorage's `find`, which searches the recorded slots before the packed field is located, and its cache.
- The rest of forge-std: cheatcode wrappers.
