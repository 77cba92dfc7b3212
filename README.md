# Transaction dispatch engine — a Dafny model

This project models the engine that packs, signs, sends and confirms ledger transactions for the
governance web application. The engine lives in two near-duplicate files,
`utils/TransactionProvider/class/Providers.ts` and `utils/TransactionProvider/class/TransactionProvider.ts`.
Each file defines a `Signer` and a `SendTransaction` class. The model covers:

- **Transaction packing** (`Signer.signAll` / `sign`). Empty instruction groups are dropped. Each kept
  group becomes a transaction stamped with the wallet key as fee payer and the recent blockhash. It is
  partially signed by its co-signers, and the wallet is asked once to sign them all.
- **Request-shape classification** (`setIsSingleTxn`), the timeout setter and `getCurrentBlock`'s choice.
- **Confirmation** (`requestSignature`). A socket notification, status polls and a timer race one another
  over a shared `done` flag. The timer and a poll's verdict check it before settling; the socket callback
  sets it and settles without checking, and a poll records its status before its check. The race is
  modelled as an ordered sequence of arrivals. The first arrival that settles it wins, and once it is
  settled nothing later is observed, so these unguarded paths only ever run on an unsettled race. Polls are
  classified by their status. A failed confirmation is diagnosed by simulating the transaction and scanning
  its logs in reverse for the last `Program log: ` line (`sendSignedAsync`).
- **Batch dispatch.**
  - In `TransactionProvider.ts`, `_batch` sends the freshly signed transactions by position.
  - In `Providers.ts`, `_batch` appends them to the `dispatchable` record list and walks that list. It skips
    records already sent without failure, marks a failed record, and keeps or resets the list at the end.
  - Both run under the three sequencing policies `Sequential`, `Parallel` and `StopOnFailure`.
- **Events.** Everything `notify` emits is kept as a sequence of events, one constructor per event kind of
  `utils/TransactionProvider/model/PromiseEmitterArgs.ts`. `notify` lets events through only once `send`
  has attached an emitter.

The network, the wallet and the clock are parameters. A `SendScript` says what the network does for one
send:

- whether the broadcast is accepted, with the transaction id;
- whether subscribing to the signature throws;
- the ordered arrivals the race sees;
- what the simulation reports.

A batch takes one such script per position. The wallet's answer is `Approves` or `Declines`. The block is
either supplied or the result of the fetch.

Modules: `Types` (the shared values), `Setup` (pieces both classes share word for word), `Signer`,
`Confirmation` (race, poll classification, diagnosis, and the outcome of one send), `Provider` (the class
of `TransactionProvider.ts`) and `Providers` (the class of `Providers.ts`, with its record list). The
loops of the source are `while` loops with invariants:

- `RequestSignature`'s poll/callback loop;
- `ScanLogs`;
- `SignAll`'s push loop;
- both `_batch` loops (`AwaitEach`, `AwaitRecords`).

Each is proved equal to a specification function. Those functions' properties are proved as lemmas.

### Behaviour of the code worth noting

- Parallel emits `finish-sending` with every send still in flight. `Promise.all(pendingTxns)` runs only
  in the non-Parallel branch, and in that branch `pendingTxns` is always empty. Each send then reports on
  its own when it settles (`Provider.ParallelDoesNotWait`, `Provider.CompletionReports`,
  `Providers.BatchRecords`).
- A failed send aborts a Sequential batch just as it aborts a StopOnFailure one. The `await` of a rejected
  send rethrows, so the batch rejects with the failure's reason, and the `breakEarly` exit is never
  reached (`Provider.SendsOutcome`, `Provider.StopOnFailureIsSequential`).
- A timeout is never reported as one. `requestSignature`'s `.catch` swallows the timer's rejection.
  Control then goes to the simulation diagnosis, and a timed-out send whose simulation finds nothing
  succeeds with slot 0. No `timeout` event is ever emitted
  (`Confirmation.TimeoutBranchUnreachable`, `Confirmation.TimedOutButSent`).
- `finally` is not always emitted. A send whose confirmation never settles leaves `send`'s promise
  pending, so `finally` never fires (`Provider.SendTransaction.Send`).
- Index 0 is never bookkept. `if (index)` skips the record write for index 0, and new records carry
  batch-relative indices that are used as list positions
  (`Providers.IndexZeroNeverMarked`, `Providers.FirstBatchNeverCleared`, `Providers.LeftoversMisdirectMarks`).
- `sendAsync` writes the block it used back into the caller's options, so a second send with the same
  options reuses that block and does not fetch again (`Setup.ReusedOptionsKeepBlock`).
- The record list is static and has no initialiser in `Providers.ts`, so it is `undefined` until something
  assigns it. The model starts it empty, on each object.

## Model

| member | source | states |
|---|---|---|
| Setup.ShapeError | utils/TransactionProvider/class/Providers.ts:237-251 | the request is accepted exactly when the instruction set's first element and the signer set's first element are arrays; a non-array is refused with 'Instructions must be an array.', any other array with 'Multiple instructions given but not enough signers set.' |
| Setup.FlatIsRefused | utils/TransactionProvider/class/Providers.ts:237-251 | every flat instruction array is refused, whatever the signers, so single mode cannot be reached through the constructor |
| Setup.InstructionCount | utils/TransactionProvider/class/Providers.ts:573 | the length reported by 'sent' is the number of instruction groups, empty ones included |
| Setup.CurrentBlock | utils/TransactionProvider/class/Providers.ts:214-222 | a supplied block is used as is and the network is asked only when no block is supplied |
| Setup.SuppliedBlockIgnoresNetwork | utils/TransactionProvider/class/TransactionProvider.ts:202-210 | with a supplied block the network's answer makes no difference |
| Setup.NextTimeout | utils/TransactionProvider/class/Providers.ts:649-651 | a falsy value (absent or 0) leaves the timeout unchanged; any other value replaces it |
| Setup.BlockAfter | utils/TransactionProvider/class/Providers.ts:582 | the options' block after sendAsync is the block used once one was obtained, and is left untouched when the fetch fails |
| Setup.ReusedOptionsKeepBlock | utils/TransactionProvider/class/TransactionProvider.ts:541 | a second send with the same options does not ask the network and works on the block the first one obtained |
| Setup.ClosingEvents | utils/TransactionProvider/class/Providers.ts:614-625 | after a call's batch events, `send`'s 'error' and 'finally' keep the earlier events, end in 'finally' exactly when the call settles, and put the 'error' just before it on a rejection |
| Signer.KeptExactly | utils/TransactionProvider/class/Providers.ts:150-167 | the transactions come from exactly the non-empty groups, each once, in ascending order |
| Signer.KeptCount | utils/TransactionProvider/class/Providers.ts:150-167 | as many transactions are built as there are non-empty groups |
| Signer.SignAll | utils/TransactionProvider/class/Providers.ts:145-175 | the push loop yields the positional specification; wallet-not-connected comes first; one transaction per non-empty group |
| Signer.WalletSignsAllBuilt | utils/TransactionProvider/class/Providers.ts:169-171 | the wallet's approval of the built list is the positional specification |
| Signer.Sign | utils/TransactionProvider/class/Providers.ts:125-136 | signAll on the one group, element 0 of its result: the signed transaction for a non-empty group, undefined for an empty one, and signAll's errors otherwise |
| Signer.NotConnectedFirst | utils/TransactionProvider/class/Providers.ts:148 | a wallet without a public key fails with wallet-not-connected whatever the groups and the wallet's answer |
| Signer.SignAllPacksInOrder | utils/TransactionProvider/class/Providers.ts:150-167 | each transaction has the wallet key as fee payer, its group's instructions in order, the block's blockhash, and partial signatures exactly when its signer list is non-empty |
| Signer.DeclineIsUserDenied | utils/TransactionProvider/class/Providers.ts:169-174 | any refusal by the wallet surfaces as the single error 'User denied signature' |
| Confirmation.ClassifyPoll | utils/TransactionProvider/class/TransactionProvider.ts:322-337 | a null status and a status without confirmations keep waiting; a status with err ends the wait rejected with that err; positive confirmations end it resolved |
| Confirmation.FirstTerminal | utils/TransactionProvider/class/TransactionProvider.ts:282-337 | the position of the first arrival that settles the race: every arrival before it leaves the race unsettled |
| Confirmation.QuietRace | utils/TransactionProvider/class/TransactionProvider.ts:280-349 | from an unsettled state, the race is decided by its first settling arrival, with the status last polled before it |
| Confirmation.FirstTerminalWins | utils/TransactionProvider/class/TransactionProvider.ts:268-366 | requestSignature's result is the verdict of the first settling arrival (the timer when nothing else settles it); later arrivals are not observed |
| Confirmation.RaceReturnsUnlessSubscribeThrows | utils/TransactionProvider/class/TransactionProvider.ts:311-314 | requestSignature returns unless subscribing throws, which sets `done` so that nothing can settle the wait; it emits only 'error' and 'signature' events |
| Confirmation.TimeoutOnlyWhenNothingDecided | utils/TransactionProvider/class/TransactionProvider.ts:282-288 | the timer's rejection is observed exactly when no socket or poll arrival settled the race before it; a non-null status then carries the timeout marker as its err |
| Confirmation.SocketRejectionReportedTwice | utils/TransactionProvider/class/TransactionProvider.ts:290-308 | a socket notification with err, arriving first, records `{err, slot}` and emits 'error' twice: once in the callback and once in the catch handler |
| Confirmation.LastProgramLog | utils/TransactionProvider/class/TransactionProvider.ts:515-522 | the result is the last position whose line starts with 'Program log: ', or none when no line does |
| Confirmation.ScanLogs | utils/TransactionProvider/class/TransactionProvider.ts:515-522 | the reverse loop finds the last 'Program log: ' line |
| Confirmation.Diagnose | utils/TransactionProvider/class/TransactionProvider.ts:502-527 | a simulation error becomes 'Transaction failed: ' plus the rest of the last program-log line, or the JSON of err without such a line; a simulation that throws or reports no error diagnoses nothing |
| Confirmation.TimeoutBranchUnreachable | utils/TransactionProvider/class/TransactionProvider.ts:497-500 | requestSignature never rejects, so a send neither throws 'Timed out awaiting confirmation' nor emits 'timeout', and emits only race events |
| Confirmation.ConfirmedWithSlot | utils/TransactionProvider/class/TransactionProvider.ts:488-496 | a confirmation without err makes the send resolve with its txId and the status's slot |
| Confirmation.TimedOutButSent | utils/TransactionProvider/class/TransactionProvider.ts:497-534 | a send whose race times out and whose simulation reports no error still resolves, with slot 0 |
| Confirmation.FailureDiagnosedFromLogs | utils/TransactionProvider/class/TransactionProvider.ts:513-527 | a failed confirmation whose simulation error has a program-log line rejects with that line's text after the prefix |
| Confirmation.RequestSignature | utils/TransactionProvider/class/TransactionProvider.ts:268-366 | the callback/poll loop over the arrivals computes the race's result; it hangs exactly when subscribing throws |
| Confirmation.AttemptSend | utils/TransactionProvider/class/TransactionProvider.ts:455-531 | broadcast, race and diagnosis compute the send's outcome and events |
| Provider.FirstUnsuccessful | utils/TransactionProvider/class/TransactionProvider.ts:408-428 | the first send from a position on that does not succeed: all before it succeed |
| Provider.SendsInOrder | utils/TransactionProvider/class/TransactionProvider.ts:408-428 | 'sent' is emitted for indices 0, 1, ... in ascending order, up to the first send that does not succeed |
| Provider.SendsOutcome | utils/TransactionProvider/class/TransactionProvider.ts:408-444 | 'finish-sending' is the last event when every awaited send succeeds; otherwise the batch rejects with the first failure's reason and its last event is the error carrying that transaction and index, or it never returns when that send hangs |
| Provider.FinishSendingExactly | utils/TransactionProvider/class/TransactionProvider.ts:408-444 | 'finish-sending' is emitted if and only if every awaited send succeeds |
| Provider.StopOnFailureIsSequential | utils/TransactionProvider/class/TransactionProvider.ts:424-436 | Sequential and StopOnFailure dispatch identically: the breakEarly exit is never reached |
| Provider.ParallelDoesNotWait | utils/TransactionProvider/class/TransactionProvider.ts:437-444 | in Parallel, 'finish-sending' is the only event of the call and every send is still in flight |
| Provider.BatchEventKinds | utils/TransactionProvider/class/TransactionProvider.ts:393-448 | a batch emits only 'error', 'signature', 'sent' and 'finish-sending', never 'finally' |
| Provider.CompletionReports | utils/TransactionProvider/class/TransactionProvider.ts:409-425 | a settled Parallel send emits 'sent' for its own index exactly when it succeeds, ends with the batch error for its own transaction and index when it fails, emits only race events when it hangs, and never emits 'finish-sending' |
| Provider.AwaitedStepIsCompletion | utils/TransactionProvider/class/TransactionProvider.ts:409-428 | an awaited send emits what the same send emits as a Parallel completion, and only a success goes on to the next position |
| Provider.SendTransaction.Init | utils/TransactionProvider/class/TransactionProvider.ts:185-194 | the fields as the constructor sets them before the shape check, with the default timeout 30000 unless a truthy one is given |
| Provider.SendTransaction.SetTimeout | utils/TransactionProvider/class/TransactionProvider.ts:599-601 | the timeout setter writes only truthy values |
| Provider.SendTransaction.SetIsSingleTxn | utils/TransactionProvider/class/TransactionProvider.ts:215-229 | throws the shape error; `isSingle` ends false on success, true before the not-enough-signers throw, untouched for a non-array |
| Provider.SendTransaction.New | utils/TransactionProvider/class/TransactionProvider.ts:185-195 | construction succeeds exactly when the shape check passes, with no events and no emitter |
| Provider.SendTransaction.Notify | utils/TransactionProvider/class/TransactionProvider.ts:592-597 | events are appended only when an emitter is attached |
| Provider.SendTransaction.SendSignedAsync | utils/TransactionProvider/class/TransactionProvider.ts:455-535 | the send's outcome, its race events, then 'sent' with txId, index and the number of groups on success |
| Provider.SendTransaction.Batch | utils/TransactionProvider/class/TransactionProvider.ts:393-448 | wallet check, block check and signAll errors reject without events; otherwise the batch specification's outcome and events |
| Provider.SendTransaction.AwaitEach | utils/TransactionProvider/class/TransactionProvider.ts:408-444 | the awaited loop computes the specification of the sends by position |
| Provider.SendTransaction.AwaitOne | utils/TransactionProvider/class/TransactionProvider.ts:409-428 | one awaited send with its catch handler: stop on hang or failure, continue on success |
| Provider.SendTransaction.ParallelSend | utils/TransactionProvider/class/TransactionProvider.ts:409-425 | one Parallel send with its catch handler, settling after the batch returned: its outcome and its completion events |
| Provider.SendTransaction.SendAsync | utils/TransactionProvider/class/TransactionProvider.ts:540-549 | the wallet check and a failed block fetch reject without events; otherwise `_batch` runs on the current block, as the batch specification states, appending only batch events; the options' block is written as BlockAfter states once the wallet check passes |
| Provider.SendTransaction.Send | utils/TransactionProvider/class/TransactionProvider.ts:574-585 | the emitter is attached first, so the call's events are the wallet, block or signAll rejection, or the batch specification's events, followed by 'error' on a rejection and 'finally' unless the call never settles; the options' block as in sendAsync |
| Providers.KeepOrReset | utils/TransactionProvider/class/Providers.ts:228-232 | the list is cleared exactly when every record is sent and not failed, and otherwise left unchanged |
| Providers.SendSigned | utils/TransactionProvider/class/Providers.ts:488-575 | only the record at a truthy index is written (txId and sent); a position past the end makes the send reject; 'sent' follows a success |
| Providers.Settle | utils/TransactionProvider/class/Providers.ts:441-455 | a rejected send marks its own record failed with the reason and emits the error carrying that record; nothing else changes |
| Providers.InFlight | utils/TransactionProvider/class/Providers.ts:437-474 | the positions of exactly the unsettled records, in ascending order: the sends Parallel leaves in flight |
| Providers.IndexZeroNeverMarked | utils/TransactionProvider/class/Providers.ts:568-573 | index 0 and an absent index write no record, yet 'sent' is still emitted with index 0 |
| Providers.RunFromFrame | utils/TransactionProvider/class/Providers.ts:437-470 | the loop keeps the list's length, transactions and indices; sent and failed flags are never cleared; position 0 is never marked sent; failed flags change only when the batch fails |
| Providers.FailureMarksOwnRecord | utils/TransactionProvider/class/Providers.ts:446-455 | a failed batch has marked an unsettled record failed with the failure as its reason, and ends with the error carrying that record |
| Providers.SettleKeepsSettled | utils/TransactionProvider/class/Providers.ts:446-448 | one send never unsettles a settled record |
| Providers.SettledRecordsSkipped | utils/TransactionProvider/class/Providers.ts:439 | records sent without failure are skipped: what the network would do for them does not affect the batch |
| Providers.AllSettledSendsNothing | utils/TransactionProvider/class/Providers.ts:437-439 | over a fully settled list the loop sends nothing, emits nothing and changes nothing |
| Providers.EmptyBatchOverSettledList | utils/TransactionProvider/class/Providers.ts:416-481 | a batch of no transactions over a settled list emits only 'finish-sending' and clears the list, under every policy |
| Providers.FirstBatchNeverCleared | utils/TransactionProvider/class/Providers.ts:416-481 | the first batch on an empty list is never reset: its record 0 stays unsent, under every policy and whatever the network does |
| Providers.LeftoversMisdirectMarks | utils/TransactionProvider/class/Providers.ts:428-431 | with leftover records, the j-th new record's successful send marks position j and leaves its own record unsent |
| Providers.BatchRecordsEventKinds | utils/TransactionProvider/class/Providers.ts:416-481 | a batch emits only 'error', 'signature', 'sent' and 'finish-sending', never 'finally' |
| Providers.RunFromEventKinds | utils/TransactionProvider/class/Providers.ts:437-474 | the loop itself emits only 'error', 'signature' and 'sent' |
| Providers.BatchFinishesExactly | utils/TransactionProvider/class/Providers.ts:462-479 | 'finish-sending' is emitted if and only if the batch finishes, and then it is the last event: a failed or hung await aborts before it |
| Providers.BatchKeepsIndicesBehind | utils/TransactionProvider/class/Providers.ts:419-432 | the new records are appended behind the old ones and the loop never changes an index, so every index stays at most its position |
| Providers.StopLeavesRest | utils/TransactionProvider/class/Providers.ts:437-474 | a loop that fails or hangs stops at an unsettled record and leaves every record after it untouched |
| Providers.BatchStopLeavesRest | utils/TransactionProvider/class/Providers.ts:437-474 | a batch that fails or hangs leaves every record after the one it stopped at as it was |
| Providers.SendTransaction.Init | utils/TransactionProvider/class/Providers.ts:197-207 | the fields as the constructor sets them before the shape check, with an empty record list |
| Providers.SendTransaction.SetTimeout | utils/TransactionProvider/class/Providers.ts:649-651 | the timeout setter writes only truthy values |
| Providers.SendTransaction.SetIsSingleTxn | utils/TransactionProvider/class/Providers.ts:237-251 | throws the shape error; `isSingle` ends false on success, true before the not-enough-signers throw, untouched for a non-array |
| Providers.SendTransaction.New | utils/TransactionProvider/class/Providers.ts:197-207 | construction succeeds exactly when the shape check passes, with an empty record list |
| Providers.SendTransaction.Notify | utils/TransactionProvider/class/Providers.ts:641-647 | events are appended only when an emitter is attached |
| Providers.SendTransaction.Reset | utils/TransactionProvider/class/Providers.ts:630-632 | reset always empties the list |
| Providers.SendTransaction.KeepOrResetDispatchable | utils/TransactionProvider/class/Providers.ts:228-232 | the list is emptied when every record is settled and otherwise left as it was |
| Providers.SendTransaction.SendSignedAsync | utils/TransactionProvider/class/Providers.ts:488-575 | the send's outcome, the write to the record at a truthy index, and the events |
| Providers.SendTransaction.Dispatch | utils/TransactionProvider/class/Providers.ts:441-455 | one record's send with its catch handler, as the record-level specification states; in Parallel it is how an in-flight send completes |
| Providers.SendTransaction.Batch | utils/TransactionProvider/class/Providers.ts:416-481 | wallet check, block check and signAll errors reject with the list and events unchanged; otherwise the new records are appended and the batch runs as its specification states |
| Providers.SendTransaction.AwaitRecords | utils/TransactionProvider/class/Providers.ts:437-474 | the `for ... of` loop computes the record-level specification |
| Providers.SendTransaction.AwaitRecord | utils/TransactionProvider/class/Providers.ts:439-462 | one turn: skip a settled record, otherwise await its send and stop on hang or failure |
| Providers.SendTransaction.SendAsync | utils/TransactionProvider/class/Providers.ts:580-587 | the wallet check and a failed block fetch reject with the list and events unchanged; otherwise `_batch` runs on the current block, as the record-level batch specification states, appending only batch events; the options' block is written as BlockAfter states once the wallet check passes |
| Providers.SendTransaction.Send | utils/TransactionProvider/class/Providers.ts:614-625 | the emitter is attached first, so the list and the events are those of the wallet, block or signAll rejection, or of the record-level batch specification, followed by 'error' on a rejection and 'finally' unless the call never settles; the options' block as in sendAsync |

## Left out

- Network, websocket and wallet calls are parameters: `sendRawTransaction`, `onSignature`, `getSignatureStatuses`, `getRecentBlockhash`, `simulateTransaction` and `signAllTransactions`. `simulate` in both files (`Providers.ts:276`, `TransactionProvider.ts:254`) uses a free `connection` variable; its result is treated purely as an input.
- Removing the signature subscription is not modelled. It has no effect on the modelled outcome.
- Real concurrency and timers are not modelled. This covers the rebroadcast loop, `setTimeout`, the 2-second `sleep` between polls and the Unix-timestamp conversion. Only the order in which watchers report is modelled.
- A poll answer or socket notification arriving after `requestSignature` has returned is not observed. A poll that throws is one arrival that changes nothing.
- Partial signing and the wallet's signature are abstract. A signed transaction records which keys signed it.
- `PromiseEvent` (a Node `EventEmitter` with an inactivity sweep) is left out; events are a sequence. Emitting 'error' is assumed to have a listener, so it does not throw.
- `_single` is not modelled: `setIsSingleTxn` refuses every flat array, so it is unreachable through the constructor (`Setup.FlatIsRefused`). `sendSigned`, which sends one transaction outside a batch, is also left out.
- Providers.SendTransaction: the record list is kept per object rather than shared by every instance, and it starts empty rather than undefined.
- A `TransactionFailedError` carries the record itself in the source. The model carries a copy of the record as it was when the error was emitted.
- Providers.SendTransaction.Dispatch: a Parallel send completes against the list as it is at completion time. The model requires the record's position to still exist, so it does not capture a completion after another batch has reset the list.
- Providers.RunFromFrame: `simulate` writes the freshly fetched blockhash into the transaction it diagnoses, which in `Providers.ts` is the record's own transaction. The model never changes a record's transaction (nor does Providers.Settle), so a later retry of that record with a blockhash its signatures no longer cover is not captured.
- Provider.SendTransaction.ParallelSend: the completions of a Parallel batch are separate calls made after the batch returned. The model does not interleave them with one another, with the events of the same `send` call or with its 'finally'.
- Providers.BatchRecords: the model does not let Parallel completions interleave with later batches; each completion is a separate `Dispatch` call.
- A non-empty instruction group without a signer group reads `length` of `undefined`. The model surfaces this as the `SignersMissing` failure, without the TypeError's text.
- Error texts that come from outside this code are not modelled: the wallet adapter's, the runtime's TypeErrors and the network's.
- Console logging is left out.
