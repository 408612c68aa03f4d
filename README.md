# Paywall transaction-update listener, in Dafny

This project models `updateListener` from the paywall's data iframe
(`paywall/src/data-iframe/blockchainHandler/purchaseKey/updateListener.js`).
Given a purchased key, the known transactions and a number of required
confirmations, the listener links the transactions to the key and looks at
the key's authoritative transaction, `key.transactions[0]`.

- If that transaction is final, it returns the original transactions and key.
  Final means its status is not `submitted`, `pending` or `mined`, or it is
  `mined` with strictly more confirmations than required.
- Otherwise it registers `kill` on the web3 service's `'error'` event and a
  one-shot handler on `'transaction.updated'`.
- The handler re-registers itself for every update of another hash and
  resolves the wait on the first update of the watched hash.
- An `'error'` rejects the wait. A `finally` block withdraws `kill` on both
  paths.
- On success the update is spread over the transaction, and the result is
  stored under its hash in a copy of the transaction map. The key is then
  linked again against that copy.

The files:

- `transactions.dfy` (module `Transactions`): transactions, updates, the
  finality rule, the field-wise merge and the map insert. These are pure
  functions with lemmas. `MergeIsSpread` proves that the merge is the
  object spread `{...transaction, ...update}` of the objects' field maps.
- `event_source.dfy` (module `Events`): the shared event source, written as
  a class `EventSource`. It has one registry per channel, and its methods
  `On`, `Once`, `Off` and `Emit` follow Node's event emitter:
  - an emission consumes every one-shot registration on its channel;
  - `off` removes the listener's most recent registration.

  A finite queue of events to emit stands in for the event loop. A ghost call
  log records every registry operation.
- `purchase_key.dfy` (module `PurchaseKey`):
  - `Await` is the first-match search over the emitted events, and `Listen`
    is the whole call as a function of the events the source will emit.
  - The imperative part follows the source's structure. `ReceiveUpdate` is the
    promise and its handler, as a loop over emissions. `WaitForUpdate` adds
    the `on`/`once` registrations and the `finally` block. `UpdateListener`
    is the whole function.
  - Each method is proved against `Await` or `Listen`, and states the source's
    queue, both registries and the call log afterwards.
  - Lemmas state the listener's properties: finality, first match,
    rejection on error, withdrawal of `kill`, merge and insert.
- `wrappers.dfy` (module `Wrappers`): `Option`.

`linkTransactionsToKey` comes from `../keyStatus`, which is not part of this
model. The listener receives it as a function-valued parameter `link`, and
nothing is assumed about it. If the linked key has no transactions, reading
`transaction.status` throws in the source. The model returns
`Rejected(NoAuthoritativeTransaction)` for that case.

A call whose events run out before a matching update or an error settles it
ends as `Waiting`. The source's `await` never returns in that case, so `kill`
and the handler stay registered.

Three points where the model follows the code:

- It adds no cancellation. The code has none.
- The failure path leaves the handler's one-shot registration in place.
- After a match the `'error'` registry returns to its earlier contents. After
  a failure it does so only when none of its other listeners was registered
  with `once`, because the error emission itself consumes those
  (`ErrorListenersRestored`).

## Model

| member | source | states |
|---|---|---|
| Transactions.Classify | paywall/src/data-iframe/blockchainHandler/purchaseKey/updateListener.js:17 | a status string falls outside the named statuses exactly when it is not one of `submitted`, `pending`, `mined` |
| Transactions.IsFinal | paywall/src/data-iframe/blockchainHandler/purchaseKey/updateListener.js:16-20 | the transaction is final exactly when its status is not in flight, or it is `mined` with confirmations strictly above the requirement |
| Transactions.ClassifyThenName | paywall/src/data-iframe/blockchainHandler/purchaseKey/updateListener.js:17 | classifying a status string loses nothing: its name is the string |
| Transactions.NameThenClassify | paywall/src/data-iframe/blockchainHandler/purchaseKey/updateListener.js:17 | every status except an `Other` with a reserved name is recovered from its name |
| Transactions.Merge | paywall/src/data-iframe/blockchainHandler/purchaseKey/updateListener.js:51-54 | merging a well-formed update into a well-formed transaction yields a well-formed transaction |
| Transactions.MergeIsSpread | paywall/src/data-iframe/blockchainHandler/purchaseKey/updateListener.js:51-54 | the merged transaction's fields are the transaction's fields overridden by exactly the fields the update carries; every other field is kept |
| Transactions.MergeExample | paywall/src/data-iframe/blockchainHandler/purchaseKey/updateListener.js:51-54 | an update of the confirmations alone changes only the confirmations, and an extra field survives |
| Transactions.Insert | paywall/src/data-iframe/blockchainHandler/purchaseKey/updateListener.js:55-58 | the new map has the old keys plus the merged transaction's hash, holds the merged transaction there and keeps every other entry |
| Events.Persistent | paywall/src/data-iframe/blockchainHandler/purchaseKey/updateListener.js:44 | an emission never makes a registry longer |
| Events.PersistentCount | paywall/src/data-iframe/blockchainHandler/purchaseKey/updateListener.js:43-44 | after an emission every one-shot registration is gone, and every persistent one is kept as many times as it was made |
| Events.PersistentMembers | paywall/src/data-iframe/blockchainHandler/purchaseKey/updateListener.js:44 | after an emission a registration is present exactly when it was present and not one-shot |
| Events.PersistentIdempotent | paywall/src/data-iframe/blockchainHandler/purchaseKey/updateListener.js:38 | a second emission consumes nothing the first did not |
| Events.RemoveLast | paywall/src/data-iframe/blockchainHandler/purchaseKey/updateListener.js:49 | `off` of an unregistered listener changes nothing, of a registered one removes exactly one registration and adds none |
| Events.RemoveLastRemovesLatest | paywall/src/data-iframe/blockchainHandler/purchaseKey/updateListener.js:49 | `off` removes exactly the listener's most recent registration; those before and after it stay, in their order |
| Events.RemoveLastOfAppended | paywall/src/data-iframe/blockchainHandler/purchaseKey/updateListener.js:43-49 | `off` right after `on` of the same listener restores the registry exactly |
| Events.EventSource.On | paywall/src/data-iframe/blockchainHandler/purchaseKey/updateListener.js:43 | appends one persistent registration to the channel, leaves the other channel and the queue alone, logs the call |
| Events.EventSource.Once | paywall/src/data-iframe/blockchainHandler/purchaseKey/updateListener.js:44 | appends one one-shot registration to the channel, leaves the rest alone, logs the call |
| Events.EventSource.Off | paywall/src/data-iframe/blockchainHandler/purchaseKey/updateListener.js:49 | removes the listener's latest registration from the channel, leaves the rest alone, logs the call |
| Events.EventSource.Emit | paywall/src/data-iframe/blockchainHandler/purchaseKey/updateListener.js:35-41 | delivers the next queued event and consumes the one-shot registrations of its channel only |
| PurchaseKey.Await | paywall/src/data-iframe/blockchainHandler/purchaseKey/updateListener.js:35-47 | a match is an update of the watched hash and a failure an error, at the reported index; every event before it (all of them if the wait never settles) is an update of another hash |
| PurchaseKey.AwaitFirstRelevant | paywall/src/data-iframe/blockchainHandler/purchaseKey/updateListener.js:35-47 | the first event that is not an update of another hash decides the wait: an error rejects it, an update resolves it with that payload |
| PurchaseKey.AwaitAllIgnored | paywall/src/data-iframe/blockchainHandler/purchaseKey/updateListener.js:36-38 | updates of other hashes alone never settle the wait |
| PurchaseKey.AwaitIgnoresLater | paywall/src/data-iframe/blockchainHandler/purchaseKey/updateListener.js:30-41 | once the wait is settled, events emitted afterwards do not change its result |
| PurchaseKey.SingleMatchExample | paywall/src/data-iframe/blockchainHandler/purchaseKey/updateListener.js:35-41 | for updates of hashes A, B, H, H with A and B not H, the wait resolves with the first H's payload |
| PurchaseKey.Watched | paywall/src/data-iframe/blockchainHandler/purchaseKey/updateListener.js:10-25 | the call waits exactly when the linked key has an authoritative transaction whose status is in flight and that is not `mined` with more confirmations than required; it then watches that transaction |
| PurchaseKey.Listen | paywall/src/data-iframe/blockchainHandler/purchaseKey/updateListener.js:3-66 | a call that does not wait returns its inputs, unless the linked key has no transactions, when it is rejected with `NoAuthoritativeTransaction`; a settled call keeps every input hash; a call still waiting has seen only updates of other hashes; an error rejection carries an emitted error |
| PurchaseKey.FinalReturnsInputs | paywall/src/data-iframe/blockchainHandler/purchaseKey/updateListener.js:15-25 | a final authoritative transaction yields exactly the original transactions and original key, whatever is emitted, and no wait |
| PurchaseKey.MinedAtThresholdWaits | paywall/src/data-iframe/blockchainHandler/purchaseKey/updateListener.js:16-20 | a `mined` transaction with exactly the required confirmations is watched, and without events the call stays waiting |
| PurchaseKey.SettlesOnFirstMatch | paywall/src/data-iframe/blockchainHandler/purchaseKey/updateListener.js:51-66 | on the first matching update the result map is the input map plus the merged transaction under its hash, all else unchanged, and the key is re-linked against it |
| PurchaseKey.RejectsOnError | paywall/src/data-iframe/blockchainHandler/purchaseKey/updateListener.js:28-50 | an error before any matching update rejects the call with that error and yields no result |
| PurchaseKey.ConfirmationScenario | paywall/src/data-iframe/blockchainHandler/purchaseKey/updateListener.js:44-66 | 0xabc mined with 1 of 2 confirmations, updated to 3: settles with 0xabc at 3 confirmations, now final, and the key re-linked |
| PurchaseKey.AlreadyFinalScenario | paywall/src/data-iframe/blockchainHandler/purchaseKey/updateListener.js:15-25 | a `failed` authoritative transaction returns the inputs at once and subscribes to nothing |
| PurchaseKey.CallsDuringCounts | paywall/src/data-iframe/blockchainHandler/purchaseKey/updateListener.js:38-50 | a waiting call registers `kill` once, withdraws it once unless still waiting, registers the handler once plus once per mismatch, and never withdraws the handler |
| PurchaseKey.ErrorListenersRestored | paywall/src/data-iframe/blockchainHandler/purchaseKey/updateListener.js:43-50 | after a match the `'error'` registry is back to its contents before the call; after a failure too, given no one-shot error listeners |
| PurchaseKey.HandlerAfterWait | paywall/src/data-iframe/blockchainHandler/purchaseKey/updateListener.js:38-49 | the handler's registration is gone after a match and still present after a failure or while waiting |
| PurchaseKey.ReceiveUpdate | paywall/src/data-iframe/blockchainHandler/purchaseKey/updateListener.js:35-47 | the loop over emissions returns `Await`'s result, consumes exactly the events up to it, re-registers the handler once per mismatch and leaves `'error'` alone unless an error fired |
| PurchaseKey.WaitForUpdate | paywall/src/data-iframe/blockchainHandler/purchaseKey/updateListener.js:27-50 | registration, wait and `finally` return `Await`'s result and leave the queue, both registries and the call log as stated |
| PurchaseKey.UpdateListener | paywall/src/data-iframe/blockchainHandler/purchaseKey/updateListener.js:3-66 | the outcome is `Listen` of the events the source emits; a call that does not wait touches nothing on the source; one that waits leaves it as `WaitForUpdate` does |

## Left out

- `linkTransactionsToKey` is not part of this model. It is a parameter, so
  expiry and ordering rules are not modelled, and no property of its result is
  assumed.
- Real asynchrony is replaced by a finite queue of events that the call itself
  delivers: promise scheduling, the microtask between `done` and the end of
  the `await`, and concurrent calls sharing one web3 service. Other owners'
  listeners are consumed by an emission but their reactions are not modelled.
- An `'error'` emission with no listener, which throws in Node, is not
  modelled. The listener only lets the source emit while `kill` is registered.
- JavaScript field values are reduced to strings, integers, booleans and
  null. An update field that is present with the value `undefined` is not
  distinguished from an absent one. Confirmations are natural numbers,
  never missing. A transaction's `hash` and `status` are always strings: a
  transaction without a status (which line 17 treats as final) and an update
  carrying `hash: null` or `status: null` cannot be represented.
- Cancellation and timeouts are not modelled, because the source has neither.
