# waallet background core, modelled in Dafny

This project models the core of the waallet browser extension's background worker. That core is the pipeline that turns a dapp's `eth_sendTransaction` into an ERC-4337 UserOperation for EntryPoint v0.6 and follows the operation until it is included. The project contains:

- **`UserOperation`** (`user_operation.dfy`): the v0.6 UserOperation value object.
  - Constructor defaults, setters, the gas-fee formula and the estimate predicates.
  - The `data()` serialisation and its round trip.
  - `getUserOpHash`, with keccak256 left uninterpreted.
- **`Observable`** (`observable.dfy`): the `ObservableStorage` state container.
  - The deep-partial merge, which never adds an own key the state lacks (inherited names aside; see Left out).
  - Listeners notified after each update.
  - `subscribe` and `unsubscribe`.
- **`BackgroundStorage`** (`background_storage.dfy`): the lifecycle types of the UserOperation pool, the initial state built from the build configuration, the `getStorage` singleton and its sync subscriber.
- **`RequestPool`** (`pool.dfy`):
  - `send` appends a pending transaction request under a fresh id.
  - `wait` is a subscriber that settles a promise at most once.
- **`BackgroundWorker`** (`background_worker.dfy`):
  - The start-up network check.
  - One tick of the receipt poller, which moves `Sent` entries to `Succeeded` or `Failed`.
  - The popup trigger for newly added pending entries.
  - The `isPopupOpened` session flag.
- **`WaalletProvider`** (`waallet_provider.dfy`): the current background JSON-RPC provider. It routes by method name, validates transactions before any pool or bundler call, and estimates gas.
- **`LegacyProvider`** (`legacy_provider.dfy`): the earlier provider. It builds, authorizes, signs and submits the UserOperation itself.
  - Every answer comes with the ordered trace of the oracle calls it made.
  - The gas-fee buffer (×120/100).
- **`Explorer`** (`explorer.dfy`): the chain-to-explorer lookup of the popup's info page, and the crawler loop that keeps the first transaction hash of each block.
- **Helpers**:
  - `Wrappers`: `Option` and `Result`.
  - `Text`: ASCII case folding and substrings.
  - `JsValue`: a JSON/JS value tree with JS truthiness.
  - `Hex`: a reference hex-quantity encoding with its round trip.

Browser APIs, the network, the bundler, the node, the account, the paymaster, the authorizer, uuid and the clock are not modelled. Each appears as a parameter or as a function-valued field of a datatype, so every property holds whatever those oracles answer.

## Model

| member | source | states |
|---|---|---|
| UserOperation.UserOperationV0_6.constructor | packages/bundler/userOperation/v0_6.ts:38-71 | The fields are the argument's, with gas and fee fields 0 and byte strings "0x" unless given a truthy value (initCode defaulted to "0x"; see Findings) |
| UserOperation.OmittedFieldsDefault | packages/bundler/userOperation/v0_6.ts:30-70 | Omitted or falsy gas and fee fields become 0; omitted or empty paymasterAndData and signature become "0x" |
| UserOperation.HexFieldRoundTrip | packages/bundler/userOperation/v0_6.ts:109-123 | A hex quantity written by `data()` is truthy and converts back to the same number |
| UserOperation.DataRoundTrip | packages/bundler/userOperation/v0_6.ts:38-123 | Constructing from `data()` gives back field-for-field the same operation |
| UserOperation.VerificationMultiplier | packages/bundler/userOperation/v0_6.ts:162 | The verification multiplier is 1 or 3 |
| UserOperation.PaymasterFeeSurcharge | packages/bundler/userOperation/v0_6.ts:159-166 | With a paymaster the fee is the plain fee plus exactly 2 × verificationGasLimit × maxFeePerGas, so it never drops |
| UserOperation.PlainGasFee | packages/bundler/userOperation/v0_6.ts:159-166 | With paymasterAndData "0x" the fee is (call + verification + preVerification gas) × maxFeePerGas |
| UserOperation.SetGasLimitEstimates | packages/bundler/userOperation/v0_6.ts:168-178 | After new gas limits, the gas is estimated iff all three are non-zero, and the fee estimate is unchanged |
| UserOperation.SetGasFeeEstimates | packages/bundler/userOperation/v0_6.ts:168-178 | After new fees, the fee is estimated iff both are non-zero, and the gas estimate is unchanged |
| UserOperation.HashIgnoresSignature | packages/bundler/userOperation/v0_6.ts:73-107 | Replacing the signature leaves the hash unchanged, for any digest function |
| UserOperation.HashIgnoresHexCase | packages/bundler/userOperation/v0_6.ts:73-107 | The letter case of the hex in the addresses, byte strings and entry point does not change the hash, as ABI encoding and keccak256 read bytes, not text |
| UserOperation.HashDeterminedByUnsignedFields | packages/bundler/userOperation/v0_6.ts:73-107 | For a collision-free digest, two operations hash alike iff they agree on every field except the signature, with hex compared ignoring letter case |
| UserOperation.HashBindsEntryPointAndChain | packages/bundler/userOperation/v0_6.ts:101-106 | For a collision-free digest, equal hashes imply the same entry point (ignoring letter case) and the same chain id |
| UserOperation.DataRoundTripPreservesHash | packages/bundler/userOperation/v0_6.ts:73-123 | An operation rebuilt from `data()` has the same hash |
| UserOperation.OmittedInitCodeBreaksHash | packages/bundler/userOperation/v0_6.ts:47-49 | As written, an operation built without initCode cannot be hashed |
| UserOperation.OmittedInitCodeMeansEmpty | packages/bundler/userOperation/v0_6.ts:26-49 | With the "0x" default, an omitted initCode equals an explicit "0x" and the operation is hashable |
| UserOperation.UserOperationV0_6.SetCallGasLimit | packages/bundler/userOperation/v0_6.ts:125-127 | Only callGasLimit changes, to the converted value |
| UserOperation.UserOperationV0_6.SetGasLimit | packages/bundler/userOperation/v0_6.ts:129-137 | Exactly the three gas-limit fields change |
| UserOperation.UserOperationV0_6.SetGasFee | packages/bundler/userOperation/v0_6.ts:139-145 | Exactly the two fee fields change |
| UserOperation.UserOperationV0_6.SetNonce | packages/bundler/userOperation/v0_6.ts:147-149 | Only the nonce changes |
| UserOperation.UserOperationV0_6.SetPaymasterAndData | packages/bundler/userOperation/v0_6.ts:151-153 | Only paymasterAndData changes |
| UserOperation.UserOperationV0_6.SetSignature | packages/bundler/userOperation/v0_6.ts:155-157 | Only the signature changes, and the hash stays the same under every entry point, chain and digest |
| Hex.ToHexRoundTrip | packages/bundler/userOperation/v0_6.ts:112 | `toBigInt(toHex(n)) = n` for every n ≥ 0, the premise of the `data()` round trip |
| Observable.UpdatePartial | storage/observable.ts:33-48 | For an update that fits the target's shape, the result is the merge. Its keys are the target's; keys the updates do not name keep their values; a primitive update value overwrites |
| Observable.MergeAddsNoKeys | storage/observable.ts:37-40 | At every nesting level the merged state has exactly the target's own keys, for update keys that are not inherited property names |
| Observable.MergeIdempotent | storage/observable.ts:33-48 | Applying the same update twice gives the state that applying it once gives |
| Observable.MergeKeepsConformance | storage/observable.ts:33-48 | An update that fits the state still fits the merged state |
| Observable.Notify | storage/observable.ts:22 | One emit makes one invocation per listener, in order, each with the emitted state |
| Observable.NotifiedIffListening | storage/observable.ts:21-27 | A handler is invoked iff it is registered, and only with the new state |
| Observable.LastIndexOf | storage/observable.ts:29-31 | The index found is the last occurrence of the handler, or -1 when there is none |
| Observable.RemoveLastDropsOne | storage/observable.ts:29-31 | `unsubscribe` removes exactly one registration; a handler registered once is then gone, so later emits skip it |
| Observable.ObservableStorage.constructor | storage/observable.ts:12-14 | The storage starts with the given state and no listeners |
| Observable.ObservableStorage.Get | storage/observable.ts:16-18 | Returns the state as a value, so changing the copy leaves the stored state alone |
| Observable.ObservableStorage.Set | storage/observable.ts:20-23 | For an update that fits the state's shape, the state becomes the merge; then every listener receives the new state |
| Observable.ObservableStorage.Override | background/storage.ts:61-70 | The state is replaced; then every listener receives it |
| Observable.ObservableStorage.Emit | storage/observable.ts:22 | State and listeners are unchanged; the delivery log grows by one notification per listener |
| Observable.ObservableStorage.Subscribe | storage/observable.ts:25-27 | The handler is appended to the listeners |
| Observable.ObservableStorage.Unsubscribe | storage/observable.ts:29-31 | The last registration of the handler is removed; nothing else changes |
| BackgroundStorage.Rank | background/storage.ts:196-201 | The lifecycle rank is at most 2, and is 2 exactly for Succeeded and Failed |
| BackgroundStorage.InitialStateShape | background/storage.ts:51-69 | The initial state has the five keys and an empty pool; one network, which is the active one; its active account is the first account key |
| BackgroundStorage.EntriesOnlyWhenConfigured | background/storage.ts:23-56 | An account or paymaster entry exists iff its address is configured; the active account, when defined, keys into the accounts |
| BackgroundStorage.SyncSubscriber | background/storage.ts:76-94 | Delivered iff no failure; a warning iff an Error whose message contains the missing-receiver text; never a throw |
| BackgroundStorage.StorageSingleton.constructor | background/storage.ts:12 | No storage exists before the first call |
| BackgroundStorage.StorageSingleton.GetStorage | background/storage.ts:14-98 | The first call builds a fresh storage with the initial state, the persist and sync listeners in order, and one persist notification. Calls made after the first has returned return the same storage |
| BackgroundStorage.StorageSingleton.GetStorageTwice | background/storage.ts:14-18 | A second call made after the first has returned gets one and the same storage |
| RequestPool.PendingEntry | background/pool.ts:28-35 | The entry has the reserved keys plus the request's; request fields win; without clashes it carries type Transaction, the id, the time, accountId and networkId |
| RequestPool.RequestStoragePool.constructor | background/pool.ts:16 | The pool starts with the given requests |
| RequestPool.RequestStoragePool.Send | background/pool.ts:18-39 | Exactly one entry with the fresh id is appended; earlier entries are unchanged; the id is returned |
| RequestPool.RequestStoragePool.SendTwice | background/pool.ts:25 | Two sends return distinct ids and append exactly the two entries |
| RequestPool.Observe | background/pool.ts:47 | The log is found iff the account and the transaction id are present |
| RequestPool.React | background/pool.ts:46-70 | Ignore iff the log is missing or Sent. Rejected rejects with "User rejects the user operation"; Failed and Reverted reject with the receipt's message; other statuses resolve with its transaction hash |
| RequestPool.RunAppend | background/pool.ts:72-74 | Notifying in two batches is notifying with their concatenation |
| RequestPool.SettledStaysSettled | background/pool.ts:54 | Once unsubscribed, the promise never changes again |
| RequestPool.WaitsWhileSent | background/pool.ts:50-52 | While every observed log is Sent or missing, the subscriber stays subscribed and the promise waits |
| RequestPool.FirstDecisiveObservation | background/pool.ts:46-70 | The first observation that is not ignored settles or abandons the promise for good |
| BackgroundWorker.ActiveNetwork | background/index.ts:36-40 | Fails with "No available network" iff networkActive is not a key of the networks |
| BackgroundWorker.PollEntry | background/index.ts:109-156 | Nothing is written unless the entry is Sent, has a receipt and the bundler has one. Otherwise the entry keeps its id and its other fields, and gets the receipt's hashes and a hex block number; it becomes Succeeded iff the receipt succeeded, and Failed with the reason otherwise |
| BackgroundWorker.PollAll | background/index.ts:101-157 | The keys are kept and non-Sent entries untouched. A changed entry went from Sent to a terminal status, and no status moves backwards |
| BackgroundWorker.PollWritesStatements | background/index.ts:121-153 | Every entry the poller writes fits the `UserOperationStatement` type of background/storage.ts:203-232: a terminal status with the receipt it requires, under the entry's own UserOperation hash. So a tick keeps a well-typed pool well-typed |
| BackgroundWorker.PollSettlesOnce | background/index.ts:104-107 | A tick that starts after the previous one has finished never touches an entry that tick settled |
| BackgroundWorker.PendingAdds | background/index.ts:75-79 | The filter keeps exactly the add patches whose value is Pending |
| BackgroundWorker.BackgroundWorker.constructor | background/index.ts:49 | The worker starts with the given pool and flag, and no session writes |
| BackgroundWorker.BackgroundWorker.FetchUserOpsSent | background/index.ts:97-160 | One tick writes `userOpPool[id]` exactly for the entries the poller rewrites |
| BackgroundWorker.BackgroundWorker.OnPortConnect | background/index.ts:51-57 | An "app" port sets the flag, writing only when it was false |
| BackgroundWorker.BackgroundWorker.OnAppPortDisconnect | background/index.ts:61-66 | The flag is cleared, writing only when it was true |
| BackgroundWorker.BackgroundWorker.OnUserOpPoolPatches | background/index.ts:73-95 | A window opens iff the filter does not throw, some patch adds a Pending entry, and no popup is open |
| WaalletProvider.Route | packages/waallet/background/provider.ts:45-68 | Both accounts methods go to the accounts handler. Unknown methods go to the bundler iff they name a `BundlerRpcMethod`, otherwise to the node |
| WaalletProvider.Validate | packages/waallet/background/provider.ts:143-162 | The checks run in order: no `to` gives undefined, then a `from` mismatch, then an unsupported entry point. None of them fires iff all three pass |
| WaalletProvider.EstimationTarget | packages/waallet/background/provider.ts:88-98 | The operation estimated is the derived one, with callGasLimit set from `tx.gas` when that is truthy |
| WaalletProvider.GasLimitsValue | packages/waallet/background/provider.ts:133-140 | The four limits come back as hex quantities; a missing paymaster limit reads as 0 |
| WaalletProvider.TransactionRequestOf | packages/waallet/background/provider.ts:164-169 | The request is the transaction plus `to`, and `gasLimit` taken from `gas` |
| WaalletProvider.WaalletBackgroundProvider.constructor | packages/waallet/background/provider.ts:27-31 | The provider holds the given managers and pool |
| WaalletProvider.WaalletBackgroundProvider.Clone | packages/waallet/background/provider.ts:33-40 | A fresh provider takes each part from the option when given, otherwise from this provider |
| WaalletProvider.WaalletBackgroundProvider.HandleEstimateGas | packages/waallet/background/provider.ts:71-104 | A failed check gives its answer. Otherwise the hex of the bundler's callGasLimit for the estimation target |
| WaalletProvider.WaalletBackgroundProvider.HandleEstimateUserOperationGas | packages/waallet/background/provider.ts:116-141 | An unsupported entry point fails with its message. Otherwise the four limits of the bundler's estimate |
| WaalletProvider.WaalletBackgroundProvider.HandleSendTransaction | packages/waallet/background/provider.ts:143-176 | A failed check leaves the pool unchanged. Otherwise one entry under the fresh id is sent, and the answer is `wait` on that id |
| WaalletProvider.WaalletBackgroundProvider.HandleSendUserOperation | packages/waallet/background/provider.ts:178-187 | The derived operation is forwarded to the bundler with no check of its own |
| WaalletProvider.WaalletBackgroundProvider.Request | packages/waallet/background/provider.ts:42-69 | Accounts gives the one-element list of the address. Chain id is in hex; unknown methods are forwarded. A missing, null or undefined transaction is malformed; a primitive one has no `to` and gets undefined. Only eth_sendTransaction can touch the pool |
| LegacyProvider.GasLimitsObject | packages/provider/waallet/background/provider.ts:126-130 | Three hex quantities, each converting back to its estimated limit |
| LegacyProvider.Buffered | packages/provider/waallet/background/provider.ts:218 | ⌊p × 120 / 100⌋, which is at least p |
| LegacyProvider.EstimateGasFee | packages/provider/waallet/background/provider.ts:207-224 | A truthy gas price is used unmodified for both fields; otherwise both are the buffered node price, with a TypeError iff the node reports none |
| LegacyProvider.EstimationRequest | packages/provider/waallet/background/provider.ts:162-171 | The call, overridden by `tx.gas` as callGasLimit when truthy, and then by paymasterAndData |
| LegacyProvider.Merged | packages/provider/waallet/background/provider.ts:172-177 | Later parts override earlier keys: call, then limits, then fee, then paymasterAndData |
| LegacyProvider.Signed | packages/provider/waallet/background/provider.ts:181-192 | The approved operation gains the account's signature over its own hash and the authorizer's metadata, and nothing else changes |
| LegacyProvider.WaalletBackgroundProvider.constructor | packages/provider/waallet/background/provider.ts:31-39 | The provider holds the given parts and no account |
| LegacyProvider.WaalletBackgroundProvider.Connect | packages/provider/waallet/background/provider.ts:54-56 | The account is replaced and nothing else |
| LegacyProvider.WaalletBackgroundProvider.Clone | packages/provider/waallet/background/provider.ts:41-52 | Same node and bundler, authorizer and paymaster from the option when given, and the same account |
| LegacyProvider.WaalletBackgroundProvider.FromCheck | packages/provider/waallet/background/provider.ts:142-147 | No stop without `from`. With a checksummed `from` and an account, a mismatch fails iff the addresses differ |
| LegacyProvider.WaalletBackgroundProvider.HandleEstimateGas | packages/provider/waallet/background/provider.ts:77-113 | Failed checks stop before any bundler, paymaster or operation-building call. The calls made are a prefix of entry points, user-operation call, paymaster, estimate, all of them when it answers |
| LegacyProvider.WaalletBackgroundProvider.HandleEstimateUserOperationGas | packages/provider/waallet/background/provider.ts:115-131 | Answers iff the bundler estimates, with the three limits in hex |
| LegacyProvider.WaalletBackgroundProvider.HandleSendTransaction | packages/provider/waallet/background/provider.ts:133-205 | The `to` and `from` checks stop before any bundler, node, paymaster or authorizer call. The calls made are always a prefix of the full send order |
| LegacyProvider.WaalletBackgroundProvider.BuildCall | packages/provider/waallet/background/provider.ts:149-161 | Calls made are a prefix of call, fee data (only without a gas price), then submission |
| LegacyProvider.WaalletBackgroundProvider.SubmitCall | packages/provider/waallet/background/provider.ts:157-204 | The calls are a prefix of the submission order, and `wait` is called iff every step before it was |
| LegacyProvider.WaalletBackgroundProvider.EstimateAndSend | packages/provider/waallet/background/provider.ts:158-204 | The calls are a prefix of paymaster, estimate, authorize, chain id, sign, send, wait; wait is reached iff the whole order ran |
| LegacyProvider.WaalletBackgroundProvider.AuthorizeAndSend | packages/provider/waallet/background/provider.ts:178-204 | The calls are a prefix of authorize, chain id, sign, send, wait; wait is reached iff the whole order ran |
| LegacyProvider.WaalletBackgroundProvider.Request | packages/provider/waallet/background/provider.ts:58-75 | Unknown methods are forwarded to the node; accounts gives the one-element address list; chain id asks the bundler. For the estimate and send routes a missing, null or undefined transaction is malformed, and a primitive one has no `to` and gets undefined |
| LegacyProvider.SubmitSendsSignedApproval | packages/provider/waallet/background/provider.ts:172-204 | When every oracle answers, the answer is `wait` of the hash of the signed approval of the merged operation, after the full call order |
| LegacyProvider.EmptyHashFailsBeforeWait | packages/provider/waallet/background/provider.ts:195-202 | An empty hash fails with "Send user operation fail" and `wait` is never called |
| Explorer.GetExplorerUrl | popup/pages/info.tsx:260-284 | A URL exists iff the lower-cased name is one of the four networks or the number is one of their chain ids; otherwise null |
| Explorer.ExplorerIgnoresCase | popup/pages/info.tsx:261 | A name and its lower-case form have the same explorer |
| Explorer.NameAndIdAgree | popup/pages/info.tsx:263-279 | Each network's name and chain id map to the same etherscan URL |
| Explorer.IdTextHasNoExplorer | popup/pages/info.tsx:261-283 | A chain id given as text is not matched as a number and yields null |
| Explorer.CollectHashes | popup/pages/info.tsx:223-241 | The loop returns the kept hashes, and leaves the seen set holding the key of every row |
| Explorer.KeptHashesAreKeptRows | popup/pages/info.tsx:227-241 | The hashes are those of exactly the kept rows, in input order, never more than the rows |
| Explorer.KeptBlocksDistinct | popup/pages/info.tsx:236-238 | No two kept rows share a numeric block |
| Explorer.NaNRecordedAsZero | popup/pages/info.tsx:236-238 | A non-numeric block row is kept, and makes every later block-0 row dropped |

## Left out

- keccak256 and ABI encoding: `Hash` takes the digest as a parameter. Collision-freeness is assumed only by the lemmas that need it.
- UserOperation.Hash: hex text is lower-cased before it is encoded, which is how the bytes it stands for ignore letter case. The throws of `abiCoder.encode` at packages/bundler/userOperation/v0_6.ts:75-106 are not modelled: for a mixed-case address with a wrong checksum, for an address that is not 20 bytes, for text that is not hex, and for a uint256 value of 2^256 or more (the nonce, the five gas and fee fields, the chain id). `Hash` is total over unbounded naturals.
- `number.toHex` and `number.toBigInt` (the `util/number` module is not part of this model): `Hex` is a reference encoding with a proved round trip.
- A failed conversion is the `Malformed` answer; the message it throws is not modelled.
- `address.isEqual` is not part of this model. It is taken as a comparison that ignores letter case (`Text.EqualIgnoringCase`); `ethers.getAddress` is the `Codec.getAddress` oracle.
- WaalletProvider.EstimationTarget: `packages/waallet/background/provider.ts:97` calls `setGasLimit` with only `callGasLimit`. The model calls `SetCallGasLimit` there, because the conversion of the two missing fields is not part of this model.
- `isSender` and the class's query methods are stated on the value (`GasFee`, `IsGasEstimated`, `Data`, `Hash`) rather than having rows of their own.
- Observable.UpdatePartial: requires `Conforms`, the shape `RecursivePartial<T>` gives updates: an object update value only where the target holds an object. Outside it, `key in target[key]` at storage/observable.ts:38 throws a TypeError over a primitive target value, and an empty `{}` over one does nothing; neither case is modelled. `Observable.ObservableStorage.Set` carries the same requirement.
- Observable.UpdatePartial, Observable.Merge and Observable.MergeAddsNoKeys: the model tests own keys. The source's `key in target` at storage/observable.ts:38 also finds inherited names such as `toString`, `constructor`, `hasOwnProperty` and `__proto__`, so an update under such a name writes a new own key at :44 (and an object value under `__proto__` recurses into `Object.prototype` at :42). "Never adds a key" holds only for update keys that are not inherited names.
- Observable.ObservableStorage.Set: its state is `Merge`, so it shares both gaps above: the `Conforms` requirement, and the inherited property names the source's `in` test finds and the model does not.
- Observable: `get` copies only the top level, so nested objects stay shared with the stored state. The model merges values, so that aliasing is not captured.
- Listeners are recorded as invocations in `delivered`; their asynchronous bodies are not run.
- `subscribe`'s second path-filter argument, passed by `background/pool.ts:72-74` and `background/index.ts:94`, is ignored here, as `storage/observable.ts` ignores it.
- `set` with a draft callback (`background/pool.ts:27`, `background/index.ts:134`) is modelled as the direct state change the callback makes. `set` with `{ override: true }` is `Override`.
- BackgroundStorage: `browser.storage.local` becomes the `persisted` parameter. The persisting listener's write and all console logging are left out; the sync listener's logging is the `SyncReport` it returns.
- BackgroundStorage.StorageSingleton.GetStorage and BackgroundStorage.StorageSingleton.GetStorageTwice: sequential calls only. Two first calls that overlap both pass the check before the `await` at background/storage.ts:17 and build two storages, each with its own listeners; that race is not modelled.
- `StorageMessenger` is messaging plumbing and is not modelled.
- RequestPool: uuid v4 and `Date.now()` become the `uuid` and `now` parameters. Uniqueness is the precondition `uuid !in drawn`.
- `request.unwrap()` is taken to return the object the request was built with.
- `StateActor.getTransactionRequest` is replaced by passing the request's account id to `Observe`.
- A log missing from the notified state makes the subscriber throw while still subscribed; it is modelled as `Ignore`.
- RequestPool.React: a status other than Sent, Rejected, Failed or Reverted resolves. This follows the code, which resolves on any other status.
- The promise is the `WaitState` value.
- BackgroundWorker.PollSettlesOnce: holds for ticks that do not overlap. In the program `setTimeout(fetchUserOpsSent, 1500)` at background/index.ts:159 does not wait for the `forEach(async …)` at :109, and `bundler.wait` retries until inclusion. So a tick that starts before an earlier tick's write still sees the entry as Sent, polls it again, and rewrites the settled entry through `set`, notifying the listeners once more.
- BackgroundWorker: the concurrent `forEach(async …)` and the `setTimeout` rescheduling are modelled as one sequential tick. `bundler.wait` and `getUserOperationReceipt` are folded into the receipt oracle, where `None` means no receipt yet.
- BackgroundWorker.BackgroundWorker.FetchUserOpsSent requires every pool entry to be stored under its own id, as every writer of the pool does.
- The always-warning sync subscriber of `background/index.ts:25-35`, the provider set-up at lines 41-47, the ping interval and `windows.create` are left out. The window is the `openWindow` result.
- WaalletProvider: the account and network managers are the active account and network values. The gas price estimator's answer is the `gasPrice` field.
- `JsonRpcProvider.send` is the `Forwarded(url)` answer.
- `requestPool.wait(txId)` is the `Awaiting(txId)` answer; what it settles with is `RequestPool`'s `wait` model.
- WaalletProvider.WaalletBackgroundProvider.Request: for the handler routes it states only that the pool is unchanged (except for eth_sendTransaction). The handlers' own contracts state their answers. On eth_estimateUserOperationGas and eth_sendUserOperation a missing or non-string entry point (`params[1]`) is `Malformed` before any handler runs, because the bundler oracles take a `HexString`. The source instead rejects with "Unsupported EntryPoint undefined" on the estimate route (packages/waallet/background/provider.ts:124-128) and forwards the value unchecked on the send route (:181-186).
- LegacyProvider: the node, the bundler's unbounded `wait` polling, the account, the paymaster and the authorizer are oracles. The `{ isGasEstimation: true }` option is not modelled.
- LegacyProvider.Merged: the spread at packages/provider/waallet/background/provider.ts:174 copies the bundler's hex strings as they come. The model's `GasLimits` are numbers written back with `Hex.ToHex`, so the values are equal but the text may differ (for example in leading zeros).
- LegacyProvider.WaalletBackgroundProvider.constructor: the `paymaster` argument defaults to `new NullPaymaster()` at packages/provider/waallet/background/provider.ts:35. Here it is a required parameter, because `NullPaymaster` is not part of this model.
- The in-place signature assignment in `onApproved` is a map update on the approved object.
- LegacyProvider.WaalletBackgroundProvider.HandleSendTransaction: its contract states the early stops and the call order. Its happy-path answer is stated for `SubmitCall` by `SubmitSendsSignedApproval`.
- LegacyProvider.WaalletBackgroundProvider.Request: for the three handlers it states no answer of its own; the handlers' contracts do. A non-object userOp for eth_estimateUserOperationGas is `Malformed` here, while packages/provider/waallet/background/provider.ts:115-131 passes it to the bundler as is, because the bundler oracle takes only objects.
- LegacyProvider.Signed: the model takes `authorize` at packages/provider/waallet/background/provider.ts:178-193 to return exactly what `onApproved` returned, the signed approval, and that is what is sent. An authorizer that returns something else, or calls `onApproved` more than once, is not modelled.
- Explorer.GetExplorerUrl and Explorer.ExplorerIgnoresCase: `Text.Lower` folds ASCII letters only, while `toLowerCase` at popup/pages/info.tsx:261 folds Unicode. A name such as "holes\u212Ay" (with U+212A KELVIN SIGN) gets the holesky URL from the source and `None` from the model.
- Explorer: the XPath queries, the fetch, the DOM, `trim` and `parseInt` are replaced by a sequence of rows, each with a hash and a number or NaN (`None`).
- The `dates` array the loop also fills is not returned by the crawler and is not modelled, and neither is the console output.
- React UI, webAuthn, the bundler JSON-RPC client, the account factory, messaging, declarations and tests are outside this model.

## Findings

| source | as written | input that shows it | evidently intended | confidence | as-written member | corrected member |
|---|---|---|---|---|---|---|
| packages/bundler/userOperation/v0_6.ts:47-49 | `initCode` has no default, so it stays undefined when omitted or empty, and `hash` then applies keccak256 to undefined, which throws | `new UserOperationV0_6({ sender: "0x1111111111111111111111111111111111111111", nonce: 0, callData: "0x" }).hash(entryPoint, chainId)` | `initCode` defaults to "0x" like `paymasterAndData` and `signature`, so an omitted initCode hashes as "no init code" | not executed | UserOperation.OmittedInitCodeBreaksHash | UserOperation.OmittedInitCodeMeansEmpty |
