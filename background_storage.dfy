/**
 * The background worker's local storage: the lifecycle types of the
 * UserOperation pool, the initial state built from the build configuration,
 * and the `getStorage` singleton with its two subscribers.
 */
module BackgroundStorage {
  import opened Wrappers
  import opened JsValue
  import Text
  import Observable

  type HexString = string

  /** The lifecycle of a pool entry. */
  datatype UserOperationStatus = Pending | Sent | Succeeded | Failed

  /** How far along the lifecycle a status is; the lifecycle only moves to higher ranks. */
  function Rank(s: UserOperationStatus): (r: nat)
    ensures r <= 2
    ensures (r == 2) <==> (s == Succeeded || s == Failed)
  {
    match s
    case Pending => 0
    case Sent => 1
    case Succeeded => 2
    case Failed => 2
  }

  predicate IsTerminal(s: UserOperationStatus) {
    s == Succeeded || s == Failed
  }

  datatype SucceededReceipt = SucceededReceipt(
    userOpHash: HexString, transactionHash: HexString, blockHash: HexString, blockNumber: HexString)

  datatype FailedReceipt = FailedReceipt(
    userOpHash: HexString, transactionHash: HexString, blockHash: HexString, blockNumber: HexString,
    errorMessage: string)

  /** The status part of a statement: Pending and Sent carry no receipt. */
  datatype Progress =
    | PendingProgress
    | SentProgress
    | SucceededProgress(succeeded: SucceededReceipt)
    | FailedProgress(failed: FailedReceipt)

  function StatusOf(p: Progress): UserOperationStatus {
    match p
    case PendingProgress => Pending
    case SentProgress => Sent
    case SucceededProgress(_) => Succeeded
    case FailedProgress(_) => Failed
  }

  /** A pool entry; `userOp` is the UserOperation's serialised data. */
  datatype UserOperationStatement = UserOperationStatement(
    id: string,
    userOp: Json,
    senderId: string,
    networkId: string,
    entryPointAddress: string,
    progress: Progress)

  /** The build configuration; an empty address means the entry is not configured. */
  datatype Config = Config(
    chainId: int,
    nodeRpcUrl: string,
    bundlerRpcUrl: string,
    simpleAccountAddress: string,
    simpleAccountOwnerPrivateKey: string,
    passkeyAccountAddress: string,
    passkeyAccountCredentialId: string,
    verifyingPaymasterAddress: string,
    verifyingPaymasterOwnerPrivateKey: string)

  /** The uuids drawn while building the initial state. */
  datatype FreshIds = FreshIds(simpleAccountId: string, passkeyAccountId: string, paymasterId: string, networkId: string)

  function SimpleAccountEntry(config: Config): Json {
    Obj(map["type" := Str("SimpleAccount"), "chainId" := Num(config.chainId),
            "address" := Str(config.simpleAccountAddress),
            "ownerPrivateKey" := Str(config.simpleAccountOwnerPrivateKey)])
  }

  function PasskeyAccountEntry(config: Config): Json {
    Obj(map["type" := Str("PasskeyAccount"), "chainId" := Num(config.chainId),
            "address" := Str(config.passkeyAccountAddress),
            "credentialId" := Str(config.passkeyAccountCredentialId)])
  }

  function VerifyingPaymasterEntry(config: Config): Json {
    Obj(map["type" := Str("VerifyingPaymaster"), "chainId" := Num(config.chainId),
            "address" := Str(config.verifyingPaymasterAddress),
            "ownerPrivateKey" := Str(config.verifyingPaymasterOwnerPrivateKey)])
  }

  /** The `account` object: one entry per configured account address. */
  function Accounts(config: Config, ids: FreshIds): map<string, Json> {
    (if config.simpleAccountAddress != "" then map[ids.simpleAccountId := SimpleAccountEntry(config)] else map[])
    + (if config.passkeyAccountAddress != "" then map[ids.passkeyAccountId := PasskeyAccountEntry(config)] else map[])
  }

  /** `Object.keys(account)[0]`: the first account inserted, or undefined when there is none. */
  function FirstAccountKey(config: Config, ids: FreshIds): Json {
    if config.simpleAccountAddress != "" then Str(ids.simpleAccountId)
    else if config.passkeyAccountAddress != "" then Str(ids.passkeyAccountId)
    else Undefined
  }

  function Paymasters(config: Config, ids: FreshIds): map<string, Json> {
    if config.verifyingPaymasterAddress != "" then map[ids.paymasterId := VerifyingPaymasterEntry(config)] else map[]
  }

  function NetworkEntry(config: Config, ids: FreshIds): Json {
    Obj(map["chainId" := Num(config.chainId), "nodeRpcUrl" := Str(config.nodeRpcUrl),
            "bundlerRpcUrl" := Str(config.bundlerRpcUrl), "accountActive" := FirstAccountKey(config, ids)])
  }

  /** The state written over whatever was persisted when the storage is first built. */
  function InitialState(config: Config, ids: FreshIds): Observable.State {
    map[
      "networkActive" := Str(ids.networkId),
      "network" := Obj(map[ids.networkId := NetworkEntry(config, ids)]),
      "account" := Obj(Accounts(config, ids)),
      "paymaster" := Obj(Paymasters(config, ids)),
      "userOpPool" := Obj(map[])]
  }

  /**
   * The initial state has an empty pool, one network, that network active, and its
   * active account the first configured account.
   */
  lemma InitialStateShape(config: Config, ids: FreshIds)
    ensures var s := InitialState(config, ids);
      && s.Keys == {"networkActive", "network", "account", "paymaster", "userOpPool"}
      && s["userOpPool"] == Obj(map[])
      && s["networkActive"] == Str(ids.networkId)
      && s["network"].fields.Keys == {ids.networkId}
      && s["network"].fields[ids.networkId].fields["accountActive"] == FirstAccountKey(config, ids)
  {
  }

  /**
   * An account or paymaster entry exists exactly when its address is configured,
   * and the active account, when defined, keys into the accounts.
   */
  lemma EntriesOnlyWhenConfigured(config: Config, ids: FreshIds)
    requires ids.simpleAccountId != ids.passkeyAccountId
    ensures ids.simpleAccountId in Accounts(config, ids) <==> config.simpleAccountAddress != ""
    ensures ids.passkeyAccountId in Accounts(config, ids) <==> config.passkeyAccountAddress != ""
    ensures |Accounts(config, ids)| <= 2
    ensures Paymasters(config, ids) != map[] <==> config.verifyingPaymasterAddress != ""
    ensures FirstAccountKey(config, ids).Str? <==> Accounts(config, ids) != map[]
    ensures FirstAccountKey(config, ids).Str? ==> FirstAccountKey(config, ids).s in Accounts(config, ids)
  {
    var simple: map<string, Json> :=
      if config.simpleAccountAddress != "" then map[ids.simpleAccountId := SimpleAccountEntry(config)] else map[];
    var passkey: map<string, Json> :=
      if config.passkeyAccountAddress != "" then map[ids.passkeyAccountId := PasskeyAccountEntry(config)] else map[];
    assert Accounts(config, ids).Keys == simple.Keys + passkey.Keys;
    if config.passkeyAccountAddress != "" {
      assert ids.passkeyAccountId in Accounts(config, ids);
    }
  }

  /** The listeners `getStorage` registers. */
  datatype Listener = PersistToLocalStorage | SyncToApp

  /** What a failed sync message is logged as. */
  datatype LogLevel = Warning | ErrorLevel

  /** What `sendMessage` rejected with: an `Error` with a message, or some other value. */
  datatype Thrown = ErrorObject(message: string) | OtherValue

  const ReceivingEndMissing := "Could not establish connection. Receiving end does not exist."

  /** The outcome of one sync notification: delivered, or the failure logged. It never throws. */
  datatype SyncReport = Delivered | Logged(level: LogLevel)

  /** The sync subscriber: a missing receiving end is a warning; any other failure an error log. */
  function SyncSubscriber(sendFailure: Option<Thrown>): (r: SyncReport)
    ensures sendFailure.None? <==> r == Delivered
    ensures r == Logged(Warning) <==>
      sendFailure.Some? && sendFailure.value.ErrorObject? && Text.Contains(sendFailure.value.message, ReceivingEndMissing)
  {
    match sendFailure
    case None => Delivered
    case Some(ErrorObject(message)) =>
      if Text.Contains(message, ReceivingEndMissing) then Logged(Warning) else Logged(ErrorLevel)
    case Some(OtherValue) => Logged(ErrorLevel)
  }

  /** The module-level `storage` variable behind `getStorage`. */
  class StorageSingleton {
    var storage: Observable.ObservableStorage?<Listener>

    constructor ()
      ensures storage == null
    {
      storage := null;
    }

    /**
     * `getStorage`: on the first call builds the storage over the persisted state,
     * registers the persisting listener, overrides the state with the initial one
     * and registers the sync listener; a call made after the first has returned gets
     * the same storage. Calls are taken one at a time, so two first calls that overlap
     * across the `await` of the persisted read are not modelled.
     */
    method GetStorage(persisted: Observable.State, config: Config, ids: FreshIds)
      returns (s: Observable.ObservableStorage<Listener>)
      modifies this
      ensures old(storage) != null ==> s == old(storage) && storage == old(storage)
      ensures old(storage) == null ==>
        && fresh(s) && storage == s
        && s.state == InitialState(config, ids)
        && s.listeners == [PersistToLocalStorage, SyncToApp]
        && s.delivered == [Observable.Notification(PersistToLocalStorage, InitialState(config, ids))]
    {
      if storage == null {
        var created := new Observable.ObservableStorage<Listener>(persisted);
        created.Subscribe(PersistToLocalStorage);
        created.Override(InitialState(config, ids));
        created.Subscribe(SyncToApp);
        storage := created;
      }
      s := storage;
    }

    /** Two calls in a row, the second after the first has returned, yield one and the same storage. */
    method GetStorageTwice(persisted: Observable.State, config: Config, ids: FreshIds, laterPersisted: Observable.State,
                           laterConfig: Config, laterIds: FreshIds)
      returns (first: Observable.ObservableStorage<Listener>, second: Observable.ObservableStorage<Listener>)
      modifies this
      ensures first == second
      ensures old(storage) == null ==> first.state == InitialState(config, ids)
    {
      first := GetStorage(persisted, config, ids);
      second := GetStorage(laterPersisted, laterConfig, laterIds);
    }
  }
}
