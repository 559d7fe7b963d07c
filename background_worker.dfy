/**
 * The background worker's main loop of background/index.ts: the start-up
 * network check, one tick of the receipt poller that moves `Sent`
 * UserOperations to `Succeeded` or `Failed`, the popup trigger on newly added
 * pending UserOperations, and the `isPopupOpened` session flag.
 */
module BackgroundWorker {
  import opened Wrappers
  import opened JsValue
  import Hex
  import opened BackgroundStorage

  const NoAvailableNetwork := "No available network"

  /** `state.network[state.networkActive]`, or the start-up error when it is missing. */
  function ActiveNetwork<N>(networks: map<string, N>, networkActive: string): (r: Result<N>)
    ensures r.Ok? <==> networkActive in networks
    ensures r.Ok? ==> r.value == networks[networkActive]
    ensures r.Err? ==> r.message == NoAvailableNetwork
  {
    if networkActive in networks then Ok(networks[networkActive]) else Err(NoAvailableNetwork)
  }

  /** The receipt a pool entry carries; only a failure has an error message. */
  datatype LogReceipt = LogReceipt(
    userOpHash: HexString, transactionHash: HexString, blockHash: HexString, blockNumber: HexString,
    errorMessage: Option<string>)

  /** A pool entry; `rest` holds the fields the poller copies over unchanged. */
  datatype UserOperationLog = UserOperationLog(
    id: string, rest: map<string, Json>, status: UserOperationStatus, receipt: Option<LogReceipt>)

  /** What `bundler.getUserOperationReceipt` returns when a receipt exists. */
  datatype BundlerReceipt = BundlerReceipt(
    success: bool, transactionHash: HexString, blockHash: HexString, blockNumber: nat, reason: string)

  /** The bundler as seen by the poller: the receipt, if any yet, for a UserOperation hash. */
  type ReceiptOracle = HexString -> Option<BundlerReceipt>

  /**
   * The new entry the poller writes for `log`, or `None` when it writes nothing:
   * the entry is not `Sent`, carries no receipt, or the bundler has no receipt yet.
   */
  function PollEntry(log: UserOperationLog, oracle: ReceiptOracle): (r: Option<UserOperationLog>)
    ensures r.None? <==> log.status != Sent || log.receipt.None? || oracle(log.receipt.value.userOpHash).None?
    ensures r.Some? ==> r.value.id == log.id && r.value.rest == log.rest && r.value.receipt.Some?
    ensures r.Some? ==>
      var hash := log.receipt.value.userOpHash;
      var bundled := oracle(hash).value;
      && r.value.receipt.value.userOpHash == hash
      && r.value.receipt.value.transactionHash == bundled.transactionHash
      && r.value.receipt.value.blockHash == bundled.blockHash
      && Hex.ToBigInt(r.value.receipt.value.blockNumber) == Some(bundled.blockNumber)
      && (r.value.status == Succeeded <==> bundled.success)
      && (r.value.status == Failed <==> !bundled.success)
      && (r.value.receipt.value.errorMessage == if bundled.success then None else Some(bundled.reason))
  {
    if log.status != Sent || log.receipt.None? then None
    else
      var hash := log.receipt.value.userOpHash;
      match oracle(hash)
      case None => None
      case Some(bundled) =>
        Hex.ToHexRoundTrip(bundled.blockNumber);
        if bundled.success then
          Some(log.(status := Succeeded,
                    receipt := Some(LogReceipt(hash, bundled.transactionHash, bundled.blockHash,
                                               Hex.ToHex(bundled.blockNumber), None))))
        else
          Some(log.(status := Failed,
                    receipt := Some(LogReceipt(hash, bundled.transactionHash, bundled.blockHash,
                                               Hex.ToHex(bundled.blockNumber), Some(bundled.reason)))))
  }

  /** The entry after the poller has looked at it. */
  function Polled(log: UserOperationLog, oracle: ReceiptOracle): UserOperationLog {
    match PollEntry(log, oracle) case Some(updated) => updated case None => log
  }

  /** A pool whose every entry is stored under its own id, as `userOpPool[id] = …` keeps it. */
  predicate WellKeyed(pool: map<string, UserOperationLog>) {
    forall k :: k in pool ==> pool[k].id == k
  }

  /** The pool after one tick: every entry the poller rewrites replaced, every other kept. */
  function PollAll(pool: map<string, UserOperationLog>, oracle: ReceiptOracle): (r: map<string, UserOperationLog>)
    ensures r.Keys == pool.Keys
    ensures WellKeyed(pool) ==> WellKeyed(r)
    ensures forall k :: k in pool && pool[k].status != Sent ==> r[k] == pool[k]
    ensures forall k :: k in pool ==> Rank(r[k].status) >= Rank(pool[k].status)
    ensures forall k :: k in pool && r[k] != pool[k] ==> pool[k].status == Sent && IsTerminal(r[k].status)
  {
    map k | k in pool :: Polled(pool[k], oracle)
  }

  /** The pool part-way through a tick: the keys still `pending` not yet looked at. */
  function PartlyPolled(pool: map<string, UserOperationLog>, pending: set<string>, oracle: ReceiptOracle): map<string, UserOperationLog> {
    map k | k in pool :: if k in pending then pool[k] else Polled(pool[k], oracle)
  }

  /** Looking at one more pending key writes its polled entry, and only when the poller rewrites it. */
  lemma PollOneMore(pool: map<string, UserOperationLog>, pending: set<string>, key: string, oracle: ReceiptOracle)
    requires key in pending && key in pool
    ensures PollEntry(pool[key], oracle).Some? ==>
      PartlyPolled(pool, pending - {key}, oracle) == PartlyPolled(pool, pending, oracle)[key := PollEntry(pool[key], oracle).value]
    ensures PollEntry(pool[key], oracle).None? ==>
      PartlyPolled(pool, pending - {key}, oracle) == PartlyPolled(pool, pending, oracle)
  {
  }

  /** Before the walk nothing has been looked at. */
  lemma PollStart(pool: map<string, UserOperationLog>, oracle: ReceiptOracle)
    ensures PartlyPolled(pool, pool.Keys, oracle) == pool
  {
  }

  /** With nothing left pending the tick is complete. */
  lemma PollDone(pool: map<string, UserOperationLog>, oracle: ReceiptOracle)
    ensures PartlyPolled(pool, {}, oracle) == PollAll(pool, oracle)
  {
  }

  /** A second tick, started after the first has finished, never touches what the first one settled. */
  lemma PollSettlesOnce(pool: map<string, UserOperationLog>, first: ReceiptOracle, second: ReceiptOracle)
    ensures var once := PollAll(pool, first);
      forall k :: k in pool && once[k] != pool[k] ==> PollAll(once, second)[k] == once[k]
  {
  }

  /**
   * The entry as a `UserOperationStatement` of background/storage.ts, or `None`
   * when it fits none of the type's three cases: a Succeeded entry needs a
   * receipt without an error message, a Failed entry one with it.
   */
  function ProgressOf(log: UserOperationLog): Option<Progress> {
    match log.status
    case Pending => Some(PendingProgress)
    case Sent => Some(SentProgress)
    case Succeeded =>
      if log.receipt.Some? && log.receipt.value.errorMessage.None? then
        var r := log.receipt.value;
        Some(SucceededProgress(SucceededReceipt(r.userOpHash, r.transactionHash, r.blockHash, r.blockNumber)))
      else None
    case Failed =>
      if log.receipt.Some? && log.receipt.value.errorMessage.Some? then
        var r := log.receipt.value;
        Some(FailedProgress(FailedReceipt(r.userOpHash, r.transactionHash, r.blockHash, r.blockNumber,
                                          r.errorMessage.value)))
      else None
  }

  /** Every entry of the pool fits the statement type. */
  predicate WellTyped(pool: map<string, UserOperationLog>) {
    forall k :: k in pool ==> ProgressOf(pool[k]).Some?
  }

  /**
   * What the poller writes is a statement of the terminal case it names, carrying
   * the receipt of the entry's own UserOperation hash; so a tick keeps a well-typed
   * pool well-typed.
   */
  lemma PollWritesStatements(pool: map<string, UserOperationLog>, oracle: ReceiptOracle)
    ensures forall k :: k in pool && PollEntry(pool[k], oracle).Some? ==>
      var written := PollEntry(pool[k], oracle).value;
      && ProgressOf(written).Some?
      && StatusOf(ProgressOf(written).value) == written.status
      && IsTerminal(written.status)
      && written.receipt.value.userOpHash == pool[k].receipt.value.userOpHash
    ensures WellTyped(pool) ==> WellTyped(PollAll(pool, oracle))
  {
  }

  /** A popup-trigger patch, as immer reports it; `path` is relative to `userOpPool`. */
  datatype PatchOp = Add | Replace | Remove
  datatype Patch = Patch(op: PatchOp, path: seq<string>, value: Json)

  /** `(p.value as UserOperationLog).status === Pending`. */
  predicate IsPendingValue(v: Json) {
    v.Obj? && "status" in v.fields && v.fields["status"] == Str("Pending")
  }

  /** Reading `.status` of an added `null` or `undefined` value throws inside the filter. */
  predicate FilterThrows(patches: seq<Patch>) {
    exists i :: 0 <= i < |patches| && patches[i].op == Add && (patches[i].value == Null || patches[i].value == Undefined)
  }

  /** The `filter` of the popup subscriber: the added pending entries, in order. */
  function PendingAdds(patches: seq<Patch>): (r: seq<Patch>)
    ensures |r| <= |patches|
    ensures forall p :: p in r <==> p in patches && p.op == Add && IsPendingValue(p.value)
  {
    if patches == [] then []
    else
      (if patches[0].op == Add && IsPendingValue(patches[0].value) then [patches[0]] else [])
      + PendingAdds(patches[1..])
  }

  class BackgroundWorker {
    var userOpPool: map<string, UserOperationLog>
    /** The session storage flag. */
    var isPopupOpened: bool
    /** How many times the session storage has been written. */
    var sessionWrites: nat

    constructor (pool: map<string, UserOperationLog>, popupOpened: bool)
      ensures userOpPool == pool && isPopupOpened == popupOpened && sessionWrites == 0
    {
      userOpPool, isPopupOpened, sessionWrites := pool, popupOpened, 0;
    }

    /**
     * One tick of `fetchUserOpsSent`: walks a snapshot of the pool and writes
     * `userOpPool[id]` for each entry the poller rewrites.
     */
    method FetchUserOpsSent(oracle: ReceiptOracle)
      requires WellKeyed(userOpPool)
      modifies this
      ensures userOpPool == PollAll(old(userOpPool), oracle)
      ensures isPopupOpened == old(isPopupOpened) && sessionWrites == old(sessionWrites)
    {
      var snapshot := userOpPool;
      var pending := snapshot.Keys;
      PollStart(snapshot, oracle);
      while pending != {}
        invariant pending <= snapshot.Keys
        invariant userOpPool == PartlyPolled(snapshot, pending, oracle)
        invariant isPopupOpened == old(isPopupOpened) && sessionWrites == old(sessionWrites)
        decreases pending
      {
        var key :| key in pending;
        PollOneMore(snapshot, pending, key, oracle);
        pending := pending - {key};
        var sentUserOp := snapshot[key];
        var updated := PollEntry(sentUserOp, oracle);
        if updated.Some? {
          assert sentUserOp.id == key;
          userOpPool := userOpPool[sentUserOp.id := updated.value];
        }
      }
      PollDone(snapshot, oracle);
    }

    /** `onConnect`: an `"app"` port marks the popup open, writing only if it was closed. */
    method OnPortConnect(portName: string)
      modifies this
      ensures isPopupOpened == (portName == "app" || old(isPopupOpened))
      ensures sessionWrites == old(sessionWrites) + (if portName == "app" && !old(isPopupOpened) then 1 else 0)
      ensures userOpPool == old(userOpPool)
    {
      if portName == "app" {
        if !isPopupOpened {
          isPopupOpened := true;
          sessionWrites := sessionWrites + 1;
        }
      }
    }

    /** `onDisconnect` of an `"app"` port: marks the popup closed, writing only if it was open. */
    method OnAppPortDisconnect()
      modifies this
      ensures !isPopupOpened
      ensures sessionWrites == old(sessionWrites) + (if old(isPopupOpened) then 1 else 0)
      ensures userOpPool == old(userOpPool)
    {
      if isPopupOpened {
        isPopupOpened := false;
        sessionWrites := sessionWrites + 1;
      }
    }

    /**
     * The popup subscriber: opens a window exactly when some patch adds a pending
     * entry, the filter does not throw and no popup is open.
     */
    method OnUserOpPoolPatches(patches: seq<Patch>) returns (openWindow: bool)
      ensures openWindow <==>
        && !FilterThrows(patches)
        && (exists p :: p in patches && p.op == Add && IsPendingValue(p.value))
        && !isPopupOpened
    {
      if FilterThrows(patches) {
        return false;
      }
      var newPendingUserOpLogs := PendingAdds(patches);
      if |newPendingUserOpLogs| == 0 {
        assert newPendingUserOpLogs == [];
        return false;
      }
      assert newPendingUserOpLogs[0] in newPendingUserOpLogs;
      if isPopupOpened {
        return false;
      }
      openWindow := true;
    }
  }
}
