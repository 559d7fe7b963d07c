/**
 * The request pool of background/pool.ts: `send` appends a pending transaction
 * request under a fresh id, and `wait` is a storage subscriber that settles a
 * promise once the request's transaction log leaves the `Sent` status.
 */
module RequestPool {
  import opened Wrappers
  import opened JsValue

  /** A pending request as pushed onto `pendingRequests`: a JS object. */
  type PendingRequest = map<string, Json>

  /** The keys `send` writes before spreading the request over them. */
  const ReservedKeys: set<string> := {"type", "id", "createdAt", "accountId", "networkId"}

  predicate AvoidsReservedKeys(request: map<string, Json>) {
    forall k :: k in request ==> k !in ReservedKeys
  }

  /**
   * The entry `send` pushes: `{ type: Transaction, id, createdAt, accountId, networkId, ...request }`.
   * The spread comes last, so a request field wins over a base field of the same name.
   */
  function PendingEntry(id: string, createdAt: int, accountId: string, networkId: string,
                        request: map<string, Json>): (r: PendingRequest)
    ensures r.Keys == ReservedKeys + request.Keys
    ensures forall k :: k in request ==> r[k] == request[k]
    ensures AvoidsReservedKeys(request) ==>
      && r["type"] == Str("Transaction")
      && r["id"] == Str(id)
      && r["createdAt"] == Num(createdAt)
      && r["accountId"] == Str(accountId)
      && r["networkId"] == Str(networkId)
  {
    map["type" := Str("Transaction"), "id" := Str(id), "createdAt" := Num(createdAt),
        "accountId" := Str(accountId), "networkId" := Str(networkId)] + request
  }

  /** The pool's part of the state, which `send` mutates through a draft. */
  class RequestStoragePool {
    var pendingRequests: seq<PendingRequest>
    /** Every uuid drawn so far; uuid v4 never repeats one. */
    var drawn: set<string>

    constructor (initial: seq<PendingRequest>, drawnBefore: set<string>)
      ensures pendingRequests == initial && drawn == drawnBefore
    {
      pendingRequests, drawn := initial, drawnBefore;
    }

    /**
     * `send`: draws the fresh id `uuid`, appends one entry carrying it and returns it;
     * `now` stands for `Date.now()`.
     */
    method Send(request: map<string, Json>, accountId: string, networkId: string, uuid: string, now: int)
      returns (id: string)
      requires uuid !in drawn
      modifies this
      ensures id == uuid && id !in old(drawn)
      ensures drawn == old(drawn) + {id}
      ensures pendingRequests == old(pendingRequests) + [PendingEntry(id, now, accountId, networkId, request)]
    {
      id := uuid;
      drawn := drawn + {id};
      pendingRequests := pendingRequests + [PendingEntry(id, now, accountId, networkId, request)];
    }

    /** Two sends return distinct ids and leave the pool with exactly the two new entries appended. */
    method SendTwice(first: map<string, Json>, second: map<string, Json>, accountId: string, networkId: string,
                     uuid1: string, uuid2: string, t1: int, t2: int)
      returns (id1: string, id2: string)
      requires uuid1 !in drawn && uuid2 !in drawn + {uuid1}
      modifies this
      ensures id1 != id2
      ensures pendingRequests == old(pendingRequests)
        + [PendingEntry(id1, t1, accountId, networkId, first), PendingEntry(id2, t2, accountId, networkId, second)]
    {
      id1 := Send(first, accountId, networkId, uuid1, t1);
      id2 := Send(second, accountId, networkId, uuid2, t2);
    }
  }

  /** The statuses of a transaction log that `wait` distinguishes. */
  datatype TransactionStatus = Sent | Rejected | Failed | Reverted | OtherStatus(name: string)

  datatype TxReceipt = TxReceipt(transactionHash: string, errorMessage: string)

  /** `account[accountId].transactionLog[txId]`. */
  datatype TxLog = TxLog(status: TransactionStatus, receipt: Option<TxReceipt>)

  /** The transaction logs of every account in a notified state. */
  type AccountLogs = map<string, map<string, TxLog>>

  /** The log the subscriber looks up; `None` when its account or its entry is missing. */
  function Observe(accounts: AccountLogs, accountId: string, txId: string): (r: Option<TxLog>)
    ensures r.Some? <==> accountId in accounts && txId in accounts[accountId]
    ensures r.Some? ==> r.value == accounts[accountId][txId]
  {
    if accountId in accounts && txId in accounts[accountId] then Some(accounts[accountId][txId]) else None
  }

  datatype Outcome = Resolved(transactionHash: string) | RejectedWith(message: string)

  /**
   * What one invocation of the subscriber does:
   * - `Ignore`: returns, or throws reading a missing log, while still subscribed;
   * - `Settle`: unsubscribes, then resolves or rejects the promise;
   * - `Drop`: unsubscribes, then throws reading a missing receipt, so the promise never settles.
   */
  datatype Reaction = Ignore | Settle(outcome: Outcome) | Drop

  const UserRejects := "User rejects the user operation"

  function React(observed: Option<TxLog>): (r: Reaction)
    ensures r == Ignore <==> observed.None? || observed.value.status == Sent
    ensures observed.Some? && observed.value.status == Rejected ==> r == Settle(RejectedWith(UserRejects))
    ensures observed.Some? && (observed.value.status == Failed || observed.value.status == Reverted) ==>
      r == (if observed.value.receipt.Some? then Settle(RejectedWith(observed.value.receipt.value.errorMessage)) else Drop)
    ensures observed.Some? && observed.value.status.OtherStatus? ==>
      r == (if observed.value.receipt.Some? then Settle(Resolved(observed.value.receipt.value.transactionHash)) else Drop)
  {
    match observed
    case None => Ignore
    case Some(log) =>
      match log.status
      case Sent => Ignore
      case Rejected => Settle(RejectedWith(UserRejects))
      case Failed => if log.receipt.Some? then Settle(RejectedWith(log.receipt.value.errorMessage)) else Drop
      case Reverted => if log.receipt.Some? then Settle(RejectedWith(log.receipt.value.errorMessage)) else Drop
      case OtherStatus(_) => if log.receipt.Some? then Settle(Resolved(log.receipt.value.transactionHash)) else Drop
  }

  /** The promise `wait` returns, together with whether its subscriber is still registered. */
  datatype WaitState = Waiting | Settled(outcome: Outcome) | Abandoned

  predicate Subscribed(w: WaitState) {
    w == Waiting
  }

  /** One notification: a subscriber that has unsubscribed is no longer invoked. */
  function Step(w: WaitState, observed: Option<TxLog>): WaitState {
    if !Subscribed(w) then w
    else match React(observed)
      case Ignore => Waiting
      case Settle(o) => Settled(o)
      case Drop => Abandoned
  }

  /** The promise after the subscriber has been notified with each observation in turn. */
  function Run(w: WaitState, observations: seq<Option<TxLog>>): WaitState
    decreases |observations|
  {
    if observations == [] then w else Run(Step(w, observations[0]), observations[1..])
  }

  /** Notifying in two batches is notifying with the concatenation. */
  lemma {:induction false} RunAppend(w: WaitState, a: seq<Option<TxLog>>, b: seq<Option<TxLog>>)
    ensures Run(w, a + b) == Run(Run(w, a), b)
    decreases |a|
  {
    if a != [] {
      assert (a + b)[0] == a[0];
      assert (a + b)[1..] == a[1..] + b;
      RunAppend(Step(w, a[0]), a[1..], b);
    } else {
      assert a + b == b;
    }
  }

  /** Once unsubscribed, the promise never changes again: it settles at most once. */
  lemma {:induction false} SettledStaysSettled(w: WaitState, observations: seq<Option<TxLog>>)
    requires !Subscribed(w)
    ensures Run(w, observations) == w
    decreases |observations|
  {
    if observations != [] {
      SettledStaysSettled(Step(w, observations[0]), observations[1..]);
    }
  }

  /** While every observed log is missing or `Sent`, the subscriber does nothing and stays subscribed. */
  lemma {:induction false} WaitsWhileSent(observations: seq<Option<TxLog>>)
    requires forall i :: 0 <= i < |observations| ==> React(observations[i]) == Ignore
    ensures Run(Waiting, observations) == Waiting
    decreases |observations|
  {
    if observations != [] {
      assert React(observations[0]) == Ignore;
      WaitsWhileSent(observations[1..]);
    }
  }

  /**
   * The first observation that is not ignored decides the promise for good: it
   * settles with what that observation says, or is abandoned, and nothing later counts.
   */
  lemma FirstDecisiveObservation(observations: seq<Option<TxLog>>, i: nat)
    requires i < |observations|
    requires forall j :: 0 <= j < i ==> React(observations[j]) == Ignore
    requires React(observations[i]) != Ignore
    ensures Run(Waiting, observations) ==
      match React(observations[i])
      case Settle(o) => Settled(o)
      case _ => Abandoned
  {
    assert observations == observations[..i] + observations[i..];
    RunAppend(Waiting, observations[..i], observations[i..]);
    WaitsWhileSent(observations[..i]);
    var decided := Step(Waiting, observations[i]);
    assert observations[i..][1..] == observations[i + 1..];
    SettledStaysSettled(decided, observations[i + 1..]);
  }
}
