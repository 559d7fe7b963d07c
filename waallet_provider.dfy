/**
 * The background JSON-RPC provider of packages/waallet/background/provider.ts:
 * routes each request by method name, validates `eth_estimateGas` and
 * `eth_sendTransaction` (no `to`, then a `from` mismatch, then an unsupported
 * entry point) before any bundler or pool call, and hands a validated
 * transaction to the request pool.
 *
 * The account manager, the network manager and the bundler are oracles: the
 * active account and network are values whose functions stand for the calls
 * the provider makes on them.
 */
module WaalletProvider {
  import opened Wrappers
  import opened JsValue
  import Hex
  import Text
  import UO = UserOperation
  import RequestPool

  type HexString = string

  /** The methods the `switch` of `request` handles itself. */
  const HandledMethods: set<string> := {
    "eth_accounts", "eth_requestAccounts", "eth_chainId", "eth_estimateGas",
    "eth_estimateUserOperationGas", "eth_sendTransaction", "eth_sendUserOperation",
    "custom_estimateGasPrice"}

  datatype Handler =
    | Accounts
    | ChainId
    | EstimateGas
    | EstimateUserOperationGas
    | SendTransaction
    | SendUserOperation
    | EstimateGasPrice
    | ForwardToBundler
    | ForwardToNode

  /** The `switch` of `request`; `bundlerRpcMethods` are the names of `BundlerRpcMethod`. */
  function Route(rpcMethod: string, bundlerRpcMethods: set<string>): (h: Handler)
    ensures h == Accounts <==> rpcMethod == "eth_accounts" || rpcMethod == "eth_requestAccounts"
    ensures h == ForwardToBundler <==> rpcMethod !in HandledMethods && rpcMethod in bundlerRpcMethods
    ensures h == ForwardToNode <==> rpcMethod !in HandledMethods && rpcMethod !in bundlerRpcMethods
    ensures h == SendTransaction <==> rpcMethod == "eth_sendTransaction"
  {
    if rpcMethod == "eth_accounts" || rpcMethod == "eth_requestAccounts" then Accounts
    else if rpcMethod == "eth_chainId" then ChainId
    else if rpcMethod == "eth_estimateGas" then EstimateGas
    else if rpcMethod == "eth_estimateUserOperationGas" then EstimateUserOperationGas
    else if rpcMethod == "eth_sendTransaction" then SendTransaction
    else if rpcMethod == "eth_sendUserOperation" then SendUserOperation
    else if rpcMethod == "custom_estimateGasPrice" then EstimateGasPrice
    else if rpcMethod in bundlerRpcMethods then ForwardToBundler
    else ForwardToNode
  }

  /** What `estimateUserOperationGas` returns; the paymaster limit may be missing. */
  datatype GasEstimate = GasEstimate(
    preVerificationGas: nat, verificationGasLimit: nat, callGasLimit: nat,
    paymasterVerificationGasLimit: Option<nat>)

  datatype GasPrice = GasPrice(maxFeePerGas: nat, maxPriorityFeePerGas: nat)

  /** The active network's bundler, as the provider calls it. */
  datatype Bundler = Bundler(
    url: string,
    chainId: nat,
    supportedEntryPoints: set<HexString>,
    /** `deriveUserOperation(execution or userOp, entryPoint)`: the constructor argument it builds. */
    derive: (Json, HexString) -> UO.UserOperationInit,
    estimate: (UO.UserOperation, HexString) -> Result<GasEstimate>,
    sendUserOperation: (UO.UserOperation, HexString) -> Result<HexString>)

  /** `networkManager.getActive()`; `gasPrice` is what the gas price estimator settles on. */
  datatype Network = Network(id: string, nodeUrl: string, bundler: Bundler, gasPrice: Result<GasPrice>)

  /** `accountManager.getActive()`; `buildExecution(to, value, data)` is the account's call. */
  datatype Account = Account(
    id: string, address: HexString, entryPoint: HexString, buildExecution: (Json, Json, Json) -> Json)

  /** The value a request's promise settles with, or where it is forwarded. */
  datatype Response =
    | NoResult
    | Value(value: Json)
    | Failure(message: string)
    /**
     * The handler threw an error whose message is not part of this model: a `number`
     * conversion failed, a property of an undefined or null transaction was read, or
     * an entry point that is not a string reached the bundler.
     */
    | Malformed
    /** The promise of `requestPool.wait(txId)`. */
    | Awaiting(txId: string)
    | Forwarded(url: string)

  const FromMismatchMessage := "Address `from` doesn't match connected account"

  function UnsupportedEntryPoint(entryPoint: HexString): string {
    "Unsupported EntryPoint " + entryPoint
  }

  /** `tx.from && !address.isEqual(tx.from, address)`; addresses compare up to letter case. */
  predicate FromMismatch(tx: map<string, Json>, address: HexString) {
    var from := Get(tx, "from");
    Truthy(from) && !(from.Str? && Text.EqualIgnoringCase(from.s, address))
  }

  /** Where a transaction stops before reaching the bundler or the pool, if it does. */
  function Validate(tx: map<string, Json>, account: Account, bundler: Bundler): (r: Option<Response>)
    ensures r == None <==>
      Truthy(Get(tx, "to")) && !FromMismatch(tx, account.address) && account.entryPoint in bundler.supportedEntryPoints
    ensures !Truthy(Get(tx, "to")) ==> r == Some(NoResult)
    ensures Truthy(Get(tx, "to")) && FromMismatch(tx, account.address) ==> r == Some(Failure(FromMismatchMessage))
    ensures Truthy(Get(tx, "to")) && !FromMismatch(tx, account.address) && account.entryPoint !in bundler.supportedEntryPoints ==>
      r == Some(Failure(UnsupportedEntryPoint(account.entryPoint)))
  {
    if !Truthy(Get(tx, "to")) then Some(NoResult)
    else if FromMismatch(tx, account.address) then Some(Failure(FromMismatchMessage))
    else if account.entryPoint !in bundler.supportedEntryPoints then Some(Failure(UnsupportedEntryPoint(account.entryPoint)))
    else None
  }

  /** A JSON number or string as an ethers `BigNumberish`. */
  function AsBigNumberish(v: Json): Option<UO.BigNumberish> {
    match v
    case Num(n) => if n >= 0 then Some(UO.Int(n)) else None
    case Str(s) => Some(UO.Text(s))
    case _ => None
  }

  /**
   * The UserOperation `eth_estimateGas` asks the bundler about: the derived one,
   * with `callGasLimit` set from `tx.gas` when that is given.
   */
  function EstimationTarget(tx: map<string, Json>, account: Account, bundler: Bundler): (r: Option<UO.UserOperation>)
    ensures r.Some? ==> UO.ValidInit(bundler.derive(account.buildExecution(Get(tx, "to"), Get(tx, "value"), Get(tx, "data")), account.entryPoint))
    ensures r.Some? ==>
      var derived := UO.FromInit(bundler.derive(account.buildExecution(Get(tx, "to"), Get(tx, "value"), Get(tx, "data")), account.entryPoint));
      if Truthy(Get(tx, "gas")) then
        && AsBigNumberish(Get(tx, "gas")).Some?
        && UO.Convertible(AsBigNumberish(Get(tx, "gas")).value)
        && r.value == derived.(callGasLimit := UO.ToBigInt(AsBigNumberish(Get(tx, "gas")).value))
      else r.value == derived
  {
    var init := bundler.derive(account.buildExecution(Get(tx, "to"), Get(tx, "value"), Get(tx, "data")), account.entryPoint);
    if !UO.ValidInit(init) then None
    else
      var gas := Get(tx, "gas");
      if !Truthy(gas) then Some(UO.FromInit(init))
      else match AsBigNumberish(gas)
        case None => None
        case Some(g) => if UO.Convertible(g) then Some(UO.FromInit(init).(callGasLimit := UO.ToBigInt(g))) else None
  }

  /** The object `eth_estimateUserOperationGas` returns; a missing paymaster limit reads as 0. */
  function GasLimitsValue(e: GasEstimate): (v: Json)
    ensures v.Obj? && v.fields.Keys == {"preVerificationGas", "verificationGasLimit", "callGasLimit", "paymasterVerificationGasLimit"}
    ensures forall k :: k in v.fields ==> v.fields[k].Str?
    ensures v.fields["paymasterVerificationGasLimit"] == Str(Hex.ToHex(e.paymasterVerificationGasLimit.GetOr(0)))
    ensures Hex.ToBigInt(v.fields["callGasLimit"].s) == Some(e.callGasLimit)
    ensures Hex.ToBigInt(v.fields["verificationGasLimit"].s) == Some(e.verificationGasLimit)
    ensures Hex.ToBigInt(v.fields["preVerificationGas"].s) == Some(e.preVerificationGas)
    ensures e.paymasterVerificationGasLimit.None? ==> Hex.ToBigInt(v.fields["paymasterVerificationGasLimit"].s) == Some(0)
  {
    Hex.ToHexRoundTrip(e.callGasLimit);
    Hex.ToHexRoundTrip(e.verificationGasLimit);
    Hex.ToHexRoundTrip(e.preVerificationGas);
    Hex.ToHexRoundTrip(0);
    Obj(map[
      "preVerificationGas" := Str(Hex.ToHex(e.preVerificationGas)),
      "verificationGasLimit" := Str(Hex.ToHex(e.verificationGasLimit)),
      "callGasLimit" := Str(Hex.ToHex(e.callGasLimit)),
      "paymasterVerificationGasLimit" := Str(Hex.ToHex(e.paymasterVerificationGasLimit.GetOr(0)))])
  }

  /** `new TransactionRequest({ ...tx, to: tx.to, gasLimit: tx.gas })`, as the pool unwraps it. */
  function TransactionRequestOf(tx: map<string, Json>): (request: map<string, Json>)
    ensures request.Keys == tx.Keys + {"to", "gasLimit"}
    ensures request["gasLimit"] == Get(tx, "gas") && request["to"] == Get(tx, "to")
    ensures forall k :: k in tx && k != "gasLimit" ==> request[k] == tx[k]
  {
    tx + map["to" := Get(tx, "to"), "gasLimit" := Get(tx, "gas")]
  }

  /** The optional replacements `clone` takes. */
  datatype CloneOption = CloneOption(
    accountManager: Option<Account>, networkManager: Option<Network>,
    requestPool: Option<RequestPool.RequestStoragePool>)

  class WaalletBackgroundProvider {
    var accountManager: Account
    var networkManager: Network
    var requestPool: RequestPool.RequestStoragePool
    /** The names of `BundlerRpcMethod`. */
    var bundlerRpcMethods: set<string>

    constructor (account: Account, network: Network, pool: RequestPool.RequestStoragePool, bundlerMethods: set<string>)
      ensures accountManager == account && networkManager == network && requestPool == pool
      ensures bundlerRpcMethods == bundlerMethods
    {
      accountManager, networkManager, requestPool, bundlerRpcMethods := account, network, pool, bundlerMethods;
    }

    /** `clone`: a new provider taking each part from the option when given; the pool object is shared. */
    method Clone(option: CloneOption) returns (p: WaalletBackgroundProvider)
      ensures fresh(p)
      ensures p.accountManager == option.accountManager.GetOr(accountManager)
      ensures p.networkManager == option.networkManager.GetOr(networkManager)
      ensures p.requestPool == option.requestPool.GetOr(requestPool)
      ensures p.bundlerRpcMethods == bundlerRpcMethods
    {
      p := new WaalletBackgroundProvider(option.accountManager.GetOr(accountManager),
        option.networkManager.GetOr(networkManager), option.requestPool.GetOr(requestPool), bundlerRpcMethods);
    }

    /** `handleEstimateGas`: the hex of the bundler's `callGasLimit` for the validated transaction. */
    method HandleEstimateGas(tx: map<string, Json>) returns (r: Response)
      ensures Validate(tx, accountManager, networkManager.bundler).Some? ==>
        r == Validate(tx, accountManager, networkManager.bundler).value
      ensures Validate(tx, accountManager, networkManager.bundler).None? ==>
        r == match EstimationTarget(tx, accountManager, networkManager.bundler)
          case None => Malformed
          case Some(op) =>
            match networkManager.bundler.estimate(op, accountManager.entryPoint)
            case Err(m) => Failure(m)
            case Ok(e) => Value(Str(Hex.ToHex(e.callGasLimit)))
    {
      if !Truthy(Get(tx, "to")) {
        return NoResult;
      }
      var account := accountManager;
      if FromMismatch(tx, account.address) {
        return Failure(FromMismatchMessage);
      }
      var bundler := networkManager.bundler;
      var entryPoint := account.entryPoint;
      if entryPoint !in bundler.supportedEntryPoints {
        return Failure(UnsupportedEntryPoint(entryPoint));
      }
      var init := bundler.derive(account.buildExecution(Get(tx, "to"), Get(tx, "value"), Get(tx, "data")), entryPoint);
      if !UO.ValidInit(init) {
        return Malformed;
      }
      var userOp := new UO.UserOperationV0_6(init);
      var gas := Get(tx, "gas");
      if Truthy(gas) {
        var given := AsBigNumberish(gas);
        if given.None? || !UO.Convertible(given.value) {
          return Malformed;
        }
        userOp.SetCallGasLimit(given.value);
      }
      var estimated := bundler.estimate(userOp.Value(), entryPoint);
      match estimated
      case Err(m) => r := Failure(m);
      case Ok(e) => r := Value(Str(Hex.ToHex(e.callGasLimit)));
    }

    /** `handleEstimateUserOperationGas`: rejects an unsupported entry point, else reports the four limits. */
    method HandleEstimateUserOperationGas(userOp: Json, entryPoint: HexString) returns (r: Response)
      ensures entryPoint !in networkManager.bundler.supportedEntryPoints ==> r == Failure(UnsupportedEntryPoint(entryPoint))
      ensures entryPoint in networkManager.bundler.supportedEntryPoints ==>
        var init := networkManager.bundler.derive(userOp, entryPoint);
        r == if !UO.ValidInit(init) then Malformed
             else match networkManager.bundler.estimate(UO.FromInit(init), entryPoint)
               case Err(m) => Failure(m)
               case Ok(e) => Value(GasLimitsValue(e))
    {
      var bundler := networkManager.bundler;
      if entryPoint !in bundler.supportedEntryPoints {
        return Failure(UnsupportedEntryPoint(entryPoint));
      }
      var init := bundler.derive(userOp, entryPoint);
      if !UO.ValidInit(init) {
        return Malformed;
      }
      var derived := new UO.UserOperationV0_6(init);
      var data := bundler.estimate(derived.Value(), entryPoint);
      match data
      case Err(m) => r := Failure(m);
      case Ok(e) => r := Value(GasLimitsValue(e));
    }

    /**
     * `handleSendTransaction`: after validation, sends the request to the pool
     * under the fresh id `uuid` and answers with the pool's `wait` on that id.
     * A transaction that fails validation leaves the pool as it was.
     */
    method HandleSendTransaction(tx: map<string, Json>, uuid: string, now: int) returns (r: Response)
      requires uuid !in requestPool.drawn
      modifies requestPool
      ensures Validate(tx, accountManager, networkManager.bundler).Some? ==>
        && r == Validate(tx, accountManager, networkManager.bundler).value
        && requestPool.pendingRequests == old(requestPool.pendingRequests)
        && requestPool.drawn == old(requestPool.drawn)
      ensures Validate(tx, accountManager, networkManager.bundler).None? ==>
        && r == Awaiting(uuid)
        && requestPool.drawn == old(requestPool.drawn) + {uuid}
        && requestPool.pendingRequests == old(requestPool.pendingRequests)
          + [RequestPool.PendingEntry(uuid, now, accountManager.id, networkManager.id, TransactionRequestOf(tx))]
    {
      if !Truthy(Get(tx, "to")) {
        return NoResult;
      }
      var networkId := networkManager.id;
      var bundler := networkManager.bundler;
      var account := accountManager;
      if FromMismatch(tx, account.address) {
        return Failure(FromMismatchMessage);
      }
      var entryPoint := account.entryPoint;
      if entryPoint !in bundler.supportedEntryPoints {
        return Failure(UnsupportedEntryPoint(entryPoint));
      }
      var txId := requestPool.Send(TransactionRequestOf(tx), account.id, networkId, uuid, now);
      r := Awaiting(txId);
    }

    /** `handleSendUserOperation`: forwards the derived UserOperation to the bundler, with no check of its own. */
    method HandleSendUserOperation(userOp: Json, entryPoint: HexString) returns (r: Response)
      ensures
        var init := networkManager.bundler.derive(userOp, entryPoint);
        r == if !UO.ValidInit(init) then Malformed
             else match networkManager.bundler.sendUserOperation(UO.FromInit(init), entryPoint)
               case Err(m) => Failure(m)
               case Ok(hash) => Value(Str(hash))
    {
      var bundler := networkManager.bundler;
      var init := bundler.derive(userOp, entryPoint);
      if !UO.ValidInit(init) {
        return Malformed;
      }
      var derived := new UO.UserOperationV0_6(init);
      var sent := bundler.sendUserOperation(derived.Value(), entryPoint);
      match sent
      case Err(m) => r := Failure(m);
      case Ok(hash) => r := Value(Str(hash));
    }

    /**
     * `request`: dispatches on the method name. `params` are the request's
     * parameters; `uuid` and `now` are the fresh id and time a sent
     * transaction would get.
     */
    method Request(rpcMethod: string, params: seq<Json>, uuid: string, now: int) returns (r: Response)
      requires uuid !in requestPool.drawn
      modifies requestPool
      ensures Route(rpcMethod, bundlerRpcMethods) == Accounts ==> r == Value(Singleton(Str(accountManager.address)))
      ensures Route(rpcMethod, bundlerRpcMethods) == ChainId ==> r == Value(Str(Hex.ToHex(networkManager.bundler.chainId)))
      ensures Route(rpcMethod, bundlerRpcMethods) == ForwardToBundler ==> r == Forwarded(networkManager.bundler.url)
      ensures Route(rpcMethod, bundlerRpcMethods) == ForwardToNode ==> r == Forwarded(networkManager.nodeUrl)
      ensures Route(rpcMethod, bundlerRpcMethods) in {EstimateGas, SendTransaction} ==>
        (r == Malformed <== |params| == 0 || params[0].Undefined? || params[0].Null?)
      ensures Route(rpcMethod, bundlerRpcMethods) in {EstimateGas, SendTransaction} && |params| > 0 && !params[0].Obj? ==>
        (r == NoResult <== !params[0].Undefined? && !params[0].Null?)
      ensures Route(rpcMethod, bundlerRpcMethods) != SendTransaction ==>
        requestPool.pendingRequests == old(requestPool.pendingRequests) && requestPool.drawn == old(requestPool.drawn)
    {
      var first := if |params| > 0 then params[0] else Undefined;
      var second := if |params| > 1 then params[1] else Undefined;
      match Route(rpcMethod, bundlerRpcMethods)
      case Accounts =>
        r := Value(Singleton(Str(accountManager.address)));
      case ChainId =>
        r := Value(Str(Hex.ToHex(networkManager.bundler.chainId)));
      case EstimateGas =>
        if first.Undefined? || first.Null? {
          return Malformed;
        }
        r := HandleEstimateGas(PropertiesOf(first));
      case EstimateUserOperationGas =>
        if !second.Str? {
          return Malformed;
        }
        r := HandleEstimateUserOperationGas(first, second.s);
      case SendTransaction =>
        if first.Undefined? || first.Null? {
          return Malformed;
        }
        r := HandleSendTransaction(PropertiesOf(first), uuid, now);
      case SendUserOperation =>
        if !second.Str? {
          return Malformed;
        }
        r := HandleSendUserOperation(first, second.s);
      case EstimateGasPrice =>
        match networkManager.gasPrice {
          case Err(m) => r := Failure(m);
          case Ok(price) =>
            r := Value(Obj(map["maxFeePerGas" := Str(Hex.ToHex(price.maxFeePerGas)),
                               "maxPriorityFeePerGas" := Str(Hex.ToHex(price.maxPriorityFeePerGas))]));
        }
      case ForwardToBundler =>
        r := Forwarded(networkManager.bundler.url);
      case ForwardToNode =>
        r := Forwarded(networkManager.nodeUrl);
    }
  }
}
