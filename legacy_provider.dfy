/**
 * The earlier background provider of packages/provider/waallet/background/provider.ts,
 * which builds, authorizes, signs and submits a UserOperation itself instead of
 * handing the transaction to a request pool.
 *
 * The node, the bundler, the account, the paymaster, the authorizer and the
 * address and hash helpers of ethers are oracles. A handler's answer comes with
 * the trace of the oracle calls it made, in order, so that "before any bundler
 * call" can be stated.
 */
module LegacyProvider {
  import opened Wrappers
  import opened JsValue
  import Hex

  type HexString = string
  /** A UserOperation or a part of it, as a JS object. */
  type UserOpObject = map<string, Json>

  datatype GasLimits = GasLimits(callGasLimit: nat, verificationGasLimit: nat, preVerificationGas: nat)

  /** The gas limits as the bundler's JSON-RPC answer carries them: hex strings. */
  function GasLimitsObject(l: GasLimits): (o: UserOpObject)
    ensures o.Keys == {"callGasLimit", "verificationGasLimit", "preVerificationGas"}
    ensures forall k :: k in o ==> o[k].Str?
    ensures Hex.ToBigInt(o["callGasLimit"].s) == Some(l.callGasLimit)
    ensures Hex.ToBigInt(o["verificationGasLimit"].s) == Some(l.verificationGasLimit)
    ensures Hex.ToBigInt(o["preVerificationGas"].s) == Some(l.preVerificationGas)
  {
    Hex.ToHexRoundTrip(l.callGasLimit);
    Hex.ToHexRoundTrip(l.verificationGasLimit);
    Hex.ToHexRoundTrip(l.preVerificationGas);
    map["callGasLimit" := Str(Hex.ToHex(l.callGasLimit)),
        "verificationGasLimit" := Str(Hex.ToHex(l.verificationGasLimit)),
        "preVerificationGas" := Str(Hex.ToHex(l.preVerificationGas))]
  }

  datatype Bundler = Bundler(
    /** `getChainId()`: the chain id as the bundler reports it. */
    chainId: HexString,
    supportedEntryPoints: seq<HexString>,
    estimate: (UserOpObject, Json) -> Result<GasLimits>,
    sendUserOperation: (UserOpObject, Json) -> Result<HexString>,
    /** `wait(userOpHash)`: the transaction hash once the bundler has included the operation. */
    wait: HexString -> HexString)

  datatype Account = Account(
    address: HexString,
    createUserOperationCall: UserOpObject -> Result<UserOpObject>,
    /** `sign(hash, metadata)`: the signature over a hash, given the authorizer's metadata. */
    sign: (HexString, Json) -> HexString)

  /** `requestPaymasterAndData(userOpCall, { isGasEstimation: true })`. */
  datatype Paymaster = Paymaster(paymasterAndData: UserOpObject -> HexString)

  /** What `onApproved` receives: the operation the user approved and the authorizer's metadata. */
  datatype Approval = Approval(op: UserOpObject, metadata: Json)

  /** What the user approves in place of the proposed operation, or `None` when `onApproved` is never called. */
  datatype Authorizer = Authorizer(review: UserOpObject -> Option<Approval>)

  /** `node.getFeeData().gasPrice`, which ethers may report as null. */
  datatype Node = Node(gasPrice: Option<nat>)

  /** `ethers.getAddress` (checksum form, or a throw) and `getUserOpHash`. */
  datatype Codec = Codec(
    getAddress: Json -> Result<HexString>,
    userOpHash: (UserOpObject, Json, HexString) -> HexString)

  /** The oracle calls a handler makes, in order. */
  datatype Call =
    | SupportedEntryPoints
    | CreateUserOperationCall
    | FeeData
    | PaymasterAndData
    | EstimateUserOperationGas
    | Authorize
    | ChainId
    | Sign
    | SendUserOperation
    | Wait

  datatype Reply =
    | NoResult
    | Value(value: Json)
    | Failure(message: string)
    /** A JavaScript TypeError (a missing account, a null gas price); its message is not modelled. */
    | Malformed
    /** The authorizer never calls `onApproved`, so the promise never settles. */
    | NeverSettles
    | Forwarded(url: string)

  datatype Outcome = Outcome(reply: Reply, trace: seq<Call>)

  /** `calls` made before whatever `o` records. */
  function After(calls: seq<Call>, o: Outcome): Outcome {
    Outcome(o.reply, calls + o.trace)
  }

  const FromMismatchMessage := "Address `from` doesn't match connected account"
  const SendFailMessage := "Send user operation fail"

  datatype GasFee = GasFee(maxFeePerGas: Json, maxPriorityFeePerGas: Json)

  /** The node price with the 20% buffer, rounded down as `bigint` division does. */
  function Buffered(gasPrice: nat): (b: nat)
    ensures gasPrice <= b
    ensures b * 100 <= gasPrice * 120 < b * 100 + 100
  {
    gasPrice * 120 / 100
  }

  /**
   * `estimateGasFee(gasPrice)`: a truthy `gasPrice` is used unmodified for both
   * fields; otherwise the node's price with the buffer, or a TypeError when the
   * node reports none.
   */
  function EstimateGasFee(gasPrice: Json, node: Node): (r: Option<GasFee>)
    ensures Truthy(gasPrice) ==> r == Some(GasFee(gasPrice, gasPrice))
    ensures !Truthy(gasPrice) ==> (r.None? <==> node.gasPrice.None?)
    ensures !Truthy(gasPrice) && node.gasPrice.Some? ==>
      && r.value.maxFeePerGas == r.value.maxPriorityFeePerGas
      && r.value.maxFeePerGas.Num?
      && node.gasPrice.value <= r.value.maxFeePerGas.n
      && r.value.maxFeePerGas.n == node.gasPrice.value * 120 / 100
  {
    if Truthy(gasPrice) then Some(GasFee(gasPrice, gasPrice))
    else match node.gasPrice
      case None => None
      case Some(p) => Some(GasFee(Num(Buffered(p)), Num(Buffered(p))))
  }

  function GasFeeObject(f: GasFee): UserOpObject {
    map["maxFeePerGas" := f.maxFeePerGas, "maxPriorityFeePerGas" := f.maxPriorityFeePerGas]
  }

  /** `[entryPointAddress] = await bundler.getSupportedEntryPoints()`: undefined when the list is empty. */
  function FirstEntryPoint(entryPoints: seq<HexString>): Json {
    if entryPoints == [] then Undefined else Str(entryPoints[0])
  }

  /** `{ ...userOpCall, ...(tx.gas && { callGasLimit: tx.gas }), paymasterAndData }`. */
  function EstimationRequest(call: UserOpObject, gas: Json, paymasterAndData: HexString): (u: UserOpObject)
    ensures u.Keys == call.Keys + (if Truthy(gas) then {"callGasLimit"} else {}) + {"paymasterAndData"}
    ensures u["paymasterAndData"] == Str(paymasterAndData)
    ensures Truthy(gas) ==> u["callGasLimit"] == gas
    ensures forall k :: k in call && k != "paymasterAndData" && !(Truthy(gas) && k == "callGasLimit") ==> u[k] == call[k]
  {
    call + (if Truthy(gas) then map["callGasLimit" := gas] else map[]) + map["paymasterAndData" := Str(paymasterAndData)]
  }

  /**
   * `{ ...userOpCall, ...userOpGasLimit, ...userOpGasFee, paymasterAndData }`:
   * each later part overrides the keys of the earlier ones.
   */
  function Merged(call: UserOpObject, limits: UserOpObject, fee: UserOpObject, paymasterAndData: HexString): (u: UserOpObject)
    ensures u.Keys == call.Keys + limits.Keys + fee.Keys + {"paymasterAndData"}
    ensures u["paymasterAndData"] == Str(paymasterAndData)
    ensures forall k :: k in fee && k != "paymasterAndData" ==> u[k] == fee[k]
    ensures forall k :: k in limits && k !in fee && k != "paymasterAndData" ==> u[k] == limits[k]
    ensures forall k :: k in call && k !in limits && k !in fee && k != "paymasterAndData" ==> u[k] == call[k]
  {
    call + limits + fee + map["paymasterAndData" := Str(paymasterAndData)]
  }

  /**
   * `onApproved`: signs the hash of the approved operation, passing the
   * authorizer's metadata on to the account, and stores the signature in it.
   */
  function Signed(approval: Approval, entryPoint: Json, chainId: HexString, account: Account, codec: Codec): (u: UserOpObject)
    ensures u.Keys == approval.op.Keys + {"signature"}
    ensures u["signature"] == Str(account.sign(codec.userOpHash(approval.op, entryPoint, chainId), approval.metadata))
    ensures forall k :: k in approval.op && k != "signature" ==> u[k] == approval.op[k]
  {
    approval.op["signature" := Str(account.sign(codec.userOpHash(approval.op, entryPoint, chainId), approval.metadata))]
  }

  /** The calls `handleSendTransaction` makes once the UserOperation call is built, in order. */
  const SubmitCalls: seq<Call> := [PaymasterAndData, EstimateUserOperationGas] + AuthorizeCalls

  /** `authorize`; inside `onApproved` the chain id and the signature; then `sendUserOperation` and `wait`. */
  const AuthorizeCalls: seq<Call> := [Authorize, ChainId, Sign, SendUserOperation, Wait]

  /** The calls from building the UserOperation call on; the node is asked for fees only without a gas price. */
  function BuildCalls(gasPrice: Json): seq<Call> {
    [CreateUserOperationCall] + (if Truthy(gasPrice) then [] else [FeeData]) + SubmitCalls
  }

  /** The order in which `handleSendTransaction` calls out when nothing fails. */
  function SendTransactionCalls(gasPrice: Json): seq<Call> {
    [SupportedEntryPoints] + BuildCalls(gasPrice)
  }

  predicate IsPrefix(a: seq<Call>, b: seq<Call>) {
    |a| <= |b| && b[..|a|] == a
  }

  /** Calls made before a prefix of `rest` form a prefix of `calls + rest`, complete exactly when the prefix is. */
  lemma PrefixAfter(calls: seq<Call>, t: seq<Call>, rest: seq<Call>)
    requires IsPrefix(t, rest)
    ensures IsPrefix(calls + t, calls + rest)
    ensures (calls + t == calls + rest) <==> t == rest
  {
    assert (calls + rest)[..|calls + t|] == calls + rest[..|t|];
    if calls + t == calls + rest {
      assert t == (calls + t)[|calls|..];
    }
  }

  /** The optional replacements `clone` takes. */
  datatype CloneOption = CloneOption(userOperationAuthorizer: Option<Authorizer>, paymaster: Option<Paymaster>)

  class WaalletBackgroundProvider {
    var nodeRpcUrl: string
    var bundler: Bundler
    var userOperationAuthorizer: Authorizer
    var paymaster: Paymaster
    /** `undefined` until `connect` is called. */
    var account: Option<Account>

    constructor (nodeUrl: string, bundlerProvider: Bundler, authorizer: Authorizer, pm: Paymaster)
      ensures nodeRpcUrl == nodeUrl && bundler == bundlerProvider && userOperationAuthorizer == authorizer
      ensures paymaster == pm && account == None
    {
      nodeRpcUrl, bundler, userOperationAuthorizer, paymaster, account := nodeUrl, bundlerProvider, authorizer, pm, None;
    }

    /** `connect`: replaces the account and nothing else. */
    method Connect(a: Account)
      modifies this
      ensures account == Some(a)
      ensures nodeRpcUrl == old(nodeRpcUrl) && bundler == old(bundler)
      ensures userOperationAuthorizer == old(userOperationAuthorizer) && paymaster == old(paymaster)
    {
      account := Some(a);
    }

    /**
     * `clone`: a new provider on the same node and bundler, taking the authorizer
     * and the paymaster from the option when given and connected to the same account.
     */
    method Clone(option: CloneOption) returns (p: WaalletBackgroundProvider)
      ensures fresh(p)
      ensures p.nodeRpcUrl == nodeRpcUrl && p.bundler == bundler
      ensures p.userOperationAuthorizer == option.userOperationAuthorizer.GetOr(userOperationAuthorizer)
      ensures p.paymaster == option.paymaster.GetOr(paymaster)
      ensures p.account == account
    {
      p := new WaalletBackgroundProvider(nodeRpcUrl, bundler,
        option.userOperationAuthorizer.GetOr(userOperationAuthorizer), option.paymaster.GetOr(paymaster));
      if account.Some? {
        p.Connect(account.value);
      }
    }

    /**
     * The `from` check: `tx.from && ethers.getAddress(tx.from) !== await account.getAddress()`.
     * `Some` is where the handler stops. The check asks only `ethers.getAddress` and the
     * connected account's address, which the trace does not record; it makes no bundler,
     * node, paymaster or authorizer call.
     */
    function FromCheck(tx: map<string, Json>, codec: Codec): (stop: Option<Reply>)
      reads this
      ensures !Truthy(Get(tx, "from")) ==> stop.None?
      ensures Truthy(Get(tx, "from")) && account.Some? && codec.getAddress(Get(tx, "from")).Ok? ==>
        (stop == Some(Failure(FromMismatchMessage)) <==> codec.getAddress(Get(tx, "from")).value != account.value.address)
      ensures stop.Some? ==> stop.value.Failure? || stop.value.Malformed?
    {
      var from := Get(tx, "from");
      if !Truthy(from) then None
      else match codec.getAddress(from)
        case Err(m) => Some(Failure(m))
        case Ok(checksummed) =>
          if account.None? then Some(Malformed)
          else if checksummed != account.value.address then Some(Failure(FromMismatchMessage))
          else None
    }

    /** `handleEstimateGas`: the hex of the bundler's `callGasLimit` for the transaction. */
    function HandleEstimateGas(tx: map<string, Json>, codec: Codec): (o: Outcome)
      reads this
      ensures !Truthy(Get(tx, "to")) ==> o == Outcome(NoResult, [])
      ensures Truthy(Get(tx, "to")) && FromCheck(tx, codec).Some? ==> o == Outcome(FromCheck(tx, codec).value, [])
      ensures o.reply.Value? ==>
        o.trace == [SupportedEntryPoints, CreateUserOperationCall, PaymasterAndData, EstimateUserOperationGas]
      ensures IsPrefix(o.trace, [SupportedEntryPoints, CreateUserOperationCall, PaymasterAndData, EstimateUserOperationGas])
    {
      var to := Get(tx, "to");
      if !Truthy(to) then Outcome(NoResult, [])
      else if FromCheck(tx, codec).Some? then Outcome(FromCheck(tx, codec).value, [])
      else
        var entryPoint := FirstEntryPoint(bundler.supportedEntryPoints);
        After([SupportedEntryPoints],
          if account.None? then Outcome(Malformed, [])
          else match codec.getAddress(to)
            case Err(m) => Outcome(Failure(m), [])
            case Ok(toAddress) =>
              match account.value.createUserOperationCall(
                map["to" := Str(toAddress), "value" := Get(tx, "value"), "data" := Get(tx, "data")])
              case Err(m) => Outcome(Failure(m), [CreateUserOperationCall])
              case Ok(call) =>
                var paymasterAndData := paymaster.paymasterAndData(call);
                match bundler.estimate(EstimationRequest(call, Get(tx, "gas"), paymasterAndData), entryPoint)
                case Err(m) => Outcome(Failure(m), [CreateUserOperationCall, PaymasterAndData, EstimateUserOperationGas])
                case Ok(limits) =>
                  Outcome(Value(Str(Hex.ToHex(limits.callGasLimit))),
                          [CreateUserOperationCall, PaymasterAndData, EstimateUserOperationGas]))
    }

    /** `handleEstimateUserOperationGas`: the three limits the bundler estimates, as hex. */
    function HandleEstimateUserOperationGas(userOp: UserOpObject): (o: Outcome)
      reads this
      ensures o.trace == [SupportedEntryPoints, EstimateUserOperationGas]
      ensures o.reply.Value? <==> bundler.estimate(userOp, FirstEntryPoint(bundler.supportedEntryPoints)).Ok?
      ensures o.reply.Value? ==>
        o.reply.value == Obj(GasLimitsObject(bundler.estimate(userOp, FirstEntryPoint(bundler.supportedEntryPoints)).value))
    {
      var entryPoint := FirstEntryPoint(bundler.supportedEntryPoints);
      match bundler.estimate(userOp, entryPoint)
      case Err(m) => Outcome(Failure(m), [SupportedEntryPoints, EstimateUserOperationGas])
      case Ok(limits) => Outcome(Value(Obj(GasLimitsObject(limits))), [SupportedEntryPoints, EstimateUserOperationGas])
    }

    /**
     * `handleSendTransaction`: checks `to` and `from`, builds the call, the fee
     * and the gas limits, merges them, has the operation authorized and signed,
     * sends it, and waits for its transaction hash.
     */
    function HandleSendTransaction(tx: map<string, Json>, node: Node, codec: Codec): (o: Outcome)
      reads this
      ensures !Truthy(Get(tx, "to")) ==> o == Outcome(NoResult, [])
      ensures Truthy(Get(tx, "to")) && FromCheck(tx, codec).Some? ==> o == Outcome(FromCheck(tx, codec).value, [])
      ensures IsPrefix(o.trace, SendTransactionCalls(Get(tx, "gasPrice")))
    {
      var to := Get(tx, "to");
      if !Truthy(to) then Outcome(NoResult, [])
      else if FromCheck(tx, codec).Some? then Outcome(FromCheck(tx, codec).value, [])
      else
        var built := BuildCall(tx, FirstEntryPoint(bundler.supportedEntryPoints), node, codec);
        PrefixAfter([SupportedEntryPoints], built.trace, BuildCalls(Get(tx, "gasPrice")));
        After([SupportedEntryPoints], built)
    }

    /** `handleSendTransaction` once the entry point is known: builds the call, then submits it. */
    function BuildCall(tx: map<string, Json>, entryPoint: Json, node: Node, codec: Codec): (o: Outcome)
      reads this
      ensures IsPrefix(o.trace, BuildCalls(Get(tx, "gasPrice")))
    {
      if account.None? then Outcome(Malformed, [])
      else match codec.getAddress(Get(tx, "to"))
        case Err(m) => Outcome(Failure(m), [])
        case Ok(toAddress) =>
          match account.value.createUserOperationCall(
            map["to" := Str(toAddress), "value" := Get(tx, "value"), "data" := Get(tx, "data"),
                "nonce" := Get(tx, "nonce")])
          case Err(m) => Outcome(Failure(m), [CreateUserOperationCall])
          case Ok(call) =>
            var calls := [CreateUserOperationCall] + (if Truthy(Get(tx, "gasPrice")) then [] else [FeeData]);
            var submitted := SubmitCall(call, tx, entryPoint, node, codec, account.value);
            PrefixAfter(calls, submitted.trace, SubmitCalls);
            After(calls, submitted)
    }

    /** `handleSendTransaction` from the fee estimate on, once the call has been built. */
    function SubmitCall(call: UserOpObject, tx: map<string, Json>, entryPoint: Json, node: Node, codec: Codec,
                        signer: Account): (o: Outcome)
      reads this
      ensures IsPrefix(o.trace, SubmitCalls)
      ensures Wait in o.trace <==> o.trace == SubmitCalls
    {
      match EstimateGasFee(Get(tx, "gasPrice"), node)
      case None => Outcome(Malformed, [])
      case Some(fee) => EstimateAndSend(call, Get(tx, "gas"), fee, entryPoint, codec, signer)
    }

    /** `requestPaymasterAndData`, the gas estimate, the merge, then authorization and submission. */
    function EstimateAndSend(call: UserOpObject, gas: Json, fee: GasFee, entryPoint: Json, codec: Codec,
                             signer: Account): (o: Outcome)
      reads this
      ensures IsPrefix(o.trace, SubmitCalls)
      ensures Wait in o.trace <==> o.trace == SubmitCalls
    {
      var paymasterAndData := paymaster.paymasterAndData(call);
      match bundler.estimate(EstimationRequest(call, gas, paymasterAndData), entryPoint)
      case Err(m) => Outcome(Failure(m), [PaymasterAndData, EstimateUserOperationGas])
      case Ok(limits) =>
        var sent := AuthorizeAndSend(Merged(call, GasLimitsObject(limits), GasFeeObject(fee), paymasterAndData),
                                     entryPoint, codec, signer);
        PrefixAfter([PaymasterAndData, EstimateUserOperationGas], sent.trace, AuthorizeCalls);
        After([PaymasterAndData, EstimateUserOperationGas], sent)
    }

    /** `authorize`, `onApproved` (chain id, hash, signature), `sendUserOperation` and `wait`. */
    function AuthorizeAndSend(proposed: UserOpObject, entryPoint: Json, codec: Codec, signer: Account): (o: Outcome)
      reads this
      ensures IsPrefix(o.trace, AuthorizeCalls)
      ensures Wait in o.trace <==> o.trace == AuthorizeCalls
    {
      match userOperationAuthorizer.review(proposed)
      case None => Outcome(NeverSettles, [Authorize])
      case Some(approved) =>
        var authorized := Signed(approved, entryPoint, bundler.chainId, signer, codec);
        match bundler.sendUserOperation(authorized, entryPoint)
        case Err(m) => Outcome(Failure(m), [Authorize, ChainId, Sign, SendUserOperation])
        case Ok(hash) =>
          if hash == "" then Outcome(Failure(SendFailMessage), [Authorize, ChainId, Sign, SendUserOperation])
          else Outcome(Value(Str(bundler.wait(hash))), AuthorizeCalls)
    }

    /**
     * `request`: the accounts, the chain id and three handlers; every other
     * method is forwarded to the node.
     */
    function Request(rpcMethod: string, params: seq<Json>, node: Node, codec: Codec): (o: Outcome)
      reads this
      ensures rpcMethod !in {"eth_accounts", "eth_requestAccounts", "eth_chainId", "eth_estimateGas",
                             "eth_estimateUserOperationGas", "eth_sendTransaction"} ==>
        o == Outcome(Forwarded(nodeRpcUrl), [])
      ensures rpcMethod in {"eth_accounts", "eth_requestAccounts"} && account.Some? ==>
        o == Outcome(Value(Singleton(Str(account.value.address))), [])
      ensures rpcMethod == "eth_chainId" ==> o == Outcome(Value(Str(bundler.chainId)), [ChainId])
      ensures rpcMethod in {"eth_estimateGas", "eth_sendTransaction"} ==>
        (o == Outcome(Malformed, []) <== |params| == 0 || params[0].Undefined? || params[0].Null?)
      ensures rpcMethod in {"eth_estimateGas", "eth_sendTransaction"} && |params| > 0 && !params[0].Obj? ==>
        (o == Outcome(NoResult, []) <== !params[0].Undefined? && !params[0].Null?)
    {
      var first := if |params| > 0 then params[0] else Undefined;
      if rpcMethod == "eth_accounts" || rpcMethod == "eth_requestAccounts" then
        if account.None? then Outcome(Malformed, []) else Outcome(Value(Singleton(Str(account.value.address))), [])
      else if rpcMethod == "eth_chainId" then Outcome(Value(Str(bundler.chainId)), [ChainId])
      else if rpcMethod == "eth_estimateGas" then
        if first.Undefined? || first.Null? then Outcome(Malformed, []) else HandleEstimateGas(PropertiesOf(first), codec)
      else if rpcMethod == "eth_estimateUserOperationGas" then
        if first.Obj? then HandleEstimateUserOperationGas(first.fields) else Outcome(Malformed, [])
      else if rpcMethod == "eth_sendTransaction" then
        if first.Undefined? || first.Null? then Outcome(Malformed, []) else HandleSendTransaction(PropertiesOf(first), node, codec)
      else Outcome(Forwarded(nodeRpcUrl), [])
    }
  }

  /**
   * When every oracle answers, the operation sent is the authorizer's approval
   * of the merged call, limits, fee and paymaster data, signed over its own
   * hash, and the reply is the transaction hash `wait` reports for it.
   */
  lemma SubmitSendsSignedApproval(p: WaalletBackgroundProvider, call: UserOpObject, tx: map<string, Json>,
                                  entryPoint: Json, node: Node, codec: Codec, signer: Account,
                                  fee: GasFee, limits: GasLimits, approved: Approval, hash: HexString)
    requires EstimateGasFee(Get(tx, "gasPrice"), node) == Some(fee)
    requires p.bundler.estimate(EstimationRequest(call, Get(tx, "gas"), p.paymaster.paymasterAndData(call)), entryPoint) == Ok(limits)
    requires p.userOperationAuthorizer.review(
      Merged(call, GasLimitsObject(limits), GasFeeObject(fee), p.paymaster.paymasterAndData(call))) == Some(approved)
    requires p.bundler.sendUserOperation(Signed(approved, entryPoint, p.bundler.chainId, signer, codec), entryPoint) == Ok(hash)
    requires hash != ""
    ensures p.SubmitCall(call, tx, entryPoint, node, codec, signer) == Outcome(Value(Str(p.bundler.wait(hash))), SubmitCalls)
  {
  }

  /** An empty hash from `sendUserOperation` fails with "Send user operation fail" and never waits. */
  lemma EmptyHashFailsBeforeWait(p: WaalletBackgroundProvider, call: UserOpObject, tx: map<string, Json>,
                                 entryPoint: Json, node: Node, codec: Codec, signer: Account,
                                 fee: GasFee, limits: GasLimits, approved: Approval)
    requires EstimateGasFee(Get(tx, "gasPrice"), node) == Some(fee)
    requires p.bundler.estimate(EstimationRequest(call, Get(tx, "gas"), p.paymaster.paymasterAndData(call)), entryPoint) == Ok(limits)
    requires p.userOperationAuthorizer.review(
      Merged(call, GasLimitsObject(limits), GasFeeObject(fee), p.paymaster.paymasterAndData(call))) == Some(approved)
    requires p.bundler.sendUserOperation(Signed(approved, entryPoint, p.bundler.chainId, signer, codec), entryPoint) == Ok("")
    ensures p.SubmitCall(call, tx, entryPoint, node, codec, signer).reply == Failure(SendFailMessage)
    ensures Wait !in p.SubmitCall(call, tx, entryPoint, node, codec, signer).trace
  {
  }
}
