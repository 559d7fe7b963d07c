/**
 * The ERC-4337 UserOperation of EntryPoint v0.6: the value object the wallet
 * fills in (gas limits, gas fee, paymaster data, signature), serialises for
 * JSON-RPC and hashes as EntryPoint's `getUserOpHash` does.
 *
 * keccak256 and ABI encoding are not interpreted: `Hash` is parameterised by
 * an arbitrary `keccak` over the ABI-encoded values, so every property proved
 * here holds for whatever digest function is plugged in.
 */
module UserOperation {
  import opened Wrappers
  import Hex
  import Text

  type HexString = string

  /** An ethers `BigNumberish`: a number, or a decimal or hex string. */
  datatype BigNumberish = Int(n: nat) | Text(s: string)

  /** JavaScript truthiness of a `BigNumberish` (0, 0n and "" are falsy). */
  predicate Truthy(b: BigNumberish) {
    match b
    case Int(n) => n != 0
    case Text(s) => s != ""
  }

  /** `number.toBigInt` succeeds on `b`. */
  predicate Convertible(b: BigNumberish) {
    b.Int? || Hex.ToBigInt(b.s).Some?
  }

  function ToBigInt(b: BigNumberish): nat
    requires Convertible(b)
  {
    match b
    case Int(n) => n
    case Text(s) => Hex.ToBigInt(s).value
  }

  /** The eleven fields of the operation, as the object holds them. */
  datatype UserOperation = UserOperation(
    sender: HexString,
    nonce: nat,
    initCode: HexString,
    callData: HexString,
    callGasLimit: nat,
    verificationGasLimit: nat,
    preVerificationGas: nat,
    maxFeePerGas: nat,
    maxPriorityFeePerGas: nat,
    paymasterAndData: HexString,
    signature: HexString)

  /** `UserOperationDataV0_6` as `data()` produces it: every integer as a hex string. */
  datatype UserOperationData = UserOperationData(
    sender: HexString,
    nonce: HexString,
    initCode: HexString,
    callData: HexString,
    callGasLimit: HexString,
    verificationGasLimit: HexString,
    preVerificationGas: HexString,
    maxFeePerGas: HexString,
    maxPriorityFeePerGas: HexString,
    paymasterAndData: HexString,
    signature: HexString)

  /** The constructor's argument: sender, nonce and callData required, everything else optional. */
  datatype UserOperationInit = UserOperationInit(
    sender: HexString,
    nonce: BigNumberish,
    callData: HexString,
    initCode: Option<HexString>,
    callGasLimit: Option<BigNumberish>,
    verificationGasLimit: Option<BigNumberish>,
    preVerificationGas: Option<BigNumberish>,
    maxFeePerGas: Option<BigNumberish>,
    maxPriorityFeePerGas: Option<BigNumberish>,
    paymasterAndData: Option<HexString>,
    signature: Option<HexString>)

  /** An optional numeric field that is present with a truthy value. */
  predicate Given(field: Option<BigNumberish>) {
    field.Some? && Truthy(field.value)
  }

  /** Every number the constructor converts can be converted. */
  predicate ValidInit(init: UserOperationInit) {
    && Convertible(init.nonce)
    && (Given(init.callGasLimit) ==> Convertible(init.callGasLimit.value))
    && (Given(init.verificationGasLimit) ==> Convertible(init.verificationGasLimit.value))
    && (Given(init.preVerificationGas) ==> Convertible(init.preVerificationGas.value))
    && (Given(init.maxFeePerGas) ==> Convertible(init.maxFeePerGas.value))
    && (Given(init.maxPriorityFeePerGas) ==> Convertible(init.maxPriorityFeePerGas.value))
  }

  /** A numeric field: converted when given and truthy, otherwise the default 0. */
  function GasField(field: Option<BigNumberish>): nat
    requires Given(field) ==> Convertible(field.value)
  {
    if Given(field) then ToBigInt(field.value) else 0
  }

  /** A byte-string field: copied when given and non-empty, otherwise `default`. */
  function BytesField(field: Option<HexString>, default: HexString): HexString {
    if field.Some? && field.value != "" then field.value else default
  }

  /** The field values the constructor assigns. */
  function FromInit(init: UserOperationInit): UserOperation
    requires ValidInit(init)
  {
    UserOperation(
      init.sender,
      ToBigInt(init.nonce),
      BytesField(init.initCode, "0x"),
      init.callData,
      GasField(init.callGasLimit),
      GasField(init.verificationGasLimit),
      GasField(init.preVerificationGas),
      GasField(init.maxFeePerGas),
      GasField(init.maxPriorityFeePerGas),
      BytesField(init.paymasterAndData, "0x"),
      BytesField(init.signature, "0x"))
  }

  /** Gas and fee fields default to 0 and the byte strings to "0x" when omitted or falsy. */
  lemma OmittedFieldsDefault(init: UserOperationInit)
    requires Convertible(init.nonce)
    requires !Given(init.callGasLimit) && !Given(init.verificationGasLimit) && !Given(init.preVerificationGas)
    requires !Given(init.maxFeePerGas) && !Given(init.maxPriorityFeePerGas)
    requires init.paymasterAndData.None? || init.paymasterAndData == Some("")
    requires init.signature.None? || init.signature == Some("")
    requires init.initCode.None? || init.initCode == Some("")
    ensures ValidInit(init)
    ensures FromInit(init) ==
      UserOperation(init.sender, ToBigInt(init.nonce), "0x", init.callData, 0, 0, 0, 0, 0, "0x", "0x")
  {
  }

  /** `data()`: the operation with every integer written as a hex quantity. */
  function Data(op: UserOperation): UserOperationData {
    UserOperationData(
      op.sender,
      Hex.ToHex(op.nonce),
      op.initCode,
      op.callData,
      Hex.ToHex(op.callGasLimit),
      Hex.ToHex(op.verificationGasLimit),
      Hex.ToHex(op.preVerificationGas),
      Hex.ToHex(op.maxFeePerGas),
      Hex.ToHex(op.maxPriorityFeePerGas),
      op.paymasterAndData,
      op.signature)
  }

  /** A data record handed back to the constructor: every field present. */
  function AsInit(d: UserOperationData): UserOperationInit {
    UserOperationInit(
      d.sender, Text(d.nonce), d.callData, Some(d.initCode),
      Some(Text(d.callGasLimit)), Some(Text(d.verificationGasLimit)), Some(Text(d.preVerificationGas)),
      Some(Text(d.maxFeePerGas)), Some(Text(d.maxPriorityFeePerGas)),
      Some(d.paymasterAndData), Some(d.signature))
  }

  /** The byte-string fields are non-empty, as every hex string ("0x...") is. */
  predicate BytesPresent(op: UserOperation) {
    op.initCode != "" && op.paymasterAndData != "" && op.signature != ""
  }

  lemma HexFieldRoundTrip(n: nat)
    ensures Truthy(Text(Hex.ToHex(n))) && Convertible(Text(Hex.ToHex(n)))
    ensures ToBigInt(Text(Hex.ToHex(n))) == n
  {
    Hex.ToHexRoundTrip(n);
  }

  /** Constructing from `data()` gives back the same field values. */
  lemma DataRoundTrip(op: UserOperation)
    requires BytesPresent(op)
    ensures ValidInit(AsInit(Data(op)))
    ensures FromInit(AsInit(Data(op))) == op
  {
    HexFieldRoundTrip(op.nonce);
    HexFieldRoundTrip(op.callGasLimit);
    HexFieldRoundTrip(op.verificationGasLimit);
    HexFieldRoundTrip(op.preVerificationGas);
    HexFieldRoundTrip(op.maxFeePerGas);
    HexFieldRoundTrip(op.maxPriorityFeePerGas);
  }

  /** The factor applied to the verification gas: 3 when a paymaster is attached, else 1. */
  function VerificationMultiplier(op: UserOperation): (m: nat)
    ensures m == 1 || m == 3
  {
    if op.paymasterAndData == "0x" then 1 else 3
  }

  /** `calculateGasFee()`: the most the operation can be charged, in wei. */
  function GasFee(op: UserOperation): nat {
    (op.callGasLimit + op.verificationGasLimit * VerificationMultiplier(op) + op.preVerificationGas) * op.maxFeePerGas
  }

  /**
   * Attaching a paymaster raises the fee by exactly twice the verification gas
   * at the fee rate, and never lowers it.
   */
  lemma PaymasterFeeSurcharge(op: UserOperation, paymasterAndData: HexString)
    requires paymasterAndData != "0x"
    ensures GasFee(op.(paymasterAndData := paymasterAndData))
         == GasFee(op.(paymasterAndData := "0x")) + 2 * op.verificationGasLimit * op.maxFeePerGas
    ensures GasFee(op.(paymasterAndData := paymasterAndData)) >= GasFee(op.(paymasterAndData := "0x"))
  {
    var base := op.callGasLimit + op.verificationGasLimit + op.preVerificationGas;
    calc {
      GasFee(op.(paymasterAndData := paymasterAndData));
      (base + 2 * op.verificationGasLimit) * op.maxFeePerGas;
      base * op.maxFeePerGas + (2 * op.verificationGasLimit) * op.maxFeePerGas;
    }
  }

  /** With no paymaster the fee is the plain gas sum times the fee rate. */
  lemma PlainGasFee(op: UserOperation)
    requires op.paymasterAndData == "0x"
    ensures GasFee(op) == (op.callGasLimit + op.verificationGasLimit + op.preVerificationGas) * op.maxFeePerGas
  {
  }

  /** `isGasEstimated()`: all three gas limits are non-zero. */
  predicate IsGasEstimated(op: UserOperation) {
    op.callGasLimit != 0 && op.verificationGasLimit != 0 && op.preVerificationGas != 0
  }

  /** `isGasFeeEstimated()`: both fee fields are non-zero. */
  predicate IsGasFeeEstimated(op: UserOperation) {
    op.maxFeePerGas != 0 && op.maxPriorityFeePerGas != 0
  }

  /**
   * After `setGasLimit` the gas is estimated exactly when the three new limits
   * are non-zero, and the fee estimate is as before.
   */
  lemma SetGasLimitEstimates(op: UserOperation, callGasLimit: nat, verificationGasLimit: nat, preVerificationGas: nat)
    ensures var op' := op.(callGasLimit := callGasLimit, verificationGasLimit := verificationGasLimit,
                           preVerificationGas := preVerificationGas);
      && (IsGasEstimated(op') <==> callGasLimit != 0 && verificationGasLimit != 0 && preVerificationGas != 0)
      && (IsGasFeeEstimated(op') <==> IsGasFeeEstimated(op))
  {
  }

  /** After `setGasFee` the fee is estimated exactly when both new fees are non-zero; gas is as before. */
  lemma SetGasFeeEstimates(op: UserOperation, maxFeePerGas: nat, maxPriorityFeePerGas: nat)
    ensures var op' := op.(maxFeePerGas := maxFeePerGas, maxPriorityFeePerGas := maxPriorityFeePerGas);
      && (IsGasFeeEstimated(op') <==> maxFeePerGas != 0 && maxPriorityFeePerGas != 0)
      && (IsGasEstimated(op') <==> IsGasEstimated(op))
  {
  }

  /**
   * The values keccak256 is applied to: raw bytes, the packed struct, and the final
   * hash input. Hex text is held lower-cased, because the bytes an address or a
   * byte string encodes to do not depend on the letter case of its hex digits.
   */
  datatype AbiEncoded =
    | Bytes(hex: HexString)
    | PackedUserOp(
        sender: HexString, nonce: nat, initCodeHash: HexString, callDataHash: HexString,
        callGasLimit: nat, verificationGasLimit: nat, preVerificationGas: nat,
        maxFeePerGas: nat, maxPriorityFeePerGas: nat, paymasterAndDataHash: HexString)
    | HashInput(userOpHash: HexString, entryPoint: HexString, chainId: nat)

  /** Hex text with no upper-case digit. */
  predicate IsLower(s: HexString) {
    Text.Lower(s) == s
  }

  /** An encoding as the model builds it: every piece of hex text in lower case. */
  predicate Canonical(e: AbiEncoded) {
    match e
    case Bytes(hex) => IsLower(hex)
    case PackedUserOp(sender, _, initCodeHash, callDataHash, _, _, _, _, _, paymasterAndDataHash) =>
      IsLower(sender) && IsLower(initCodeHash) && IsLower(callDataHash) && IsLower(paymasterAndDataHash)
    case HashInput(userOpHash, entryPoint, _) => IsLower(userOpHash) && IsLower(entryPoint)
  }

  /** The packed struct: every field except the signature, byte strings replaced by their digests. */
  function Packed(op: UserOperation, keccak: AbiEncoded -> HexString): AbiEncoded {
    PackedUserOp(
      Text.Lower(op.sender), op.nonce, keccak(Bytes(Text.Lower(op.initCode))), keccak(Bytes(Text.Lower(op.callData))),
      op.callGasLimit, op.verificationGasLimit, op.preVerificationGas,
      op.maxFeePerGas, op.maxPriorityFeePerGas, keccak(Bytes(Text.Lower(op.paymasterAndData))))
  }

  /** `hash(entryPoint, chainId)`: EntryPoint v0.6 `getUserOpHash`. */
  function Hash(op: UserOperation, entryPoint: HexString, chainId: nat, keccak: AbiEncoded -> HexString): HexString {
    keccak(HashInput(keccak(Packed(op, keccak)), Text.Lower(entryPoint), chainId))
  }

  /**
   * keccak256 as ethers returns it: lower-case hex, and no two distinct canonical
   * encodings sharing a digest (keccak256 is treated as collision-free).
   */
  ghost predicate CollisionFree(keccak: AbiEncoded -> HexString) {
    && (forall a :: IsLower(keccak(a)))
    && (forall a, b :: Canonical(a) && Canonical(b) && keccak(a) == keccak(b) ==> a == b)
  }

  /** The operation with its addresses and byte strings written in lower-case hex. */
  function LowerHex(op: UserOperation): UserOperation {
    op.(sender := Text.Lower(op.sender), initCode := Text.Lower(op.initCode),
        callData := Text.Lower(op.callData), paymasterAndData := Text.Lower(op.paymasterAndData))
  }

  /** The signature is not hashed: replacing it leaves the hash as it was. */
  lemma HashIgnoresSignature(op: UserOperation, signature: HexString, entryPoint: HexString, chainId: nat,
                             keccak: AbiEncoded -> HexString)
    ensures Hash(op.(signature := signature), entryPoint, chainId, keccak) == Hash(op, entryPoint, chainId, keccak)
  {
  }

  /** The letter case of hex digits is not hashed: a checksummed and a lower-case spelling hash alike. */
  lemma HashIgnoresHexCase(op: UserOperation, entryPoint: HexString, chainId: nat, keccak: AbiEncoded -> HexString)
    ensures Hash(LowerHex(op), Text.Lower(entryPoint), chainId, keccak) == Hash(op, entryPoint, chainId, keccak)
  {
    Text.LowerIdempotent(op.sender);
    Text.LowerIdempotent(op.initCode);
    Text.LowerIdempotent(op.callData);
    Text.LowerIdempotent(op.paymasterAndData);
    Text.LowerIdempotent(entryPoint);
  }

  lemma PackedCanonical(op: UserOperation, keccak: AbiEncoded -> HexString)
    requires CollisionFree(keccak)
    ensures Canonical(Packed(op, keccak))
  {
    Text.LowerIdempotent(op.sender);
  }

  lemma BytesInjective(s: HexString, t: HexString, keccak: AbiEncoded -> HexString)
    requires CollisionFree(keccak)
    requires keccak(Bytes(Text.Lower(s))) == keccak(Bytes(Text.Lower(t)))
    ensures Text.Lower(s) == Text.Lower(t)
  {
    Text.LowerIdempotent(s);
    Text.LowerIdempotent(t);
    assert Canonical(Bytes(Text.Lower(s))) && Canonical(Bytes(Text.Lower(t)));
  }

  /**
   * For a collision-free digest, two operations hash alike under one entry point
   * and chain exactly when they agree, up to the letter case of their hex, on
   * every field except the signature.
   */
  lemma HashDeterminedByUnsignedFields(a: UserOperation, b: UserOperation, entryPoint: HexString, chainId: nat,
                                       keccak: AbiEncoded -> HexString)
    requires CollisionFree(keccak)
    ensures Hash(a, entryPoint, chainId, keccak) == Hash(b, entryPoint, chainId, keccak)
        <==> LowerHex(a).(signature := b.signature) == LowerHex(b)
  {
    if Hash(a, entryPoint, chainId, keccak) == Hash(b, entryPoint, chainId, keccak) {
      var ha, hb := keccak(Packed(a, keccak)), keccak(Packed(b, keccak));
      Text.LowerIdempotent(entryPoint);
      assert Canonical(HashInput(ha, Text.Lower(entryPoint), chainId));
      assert Canonical(HashInput(hb, Text.Lower(entryPoint), chainId));
      assert ha == hb;
      PackedCanonical(a, keccak);
      PackedCanonical(b, keccak);
      assert Packed(a, keccak) == Packed(b, keccak);
      BytesInjective(a.initCode, b.initCode, keccak);
      BytesInjective(a.callData, b.callData, keccak);
      BytesInjective(a.paymasterAndData, b.paymasterAndData, keccak);
    } else if LowerHex(a).(signature := b.signature) == LowerHex(b) {
      HashIgnoresHexCase(a, entryPoint, chainId, keccak);
      HashIgnoresHexCase(b, entryPoint, chainId, keccak);
      HashIgnoresSignature(LowerHex(a), b.signature, Text.Lower(entryPoint), chainId, keccak);
    }
  }

  /** For a collision-free digest the hash also pins down the entry point, up to letter case, and the chain. */
  lemma HashBindsEntryPointAndChain(a: UserOperation, b: UserOperation, entryPointA: HexString, entryPointB: HexString,
                                    chainA: nat, chainB: nat, keccak: AbiEncoded -> HexString)
    requires CollisionFree(keccak)
    requires Hash(a, entryPointA, chainA, keccak) == Hash(b, entryPointB, chainB, keccak)
    ensures Text.Lower(entryPointA) == Text.Lower(entryPointB) && chainA == chainB
  {
    Text.LowerIdempotent(entryPointA);
    Text.LowerIdempotent(entryPointB);
    assert Canonical(HashInput(keccak(Packed(a, keccak)), Text.Lower(entryPointA), chainA));
    assert Canonical(HashInput(keccak(Packed(b, keccak)), Text.Lower(entryPointB), chainB));
  }

  /** An operation rebuilt from its `data()` has the same hash. */
  lemma DataRoundTripPreservesHash(op: UserOperation, entryPoint: HexString, chainId: nat,
                                   keccak: AbiEncoded -> HexString)
    requires BytesPresent(op)
    ensures ValidInit(AsInit(Data(op)))
    ensures Hash(FromInit(AsInit(Data(op))), entryPoint, chainId, keccak) == Hash(op, entryPoint, chainId, keccak)
  {
    DataRoundTrip(op);
  }

  /**
   * The constructor as written leaves `initCode` unassigned (undefined) when it is
   * omitted or empty, having no default for it; None stands for undefined.
   */
  function InitCodeAsWritten(init: UserOperationInit): Option<HexString> {
    if init.initCode.Some? && init.initCode.value != "" then Some(init.initCode.value) else None
  }

  /** `hash` as written: keccak256 of an undefined `initCode` throws, modelled as None. */
  function HashAsWritten(init: UserOperationInit, entryPoint: HexString, chainId: nat,
                         keccak: AbiEncoded -> HexString): Option<HexString>
    requires ValidInit(init)
  {
    match InitCodeAsWritten(init)
    case None => None
    case Some(initCode) => Some(Hash(FromInit(init).(initCode := initCode), entryPoint, chainId, keccak))
  }

  /** An operation built from only sender, nonce and callData cannot be hashed as written. */
  lemma OmittedInitCodeBreaksHash(entryPoint: HexString, chainId: nat, keccak: AbiEncoded -> HexString)
    ensures var init := UserOperationInit("0x1111111111111111111111111111111111111111", Int(0), "0x",
                                          None, None, None, None, None, None, None, None);
      ValidInit(init) && HashAsWritten(init, entryPoint, chainId, keccak).None?
  {
  }

  /**
   * With the "0x" default, an omitted initCode means "no init code": the operation
   * equals, and hashes like, one built with an explicit "0x", which as written is hashable.
   */
  lemma OmittedInitCodeMeansEmpty(init: UserOperationInit, entryPoint: HexString, chainId: nat,
                                  keccak: AbiEncoded -> HexString)
    requires ValidInit(init)
    requires init.initCode.None? || init.initCode == Some("")
    ensures FromInit(init) == FromInit(init.(initCode := Some("0x")))
    ensures HashAsWritten(init.(initCode := Some("0x")), entryPoint, chainId, keccak)
         == Some(Hash(FromInit(init), entryPoint, chainId, keccak))
  {
  }

  /** The object: its fields are assigned by the constructor and the setters. */
  class UserOperationV0_6 {
    var sender: HexString
    var nonce: nat
    var initCode: HexString
    var callData: HexString
    var callGasLimit: nat
    var verificationGasLimit: nat
    var preVerificationGas: nat
    var maxFeePerGas: nat
    var maxPriorityFeePerGas: nat
    var paymasterAndData: HexString
    var signature: HexString

    /** The fields as one value. */
    function Value(): UserOperation
      reads this
    {
      UserOperation(sender, nonce, initCode, callData, callGasLimit, verificationGasLimit,
                    preVerificationGas, maxFeePerGas, maxPriorityFeePerGas, paymasterAndData, signature)
    }

    constructor (init: UserOperationInit)
      requires ValidInit(init)
      ensures Value() == FromInit(init)
    {
      // Each optional field keeps its default unless the argument gives a truthy value.
      sender := init.sender;
      nonce := ToBigInt(init.nonce);
      callData := init.callData;
      initCode := BytesField(init.initCode, "0x");
      callGasLimit := GasField(init.callGasLimit);
      verificationGasLimit := GasField(init.verificationGasLimit);
      preVerificationGas := GasField(init.preVerificationGas);
      maxFeePerGas := GasField(init.maxFeePerGas);
      maxPriorityFeePerGas := GasField(init.maxPriorityFeePerGas);
      paymasterAndData := BytesField(init.paymasterAndData, "0x");
      signature := BytesField(init.signature, "0x");
    }

    function CalculateGasFee(): nat
      reads this
    {
      GasFee(Value())
    }

    predicate GasEstimated()
      reads this
    {
      IsGasEstimated(Value())
    }

    predicate GasFeeEstimated()
      reads this
    {
      IsGasFeeEstimated(Value())
    }

    function ToData(): UserOperationData
      reads this
    {
      Data(Value())
    }

    function HashFor(entryPoint: HexString, chainId: nat, keccak: AbiEncoded -> HexString): HexString
      reads this
    {
      Hash(Value(), entryPoint, chainId, keccak)
    }

    /** `isSender`: the sender equals the address up to letter case. */
    predicate IsSender(accountAddress: HexString)
      reads this
    {
      Text.EqualIgnoringCase(sender, accountAddress)
    }

    method SetCallGasLimit(newCallGasLimit: BigNumberish)
      requires Convertible(newCallGasLimit)
      modifies this
      ensures Value() == old(Value()).(callGasLimit := ToBigInt(newCallGasLimit))
    {
      callGasLimit := ToBigInt(newCallGasLimit);
    }

    method SetGasLimit(newCallGasLimit: BigNumberish, newVerificationGasLimit: BigNumberish,
                       newPreVerificationGas: BigNumberish)
      requires Convertible(newCallGasLimit) && Convertible(newVerificationGasLimit)
      requires Convertible(newPreVerificationGas)
      modifies this
      ensures Value() == old(Value()).(callGasLimit := ToBigInt(newCallGasLimit),
                                       verificationGasLimit := ToBigInt(newVerificationGasLimit),
                                       preVerificationGas := ToBigInt(newPreVerificationGas))
    {
      SetCallGasLimit(newCallGasLimit);
      verificationGasLimit := ToBigInt(newVerificationGasLimit);
      preVerificationGas := ToBigInt(newPreVerificationGas);
    }

    method SetGasFee(newMaxFeePerGas: BigNumberish, newMaxPriorityFeePerGas: BigNumberish)
      requires Convertible(newMaxFeePerGas) && Convertible(newMaxPriorityFeePerGas)
      modifies this
      ensures Value() == old(Value()).(maxFeePerGas := ToBigInt(newMaxFeePerGas),
                                       maxPriorityFeePerGas := ToBigInt(newMaxPriorityFeePerGas))
    {
      maxFeePerGas := ToBigInt(newMaxFeePerGas);
      maxPriorityFeePerGas := ToBigInt(newMaxPriorityFeePerGas);
    }

    method SetNonce(newNonce: BigNumberish)
      requires Convertible(newNonce)
      modifies this
      ensures Value() == old(Value()).(nonce := ToBigInt(newNonce))
    {
      nonce := ToBigInt(newNonce);
    }

    method SetPaymasterAndData(newPaymasterAndData: HexString)
      modifies this
      ensures Value() == old(Value()).(paymasterAndData := newPaymasterAndData)
    {
      paymasterAndData := newPaymasterAndData;
    }

    method SetSignature(newSignature: HexString)
      modifies this
      ensures Value() == old(Value()).(signature := newSignature)
      ensures forall entryPoint, chainId, keccak ::
        Hash(Value(), entryPoint, chainId, keccak) == Hash(old(Value()), entryPoint, chainId, keccak)
    {
      signature := newSignature;
    }
  }
}
