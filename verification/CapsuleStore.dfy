// The encrypted capsule store with authenticated encryption idealised: a sealed
// row opens to exactly what was sealed, under exactly the binding it was sealed
// with, until it expires.

module CapsuleStore {
  import opened Tables

  const SEVEN_DAYS_MS: nat := 7 * 24 * 60 * 60 * 1000

  function DigestOf(body: Sealed): Digest {
    match body
    case SealedCommand(c) => OfCommand(c)
    case SealedResult(r) => OfResult(r)
  }

  function CallbackKey(effectId: Id, attemptNo: int): CapsuleKey {
    CapsuleKey(effectId, Callback, attemptNo)
  }

  function ResultKey(effectId: Id, attemptNo: int): CapsuleKey {
    CapsuleKey(effectId, ResultCapsule, attemptNo)
  }

  /** openRow: expiry first, then the hash of the decrypted plaintext. */
  function OpenRow(c: Capsule, now: nat): Result<Sealed> {
    if c.expiresAt <= now then Err(CapsuleExpired)
    else if c.hash != DigestOf(c.body) then Err(CapsuleInvalid)
    else Ok(c.body)
  }

  /** openVerifiedCallbackForEffect: the opened plaintext must hash to the
      authenticated row binding and to the fingerprint in the effect ledger. */
  function OpenVerifiedCallback(
    capsules: map<CapsuleKey, Capsule>, effectId: Id, attemptNo: int, expected: Digest, now: nat)
    : (r: Result<Command>)
    ensures r.Ok? ==>
      && CallbackKey(effectId, attemptNo) in capsules
      && capsules[CallbackKey(effectId, attemptNo)].body == SealedCommand(r.value)
      && OfCommand(r.value) == expected
      && now < capsules[CallbackKey(effectId, attemptNo)].expiresAt
  {
    var key := CallbackKey(effectId, attemptNo);
    if key !in capsules then Err(CapsuleInvalid)
    else match OpenRow(capsules[key], now)
      case Err(e) => Err(e)
      case Ok(body) =>
        if DigestOf(body) != capsules[key].fingerprint || DigestOf(body) != expected then Err(CapsuleInvalid)
        else if body.SealedCommand? then Ok(body.command)
        else Err(CapsuleInvalid)
  }

  /** openResultForReceipt: the row that the receipt names must be owned by this
      workspace, effect, receipt and attempt, and carry the receipt's hash. */
  function OpenResultForReceipt(
    capsules: map<CapsuleKey, Capsule>, workspaceId: Id, effectId: Id, receiptId: Id, attemptNo: int,
    ref: Option<CapsuleKey>, hash: Option<Digest>, now: nat)
    : (r: Result<Sealed>)
    ensures r.Ok? ==>
      && ref.Some? && ref.value in capsules
      && ref.value == ResultKey(effectId, attemptNo)
      && capsules[ref.value].receiptId == Some(receiptId)
      && capsules[ref.value].body == r.value
      && hash == Some(DigestOf(r.value))
  {
    if ref.None? || hash.None? || ref.value !in capsules then Err(CapsuleInvalid)
    else
      var key, row := ref.value, capsules[ref.value];
      if row.workspaceId != workspaceId || key.kind != ResultCapsule || key.effectId != effectId
        || row.receiptId != Some(receiptId) || key.attemptNo != attemptNo || row.hash != hash.value
      then Err(CapsuleInvalid)
      else OpenRow(row, now)
  }
}
