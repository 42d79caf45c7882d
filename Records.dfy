/**
  The chain's records (`Block`, `Transaction`), the Proof-of-Place commitment and the
  per-transaction functions of global_main_chain/src/main.rs.

  The library calls the records rely on — SHA-256 followed by `hex::encode`, and the
  `{:?}` (Debug) rendering of values — are not modelled: they are the total functions
  bundled in `Primitives`, passed in by every caller, and nothing is assumed of them
  beyond their types.
 */
module Records {
  import opened Encoding

  /** An IEEE-754 double, kept as its bit pattern: the model never computes with it. */
  datatype F64 = F64(bits: bv64)

  const ZERO: F64 := F64(0)

  /** A `(latitude, longitude)` pair, as `(f64, f64)` in the source. */
  datatype Location = Location(latitude: F64, longitude: F64)

  /** A `DateTime<Utc>`; only ever compared and rendered, never computed with. */
  datatype Timestamp = Timestamp(nanosSinceEpoch: int)

  newtype U64 = x: int | 0 <= x < 0x1_0000_0000_0000_0000

  datatype Block = Block(
    index: U64,
    timestamp: Timestamp,
    data: string,
    prevHash: string,
    hash: string,
    verifiableCredential: string,
    signature: seq<byte>)

  datatype Transaction = Transaction(
    sender: string,
    receiver: string,
    amount: F64,
    verifiableCredential: string,
    signature: seq<byte>,
    location: Location,
    timestamp: Timestamp,
    proofOfPlace: string,
    transactionId: string)

  /**
    The foreign functions the source calls. `sha256Hex(s)` is
    `hex::encode(Sha256::digest(s.as_bytes()))` (the hasher is fed the text in order,
    so a streamed update is the digest of the concatenated input); the others are the
    `{:?}` renderings of a location, a timestamp, a `String` and a whole transaction.
   */
  datatype Primitives = Primitives(
    sha256Hex: string -> HexDigest,
    debugLocation: Location -> string,
    debugTimestamp: Timestamp -> string,
    debugString: string -> string,
    debugTransaction: Transaction -> string)

  /**
    A location claim together with the time at which it was captured; `ProofOfPlace::new`
    is this constructor given the clock reading that stands for `Utc::now()`.
   */
  datatype ProofOfPlace = ProofOfPlace(location: Location, timestamp: Timestamp)

  /** `generate_proof`: the digest of the rendered location followed by the rendered time. */
  function GenerateProof(p: ProofOfPlace, prim: Primitives): (proof: HexDigest) {
    prim.sha256Hex(prim.debugLocation(p.location) + prim.debugTimestamp(p.timestamp))
  }

  /** `verify_proof`: recompute the digest from the claim and compare. */
  function VerifyProof(prim: Primitives, proof: string, location: Location, timestamp: Timestamp): (ok: bool)
    ensures ok <==> proof == GenerateProof(ProofOfPlace(location, timestamp), prim)
  {
    var computed := prim.sha256Hex(prim.debugLocation(location) + prim.debugTimestamp(timestamp));
    computed == proof
  }

  /** A proof generated from a claim verifies against that same claim. */
  lemma VerifyGeneratedProof(p: ProofOfPlace, prim: Primitives)
    ensures VerifyProof(prim, GenerateProof(p, prim), p.location, p.timestamp)
  {
  }

  /**
    `Transaction::new`. The source reads the clock twice: `createdAt` is the transaction's
    own timestamp, `placeTime` the one taken inside `ProofOfPlace::new`.
   */
  function NewTransaction(
    sender: string, receiver: string, amount: F64, verifiableCredential: string,
    location: Location, createdAt: Timestamp, placeTime: Timestamp, prim: Primitives): (tx: Transaction)
    ensures tx.sender == sender && tx.receiver == receiver && tx.amount == amount
    ensures tx.verifiableCredential == verifiableCredential && tx.location == location
    ensures tx.timestamp == createdAt
    ensures tx.signature == [] && tx.transactionId == "0"
    ensures tx.proofOfPlace == GenerateProof(ProofOfPlace(location, placeTime), prim)
    ensures |tx.proofOfPlace| == DIGEST_LENGTH
  {
    var draft := Transaction(sender, receiver, amount, verifiableCredential, [], location,
                             createdAt, "", "0");
    draft.(proofOfPlace := GenerateProof(ProofOfPlace(location, placeTime), prim))
  }

  /**
    The proof of place of a new transaction verifies against its location and the second
    clock reading, and against its own timestamp whenever the two readings are equal.
   */
  lemma NewTransactionProofVerifies(
    sender: string, receiver: string, amount: F64, verifiableCredential: string,
    location: Location, createdAt: Timestamp, placeTime: Timestamp, prim: Primitives)
    ensures var tx := NewTransaction(sender, receiver, amount, verifiableCredential, location,
                                     createdAt, placeTime, prim);
            VerifyProof(prim, tx.proofOfPlace, location, placeTime) &&
            (createdAt == placeTime ==> VerifyProof(prim, tx.proofOfPlace, tx.location, tx.timestamp))
  {
  }

  /** `generate_proof_of_history`: the digest of the rendered sender and timestamp. */
  function ProofOfHistoryEvent(tx: Transaction, prim: Primitives): (event: HexDigest) {
    prim.sha256Hex(prim.debugString(tx.sender) + prim.debugTimestamp(tx.timestamp))
  }

  /** The history event of a transaction depends on its sender and timestamp only. */
  lemma ProofOfHistoryEventDependsOnSenderAndTime(t1: Transaction, t2: Transaction, prim: Primitives)
    requires t1.sender == t2.sender && t1.timestamp == t2.timestamp
    ensures ProofOfHistoryEvent(t1, prim) == ProofOfHistoryEvent(t2, prim)
  {
  }

  /**
    `verify_signature`: the signature must equal the bytes of the hex digest of the whole
    rendered transaction. The public key is accepted and ignored, as in the source. Only
    a signature of exactly 64 bytes, each a lower-case hexadecimal digit, can pass.
   */
  function VerifySignature(tx: Transaction, publicKey: string, prim: Primitives): (ok: bool)
    ensures ok <==> tx.signature == Encode(prim.sha256Hex(prim.debugTransaction(tx)))
    ensures ok ==> |tx.signature| == DIGEST_LENGTH
    ensures ok ==> forall k :: 0 <= k < |tx.signature| ==> IsLowerHexByte(tx.signature[k])
  {
    var computed := prim.sha256Hex(prim.debugTransaction(tx));
    EncodeHexDigits(computed);
    assert forall k :: 0 <= k < |computed| ==> IsLowerHex(computed[k]);
    tx.signature == Encode(computed)
  }

  /** The outcome of `verify_signature` never depends on the key it is given. */
  lemma VerifySignatureIgnoresKey(tx: Transaction, key1: string, key2: string, prim: Primitives)
    ensures VerifySignature(tx, key1, prim) == VerifySignature(tx, key2, prim)
  {
  }

  /** An unsigned transaction (such as a new one) never passes `verify_signature`. */
  lemma UnsignedNeverVerifies(tx: Transaction, publicKey: string, prim: Primitives)
    requires tx.signature == []
    ensures !VerifySignature(tx, publicKey, prim)
  {
  }
}
