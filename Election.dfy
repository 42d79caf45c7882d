/**
  The delegated elector/approver (`DPoS`): a fixed list of candidate municipalities and at
  most one elected representative, whose name is stamped onto transactions it approves.
 */
module Election {
  import opened Wrappers
  import opened Encoding
  import opened Records

  const APPROVED := "Transaction approved"
  const NO_REPRESENTATIVE := "No representative elected"
  const MARKER_PREFIX := "approved_by_"

  /** The signature bytes `format!("approved_by_{}", representative).into_bytes()`. */
  function ApprovalMarker(representative: string): (marker: seq<byte>)
    ensures |marker| >= |MARKER_PREFIX| + |representative|
  {
    Encode(MARKER_PREFIX + representative)
  }

  /**
    What approval does to a transaction under the elector state `representative`:
    nothing without a representative, otherwise it replaces the signature by the marker.
   */
  function Stamped(representative: Option<string>, tx: Transaction): (result: Transaction)
    ensures representative.None? ==> result == tx
    ensures representative.Some? ==> result.signature == ApprovalMarker(representative.value)
  {
    match representative
    case None => tx
    case Some(r) => tx.(signature := ApprovalMarker(r))
  }

  /** Approval touches the signature and no other field of a transaction. */
  lemma StampedKeepsOtherFields(representative: Option<string>, tx: Transaction)
    ensures var result := Stamped(representative, tx);
            result.sender == tx.sender && result.receiver == tx.receiver &&
            result.amount == tx.amount && result.verifiableCredential == tx.verifiableCredential &&
            result.location == tx.location && result.timestamp == tx.timestamp &&
            result.proofOfPlace == tx.proofOfPlace && result.transactionId == tx.transactionId
  {
  }

  class DPoS {
    const municipalities: seq<string>
    var approvedRepresentative: Option<string>

    /** `DPoS::new`: the candidates are fixed and nobody is elected yet. */
    constructor (municipalities: seq<string>)
      ensures this.municipalities == municipalities
      ensures approvedRepresentative == None
    {
      this.municipalities := municipalities;
      approvedRepresentative := None;
    }

    /**
      `elect_representative`: picks some candidate (the source picks at random) and
      records it. The `unwrap` on the pick panics on an empty list, hence the requires.
     */
    method ElectRepresentative() returns (representative: string)
      requires |municipalities| > 0
      modifies this
      ensures representative in municipalities
      ensures approvedRepresentative == Some(representative)
    {
      assert municipalities[0] in municipalities;
      representative :| representative in municipalities;
      approvedRepresentative := Some(representative);
    }

    /**
      `approve_transaction`: fails, leaving the transaction as it was, when nobody is
      elected; otherwise succeeds whatever the transaction holds and sets only its
      signature to the representative's marker. The elector itself is not changed.
     */
    method ApproveTransaction(tx: Transaction) returns (outcome: Result<string, string>, approved: Transaction)
      ensures approvedRepresentative.None? ==> outcome == Err(NO_REPRESENTATIVE) && approved == tx
      ensures approvedRepresentative.Some? ==>
                outcome == Ok(APPROVED) &&
                approved == tx.(signature := ApprovalMarker(approvedRepresentative.value))
      ensures approved == Stamped(approvedRepresentative, tx)
    {
      if approvedRepresentative.Some? {
        approved := tx.(signature := ApprovalMarker(approvedRepresentative.value));
        outcome := Ok(APPROVED);
      } else {
        approved := tx;
        outcome := Err(NO_REPRESENTATIVE);
      }
    }
  }

  /** Approving with a freshly built elector always fails and changes nothing. */
  method ApproveBeforeElection(municipalities: seq<string>, tx: Transaction)
    returns (outcome: Result<string, string>, approved: Transaction)
    ensures outcome == Err(NO_REPRESENTATIVE)
    ensures approved == tx
  {
    var dpos := new DPoS(municipalities);
    outcome, approved := dpos.ApproveTransaction(tx);
  }

  /** After one election, approval succeeds whatever the transaction, with the elected name. */
  method ApproveAfterElection(municipalities: seq<string>, tx: Transaction)
    returns (representative: string, outcome: Result<string, string>, approved: Transaction)
    requires |municipalities| > 0
    ensures representative in municipalities
    ensures outcome == Ok(APPROVED)
    ensures approved == tx.(signature := ApprovalMarker(representative))
  {
    var dpos := new DPoS(municipalities);
    representative := dpos.ElectRepresentative();
    outcome, approved := dpos.ApproveTransaction(tx);
  }

  /** The marker is the prefix's bytes followed by the representative's bytes. */
  lemma {:induction false} ApprovalMarkerSplits(representative: string)
    ensures ApprovalMarker(representative) == Encode(MARKER_PREFIX) + Encode(representative)
  {
    EncodeAppend(MARKER_PREFIX, representative);
  }

  /**
    An approved transaction never passes `verify_signature`: its second signature byte
    is the `p` of `approved_by_`, while the expected bytes are all hexadecimal digits.
   */
  lemma {:induction false} ApprovedNeverVerifies(
    representative: string, tx: Transaction, publicKey: string, prim: Primitives)
    ensures !VerifySignature(Stamped(Some(representative), tx), publicKey, prim)
  {
    var approved := Stamped(Some(representative), tx);
    var h := prim.sha256Hex(prim.debugTransaction(approved));
    var text := MARKER_PREFIX + representative;
    assert text[0] == 'a' && text[1] == 'p';
    EncodeSecondByte(text);
    assert IsLowerHex(h[0]) && IsLowerHex(h[1]);
    EncodeSecondByte(h);
  }
}
