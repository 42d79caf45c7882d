/**
  The consensus orchestrator: one elector, one Proof-of-History sequencer and a pending
  batch of transactions, processed once, in order.
 */
module Engine {
  import opened Wrappers
  import opened Encoding
  import opened Records
  import opened Election
  import opened History

  /** The pending list after approval has been attempted on each transaction in turn. */
  function BatchAfter(representative: Option<string>, pending: seq<Transaction>): (batch: seq<Transaction>) {
    if pending == [] then []
    else BatchAfter(representative, pending[..|pending| - 1]) + [Stamped(representative, pending[|pending| - 1])]
  }

  /** The history events recorded while processing: one per approved transaction. */
  function EventsAfter(representative: Option<string>, pending: seq<Transaction>, prim: Primitives): (events: seq<string>) {
    if pending == [] then []
    else
      var last := Stamped(representative, pending[|pending| - 1]);
      EventsAfter(representative, pending[..|pending| - 1], prim) +
      (if representative.Some? then [ProofOfHistoryEvent(last, prim)] else [])
  }

  class Consensus {
    const dpos: DPoS
    const poh: ProofOfHistory
    var transactions: seq<Transaction>

    /** `Consensus::new`: a fresh elector over the candidates, an empty history, no transactions. */
    constructor (municipalities: seq<string>)
      ensures fresh(dpos) && fresh(poh)
      ensures dpos.municipalities == municipalities && dpos.approvedRepresentative == None
      ensures poh.sequence == []
      ensures transactions == []
    {
      dpos := new DPoS(municipalities);
      poh := new ProofOfHistory();
      transactions := [];
    }

    /** `add_transaction`: appended, without validation or deduplication. */
    method AddTransaction(tx: Transaction)
      modifies this
      ensures transactions == old(transactions) + [tx]
    {
      transactions := transactions + [tx];
    }

    /**
      `process_transactions`: approval is attempted on each pending transaction in order,
      mutating it in place, and each success appends that transaction's history event.
     */
    method ProcessTransactions(prim: Primitives)
      modifies this, poh
      ensures transactions == BatchAfter(dpos.approvedRepresentative, old(transactions))
      ensures poh.sequence == old(poh.sequence) + EventsAfter(dpos.approvedRepresentative, old(transactions), prim)
    {
      ghost var pending := transactions;
      ghost var history := poh.sequence;
      ghost var representative := dpos.approvedRepresentative;
      var i := 0;
      while i < |transactions|
        invariant ProcessedUpTo(representative, pending, transactions, i)
        invariant poh.sequence == history + EventsAfter(representative, pending[..i], prim)
      {
        ProcessStep(representative, pending, transactions, i, prim);
        ProcessAt(i, prim);
        i := i + 1;
      }
      ProcessedAll(representative, pending, transactions);
    }

    /** One turn of the loop in `process_transactions`: transaction `i` is approved in place. */
    method ProcessAt(i: nat, prim: Primitives)
      requires i < |transactions|
      modifies this, poh
      ensures transactions == old(transactions)[i := Stamped(dpos.approvedRepresentative, old(transactions)[i])]
      ensures poh.sequence == old(poh.sequence) +
                (if dpos.approvedRepresentative.Some?
                 then [ProofOfHistoryEvent(Stamped(dpos.approvedRepresentative, old(transactions)[i]), prim)]
                 else [])
    {
      var outcome, approved := dpos.ApproveTransaction(transactions[i]);
      transactions := transactions[i := approved];
      if outcome.Ok? {
        var event := ProofOfHistoryEvent(approved, prim);
        poh.AddEvent(event);
      }
    }

    /** `generate_poh_hash`: the digest of the history recorded so far. */
    method GeneratePohHash(prim: Primitives) returns (digest: HexDigest)
      ensures digest == prim.sha256Hex(Concat(poh.sequence))
    {
      digest := poh.GenerateHash(prim);
    }
  }

  /** After `done` turns of the loop: the first `done` transactions are stamped, the rest untouched. */
  ghost predicate ProcessedUpTo(representative: Option<string>, pending: seq<Transaction>, current: seq<Transaction>, done: nat) {
    done <= |pending| == |current| &&
    (forall k :: 0 <= k < done ==> current[k] == Stamped(representative, pending[k])) &&
    (forall k :: done <= k < |pending| ==> current[k] == pending[k])
  }

  /** One turn of the processing loop, stated on the specification functions. */
  lemma {:induction false} ProcessStep(
    representative: Option<string>, pending: seq<Transaction>, current: seq<Transaction>, i: nat, prim: Primitives)
    requires ProcessedUpTo(representative, pending, current, i) && i < |current|
    ensures current[i] == pending[i]
    ensures ProcessedUpTo(representative, pending, current[i := Stamped(representative, current[i])], i + 1)
    ensures EventsAfter(representative, pending[..i + 1], prim)
            == EventsAfter(representative, pending[..i], prim) +
               (if representative.Some? then [ProofOfHistoryEvent(Stamped(representative, pending[i]), prim)] else [])
  {
    assert pending[..i + 1][..i] == pending[..i];
    assert pending[..i + 1][i] == pending[i];
  }

  /** When the loop has seen every transaction, the batch is the specified one. */
  lemma {:induction false} ProcessedAll(representative: Option<string>, pending: seq<Transaction>, current: seq<Transaction>)
    requires ProcessedUpTo(representative, pending, current, |current|)
    ensures current == BatchAfter(representative, pending)
    ensures pending[..|current|] == pending
  {
    BatchAfterShape(representative, pending);
  }

  /** Processing keeps the length and order of the batch: element k is transaction k, stamped. */
  lemma {:induction false} BatchAfterShape(representative: Option<string>, pending: seq<Transaction>)
    ensures |BatchAfter(representative, pending)| == |pending|
    ensures forall k :: 0 <= k < |pending| ==> BatchAfter(representative, pending)[k] == Stamped(representative, pending[k])
  {
    if pending != [] {
      BatchAfterShape(representative, pending[..|pending| - 1]);
    }
  }

  /**
    All or nothing: with a representative every transaction records its history event, in
    list order; without one no event is recorded.
   */
  lemma {:induction false} EventsAfterShape(representative: Option<string>, pending: seq<Transaction>, prim: Primitives)
    ensures representative.None? ==> EventsAfter(representative, pending, prim) == []
    ensures representative.Some? ==>
              |EventsAfter(representative, pending, prim)| == |pending| &&
              forall k :: 0 <= k < |pending| ==>
                EventsAfter(representative, pending, prim)[k] == ProofOfHistoryEvent(pending[k], prim)
  {
    if pending != [] {
      EventsAfterShape(representative, pending[..|pending| - 1], prim);
    }
  }

  /** Without an elected representative processing changes no transaction. */
  lemma {:induction false} UnelectedBatchUnchanged(pending: seq<Transaction>)
    ensures BatchAfter(None, pending) == pending
  {
    BatchAfterShape(None, pending);
  }

  /**
    With representative `r` every transaction's signature becomes r's marker and nothing
    else about it changes; every recorded event is a digest.
   */
  lemma {:induction false} ElectedBatchApproved(r: string, pending: seq<Transaction>, prim: Primitives)
    ensures |BatchAfter(Some(r), pending)| == |pending|
    ensures forall k :: 0 <= k < |pending| ==>
              BatchAfter(Some(r), pending)[k] == pending[k].(signature := ApprovalMarker(r))
    ensures AllDigests(EventsAfter(Some(r), pending, prim))
  {
    BatchAfterShape(Some(r), pending);
    EventsAfterShape(Some(r), pending, prim);
  }
}
