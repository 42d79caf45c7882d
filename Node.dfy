/**
  The node's state effects behind its routes: the shared ledger of blocks (`add_block`,
  `get_chain`) and the transaction submission pipeline (`create_transaction`). Whether
  the forwarding to the peer node succeeded is an input: the network call is not modelled.
 */
module Node {
  import opened Wrappers
  import opened Encoding
  import opened Records
  import opened Election
  import opened History
  import opened Engine

  /** The HTTP statuses `add_block` answers with. */
  datatype Status = Accepted | InternalServerError

  /** The candidate set `create_transaction` configures. */
  const MUNICIPALITIES: seq<string> := ["Municipality1", "Municipality2"]

  /** The in-memory chain of blocks shared by all handlers. */
  class Ledger {
    var chain: seq<Block>

    /** The chain `main` starts with. */
    constructor ()
      ensures chain == []
    {
      chain := [];
    }

    /**
      `add_block`: the block is appended locally before forwarding is attempted; `sent` is
      the copy forwarded to the peer. The forwarding outcome only selects the status and
      never undoes the append.
     */
    method AddBlock(block: Block, forwarded: bool) returns (sent: Block, status: Status)
      modifies this
      ensures chain == old(chain) + [block]
      ensures sent == block
      ensures status == if forwarded then Accepted else InternalServerError
    {
      var copy := block;
      chain := chain + [block];
      sent := copy;
      status := if forwarded then Accepted else InternalServerError;
    }

    /** `get_chain`: a copy of every block, in append order. */
    method GetChain() returns (snapshot: seq<Block>)
      ensures snapshot == chain
    {
      snapshot := chain;
    }
  }

  /** An empty ledger, one appended genesis block, then a read: exactly that block comes back. */
  method GenesisScenario(genesis: Block, forwarded: bool) returns (snapshot: seq<Block>)
    ensures snapshot == [genesis]
  {
    var ledger := new Ledger();
    var sent, status := ledger.AddBlock(genesis, forwarded);
    snapshot := ledger.GetChain();
  }

  /**
    The transaction `create_transaction` answers with when forwarding fails: every string
    "error", no signature, zero amount and location, and the clock reading `now`.
   */
  function ErrorSentinel(now: Timestamp): (sentinel: Transaction) {
    Transaction("error", "error", ZERO, "error", [], Location(ZERO, ZERO), now, "error", "error")
  }

  /**
    The sentinel differs from any transaction built by `Transaction::new`: its proof of
    place verifies against no claim, its signature never verifies, and its id is not the
    `"0"` that `Transaction::new` writes.
   */
  lemma ErrorSentinelNeverVerifies(now: Timestamp, location: Location, placeTime: Timestamp,
                                   publicKey: string, prim: Primitives)
    ensures !VerifyProof(prim, ErrorSentinel(now).proofOfPlace, location, placeTime)
    ensures !VerifySignature(ErrorSentinel(now), publicKey, prim)
    ensures ErrorSentinel(now).transactionId != "0"
  {
    UnsignedNeverVerifies(ErrorSentinel(now), publicKey, prim);
  }

  /**
    `create_transaction` as written: a fresh consensus object is processed without any
    election, so the submitted transaction is forwarded, and returned, unapproved and
    unchanged. `sent` is what is forwarded to the peer; `errorTime` stands for the
    `Utc::now()` of the sentinel.
   */
  method CreateTransaction(submitted: Transaction, forwarded: bool, errorTime: Timestamp, prim: Primitives)
    returns (sent: Transaction, response: Transaction)
    ensures sent == submitted
    ensures response == if forwarded then submitted else ErrorSentinel(errorTime)
  {
    var consensus := new Consensus(MUNICIPALITIES);
    consensus.AddTransaction(submitted);
    consensus.ProcessTransactions(prim);
    UnelectedBatchUnchanged([submitted]);
    sent := consensus.transactions[|consensus.transactions| - 1];
    response := if forwarded then sent else ErrorSentinel(errorTime);
  }

  /**
    The submission of the two-party example, when forwarding succeeds: the answer carries
    no signature, and in particular not the marker of either candidate.
   */
  method SubmissionScenario(createdAt: Timestamp, placeTime: Timestamp, prim: Primitives)
    returns (response: Transaction)
    ensures response.signature == []
    ensures response.signature != ApprovalMarker(MUNICIPALITIES[0])
    ensures response.signature != ApprovalMarker(MUNICIPALITIES[1])
    ensures |response.proofOfPlace| == DIGEST_LENGTH
  {
    var location := Location(F64(0x3FF0_0000_0000_0000), F64(0x4000_0000_0000_0000));
    var tx := NewTransaction("A", "B", F64(0x4024_0000_0000_0000), "", location, createdAt, placeTime, prim);
    var sent;
    sent, response := CreateTransaction(tx, true, createdAt, prim);
  }

  /**
    The response does not reveal a forwarding failure: a submission equal to the sentinel
    gets the same answer whether forwarding succeeds or fails.
   */
  method SentinelSubmissionHidesFailure(errorTime: Timestamp, prim: Primitives)
    returns (onSuccess: Transaction, onFailure: Transaction)
    ensures onSuccess == onFailure
  {
    var submitted := ErrorSentinel(errorTime);
    var sentOnSuccess, sentOnFailure;
    sentOnSuccess, onSuccess := CreateTransaction(submitted, true, errorTime, prim);
    sentOnFailure, onFailure := CreateTransaction(submitted, false, errorTime, prim);
  }

  /**
    The submission pipeline with the election the design describes performed before
    processing: the answer is the submitted transaction signed with the marker of the
    elected candidate, and exactly that transaction's event is recorded in the history.
   */
  method CreateTransactionElected(submitted: Transaction, forwarded: bool, errorTime: Timestamp, prim: Primitives)
    returns (representative: string, sent: Transaction, response: Transaction, history: seq<string>)
    ensures representative in MUNICIPALITIES
    ensures sent == submitted.(signature := ApprovalMarker(representative))
    ensures history == [ProofOfHistoryEvent(submitted, prim)]
    ensures response == if forwarded then sent else ErrorSentinel(errorTime)
  {
    var consensus := new Consensus(MUNICIPALITIES);
    consensus.AddTransaction(submitted);
    representative := consensus.dpos.ElectRepresentative();
    consensus.ProcessTransactions(prim);
    ElectedBatchApproved(representative, [submitted], prim);
    EventsAfterShape(Some(representative), [submitted], prim);
    sent := consensus.transactions[|consensus.transactions| - 1];
    history := consensus.poh.sequence;
    response := if forwarded then sent else ErrorSentinel(errorTime);
  }
}
