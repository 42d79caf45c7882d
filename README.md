# Global main chain: consensus and ledger engine

A Dafny model of the engine in `global_main_chain/src/main.rs`, a single-node prototype of a
municipal blockchain node. The model covers:

- the records: `Transaction` and `Block`;
- Proof-of-Place, a digest over a claimed location and a clock reading;
- the DPoS elector/approver, a fixed list of candidate municipalities and an optional
  elected representative whose name is stamped onto approved transactions;
- Proof-of-History, an append-only list of event strings and a digest over them in order;
- the consensus orchestrator, which approves a pending batch in order and records one
  history event for each approved transaction;
- the node's state effects: the in-memory ledger behind `add_block` and `get_chain`, and
  the submission pipeline of `create_transaction`.

Modules follow the components:

- `Wrappers`: `Option` and `Result`.
- `Encoding`: bytes, the 64-digit lower-case hexadecimal digest type, and the UTF-8
  encoding done by `into_bytes`.
- `Records`: data model, Proof-of-Place, and the per-transaction functions.
- `Election`: `DPoS`.
- `History`: `ProofOfHistory`.
- `Engine`: `Consensus`.
- `Node`: the ledger and the handlers.

The parts that change state are classes: `DPoS`, `ProofOfHistory`, `Consensus` and `Ledger`.
Their methods say exactly what the new state is. `Consensus.ProcessTransactions` walks the
pending list with a loop and updates each element in place; the loop body is the method
`Consensus.ProcessAt`. It is proved against two
specification functions, `BatchAfter` and `EventsAfter`, and lemmas state what those
functions mean.

The library calls are not modelled. These are SHA-256 followed by `hex::encode`, and the
`{:?}` Debug rendering of locations, timestamps, strings and transactions. They are the total
functions of a `Primitives` value that every caller passes in. The only fact used about the
hash is its type: 64 lower-case hexadecimal characters. Clock readings (`Utc::now()`) are
parameters. The random pick in `elect_representative` is a nondeterministic choice. The
outcome of forwarding to the peer node is a boolean input.

Two facts about the code, proved here:

- `verify_signature` can never accept a transaction that `approve_transaction` signed
  (`Election.ApprovedNeverVerifies`). It also never accepts an unsigned one
  (`Records.UnsignedNeverVerifies`). The approval marker `approved_by_<name>` and the
  expected hex digest already differ in their second byte.
- The Proof-of-History digest sees only the concatenation of the events, so event boundaries
  are lost (`History.RegroupedHistoriesCollide`). The event order is still fixed when every
  event is a 64-digit digest (`History.ConcatOfDigestsInjective`,
  `History.SwapChangesHashInput`). Every event the engine records is such a digest.

Where the design description and the code disagree, the model follows the code:

- The design's data flow says an election happens before approval, and its example expects a
  submitted transaction to come back signed `approved_by_<elected>`. `create_transaction`
  never calls `elect_representative`, so every submitted transaction comes back unapproved.
  See "## Findings".
- The design says a transaction's proof of place is computed from its location and its
  timestamp. `Transaction::new` actually reads the clock a second time inside
  `ProofOfPlace::new`. The proof therefore commits to that second reading, which need not
  equal the transaction's `timestamp`.
- The design says only the push onto the chain happens under the lock. `add_block` keeps
  the `MutexGuard` from `chain.lock().await` until the handler returns, so the lock is also
  held across the forwarding `.await` (main.rs:228, 236-239). The model has no concurrency,
  so this changes none of its contracts.
- `Transaction::new`, `verify_proof`, `verify_signature`, `generate_poh_hash` and the
  `generate_hash` it calls have no caller in main.rs, so no handler ever computes the
  Proof-of-History digest.
  `create_transaction` receives a transaction deserialised from JSON, with whatever
  signature and proof of place the client sent. The facts proved about these functions say
  what they would do if called; `Node.SubmissionScenario` uses `Transaction::new` only to
  build one particular submission.

## Model

| member | source | states |
|---|---|---|
| `Encoding.Encode` | global_main_chain/src/main.rs:100 | `into_bytes` gives the UTF-8 bytes of a string: at least as many bytes as characters and at most four times as many |
| `Records.VerifyProof` | global_main_chain/src/main.rs:121-132 | `verify_proof` accepts exactly the proof that `generate_proof` (`Records.GenerateProof`, the digest of the rendered location followed by the rendered timestamp) makes for the same location and timestamp |
| `Records.VerifyGeneratedProof` | global_main_chain/src/main.rs:121-132 | round trip: a generated proof verifies against the claim it was generated from |
| `Records.NewTransaction` | global_main_chain/src/main.rs:43-63 | `Transaction::new` keeps the given fields, sets an empty signature and id `"0"`, sets the timestamp to the first clock reading, and sets the proof of place to the `ProofOfPlace` digest of the location and the second clock reading (64 digits, so never empty) |
| `Records.NewTransactionProofVerifies` | global_main_chain/src/main.rs:50-62 | a new transaction's proof verifies against its location and the second clock reading; it verifies against the transaction's own timestamp whenever the two readings are the same |
| `Records.ProofOfHistoryEventDependsOnSenderAndTime` | global_main_chain/src/main.rs:65-69 | `generate_proof_of_history` (`Records.ProofOfHistoryEvent`) depends only on sender and timestamp, so it does not change when approval changes the signature |
| `Records.VerifySignature` | global_main_chain/src/main.rs:71-74 | `verify_signature` holds exactly when the signature equals the UTF-8 bytes of the hex digest of the rendered transaction; so only a signature of exactly 64 bytes, each a lower-case hexadecimal digit, can pass |
| `Records.VerifySignatureIgnoresKey` | global_main_chain/src/main.rs:71-74 | the `public_key` argument never changes the outcome |
| `Records.UnsignedNeverVerifies` | global_main_chain/src/main.rs:71-74 | a transaction with an empty signature, such as a new one, never passes `verify_signature` |
| `Election.ApprovalMarker` | global_main_chain/src/main.rs:100 | the marker for representative `r` is at least as long as `approved_by_` plus `r`, so it is never empty |
| `Election.ApprovalMarkerSplits` | global_main_chain/src/main.rs:100 | the marker is the bytes of `approved_by_` followed by the bytes of the representative's name |
| `Election.Stamped` | global_main_chain/src/main.rs:98-105 | with no representative the transaction is unchanged; with a representative the signature becomes that representative's marker (that no other field changes is `Election.StampedKeepsOtherFields`) |
| `Election.StampedKeepsOtherFields` | global_main_chain/src/main.rs:98-105 | approval changes no field other than the signature |
| `Election.DPoS.constructor` | global_main_chain/src/main.rs:85-90 | `DPoS::new` keeps the candidate list and elects nobody |
| `Election.DPoS.ElectRepresentative` | global_main_chain/src/main.rs:92-96 | given a non-empty candidate list (the `unwrap` panics otherwise), returns some candidate and records it as the representative |
| `Election.DPoS.ApproveTransaction` | global_main_chain/src/main.rs:98-105 | with nobody elected: `Err("No representative elected")` and the transaction unchanged; with representative `r`: `Ok("Transaction approved")` whatever the transaction holds, and only the signature replaced by r's marker; the elector's state is not changed |
| `Election.ApproveBeforeElection` | global_main_chain/src/main.rs:85-105 | approving with a freshly built elector always fails and leaves the transaction unchanged |
| `Election.ApproveAfterElection` | global_main_chain/src/main.rs:92-105 | after one election, approval succeeds for every transaction, with the marker of the elected candidate |
| `Election.ApprovedNeverVerifies` | global_main_chain/src/main.rs:71-105 | a transaction signed by `approve_transaction` never passes `verify_signature` |
| `History.ProofOfHistory.constructor` | global_main_chain/src/main.rs:140-142 | a new history has no events |
| `History.ProofOfHistory.AddEvent` | global_main_chain/src/main.rs:144-146 | `add_event` appends exactly one event at the end and leaves the earlier events unchanged |
| `History.ProofOfHistory.GenerateHash` | global_main_chain/src/main.rs:148-154 | `generate_hash` is the digest of all events concatenated in insertion order |
| `History.ConcatAppend` | global_main_chain/src/main.rs:148-154 | feeding two runs of events one after the other gives the hasher the concatenation of the two runs' inputs |
| `History.RegroupedHistoriesCollide` | global_main_chain/src/main.rs:148-154 | event boundaries are not hashed: `["ab"]` and `["a", "b"]` give the hasher the same input |
| `History.ConcatOfDigestsInjective` | global_main_chain/src/main.rs:148-154 | when every event is a 64-digit digest, the hasher's input determines the event list |
| `History.SwapChangesHashInput` | global_main_chain/src/main.rs:148-154 | when every event is a digest, swapping two distinct events changes the hasher's input |
| `Engine.Consensus.constructor` | global_main_chain/src/main.rs:164-170 | `Consensus::new` builds a fresh elector over the candidates with nobody elected, an empty history and no pending transactions |
| `Engine.Consensus.AddTransaction` | global_main_chain/src/main.rs:172-174 | `add_transaction` appends to the pending list, with no validation and no deduplication |
| `Engine.Consensus.ProcessTransactions` | global_main_chain/src/main.rs:176-185 | each pending transaction becomes its approved form, in place and in order; the history is extended by the events of the approved transactions, in list order; the elector is not changed |
| `Engine.Consensus.ProcessAt` | global_main_chain/src/main.rs:177-184 | one turn of the loop: transaction `i` is replaced in place by its approved form, and the history gains that transaction's event exactly when a representative is elected |
| `Engine.Consensus.GeneratePohHash` | global_main_chain/src/main.rs:187-189 | `generate_poh_hash` is the digest of the concatenated history |
| `Engine.BatchAfterShape` | global_main_chain/src/main.rs:176-185 | processing keeps the length and order of the batch: element k is pending transaction k after approval |
| `Engine.EventsAfterShape` | global_main_chain/src/main.rs:176-185 | all-or-nothing, since every transaction sees the same elector state: with a representative, one event per transaction, namely `generate_proof_of_history` of transaction k, in order; without one, no event |
| `Engine.UnelectedBatchUnchanged` | global_main_chain/src/main.rs:176-185 | with nobody elected, processing leaves every transaction unchanged |
| `Engine.ElectedBatchApproved` | global_main_chain/src/main.rs:176-185 | with representative `r`, every transaction gets r's marker as its signature and keeps every other field; every recorded event is a 64-digit digest |
| `Node.Ledger.constructor` | global_main_chain/src/main.rs:261 | the ledger starts empty |
| `Node.Ledger.AddBlock` | global_main_chain/src/main.rs:226-251 | the chain grows by exactly one, the submitted block comes last, and the earlier blocks are unchanged, whatever the forwarding outcome; the block forwarded to the peer (`block_clone`) is the submitted block; only the status depends on the forwarding outcome (`Accepted` or `InternalServerError`) |
| `Node.Ledger.GetChain` | global_main_chain/src/main.rs:254-257 | `get_chain` returns a copy of the whole chain, in append order |
| `Node.GenesisScenario` | global_main_chain/src/main.rs:226-257 | appending a genesis block to an empty ledger and then reading it returns exactly that one block |
| `Node.CreateTransaction` | global_main_chain/src/main.rs:198-223 | as written: the transaction forwarded to the peer is the submitted one, unapproved and unchanged; the response is that transaction if forwarding succeeds, and otherwise the sentinel `Node.ErrorSentinel` (every string `"error"`, no signature, zero amount and location) |
| `Node.ErrorSentinelNeverVerifies` | global_main_chain/src/main.rs:211-221 | the error sentinel differs from any transaction built by `Transaction::new`: its proof of place verifies against no claim, its signature never verifies, and its id is not the `"0"` of `Transaction::new` |
| `Node.SentinelSubmissionHidesFailure` | global_main_chain/src/main.rs:209-222 | the response does not reveal a forwarding failure: a submission equal to the sentinel gets the same answer whether forwarding succeeds or fails |
| `Node.SubmissionScenario` | global_main_chain/src/main.rs:198-223 | submitting a transaction from A to B that was built by `Transaction::new` (the handler itself takes any deserialised transaction) returns it, when forwarding succeeds, with an empty signature, never either candidate's marker, and with a 64-digit proof of place |
| `Node.CreateTransactionElected` | global_main_chain/src/main.rs:198-223 | corrected pipeline: with an election before processing, the elected representative is a configured candidate, the forwarded transaction is the submitted one with that representative's marker as signature, and the history holds exactly its event |

## Left out

- Rocket routing, the `index` greeting route and JSON (de)serialisation: HTTP plumbing. Only the state effects of the handlers are modelled.
- The `reqwest` forwarding to the peer node is network I/O. Its outcome is the boolean `forwarded`. The forwarded payload is an output of the model: `sent` of `Node.Ledger.AddBlock` and of `Node.CreateTransaction`.
- TLS configuration and the start-up in `main`: file paths and server launch.
- `Arc<Mutex<…>>` and the concurrent handlers: appends to the ledger are modelled as sequential calls on one `Ledger` object. Atomicity under concurrent appends is not stated.
- SHA-256, `hex::encode` and the `{:?}` Debug renderings are foreign library calls. They are parameters, and nothing is assumed of them beyond their types. In particular, no collision-freedom is assumed. This has three consequences. First, "verifying against a different location or time fails" is not proved. Second, that permuting events changes the digest is proved only for the hasher's input (`History.SwapChangesHashInput`), not for the digest. Third, the text is hashed as characters rather than as its UTF-8 bytes.
- `f64` amounts and coordinates are kept as opaque 64-bit patterns and never computed with. `DateTime<Utc>` is an opaque timestamp.
- `rand` and `Utc::now()`: the election is a nondeterministic choice, so the uniform distribution over candidates is not modelled; clock readings are parameters.
- The NTRU imports and `HashMap` are never used by the code.
- The `println!` logging has no functional effect.
- The `&'static str` results of `approve_transaction` are modelled as strings.

## Findings

| source | as written | input that shows it | evidently intended | confidence | as-written member | corrected member |
|---|---|---|---|---|---|---|
| global_main_chain/src/main.rs:199-201 | `create_transaction` builds a fresh `Consensus` and processes it without ever calling `elect_representative`. Every approval therefore fails, and the submitted transaction is returned and forwarded unapproved. | any submitted transaction with an empty signature, for instance one built by `Transaction::new` from `"A"` to `"B"` with location (1.0, 2.0), forwarded successfully: the response's signature is still empty | elect a representative from the configured candidates before processing, so the response carries `approved_by_<elected>` and its history event is recorded | medium, not executed | `Node.CreateTransaction`, `Node.SubmissionScenario` | `Node.CreateTransactionElected` |
