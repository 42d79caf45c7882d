/**
  The Proof-of-History sequencer: an append-only list of event strings and a digest of
  all events fed to one hasher in insertion order.
 */
module History {
  import opened Encoding
  import opened Records

  /** The text a hasher has been fed after `update` with each event in turn. */
  function Concat(events: seq<string>): (fed: string) {
    if events == [] then "" else Concat(events[..|events| - 1]) + events[|events| - 1]
  }

  class ProofOfHistory {
    var sequence: seq<string>

    /** `ProofOfHistory::new`: no events yet. */
    constructor ()
      ensures sequence == []
    {
      sequence := [];
    }

    /** `add_event`: exactly one event at the end, the earlier ones untouched. */
    method AddEvent(event: string)
      modifies this
      ensures sequence == old(sequence) + [event]
    {
      sequence := sequence + [event];
    }

    /** `generate_hash`: the digest of all events, concatenated in insertion order. */
    method GenerateHash(prim: Primitives) returns (digest: HexDigest)
      ensures digest == prim.sha256Hex(Concat(sequence))
    {
      var fed := "";
      for i := 0 to |sequence|
        invariant fed == Concat(sequence[..i])
      {
        assert sequence[..i + 1][..i] == sequence[..i];
        fed := fed + sequence[i];
      }
      assert sequence[..|sequence|] == sequence;
      digest := prim.sha256Hex(fed);
    }
  }

  /** Feeding two runs of events one after the other feeds their concatenations. */
  lemma {:induction false} ConcatAppend(a: seq<string>, b: seq<string>)
    ensures Concat(a + b) == Concat(a) + Concat(b)
  {
    if b == [] {
      assert a + b == a;
    } else {
      ConcatAppend(a, b[..|b| - 1]);
      assert (a + b)[..|a + b| - 1] == a + b[..|b| - 1];
    }
  }

  /**
    The digest sees only the concatenated text, so event boundaries are lost: `["ab"]` and
    `["a", "b"]` feed the hasher the same input.
   */
  lemma RegroupedHistoriesCollide()
    ensures Concat(["ab"]) == Concat(["a", "b"])
  {
  }

  predicate AllDigests(events: seq<string>) {
    forall i :: 0 <= i < |events| ==> |events[i]| == DIGEST_LENGTH
  }

  lemma {:induction false} ConcatOfDigestsLength(events: seq<string>)
    requires AllDigests(events)
    ensures |Concat(events)| == DIGEST_LENGTH * |events|
  {
    if events != [] {
      ConcatOfDigestsLength(events[..|events| - 1]);
    }
  }

  /**
    When every event is a digest of the fixed length — as every event the engine records
    is — the hasher's input determines the event list.
   */
  lemma {:induction false} ConcatOfDigestsInjective(a: seq<string>, b: seq<string>)
    requires AllDigests(a) && AllDigests(b)
    requires Concat(a) == Concat(b)
    ensures a == b
  {
    ConcatOfDigestsLength(a);
    ConcatOfDigestsLength(b);
    if a != [] {
      var a', b' := a[..|a| - 1], b[..|b| - 1];
      ConcatOfDigestsLength(a');
      ConcatOfDigestsLength(b');
      var cut := DIGEST_LENGTH * |a'|;
      assert Concat(a)[..cut] == Concat(a') && Concat(a)[cut..] == a[|a| - 1];
      assert Concat(b)[..cut] == Concat(b') && Concat(b)[cut..] == b[|b| - 1];
      ConcatOfDigestsInjective(a', b');
      assert a == a' + [a[|a| - 1]] && b == b' + [b[|b| - 1]];
    }
  }

  /** Over digest events the hasher's input is order-sensitive: swapping two distinct events changes it. */
  lemma {:induction false} SwapChangesHashInput(events: seq<string>, i: nat, j: nat)
    requires AllDigests(events)
    requires i < j < |events| && events[i] != events[j]
    ensures Concat(events[i := events[j]][j := events[i]]) != Concat(events)
  {
    var swapped := events[i := events[j]][j := events[i]];
    assert AllDigests(swapped) by {
      forall k | 0 <= k < |swapped| ensures |swapped[k]| == DIGEST_LENGTH {
        assert swapped[k] == events[k] || swapped[k] == events[i] || swapped[k] == events[j];
      }
    }
    assert swapped != events by {
      assert swapped[i] != events[i];
    }
    if Concat(swapped) == Concat(events) {
      ConcatOfDigestsInjective(swapped, events);
      assert false;
    }
  }
}
