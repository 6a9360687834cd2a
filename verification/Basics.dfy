// Vocabulary shared by every module.

module Basics {
  /** The slots of a transport's send queue. */
  const SEND_QUEUE := 256

  datatype Option<+T> = None | Some(value: T)

  /** The error codes that travel in ERROR frames and end streams. */
  datatype ErrorCode =
    | Internal | NotFound | Invalid | Protocol | Cancelled
    | Timeout | AuthDenied | SessionExpired | Busy | Unsupported

  /** Indices in increasing order. */
  predicate Increasing(ns: seq<int>) {
    forall j, k :: 0 <= j < k < |ns| ==> ns[j] < ns[k]
  }

  /** Indices into the rest of a list, as indices into the list. */
  function Later(rest: seq<int>): (from: seq<int>)
    ensures |from| == |rest| && forall k :: 0 <= k < |rest| ==> from[k] == rest[k] + 1
    ensures forall i :: i in from <==> i - 1 in rest
  {
    var from := seq(|rest|, k requires 0 <= k < |rest| => rest[k] + 1);
    assert forall i :: i in from <==> i - 1 in rest by {
      forall i | i - 1 in rest ensures i in from {
        var k :| 0 <= k < |rest| && rest[k] == i - 1;
        assert from[k] == i;
      }
    }
    from
  }

  lemma {:induction false} LaterIncreases(rest: seq<int>)
    requires Increasing(rest) && forall i :: i in rest ==> i >= 0
    ensures Increasing(Later(rest)) && Increasing([0] + Later(rest))
  {
    var from := Later(rest);
    forall k | 0 <= k < |from| ensures from[k] > 0 {
      assert from[k] in from;
    }
  }
}
