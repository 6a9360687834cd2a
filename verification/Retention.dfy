// The recovery queue of a session, as values: what sendDown keeps while no connection is
// bound, how its bytes are counted, when it overflows, and what a replay of it must contain.

module Retention {
  import opened Wire

  /** A frame as the server hands it around. Frames are passed by pointer; `uid` is that identity, numbered in emission
      order. */
  datatype Msg = Msg(uid: nat, frame: Frame)

  /** Types a disconnected session keeps. */
  predicate Retainable(ty: u8) {
    ty in {RESPONSE, PUBLISH, SUBACK, COMPLETE, ERROR}
  }

  function FrameSize(f: Frame): nat {
    HEADER_SIZE + META_LEN_SIZE + |f.meta| + |f.payload|
  }

  /** What a frame counts in the recovery queue is its size on the wire with a metadata length, sent or not; the types
      kept are the five that answer a client. */
  lemma {:induction false} FrameSizeIsWireSize(f: Frame)
    requires Fits(f)
    ensures FrameSize(f) == |Encode(f)| + if f.flags.hasMeta || |f.meta| > 0 then 0 else 2
    ensures Retainable(f.ty) <==> f.ty == 0x06 || f.ty == 0x07 || f.ty == 0x0A || f.ty == 0x0C || f.ty == 0x0E
  {
    Layout(f);
  }

  /** The recovery queue: frames grouped by stream, their byte count, and whether the session lost its right to
      resume. */
  datatype Queue = Queue(retained: map<u32, seq<Msg>>, bytes: int, overflowed: bool)

  const EMPTY_QUEUE := Queue(map[], 0, false)

  function Group(retained: map<u32, seq<Msg>>, sid: u32): seq<Msg> {
    if sid in retained then retained[sid] else []
  }

  /** sendDown without a connection. */
  function Retain(q: Queue, m: Msg, limit: int): Queue {
    if m.frame.ty == CREDIT || q.overflowed || !Retainable(m.frame.ty) then q
    else
      var bytes := q.bytes + FrameSize(m.frame);
      if bytes > limit then Queue(map[], 0, true)
      else Queue(q.retained[m.frame.sid := Group(q.retained, m.frame.sid) + [m]], bytes, false)
  }

  // ---- the queue as the list of what it accepted -----------------------------------------

  /** The messages of one stream, in order. */
  function Only(sid: u32, ms: seq<Msg>): seq<Msg> {
    if ms == [] then []
    else
      var m, rest := ms[|ms| - 1], Only(sid, ms[..|ms| - 1]);
      if m.frame.sid == sid then rest + [m] else rest
  }

  function Bytes(ms: seq<Msg>): nat {
    if ms == [] then 0 else Bytes(ms[..|ms| - 1]) + FrameSize(ms[|ms| - 1].frame)
  }

  /** The messages of a list that a disconnected session keeps. */
  function Keepable(ms: seq<Msg>): seq<Msg> {
    if ms == [] then []
    else
      var m, rest := ms[|ms| - 1], Keepable(ms[..|ms| - 1]);
      if Retainable(m.frame.ty) then rest + [m] else rest
  }

  /** The queue holds exactly `kept`, accepted in that order, and its accounts are right. */
  ghost predicate Holds(q: Queue, kept: seq<Msg>, limit: int) {
    && (forall sid: u32 :: Group(q.retained, sid) == Only(sid, kept))
    && q.bytes == Bytes(kept)
    && (limit >= 0 ==> q.bytes <= limit)
    && (q.overflowed ==> q.retained == map[] && kept == [])
  }

  lemma OnlySnoc(sid: u32, ms: seq<Msg>, m: Msg)
    ensures Only(sid, ms + [m]) == if m.frame.sid == sid then Only(sid, ms) + [m] else Only(sid, ms)
  {
    assert (ms + [m])[..|ms|] == ms;
  }

  lemma {:induction false} OnlyAppend(sid: u32, a: seq<Msg>, b: seq<Msg>)
    ensures Only(sid, a + b) == Only(sid, a) + Only(sid, b)
    decreases |b|
  {
    if b == [] {
      assert a + b == a;
    } else {
      var c, m := b[..|b| - 1], b[|b| - 1];
      OnlyAppend(sid, a, c);
      OnlySnoc(sid, a + c, m);
      assert a + b == a + c + [m];
    }
  }

  lemma {:induction false} OnlyMembers(sid: u32, ms: seq<Msg>)
    ensures forall m :: m in Only(sid, ms) <==> m in ms && m.frame.sid == sid
    decreases |ms|
  {
    if ms != [] {
      OnlyMembers(sid, ms[..|ms| - 1]);
      assert ms == ms[..|ms| - 1] + [ms[|ms| - 1]];
    }
  }

  lemma KeepableSnoc(ms: seq<Msg>, m: Msg)
    ensures Keepable(ms + [m]) == if Retainable(m.frame.ty) then Keepable(ms) + [m] else Keepable(ms)
  {
    assert (ms + [m])[..|ms|] == ms;
  }

  lemma {:induction false} KeepableAppend(a: seq<Msg>, b: seq<Msg>)
    ensures Keepable(a + b) == Keepable(a) + Keepable(b)
    decreases |b|
  {
    if b == [] {
      assert a + b == a;
    } else {
      var c, m := b[..|b| - 1], b[|b| - 1];
      KeepableAppend(a, c);
      KeepableSnoc(a + c, m);
      assert a + b == a + c + [m];
    }
  }

  lemma KeepablePrefix(a: seq<Msg>, b: seq<Msg>)
    requires a <= b
    ensures Keepable(a) <= Keepable(b)
  {
    KeepableAppend(a, b[|a|..]);
    assert b == a + b[|a|..];
  }

  lemma {:induction false} KeepableMembers(ms: seq<Msg>)
    ensures forall m :: m in Keepable(ms) <==> m in ms && Retainable(m.frame.ty)
    decreases |ms|
  {
    if ms != [] {
      KeepableMembers(ms[..|ms| - 1]);
      assert ms == ms[..|ms| - 1] + [ms[|ms| - 1]];
    }
  }

  lemma {:induction false} AllKeepable(ms: seq<Msg>)
    requires forall i :: 0 <= i < |ms| ==> Retainable(ms[i].frame.ty)
    ensures Keepable(ms) == ms && Passing(ms) == []
    decreases |ms|
  {
    if ms != [] {
      AllKeepable(ms[..|ms| - 1]);
      assert ms == ms[..|ms| - 1] + [ms[|ms| - 1]];
    }
  }

  lemma {:induction false} NoneKeepable(ms: seq<Msg>)
    requires forall i :: 0 <= i < |ms| ==> !Retainable(ms[i].frame.ty)
    ensures Keepable(ms) == [] && Passing(ms) == ms
    decreases |ms|
  {
    if ms != [] {
      NoneKeepable(ms[..|ms| - 1]);
      assert ms == ms[..|ms| - 1] + [ms[|ms| - 1]];
    }
  }

  /** The other messages of a list: those that only concern the connection they travel on. */
  function Passing(ms: seq<Msg>): seq<Msg> {
    if ms == [] then []
    else
      var m, rest := ms[|ms| - 1], Passing(ms[..|ms| - 1]);
      if Retainable(m.frame.ty) then rest else rest + [m]
  }

  lemma {:induction false} PassingAppend(a: seq<Msg>, b: seq<Msg>)
    ensures Passing(a + b) == Passing(a) + Passing(b)
    decreases |b|
  {
    if b == [] {
      assert a + b == a;
    } else {
      var c, m := b[..|b| - 1], b[|b| - 1];
      PassingAppend(a, c);
      assert a + b == a + c + [m] && (a + b)[..|a + c|] == a + c;
    }
  }

  /** A list is an interleaving of its keepable and its passing messages. */
  lemma {:induction false} TwoParts(ms: seq<Msg>)
    ensures |ms| == |Keepable(ms)| + |Passing(ms)|
    ensures forall m :: m in ms <==> m in Keepable(ms) || m in Passing(ms)
    ensures forall m :: m in Passing(ms) ==> !Retainable(m.frame.ty)
    decreases |ms|
  {
    if ms != [] {
      TwoParts(ms[..|ms| - 1]);
      assert ms == ms[..|ms| - 1] + [ms[|ms| - 1]];
    }
  }

  /** What becomes of the accepted list when one more frame is sent down. */
  function Accept(q: Queue, kept: seq<Msg>, m: Msg, limit: int): seq<Msg> {
    if Retain(q, m, limit).overflowed then [] else if Retainable(m.frame.ty) then kept + [m] else kept
  }

  /** Retention accounting: the byte count is the sum over the kept frames, the limit is respected,
      and an overflow empties the queue for good. */
  lemma RetainHolds(q: Queue, kept: seq<Msg>, m: Msg, limit: int)
    requires Holds(q, kept, limit)
    ensures Holds(Retain(q, m, limit), Accept(q, kept, m, limit), limit)
    ensures q.overflowed ==> Retain(q, m, limit) == q
  {
    var r := Retain(q, m, limit);
    if Retainable(m.frame.ty) && !q.overflowed && !r.overflowed {
      forall sid: u32 ensures Group(r.retained, sid) == Only(sid, kept + [m]) {
        OnlySnoc(sid, kept, m);
      }
      assert (kept + [m])[..|kept|] == kept;
    }
  }

  // ---- replay -----------------------------------------------------------------------------

  /** A replay sends every retained frame, each stream in its order; the order among streams is the map's whim. */
  ghost predicate IsReplay(replay: seq<Msg>, q: Queue) {
    forall sid: u32 :: Only(sid, replay) == Group(q.retained, sid)
  }

  lemma {:induction false} CountOnly(ms: seq<Msg>, m: Msg)
    ensures multiset(ms)[m] == multiset(Only(m.frame.sid, ms))[m]
    decreases |ms|
  {
    if ms != [] {
      CountOnly(ms[..|ms| - 1], m);
      assert ms == ms[..|ms| - 1] + [ms[|ms| - 1]];
    }
  }

  /** Lists with the same streams are permutations of each other. */
  lemma SameStreamsSameFrames(a: seq<Msg>, b: seq<Msg>)
    requires forall sid: u32 :: Only(sid, a) == Only(sid, b)
    ensures multiset(a) == multiset(b) && |a| == |b|
  {
    forall m: Msg ensures multiset(a)[m] == multiset(b)[m] {
      CountOnly(a, m);
      CountOnly(b, m);
    }
    assert multiset(a) == multiset(b);
    assert |a| == |multiset(a)| && |b| == |multiset(b)|;
  }

  lemma PartHasFewer(a: seq<Msg>, b: seq<Msg>, m: Msg)
    requires Only(m.frame.sid, a) <= Only(m.frame.sid, b)
    ensures multiset(a)[m] <= multiset(b)[m]
  {
    var p, q := Only(m.frame.sid, a), Only(m.frame.sid, b);
    CountOnly(a, m);
    CountOnly(b, m);
    assert q == p + q[|p|..];
  }

  lemma FewerMeansShorter(a: multiset<Msg>, b: multiset<Msg>)
    requires a <= b
    ensures |a| <= |b|
  {
    assert b == a + (b - a);
  }

  /** A list that holds a beginning of each stream of another is no longer than it. */
  lemma {:induction false} PartIsNoLonger(a: seq<Msg>, b: seq<Msg>)
    requires forall sid: u32 :: Only(sid, a) <= Only(sid, b)
    ensures |a| <= |b|
  {
    forall m: Msg ensures multiset(a)[m] <= multiset(b)[m] {
      PartHasFewer(a, b, m);
    }
    assert multiset(a) <= multiset(b);
    FewerMeansShorter(multiset(a), multiset(b));
  }

  lemma {:induction false} OnlyOfOne(sid: u32, other: u32, ms: seq<Msg>)
    requires forall m :: m in ms ==> m.frame.sid == sid
    ensures Only(other, ms) == if other == sid then ms else []
    decreases |ms|
  {
    if ms != [] {
      OnlyOfOne(sid, other, ms[..|ms| - 1]);
      assert ms == ms[..|ms| - 1] + [ms[|ms| - 1]];
    }
  }

  /** A complete replay is a permutation of what was kept. */
  lemma {:induction false} ReplayIsComplete(replay: seq<Msg>, q: Queue, kept: seq<Msg>, limit: int)
    requires Holds(q, kept, limit) && IsReplay(replay, q)
    ensures multiset(replay) == multiset(kept) && |replay| == |kept|
    ensures forall sid: u32 :: Only(sid, replay) == Only(sid, kept)
  {
    SameStreamsSameFrames(replay, kept);
  }
}
