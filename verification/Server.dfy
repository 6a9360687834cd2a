// The server's side of a session that outlives its connections: where downward frames go, how
// a connection is bound and unbound, and how the session ends. A connection is represented by
// its endpoint.

module Sessions {
  import opened Basics
  import opened Wire
  import opened Retention
  import opened Endpoints
  import Flows

  class ServerSession {
    const limit: int
    const retention: int
    var conn: Endpoint?
    var lastConn: Endpoint?
    var retained: map<u32, seq<Msg>>
    var bytes: int
    var overflowed: bool
    var timer: bool
    /** What the recovery queue accepted since it was last emptied, in that order. */
    ghost var kept: seq<Msg>

    function Recovery(): Queue
      reads this
    {
      Queue(retained, bytes, overflowed)
    }

    /** The accounts are right, and only frames of the kept types were accepted; a bound session retains nothing and its
        expiry timer is off. */
    ghost predicate Valid()
      reads this
    {
      && Holds(Recovery(), kept, limit)
      && AllRetainable(kept)
      && (conn != null ==> lastConn == conn && kept == [] && retained == map[] && !timer)
    }

    /** The connection whose endpoint holds the session's streams. */
    function Source(): Endpoint?
      reads this
    {
      if conn != null then conn else lastConn
    }

    constructor (limit: int, retention: int)
      ensures Valid() && this.limit == limit && this.retention == retention
      ensures conn == null && lastConn == null && !timer && Recovery() == EMPTY_QUEUE && kept == []
    {
      this.limit, this.retention := limit, retention;
      conn, lastConn, retained, bytes, overflowed, timer, kept := null, null, map[], 0, false, false, [];
    }

    /** A bound session hands the frame to its connection, dead or alive, and retains nothing; an unbound one retains
        it. */
    method SendDown(ctxDone: bool, m: Msg) returns (r: SendResult)
      requires Valid()
      modifies this`retained, this`bytes, this`overflowed, this`kept, (if conn != null then {conn.tr} else {})`queue
      ensures Valid()
      ensures conn != null ==>
        (conn.tr.queue, r) == SendSpec(conn.tr.dead, old(conn.tr.queue), ctxDone, m)
        && Recovery() == old(Recovery())
      ensures conn == null ==> r == Queued && Recovery() == Retain(old(Recovery()), m, limit)
      ensures conn != null ==>
        && retained == old(retained) && bytes == old(bytes) && overflowed == old(overflowed)
        && (r == CtxErr <==> ctxDone)
        && (r == ConnClosed <==> !ctxDone && conn.tr.dead)
        && (r == Queued <==> !ctxDone && !conn.tr.dead && |old(conn.tr.queue)| < 256)
        && conn.tr.queue == if r == Queued then old(conn.tr.queue) + [m] else old(conn.tr.queue)
      ensures conn == null && (m.frame.ty !in {RESPONSE, PUBLISH, SUBACK, COMPLETE, ERROR} || old(overflowed)) ==>
        retained == old(retained) && bytes == old(bytes) && overflowed == old(overflowed)
      ensures conn == null && m.frame.ty in {RESPONSE, PUBLISH, SUBACK, COMPLETE, ERROR} && !old(overflowed) ==>
        var total := old(bytes) + 16 + |m.frame.meta| + |m.frame.payload|;
        && (overflowed <==> total > limit)
        && bytes == (if overflowed then 0 else total)
        && retained == if overflowed then map[]
             else old(retained)[m.frame.sid :=
               (if m.frame.sid in old(retained) then old(retained)[m.frame.sid] else []) + [m]]
      ensures kept == if conn != null then old(kept) else Accept(old(Recovery()), old(kept), m, limit)
      ensures kept == if conn != null then old(kept)
                      else if overflowed then []
                      else if m.frame.ty in {RESPONSE, PUBLISH, SUBACK, COMPLETE, ERROR} then old(kept) + [m]
                      else old(kept)
    {
      if conn != null {
        r := conn.tr.SendCtx(ctxDone, m);
        return;
      }
      RetainHolds(Recovery(), kept, m, limit);
      kept := Accept(Recovery(), kept, m, limit);
      r := Queued;
      if m.frame.ty == CREDIT || overflowed { return; }
      if m.frame.ty in {RESPONSE, PUBLISH, SUBACK, COMPLETE, ERROR} {
        retained := retained[m.frame.sid := (if m.frame.sid in retained then retained[m.frame.sid] else []) + [m]];
        bytes := bytes + FrameSize(m.frame);
        if bytes > limit {
          overflowed, retained, bytes := true, map[], 0;
        }
      }
    }

    /** The replay loop of bind, into a transport whose write loop is not running yet. `meanwhile` lists what happens
        before each frame of it; `taken` is what the queue took during the loop. The loop sticks, holding the session,
        exactly when the transport is alive and its queue has no room for the others' frames and all that was kept.
        Otherwise every retained frame has been handed over, each stream in order; a transport that dies took a
        beginning of them, and one that was dead took none. */
    method Replay(tr: Transport, meanwhile: seq<Meanwhile>)
      returns (stuck: bool, ghost replay: seq<Msg>, ghost taken: seq<Msg>)
      requires Holds(Recovery(), kept, limit) && AllRetainable(kept) && |tr.queue| <= SEND_QUEUE
      requires forall k :: 0 <= k < |meanwhile| ==> NoneRetainable(meanwhile[k].others)
      modifies this`retained, this`bytes, this`kept, tr`queue, tr`dead, tr`connected, tr.credit
      ensures tr.queue == old(tr.queue) + taken && (old(tr.dead) ==> tr.dead && taken == [])
      ensures meanwhile == [] ==> Passing(taken) == [] && tr.dead == old(tr.dead)
      ensures stuck <==> !tr.dead && |old(tr.queue)| + |Passing(taken)| + |old(kept)| > 256
      ensures stuck ==> |tr.queue| == 256 && Keepable(taken) == replay
      ensures stuck ==>
        forall sid: u32 :: Only(sid, replay) <= if sid in old(retained) then old(retained)[sid] else []
      ensures !stuck ==> IsReplay(replay, old(Recovery())) && Keepable(taken) <= replay
      ensures !stuck ==>
        forall sid: u32 :: Only(sid, replay) == if sid in old(retained) then old(retained)[sid] else []
      ensures !stuck && !tr.dead ==> Keepable(taken) == replay
      ensures !stuck ==> retained == map[] && bytes == 0 && kept == []
    {
      ghost var start, all, accepted := tr.queue, retained, kept;
      replay, taken := [], [];
      var sent: nat := 0;
      while retained != map[]
        invariant Replayed(all, retained, replay)
        invariant Progress(tr.dead, tr.queue, start, taken, replay) && (old(tr.dead) ==> tr.dead && taken == [])
        invariant meanwhile == [] ==> Passing(taken) == [] && tr.dead == old(tr.dead)
        decreases retained.Keys
      {
        var sid :| sid in retained;
        var frames := retained[sid];
        OneMore(all, retained, replay, accepted, sid);
        ghost var n, more;
        stuck, n, more := ReplayStream(tr, frames, meanwhile, sent, start, taken, replay);
        taken := more;
        if stuck {
          PartReplayed(all, retained, replay, frames, n, sid);
          replay := replay + frames[..n];
          TwoParts(taken);
          return;
        }
        replay, sent := replay + frames, sent + |frames|;
        retained := retained - {sid};
      }
      AllReplayed(all, replay, accepted);
      TwoParts(taken);
      stuck, bytes, kept := false, 0, [];
    }

    /** The first half of bind: the bound connection, if another, dies; the session's unfinished client-initiated
        streams move. */
    method TakeOver(sc: Endpoint) returns (ghost moved: set<u32>)
      requires Valid() && sc.Valid() && (Source() != null ==> Source().Valid())
      requires conn != null && conn != sc ==> conn.tr != sc.tr
      modifies this`conn, this`lastConn, this`timer, sc`streams
      modifies Replaced()`dead, Replaced()`connected, if conn != null && conn.tr.credit != null then {conn.tr.credit}
        else {}
      modifies (if Source() != null then Source().streams.Values else {})`ep
      ensures conn == sc && lastConn == sc && !timer && sc.Valid()
      ensures old(conn) != null && old(conn) != sc ==> old(conn).tr.dead
      ensures sc.tr.dead == old(sc.tr.dead)
      ensures forall id :: id in moved <==>
        && old(lastConn) != null && old(lastConn) != sc
        && id in old(lastConn.streams) && id % 2 == 1 && !old(lastConn.streams[id].done)
      ensures forall id :: id in moved ==>
        id in sc.streams && sc.streams[id] == old(lastConn.streams[id]) && sc.streams[id].ep == sc
      ensures forall id :: id in sc.streams <==> id in moved || id in old(sc.streams)
      ensures forall id :: id in sc.streams && id !in moved ==> sc.streams[id] == old(sc.streams[id])
      ensures old(lastConn) != null ==> forall id :: id in old(lastConn.streams) && id !in moved ==>
        old(lastConn.streams[id]).ep == old(lastConn.streams[id].ep)
    {
      moved := MoveStreams(Source(), sc);
      if conn != null && conn != sc {
        var _ := conn.tr.Kill();
      }
      conn, lastConn, timer := sc, sc, false;
    }

    /** bind. `moved` are the numbers of the streams that move. Unless its replay sticks, the session is bound to the
        new connection and retains nothing. */
    method Bind(sc: Endpoint, meanwhile: seq<Meanwhile>)
      returns (stuck: bool, ghost moved: set<u32>, ghost replay: seq<Msg>, ghost taken: seq<Msg>)
      requires Valid() && sc.Valid() && (Source() != null ==> Source().Valid())
      requires conn != null && conn != sc ==> conn.tr != sc.tr
      requires |sc.tr.queue| <= SEND_QUEUE
      requires forall k :: 0 <= k < |meanwhile| ==> NoneRetainable(meanwhile[k].others)
      modifies this, sc`streams, sc.tr`queue, sc.tr`dead, sc.tr`connected, sc.tr.credit
      modifies Replaced()`dead, Replaced()`connected, if conn != null && conn.tr.credit != null then {conn.tr.credit}
        else {}
      modifies (if Source() != null then Source().streams.Values else {})`ep
      ensures conn == sc && lastConn == sc && sc.Valid() && overflowed == old(overflowed)
      ensures old(conn) != null && old(conn) != sc ==> old(conn).tr.dead
      ensures forall id :: id in moved <==>
        && old(lastConn) != null && old(lastConn) != sc
        && id in old(lastConn.streams) && id % 2 == 1 && !old(lastConn.streams[id].done)
      ensures forall id :: id in moved ==>
        id in sc.streams && sc.streams[id] == old(lastConn.streams[id]) && sc.streams[id].ep == sc
      ensures forall id :: id in sc.streams <==> id in moved || id in old(sc.streams)
      ensures forall id :: id in sc.streams && id !in moved ==> sc.streams[id] == old(sc.streams[id])
      ensures old(lastConn) != null ==> forall id :: id in old(lastConn.streams) && id !in moved ==>
        old(lastConn.streams[id]).ep == old(lastConn.streams[id].ep)
      ensures sc.tr.queue == old(sc.tr.queue) + taken && (old(sc.tr.dead) ==> sc.tr.dead && taken == [])
      ensures meanwhile == [] ==> Passing(taken) == [] && sc.tr.dead == old(sc.tr.dead)
      ensures stuck <==> !sc.tr.dead && |old(sc.tr.queue)| + |Passing(taken)| + |old(kept)| > 256
      ensures !stuck ==> Valid() && Keepable(taken) <= replay
      ensures !stuck ==>
        forall sid: u32 :: Only(sid, replay) == if sid in old(retained) then old(retained)[sid] else []
      ensures !stuck && !sc.tr.dead ==> Keepable(taken) == replay
      ensures stuck ==> |sc.tr.queue| == 256 && Keepable(taken) == replay
      ensures stuck ==>
        forall sid: u32 :: Only(sid, replay) <= if sid in old(retained) then old(retained)[sid] else []
    {
      moved := TakeOver(sc);
      stuck, replay, taken := Replay(sc.tr, meanwhile);
    }

    /** The transport of the connection a bind may replace. */
    ghost function Replaced(): set<Transport>
      reads this
    {
      if conn != null then {conn.tr} else {}
    }

    /** unbind acts only for the bound connection; `drop`: retention is disabled, so the session is to leave the store
        at once. */
    method Unbind(sc: Endpoint) returns (drop: bool)
      requires Valid()
      modifies this`conn, this`timer
      ensures Valid() && drop == (old(conn) == sc && retention < 0)
      ensures old(conn) == sc ==> conn == null && lastConn == sc && timer == (retention >= 0)
      ensures old(conn) != sc ==> conn == old(conn) && timer == old(timer)
    {
      drop := false;
      if conn != sc { return; }
      conn := null;
      if retention < 0 { return true; }
      timer := true;
    }

    /** terminate: every unfinished client-initiated stream of the session fails, and no other. */
    method Terminate()
      requires Valid() && (Source() != null ==> Source().Owns(1))
      modifies this`timer, (if Source() != null then {Source()} else {})`streams
      modifies (if Source() != null then Source().streams.Values else {})`done,
        (if Source() != null then Source().streams.Values else {})`err
      ensures Valid() && !timer
      ensures lastConn != null ==> forall id :: id in lastConn.streams <==> id in old(lastConn.streams) && id % 2 == 0
      ensures lastConn != null ==>
        forall id :: id in lastConn.streams ==> lastConn.streams[id] == old(lastConn.streams[id])
      ensures lastConn != null ==> forall id :: id in old(lastConn.streams) ==>
        var g := old(lastConn.streams[id]);
        if id % 2 == 1 then g.done && g.err == Some(SessionExpired) else g.done == old(g.done) && g.err == old(g.err)
    {
      timer := false;
      var src := Source();
      if src != null {
        FailFlows(src, 1, SessionExpired);
      }
    }

    /** onDead: the connection is unbound, and the streams the server had opened on it fail. */
    method OnDead(sc: Endpoint) returns (drop: bool)
      requires Valid() && sc.Owns(0)
      modifies this`conn, this`timer, sc`streams, sc.streams.Values`done, sc.streams.Values`err
      ensures Valid() && drop == (old(conn) == sc && retention < 0)
      ensures conn == if old(conn) == sc then null else old(conn)
      ensures forall id :: id in sc.streams <==> id in old(sc.streams) && id % 2 == 1
      ensures forall id :: id in sc.streams ==> sc.streams[id] == old(sc.streams[id])
      ensures forall id :: id in old(sc.streams) ==>
        var g := old(sc.streams[id]);
        if id % 2 == 0 then g.done && g.err == Some(Internal) else g.done == old(g.done) && g.err == old(g.err)
    {
      drop := Unbind(sc);
      FailFlows(sc, 0, Internal);
    }
  }

  /** The part of a resume that both ends share: the unfinished client-initiated streams move, unless the endpoint is
      the one that holds them. */
  method MoveStreams(src: Endpoint?, sc: Endpoint) returns (ghost moved: set<u32>)
    requires sc.Valid() && (src != null ==> src.Valid())
    modifies sc`streams, (if src != null then src.streams.Values else {})`ep
    ensures sc.Valid()
    ensures forall id :: id in moved <==>
      && src != null && src != sc && id in src.streams && id % 2 == 1 && !src.streams[id].done
    ensures forall id :: id in moved ==>
      id in sc.streams && sc.streams[id] == src.streams[id] && sc.streams[id].ep == sc
    ensures forall id :: id in sc.streams <==> id in moved || id in old(sc.streams)
    ensures forall id :: id in sc.streams && id !in moved ==> sc.streams[id] == old(sc.streams[id])
    ensures src != null ==> forall id :: id in src.streams && id !in moved ==>
      src.streams[id].ep == old(src.streams[id].ep)
  {
    moved := {};
    if src != null && src != sc {
      moved := set id | id in src.streams && id % 2 == 1 && !src.streams[id].done;
      MigrateFlows(src, sc);
    }
  }

  // ---- laws over several calls -------------------------------------------------------------------

  /** A stream of a session that resumes is reached through the new connection: a CANCEL the read loop hands to it
      there ends it as cancelled, whether or not the replay of the bind is stuck. */
  method ResumeThenCancel(ss: ServerSession, sc: Endpoint, meanwhile: seq<Meanwhile>, flw: Flow, f: Frame)
    requires ss.Valid() && sc.Valid() && ss.lastConn != null && ss.lastConn != sc && ss.lastConn.Valid()
    requires ss.conn != null ==> ss.conn.tr != sc.tr
    requires |sc.tr.queue| <= 256 && forall k :: 0 <= k < |meanwhile| ==> NoneRetainable(meanwhile[k].others)
    requires flw.id in ss.lastConn.streams && ss.lastConn.streams[flw.id] == flw && flw.id % 2 == 1 && !flw.done
    requires f.ty == CANCEL && f.sid == flw.id
    modifies ss, sc`streams, sc.tr`queue, sc.tr`dead, sc.tr`connected, sc.tr.credit
    modifies ss.Replaced()`dead, ss.Replaced()`connected,
      if ss.conn != null && ss.conn.tr.credit != null then {ss.conn.tr.credit} else {}
    modifies ss.lastConn.streams.Values
    ensures flw.done && flw.err == Some(Cancelled) && flw.id !in sc.streams
  {
    var _, _, _, _ := ss.Bind(sc, meanwhile);
    var _, _, _ := sc.HandleFrame(f, None, Internal, false, None);
  }

  /** A session that ends after it has resumed leaves no client-initiated stream of the time before unfinished:
      whichever stream it was, it ends as expired. */
  method ResumeThenTerminate(ss: ServerSession, sc: Endpoint, ghost flw: Flow) returns (stuck: bool)
    requires ss.Valid() && sc.Valid() && ss.lastConn != null && ss.lastConn != sc && ss.lastConn.Valid()
    requires ss.conn != null ==> ss.conn.tr != sc.tr
    requires |sc.tr.queue| <= 256
    requires flw.id in ss.lastConn.streams && ss.lastConn.streams[flw.id] == flw && flw.id % 2 == 1 && !flw.done
    modifies ss, sc`streams, sc.streams.Values, sc.tr`queue, sc.tr`dead, sc.tr`connected, sc.tr.credit
    modifies ss.Replaced()`dead, ss.Replaced()`connected,
      if ss.conn != null && ss.conn.tr.credit != null then {ss.conn.tr.credit} else {}
    modifies ss.lastConn.streams.Values
    ensures !stuck ==> flw.done && flw.err == Some(SessionExpired) && flw.id !in sc.streams
  {
    ghost var moved, replay, taken;
    ghost var before, here := ss.lastConn.streams, sc.streams;
    stuck, moved, replay, taken := ss.Bind(sc, []);
    if !stuck {
      assert flw.id in moved && sc.streams[flw.id] == flw;
      assert sc.streams.Values <= before.Values + here.Values by {
        forall g | g in sc.streams.Values ensures g in before.Values + here.Values {
          var id :| id in sc.streams && sc.streams[id] == g;
          assert g == if id in moved then before[id] else here[id];
        }
      }
      ss.Terminate();
    }
  }

  predicate AllRetainable(ms: seq<Msg>) {
    forall m :: m in ms ==> Retainable(m.frame.ty)
  }

  /** Frames that others send straight to a connection are never of a kept type. */
  predicate NoneRetainable(ms: seq<Msg>) {
    forall m :: m in ms ==> !Retainable(m.frame.ty)
  }

  /** Others send straight to the connection; those that find the queue full wait. */
  method Crowd(tr: Transport, ms: seq<Msg>) returns (joined: seq<Msg>)
    requires |tr.queue| <= SEND_QUEUE && NoneRetainable(ms)
    modifies tr`queue
    ensures tr.queue == old(tr.queue) + joined && |tr.queue| <= SEND_QUEUE && NoneRetainable(joined)
    ensures tr.dead ==> joined == []
    ensures joined <= ms && (joined < ms ==> tr.dead || |tr.queue| == SEND_QUEUE)
  {
    joined := [];
    var i := 0;
    while i < |ms|
      invariant i <= |ms| && joined <= ms && tr.queue == old(tr.queue) + joined && |tr.queue| <= SEND_QUEUE
      invariant if tr.dead then joined == [] else |tr.queue| < SEND_QUEUE ==> joined == ms[..i]
    {
      var r := tr.SendCtx(false, ms[i]);
      if r == Queued {
        assert ms[..i + 1] == ms[..i] + [ms[i]];
        joined := joined + [ms[i]];
      }
      i := i + 1;
    }
  }

  /** What happens before a frame is replayed: others try to send theirs straight to the connection, and it may die. */
  datatype Meanwhile = Meanwhile(others: seq<Msg>, dies: bool)

  /** One frame of a replay, after what happens before it. */
  method ReplayFrame(tr: Transport, m: Msg, before: Meanwhile, ghost start: seq<Msg>, ghost taken: seq<Msg>,
        ghost replay: seq<Msg>)
    returns (stuck: bool, ghost more: seq<Msg>)
    requires Progress(tr.dead, tr.queue, start, taken, replay)
    requires Retainable(m.frame.ty) && NoneRetainable(before.others)
    modifies tr`queue, tr`dead, tr`connected, tr.credit
    ensures Progress(tr.dead, tr.queue, start, more, if stuck then replay else replay + [m])
    ensures stuck ==> !tr.dead && |tr.queue| == SEND_QUEUE
    ensures old(tr.dead) ==> tr.dead && more == taken
    ensures before == CALM ==> Passing(more) == Passing(taken) && tr.dead == old(tr.dead)
  {
    var joined := Crowd(tr, before.others);
    more := taken + joined;
    ProgressJoined(tr.dead, tr.queue, start, taken, replay, joined);
    if before.dies {
      var _ := tr.Kill();
    }
    ghost var queue := tr.queue;
    var r := tr.SendCtx(false, m);
    stuck := r == Parked;
    ProgressOn(queue, start, more, replay, m);
    if r == Queued {
      more := more + [m];
    }
  }

  lemma {:induction false} ProgressJoined(dead: bool, queue: seq<Msg>, start: seq<Msg>, taken: seq<Msg>,
        replay: seq<Msg>, joined: seq<Msg>)
    requires Keepable(taken) <= replay && (!dead ==> Keepable(taken) == replay)
    requires queue == start + taken + joined && |queue| <= SEND_QUEUE && NoneRetainable(joined)
    ensures Progress(dead, queue, start, taken + joined, replay) && Passing(taken + joined) == Passing(taken) + joined
  {
    Joined(taken, joined);
    assert start + taken + joined == start + (taken + joined);
  }

  /** One more frame: queued by a live transport with room, refused by a dead one. */
  lemma {:induction false} ProgressOn(queue: seq<Msg>, start: seq<Msg>, taken: seq<Msg>, replay: seq<Msg>, m: Msg)
    requires Progress(true, queue, start, taken, replay) && Retainable(m.frame.ty)
    ensures Progress(true, queue, start, taken, replay + [m])
    ensures Passing(taken + [m]) == Passing(taken)
    ensures Keepable(taken) == replay && |queue| < SEND_QUEUE ==>
      Progress(false, queue + [m], start, taken + [m], replay + [m])
  {
    OneSent(taken, m);
    assert queue + [m] == start + (taken + [m]);
  }

  /** Nothing happens. */
  const CALM := Meanwhile([], false)

  /** One stream's part of a replay; `from` frames have been replayed before. */
  method ReplayStream(tr: Transport, frames: seq<Msg>, meanwhile: seq<Meanwhile>, from: nat,
                      ghost start: seq<Msg>, ghost taken: seq<Msg>, ghost replay: seq<Msg>)
    returns (stuck: bool, ghost n: nat, ghost more: seq<Msg>)
    requires Progress(tr.dead, tr.queue, start, taken, replay) && AllRetainable(frames)
    requires forall k :: 0 <= k < |meanwhile| ==> NoneRetainable(meanwhile[k].others)
    modifies tr`queue, tr`dead, tr`connected, tr.credit
    ensures n <= |frames| && (stuck <==> n < |frames|) && Progress(tr.dead, tr.queue, start, more, replay + frames[..n])
    ensures stuck ==> !tr.dead && |tr.queue| == SEND_QUEUE
    ensures old(tr.dead) ==> tr.dead && more == taken
    ensures meanwhile == [] ==> Passing(more) == Passing(taken) && tr.dead == old(tr.dead)
  {
    var i := 0;
    stuck, more := false, taken;
    assert replay + frames[..0] == replay;
    while i < |frames|
      invariant i <= |frames| && Progress(tr.dead, tr.queue, start, more, replay + frames[..i])
      invariant old(tr.dead) ==> tr.dead && more == taken
      invariant meanwhile == [] ==> Passing(more) == Passing(taken) && tr.dead == old(tr.dead)
    {
      var before := if from + i < |meanwhile| then meanwhile[from + i] else CALM;
      stuck, more := ReplayFrame(tr, frames[i], before, start, more, replay + frames[..i]);
      if stuck {
        n := i;
        return;
      }
      assert replay + frames[..i + 1] == replay + frames[..i] + [frames[i]];
      i := i + 1;
    }
    n := |frames|;
  }

  /** What a replay and its company have put into the queue so far: a beginning of the replay, all of it while the
      transport lives, and frames of others. */
  ghost predicate Progress(dead: bool, queue: seq<Msg>, start: seq<Msg>, taken: seq<Msg>, replay: seq<Msg>) {
    && queue == start + taken && |queue| <= SEND_QUEUE
    && Keepable(taken) <= replay && (!dead ==> Keepable(taken) == replay)
  }

  lemma {:induction false} Joined(taken: seq<Msg>, joined: seq<Msg>)
    requires NoneRetainable(joined)
    ensures Keepable(taken + joined) == Keepable(taken) && Passing(taken + joined) == Passing(taken) + joined
  {
    NoneKeepable(joined);
    KeepableAppend(taken, joined);
    PassingAppend(taken, joined);
  }

  lemma {:induction false} OneSent(taken: seq<Msg>, m: Msg)
    requires Retainable(m.frame.ty)
    ensures Keepable(taken + [m]) == Keepable(taken) + [m] && Passing(taken + [m]) == Passing(taken)
  {
    KeepableSnoc(taken, m);
    assert (taken + [m])[..|taken|] == taken;
  }

  /** The replay so far and what is left of the queue make up each stream. */
  ghost predicate Replayed(all: map<u32, seq<Msg>>, left: map<u32, seq<Msg>>, replay: seq<Msg>) {
    forall sid: u32 :: Only(sid, replay) + Group(left, sid) == Group(all, sid)
  }

  lemma {:induction false} OneMoreAt(s: u32, left: map<u32, seq<Msg>>, replay: seq<Msg>, sid: u32)
    requires sid in left && forall m :: m in left[sid] ==> m.frame.sid == sid
    ensures Only(s, replay + left[sid]) + Group(left - {sid}, s) == Only(s, replay) + Group(left, s)
  {
    OnlyAppend(s, replay, left[sid]);
    OnlyOfOne(sid, s, left[sid]);
  }

  lemma {:induction false} OneMore(all: map<u32, seq<Msg>>, left: map<u32, seq<Msg>>, replay: seq<Msg>,
        kept: seq<Msg>, sid: u32)
    requires sid in left && Replayed(all, left, replay)
    requires forall s: u32 :: Group(all, s) == Only(s, kept)
    ensures Replayed(all, left - {sid}, replay + left[sid])
    ensures |replay| + |left[sid]| <= |kept|
    ensures forall m :: m in left[sid] ==> m in kept
  {
    assert forall m :: m in left[sid] ==> m.frame.sid == sid && m in kept by {
      OnlyMembers(sid, kept);
      assert Only(sid, kept) == Only(sid, replay) + left[sid];
    }
    var more := replay + left[sid];
    forall s: u32 ensures Only(s, more) + Group(left - {sid}, s) == Group(all, s) {
      OneMoreAt(s, left, replay, sid);
    }
    forall s: u32 ensures Only(s, more) <= Only(s, kept) {
      assert Only(s, more) + Group(left - {sid}, s) == Only(s, kept);
    }
    PartIsNoLonger(more, kept);
  }

  lemma {:induction false} PartReplayedAt(s: u32, before: seq<Msg>, frames: seq<Msg>, i: nat, left: seq<Msg>,
        whole: seq<Msg>)
    requires i <= |frames| && Only(s, before + frames) + left == whole
    ensures Only(s, before + frames[..i]) <= whole
  {
    assert before + frames == (before + frames[..i]) + frames[i..];
    OnlyAppend(s, before + frames[..i], frames[i..]);
  }

  lemma {:induction false} PartReplayed(all: map<u32, seq<Msg>>, left: map<u32, seq<Msg>>, before: seq<Msg>,
        frames: seq<Msg>, i: nat, sid: u32)
    requires i <= |frames| && Replayed(all, left - {sid}, before + frames)
    ensures forall s: u32 :: Only(s, before + frames[..i]) <= Group(all, s)
  {
    forall s: u32 ensures Only(s, before + frames[..i]) <= Group(all, s) {
      PartReplayedAt(s, before, frames, i, Group(left - {sid}, s), Group(all, s));
    }
  }

  lemma {:induction false} AllReplayed(all: map<u32, seq<Msg>>, replay: seq<Msg>, kept: seq<Msg>)
    requires Replayed(all, map[], replay)
    requires forall s: u32 :: Group(all, s) == Only(s, kept)
    ensures |replay| == |kept|
  {
    SameStreamsSameFrames(replay, kept);
  }
}
