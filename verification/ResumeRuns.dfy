// Runs in which resume does less than one might expect: an answer refused for good, a replay that
// is overtaken, a request that is lost, and a session that jams.

module ResumeRuns {
  import opened Basics
  import opened Wire
  import opened Retention
  import opened Resume
  import opened ResumeServer
  import opened ResumeOrder
  import opened ResumeFate
  import opened ResumeLoss
  import opened ResumeStreams
  import Flows
  import Ids

  // ---- a frame that is refused for good ---------------------------------------------------------

  const CALL := Plain(REQUEST, 1, [])
  const ANSWER := Plain(RESPONSE, 1, [])

  /** At-least-once fails: a client has opened a stream, its connection dies at the server, and before the session is
      unbound the handler answers. The answer is rejected and not retained; whatever happens afterwards, it never enters
      a queue, while the client's stream still waits for it. */
  lemma {:induction false} AnswerRefused(limit: int) returns (st: State)
    ensures Reachable(st, limit) && Pending(st.cli.flows, 1) && Unfinished(st.streams.flows, 1)
    ensures |st.rec.log| == 1 && st.rec.log[0].frame == ANSWER && 0 in st.rec.rejected
    ensures forall later :: Runnable(st, later, limit) ==> 0 !in Placed(Run(st, later, limit).downs)
  {
    st := OneRequest(limit);
    ReachNext(st, SrvDie(0), limit);
    st := Next(st, SrvDie(0), limit);
    ReachNext(st, SendDown(ANSWER, false), limit);
    st := Next(st, SendDown(ANSWER, false), limit);
    ReachableIsAccountable(st, limit);
    forall later | Runnable(st, later, limit) ensures 0 !in Placed(Run(st, later, limit).downs) {
      PlacedForGood(st, later, 0, limit);
    }
  }

  /** Stream 1 waits for its answer: nothing delivered, nothing read. */
  predicate Calling(cl: Client) {
    && cl.hand == None && cl.table == {1} && 1 in cl.flows
    && var fl := cl.flows[1];
      fl.end == None && fl.got == [] && fl.taken == 0 && fl.seen == [] && !fl.over && !fl.byPeer
  }

  /** A connection is dialled, bound, started and adopted, and the server has accepted one request on it. */
  lemma {:induction false} OneRequest(limit: int) returns (st: State)
    ensures Reachable(st, limit) && Pending(st.cli.flows, 1) && Unfinished(st.streams.flows, 1) && 1 in st.streams.heard
    ensures st.srv == Server([Link(Some(0), true, false)], Some(0), Some(0), 1, None) && st.downs == [Down([], 0, 0)]
    ensures st.rec == START.rec && Shaped(st) && Calling(st.cli)
  {
    st := OneAdopted(limit);
    assert Ids.Nth(true, 0) == 1;
    ReachNext(st, OpenStream(CALL), limit);
    st := Next(st, OpenStream(CALL), limit);
    ReachNext(st, SrvDispatch(0, true), limit);
    st := Next(st, SrvDispatch(0, true), limit);
  }

  lemma {:induction false} OneAdopted(limit: int) returns (st: State)
    ensures Reachable(st, limit) && Shaped(st)
    ensures st.srv == Server([Link(Some(0), true, false)], Some(0), Some(0), 1, None)
    ensures st.downs == [Down([], 0, 0)] && st.ups == [Up([], 0)] && st.rec == START.rec
    ensures st.streams == Streams([{}], map[], {}, {}) && st.cli.flows == map[] && st.cli.table == {}
    ensures st.cli.ends == [ClientEnd(true, false)] && st.cli.cur == Some(0) && st.cli.drawn == 0 && st.cli.hand == None
  {
    st := OneBound(limit);
    ReachNext(st, StartLoops(0), limit);
    st := Next(st, StartLoops(0), limit);
    ReachNext(st, Adopt, limit);
    st := Next(st, Adopt, limit);
  }

  lemma {:induction false} OneBound(limit: int) returns (st: State)
    ensures Reachable(st, limit)
    ensures st == State(Server([Link(Some(0), false, false)], Some(0), Some(0), 1, None), [Down([], 0, 0)], [Up([], 0)],
      START.rec,
                        Streams([{}], map[], {}, {}), Client([ClientEnd(false, false)], None, map[], {}, None, 0))
  {
    ReachStart(limit);
    ReachNext(START, Dial, limit);
    st := Next(START, Dial, limit);
    assert IsReplay([], st.rec.queue);
    ReachNext(st, Bind(0, [], []), limit);
    var t := Next(st, Bind(0, [], []), limit);
    var none: seq<Msg> := [];
    assert none + none == none;
    assert t.srv.links == [Link(Some(0), false, false)] && t.downs == [Down([], 0, 0)];
    assert t.rec == START.rec by {
      assert Uids([]) == {} && t.rec.log == [];
    }
    assert t.streams.tables == [{}] && t.streams.flows == map[];
    st := t;
  }

  // ---- a replay that is overtaken ---------------------------------------------------------------

  const KEPT := Msg(0, ANSWER)
  const OVERTAKER := Msg(1, Plain(CREDIT, 1, []))

  /** The connection of OneRequest has died on both sides, and the session is unbound. */
  lemma {:induction false} BothDead(limit: int) returns (st: State)
    ensures Reachable(st, limit) && Shaped(st) && |st.downs| == 1 && st.rec == START.rec && 1 in st.streams.heard
    ensures st.srv == Server([Link(Some(0), true, true)], None, Some(0), 1, None)
    ensures |st.cli.ends| == 1 && st.cli.ends[0].dead && Calling(st.cli)
  {
    st := OneRequest(limit);
    ReachNext(st, SrvDie(0), limit);
    st := Next(st, SrvDie(0), limit);
    ReachNext(st, CliDie(0), limit);
    st := Next(st, CliDie(0), limit);
    ReachNext(st, Unbind(0), limit);
    st := Next(st, Unbind(0), limit);
  }

  lemma {:induction false} FirstKept(limit: int)
    requires limit >= FrameSize(ANSWER)
    ensures KeepBack(START.rec, ANSWER, limit).queue.retained == map[1 := [KEPT]]
  {
    var none: seq<Msg> := [];
    assert none + [KEPT] == [KEPT];
  }

  /** The answer is sent and kept. */
  lemma {:induction false} AnswerKept(limit: int) returns (st: State)
    requires limit >= FrameSize(ANSWER)
    ensures Reachable(st, limit) && Shaped(st) && |st.downs| == 1
    ensures st.srv == Server([Link(Some(0), true, true)], None, Some(0), 1, None)
    ensures st.rec.queue.retained == map[1 := [KEPT]] && |st.rec.log| == 1
    ensures |st.cli.ends| == 1 && st.cli.ends[0].dead && Calling(st.cli) && 1 in st.streams.heard
    ensures st.rec.log == [KEPT]
  {
    var prev := BothDead(limit);
    FirstKept(limit);
    var s := SendDown(ANSWER, false);
    ReachNext(prev, s, limit);
    st := Next(prev, s, limit);
  }

  lemma {:induction false} OvertakenQueue(q: Queue)
    requires q.retained == map[1 := [KEPT]]
    ensures IsReplay([KEPT], q)
    ensures Keepable([OVERTAKER, KEPT]) == [KEPT] && Passing([OVERTAKER, KEPT]) == [OVERTAKER]
  {
    AllKeepable([KEPT]);
    NoneKeepable([OVERTAKER]);
    KeepableAppend([OVERTAKER], [KEPT]);
    PassingAppend([OVERTAKER], [KEPT]);
    assert [OVERTAKER] + [KEPT] == [OVERTAKER, KEPT];
    forall sid: u32 ensures Only(sid, [KEPT]) == Group(q.retained, sid) {
      OnlyOfOne(1, sid, [KEPT]);
    }
  }

  /** Replayed frames do not always come first on a connection: a CREDIT of the same stream, sent while bind is at work,
      stands before the answer that bind replays. */
  lemma {:induction false} CreditOvertakesReplay(limit: int) returns (st: State)
    requires limit >= FrameSize(ANSWER)
    ensures Reachable(st, limit) && Live(st.srv) && st.srv.conn == Some(1)
    ensures |st.downs| == 2 && st.downs[1].sent == [OVERTAKER, KEPT]
    ensures OVERTAKER.frame.ty == CREDIT && KEPT.frame.ty == RESPONSE && KEPT.frame.sid == OVERTAKER.frame.sid
    ensures KEPT.uid < OVERTAKER.uid
  {
    st := AnswerKept(limit);
    ReachNext(st, Dial, limit);
    st := Next(st, Dial, limit);
    OvertakenQueue(st.rec.queue);
    var s := Bind(1, [KEPT], [OVERTAKER, KEPT]);
    ReachNext(st, s, limit);
    st := Next(st, s, limit);
  }

  // ---- an answer that survives --------------------------------------------------------------------

  const DONE := Plain(COMPLETE, 1, [])

  lemma {:induction false} KeptQueue(q: Queue)
    requires q.retained == map[1 := [KEPT]]
    ensures IsReplay([KEPT], q) && Keepable([KEPT]) == [KEPT] && Passing([KEPT]) == []
  {
    OvertakenQueue(q);
    AllKeepable([KEPT]);
  }

  /** The session is bound to a second connection, which lives through the replay. */
  lemma {:induction false} AnswerReplayed(limit: int) returns (st: State)
    requires limit >= FrameSize(ANSWER)
    ensures Reachable(st, limit) && Shaped(st) && Calling(st.cli) && 1 in st.streams.heard && st.rec.log == [KEPT]
    ensures |st.downs| == 2 && st.downs[1] == Down([KEPT], 0, 0)
    ensures st.srv == Server([Link(Some(0), true, true), Link(Some(1), false, false)], Some(1), Some(1), 2, None)
    ensures st.cli.ends[1] == ClientEnd(false, false)
  {
    st := AnswerKept(limit);
    ReachNext(st, Dial, limit);
    st := Next(st, Dial, limit);
    KeptQueue(st.rec.queue);
    var s := Bind(1, [KEPT], [KEPT]);
    ReachNext(st, s, limit);
    var none: seq<Msg> := [];
    assert none + [KEPT] == [KEPT] && [KEPT] + none == [KEPT];
    st := Next(st, s, limit);
  }

  /** The client adopts it, and handles the answer. */
  lemma {:induction false} AnswerAdopted(limit: int) returns (st: State)
    requires limit >= FrameSize(ANSWER)
    ensures Reachable(st, limit) && Shaped(st) && Calling(st.cli) && 1 in st.streams.heard && st.rec.log == [KEPT]
    ensures |st.downs| == 2 && st.downs[1] == Down([KEPT], 0, 0)
    ensures st.srv == Server([Link(Some(0), true, true), Link(Some(1), true, false)], Some(1), Some(1), 2, None)
    ensures st.cli.ends[1] == ClientEnd(true, false) && st.cli.cur == Some(1)
  {
    st := AnswerReplayed(limit);
    ReachNext(st, StartLoops(1), limit);
    st := Next(st, StartLoops(1), limit);
    ReachNext(st, Adopt, limit);
    st := Next(st, Adopt, limit);
  }

  lemma {:induction false} AnswerHandled(limit: int) returns (st: State)
    requires limit >= FrameSize(ANSWER)
    ensures Reachable(st, limit) && Shaped(st) && 1 in st.streams.heard && st.rec.log == [KEPT]
    ensures |st.downs| == 2 && st.downs[1] == Down([KEPT], 1, 1)
    ensures st.srv == Server([Link(Some(0), true, true), Link(Some(1), true, false)], Some(1), Some(1), 2, None)
    ensures st.cli.ends[1] == ClientEnd(true, false) && st.cli.cur == Some(1)
    ensures 1 in st.cli.flows && st.cli.table == {1} && st.cli.hand == None
    ensures var fl := st.cli.flows[1]; fl.end == None && fl.got == [KEPT] && fl.taken == 0 && fl.seen == [] && !fl.over
  {
    st := AnswerAdopted(limit);
    ReachNext(st, WriteOut(1), limit);
    st := Next(st, WriteOut(1), limit);
    var none: seq<Msg> := [];
    assert none + [KEPT] == [KEPT];
    ReachNext(st, CliDispatch(false), limit);
    st := Next(st, CliDispatch(false), limit);
  }

  /** The handler completes the stream. */
  lemma {:induction false} CompletionWritten(limit: int) returns (st: State)
    requires limit >= FrameSize(ANSWER)
    ensures Reachable(st, limit) && Shaped(st)
    ensures |st.downs| == 2 && st.downs[1] == Down([KEPT, Msg(1, DONE)], 2, 1)
    ensures |st.srv.links| == 2 && st.srv.links[0].dead && st.srv.conn == Some(1)
    ensures st.cli.ends[1] == ClientEnd(true, false) && st.cli.cur == Some(1)
    ensures 1 in st.cli.flows && st.cli.table == {1} && st.cli.hand == None
    ensures var fl := st.cli.flows[1]; fl.end == None && fl.got == [KEPT] && fl.taken == 0 && fl.seen == [] && !fl.over
  {
    st := AnswerHandled(limit);
    ReachNext(st, SendDown(DONE, false), limit);
    assert [KEPT] + [Msg(1, DONE)] == [KEPT, Msg(1, DONE)];
    st := Next(st, SendDown(DONE, false), limit);
    ReachNext(st, WriteOut(1), limit);
    st := Next(st, WriteOut(1), limit);
  }

  lemma {:induction false} AnswerCompleted(limit: int) returns (st: State)
    requires limit >= FrameSize(ANSWER)
    ensures Reachable(st, limit) && Shaped(st) && 1 in st.cli.flows
    ensures |st.srv.links| == 2 && st.srv.links[0].dead && st.srv.conn == Some(1)
    ensures var fl := st.cli.flows[1];
      fl.end == Some(None) && fl.byPeer && fl.got == [KEPT] && fl.taken == 0 && fl.seen == [] && !fl.over
  {
    st := CompletionWritten(limit);
    ReachNext(st, CliDispatch(false), limit);
    st := Next(st, CliDispatch(false), limit);
  }

  /** Resume at work: a request is accepted on one connection, that connection dies, the answer is sent while the client
      is away, a second connection takes over, and the application reads the answer and then a normal end. */
  lemma {:induction false} AnswerSurvives(limit: int) returns (st: State)
    requires limit >= FrameSize(ANSWER)
    ensures Reachable(st, limit) && 1 in st.cli.flows
    ensures |st.srv.links| == 2 && st.srv.links[0].dead && st.srv.conn == Some(1)
    ensures var fl := st.cli.flows[1];
      fl.end == Some(None) && fl.byPeer && fl.over && fl.seen == fl.got && |fl.seen| == 1
      && fl.seen[0].frame == ANSWER && ANSWER.ty == RESPONSE
  {
    st := AnswerCompleted(limit);
    ReachNext(st, Read(1, Flows.FrameArm), limit);
    st := Next(st, Read(1, Flows.FrameArm), limit);
    ReachNext(st, Read(1, Flows.DoneArm), limit);
    st := Next(st, Read(1, Flows.DoneArm), limit);
  }

  // ---- a request that is lost --------------------------------------------------------------------

  const GIVE_UP := Plain(CANCEL, 1, [])

  /** The client's stream 1 is pending, its REQUEST was queued on the first connection and not handled, and the server
      has heard of no stream. */
  ghost predicate Asked(st: State) {
    && Shaped(st) && st.ups != [] && st.ups[0] == Up([CALL], 0)
    && Pending(st.cli.flows, 1) && st.cli.flows[1].home == 0 && st.cli.flows[1].pos == 0 && st.cli.table == {1}
    && st.streams.flows == map[] && st.streams.heard == {}
    && (forall c :: 0 <= c < |st.streams.tables| ==> st.streams.tables[c] == {})
    && st.rec.queue == EMPTY_QUEUE && st.rec.kept == []
  }

  /** Steps of the connections, and no others, leave it at that. */
  lemma {:induction false} StillAsked(st: State, s: Step, limit: int)
    requires Asked(st) && Enabled(st, s) && (s.SrvDie? || s.CliDie? || s.Unbind? || s.StartLoops?)
    ensures Asked(Next(st, s, limit))
  {
  }

  lemma {:induction false} StillAskedDial(st: State, limit: int)
    requires Asked(st) && Enabled(st, Dial)
    ensures Asked(Next(st, Dial, limit))
  {
  }

  lemma {:induction false} StillAskedBind(st: State, c: nat, limit: int)
    requires Asked(st) && Enabled(st, Bind(c, [], []))
    ensures Asked(Next(st, Bind(c, [], []), limit))
  {
  }

  lemma {:induction false} StillAskedAdopt(st: State, limit: int)
    requires Asked(st) && Enabled(st, Adopt)
    ensures Asked(Next(st, Adopt, limit)) && Next(st, Adopt, limit).cli.flows[1].ep == |st.cli.ends| - 1
  {
  }

  lemma {:induction false} RequestQueued(limit: int) returns (st: State)
    ensures Reachable(st, limit) && Asked(st)
    ensures st.srv == Server([Link(Some(0), true, false)], Some(0), Some(0), 1, None)
    ensures st.cli.ends == [ClientEnd(true, false)]
  {
    st := OneAdopted(limit);
    assert Ids.Nth(true, 0) == 1;
    ReachNext(st, OpenStream(CALL), limit);
    var t := Next(st, OpenStream(CALL), limit);
    assert t.ups[0].sent == [] + [CALL];
    assert t.cli.table == {} + {1};
    st := t;
  }

  /** Its connection dies on both sides before the server has handled it. */
  lemma {:induction false} RequestDies(limit: int) returns (st: State)
    ensures Reachable(st, limit) && Asked(st)
    ensures st.srv == Server([Link(Some(0), true, true)], Some(0), Some(0), 1, None)
    ensures st.cli.ends == [ClientEnd(true, true)]
  {
    st := RequestQueued(limit);
    StillAsked(st, SrvDie(0), limit);
    ReachNext(st, SrvDie(0), limit);
    st := Next(st, SrvDie(0), limit);
    StillAsked(st, CliDie(0), limit);
    ReachNext(st, CliDie(0), limit);
    st := Next(st, CliDie(0), limit);
  }

  lemma {:induction false} RequestLost(limit: int) returns (st: State)
    ensures Reachable(st, limit) && Asked(st)
    ensures st.srv == Server([Link(Some(0), true, true)], None, Some(0), 1, None)
    ensures st.cli.ends == [ClientEnd(true, true)]
  {
    var prev := RequestDies(limit);
    StillAsked(prev, Unbind(0), limit);
    ReachNext(prev, Unbind(0), limit);
    st := Next(prev, Unbind(0), limit);
  }

  /** The session is resumed on a second connection. */
  lemma {:induction false} ResumedWithoutIt(limit: int) returns (st: State)
    ensures Reachable(st, limit) && Asked(st) && |st.cli.ends| == 2 && st.ups[1] == Up([], 0)
    ensures st.srv.links == [Link(Some(0), true, true), Link(Some(1), false, false)]
    ensures st.cli.ends[1] == ClientEnd(false, false)
  {
    st := RequestLost(limit);
    StillAskedDial(st, limit);
    ReachNext(st, Dial, limit);
    st := Next(st, Dial, limit);
    EmptyReplay(st.rec);
    StillAskedBind(st, 1, limit);
    ReachNext(st, Bind(1, [], []), limit);
    st := Next(st, Bind(1, [], []), limit);
  }

  lemma {:induction false} EmptyReplay(r: Recovery)
    requires r.queue.retained == map[]
    ensures BindQueues(r, false, [], [])
  {
  }

  lemma {:induction false} MovedWithoutIt(limit: int) returns (st: State)
    ensures Reachable(st, limit) && Asked(st) && |st.cli.ends| == 2 && st.ups[1] == Up([], 0)
    ensures st.srv.links[1] == Link(Some(1), true, false)
    ensures !st.cli.ends[1].dead && st.cli.flows[1].ep == 1
  {
    st := ResumedWithoutIt(limit);
    StillAsked(st, StartLoops(1), limit);
    ReachNext(st, StartLoops(1), limit);
    st := Next(st, StartLoops(1), limit);
    StillAskedAdopt(st, limit);
    ReachNext(st, Adopt, limit);
    st := Next(st, Adopt, limit);
  }

  /** A migrated stream the server has never heard of: its REQUEST died with the first connection, the stream lives on
      at the client, and when its CANCEL arrives on the second connection it finds no stream. */
  lemma {:induction false} LostRequestLeavesOrphan(limit: int) returns (st: State)
    ensures Reachable(st, limit) && Pending(st.cli.flows, 1) && !Arrived(st.cli.flows, st.ups, 1)
    ensures Enabled(st, SrvDispatch(1, true)) && st.ups[1].sent[st.ups[1].handled] == GIVE_UP
    ensures 1 !in st.streams.tables[1] && 1 !in st.streams.heard
  {
    var prev := MovedWithoutIt(limit);
    ReachNext(prev, CliSend(GIVE_UP), limit);
    st := Next(prev, CliSend(GIVE_UP), limit);
    assert st.ups[1].sent == [] + [GIVE_UP];
  }

  // ---- a connection that never starts -------------------------------------------------------------

  /** The session is bound to a live connection whose loops were never started and whose queue is full, and a sender
      waits for room in it, holding the session's lock. */
  predicate Jammed(st: State, c: nat) {
    && st.srv.conn == Some(c) && c < |st.srv.links| && c < |st.downs|
    && !st.srv.links[c].dead && !st.srv.links[c].started
    && |st.downs[c].sent| - st.downs[c].written == SEND_QUEUE
    && st.srv.waiting.Some?
  }

  lemma {:induction false} Fill(k: nat, limit: int) returns (st: State)
    requires k <= SEND_QUEUE
    ensures Reachable(st, limit) && Shaped(st)
    ensures st.srv == Server([Link(Some(0), false, false)], Some(0), Some(0), 1, None)
    ensures |st.downs| == 1 && |st.downs[0].sent| == k && st.downs[0].written == 0
  {
    if k == 0 {
      st := OneBound(limit);
    } else {
      var prev := Fill(k - 1, limit);
      var s := SendDown(Plain(PUBLISH, 0, []), false);
      ReachNext(prev, s, limit);
      st := Next(prev, s, limit);
    }
  }

  lemma {:induction false} Jam(limit: int) returns (st: State)
    ensures Reachable(st, limit) && Jammed(st, 0)
  {
    var full := Fill(SEND_QUEUE, limit);
    var s := SendDown(Plain(PUBLISH, 0, []), false);
    ReachNext(full, s, limit);
    st := Next(full, s, limit);
  }

  /** What could end a jam: the loops start after all, the connection dies, or the waiting sender's context ends. A
      handler's has no end. */
  predicate Rescues(s: Step, c: nat) {
    s == StartLoops(c) || s == SrvDie(c) || s == Settle(Ended)
  }

  lemma {:induction false} JammedStep(st: State, s: Step, c: nat, limit: int)
    requires Jammed(st, c) && Enabled(st, s) && !Rescues(s, c)
    ensures Jammed(Next(st, s, limit), c)
  {
    if !(s.Dial? || s.StartLoops? || s.SrvDie? || s.WriteOut? || s.CliDispatch?) {
      Framing(st, s, limit);
    }
  }

  lemma {:induction false} JammedRun(st: State, run: seq<Step>, c: nat, limit: int)
    requires Jammed(st, c) && Runnable(st, run, limit) && forall i :: 0 <= i < |run| ==> !Rescues(run[i], c)
    ensures Jammed(Run(st, run, limit), c)
    decreases |run|
  {
    if run != [] {
      JammedStep(st, run[0], c, limit);
      JammedRun(Next(st, run[0], limit), run[1..], c, limit);
    }
  }

  /** If writing the CONNACK fails after bind, the loops of the bound connection never start and nothing kills it. Its
      queue can fill up, and the next sender waits for good with the session's lock in hand, whatever else happens: by
      LockHeld nothing is sent down any more, and the session can be neither bound to another connection, nor unbound,
      nor terminated. */
  lemma {:induction false} UnstartedConnectionJams(limit: int) returns (st: State)
    ensures Reachable(st, limit) && st.srv.conn == Some(0) && st.srv.waiting.Some?
    ensures st.srv.links != [] && st.downs != []
    ensures !st.srv.links[0].dead && !st.srv.links[0].started && |st.downs[0].sent| - st.downs[0].written == 256
    ensures forall run ::
      && Runnable(st, run, limit)
      && StartLoops(0) !in run && SrvDie(0) !in run && Settle(Ended) !in run ==>
      Run(st, run, limit).srv.conn == Some(0) && Run(st, run, limit).srv.waiting.Some?
  {
    st := Jam(limit);
    JamHolds(st, limit);
  }

  lemma {:induction false} JamHolds(st: State, limit: int)
    requires Jammed(st, 0)
    ensures forall run ::
      && Runnable(st, run, limit)
      && StartLoops(0) !in run && SrvDie(0) !in run && Settle(Ended) !in run ==>
      Run(st, run, limit).srv.conn == Some(0) && Run(st, run, limit).srv.waiting.Some?
  {
    forall run | Runnable(st, run, limit) && StartLoops(0) !in run && SrvDie(0) !in run && Settle(Ended) !in run
      ensures Run(st, run, limit).srv.conn == Some(0) && Run(st, run, limit).srv.waiting.Some?
    {
      JammedRun(st, run, 0, limit);
    }
  }
}
