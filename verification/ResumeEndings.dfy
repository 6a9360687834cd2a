// How the streams of a session end: what each handled frame and each local end does to the
// stream it names, on both sides and in every run, and what a reader then still gets.

module ResumeEndings {
  import opened Basics
  import opened Wire
  import opened Retention
  import opened Resume
  import opened ResumeServer
  import opened ResumeOrder
  import opened ResumeStreams
  import opened ResumeContinuity
  import opened ResumeReading
  import Flows

  // ---- what every run keeps ------------------------------------------------------------------------

  lemma {:induction false} ReachedHand(st: State, limit: int)
    requires Reachable(st, limit)
    ensures Drawn(st.cli) && HandIsNext(st.cli, st.downs)
  {
    var run :| Runnable(START, run, limit) && Run(START, run, limit) == st;
    ContinuousFromStart(run, limit);
  }

  // ---- one frame at the client -------------------------------------------------------------------

  /** handleFrame of a frame that was not looked up before. */
  lemma {:induction false} ReceiveAt(cl: Client, m: Msg)
    requires Tabled(cl)
    ensures var d := Receive(cl, m);
      && d.flows.Keys == cl.flows.Keys
      && forall sid: u32 :: sid in cl.flows ==>
        var fl := cl.flows[sid];
        d.flows[sid] ==
          if sid != m.frame.sid || fl.end.Some? then fl
          else if m.frame.ty in {RESPONSE, PUBLISH} then fl.(got := fl.got + [m])
          else if m.frame.ty == COMPLETE then fl.(end := Some(None), byPeer := true)
          else if m.frame.ty == ERROR then fl.(end := Some(Some(Internal)), byPeer := true)
          else if m.frame.ty == CANCEL then fl.(end := Some(Some(Cancelled)), byPeer := true)
          else fl
  {
    assert m.frame.sid in cl.table <==> Pending(cl.flows, m.frame.sid);
  }

  /** What the next frame does when the client's read loop handles it, in every run. Of a pending stream: a RESPONSE or
      PUBLISH is delivered; COMPLETE ends it normally, ERROR and CANCEL with a code, and as ended by the peer; nothing
      else touches it. No other stream is touched, and none that has ended. The table holds the pending streams. */
  lemma {:induction false} ClientHandles(st: State, late: bool, limit: int)
    requires Reachable(st, limit) && Enabled(st, CliDispatch(late)) && st.cli.hand == None
    ensures var d, t := st.downs[st.cli.cur.value], Next(st, CliDispatch(late), limit);
      var m := d.sent[d.dispatched];
      && t.downs[st.cli.cur.value] == d.(dispatched := d.dispatched + 1)
      && t.cli.cur == st.cli.cur && t.cli.hand == None && t.cli.flows.Keys == st.cli.flows.Keys
      && (forall sid: u32 :: sid in st.cli.flows ==>
        var fl := st.cli.flows[sid];
        t.cli.flows[sid] ==
          if sid != m.frame.sid || fl.end.Some? then fl
          else if m.frame.ty in {RESPONSE, PUBLISH} then fl.(got := fl.got + [m])
          else if m.frame.ty == COMPLETE then fl.(end := Some(None), byPeer := true)
          else if m.frame.ty == ERROR then fl.(end := Some(Some(Internal)), byPeer := true)
          else if m.frame.ty == CANCEL then fl.(end := Some(Some(Cancelled)), byPeer := true)
          else fl)
      && (forall sid: u32 :: sid in t.cli.table <==> sid in t.cli.flows && t.cli.flows[sid].end.None?)
  {
    ReachedStreams(st, limit);
    ReceiveAt(st.cli, NextDown(st));
    TabledHandle(st.cli, NextDown(st), late);
  }

  lemma {:induction false} ReleaseAt(cl: Client, m: Msg, late: bool)
    requires m.frame.sid in cl.flows
    ensures var d := Release(cl, m, late);
      && d.flows.Keys == cl.flows.Keys && d.hand == None
      && forall sid: u32 :: sid in cl.flows ==>
        var fl := cl.flows[sid];
        d.flows[sid] == if sid == m.frame.sid && (fl.end.None? || late) then fl.(got := fl.got + [m]) else fl
  {
  }

  /** A frame that was looked up before, when its delivery goes on: it reaches a stream that is still pending, and one
      that has ended meanwhile exactly if the select picks the buffer. */
  lemma {:induction false} ClientDelivers(st: State, late: bool, limit: int)
    requires Reachable(st, limit) && Enabled(st, CliDispatch(late)) && st.cli.hand.Some?
    ensures var d, t := st.downs[st.cli.cur.value], Next(st, CliDispatch(late), limit);
      var m := d.sent[d.dispatched];
      && m == st.cli.hand.value && m.frame.ty in {RESPONSE, PUBLISH} && m.frame.sid in st.cli.flows
      && t.downs[st.cli.cur.value] == d.(dispatched := d.dispatched + 1) && t.cli.hand == None
      && t.cli.flows.Keys == st.cli.flows.Keys
      && forall sid: u32 :: sid in st.cli.flows ==>
        var fl := st.cli.flows[sid];
        t.cli.flows[sid] == if sid == m.frame.sid && (fl.end.None? || late) then fl.(got := fl.got + [m]) else fl
  {
    ReachedHand(st, limit);
    ReleaseAt(st.cli, NextDown(st), late);
  }

  /** A local end at the client: a pending stream ends as given, not by the peer; nothing else changes. */
  lemma {:induction false} ClientFinishes(st: State, sid: u32, end: Ending, limit: int)
    requires Enabled(st, CliFinish(sid, end))
    ensures var t := Next(st, CliFinish(sid, end), limit).cli;
      && t.flows.Keys == st.cli.flows.Keys
      && (forall s: u32 :: s in st.cli.flows ==>
        t.flows[s] == if s == sid && st.cli.flows[s].end.None? then
          st.cli.flows[s].(end := Some(end), byPeer := false) else st.cli.flows[s])
      && t.table == if sid in st.cli.flows && st.cli.flows[sid].end.None? then st.cli.table - {sid} else st.cli.table
  {
  }

  // ---- one frame at the server -------------------------------------------------------------------

  lemma {:induction false} HearEnds(s: Streams, c: nat, f: Frame, accept: bool)
    requires c < |s.tables| && f.ty in {COMPLETE, ERROR, CANCEL}
    requires f.sid in s.tables[c] <==> Unfinished(s.flows, f.sid)
    requires Unfinished(s.flows, f.sid) ==> s.flows[f.sid].ep == c
    ensures var t := Hear(s, c, f, accept);
      && t.heard == s.heard && t.refused == s.refused && t.flows.Keys == s.flows.Keys
      && forall sid: u32 :: sid in s.flows ==>
        t.flows[sid] ==
          if sid != f.sid || s.flows[sid].end.Some? then s.flows[sid]
          else s.flows[sid].(end := Some(if f.ty == COMPLETE then None
                                         else Some(if f.ty == CANCEL then Cancelled else Internal)))
  {
  }

  lemma {:induction false} HearRest(s: Streams, c: nat, f: Frame, accept: bool)
    requires c < |s.tables| && f.ty !in {COMPLETE, ERROR, CANCEL} && (f.ty == REQUEST ==> f.sid !in s.flows)
    ensures var t := Hear(s, c, f, accept);
      && t.heard == s.heard + (if f.ty in {REQUEST, SUBSCRIBE} then {f.sid} else {})
      && t.refused == s.refused + (if f.ty == REQUEST && !accept then {f.sid} else {})
      && t.flows.Keys == s.flows.Keys + (if f.ty == REQUEST && accept then {f.sid} else {})
      && (f.ty == REQUEST && accept ==> t.flows[f.sid] == ServerFlow(c, None) && f.sid in t.tables[c])
      && forall sid: u32 :: sid in s.flows ==> t.flows[sid] == s.flows[sid]
  {
  }

  lemma {:induction false} HearAt(srv: Server, s: Streams, c: nat, f: Frame, accept: bool)
    requires c < |s.tables| && Homed(srv, s) && srv.lastConn == Some(c) && (f.ty == REQUEST ==> f.sid !in s.flows)
    ensures var t := Hear(s, c, f, accept);
      && t.heard == s.heard + (if f.ty in {REQUEST, SUBSCRIBE} then {f.sid} else {})
      && t.refused == s.refused + (if f.ty == REQUEST && !accept then {f.sid} else {})
      && t.flows.Keys == s.flows.Keys + (if f.ty == REQUEST && accept then {f.sid} else {})
      && (f.ty == REQUEST && accept ==> t.flows[f.sid] == ServerFlow(c, None) && f.sid in t.tables[c])
      && forall sid: u32 :: sid in s.flows ==>
        t.flows[sid] ==
          if sid != f.sid || s.flows[sid].end.Some? || f.ty !in {COMPLETE, ERROR, CANCEL} then s.flows[sid]
          else s.flows[sid].(end := Some(if f.ty == COMPLETE then None
                                         else Some(if f.ty == CANCEL then Cancelled else Internal)))
  {
    if f.ty in {COMPLETE, ERROR, CANCEL} {
      HearEnds(s, c, f, accept);
    } else {
      HearRest(s, c, f, accept);
    }
  }

  /** The number of a request about to be handled is not in use at the server. */
  lemma {:induction false} NotInUse(flows: map<u32, ClientFlow>, ups: seq<Up>, s: Streams, c: nat)
    requires Wired(flows, ups) && Heard(flows, ups, s) && c < |ups| && ups[c].handled < |ups[c].sent|
    ensures ups[c].sent[ups[c].handled].ty == REQUEST ==> ups[c].sent[ups[c].handled].sid !in s.flows
  {
    ArrivedHandle(flows, ups, c, ups[c].sent[ups[c].handled].sid);
  }

  /** What the next frame does when a server's read loop handles it, in every run. A REQUEST, never of a number already
      in use, starts a stream there or is refused; COMPLETE ends an unfinished stream normally, ERROR and CANCEL with a
      code; nothing else touches any stream. */
  lemma {:induction false} ServerHandles(st: State, c: nat, accept: bool, limit: int)
    requires Reachable(st, limit) && Enabled(st, SrvDispatch(c, accept))
    ensures var u, s, t := st.ups[c], st.streams, Next(st, SrvDispatch(c, accept), limit);
      var f := u.sent[u.handled];
      && t.ups[c] == u.(handled := u.handled + 1)
      && t.streams.heard == s.heard + (if f.ty in {REQUEST, SUBSCRIBE} then {f.sid} else {})
      && t.streams.refused == s.refused + (if f.ty == REQUEST && !accept then {f.sid} else {})
      && (f.ty == REQUEST ==> f.sid !in s.flows)
      && t.streams.flows.Keys == s.flows.Keys + (if f.ty == REQUEST && accept then {f.sid} else {})
      && (f.ty == REQUEST && accept ==> t.streams.flows[f.sid] == ServerFlow(c, None) && f.sid in t.streams.tables[c])
      && forall sid: u32 :: sid in s.flows ==>
        t.streams.flows[sid] ==
          if sid != f.sid || s.flows[sid].end.Some? || f.ty !in {COMPLETE, ERROR, CANCEL} then s.flows[sid]
          else s.flows[sid].(end := Some(if f.ty == COMPLETE then None
                                         else Some(if f.ty == CANCEL then Cancelled else Internal)))
  {
    ReachedStreams(st, limit);
    var f := st.ups[c].sent[st.ups[c].handled];
    LastIsLive(st, c);
    NotInUse(st.cli.flows, st.ups, st.streams, c);
    HearAt(st.srv, st.streams, c, f, accept);
  }

  lemma {:induction false} LastIsLive(st: State, c: nat)
    requires StreamSide(st) && Enabled(st, SrvDispatch(c, true))
    ensures st.srv.lastConn == Some(c)
    ensures forall sid: u32 :: sid in st.streams.tables[c] <==> Unfinished(st.streams.flows, sid)
  {
    assert LegalLink(st.srv.links[c], st.srv.binds, st.srv.conn == Some(c));
  }

  lemma {:induction false} FinishAt(srv: Server, s: Streams, sid: u32, end: Ending)
    requires Homed(srv, s)
    ensures var t := EndServer(s, sid, end);
      && t.flows.Keys == s.flows.Keys && t.heard == s.heard && t.refused == s.refused
      && forall x: u32 :: x in s.flows ==>
        t.flows[x] == if x == sid && s.flows[x].end.None? then s.flows[x].(end := Some(end)) else s.flows[x]
  {
  }

  /** A handler finishes its stream: if unfinished it ends as given; nothing else changes. */
  lemma {:induction false} ServerFinishes(st: State, sid: u32, end: Ending, limit: int)
    requires Reachable(st, limit) && Enabled(st, SrvFinish(sid, end))
    ensures var s := st.streams;
      var t := Next(st, SrvFinish(sid, end), limit).streams;
      && t.flows.Keys == s.flows.Keys && t.heard == s.heard && t.refused == s.refused
      && forall x: u32 :: x in s.flows ==>
        t.flows[x] == if x == sid && s.flows[x].end.None? then s.flows[x].(end := Some(end)) else s.flows[x]
  {
    ReachedStreams(st, limit);
    FinishAt(st.srv, st.streams, sid, end);
  }

  // ---- what ends no stream -------------------------------------------------------------------------

  lemma {:induction false} AdoptMoves(cl: Client, c: nat, sid: u32)
    requires Tabled(cl) && c < |cl.ends| && sid in cl.flows
    ensures var fl, t := cl.flows[sid], AdoptStreams(cl, c);
      && sid in t.flows && t.flows[sid] == (if fl.end == None then fl.(ep := c) else fl)
      && t.cur == Some(c) && (fl.end == None ==> sid in t.table)
  {
    assert sid in cl.table <==> Pending(cl.flows, sid);
  }

  lemma {:induction false} OpenKeeps(st: State, f: Frame, sid: u32, limit: int)
    requires Drawn(st.cli) && Enabled(st, OpenStream(f)) && sid in st.cli.flows
    ensures var t := Next(st, OpenStream(f), limit).cli; sid in t.flows && t.flows[sid] == st.cli.flows[sid]
  {
    FreshNumber(st.cli, f.sid);
  }

  /** Nothing else touches a stream at the client, except that adopting a connection moves the pending ones to it. */
  lemma {:induction false} ClientKeeps(st: State, s: Step, sid: u32, limit: int)
    requires Reachable(st, limit) && Enabled(st, s) && sid in st.cli.flows
    requires !s.CliDispatch? && !s.CliFinish? && !s.Read?
    ensures var fl, t := st.cli.flows[sid], Next(st, s, limit).cli;
      && sid in t.flows
      && t.flows[sid] == (if s.Adopt? && fl.end == None then fl.(ep := |st.cli.ends| - 1) else fl)
      && (s.Adopt? ==> t.cur == Some(|st.cli.ends| - 1) && (fl.end == None ==> sid in t.table))
  {
    ReachedStreams(st, limit);
    if s.OpenStream? { OpenKeeps(st, s.f, sid, limit); }
    else if s.Adopt? { AdoptMoves(st.cli, |st.cli.ends| - 1, sid); }
    else { FlowsStay(st, s, limit); }
  }

  /** Nothing else touches a stream at the server, except that a bind moves the unfinished ones to its connection. */
  lemma {:induction false} ServerKeeps(st: State, s: Step, sid: u32, limit: int)
    requires Reachable(st, limit) && Enabled(st, s) && sid in st.streams.flows
    requires !s.SrvDispatch? && !s.SrvFinish? && !s.Terminate?
    ensures var fl, t := st.streams.flows[sid], Next(st, s, limit).streams;
      && sid in t.flows && t.flows[sid].end == fl.end
      && (s.Bind? && fl.end == None ==> t.flows[sid].ep == s.c && s.c < |t.tables| && sid in t.tables[s.c])
      && (!s.Bind? || fl.end.Some? ==> t.flows[sid].ep == fl.ep)
  {
    ReachedStreams(st, limit);
    if s.Bind? {
      BindMoves(st.srv, st.streams, s.c, sid);
    } else if !s.Dial? {
      StreamFraming(st, s, limit);
    }
  }

  lemma {:induction false} BindMoves(srv: Server, s: Streams, c: nat, sid: u32)
    requires OneLive(srv) && Homed(srv, s) && c < |s.tables| && sid in s.flows
    ensures var t := Migrate(s, Source(srv), c);
      && sid in t.flows && t.flows[sid].end == s.flows[sid].end
      && (s.flows[sid].end == None ==> t.flows[sid].ep == c && sid in t.tables[c])
      && (s.flows[sid].end.Some? ==> t.flows[sid] == s.flows[sid])
  {
    SurvivingAll(srv, s);
  }

  // ---- which frame ended a stream ------------------------------------------------------------------

  /** Frame i of those handled ended the stream: all data before it was delivered, and its type fixed the ending. */
  predicate EndedAt(fl: ClientFlow, sid: u32, handled: seq<Msg>, i: int) {
    && 0 <= i < |handled| && handled[i].frame.sid == sid && handled[i].frame.ty in {COMPLETE, ERROR, CANCEL}
    && fl.got == DataOf(sid, handled[..i])
    && (fl.end == Some(None) <==> handled[i].frame.ty == COMPLETE)
    && (fl.end == Some(Some(Cancelled)) <==> handled[i].frame.ty == CANCEL)
  }

  ghost predicate PeerEnded(cl: Client, handled: seq<Msg>) {
    forall sid: u32 :: sid in cl.flows && cl.flows[sid].byPeer ==>
      exists i :: EndedAt(cl.flows[sid], sid, handled, i)
  }

  lemma {:induction false} PeerEndedReceive(cl: Client, handled: seq<Msg>, m: Msg)
    requires Tabled(cl) && Drawn(cl) && Delivered(cl, handled) && PeerEnded(cl, handled)
    ensures PeerEnded(Receive(cl, m), handled + [m])
  {
    var d, all := Receive(cl, m), handled + [m];
    ReceiveAt(cl, m);
    forall sid: u32 | sid in d.flows && d.flows[sid].byPeer ensures exists i :: EndedAt(d.flows[sid], sid, all, i) {
      if cl.flows[sid].byPeer {
        var i :| EndedAt(cl.flows[sid], sid, handled, i);
        assert all[..i] == handled[..i] && EndedAt(d.flows[sid], sid, all, i);
      } else {
        assert all[..|handled|] == handled && EndedAt(d.flows[sid], sid, all, |handled|);
      }
    }
  }

  lemma {:induction false} PeerEndedRelease(cl: Client, handled: seq<Msg>, m: Msg, late: bool)
    requires Drawn(cl) && cl.hand == Some(m) && PeerEnded(cl, handled)
    ensures PeerEnded(Release(cl, m, late), handled + [m])
  {
    var d, all := Release(cl, m, late), handled + [m];
    forall sid: u32 | sid in d.flows && d.flows[sid].byPeer ensures exists i :: EndedAt(d.flows[sid], sid, all, i) {
      var i :| EndedAt(cl.flows[sid], sid, handled, i);
      assert all[..i] == handled[..i] && EndedAt(d.flows[sid], sid, all, i);
    }
  }

  lemma {:induction false} PeerEndedNext(cl: Client, downs: seq<Down>, late: bool)
    requires Tabled(cl) && Drawn(cl) && Delivered(cl, Handled(downs)) && PeerEnded(cl, Handled(downs))
    requires downs != [] && downs[|downs| - 1].dispatched < |downs[|downs| - 1].sent|
    requires cl.hand.Some? ==> var d := downs[|downs| - 1]; cl.hand.value == d.sent[d.dispatched]
    ensures var d := downs[|downs| - 1];
      PeerEnded(Handle(cl, d.sent[d.dispatched], late),
        Handled(downs[|downs| - 1 := d.(dispatched := d.dispatched + 1)]))
  {
    var d := downs[|downs| - 1];
    HandledNext(downs);
    if cl.hand.Some? {
      PeerEndedRelease(cl, Handled(downs), d.sent[d.dispatched], late);
    } else {
      PeerEndedReceive(cl, Handled(downs), d.sent[d.dispatched]);
    }
  }

  lemma {:induction false} PeerEndedDispatch(st: State, late: bool, limit: int)
    requires Tabled(st.cli) && Drawn(st.cli) && HandIsNext(st.cli, st.downs) && Delivered(st.cli, Handled(st.downs))
    requires PeerEnded(st.cli, Handled(st.downs)) && Enabled(st, CliDispatch(late))
    ensures var t := Next(st, CliDispatch(late), limit); PeerEnded(t.cli, Handled(t.downs))
  {
    NextIsLast(st);
    PeerEndedNext(st.cli, st.downs, late);
  }

  /** Only the read loop ends a stream on behalf of the peer. */
  lemma {:induction false} PeerEndsOnlyAtDispatch(st: State, s: Step, sid: u32, limit: int)
    requires Enabled(st, s) && !s.CliDispatch?
    requires var t := Next(st, s, limit); sid in t.cli.flows && t.cli.flows[sid].byPeer
    ensures sid in st.cli.flows && st.cli.flows[sid].byPeer
  {
    if !ClientActs(s) { StreamFraming(st, s, limit); }
  }

  lemma {:induction false} PeerEndedQuiet(st: State, s: Step, limit: int)
    requires Plumbed(st.srv, st.downs) && Tabled(st.cli) && Drawn(st.cli)
    requires PeerEnded(st.cli, Handled(st.downs)) && Enabled(st, s) && !s.CliDispatch?
    ensures PeerEnded(Next(st, s, limit).cli, Handled(Next(st, s, limit).downs))
  {
    var t := Next(st, s, limit);
    HandledStays(st, s, limit);
    ClientEndingsStep(st, s, limit);
    var handled := Handled(st.downs);
    forall sid: u32 | sid in t.cli.flows && t.cli.flows[sid].byPeer
      ensures exists i :: EndedAt(t.cli.flows[sid], sid, handled, i)
    {
      PeerEndsOnlyAtDispatch(st, s, sid, limit);
      assert EndKept(st.cli, t.cli, sid);
      var i :| EndedAt(st.cli.flows[sid], sid, handled, i);
      assert EndedAt(t.cli.flows[sid], sid, handled, i);
    }
  }

  lemma {:induction false} PeerEndedRun(st: State, run: seq<Step>, limit: int)
    requires Continuous(st, limit) && PeerEnded(st.cli, Handled(st.downs)) && Runnable(st, run, limit)
    ensures PeerEnded(Run(st, run, limit).cli, Handled(Run(st, run, limit).downs))
    decreases |run|
  {
    if run != [] {
      if run[0].CliDispatch? { PeerEndedDispatch(st, run[0].late, limit); }
      else { PeerEndedQuiet(st, run[0], limit); }
      ContinuousStep(st, run[0], limit);
      PeerEndedRun(Next(st, run[0], limit), run[1..], limit);
    }
  }

  lemma {:induction false} PeerEndedFromStart(run: seq<Step>, limit: int)
    requires Runnable(START, run, limit)
    ensures PeerEnded(Run(START, run, limit).cli, Handled(Run(START, run, limit).downs))
  {
    ServerSideStart(limit);
    PeerEndedRun(START, run, limit);
  }

  lemma {:induction false} ReachedEnds(st: State, limit: int)
    requires Reachable(st, limit)
    ensures PeerEnded(st.cli, Handled(st.downs))
  {
    var run :| Runnable(START, run, limit) && Run(START, run, limit) == st;
    PeerEndedFromStart(run, limit);
  }

  /** In every run, a stream that the read loop ended was ended by a frame it handled for it, after all the stream's
      data handled before had been delivered, and nothing since: normally if and only if that frame is a COMPLETE, as
      cancelled if and only if it is a CANCEL. */
  lemma {:induction false} EndedByPeer(st: State, sid: u32, limit: int) returns (i: nat)
    requires Reachable(st, limit) && sid in st.cli.flows && st.cli.flows[sid].byPeer
    ensures var fl, handled := st.cli.flows[sid], Handled(st.downs);
      && i < |handled| && handled[i].frame.sid == sid && handled[i].frame.ty in {COMPLETE, ERROR, CANCEL}
      && fl.got == DataOf(sid, handled[..i]) && fl.end.Some?
      && (fl.end == Some(None) <==> handled[i].frame.ty == COMPLETE)
      && (fl.end == Some(Some(Cancelled)) <==> handled[i].frame.ty == CANCEL)
  {
    ReachedHand(st, limit);
    ReachedEnds(st, limit);
    i :| EndedAt(st.cli.flows[sid], sid, Handled(st.downs), i);
  }

  // ---- reading what an answer brought --------------------------------------------------------------

  /** Reads of one stream. */
  predicate ReadsOf(steps: seq<Step>, sid: u32) {
    forall i :: 0 <= i < |steps| ==> steps[i].Read? && steps[i].sid == sid
  }

  /** A stream after n reads of a normal end: what they took, in order, and whether one of them reported the end. */
  function AfterReads(fl: ClientFlow, n: nat): ClientFlow
    requires fl.taken <= |fl.got|
  {
    var left := |fl.got| - fl.taken;
    var k := if n <= left then n else left;
    fl.(taken := fl.taken + k, seen := fl.seen + fl.got[fl.taken..fl.taken + k], over := fl.over || n > left)
  }

  lemma {:induction false} OneMoreRead(fl: ClientFlow, arm: Flows.Arm, n: nat)
    requires fl.end == Some(None) && fl.taken <= |fl.got| && CanRead(fl, arm)
    ensures var g := ReadOnce(fl, arm);
      g.end == Some(None) && g.taken <= |g.got| && AfterReads(g, n) == AfterReads(fl, n + 1)
  {
    if fl.taken < |fl.got| {
      var m := AfterReads(fl, n + 1).taken;
      assert fl.got[fl.taken..m] == [fl.got[fl.taken]] + fl.got[fl.taken + 1..m];
      assert fl.seen + fl.got[fl.taken..m] == fl.seen + [fl.got[fl.taken]] + fl.got[fl.taken + 1..m];
    } else {
      assert fl.got[fl.taken..fl.taken] == [];
    }
  }

  /** Reads of a normally ended stream drain its buffer in order, then report the end. */
  lemma {:induction false} ReadsDrain(st: State, steps: seq<Step>, sid: u32, limit: int)
    requires Runnable(st, steps, limit) && ReadsOf(steps, sid) && sid in st.cli.flows
    requires st.cli.flows[sid].end == Some(None) && st.cli.flows[sid].taken <= |st.cli.flows[sid].got|
    ensures var end := Run(st, steps, limit).cli;
      sid in end.flows && end.flows[sid] == AfterReads(st.cli.flows[sid], |steps|)
    decreases |steps|
  {
    var fl := st.cli.flows[sid];
    if steps == [] {
      assert fl.got[fl.taken..fl.taken] == [] && fl.seen + [] == fl.seen;
    } else {
      ReadAt(st, steps[0], sid, limit);
      OneMoreRead(fl, steps[0].arm, |steps| - 1);
      ReadsDrain(Next(st, steps[0], limit), steps[1..], sid, limit);
    }
  }

  lemma {:induction false} ReadAt(st: State, s: Step, sid: u32, limit: int)
    requires s.Read? && s.sid == sid && Enabled(st, s)
    ensures CanRead(st.cli.flows[sid], s.arm)
    ensures sid in Next(st, s, limit).cli.flows
    ensures Next(st, s, limit).cli.flows[sid] == ReadOnce(st.cli.flows[sid], s.arm)
  {
  }

  lemma {:induction false} RunJoin(st: State, a: seq<Step>, b: seq<Step>, limit: int)
    requires Runnable(st, a + b, limit)
    ensures Runnable(st, a, limit) && Runnable(Run(st, a, limit), b, limit)
    ensures Run(st, a + b, limit) == Run(Run(st, a, limit), b, limit)
    decreases |a|
  {
    if a == [] {
      assert a + b == b;
    } else {
      assert (a + b)[1..] == a[1..] + b;
      RunJoin(Next(st, a[0], limit), a[1..], b, limit);
    }
  }

  /** The frames the current connection brings next: some data of one pending stream, and a COMPLETE of it. */
  predicate AnswerComing(st: State, sid: u32, frames: seq<Msg>) {
    && st.cli.hand == None && st.cli.cur.Some? && st.cli.cur.value < |st.downs|
    && sid in st.cli.flows && st.cli.flows[sid].end == None
    && var d := st.downs[st.cli.cur.value];
    && d.dispatched + |frames| < |d.sent| && d.sent[d.dispatched..d.dispatched + |frames|] == frames
    && (forall m :: m in frames ==> m.frame.sid == sid && m.frame.ty in {RESPONSE, PUBLISH})
    && d.sent[d.dispatched + |frames|].frame.sid == sid && d.sent[d.dispatched + |frames|].frame.ty == COMPLETE
  }

  lemma {:induction false} NextOfAnswer(sent: seq<Msg>, i: nat, frames: seq<Msg>)
    requires frames != [] && i + |frames| < |sent| && sent[i..i + |frames|] == frames
    ensures sent[i] == frames[0] && sent[i] in frames && sent[i + 1..i + |frames|] == frames[1..]
    ensures forall m :: m in frames[1..] ==> m in frames
  {
  }

  lemma {:induction false} AnswerGoesOn(st: State, late: bool, sid: u32, frames: seq<Msg>, limit: int)
    requires Reachable(st, limit) && Enabled(st, CliDispatch(late)) && frames != [] && AnswerComing(st, sid, frames)
    ensures var t := Next(st, CliDispatch(late), limit);
      && AnswerComing(t, sid, frames[1..])
      && t.cli.flows[sid] == st.cli.flows[sid].(got := st.cli.flows[sid].got + [frames[0]])
  {
    var d := st.downs[st.cli.cur.value];
    NextOfAnswer(d.sent, d.dispatched, frames);
    ClientHandles(st, late, limit);
  }

  lemma {:induction false} AnswerCompletes(st: State, late: bool, sid: u32, limit: int)
    requires Reachable(st, limit) && Enabled(st, CliDispatch(late)) && AnswerComing(st, sid, [])
    ensures var t := Next(st, CliDispatch(late), limit);
      sid in t.cli.flows && t.cli.flows[sid] == Answered(st.cli.flows[sid], [])
  {
    ClientHandles(st, late, limit);
    assert st.cli.flows[sid].got + [] == st.cli.flows[sid].got;
  }

  /** A pending stream that more frames and a normal end have reached. */
  function Answered(fl: ClientFlow, frames: seq<Msg>): ClientFlow {
    fl.(got := fl.got + frames, end := Some(None), byPeer := true)
  }

  lemma {:induction false} AnsweredOneMore(fl: ClientFlow, frames: seq<Msg>)
    requires frames != []
    ensures Answered(fl.(got := fl.got + [frames[0]]), frames[1..]) == Answered(fl, frames)
  {
    assert frames == [frames[0]] + frames[1..];
    assert fl.got + ([frames[0]] + frames[1..]) == fl.got + [frames[0]] + frames[1..];
  }

  /** An answer is handled: the stream has been given all its data, in order, and has ended normally. */
  lemma {:induction false} AnswerHandled(st: State, steps: seq<Step>, sid: u32, frames: seq<Msg>, limit: int)
    requires Reachable(st, limit) && Runnable(st, steps, limit) && AnswerComing(st, sid, frames)
    requires |steps| == |frames| + 1 && forall i :: 0 <= i < |steps| ==> steps[i].CliDispatch?
    ensures var end := Run(st, steps, limit).cli;
      sid in end.flows && end.flows[sid] == Answered(st.cli.flows[sid], frames)
    decreases |frames|
  {
    var late := steps[0].late;
    if frames == [] {
      AnswerCompletes(st, late, sid, limit);
      assert steps[1..] == [];
    } else {
      ReachNext(st, steps[0], limit);
      AnswerGoesOn(st, late, sid, frames, limit);
      AnswerHandled(Next(st, steps[0], limit), steps[1..], sid, frames[1..], limit);
      AnsweredOneMore(st.cli.flows[sid], frames);
    }
  }

  lemma {:induction false} AnsweredThenRead(fl: ClientFlow, frames: seq<Msg>, n: nat)
    requires Reading(fl) && fl.end == None && n >= |fl.got| + |frames| - fl.taken
    ensures var g := AfterReads(Answered(fl, frames), n);
      && g.end == Some(None) && g.seen == fl.got + frames
      && (g.over <==> n > |fl.got| + |frames| - fl.taken)
  {
    var m := Answered(fl, frames);
    assert fl.got[..fl.taken] == m.got[..fl.taken];
    assert m.got[..fl.taken] + m.got[fl.taken..|m.got|] == m.got;
  }

  /** From the queue to the application, in every run: when the next n frames of the current connection are data of a
      pending stream and a COMPLETE of it follows, then once these are handled, and the stream has been read as often as
      it has frames buffered, the application has been given everything the stream ever was, ending with those n in
      order; one more read reports the end, and none before it does. */
  lemma {:induction false} AnswerIsRead(st: State, handles: seq<Step>, picks: seq<Step>, sid: u32, n: nat, limit: int)
    requires Reachable(st, limit) && Runnable(st, handles + picks, limit)
    requires st.cli.hand == None && st.cli.cur.Some? && st.cli.cur.value < |st.downs|
    requires sid in st.cli.flows && st.cli.flows[sid].end == None
    requires var d := st.downs[st.cli.cur.value];
      && d.dispatched + n < |d.sent|
      && (forall k :: d.dispatched <= k < d.dispatched + n ==>
        d.sent[k].frame.sid == sid && d.sent[k].frame.ty in {RESPONSE, PUBLISH})
      && d.sent[d.dispatched + n].frame.sid == sid && d.sent[d.dispatched + n].frame.ty == COMPLETE
    requires |handles| == n + 1 && forall i :: 0 <= i < |handles| ==> handles[i].CliDispatch?
    requires forall i :: 0 <= i < |picks| ==> picks[i].Read? && picks[i].sid == sid
    requires |picks| >= |st.cli.flows[sid].got| + n - st.cli.flows[sid].taken
    ensures var fl, end := st.cli.flows[sid], Run(st, handles + picks, limit).cli;
      var d := st.downs[st.cli.cur.value];
      && sid in end.flows && end.flows[sid].end == Some(None)
      && end.flows[sid].seen == fl.got + d.sent[d.dispatched..d.dispatched + n]
      && (end.flows[sid].over <==> |picks| > |fl.got| + n - fl.taken)
  {
    var d := st.downs[st.cli.cur.value];
    RunJoin(st, handles, picks, limit);
    var frames := d.sent[d.dispatched..d.dispatched + n];
    AnswerHandled(st, handles, sid, frames, limit);
    ReachedReading(st, sid, limit);
    ReadsDrain(Run(st, handles, limit), picks, sid, limit);
    AnsweredThenRead(st.cli.flows[sid], frames, |picks|);
  }
}
