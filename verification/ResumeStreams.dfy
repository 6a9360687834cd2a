// The streams a client opens, on both sides and across every reconnect: no handler is ever
// orphaned, terminate reaches all that are left, and a frame on its way up finds its stream
// registered unless the stream is over, was refused, or its request never arrived.

module ResumeStreams {
  import opened Basics
  import opened Wire
  import opened Retention
  import opened Resume
  import opened ResumeServer
  import Flows
  import Ids

  // ---- the client's table and where its frames are -----------------------------------------------

  /** Only the newest connection can be alive at the client, its endpoint's table holds exactly the pending streams,
      and those send through it. */
  ghost predicate Tabled(cl: Client) {
    && (forall i :: 0 <= i < |cl.ends| - 1 ==> cl.ends[i].dead)
    && (cl.cur.Some? ==> cl.cur.value < |cl.ends|)
    && (forall sid: u32 :: sid in cl.table <==> Pending(cl.flows, sid))
    && (forall sid: u32 :: sid in cl.flows ==> sid % 2 == 1 && cl.flows[sid].home <= cl.flows[sid].ep < |cl.ends|)
    && (forall sid: u32 :: Pending(cl.flows, sid) ==> cl.cur == Some(cl.flows[sid].ep))
  }

  /** The numbers in use were drawn, and at most 2^31 have been. A stream the read loop ended is recorded as such, and
      the frame in hand is data for a stream that was not. */
  ghost predicate Drawn(cl: Client) {
    && cl.drawn <= Ids.HALF
    && (forall sid: u32 :: sid in cl.flows ==> sid < 2 * cl.drawn + 1)
    && (forall sid: u32 :: sid in cl.flows && cl.flows[sid].byPeer ==> cl.flows[sid].end.Some?)
    && (cl.hand.Some? ==> InHand(cl, cl.hand.value))
  }

  predicate InHand(cl: Client, m: Msg) {
    IsData(m.frame) && m.frame.sid in cl.flows && !cl.flows[m.frame.sid].byPeer
  }

  /** The next number the client draws is odd and not in use: fresh streams never collide with surviving ones. */
  lemma {:induction false} FreshNumber(cl: Client, sid: u32)
    requires Drawn(cl) && cl.drawn < Ids.HALF && sid == Ids.Nth(true, cl.drawn)
    ensures sid == 2 * cl.drawn + 1 && sid % 2 == 1 && sid !in cl.flows
  {
    Ids.NthClosedForm(true, cl.drawn);
    Small(cl.drawn);
  }

  lemma Small(n: nat)
    requires n < Ids.HALF
    ensures n % Ids.HALF == n
  {
  }

  /** A stream's opening frame is where its record says. */
  predicate OpenedAt(ups: seq<Up>, sid: u32, fl: ClientFlow) {
    && fl.home < |ups| && fl.pos < |ups[fl.home].sent|
    && ups[fl.home].sent[fl.pos].sid == sid && IsOpening(ups[fl.home].sent[fl.pos])
  }

  /** Frame i of connection c belongs to a known stream: it is the opening frame, or comes after it. */
  predicate Belongs(flows: map<u32, ClientFlow>, f: Frame, c: nat, i: nat) {
    && f.sid in flows
    && var fl := flows[f.sid];
      if IsOpening(f) then fl.home == c && fl.pos == i else fl.home < c || (fl.home == c && fl.pos < i)
  }

  ghost predicate Wired(flows: map<u32, ClientFlow>, ups: seq<Up>) {
    && (forall sid: u32 :: sid in flows ==> OpenedAt(ups, sid, flows[sid]))
    && (forall c, i :: 0 <= c < |ups| && 0 <= i < |ups[c].sent| ==> Belongs(flows, ups[c].sent[i], c, i))
    && (forall c :: 0 <= c < |ups| ==> ups[c].handled <= |ups[c].sent|)
  }

  /** The server has handled the stream's opening frame. */
  predicate Arrived(flows: map<u32, ClientFlow>, ups: seq<Up>, sid: u32) {
    sid in flows && flows[sid].home < |ups| && flows[sid].pos < ups[flows[sid].home].handled
  }

  predicate OpenedByRequest(flows: map<u32, ClientFlow>, ups: seq<Up>, sid: u32) {
    && sid in flows && flows[sid].home < |ups| && flows[sid].pos < |ups[flows[sid].home].sent|
    && ups[flows[sid].home].sent[flows[sid].pos].ty == REQUEST
  }

  /** What the server knows: it has heard of exactly the streams whose opening arrived, and of those opened by a
      request it has accepted or refused each. */
  ghost predicate Heard(flows: map<u32, ClientFlow>, ups: seq<Up>, s: Streams) {
    && (forall sid: u32 :: sid in s.heard <==> Arrived(flows, ups, sid))
    && (forall sid: u32 :: sid in s.flows || sid in s.refused <==> sid in s.heard && OpenedByRequest(flows, ups, sid))
    && (forall sid: u32 :: !(sid in s.flows && sid in s.refused))
  }

  /** Every unfinished stream sits at the endpoint of the connection bound last, and nothing else does. */
  ghost predicate Homed(srv: Server, s: Streams) {
    && |s.tables| == |srv.links|
    && (forall sid: u32 :: sid in s.flows ==> sid % 2 == 1)
    && (forall sid: u32 :: Unfinished(s.flows, sid) ==>
      srv.lastConn == Some(s.flows[sid].ep)
      && s.flows[sid].ep < |s.tables|)
    && (srv.lastConn.Some? && srv.lastConn.value < |s.tables| ==>
          forall sid: u32 :: sid in s.tables[srv.lastConn.value] <==> Unfinished(s.flows, sid))
    && (forall c :: 0 <= c < |s.tables| && srv.links[c].rank.None? ==> s.tables[c] == {})
  }

  ghost predicate StreamSide(st: State) {
    && Shaped(st) && OneLive(st.srv) && Tabled(st.cli) && Drawn(st.cli) && Wired(st.cli.flows, st.ups)
    && Heard(st.cli.flows, st.ups, st.streams) && Homed(st.srv, st.streams)
  }

  // ---- Tabled --------------------------------------------------------------------------------------

  lemma {:induction false} TabledEnd(cl: Client, sid: u32, end: Ending, byPeer: bool)
    requires Tabled(cl)
    ensures Tabled(EndClient(cl, sid, end, byPeer))
  {
  }

  lemma {:induction false} TabledGive(cl: Client, m: Msg)
    requires Tabled(cl) && m.frame.sid in cl.flows
    ensures Tabled(Give(cl, m))
  {
  }

  lemma {:induction false} TabledHandle(cl: Client, m: Msg, late: bool)
    requires Tabled(cl)
    ensures Tabled(Handle(cl, m, late))
  {
    if cl.hand.Some? {
      if cl.hand.value.frame.sid in cl.flows { TabledGive(cl.(hand := None), cl.hand.value); }
    } else {
      if m.frame.sid in cl.flows { TabledGive(cl, m); }
      TabledEnd(cl, m.frame.sid, None, true);
      TabledEnd(cl, m.frame.sid, Some(Internal), true);
      TabledEnd(cl, m.frame.sid, Some(Cancelled), true);
    }
  }

  lemma {:induction false} TabledAdopt(cl: Client)
    requires Tabled(cl) && cl.ends != []
    ensures Tabled(AdoptStreams(cl, |cl.ends| - 1))
  {
  }

  lemma {:induction false} TabledOpen(cl: Client, sid: u32, pos: nat)
    requires Tabled(cl) && ClientLive(cl) && sid !in cl.flows && sid % 2 == 1
    ensures Tabled(Opened(cl, sid, cl.cur.value, pos))
  {
  }

  lemma {:induction false} TabledAtOpen(st: State, f: Frame, limit: int)
    requires Tabled(st.cli) && Drawn(st.cli) && Enabled(st, OpenStream(f))
    ensures Tabled(Next(st, OpenStream(f), limit).cli)
  {
    FreshNumber(st.cli, f.sid);
    TabledOpen(st.cli, f.sid, |st.ups[st.cli.cur.value].sent|);
  }

  lemma {:induction false} TabledAtDial(st: State, limit: int)
    requires Tabled(st.cli) && Enabled(st, Dial)
    ensures Tabled(Next(st, Dial, limit).cli)
  {
  }

  lemma {:induction false} TabledRead(cl: Client, sid: u32, arm: Flows.Arm)
    requires Tabled(cl) && sid in cl.flows
    ensures Tabled(cl.(flows := cl.flows[sid := ReadOnce(cl.flows[sid], arm)]))
  {
  }

  lemma {:induction false} TabledQuiet(st: State, s: Step, limit: int)
    requires Tabled(st.cli) && Enabled(st, s) && (s.CliDie? || s.Draw? || s.Lookup? || !ClientActs(s))
    ensures Tabled(Next(st, s, limit).cli)
  {
    if !ClientActs(s) { StreamFraming(st, s, limit); }
  }

  lemma {:induction false} TabledMoves(st: State, s: Step, limit: int)
    requires Tabled(st.cli) && Enabled(st, s) && (s.Adopt? || s.CliFinish? || s.CliDispatch?)
    ensures Tabled(Next(st, s, limit).cli)
  {
    if s.Adopt? { TabledAdopt(st.cli); }
    else if s.CliFinish? { TabledEnd(st.cli, s.sid, s.end, false); }
    else { TabledHandle(st.cli, NextDown(st), s.late); }
  }

  lemma {:induction false} TabledStep(st: State, s: Step, limit: int)
    requires Tabled(st.cli) && Drawn(st.cli) && Enabled(st, s)
    ensures Tabled(Next(st, s, limit).cli)
  {
    if s.Dial? { TabledAtDial(st, limit); }
    else if s.OpenStream? { TabledAtOpen(st, s.f, limit); }
    else if s.Read? { TabledRead(st.cli, s.sid, s.arm); }
    else if s.Adopt? || s.CliFinish? || s.CliDispatch? { TabledMoves(st, s, limit); }
    else { TabledQuiet(st, s, limit); }
  }

  // ---- Drawn -----------------------------------------------------------------------------------------

  lemma {:induction false} DrawnEnd(cl: Client, sid: u32, end: Ending, byPeer: bool)
    requires Drawn(cl) && (byPeer ==> cl.hand.None?)
    ensures Drawn(EndClient(cl, sid, end, byPeer))
  {
  }

  lemma {:induction false} DrawnGive(cl: Client, m: Msg)
    requires Drawn(cl) && m.frame.sid in cl.flows
    ensures Drawn(Give(cl, m))
  {
  }

  lemma {:induction false} DrawnHandle(cl: Client, m: Msg, late: bool)
    requires Drawn(cl)
    ensures Drawn(Handle(cl, m, late)) && Handle(cl, m, late).hand.None?
  {
    if cl.hand.Some? {
      DrawnGive(cl.(hand := None), cl.hand.value);
    } else {
      if m.frame.sid in cl.flows { DrawnGive(cl, m); }
      DrawnEnd(cl, m.frame.sid, None, true);
      DrawnEnd(cl, m.frame.sid, Some(Internal), true);
      DrawnEnd(cl, m.frame.sid, Some(Cancelled), true);
    }
  }

  lemma {:induction false} DrawnLookup(st: State, limit: int)
    requires Tabled(st.cli) && Drawn(st.cli) && Enabled(st, Lookup)
    ensures Drawn(Next(st, Lookup, limit).cli)
  {
    var sid := NextDown(st).frame.sid;
    assert Pending(st.cli.flows, sid);
  }

  lemma {:induction false} DrawnRead(cl: Client, sid: u32, arm: Flows.Arm)
    requires Drawn(cl) && sid in cl.flows
    ensures Drawn(cl.(flows := cl.flows[sid := ReadOnce(cl.flows[sid], arm)]))
  {
  }

  lemma {:induction false} DrawnStep(st: State, s: Step, limit: int)
    requires Tabled(st.cli) && Drawn(st.cli) && Enabled(st, s)
    ensures Drawn(Next(st, s, limit).cli)
  {
    if s.Dial? || s.CliDie? || s.Draw? || s.Adopt? {
    } else if s.Read? { DrawnRead(st.cli, s.sid, s.arm); }
    else if s.OpenStream? { FreshNumber(st.cli, s.f.sid); }
    else if s.CliFinish? { DrawnEnd(st.cli, s.sid, s.end, false); }
    else if s.Lookup? { DrawnLookup(st, limit); }
    else if s.CliDispatch? { DrawnHandle(st.cli, NextDown(st), s.late); }
    else { Framing(st, s, limit); }
  }

  // ---- Wired ---------------------------------------------------------------------------------------

  /** Ends, migrations and deliveries leave homes and positions alone. */
  ghost predicate SameHomes(a: map<u32, ClientFlow>, b: map<u32, ClientFlow>) {
    a.Keys == b.Keys && forall sid: u32 :: sid in a ==> a[sid].home == b[sid].home && a[sid].pos == b[sid].pos
  }

  lemma WiredSame(a: map<u32, ClientFlow>, b: map<u32, ClientFlow>, ups: seq<Up>)
    requires SameHomes(a, b) && Wired(a, ups)
    ensures Wired(b, ups)
  {
    forall c, i | 0 <= c < |ups| && 0 <= i < |ups[c].sent| ensures Belongs(b, ups[c].sent[i], c, i) {
      assert Belongs(a, ups[c].sent[i], c, i);
    }
    forall sid: u32 | sid in b ensures OpenedAt(ups, sid, b[sid]) {
      assert OpenedAt(ups, sid, a[sid]);
    }
  }

  lemma WiredQueue(flows: map<u32, ClientFlow>, ups: seq<Up>, c: nat, f: Frame, flows2: map<u32, ClientFlow>)
    requires Wired(flows, ups) && c < |ups|
    requires flows.Keys <= flows2.Keys && (forall sid: u32 :: sid in flows ==> flows2[sid] == flows[sid])
    requires forall sid: u32 :: sid in flows2 && sid !in flows ==>
      sid == f.sid
      && OpenedAt(CliQueue(ups, c, f), sid, flows2[sid])
    requires Belongs(flows2, f, c, |ups[c].sent|)
    ensures Wired(flows2, CliQueue(ups, c, f))
  {
    var us := CliQueue(ups, c, f);
    forall d, i | 0 <= d < |us| && 0 <= i < |us[d].sent| ensures Belongs(flows2, us[d].sent[i], d, i) {
      if d != c || i < |ups[c].sent| {
        assert Belongs(flows, ups[d].sent[i], d, i);
      }
    }
    forall sid: u32 | sid in flows ensures OpenedAt(us, sid, flows2[sid]) {
      assert OpenedAt(ups, sid, flows[sid]);
    }
  }

  lemma WiredDial(flows: map<u32, ClientFlow>, ups: seq<Up>)
    requires Wired(flows, ups)
    ensures Wired(flows, ups + [Up([], 0)])
  {
    var us := ups + [Up([], 0)];
    forall d, i | 0 <= d < |us| && 0 <= i < |us[d].sent| ensures Belongs(flows, us[d].sent[i], d, i) {
      assert Belongs(flows, ups[d].sent[i], d, i);
    }
    forall sid: u32 | sid in flows ensures OpenedAt(us, sid, flows[sid]) {
      assert OpenedAt(ups, sid, flows[sid]);
    }
  }

  lemma WiredHandle(flows: map<u32, ClientFlow>, ups: seq<Up>, c: nat)
    requires Wired(flows, ups) && c < |ups| && ups[c].handled < |ups[c].sent|
    ensures Wired(flows, ups[c := ups[c].(handled := ups[c].handled + 1)])
  {
    var us := ups[c := ups[c].(handled := ups[c].handled + 1)];
    forall d, i | 0 <= d < |us| && 0 <= i < |us[d].sent| ensures Belongs(flows, us[d].sent[i], d, i) {
      assert Belongs(flows, ups[d].sent[i], d, i);
    }
    forall sid: u32 | sid in flows ensures OpenedAt(us, sid, flows[sid]) {
      assert OpenedAt(ups, sid, flows[sid]);
    }
  }

  lemma WiredOpen(st: State, f: Frame, limit: int)
    requires StreamSide(st) && Enabled(st, OpenStream(f))
    ensures var t := Next(st, OpenStream(f), limit); Wired(t.cli.flows, t.ups)
  {
    FreshNumber(st.cli, f.sid);
    WiredQueue(st.cli.flows, st.ups, st.cli.cur.value, f, Next(st, OpenStream(f), limit).cli.flows);
  }

  lemma WiredSend(st: State, f: Frame, limit: int)
    requires StreamSide(st) && Enabled(st, CliSend(f))
    ensures var t := Next(st, CliSend(f), limit); Wired(t.cli.flows, t.ups)
  {
    assert OpenedAt(st.ups, f.sid, st.cli.flows[f.sid]);
    WiredQueue(st.cli.flows, st.ups, st.cli.flows[f.sid].ep, f, st.cli.flows);
  }

  lemma {:induction false} HomesStay(st: State, s: Step, limit: int)
    requires Enabled(st, s) && !s.OpenStream?
    ensures SameHomes(st.cli.flows, Next(st, s, limit).cli.flows)
  {
    if !ClientActs(s) {
      Framing(st, s, limit);
    }
  }

  lemma {:induction false} WiredQuiet(st: State, s: Step, limit: int)
    requires Wired(st.cli.flows, st.ups) && Enabled(st, s)
    requires !s.OpenStream? && !s.CliSend? && !s.Dial? && !s.SrvDispatch?
    ensures Wired(Next(st, s, limit).cli.flows, Next(st, s, limit).ups)
  {
    StreamFraming(st, s, limit);
    HomesStay(st, s, limit);
    WiredSame(st.cli.flows, Next(st, s, limit).cli.flows, st.ups);
  }

  lemma {:induction false} WiredStep(st: State, s: Step, limit: int)
    requires StreamSide(st) && Enabled(st, s)
    ensures Wired(Next(st, s, limit).cli.flows, Next(st, s, limit).ups)
  {
    if s.OpenStream? { WiredOpen(st, s.f, limit); }
    else if s.CliSend? { WiredSend(st, s.f, limit); }
    else if s.Dial? { WiredDial(st.cli.flows, st.ups); }
    else if s.SrvDispatch? { WiredHandle(st.cli.flows, st.ups, s.c); }
    else { WiredQuiet(st, s, limit); }
  }

  // ---- Heard ---------------------------------------------------------------------------------------

  lemma HeardSame(a: map<u32, ClientFlow>, ups: seq<Up>, s: Streams, b: map<u32, ClientFlow>, t: Streams)
    requires Heard(a, ups, s) && SameHomes(a, b)
    requires t.heard == s.heard && t.refused == s.refused && t.flows.Keys == s.flows.Keys
    ensures Heard(b, ups, t)
  {
    forall sid: u32 ensures Arrived(a, ups, sid) <==> Arrived(b, ups, sid) { }
    forall sid: u32 ensures OpenedByRequest(a, ups, sid) <==> OpenedByRequest(b, ups, sid) { }
  }

  lemma HeardDial(flows: map<u32, ClientFlow>, ups: seq<Up>, s: Streams, t: Streams)
    requires Heard(flows, ups, s) && Wired(flows, ups) && t.heard == s.heard
    requires t.refused == s.refused && t.flows == s.flows
    ensures Heard(flows, ups + [Up([], 0)], t)
  {
    var us := ups + [Up([], 0)];
    forall sid: u32 ensures (Arrived(flows, ups, sid) <==> Arrived(flows, us, sid))
      && (OpenedByRequest(flows, ups, sid) <==> OpenedByRequest(flows, us, sid))
    {
      if sid in flows { assert OpenedAt(ups, sid, flows[sid]); }
    }
  }

  lemma HeardQueue(flows: map<u32, ClientFlow>, ups: seq<Up>, s: Streams, c: nat, f: Frame,
        flows2: map<u32, ClientFlow>)
    requires Heard(flows, ups, s) && Wired(flows, ups) && c < |ups|
    requires flows.Keys <= flows2.Keys && (forall sid: u32 :: sid in flows ==> flows2[sid] == flows[sid])
    requires forall sid: u32 :: sid in flows2 && sid !in flows ==>
      flows2[sid].home == c
      && flows2[sid].pos == |ups[c].sent|
    ensures Heard(flows2, CliQueue(ups, c, f), s)
  {
    var us := CliQueue(ups, c, f);
    forall sid: u32
      ensures Arrived(flows, ups, sid) <==> Arrived(flows2, us, sid)
      ensures sid in s.heard ==> (OpenedByRequest(flows, ups, sid) <==> OpenedByRequest(flows2, us, sid))
    {
      if sid in flows { assert OpenedAt(ups, sid, flows[sid]); }
    }
  }

  lemma EndServerKeys(s: Streams, sid: u32, end: Ending)
    ensures var t := EndServer(s, sid, end);
      t.heard == s.heard && t.refused == s.refused
      && t.flows.Keys == s.flows.Keys
  {
  }

  /** Handling the next frame makes exactly its stream arrive, if it is an opening frame. */
  lemma ArrivedHandle(flows: map<u32, ClientFlow>, ups: seq<Up>, c: nat, sid: u32)
    requires Wired(flows, ups) && c < |ups| && ups[c].handled < |ups[c].sent|
    ensures var i := ups[c].handled;
      var f := ups[c].sent[i];
      var us := ups[c := ups[c].(handled := i + 1)];
      && (Arrived(flows, us, sid) <==> Arrived(flows, ups, sid) || (IsOpening(f) && sid == f.sid))
      && (OpenedByRequest(flows, us, sid) <==> OpenedByRequest(flows, ups, sid))
      && (IsOpening(f) ==>
        f.sid in flows && !Arrived(flows, ups, f.sid)
        && (OpenedByRequest(flows, ups, f.sid) <==> f.ty == REQUEST))
  {
    var i := ups[c].handled;
    var f := ups[c].sent[i];
    assert Belongs(flows, f, c, i);
    if sid in flows {
      assert OpenedAt(ups, sid, flows[sid]);
    }
  }

  lemma EndingKeepsHeard(s: Streams, c: nat, f: Frame, accept: bool)
    requires c < |s.tables| && !IsOpening(f)
    ensures var t := Hear(s, c, f, accept); t.heard == s.heard && t.refused == s.refused && t.flows.Keys == s.flows.Keys
  {
    EndServerKeys(s, f.sid, None);
    EndServerKeys(s, f.sid, Some(Internal));
    EndServerKeys(s, f.sid, Some(Cancelled));
  }

  lemma HeardHandle(flows: map<u32, ClientFlow>, ups: seq<Up>, s: Streams, c: nat, accept: bool)
    requires Heard(flows, ups, s) && Wired(flows, ups) && c < |ups| && |s.tables| == |ups|
    requires ups[c].handled < |ups[c].sent|
    ensures Heard(flows, ups[c := ups[c].(handled := ups[c].handled + 1)],
      Hear(s, c, ups[c].sent[ups[c].handled], accept))
  {
    var f := ups[c].sent[ups[c].handled];
    var us := ups[c := ups[c].(handled := ups[c].handled + 1)];
    if !IsOpening(f) {
      EndingKeepsHeard(s, c, f, accept);
    }
    var t := Hear(s, c, f, accept);
    forall sid: u32
      ensures sid in t.heard <==> Arrived(flows, us, sid)
      ensures sid in t.flows || sid in t.refused <==> sid in t.heard && OpenedByRequest(flows, us, sid)
      ensures !(sid in t.flows && sid in t.refused)
    {
      ArrivedHandle(flows, ups, c, sid);
    }
  }

  lemma HeardOpen(st: State, f: Frame, limit: int)
    requires StreamSide(st) && Enabled(st, OpenStream(f))
    ensures var t := Next(st, OpenStream(f), limit); Heard(t.cli.flows, t.ups, t.streams)
  {
    FreshNumber(st.cli, f.sid);
    HeardQueue(st.cli.flows, st.ups, st.streams, st.cli.cur.value, f, Next(st, OpenStream(f), limit).cli.flows);
  }

  lemma HeardSend(st: State, f: Frame, limit: int)
    requires StreamSide(st) && Enabled(st, CliSend(f))
    ensures var t := Next(st, CliSend(f), limit); Heard(t.cli.flows, t.ups, t.streams)
  {
    HeardQueue(st.cli.flows, st.ups, st.streams, st.cli.flows[f.sid].ep, f, st.cli.flows);
  }

  lemma {:induction false} KnowledgeStays(st: State, s: Step, limit: int)
    requires Enabled(st, s) && !s.SrvDispatch?
    ensures var t := Next(st, s, limit).streams;
      t.heard == st.streams.heard && t.refused == st.streams.refused && t.flows.Keys == st.streams.flows.Keys
  {
    if s.Bind? || s.SrvFinish? || s.Terminate? || s.Dial? {
    } else {
      Framing(st, s, limit);
    }
  }

  lemma {:induction false} HeardQuiet(st: State, s: Step, limit: int)
    requires Heard(st.cli.flows, st.ups, st.streams) && Enabled(st, s)
    requires !s.OpenStream? && !s.CliSend? && !s.Dial? && !s.SrvDispatch?
    ensures var t := Next(st, s, limit); Heard(t.cli.flows, t.ups, t.streams)
  {
    StreamFraming(st, s, limit);
    HomesStay(st, s, limit);
    KnowledgeStays(st, s, limit);
    HeardSame(st.cli.flows, st.ups, st.streams, Next(st, s, limit).cli.flows, Next(st, s, limit).streams);
  }

  lemma {:induction false} HeardAtDispatch(st: State, c: nat, accept: bool, limit: int)
    requires Heard(st.cli.flows, st.ups, st.streams) && Wired(st.cli.flows, st.ups)
    requires Enabled(st, SrvDispatch(c, accept))
    ensures var t := Next(st, SrvDispatch(c, accept), limit); Heard(t.cli.flows, t.ups, t.streams)
  {
    HeardHandle(st.cli.flows, st.ups, st.streams, c, accept);
  }

  lemma {:induction false} HeardAtDial(st: State, limit: int)
    requires Heard(st.cli.flows, st.ups, st.streams) && Wired(st.cli.flows, st.ups) && Enabled(st, Dial)
    ensures var t := Next(st, Dial, limit); Heard(t.cli.flows, t.ups, t.streams)
  {
    HeardDial(st.cli.flows, st.ups, st.streams, Next(st, Dial, limit).streams);
  }

  lemma {:induction false} HeardStep(st: State, s: Step, limit: int)
    requires StreamSide(st) && Enabled(st, s)
    ensures var t := Next(st, s, limit); Heard(t.cli.flows, t.ups, t.streams)
  {
    if s.OpenStream? { HeardOpen(st, s.f, limit); }
    else if s.CliSend? { HeardSend(st, s.f, limit); }
    else if s.SrvDispatch? { HeardAtDispatch(st, s.c, s.accept, limit); }
    else if s.Dial? { HeardAtDial(st, limit); }
    else { HeardQuiet(st, s, limit); }
  }

  // ---- Homed ---------------------------------------------------------------------------------------

  lemma HomedEnd(srv: Server, s: Streams, sid: u32, end: Ending)
    requires Homed(srv, s)
    ensures Homed(srv, EndServer(s, sid, end))
  {
  }

  /** A request is accepted on the live connection, which is the one bound last. */
  lemma HomedHear(srv: Server, s: Streams, c: nat, f: Frame, accept: bool)
    requires Homed(srv, s) && c < |s.tables| && srv.lastConn == Some(c) && srv.links[c].rank.Some?
    requires f.ty == REQUEST ==> f.sid !in s.flows && f.sid % 2 == 1
    ensures Homed(srv, Hear(s, c, f, accept))
  {
    HomedEnd(srv, s, f.sid, None);
    HomedEnd(srv, s, f.sid, Some(Internal));
    HomedEnd(srv, s, f.sid, Some(Cancelled));
  }

  /** Migration takes every unfinished stream along. */
  lemma {:induction false} HomedBind(srv: Server, s: Streams, c: nat, dies: bool)
    requires OneLive(srv) && Homed(srv, s) && c < |srv.links| && srv.links[c].rank.None?
    ensures Homed(BindLink(srv, c, dies), Migrate(s, Source(srv), c))
  {
    var t := Migrate(s, Source(srv), c);
    var moving := Surviving(s, Source(srv));
    forall sid: u32 ensures sid in moving <==> Unfinished(s.flows, sid) {
      if srv.lastConn.Some? {
        assert sid in s.tables[srv.lastConn.value] <==> Unfinished(s.flows, sid);
      }
    }
    assert t.tables[c] == moving;
    forall sid: u32 ensures Unfinished(t.flows, sid) <==> Unfinished(s.flows, sid) { }
    forall sid: u32 | Unfinished(t.flows, sid) ensures t.flows[sid].ep == c {
      assert sid in moving;
    }
  }

  /** The surviving streams are all the unfinished ones. */
  lemma SurvivingAll(srv: Server, s: Streams)
    requires OneLive(srv) && Homed(srv, s)
    ensures forall sid: u32 :: sid in Surviving(s, Source(srv)) <==> Unfinished(s.flows, sid)
  {
    forall sid: u32 ensures sid in Surviving(s, Source(srv)) <==> Unfinished(s.flows, sid) {
      if srv.lastConn.Some? {
        assert sid in s.tables[srv.lastConn.value] <==> Unfinished(s.flows, sid);
      }
    }
  }

  lemma {:induction false} HomedTerminate(srv: Server, s: Streams)
    requires OneLive(srv) && Homed(srv, s)
    ensures Homed(srv, FailSurviving(s, Source(srv)))
    ensures forall sid: u32 :: sid in s.flows ==>
      FailSurviving(s, Source(srv)).flows[sid].end == if s.flows[sid].end.None? then Some(Some(SessionExpired))
        else s.flows[sid].end
  {
    SurvivingAll(srv, s);
  }

  lemma HomedLinks(srv: Server, s: Streams, srv2: Server)
    requires Homed(srv, s) && |srv2.links| == |srv.links| && srv2.lastConn == srv.lastConn
    requires forall c :: 0 <= c < |srv.links| ==> srv2.links[c].rank == srv.links[c].rank
    ensures Homed(srv2, s)
  {
  }

  lemma HomedDial(srv: Server, s: Streams)
    requires OneLive(srv) && Homed(srv, s)
    ensures Homed(srv.(links := srv.links + [Link(None, false, false)]), s.(tables := s.tables + [{}]))
  {
  }

  lemma {:induction false} HomedDispatch(st: State, c: nat, accept: bool, limit: int)
    requires StreamSide(st) && Enabled(st, SrvDispatch(c, accept))
    ensures Homed(Next(st, SrvDispatch(c, accept), limit).srv, Next(st, SrvDispatch(c, accept), limit).streams)
  {
    assert LegalLink(st.srv.links[c], st.srv.binds, st.srv.conn == Some(c));
    var f := st.ups[c].sent[st.ups[c].handled];
    ArrivedHandle(st.cli.flows, st.ups, c, f.sid);
    HomedHear(st.srv, st.streams, c, f, accept);
  }

  lemma {:induction false} HomedAtBind(st: State, c: nat, replay: seq<Msg>, queued: seq<Msg>, limit: int)
    requires OneLive(st.srv) && Homed(st.srv, st.streams) && Enabled(st, Bind(c, replay, queued))
    ensures var t := Next(st, Bind(c, replay, queued), limit); Homed(t.srv, t.streams)
  {
    HomedBind(st.srv, st.streams, c, |Keepable(queued)| < |replay|);
  }

  lemma {:induction false} HomedAtTerminate(st: State, limit: int)
    requires OneLive(st.srv) && Homed(st.srv, st.streams) && Enabled(st, Terminate)
    ensures var t := Next(st, Terminate, limit); Homed(t.srv, t.streams)
  {
    HomedTerminate(st.srv, st.streams);
  }

  lemma {:induction false} HomedQuiet(st: State, s: Step, limit: int)
    requires Homed(st.srv, st.streams) && Enabled(st, s)
    requires !s.Dial? && !s.Bind? && !s.SrvDispatch? && !s.SrvFinish? && !s.Terminate?
    ensures Homed(Next(st, s, limit).srv, Next(st, s, limit).streams)
  {
    Framing(st, s, limit);
    if s.StartLoops? || s.SrvDie? || s.Unbind? { HomedLinks(st.srv, st.streams, Next(st, s, limit).srv); }
  }

  lemma {:induction false} HomedStep(st: State, s: Step, limit: int)
    requires StreamSide(st) && Enabled(st, s)
    ensures Homed(Next(st, s, limit).srv, Next(st, s, limit).streams)
  {
    if s.Bind? { HomedAtBind(st, s.c, s.replay, s.queued, limit); }
    else if s.SrvDispatch? { HomedDispatch(st, s.c, s.accept, limit); }
    else if s.Dial? { HomedDial(st.srv, st.streams); }
    else if s.SrvFinish? { HomedEnd(st.srv, st.streams, s.sid, s.end); }
    else if s.Terminate? { HomedAtTerminate(st, limit); }
    else { HomedQuiet(st, s, limit); }
  }

  // ---- every run -------------------------------------------------------------------------------------

  lemma {:induction false} StreamSideStep(st: State, s: Step, limit: int)
    requires StreamSide(st) && Enabled(st, s)
    ensures StreamSide(Next(st, s, limit))
  {
    Framing(st, s, limit);
    OneLiveStep(st, s, limit);
    TabledStep(st, s, limit);
    DrawnStep(st, s, limit);
    WiredStep(st, s, limit);
    HeardStep(st, s, limit);
    HomedStep(st, s, limit);
  }

  lemma {:induction false} StreamSideRun(st: State, run: seq<Step>, limit: int)
    requires StreamSide(st) && Runnable(st, run, limit)
    ensures StreamSide(Run(st, run, limit))
    decreases |run|
  {
    if run != [] {
      StreamSideStep(st, run[0], limit);
      StreamSideRun(Next(st, run[0], limit), run[1..], limit);
    }
  }

  lemma {:induction false} ReachedStreams(st: State, limit: int)
    requires Reachable(st, limit)
    ensures StreamSide(st)
  {
    var run :| Runnable(START, run, limit) && Run(START, run, limit) == st;
    StreamSideRun(START, run, limit);
  }

  /** In every run the number of a stream about to be opened is odd and differs from those of all streams opened before,
      finished or surviving, on whatever connection. */
  lemma {:induction false} NumbersStayFresh(run: seq<Step>, f: Frame, limit: int)
    requires Runnable(START, run, limit) && Enabled(Run(START, run, limit), OpenStream(f))
    ensures f.sid % 2 == 1 && f.sid !in Run(START, run, limit).cli.flows
  {
    StreamSideRun(START, run, limit);
    FreshNumber(Run(START, run, limit).cli, f.sid);
  }

  /** Unfinished streams have ended with SESSION_EXPIRED, the others as they had. */
  ghost predicate AllExpired(before: map<u32, ServerFlow>, after: map<u32, ServerFlow>) {
    && before.Keys == after.Keys
    && forall sid: u32 :: sid in before ==> after[sid].end == if before[sid].end.None? then Some(Some(SessionExpired))
      else before[sid].end
  }

  /** A stream that has ended keeps its ending. It is given nothing more, unless the read loop had the stream's next
      frame in hand when a local end overtook it: then at most that one frame. */
  ghost predicate ClientEndingsKept(a: Client, b: Client) {
    forall sid: u32 :: sid in a.flows && a.flows[sid].end.Some? ==> sid in b.flows && EndKept(a, b, sid)
  }

  ghost predicate EndKept(a: Client, b: Client, sid: u32)
    requires sid in a.flows && sid in b.flows
  {
    var f, g := a.flows[sid], b.flows[sid];
    && g.end == f.end && g.byPeer == f.byPeer
    && (g.got == f.got || (HasInHand(a, sid) && !HasInHand(b, sid) && g.got == f.got + [a.hand.value]))
    && (HasInHand(b, sid) ==> HasInHand(a, sid) && b.hand == a.hand)
  }

  /** The read loop has a frame of this stream in hand. */
  predicate HasInHand(cl: Client, sid: u32) {
    cl.hand.Some? && cl.hand.value.frame.sid == sid
  }

  lemma {:induction false} EndingsKeptTwice(a: Client, b: Client, c: Client)
    requires ClientEndingsKept(a, b) && ClientEndingsKept(b, c)
    ensures ClientEndingsKept(a, c)
  {
    forall sid: u32 | sid in a.flows && a.flows[sid].end.Some? ensures sid in c.flows && EndKept(a, c, sid) {
      assert EndKept(a, b, sid);
      assert EndKept(b, c, sid);
    }
  }

  ghost predicate ServerEndingsKept(a: map<u32, ServerFlow>, b: map<u32, ServerFlow>) {
    forall sid: u32 :: sid in a && a[sid].end.Some? ==> sid in b && b[sid].end == a[sid].end
  }

  lemma {:induction false} ClientEndingsHandle(cl: Client, m: Msg, late: bool)
    requires Tabled(cl) && Drawn(cl)
    ensures ClientEndingsKept(cl, Handle(cl, m, late))
  {
    if cl.hand.None? {
      assert m.frame.sid in cl.table ==> Pending(cl.flows, m.frame.sid);
    }
  }

  lemma {:induction false} ClientEndingsLookup(st: State, limit: int)
    requires Tabled(st.cli) && Enabled(st, Lookup)
    ensures ClientEndingsKept(st.cli, Next(st, Lookup, limit).cli)
  {
    assert Pending(st.cli.flows, NextDown(st).frame.sid);
  }

  lemma {:induction false} ClientEndingsOpen(st: State, f: Frame, limit: int)
    requires Drawn(st.cli) && Enabled(st, OpenStream(f))
    ensures ClientEndingsKept(st.cli, Next(st, OpenStream(f), limit).cli)
  {
    FreshNumber(st.cli, f.sid);
  }

  lemma {:induction false} ClientEndingsEnd(cl: Client, sid: u32, end: Ending)
    ensures ClientEndingsKept(cl, EndClient(cl, sid, end, false))
  {
  }

  lemma {:induction false} ClientEndingsAdopt(cl: Client, c: nat)
    requires c < |cl.ends|
    ensures ClientEndingsKept(cl, AdoptStreams(cl, c))
  {
  }

  lemma {:induction false} ClientEndingsRead(cl: Client, sid: u32, arm: Flows.Arm)
    requires sid in cl.flows
    ensures ClientEndingsKept(cl, cl.(flows := cl.flows[sid := ReadOnce(cl.flows[sid], arm)]))
  {
  }

  lemma {:induction false} ClientEndingsStep(st: State, s: Step, limit: int)
    requires Tabled(st.cli) && Drawn(st.cli) && Enabled(st, s)
    ensures ClientEndingsKept(st.cli, Next(st, s, limit).cli)
  {
    if s.CliDispatch? { ClientEndingsHandle(st.cli, NextDown(st), s.late); }
    else if s.Lookup? { ClientEndingsLookup(st, limit); }
    else if s.OpenStream? { ClientEndingsOpen(st, s.f, limit); }
    else if s.CliFinish? { ClientEndingsEnd(st.cli, s.sid, s.end); }
    else if s.Adopt? { ClientEndingsAdopt(st.cli, |st.cli.ends| - 1); }
    else if s.Read? { ClientEndingsRead(st.cli, s.sid, s.arm); }
    else if !ClientActs(s) { Framing(st, s, limit); }
  }

  lemma {:induction false} HearKeepsEndings(s: Streams, c: nat, f: Frame, accept: bool)
    requires c < |s.tables| && (f.ty == REQUEST ==> f.sid !in s.flows)
    ensures ServerEndingsKept(s.flows, Hear(s, c, f, accept).flows)
  {
  }

  lemma {:induction false} ServerEndingsDispatch(st: State, c: nat, accept: bool, limit: int)
    requires Wired(st.cli.flows, st.ups) && Heard(st.cli.flows, st.ups, st.streams)
    requires Enabled(st, SrvDispatch(c, accept))
    ensures ServerEndingsKept(st.streams.flows, Next(st, SrvDispatch(c, accept), limit).streams.flows)
  {
    var f := st.ups[c].sent[st.ups[c].handled];
    ArrivedHandle(st.cli.flows, st.ups, c, f.sid);
    HearKeepsEndings(st.streams, c, f, accept);
  }

  lemma {:induction false} ServerEndingsQuiet(st: State, s: Step, limit: int)
    requires Enabled(st, s) && !s.SrvDispatch?
    ensures ServerEndingsKept(st.streams.flows, Next(st, s, limit).streams.flows)
  {
    if !(s.Bind? || s.SrvFinish? || s.Terminate? || s.Dial?) { Framing(st, s, limit); }
  }

  lemma {:induction false} ServerEndingsStep(st: State, s: Step, limit: int)
    requires StreamSide(st) && Enabled(st, s)
    ensures ServerEndingsKept(st.streams.flows, Next(st, s, limit).streams.flows)
  {
    if s.SrvDispatch? { ServerEndingsDispatch(st, s.c, s.accept, limit); }
    else { ServerEndingsQuiet(st, s, limit); }
  }

  lemma {:induction false} EndingsKeptRun(st: State, run: seq<Step>, limit: int)
    requires StreamSide(st) && Runnable(st, run, limit)
    ensures ClientEndingsKept(st.cli, Run(st, run, limit).cli)
    ensures ServerEndingsKept(st.streams.flows, Run(st, run, limit).streams.flows)
    decreases |run|
  {
    if run != [] {
      var t := Next(st, run[0], limit);
      ClientEndingsStep(st, run[0], limit);
      ServerEndingsStep(st, run[0], limit);
      StreamSideStep(st, run[0], limit);
      EndingsKeptRun(t, run[1..], limit);
      EndingsKeptTwice(st.cli, t.cli, Run(t, run[1..], limit).cli);
    }
  }

  /** The first terminal state of a stream is its last on both sides, whatever happens afterwards. A stream that the
      read loop ended is given nothing more; one that ended locally at most the one frame the read loop had in hand. */
  lemma {:induction false} FirstTerminalWins(run: seq<Step>, later: seq<Step>, sid: u32, limit: int)
    requires Runnable(START, run, limit) && Runnable(Run(START, run, limit), later, limit)
    ensures var st := Run(START, run, limit);
      var end := Run(st, later, limit);
      && (sid in st.streams.flows && st.streams.flows[sid].end.Some? ==>
            sid in end.streams.flows && end.streams.flows[sid].end == st.streams.flows[sid].end)
      && (sid in st.cli.flows && st.cli.flows[sid].end.Some? ==>
            && sid in end.cli.flows
            && var f, g := st.cli.flows[sid], end.cli.flows[sid];
            var inHand := st.cli.hand.Some? && st.cli.hand.value.frame.sid == sid;
            && g.end == f.end && g.byPeer == f.byPeer
            && (f.byPeer || !inHand ==> g.got == f.got)
            && (g.got == f.got || (inHand && g.got == f.got + [st.cli.hand.value])))
  {
    StreamSideRun(START, run, limit);
    var st := Run(START, run, limit);
    EndingsKeptRun(st, later, limit);
    if sid in st.cli.flows && st.cli.flows[sid].end.Some? {
      assert EndKept(st.cli, Run(st, later, limit).cli, sid);
    }
  }

  lemma {:induction false} UnfinishedAtLast(srv: Server, s: Streams)
    requires OneLive(srv) && Homed(srv, s)
    ensures forall sid: u32 :: Unfinished(s.flows, sid) ==> AtLast(srv, s, sid)
  {
    forall sid: u32 | Unfinished(s.flows, sid) ensures AtLast(srv, s, sid) {
      assert sid in s.tables[srv.lastConn.value];
    }
  }

  /** The stream sends through the connection bound last, and is registered there. */
  predicate AtLast(srv: Server, s: Streams, sid: u32) {
    && sid in s.flows && srv.lastConn == Some(s.flows[sid].ep)
    && s.flows[sid].ep < |s.tables| && sid in s.tables[s.flows[sid].ep]
  }

  lemma {:induction false} NoOrphansAt(st: State, limit: int)
    requires StreamSide(st)
    ensures forall sid: u32 :: Unfinished(st.streams.flows, sid) ==> AtLast(st.srv, st.streams, sid)
    ensures Enabled(st, Terminate) <==> Unlocked(st.srv)
    ensures AllExpired(st.streams.flows, FailSurviving(st.streams, Source(st.srv)).flows)
    ensures Enabled(st, Terminate) ==> Next(st, Terminate, limit).streams == FailSurviving(st.streams, Source(st.srv))
  {
    UnfinishedAtLast(st.srv, st.streams);
    HomedTerminate(st.srv, st.streams);
  }

  /** No orphan handlers: over any number of reconnects and takeovers, every accepted stream that has not finished is
      registered at, and sends through, the connection bound last; and a terminate, possible whenever no sender holds
      the session's lock, leaves none of them running: each ends with SESSION_EXPIRED, while streams that had ended keep
      their ending. */
  lemma {:induction false} NoOrphans(run: seq<Step>, limit: int)
    requires Runnable(START, run, limit)
    ensures var st := Run(START, run, limit);
      && (forall sid: u32 :: sid in st.streams.flows && st.streams.flows[sid].end == None ==>
        var c := st.streams.flows[sid].ep;
        st.srv.lastConn == Some(c) && c < |st.streams.tables| && sid in st.streams.tables[c])
      && (Enabled(st, Terminate) <==> st.srv.waiting == None && Shaped(st))
      && (Enabled(st, Terminate) ==>
        var before, after := st.streams.flows, Next(st, Terminate, limit).streams.flows;
        && before.Keys == after.Keys
        && forall sid: u32 :: sid in before ==>
          after[sid].end == if before[sid].end == None then Some(Some(SessionExpired)) else before[sid].end)
  {
    StreamSideRun(START, run, limit);
    NoOrphansAt(Run(START, run, limit), limit);
  }

  /** The four ways a later frame can find no stream at the server. */
  predicate OverOrNeverThere(st: State, sid: u32) {
    || (sid in st.streams.flows && st.streams.flows[sid].end.Some?)
    || sid in st.streams.refused
    || (sid in st.streams.heard && !OpenedByRequest(st.cli.flows, st.ups, sid))
    || (sid in st.cli.flows && !Arrived(st.cli.flows, st.ups, sid))
  }

  lemma {:induction false} RegistrationAt(st: State, c: nat)
    requires StreamSide(st) && Enabled(st, SrvDispatch(c, true)) && !IsOpening(st.ups[c].sent[st.ups[c].handled])
    ensures var sid := st.ups[c].sent[st.ups[c].handled].sid;
      && (sid in st.streams.tables[c] <==> !OverOrNeverThere(st, sid))
      && sid in st.cli.flows
      && (!Arrived(st.cli.flows, st.ups, sid) ==> st.cli.flows[sid].home < c)
  {
    var i := st.ups[c].handled;
    var f := st.ups[c].sent[i];
    assert Belongs(st.cli.flows, f, c, i);
    assert OpenedAt(st.ups, f.sid, st.cli.flows[f.sid]);
    assert LegalLink(st.srv.links[c], st.srv.binds, st.srv.conn == Some(c));
    assert st.srv.lastConn == Some(c);
  }

  /** Registration precedes traffic: whenever the server is about to handle a later frame of a stream, the stream is
      registered at that very connection's endpoint, unless it has finished, was refused, is a subscription, or its
      request never arrived; the last can only happen when the request was queued on an earlier connection. */
  lemma {:induction false} RegistrationPrecedesTraffic(st: State, c: nat, limit: int)
    requires Reachable(st, limit) && Enabled(st, SrvDispatch(c, true))
    requires st.ups[c].sent[st.ups[c].handled].ty !in {REQUEST, SUBSCRIBE}
    ensures var sid := st.ups[c].sent[st.ups[c].handled].sid;
      && sid in st.cli.flows
      && var home, pos := st.cli.flows[sid].home, st.cli.flows[sid].pos;
      && home < |st.ups| && pos < |st.ups[home].sent|
      && (sid !in st.streams.tables[c] <==>
        || (sid in st.streams.flows && st.streams.flows[sid].end.Some?)
        || sid in st.streams.refused
        || (pos < st.ups[home].handled && st.ups[home].sent[pos].ty == SUBSCRIBE)
        || pos >= st.ups[home].handled)
      && (pos >= st.ups[home].handled ==> home < c)
  {
    ReachedStreams(st, limit);
    RegistrationAt(st, c);
    var sid := st.ups[c].sent[st.ups[c].handled].sid;
    assert OpenedAt(st.ups, sid, st.cli.flows[sid]);
  }
}
