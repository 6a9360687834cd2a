// End to end: what a client has been given of a stream, over any number of disconnects and
// resumes, compared with what the server's handlers sent.

module ResumeContinuity {
  import opened Basics
  import opened Wire
  import opened Retention
  import opened Resume
  import opened ResumeServer
  import opened ResumeOrder
  import opened ResumeFate
  import opened ResumeStreams

  /** The data frames of one stream, in order. */
  function DataOf(sid: u32, ms: seq<Msg>): seq<Msg> {
    if ms == [] then []
    else
      var m, rest := ms[|ms| - 1], DataOf(sid, ms[..|ms| - 1]);
      if m.frame.sid == sid && IsData(m.frame) then rest + [m] else rest
  }

  lemma DataSnoc(sid: u32, ms: seq<Msg>, m: Msg)
    ensures DataOf(sid, ms + [m]) == if m.frame.sid == sid && IsData(m.frame) then DataOf(sid, ms) + [m]
      else DataOf(sid, ms)
  {
    assert (ms + [m])[..|ms|] == ms;
  }

  lemma {:induction false} DataMembers(sid: u32, ms: seq<Msg>)
    ensures forall m :: m in DataOf(sid, ms) <==> m in ms && m.frame.sid == sid && IsData(m.frame)
    decreases |ms|
  {
    if ms != [] {
      DataMembers(sid, ms[..|ms| - 1]);
      assert ms == ms[..|ms| - 1] + [ms[|ms| - 1]];
    }
  }

  lemma {:induction false} DataNone(sid: u32, ms: seq<Msg>)
    requires forall i :: 0 <= i < |ms| ==> !(ms[i].frame.sid == sid && IsData(ms[i].frame))
    ensures DataOf(sid, ms) == []
    decreases |ms|
  {
    if ms != [] {
      DataNone(sid, ms[..|ms| - 1]);
    }
  }

  lemma {:induction false} DataRises(sid: u32, ms: seq<Msg>)
    requires RisingPerStream(Keepable(ms))
    ensures Rising(DataOf(sid, ms))
    decreases |ms|
  {
    if ms != [] {
      var init, last := ms[..|ms| - 1], ms[|ms| - 1];
      RisingPrefixPerStream(Keepable(ms), Keepable(init));
      DataRises(sid, init);
      DataMembers(sid, init);
      KeepableMembers(init);
      forall m | m in DataOf(sid, init) && last.frame.sid == sid && IsData(last.frame) ensures m.uid < last.uid {
        var k :| 0 <= k < |Keepable(init)| && Keepable(init)[k] == m;
        assert Keepable(ms) == Keepable(init) + [last];
        assert Keepable(ms)[k].uid < Keepable(ms)[|Keepable(init)|].uid;
      }
    }
  }

  /** Everything the client's read loops have handled: of each connection, in dial order, a prefix of its queue. */
  function Handled(downs: seq<Down>): seq<Msg> {
    if downs == [] then []
    else
      var d := downs[|downs| - 1];
      Handled(downs[..|downs| - 1]) + if d.dispatched <= |d.sent| then d.sent[..d.dispatched] else d.sent
  }

  lemma {:induction false} HandledSame(a: seq<Down>, b: seq<Down>)
    requires |a| == |b|
    requires forall c :: 0 <= c < |a| ==> a[c].dispatched == b[c].dispatched <= |a[c].sent| && a[c].sent <= b[c].sent
    ensures Handled(a) == Handled(b)
    decreases |a|
  {
    if a != [] {
      var n := |a| - 1;
      HandledSame(a[..n], b[..n]);
      assert a[n].sent[..a[n].dispatched] == b[n].sent[..b[n].dispatched];
    }
  }

  lemma HandledNext(downs: seq<Down>)
    requires downs != [] && downs[|downs| - 1].dispatched < |downs[|downs| - 1].sent|
    ensures var d := downs[|downs| - 1];
      Handled(downs[|downs| - 1 := d.(dispatched := d.dispatched + 1)]) == Handled(downs) + [d.sent[d.dispatched]]
  {
    var n := |downs| - 1;
    var d := downs[n];
    var ds := downs[n := d.(dispatched := d.dispatched + 1)];
    assert ds[..n] == downs[..n];
    assert d.sent[..d.dispatched + 1] == d.sent[..d.dispatched] + [d.sent[d.dispatched]];
  }

  lemma HandledDial(downs: seq<Down>)
    ensures Handled(downs + [Down([], 0, 0)]) == Handled(downs)
  {
    var ds := downs + [Down([], 0, 0)];
    assert ds[..|ds| - 1] == downs;
  }

  // ---- the invariant ---------------------------------------------------------------------------

  /** The client adopts connections in the order the server bound them, and reads only from those it adopted. */
  ghost predicate AdoptedInOrder(srv: Server, downs: seq<Down>, cl: Client) {
    && |srv.links| == |downs| == |cl.ends|
    && (forall c :: 0 <= c < |cl.ends| && cl.ends[c].adopted ==> srv.links[c].rank.Some?)
    && (forall a, b :: 0 <= a < b < |cl.ends| && cl.ends[a].adopted && srv.links[b].rank.Some? ==>
      Earlier(srv.links[a], srv.links[b]))
    && (forall c :: 0 <= c < |downs| && downs[c].dispatched > 0 ==> cl.ends[c].adopted)
    && (cl.cur.Some? ==> cl.cur.value < |cl.ends| && cl.ends[cl.cur.value].adopted)
  }

  /** Data for a client-initiated stream is only ever sent once the stream's opening has been heard. */
  ghost predicate DataIsHeard(log: seq<Msg>, waiting: Option<Frame>, heard: set<u32>) {
    && (forall i :: 0 <= i < |log| ==> IsHeard(log[i].frame, heard))
    && (waiting.Some? ==> IsHeard(waiting.value, heard))
  }

  predicate IsHeard(f: Frame, heard: set<u32>) {
    IsData(f) && f.sid % 2 == 1 ==> f.sid in heard
  }

  /** A pending stream has been given all its data frames that were handled, as has one whose next frame is in hand; an
      ended one, those up to its end. */
  ghost predicate Delivered(cl: Client, handled: seq<Msg>) {
    forall sid: u32 :: sid in cl.flows ==>
      && cl.flows[sid].got <= DataOf(sid, handled)
      && (cl.flows[sid].end.None? || HasInHand(cl, sid) ==> cl.flows[sid].got == DataOf(sid, handled))
  }

  /** The frame in hand is the next one of the current connection. */
  ghost predicate HandIsNext(cl: Client, downs: seq<Down>) {
    cl.hand.Some? ==>
      && cl.cur.Some? && cl.cur.value < |downs|
      && var d := downs[cl.cur.value]; d.dispatched < |d.sent| && d.sent[d.dispatched] == cl.hand.value
  }

  ghost predicate Continuous(st: State, limit: int) {
    && ServerSide(st, limit) && StreamSide(st)
    && AdoptedInOrder(st.srv, st.downs, st.cli)
    && DataIsHeard(st.rec.log, st.srv.waiting, st.streams.heard)
    && HandIsNext(st.cli, st.downs)
    && Delivered(st.cli, Handled(st.downs))
  }

  // ---- AdoptedInOrder ----------------------------------------------------------------------------

  lemma AdoptedBind(srv: Server, downs: seq<Down>, cl: Client, c: nat, dies: bool, ms: seq<Msg>)
    requires OneLive(srv) && AdoptedInOrder(srv, downs, cl) && c < |srv.links| && srv.links[c].rank.None?
    ensures AdoptedInOrder(BindLink(srv, c, dies), Enqueue(downs, c, ms), cl)
  {
    BindRanks(srv, c, dies);
    forall a | 0 <= a < |srv.links| ensures srv.links[a].rank.Some? ==> srv.links[a].rank.value < srv.binds {
      assert LegalLink(srv.links[a], srv.binds, srv.conn == Some(a));
    }
  }

  lemma AdoptedLinks(srv: Server, downs: seq<Down>, cl: Client, srv2: Server, downs2: seq<Down>, cl2: Client)
    requires AdoptedInOrder(srv, downs, cl) && |srv2.links| == |srv.links| && |downs2| == |downs|
    requires |cl2.ends| == |cl.ends|
    requires forall c :: 0 <= c < |srv.links| ==> srv2.links[c].rank == srv.links[c].rank
    requires forall c :: 0 <= c < |downs| ==> downs2[c].dispatched == downs[c].dispatched
    requires forall c :: 0 <= c < |cl.ends| ==> cl2.ends[c].adopted == cl.ends[c].adopted
    requires cl2.cur == cl.cur
    ensures AdoptedInOrder(srv2, downs2, cl2)
  {
    forall a, b | 0 <= a < b < |cl2.ends| && cl2.ends[a].adopted && srv2.links[b].rank.Some?
      ensures Earlier(srv2.links[a], srv2.links[b])
    {
      assert Earlier(srv.links[a], srv.links[b]);
    }
  }

  lemma AdoptedDispatch(srv: Server, downs: seq<Down>, cl: Client, m: Msg, late: bool)
    requires AdoptedInOrder(srv, downs, cl) && ClientLive(cl)
    ensures var c := cl.cur.value;
      AdoptedInOrder(srv, downs[c := downs[c].(dispatched := downs[c].dispatched + 1)], Handle(cl, m, late))
  {
  }

  lemma AdoptedDial(srv: Server, downs: seq<Down>, cl: Client)
    requires AdoptedInOrder(srv, downs, cl)
    ensures AdoptedInOrder(srv.(links := srv.links + [Link(None, false, false)]), downs + [Down([], 0, 0)],
      cl.(ends := cl.ends + [ClientEnd(false, false)]))
  {
  }

  lemma AdoptedAdopt(srv: Server, downs: seq<Down>, cl: Client)
    requires AdoptedInOrder(srv, downs, cl) && cl.ends != [] && srv.links[|cl.ends| - 1].rank.Some?
    ensures AdoptedInOrder(srv, downs, AdoptStreams(cl, |cl.ends| - 1))
  {
  }

  lemma AdoptedQuiet(st: State, s: Step, limit: int)
    requires Enabled(st, s) && !s.Bind? && !s.Dial? && !s.Adopt? && !s.CliDispatch?
    ensures var t := Next(st, s, limit);
      && |t.srv.links| == |st.srv.links| && |t.downs| == |st.downs| && |t.cli.ends| == |st.cli.ends|
      && (forall c :: 0 <= c < |st.srv.links| ==> t.srv.links[c].rank == st.srv.links[c].rank)
      && (forall c :: 0 <= c < |st.downs| ==> t.downs[c].dispatched == st.downs[c].dispatched)
      && (forall c :: 0 <= c < |st.cli.ends| ==> t.cli.ends[c].adopted == st.cli.ends[c].adopted)
      && t.cli.cur == st.cli.cur
  {
    Framing(st, s, limit);
  }

  lemma AdoptedOther(st: State, s: Step, limit: int)
    requires AdoptedInOrder(st.srv, st.downs, st.cli)
    requires Enabled(st, s) && !s.Bind? && !s.Dial? && !s.Adopt? && !s.CliDispatch?
    ensures AdoptedInOrder(Next(st, s, limit).srv, Next(st, s, limit).downs, Next(st, s, limit).cli)
  {
    AdoptedQuiet(st, s, limit);
    AdoptedLinks(st.srv, st.downs, st.cli, Next(st, s, limit).srv, Next(st, s, limit).downs, Next(st, s, limit).cli);
  }

  lemma AdoptedAtDispatch(st: State, late: bool, limit: int)
    requires AdoptedInOrder(st.srv, st.downs, st.cli) && Enabled(st, CliDispatch(late))
    ensures var t := Next(st, CliDispatch(late), limit); AdoptedInOrder(t.srv, t.downs, t.cli)
  {
    AdoptedDispatch(st.srv, st.downs, st.cli, NextDown(st), late);
  }

  lemma AdoptedAtBind(st: State, c: nat, replay: seq<Msg>, queued: seq<Msg>, limit: int)
    requires OneLive(st.srv) && AdoptedInOrder(st.srv, st.downs, st.cli) && Enabled(st, Bind(c, replay, queued))
    ensures var t := Next(st, Bind(c, replay, queued), limit); AdoptedInOrder(t.srv, t.downs, t.cli)
  {
    AdoptedBind(st.srv, st.downs, st.cli, c, |Keepable(queued)| < |replay|, queued);
  }

  lemma AdoptedAtDial(st: State, limit: int)
    requires AdoptedInOrder(st.srv, st.downs, st.cli) && Enabled(st, Dial)
    ensures var t := Next(st, Dial, limit); AdoptedInOrder(t.srv, t.downs, t.cli)
  {
    AdoptedDial(st.srv, st.downs, st.cli);
  }

  lemma AdoptedAtAdopt(st: State, limit: int)
    requires AdoptedInOrder(st.srv, st.downs, st.cli) && Enabled(st, Adopt)
    ensures var t := Next(st, Adopt, limit); AdoptedInOrder(t.srv, t.downs, t.cli)
  {
    AdoptedAdopt(st.srv, st.downs, st.cli);
  }

  lemma AdoptedStep(st: State, s: Step, limit: int)
    requires OneLive(st.srv) && AdoptedInOrder(st.srv, st.downs, st.cli) && Enabled(st, s)
    ensures AdoptedInOrder(Next(st, s, limit).srv, Next(st, s, limit).downs, Next(st, s, limit).cli)
  {
    if s.Bind? { AdoptedAtBind(st, s.c, s.replay, s.queued, limit); }
    else if s.CliDispatch? { AdoptedAtDispatch(st, s.late, limit); }
    else if s.Dial? { AdoptedAtDial(st, limit); }
    else if s.Adopt? { AdoptedAtAdopt(st, limit); }
    else { AdoptedOther(st, s, limit); }
  }

  // ---- DataIsHeard -------------------------------------------------------------------------------

  lemma {:induction false} HeardMore(log: seq<Msg>, waiting: Option<Frame>, heard: set<u32>, more: set<u32>)
    requires DataIsHeard(log, waiting, heard)
    ensures DataIsHeard(log, waiting, heard + more) && DataIsHeard(log, None, heard)
  {
  }

  /** What is sent, or waits to be, was heard of. */
  lemma {:induction false} DataIsHeardSend(st: State, f: Frame, ended: bool, limit: int)
    requires DataIsHeard(st.rec.log, st.srv.waiting, st.streams.heard) && IsHeard(f, st.streams.heard)
    ensures var t := Send(st, f, ended, limit); DataIsHeard(t.rec.log, t.srv.waiting, t.streams.heard)
  {
  }

  lemma {:induction false} DataIsHeardBind(st: State, c: nat, replay: seq<Msg>, queued: seq<Msg>, limit: int)
    requires DataIsHeard(st.rec.log, st.srv.waiting, st.streams.heard) && Enabled(st, Bind(c, replay, queued))
    ensures var t := Next(st, Bind(c, replay, queued), limit);
      DataIsHeard(t.rec.log, t.srv.waiting, t.streams.heard)
  {
    TwoParts(queued);
  }

  lemma {:induction false} DataIsHeardDispatch(st: State, c: nat, accept: bool, limit: int)
    requires DataIsHeard(st.rec.log, st.srv.waiting, st.streams.heard) && Enabled(st, SrvDispatch(c, accept))
    ensures var t := Next(st, SrvDispatch(c, accept), limit);
      DataIsHeard(t.rec.log, t.srv.waiting, t.streams.heard)
  {
    var f := st.ups[c].sent[st.ups[c].handled];
    HeardMore(st.rec.log, st.srv.waiting, st.streams.heard, {f.sid});
    if !IsOpening(f) { EndingKeepsHeard(st.streams, c, f, accept); }
  }

  lemma {:induction false} DataIsHeardQuiet(st: State, s: Step, limit: int)
    requires DataIsHeard(st.rec.log, st.srv.waiting, st.streams.heard) && Enabled(st, s)
    requires !s.SrvDispatch? && !s.Bind? && !s.SendDown?
    ensures var t := Next(st, s, limit); DataIsHeard(t.rec.log, t.srv.waiting, t.streams.heard)
  {
    KnowledgeStays(st, s, limit);
    if s.Settle? || s.Direct? || s.Unbind? || s.Dial? || s.StartLoops? || s.SrvDie? { }
    else { ServerFraming(st, s, limit); }
  }

  lemma {:induction false} DataIsHeardStep(st: State, s: Step, limit: int)
    requires DataIsHeard(st.rec.log, st.srv.waiting, st.streams.heard) && Enabled(st, s)
    ensures var t := Next(st, s, limit); DataIsHeard(t.rec.log, t.srv.waiting, t.streams.heard)
  {
    if s.SrvDispatch? { DataIsHeardDispatch(st, s.c, s.accept, limit); }
    else if s.Bind? { DataIsHeardBind(st, s.c, s.replay, s.queued, limit); }
    else if s.SendDown? { DataIsHeardSend(st, s.f, s.ended, limit); }
    else { DataIsHeardQuiet(st, s, limit); }
  }

  // ---- HandIsNext --------------------------------------------------------------------------------

  lemma {:induction false} HandStep(st: State, s: Step, limit: int)
    requires HandIsNext(st.cli, st.downs) && Drawn(st.cli) && Enabled(st, s)
    ensures HandIsNext(Next(st, s, limit).cli, Next(st, s, limit).downs)
  {
    if s.CliDispatch? { DrawnHandle(st.cli, NextDown(st), s.late); }
    else if Sends(s) || s.Direct? || s.Bind? || s.WriteOut? || s.Dial? || ClientActs(s) { }
    else { Framing(st, s, limit); }
  }

  // ---- Delivered ---------------------------------------------------------------------------------

  /** A new stream has no data yet: whatever is queued for it would have had to be heard of first. */
  lemma NothingForNewStream(st: State, limit: int, sid: u32)
    requires Continuous(st, limit) && sid % 2 == 1 && sid !in st.cli.flows
    ensures DataOf(sid, Handled(st.downs)) == []
  {
    assert sid !in st.streams.heard;
    HandledFromLog(st.downs, st.rec.log);
    DataNone(sid, Handled(st.downs));
  }

  lemma {:induction false} HandledFromLog(downs: seq<Down>, log: seq<Msg>)
    requires InOrder(downs, log)
    ensures FromLog(Handled(downs), log)
    decreases |downs|
  {
    if downs != [] {
      HandledFromLog(downs[..|downs| - 1], log);
      assert Orderly(downs[|downs| - 1].sent, log);
    }
  }

  /** A stream given the next of its data frames, or not concerned by it. */
  lemma {:induction false} DeliveredOne(cl: Client, handled: seq<Msg>, m: Msg, late: bool, sid: u32)
    requires Tabled(cl) && Drawn(cl) && Delivered(cl, handled)
    requires (cl.hand.Some? ==> cl.hand.value == m) && sid in cl.flows
    ensures var d := Handle(cl, m, late);
      && sid in d.flows && d.flows[sid].got <= DataOf(sid, handled + [m])
      && (d.flows[sid].end.None? ==> d.flows[sid].got == DataOf(sid, handled + [m]))
  {
    DataSnoc(sid, handled, m);
    assert cl.flows[sid].end.None? ==> Pending(cl.flows, sid);
  }

  /** The next frame is handled: it goes to its stream if that is pending, or was when it was looked up. */
  lemma {:induction false} DeliveredHandle(cl: Client, handled: seq<Msg>, m: Msg, late: bool)
    requires Tabled(cl) && Drawn(cl) && Delivered(cl, handled) && (cl.hand.Some? ==> cl.hand.value == m)
    ensures Delivered(Handle(cl, m, late), handled + [m])
  {
    var d := Handle(cl, m, late);
    DrawnHandle(cl, m, late);
    assert d.flows.Keys == cl.flows.Keys;
    forall sid: u32 | sid in d.flows
      ensures d.flows[sid].got <= DataOf(sid, handled + [m])
      ensures d.flows[sid].end.None? || HasInHand(d, sid) ==> d.flows[sid].got == DataOf(sid, handled + [m])
    {
      DeliveredOne(cl, handled, m, late, sid);
    }
  }

  /** Ends, lookups and migrations change neither what was given nor, backwards, a pending stream. */
  lemma {:induction false} DeliveredSame(a: Client, b: Client, handled: seq<Msg>)
    requires Delivered(a, handled) && a.flows.Keys == b.flows.Keys
    requires forall sid: u32 :: sid in a.flows ==> SameGiven(a, b, sid)
    ensures Delivered(b, handled)
  {
    forall sid: u32 | sid in b.flows
      ensures b.flows[sid].got <= DataOf(sid, handled)
      ensures b.flows[sid].end.None? || HasInHand(b, sid) ==> b.flows[sid].got == DataOf(sid, handled)
    {
      assert SameGiven(a, b, sid);
    }
  }

  predicate SameGiven(a: Client, b: Client, sid: u32) {
    && sid in a.flows && sid in b.flows
    && b.flows[sid].got == a.flows[sid].got && (b.flows[sid].end.None? ==> a.flows[sid].end.None?)
    && (HasInHand(b, sid) ==> HasInHand(a, sid) || a.flows[sid].end.None?)
  }

  lemma {:induction false} DeliveredNext(cl: Client, downs: seq<Down>, late: bool)
    requires Tabled(cl) && Drawn(cl) && Delivered(cl, Handled(downs))
    requires downs != [] && downs[|downs| - 1].dispatched < |downs[|downs| - 1].sent|
    requires cl.hand.Some? ==> var d := downs[|downs| - 1]; cl.hand.value == d.sent[d.dispatched]
    ensures var d := downs[|downs| - 1];
      Delivered(Handle(cl, d.sent[d.dispatched], late),
        Handled(downs[|downs| - 1 := d.(dispatched := d.dispatched + 1)]))
  {
    var d := downs[|downs| - 1];
    HandledNext(downs);
    DeliveredHandle(cl, Handled(downs), d.sent[d.dispatched], late);
  }

  lemma {:induction false} DeliveredDispatch(st: State, late: bool, limit: int)
    requires Tabled(st.cli) && Drawn(st.cli) && HandIsNext(st.cli, st.downs) && Delivered(st.cli, Handled(st.downs))
    requires Enabled(st, CliDispatch(late))
    ensures var t := Next(st, CliDispatch(late), limit); Delivered(t.cli, Handled(t.downs))
  {
    NextIsLast(st);
    DeliveredNext(st.cli, st.downs, late);
  }

  lemma {:induction false} NextIsLast(st: State)
    requires Tabled(st.cli) && Shaped(st) && HasNext(st)
    ensures st.cli.cur.value == |st.downs| - 1
  {
  }

  lemma {:induction false} DeliveredOpen(st: State, f: Frame, limit: int)
    requires Continuous(st, limit) && Enabled(st, OpenStream(f))
    ensures Delivered(Next(st, OpenStream(f), limit).cli, Handled(st.downs))
  {
    FreshNumber(st.cli, f.sid);
    NothingForNewStream(st, limit, f.sid);
    DeliveredOpened(st.cli, f.sid, st.cli.cur.value, |st.ups[st.cli.cur.value].sent|, Handled(st.downs));
  }

  lemma {:induction false} DeliveredOpened(cl: Client, sid: u32, c: nat, pos: nat, handled: seq<Msg>)
    requires Delivered(cl, handled) && sid !in cl.flows && DataOf(sid, handled) == []
    ensures Delivered(Opened(cl, sid, c, pos), handled)
  {
  }

  lemma HandledStays(st: State, s: Step, limit: int)
    requires Plumbed(st.srv, st.downs) && Enabled(st, s) && !s.CliDispatch?
    ensures Handled(Next(st, s, limit).downs) == Handled(st.downs)
  {
    var t := Next(st, s, limit);
    if s.Dial? { HandledDial(st.downs); }
    else if s.Bind? || Sends(s) || s.Direct? || s.WriteOut? {
      HandledSame(st.downs, t.downs);
    }
    else { Framing(st, s, limit); }
  }

  lemma {:induction false} GivenStays(st: State, s: Step, limit: int)
    requires Tabled(st.cli) && Enabled(st, s) && !s.CliDispatch? && !s.OpenStream?
    ensures var b := Next(st, s, limit).cli;
      b.flows.Keys == st.cli.flows.Keys && forall sid: u32 :: sid in b.flows ==> SameGiven(st.cli, b, sid)
  {
    if s.Lookup? { assert Pending(st.cli.flows, NextDown(st).frame.sid); }
    else if !ClientActs(s) { Framing(st, s, limit); }
  }

  lemma {:induction false} DeliveredStep(st: State, s: Step, limit: int)
    requires Continuous(st, limit) && Enabled(st, s)
    ensures Delivered(Next(st, s, limit).cli, Handled(Next(st, s, limit).downs))
  {
    if s.CliDispatch? { DeliveredDispatch(st, s.late, limit); }
    else {
      HandledStays(st, s, limit);
      if s.OpenStream? { DeliveredOpen(st, s.f, limit); }
      else {
        GivenStays(st, s, limit);
        DeliveredSame(st.cli, Next(st, s, limit).cli, Handled(st.downs));
      }
    }
  }

  // ---- every run -----------------------------------------------------------------------------------

  lemma ContinuousStep(st: State, s: Step, limit: int)
    requires Continuous(st, limit) && Enabled(st, s)
    ensures Continuous(Next(st, s, limit), limit)
  {
    ServerSideStep(st, s, limit);
    StreamSideStep(st, s, limit);
    AdoptedStep(st, s, limit);
    DataIsHeardStep(st, s, limit);
    HandStep(st, s, limit);
    DeliveredStep(st, s, limit);
  }

  lemma {:induction false} ContinuousRun(st: State, run: seq<Step>, limit: int)
    requires Continuous(st, limit) && Runnable(st, run, limit)
    ensures Continuous(Run(st, run, limit), limit)
    decreases |run|
  {
    if run != [] {
      ContinuousStep(st, run[0], limit);
      ContinuousRun(Next(st, run[0], limit), run[1..], limit);
    }
  }

  /** A prefix of an orderly queue. */
  lemma {:induction false} OrderlyPrefix(sent: seq<Msg>, log: seq<Msg>, n: nat)
    requires Orderly(sent, log) && n <= |sent|
    ensures RisingPerStream(Keepable(sent[..n]))
    ensures forall m :: m in Keepable(sent[..n]) ==> m in sent
  {
    KeepablePrefix(sent[..n], sent);
    KeepableMembers(sent[..n]);
    RisingPrefixPerStream(Keepable(sent), Keepable(sent[..n]));
  }

  /** Handled on one of the connections. */
  ghost predicate FromSome(downs: seq<Down>, m: Msg) {
    exists c :: 0 <= c < |downs| && downs[c].dispatched > 0 && m in downs[c].sent
  }

  lemma {:induction false} EarlierThan(srv: Server, downs: seq<Down>, cl: Client, n: nat, x: Msg, y: Msg)
    requires AdoptedInOrder(srv, downs, cl) && Ranked(srv.links, downs) && n < |downs|
    requires FromSome(downs[..n], x) && downs[n].dispatched > 0 && y in downs[n].sent
    ensures x.uid < y.uid
  {
    var c :| 0 <= c < n && downs[..n][c].dispatched > 0 && x in downs[..n][c].sent;
    assert Earlier(srv.links[c], srv.links[n]);
    assert Before(downs[c].sent, downs[n].sent);
    var k :| 0 <= k < |downs[c].sent| && downs[c].sent[k] == x;
    var j :| 0 <= j < |downs[n].sent| && downs[n].sent[j] == y;
    assert downs[c].sent[k].uid < downs[n].sent[j].uid;
  }

  /** Taken together, the frames the client has handled that came through the session are in the order they were sent,
      stream by stream. */
  lemma {:induction false} HandledRises(srv: Server, downs: seq<Down>, cl: Client, n: nat, log: seq<Msg>)
    requires AdoptedInOrder(srv, downs, cl) && Ranked(srv.links, downs) && InOrder(downs, log) && n <= |downs|
    requires Plumbed(srv, downs)
    ensures RisingPerStream(Keepable(Handled(downs[..n])))
    ensures forall m :: m in Keepable(Handled(downs[..n])) ==> FromSome(downs[..n], m)
    decreases n
  {
    if n > 0 {
      HandledRises(srv, downs, cl, n - 1, log);
      var d := downs[n - 1];
      assert downs[..n][..n - 1] == downs[..n - 1];
      var early, late := Handled(downs[..n - 1]), d.sent[..d.dispatched];
      assert Handled(downs[..n]) == early + late;
      KeepableAppend(early, late);
      assert Orderly(d.sent, log);
      OrderlyPrefix(d.sent, log, d.dispatched);
      var k, l := Keepable(early), Keepable(late);
      forall i, j | 0 <= i < |k| && 0 <= j < |l| ensures k[i].uid < l[j].uid {
        assert k[i] in k && l[j] in l;
        assert late != [];
        EarlierThan(srv, downs, cl, n - 1, k[i], l[j]);
      }
      RisingJoin(k, l);
      forall m | m in Keepable(Handled(downs[..n])) ensures FromSome(downs[..n], m) {
        Widened(downs, n, m, k, l);
      }
    }
  }

  lemma {:induction false} Widened(downs: seq<Down>, n: nat, m: Msg, k: seq<Msg>, l: seq<Msg>)
    requires 0 < n <= |downs| && m in k + l
    requires m in k ==> FromSome(downs[..n - 1], m)
    requires m in l ==> downs[n - 1].dispatched > 0 && m in downs[n - 1].sent
    ensures FromSome(downs[..n], m)
  {
    if m in l {
      assert downs[..n][n - 1] == downs[n - 1];
    } else {
      var c :| 0 <= c < n - 1 && downs[..n - 1][c].dispatched > 0 && m in downs[..n - 1][c].sent;
      assert downs[..n][c] == downs[..n - 1][c];
    }
  }

  lemma RisingJoin(a: seq<Msg>, b: seq<Msg>)
    requires RisingPerStream(a) && RisingPerStream(b)
    requires forall i, j :: 0 <= i < |a| && 0 <= j < |b| ==> a[i].uid < b[j].uid
    ensures RisingPerStream(a + b)
  {
  }

  /** Every frame of the list was sent down on this stream, in this order, and none is there twice. */
  ghost predicate InOrderWithoutDuplicates(got: seq<Msg>, sid: u32, log: seq<Msg>) {
    && Rising(got)
    && forall i :: 0 <= i < |got| ==> got[i].uid < |log| && log[got[i].uid] == got[i] && got[i].frame.sid == sid
  }

  lemma SelectionOfLog(st: State, limit: int, sid: u32)
    requires Continuous(st, limit)
    ensures InOrderWithoutDuplicates(DataOf(sid, Handled(st.downs)), sid, st.rec.log)
  {
    var n := |st.downs|;
    assert st.downs[..n] == st.downs;
    HandledRises(st.srv, st.downs, st.cli, n, st.rec.log);
    HandledFromLog(st.downs, st.rec.log);
    DataRises(sid, Handled(st.downs));
    DataMembers(sid, Handled(st.downs));
    AllFromLog(DataOf(sid, Handled(st.downs)), Handled(st.downs), sid, st.rec.log);
  }

  lemma AllFromLog(part: seq<Msg>, all: seq<Msg>, sid: u32, log: seq<Msg>)
    requires FromLog(all, log) && forall m :: m in part ==> m in all && m.frame.sid == sid
    ensures forall i :: 0 <= i < |part| ==>
      part[i].uid < |log| && log[part[i].uid] == part[i]
      && part[i].frame.sid == sid
  {
    forall i | 0 <= i < |part| ensures part[i].uid < |log| && log[part[i].uid] == part[i] && part[i].frame.sid == sid {
      assert part[i] in part;
      var k :| 0 <= k < |all| && all[k] == part[i];
    }
  }

  lemma {:induction false} ContinuityAt(st: State, limit: int, sid: u32)
    requires Continuous(st, limit) && sid in st.cli.flows
    ensures st.cli.flows[sid].end.None? ==> st.cli.flows[sid].got == DataOf(sid, Handled(st.downs))
    ensures st.cli.flows[sid].got <= DataOf(sid, Handled(st.downs))
    ensures InOrderWithoutDuplicates(st.cli.flows[sid].got, sid, st.rec.log)
    ensures forall c :: 0 <= c < |st.cli.ends| - 1 ==> st.cli.ends[c].dead
  {
    SelectionOfLog(st, limit, sid);
    RisingPrefix(DataOf(sid, Handled(st.downs)), st.cli.flows[sid].got);
  }

  lemma {:induction false} ContinuousFromStart(run: seq<Step>, limit: int)
    requires Runnable(START, run, limit)
    ensures Continuous(Run(START, run, limit), limit)
  {
    ServerSideStart(limit);
    ContinuousRun(START, run, limit);
  }

  /** End-to-end continuity: over any number of disconnects, resumes, takeovers and lost connections, what a client has
      been given of a stream is, connection by connection, the data frames of that stream in the handled prefix of the
      queue; nothing handled is missing while the stream is pending; and so it is an in-order, duplicate-free selection
      of what the handlers sent, missing only frames never queued and the unhandled rests of connections dead to the
      client. */
  lemma {:induction false} EndToEndContinuity(run: seq<Step>, limit: int, sid: u32)
    requires Runnable(START, run, limit) && sid in Run(START, run, limit).cli.flows
    ensures var st := Run(START, run, limit);
      var fl := st.cli.flows[sid];
      && (fl.end.None? ==> fl.got == DataOf(sid, Handled(st.downs)))
      && fl.got <= DataOf(sid, Handled(st.downs))
      && (forall i, j :: 0 <= i < j < |fl.got| ==> fl.got[i].uid < fl.got[j].uid)
      && (forall i :: 0 <= i < |fl.got| ==>
        fl.got[i].uid < |st.rec.log| && st.rec.log[fl.got[i].uid] == fl.got[i] && fl.got[i].frame.sid == sid)
      && (forall c :: 0 <= c < |st.cli.ends| - 1 ==> st.cli.ends[c].dead)
  {
    ContinuousFromStart(run, limit);
    ContinuityAt(Run(START, run, limit), limit, sid);
  }

  // ---- data finds its stream -----------------------------------------------------------------------

  lemma {:induction false} DataIsKnown(st: State, limit: int, c: nat, i: nat)
    requires Continuous(st, limit) && c < |st.downs| && i < |st.downs[c].sent|
    requires var f := st.downs[c].sent[i].frame; IsData(f) && f.sid % 2 == 1
    ensures st.downs[c].sent[i].frame.sid in st.cli.flows
    ensures st.downs[c].sent[i].frame.sid in st.cli.table <==> st.cli.flows[st.downs[c].sent[i].frame.sid].end.None?
  {
    var m := st.downs[c].sent[i];
    assert Orderly(st.downs[c].sent, st.rec.log);
    assert st.rec.log[m.uid] == m;
    assert m.frame.sid in st.streams.heard;
    assert Arrived(st.cli.flows, st.ups, m.frame.sid);
    assert m.frame.sid in st.cli.table <==> Pending(st.cli.flows, m.frame.sid);
  }

  /** Registration precedes traffic, downward: every data frame of a client-initiated stream in any connection's queue,
      replayed or fresh, handled or not, is for a stream the client has opened; and it is registered at the client's
      current endpoint exactly as long as it has not ended. */
  lemma {:induction false} DataFindsItsStream(run: seq<Step>, limit: int, c: nat, i: nat)
    requires Runnable(START, run, limit)
    requires var ds := Run(START, run, limit).downs; c < |ds| && i < |ds[c].sent|
    requires var f := Run(START, run, limit).downs[c].sent[i].frame; IsData(f) && f.sid % 2 == 1
    ensures var st := Run(START, run, limit);
      var sid := st.downs[c].sent[i].frame.sid;
      sid in st.cli.flows && (sid in st.cli.table <==> st.cli.flows[sid].end.None?)
  {
    ContinuousFromStart(run, limit);
    DataIsKnown(Run(START, run, limit), limit, c, i);
  }

  // ---- what can be missing -------------------------------------------------------------------------

  ghost predicate QueuedAt(downs: seq<Down>, c: nat, i: nat, u: nat) {
    c < |downs| && i < |downs[c].sent| && downs[c].sent[i].uid == u
  }

  lemma {:induction false} PlacedIsQueued(downs: seq<Down>, u: nat) returns (c: nat, i: nat)
    requires u in Placed(downs)
    ensures QueuedAt(downs, c, i, u)
    decreases |downs|
  {
    if u in Uids(downs[0].sent) {
      c := 0;
      var m :| m in downs[0].sent && m.uid == u;
      i :| 0 <= i < |downs[0].sent| && downs[0].sent[i] == m;
    } else {
      c, i := PlacedIsQueued(downs[1..], u);
      assert downs[1..][c] == downs[c + 1];
      c := c + 1;
    }
  }

  lemma {:induction false} HandledHas(downs: seq<Down>, c: nat, i: nat)
    requires c < |downs| && i < downs[c].dispatched <= |downs[c].sent|
    ensures downs[c].sent[i] in Handled(downs)
    decreases |downs|
  {
    var n := |downs| - 1;
    var d := downs[n];
    var tail := if d.dispatched <= |d.sent| then d.sent[..d.dispatched] else d.sent;
    assert Handled(downs) == Handled(downs[..n]) + tail;
    if c < n {
      HandledHas(downs[..n], c, i);
    } else {
      assert tail[i] == downs[c].sent[i];
    }
  }

  /** Queued on a connection, but beyond what the client has handled of it. */
  ghost predicate Underway(downs: seq<Down>, u: nat) {
    exists c: nat, i: nat :: QueuedAt(downs, c, i, u) && downs[c].dispatched <= i
  }

  lemma {:induction false} MissingAt(st: State, limit: int, sid: u32, u: nat)
    requires Continuous(st, limit) && Pending(st.cli.flows, sid) && u in Placed(st.downs)
    requires u < |st.rec.log| && st.rec.log[u].frame.sid == sid && IsData(st.rec.log[u].frame)
    ensures st.rec.log[u] in st.cli.flows[sid].got || Underway(st.downs, u)
  {
    var c, i := PlacedIsQueued(st.downs, u);
    assert Orderly(st.downs[c].sent, st.rec.log);
    if i < st.downs[c].dispatched {
      HandledHas(st.downs, c, i);
      DataMembers(sid, Handled(st.downs));
    }
  }

  /** Nothing else goes missing: each data frame a handler ever sent on a stream that is still pending has been given to
      the client's stream, or is in the unread rest of some connection's queue, or waits for the next bind, or was
      rejected by a dead connection, or was given up because its sender's context ended, or fell to an overflow. */
  lemma {:induction false} NothingElseMissing(st: State, limit: int, sid: u32, u: nat)
    requires Reachable(st, limit) && sid in st.cli.flows && st.cli.flows[sid].end == None
    requires u < |st.rec.log| && st.rec.log[u].frame.sid == sid && st.rec.log[u].frame.ty in {RESPONSE, PUBLISH}
    ensures
      || st.rec.log[u] in st.cli.flows[sid].got
      || (exists c, i ::
        0 <= c < |st.downs| && st.downs[c].dispatched <= i < |st.downs[c].sent| && st.downs[c].sent[i].uid == u)
      || u in Uids(st.rec.kept)
      || u in st.rec.rejected
      || u in st.rec.abandoned
      || u in st.rec.lost
  {
    ReachedFates(st, limit);
    assert u in Placed(st.downs) + Uids(st.rec.kept) + st.rec.rejected + st.rec.abandoned + st.rec.lost;
    if u in Placed(st.downs) {
      MissingReached(st, limit, sid, u);
    }
  }

  lemma {:induction false} ReachedFates(st: State, limit: int)
    requires Reachable(st, limit)
    ensures forall u: nat :: u < |st.rec.log| ==>
      u in Placed(st.downs) + Uids(st.rec.kept) + st.rec.rejected + st.rec.abandoned + st.rec.lost
  {
    var run :| Runnable(START, run, limit) && Run(START, run, limit) == st;
    ExactlyOneFate(run, limit);
  }

  lemma {:induction false} MissingReached(st: State, limit: int, sid: u32, u: nat)
    requires Reachable(st, limit) && Pending(st.cli.flows, sid) && u in Placed(st.downs)
    requires u < |st.rec.log| && st.rec.log[u].frame.sid == sid && IsData(st.rec.log[u].frame)
    ensures st.rec.log[u] in st.cli.flows[sid].got || Underway(st.downs, u)
  {
    ReachedContinuous(st, limit);
    MissingAt(st, limit, sid, u);
  }

  lemma {:induction false} ReachedContinuous(st: State, limit: int)
    requires Reachable(st, limit)
    ensures Continuous(st, limit)
  {
    var run :| Runnable(START, run, limit) && Run(START, run, limit) == st;
    ContinuousFromStart(run, limit);
  }
}
