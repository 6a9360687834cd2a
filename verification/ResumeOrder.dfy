// What happens to every frame a session sends down: it enters at most one connection's queue,
// each stream in the order it was sent, or it is kept, rejected or lost, and exactly one of these.

module ResumeOrder {
  import opened Basics
  import opened Wire
  import opened Retention
  import opened Resume
  import opened ResumeServer

  // ---- lists of increasing identity -----------------------------------------------------------

  ghost predicate Rising(ms: seq<Msg>) {
    forall i, j :: 0 <= i < j < |ms| ==> ms[i].uid < ms[j].uid
  }

  /** Within each stream the identities rise; streams may interleave anyhow. */
  ghost predicate RisingPerStream(ms: seq<Msg>) {
    forall i, j :: 0 <= i < j < |ms| && ms[i].frame.sid == ms[j].frame.sid ==> ms[i].uid < ms[j].uid
  }

  ghost predicate Distinct(ms: seq<Msg>) {
    forall i, j :: 0 <= i < j < |ms| ==> ms[i].uid != ms[j].uid
  }

  /** Every message is the one the log has under its identity. */
  ghost predicate FromLog(ms: seq<Msg>, log: seq<Msg>) {
    forall i :: 0 <= i < |ms| ==> ms[i].uid < |log| && log[ms[i].uid] == ms[i]
  }

  ghost predicate Numbered(log: seq<Msg>) {
    forall i :: 0 <= i < |log| ==> log[i].uid == i
  }

  lemma {:induction false} KeepableRises(ms: seq<Msg>)
    requires Rising(ms)
    ensures Rising(Keepable(ms)) && forall m :: m in Keepable(ms) ==> m in ms
    decreases |ms|
  {
    if ms != [] {
      var init := ms[..|ms| - 1];
      KeepableRises(init);
      forall m | m in Keepable(init) ensures m.uid < ms[|ms| - 1].uid {
        assert m in init;
      }
    }
  }

  lemma {:induction false} OnlyRises(sid: u32, ms: seq<Msg>)
    requires Rising(ms)
    ensures Rising(Only(sid, ms))
    decreases |ms|
  {
    if ms != [] {
      var init := ms[..|ms| - 1];
      OnlyRises(sid, init);
      OnlyMembers(sid, init);
      forall m | m in Only(sid, init) ensures m.uid < ms[|ms| - 1].uid {
        assert m in init;
      }
    }
  }

  lemma {:induction false} StreamsRise(ms: seq<Msg>)
    requires forall sid: u32 :: Rising(Only(sid, ms))
    ensures RisingPerStream(ms)
    decreases |ms|
  {
    if ms != [] {
      var init, last := ms[..|ms| - 1], ms[|ms| - 1];
      forall sid: u32 ensures Rising(Only(sid, init)) {
        RisingPrefix(Only(sid, ms), Only(sid, init));
      }
      StreamsRise(init);
      var mine := Only(last.frame.sid, init);
      assert Only(last.frame.sid, ms) == mine + [last];
      OnlyMembers(last.frame.sid, init);
      forall i | 0 <= i < |init| && init[i].frame.sid == last.frame.sid ensures init[i].uid < last.uid {
        assert init[i] in mine;
        var k :| 0 <= k < |mine| && mine[k] == init[i];
        assert (mine + [last])[k].uid < (mine + [last])[|mine|].uid;
      }
    }
  }

  lemma RisingPrefix(all: seq<Msg>, part: seq<Msg>)
    requires Rising(all) && part <= all
    ensures Rising(part)
  {
  }

  lemma RisingDistinct(ms: seq<Msg>, log: seq<Msg>)
    requires FromLog(ms, log) && RisingPerStream(ms)
    ensures Distinct(ms)
  {
  }

  lemma NumberedDistinct(ms: seq<Msg>, uid: nat)
    requires NumberedFrom(ms, uid)
    ensures Distinct(ms)
  {
  }

  lemma DistinctPrefix(all: seq<Msg>, part: seq<Msg>)
    requires Distinct(all) && part <= all
    ensures Distinct(part)
  {
  }

  /** A list whose two parts have no identity in common, nor twice, has none twice. */
  lemma {:induction false} DistinctParts(ms: seq<Msg>, floor: nat)
    requires Distinct(Keepable(ms)) && Distinct(Passing(ms))
    requires forall m :: m in Keepable(ms) ==> m.uid < floor
    requires forall m :: m in Passing(ms) ==> floor <= m.uid
    ensures Distinct(ms)
    decreases |ms|
  {
    if ms != [] {
      var init, last := ms[..|ms| - 1], ms[|ms| - 1];
      DistinctPrefix(Keepable(ms), Keepable(init));
      DistinctPrefix(Passing(ms), Passing(init));
      DistinctParts(init, floor);
      TwoParts(init);
      forall i | 0 <= i < |init| ensures init[i].uid != last.uid {
        LastIsNew(ms, init[i], floor);
      }
    }
  }

  lemma {:induction false} LastIsNew(ms: seq<Msg>, m: Msg, floor: nat)
    requires ms != [] && Distinct(Keepable(ms)) && Distinct(Passing(ms))
    requires forall x :: x in Keepable(ms) ==> x.uid < floor
    requires forall x :: x in Passing(ms) ==> floor <= x.uid
    requires m in ms[..|ms| - 1]
    ensures m.uid != ms[|ms| - 1].uid
  {
    var init, last := ms[..|ms| - 1], ms[|ms| - 1];
    TwoParts(init);
    var part, more := if Retainable(last.frame.ty) then Keepable(init) else Passing(init),
                      if Retainable(last.frame.ty) then Keepable(ms) else Passing(ms);
    assert more == part + [last];
    assert last in more;
    if m in part {
      var k :| 0 <= k < |part| && part[k] == m;
      assert more[k] == m && more[|part|] == last;
    } else if Retainable(last.frame.ty) {
      assert m in Passing(init) && m in Passing(ms);
    } else {
      assert m in Keepable(init) && m in Keepable(ms);
    }
  }

  // ---- the invariant --------------------------------------------------------------------------

  /** Queues of unbound connections are empty, and the loops stay within what was queued. */
  ghost predicate Plumbed(srv: Server, downs: seq<Down>) {
    && |downs| == |srv.links|
    && (forall c :: 0 <= c < |downs| ==>
      downs[c].dispatched <= |downs[c].sent|
      && (srv.links[c].rank.None? ==> downs[c].sent == []))
  }

  ghost predicate Before(a: seq<Msg>, b: seq<Msg>) {
    forall i, j :: 0 <= i < |a| && 0 <= j < |b| ==> a[i].uid < b[j].uid
  }

  /** Logged frames, none twice, and of each stream those that came through the session in the order they were sent.
      Only the others, which take no lock, may overtake a replay. */
  ghost predicate Orderly(ms: seq<Msg>, log: seq<Msg>) {
    FromLog(ms, log) && Distinct(ms) && RisingPerStream(Keepable(ms))
  }

  ghost predicate InOrder(downs: seq<Down>, log: seq<Msg>) {
    forall c :: 0 <= c < |downs| ==> Orderly(downs[c].sent, log)
  }

  predicate Earlier(a: Link, b: Link) {
    a.rank.Some? && b.rank.Some? && a.rank.value < b.rank.value
  }

  /** A connection bound earlier carries only earlier frames. */
  ghost predicate Ranked(links: seq<Link>, downs: seq<Down>) {
    |links| == |downs| &&
    forall a, b :: 0 <= a < |downs| && 0 <= b < |downs| && Earlier(links[a], links[b]) ==>
      Before(downs[a].sent, downs[b].sent)
  }

  /** Only frames from before `since` have been queued. */
  ghost predicate AllBefore(downs: seq<Down>, since: nat) {
    forall c, i :: 0 <= c < |downs| && 0 <= i < |downs[c].sent| ==> downs[c].sent[i].uid < since
  }

  ghost predicate Ordered(srv: Server, downs: seq<Down>, r: Recovery) {
    && Plumbed(srv, downs)
    && Numbered(r.log)
    && InOrder(downs, r.log)
    && Ranked(srv.links, downs)
    && (srv.conn.None? ==> AllBefore(downs, r.since))
  }

  lemma OrderlyLonger(ms: seq<Msg>, log: seq<Msg>, more: seq<Msg>)
    requires Orderly(ms, log)
    ensures Orderly(ms, log + more)
  {
  }

  lemma {:induction false} RisingSnoc(kept: seq<Msg>, m: Msg)
    requires RisingPerStream(kept) && forall x :: x in kept ==> x.uid < m.uid
    ensures RisingPerStream(kept + [m])
  {
  }

  lemma {:induction false} KeepableFromLog(ms: seq<Msg>, log: seq<Msg>)
    requires FromLog(ms, log)
    ensures forall x :: x in Keepable(ms) ==> x.uid < |log|
  {
    KeepableMembers(ms);
  }

  lemma {:induction false} OrderlySnoc(ms: seq<Msg>, log: seq<Msg>, m: Msg)
    requires Orderly(ms, log) && m.uid == |log|
    ensures Orderly(ms + [m], log + [m])
  {
    KeepableSnoc(ms, m);
    KeepableFromLog(ms, log);
    RisingSnoc(Keepable(ms), m);
    FromLogSnoc(ms, log, m);
    DistinctSnoc(ms, m);
  }

  lemma {:induction false} FromLogSnoc(ms: seq<Msg>, log: seq<Msg>, m: Msg)
    requires FromLog(ms, log) && m.uid == |log|
    ensures FromLog(ms + [m], log + [m]) && forall i :: 0 <= i < |ms| ==> ms[i].uid < m.uid
  {
  }

  lemma {:induction false} DistinctSnoc(ms: seq<Msg>, m: Msg)
    requires Distinct(ms) && forall i :: 0 <= i < |ms| ==> ms[i].uid < m.uid
    ensures Distinct(ms + [m])
  {
  }

  /** What a bind queues: the numbers it adds to the log are those of the frames that came in between. */
  lemma {:induction false} OrderlyBind(log: seq<Msg>, replay: seq<Msg>, queued: seq<Msg>)
    requires Numbered(log) && FromLog(replay, log) && RisingPerStream(replay)
    requires Keepable(queued) <= replay && NumberedFrom(Passing(queued), |log|)
    ensures Orderly(queued, log + Passing(queued)) && Numbered(log + Passing(queued))
  {
    var kept, passing := Keepable(queued), Passing(queued);
    RisingPrefixPerStream(replay, kept);
    RisingDistinct(kept, log);
    NumberedDistinct(passing, |log|);
    DistinctParts(queued, |log|);
    TwoParts(queued);
    forall i | 0 <= i < |queued| ensures queued[i].uid < |log + passing|
      && (log + passing)[queued[i].uid] == queued[i] {
      assert queued[i] in queued;
      if queued[i] in kept {
        var k :| 0 <= k < |kept| && kept[k] == queued[i];
        assert replay[k] == queued[i];
      } else {
        var k :| 0 <= k < |passing| && passing[k] == queued[i];
      }
    }
  }

  lemma RisingPrefixPerStream(all: seq<Msg>, part: seq<Msg>)
    requires RisingPerStream(all) && part <= all
    ensures RisingPerStream(part)
  {
  }

  lemma InOrderLonger(downs: seq<Down>, log: seq<Msg>, more: seq<Msg>)
    requires InOrder(downs, log)
    ensures InOrder(downs, log + more)
  {
    forall c | 0 <= c < |downs| ensures Orderly(downs[c].sent, log + more) {
      OrderlyLonger(downs[c].sent, log, more);
    }
  }

  lemma InOrderEnqueue(downs: seq<Down>, log: seq<Msg>, c: nat, m: Msg)
    requires InOrder(downs, log) && c < |downs| && m.uid == |log|
    ensures InOrder(Enqueue(downs, c, [m]), log + [m])
  {
    OrderlySnoc(downs[c].sent, log, m);
    InOrderLonger(downs, log, [m]);
  }

  /** New frames later than everything queued so far enter the queue of the connection bound last. */
  lemma RankedEnqueue(links: seq<Link>, downs: seq<Down>, c: nat, ms: seq<Msg>, floor: nat)
    requires Ranked(links, downs) && c < |downs| && AllBefore(downs, floor)
    requires forall b :: 0 <= b < |links| ==> !Earlier(links[c], links[b])
    requires forall i :: 0 <= i < |ms| ==> floor <= ms[i].uid
    ensures Ranked(links, Enqueue(downs, c, ms))
  {
    var ds := Enqueue(downs, c, ms);
    forall a, b | 0 <= a < |ds| && 0 <= b < |ds| && Earlier(links[a], links[b]) ensures Before(ds[a].sent, ds[b].sent) {
      assert Before(downs[a].sent, downs[b].sent);
    }
  }

  lemma InOrderIsPast(downs: seq<Down>, log: seq<Msg>)
    requires InOrder(downs, log)
    ensures AllBefore(downs, |log|)
  {
    forall c, i | 0 <= c < |downs| && 0 <= i < |downs[c].sent| ensures downs[c].sent[i].uid < |log| {
      assert Orderly(downs[c].sent, log);
    }
  }

  lemma OrderedLonger(srv: Server, downs: seq<Down>, r: Recovery, f: Frame)
    requires Ordered(srv, downs, r)
    ensures Ordered(srv, downs, Logged(r, f))
  {
    InOrderLonger(downs, r.log, [Msg(|r.log|, f)]);
  }

  /** A fresh frame enters the queue of the bound connection. */
  lemma {:induction false} OrderedEnqueue(srv: Server, downs: seq<Down>, r: Recovery, f: Frame)
    requires OneLive(srv) && Ordered(srv, downs, r) && srv.conn.Some?
    ensures Ordered(srv, Enqueue(downs, srv.conn.value, [Msg(|r.log|, f)]), Logged(r, f))
  {
    var c, m := srv.conn.value, Msg(|r.log|, f);
    LatestIsLast(srv);
    InOrderEnqueue(downs, r.log, c, m);
    InOrderIsPast(downs, r.log);
    RankedEnqueue(srv.links, downs, c, [m], |r.log|);
    NumberedSnoc(r.log, m);
    PlumbedEnqueue(srv, downs, c, [m]);
  }

  lemma {:induction false} NumberedSnoc(log: seq<Msg>, m: Msg)
    requires Numbered(log) && m.uid == |log|
    ensures Numbered(log + [m])
  {
  }

  lemma {:induction false} PlumbedEnqueue(srv: Server, downs: seq<Down>, c: nat, ms: seq<Msg>)
    requires Plumbed(srv, downs) && c < |downs| && srv.links[c].rank.Some?
    ensures Plumbed(srv, Enqueue(downs, c, ms))
  {
  }

  lemma LatestIsLast(srv: Server)
    requires OneLive(srv) && srv.conn.Some?
    ensures srv.conn.value < |srv.links| && srv.links[srv.conn.value].rank.Some?
    ensures forall b :: 0 <= b < |srv.links| ==> !Earlier(srv.links[srv.conn.value], srv.links[b])
  {
    forall b | 0 <= b < |srv.links| ensures !Earlier(srv.links[srv.conn.value], srv.links[b]) {
      assert LegalLink(srv.links[b], srv.binds, srv.conn == Some(b));
    }
  }

  /** What a replay may contain, given the queue's accounts. */
  lemma ReplayRises(r: Recovery, replay: seq<Msg>, limit: int)
    requires Accounted(false, r, limit) && Numbered(r.log) && IsReplay(replay, r.queue)
    ensures RisingPerStream(replay) && FromLog(replay, r.log)
    ensures forall i :: 0 <= i < |replay| ==> r.since <= replay[i].uid
    ensures multiset(replay) == multiset(r.kept) && Rising(r.kept)
  {
    ReplayIsComplete(replay, r.queue, r.kept, limit);
    var away := r.log[r.since..];
    KeepableRises(away);
    forall sid: u32 ensures Rising(Only(sid, replay)) {
      OnlyRises(sid, r.kept);
    }
    StreamsRise(replay);
    forall i | 0 <= i < |replay| ensures r.since <= replay[i].uid < |r.log| && r.log[replay[i].uid] == replay[i] {
      assert replay[i] in multiset(replay);
      assert replay[i] in r.kept;
      assert replay[i] in away;
    }
  }

  lemma NothingToReplay(r: Recovery, replay: seq<Msg>, limit: int)
    requires Accounted(true, r, limit) && IsReplay(replay, r.queue)
    ensures replay == []
  {
    ReplayIsComplete(replay, r.queue, r.kept, limit);
  }

  /** The ranks before and after a bind: the new connection is the latest, the others keep their order. */
  lemma BindRanks(srv: Server, c: nat, dies: bool)
    requires OneLive(srv) && c < |srv.links| && srv.links[c].rank.None?
    ensures var links := BindLink(srv, c, dies).links;
      && |links| == |srv.links|
      && (forall b :: 0 <= b < |links| ==> !Earlier(links[c], links[b]))
      && (forall a, b :: 0 <= a < |links| && 0 <= b < |links| && a != c && b != c ==>
        (Earlier(links[a], links[b]) <==> Earlier(srv.links[a], srv.links[b])))
      && (forall a :: 0 <= a < |links| && a != c ==> links[a].rank == srv.links[a].rank)
  {
    forall b | 0 <= b < |srv.links| ensures srv.links[b].rank.Some? ==> srv.links[b].rank.value < srv.binds {
      assert LegalLink(srv.links[b], srv.binds, srv.conn == Some(b));
    }
  }

  lemma RankedBind(srv: Server, downs: seq<Down>, c: nat, dies: bool)
    requires OneLive(srv) && Plumbed(srv, downs) && Ranked(srv.links, downs) && c < |srv.links|
    requires srv.links[c].rank.None?
    ensures Ranked(BindLink(srv, c, dies).links, downs)
  {
    BindRanks(srv, c, dies);
    var links := BindLink(srv, c, dies).links;
    forall a, b | 0 <= a < |downs| && 0 <= b < |downs| && Earlier(links[a], links[b])
      ensures Before(downs[a].sent, downs[b].sent) {
      if b == c || a == c {
        assert downs[c].sent == [];
      } else {
        assert Earlier(srv.links[a], srv.links[b]);
      }
    }
  }

  lemma InOrderBind(downs: seq<Down>, log: seq<Msg>, more: seq<Msg>, c: nat, ms: seq<Msg>)
    requires InOrder(downs, log) && c < |downs| && downs[c].sent == [] && Orderly(ms, log + more)
    ensures InOrder(Enqueue(downs, c, ms), log + more)
  {
    InOrderLonger(downs, log, more);
    assert [] + ms == ms;
  }

  /** All that a bind can replay lies between the disconnection and now; without a disconnection there is nothing. */
  lemma ReplayRange(srv: Server, downs: seq<Down>, r: Recovery, replay: seq<Msg>, limit: int) returns (floor: nat)
    requires Ordered(srv, downs, r) && Accounted(srv.conn.Some?, r, limit) && IsReplay(replay, r.queue)
    ensures AllBefore(downs, floor) && floor <= |r.log| && forall i :: 0 <= i < |replay| ==> floor <= replay[i].uid
    ensures FromLog(replay, r.log) && RisingPerStream(replay)
  {
    if srv.conn.Some? {
      NothingToReplay(r, replay, limit);
      InOrderIsPast(downs, r.log);
      floor := |r.log|;
    } else {
      ReplayRises(r, replay, limit);
      floor := r.since;
    }
  }

  lemma {:induction false} QueuedFloor(queued: seq<Msg>, replay: seq<Msg>, log: seq<Msg>, floor: nat)
    requires Keepable(queued) <= replay && NumberedFrom(Passing(queued), |log|) && floor <= |log|
    requires forall i :: 0 <= i < |replay| ==> floor <= replay[i].uid
    ensures forall i :: 0 <= i < |queued| ==> floor <= queued[i].uid
  {
    TwoParts(queued);
    forall i | 0 <= i < |queued| ensures floor <= queued[i].uid {
      assert queued[i] in queued;
      if queued[i] in Keepable(queued) {
        var k :| 0 <= k < |Keepable(queued)| && Keepable(queued)[k] == queued[i];
        assert replay[k] == queued[i];
      } else {
        var k :| 0 <= k < |Passing(queued)| && Passing(queued)[k] == queued[i];
      }
    }
  }

  lemma {:induction false} OrderedBind(srv: Server, downs: seq<Down>, r: Recovery, c: nat, replay: seq<Msg>,
        queued: seq<Msg>, limit: int)
    requires OneLive(srv) && Ordered(srv, downs, r) && Accounted(srv.conn.Some?, r, limit)
    requires c < |srv.links| && srv.links[c].rank.None? && BindQueues(r, srv.links[c].dead, replay, queued)
    ensures Ordered(BindLink(srv, c, |Keepable(queued)| < |replay|), Enqueue(downs, c, queued),
      AfterBind(r, replay, queued))
  {
    var dies := |Keepable(queued)| < |replay|;
    var floor := ReplayRange(srv, downs, r, replay, limit);
    OrderlyBind(r.log, replay, queued);
    InOrderBind(downs, r.log, Passing(queued), c, queued);
    RankedBind(srv, downs, c, dies);
    BindRanks(srv, c, dies);
    QueuedFloor(queued, replay, r.log, floor);
    RankedEnqueue(BindLink(srv, c, dies).links, downs, c, queued, floor);
  }

  ghost predicate ServerSide(st: State, limit: int) {
    OneLive(st.srv) && Accounted(st.srv.conn.Some?, st.rec, limit) && Ordered(st.srv, st.downs, st.rec)
  }

  /** Loops that move on and links that start or die leave the order alone. */
  lemma OrderedQuiet(srv: Server, downs: seq<Down>, r: Recovery, srv2: Server, downs2: seq<Down>)
    requires Ordered(srv, downs, r)
    requires |srv2.links| == |srv.links| && |downs2| == |downs| && srv2.conn == srv.conn
    requires forall c :: 0 <= c < |downs| ==> srv2.links[c].rank == srv.links[c].rank
    requires forall c :: 0 <= c < |downs| ==> downs2[c].sent == downs[c].sent && downs2[c].dispatched <= |downs[c].sent|
    ensures Ordered(srv2, downs2, r)
  {
    forall a, b | 0 <= a < |downs2| && 0 <= b < |downs2| && Earlier(srv2.links[a], srv2.links[b])
      ensures Before(downs2[a].sent, downs2[b].sent)
    {
      assert Earlier(srv.links[a], srv.links[b]);
    }
  }

  lemma OrderedDial(srv: Server, downs: seq<Down>, r: Recovery)
    requires Ordered(srv, downs, r)
    ensures Ordered(srv.(links := srv.links + [Link(None, false, false)]), downs + [Down([], 0, 0)], r)
  {
    var links, ds := srv.links + [Link(None, false, false)], downs + [Down([], 0, 0)];
    forall a, b | 0 <= a < |ds| && 0 <= b < |ds| && Earlier(links[a], links[b]) ensures Before(ds[a].sent, ds[b].sent) {
      assert Earlier(srv.links[a], srv.links[b]);
    }
  }

  lemma OrderedUnbind(srv: Server, downs: seq<Down>, r: Recovery)
    requires Ordered(srv, downs, r)
    ensures Ordered(srv.(conn := None), downs, r.(since := |r.log|))
  {
    InOrderIsPast(downs, r.log);
  }

  lemma {:induction false} OrderedAtBind(st: State, c: nat, replay: seq<Msg>, queued: seq<Msg>, limit: int)
    requires ServerSide(st, limit) && Enabled(st, Bind(c, replay, queued))
    ensures var t := Next(st, Bind(c, replay, queued), limit); Ordered(t.srv, t.downs, t.rec)
  {
    OrderedBind(st.srv, st.downs, st.rec, c, replay, queued, limit);
  }

  lemma {:induction false} OrderedWaiting(srv: Server, w: Option<Frame>, downs: seq<Down>, r: Recovery)
    requires Ordered(srv, downs, r)
    ensures Ordered(srv.(waiting := w), downs, r)
  {
  }

  lemma {:induction false} OrderedAtSend(st: State, f: Frame, ended: bool, limit: int)
    requires OneLive(st.srv) && Ordered(st.srv, st.downs, st.rec)
    ensures var t := Send(st, f, ended, limit); Ordered(t.srv, t.downs, t.rec)
  {
    OrderedLonger(st.srv, st.downs, st.rec, f);
    OrderedWaiting(st.srv, Some(f), st.downs, st.rec);
    if BoundHasRoom(st) {
      OrderedEnqueue(st.srv, st.downs, st.rec, f);
    }
  }

  lemma {:induction false} OrderedAtSettle(st: State, why: Wake, limit: int)
    requires OneLive(st.srv) && Ordered(st.srv, st.downs, st.rec) && Enabled(st, Settle(why))
    ensures var t := Next(st, Settle(why), limit); Ordered(t.srv, t.downs, t.rec)
  {
    var f, free := st.srv.waiting.value, st.srv.(waiting := None);
    OrderedWaiting(st.srv, None, st.downs, st.rec);
    OneLiveWaiting(st.srv, None);
    OrderedLonger(free, st.downs, st.rec, f);
    if why == Slot {
      OrderedEnqueue(free, st.downs, st.rec, f);
    }
  }

  lemma {:induction false} OrderedAtDirect(st: State, f: Frame, limit: int)
    requires OneLive(st.srv) && Ordered(st.srv, st.downs, st.rec) && Enabled(st, Direct(f))
    ensures var t := Next(st, Direct(f), limit); Ordered(t.srv, t.downs, t.rec)
  {
    OrderedEnqueue(st.srv, st.downs, st.rec, f);
  }

  lemma {:induction false} OrderedAtLoops(st: State, s: Step, limit: int)
    requires Ordered(st.srv, st.downs, st.rec) && Enabled(st, s)
    requires s.StartLoops? || s.SrvDie? || s.WriteOut? || s.CliDispatch?
    ensures var t := Next(st, s, limit); Ordered(t.srv, t.downs, t.rec)
  {
    var t := Next(st, s, limit);
    OrderedQuiet(st.srv, st.downs, st.rec, t.srv, t.downs);
  }

  lemma {:induction false} OrderedStep(st: State, s: Step, limit: int)
    requires ServerSide(st, limit) && Enabled(st, s)
    ensures var t := Next(st, s, limit); Ordered(t.srv, t.downs, t.rec)
  {
    if s.Dial? { OrderedDial(st.srv, st.downs, st.rec); }
    else if s.Bind? { OrderedAtBind(st, s.c, s.replay, s.queued, limit); }
    else if s.Unbind? { OrderedUnbind(st.srv, st.downs, st.rec); }
    else if s.SendDown? { OrderedAtSend(st, s.f, s.ended, limit); }
    else if s.Settle? { OrderedAtSettle(st, s.why, limit); }
    else if s.Direct? { OrderedAtDirect(st, s.f, limit); }
    else if s.StartLoops? || s.SrvDie? || s.WriteOut? || s.CliDispatch? { OrderedAtLoops(st, s, limit); }
    else { Framing(st, s, limit); }
  }

  lemma ServerSideStep(st: State, s: Step, limit: int)
    requires ServerSide(st, limit) && Enabled(st, s)
    ensures ServerSide(Next(st, s, limit), limit)
  {
    OneLiveStep(st, s, limit);
    AccountedStep(st, s, limit);
    OrderedStep(st, s, limit);
  }

  lemma ServerSideStart(limit: int)
    ensures ServerSide(START, limit)
  {
    assert START.rec.log[0..] == [];
  }

  lemma {:induction false} ServerSideRun(st: State, run: seq<Step>, limit: int)
    requires ServerSide(st, limit) && Runnable(st, run, limit)
    ensures ServerSide(Run(st, run, limit), limit)
    decreases |run|
  {
    if run != [] {
      ServerSideStep(st, run[0], limit);
      ServerSideRun(Next(st, run[0], limit), run[1..], limit);
    }
  }
}
