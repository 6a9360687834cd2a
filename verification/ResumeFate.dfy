// The fate of every frame sent down a session: queued on exactly one connection, still kept,
// rejected by a dead connection, or lost to overflow; and the replay ledger of a resume.

module ResumeFate {
  import opened Basics
  import opened Wire
  import opened Retention
  import opened Resume
  import opened ResumeServer
  import opened ResumeOrder

  // ---- at most once ---------------------------------------------------------------------------

  lemma DifferentQueues(srv: Server, downs: seq<Down>, a: nat, i: nat, b: nat, j: nat)
    requires OneLive(srv) && Plumbed(srv, downs) && Ranked(srv.links, downs)
    requires a < |downs| && i < |downs[a].sent| && b < |downs| && j < |downs[b].sent| && a != b
    ensures downs[a].sent[i].uid != downs[b].sent[j].uid
  {
    DistinctRanks(srv, a, b);
    if Earlier(srv.links[a], srv.links[b]) {
      assert Before(downs[a].sent, downs[b].sent);
    } else {
      assert Before(downs[b].sent, downs[a].sent);
    }
  }

  lemma {:induction false} DifferentEntries(srv: Server, downs: seq<Down>, log: seq<Msg>, a: nat, i: nat, b: nat,
        j: nat)
    requires OneLive(srv) && Plumbed(srv, downs) && Ranked(srv.links, downs) && InOrder(downs, log)
    requires a < |downs| && i < |downs[a].sent| && b < |downs| && j < |downs[b].sent| && (a, i) != (b, j)
    ensures downs[a].sent[i].uid != downs[b].sent[j].uid
  {
    if a != b {
      DifferentQueues(srv, downs, a, i, b, j);
    } else {
      assert Orderly(downs[a].sent, log);
    }
  }

  /** No frame enters two queues, or one queue twice: resume never duplicates. */
  lemma {:induction false} AtMostOnce(run: seq<Step>, limit: int, a: nat, i: nat, b: nat, j: nat)
    requires Runnable(START, run, limit)
    requires var ds := Run(START, run, limit).downs; a < |ds| && i < |ds[a].sent| && b < |ds| && j < |ds[b].sent|
    requires (a, i) != (b, j)
    ensures var ds := Run(START, run, limit).downs; ds[a].sent[i].uid != ds[b].sent[j].uid
  {
    ServerSideStart(limit);
    ServerSideRun(START, run, limit);
    var st := Run(START, run, limit);
    DifferentEntries(st.srv, st.downs, st.rec.log, a, i, b, j);
  }

  lemma DistinctRanks(s: Server, a: nat, b: nat)
    requires OneLive(s) && a < |s.links| && b < |s.links| && a != b && s.links[a].rank.Some? && s.links[b].rank.Some?
    ensures Earlier(s.links[a], s.links[b]) || Earlier(s.links[b], s.links[a])
  {
    if a < b {
      assert s.links[a].rank != s.links[b].rank;
    } else {
      assert s.links[b].rank != s.links[a].rank;
    }
  }

  // ---- exactly one fate -------------------------------------------------------------------------

  ghost function Placed(downs: seq<Down>): set<nat> {
    if downs == [] then {} else Uids(downs[0].sent) + Placed(downs[1..])
  }

  ghost function Below(n: nat): (r: set<nat>)
    ensures forall u: nat :: u in r <==> u < n
  {
    if n == 0 then {} else Below(n - 1) + {n - 1}
  }

  /** The five fates are disjoint and cover the log. */
  ghost predicate Accountable(placed: set<nat>, r: Recovery) {
    && placed + Uids(r.kept) + r.rejected + r.abandoned + r.lost == Below(|r.log|)
    && placed !! Uids(r.kept) !! r.rejected !! r.abandoned !! r.lost
  }

  /** Placed means being in the queue of some connection. */
  lemma {:induction false} PlacedMeans(downs: seq<Down>, u: nat)
    ensures u in Placed(downs) <==>
      exists c, i :: 0 <= c < |downs| && 0 <= i < |downs[c].sent| && downs[c].sent[i].uid == u
    decreases |downs|
  {
    if downs != [] {
      PlacedMeans(downs[1..], u);
      if u in Uids(downs[0].sent) {
        var m :| m in downs[0].sent && m.uid == u;
        var i :| 0 <= i < |downs[0].sent| && downs[0].sent[i] == m;
      }
      if c, i :| 0 <= c < |downs[1..]| && 0 <= i < |downs[1..][c].sent| && downs[1..][c].sent[i].uid == u {
        assert downs[c + 1].sent[i].uid == u;
      }
      if c, i :| 0 <= c < |downs| && 0 <= i < |downs[c].sent| && downs[c].sent[i].uid == u {
        assert downs[c].sent[i] in downs[c].sent;
        assert c > 0 ==> downs[1..][c - 1].sent[i].uid == u;
      }
    }
  }

  lemma {:induction false} PlacedEnqueue(downs: seq<Down>, c: nat, ms: seq<Msg>)
    requires c < |downs|
    ensures Placed(Enqueue(downs, c, ms)) == Placed(downs) + Uids(ms)
    decreases |downs|
  {
    if c == 0 {
      assert Enqueue(downs, c, ms)[1..] == downs[1..];
    } else {
      PlacedEnqueue(downs[1..], c - 1, ms);
      assert Enqueue(downs, c, ms)[1..] == Enqueue(downs[1..], c - 1, ms);
    }
  }

  lemma {:induction false} PlacedSame(a: seq<Down>, b: seq<Down>)
    requires |a| == |b| && forall c :: 0 <= c < |a| ==> a[c].sent == b[c].sent
    ensures Placed(a) == Placed(b)
    decreases |a|
  {
    if a != [] {
      PlacedSame(a[1..], b[1..]);
    }
  }

  lemma {:induction false} PlacedDial(downs: seq<Down>)
    ensures Placed(downs + [Down([], 0, 0)]) == Placed(downs)
    decreases |downs|
  {
    if downs == [] {
      assert downs + [Down([], 0, 0)] == [Down([], 0, 0)];
    } else {
      PlacedDial(downs[1..]);
      assert (downs + [Down([], 0, 0)])[1..] == downs[1..] + [Down([], 0, 0)];
    }
  }

  lemma UidsOfOne(m: Msg)
    ensures Uids([m]) == {m.uid}
  {
    assert m in [m];
  }

  lemma BelowNext(n: nat)
    ensures Below(n + 1) == Below(n) + {n} && n !in Below(n)
  {
  }

  lemma SameUids(a: seq<Msg>, b: seq<Msg>)
    requires multiset(a) == multiset(b)
    ensures Uids(a) == Uids(b)
  {
    forall m ensures m in a <==> m in b {
      assert m in a <==> m in multiset(a);
      assert m in b <==> m in multiset(b);
    }
  }

  lemma SplitUids(ms: seq<Msg>, n: nat)
    requires n <= |ms| && Distinct(ms)
    ensures Uids(ms[..n]) + Uids(ms[n..]) == Uids(ms) && Uids(ms[..n]) !! Uids(ms[n..])
  {
    assert ms == ms[..n] + ms[n..];
    forall u | u in Uids(ms[..n]) ensures u !in Uids(ms[n..]) {
      var x :| 0 <= x < n && ms[..n][x].uid == u;
      forall m | m in ms[n..] ensures m.uid != u {
        var y :| 0 <= y < |ms| - n && ms[n..][y] == m;
        assert ms[x].uid != ms[n + y].uid;
      }
    }
  }

  /** A replay's accepted part and its rejected rest split the kept frames. */
  lemma ReplaySplits(r: Recovery, replay: seq<Msg>, n: nat, limit: int, bound: bool)
    requires Accounted(bound, r, limit) && Numbered(r.log) && IsReplay(replay, r.queue) && n <= |replay|
    ensures Uids(replay[..n]) + Uids(replay[n..]) == Uids(r.kept)
    ensures Uids(replay[..n]) !! Uids(replay[n..])
  {
    if bound {
      NothingToReplay(r, replay, limit);
    } else {
      ReplayRises(r, replay, limit);
      SameUids(replay, r.kept);
      RisingDistinct(replay, r.log);
      SplitUids(replay, n);
    }
  }

  lemma {:induction false} AccountableKeepBack(placed: set<nat>, r: Recovery, f: Frame, limit: int)
    requires Accountable(placed, r) && Holds(r.queue, r.kept, limit)
    ensures Accountable(placed, KeepBack(r, f, limit))
  {
    BelowNext(|r.log|);
    var m := Msg(|r.log|, f);
    UidsOfOne(m);
    assert Uids(r.kept + [m]) == Uids(r.kept) + {m.uid} by {
      assert forall x :: x in r.kept + [m] <==> x in r.kept || x == m;
    }
  }

  lemma {:induction false} AccountableReject(placed: set<nat>, r: Recovery, f: Frame)
    requires Accountable(placed, r)
    ensures Accountable(placed, Logged(r, f).(rejected := r.rejected + {|r.log|}))
    ensures Accountable(placed, Logged(r, f).(abandoned := r.abandoned + {|r.log|}))
  {
    BelowNext(|r.log|);
  }

  lemma {:induction false} AccountableSend(st: State, f: Frame, limit: int)
    requires ServerSide(st, limit) && Accountable(Placed(st.downs), st.rec) && st.srv.conn.Some?
    requires st.srv.conn.value < |st.downs|
    ensures Accountable(Placed(Enqueue(st.downs, st.srv.conn.value, [Msg(|st.rec.log|, f)])), Logged(st.rec, f))
  {
    BelowNext(|st.rec.log|);
    UidsOfOne(Msg(|st.rec.log|, f));
    PlacedEnqueue(st.downs, st.srv.conn.value, [Msg(|st.rec.log|, f)]);
  }

  /** Frames numbered from the end of the log. */
  lemma {:induction false} UidsFrom(ms: seq<Msg>, n: nat)
    requires NumberedFrom(ms, n)
    ensures Below(n) + Uids(ms) == Below(n + |ms|) && Below(n) !! Uids(ms)
  {
    forall u: nat ensures u in Uids(ms) <==> n <= u < n + |ms| {
      if n <= u < n + |ms| {
        assert ms[u - n] in ms;
      }
    }
  }

  /** Adding fresh frames to a queue, and splitting the kept ones between the queue and the rejected. */
  lemma {:induction false} AccountableRecord(placed: set<nat>, r: Recovery, replay: seq<Msg>, queued: seq<Msg>)
    requires Accountable(placed, r) && Keepable(queued) <= replay && NumberedFrom(Passing(queued), |r.log|)
    requires var n := |Keepable(queued)|;
      Uids(replay[..n]) + Uids(replay[n..]) == Uids(r.kept)
      && Uids(replay[..n]) !! Uids(replay[n..])
    ensures Accountable(placed + Uids(queued), AfterBind(r, replay, queued))
  {
    var n := |Keepable(queued)|;
    TwoParts(queued);
    assert Keepable(queued) == replay[..n];
    assert Uids(queued) == Uids(replay[..n]) + Uids(Passing(queued));
    UidsFrom(Passing(queued), |r.log|);
    assert Uids(AfterBind(r, replay, queued).kept) == {};
  }

  lemma {:induction false} AccountableBind(st: State, c: nat, replay: seq<Msg>, queued: seq<Msg>, limit: int)
    requires ServerSide(st, limit) && Accountable(Placed(st.downs), st.rec) && Enabled(st, Bind(c, replay, queued))
    ensures var t := Next(st, Bind(c, replay, queued), limit); Accountable(Placed(t.downs), t.rec)
  {
    ReplaySplits(st.rec, replay, |Keepable(queued)|, limit, st.srv.conn.Some?);
    PlacedEnqueue(st.downs, c, queued);
    AccountableRecord(Placed(st.downs), st.rec, replay, queued);
  }

  lemma {:induction false} AccountableAtSend(st: State, f: Frame, ended: bool, limit: int)
    requires ServerSide(st, limit) && Accountable(Placed(st.downs), st.rec)
    ensures var t := Send(st, f, ended, limit); Accountable(Placed(t.downs), t.rec)
  {
    AccountableReject(Placed(st.downs), st.rec, f);
    if st.srv.conn.None? { AccountableKeepBack(Placed(st.downs), st.rec, f, limit); }
    else if BoundHasRoom(st) { AccountableSend(st, f, limit); }
  }

  lemma {:induction false} AccountableAtSettle(st: State, why: Wake, limit: int)
    requires ServerSide(st, limit) && Accountable(Placed(st.downs), st.rec) && Enabled(st, Settle(why))
    ensures var t := Next(st, Settle(why), limit); Accountable(Placed(t.downs), t.rec)
  {
    var f := st.srv.waiting.value;
    AccountableReject(Placed(st.downs), st.rec, f);
    AccountableSend(st, f, limit);
  }

  lemma {:induction false} AccountableQuiet(st: State, s: Step, limit: int)
    requires Accountable(Placed(st.downs), st.rec) && Enabled(st, s)
    requires !s.Bind? && !Sends(s) && !s.Direct?
    ensures var t := Next(st, s, limit); Accountable(Placed(t.downs), t.rec)
  {
    var t := Next(st, s, limit);
    if s.Dial? { PlacedDial(st.downs); }
    else if s.WriteOut? || s.CliDispatch? { PlacedSame(st.downs, t.downs); }
    else { Framing(st, s, limit); }
  }

  lemma {:induction false} AccountableStep(st: State, s: Step, limit: int)
    requires ServerSide(st, limit) && Accountable(Placed(st.downs), st.rec) && Enabled(st, s)
    ensures Accountable(Placed(Next(st, s, limit).downs), Next(st, s, limit).rec)
  {
    if s.Bind? { AccountableBind(st, s.c, s.replay, s.queued, limit); }
    else if s.SendDown? { AccountableAtSend(st, s.f, s.ended, limit); }
    else if s.Settle? { AccountableAtSettle(st, s.why, limit); }
    else if s.Direct? { AccountableSend(st, s.f, limit); }
    else { AccountableQuiet(st, s, limit); }
  }

  lemma {:induction false} AccountableRun(st: State, run: seq<Step>, limit: int)
    requires ServerSide(st, limit) && Accountable(Placed(st.downs), st.rec) && Runnable(st, run, limit)
    ensures Accountable(Placed(Run(st, run, limit).downs), Run(st, run, limit).rec)
    decreases |run|
  {
    if run != [] {
      AccountableStep(st, run[0], limit);
      ServerSideStep(st, run[0], limit);
      AccountableRun(Next(st, run[0], limit), run[1..], limit);
    }
  }

  /** In every run, each frame ever sent down, except one whose sender still waits for room, has exactly one of five
      fates: it entered a connection's queue, it is still kept for the next one, a dead connection rejected it, it was
      given up because its sender's context ended, or it was lost to an overflow or not of a kept type. */
  lemma {:induction false} ExactlyOneFate(run: seq<Step>, limit: int)
    requires Runnable(START, run, limit)
    ensures var st := Run(START, run, limit);
      var placed, kept := Placed(st.downs), Uids(st.rec.kept);
      && (forall u: nat :: u < |st.rec.log| <==>
        u in placed + kept + st.rec.rejected + st.rec.abandoned + st.rec.lost)
      && placed !! kept !! st.rec.rejected !! st.rec.abandoned !! st.rec.lost
  {
    ServerSideStart(limit);
    assert Below(0) == {};
    AccountableRun(START, run, limit);
  }

  // ---- the replay ledger ------------------------------------------------------------------------

  /** The keepable frames sent since the session was last disconnected. */
  ghost function SentWhileAway(r: Recovery): seq<Msg> {
    if r.since <= |r.log| then Keepable(r.log[r.since..]) else []
  }

  /** A bind after which the connection is alive: its queue has taken every retained frame, and whatever came in
      between. */
  ghost predicate BindsAlive(st: State, c: nat, replay: seq<Msg>, queued: seq<Msg>, limit: int) {
    && Enabled(st, Bind(c, replay, queued))
    && !Next(st, Bind(c, replay, queued), limit).srv.links[c].dead
  }

  lemma QueueGrows(st: State, s: Step, limit: int, c: nat)
    requires Enabled(st, s) && c < |st.downs|
    ensures var t := Next(st, s, limit); c < |t.downs| && st.downs[c].sent <= t.downs[c].sent
  {
    var t := Next(st, s, limit);
    if s.Dial? || s.Bind? || Sends(s) || s.Direct? || s.WriteOut? || s.CliDispatch? {
    } else {
      Framing(st, s, limit);
    }
  }

  lemma {:induction false} QueueGrowsRun(st: State, run: seq<Step>, limit: int, c: nat)
    requires Runnable(st, run, limit) && c < |st.downs|
    ensures c < |Run(st, run, limit).downs| && st.downs[c].sent <= Run(st, run, limit).downs[c].sent
    decreases |run|
  {
    if run != [] {
      QueueGrows(st, run[0], limit, c);
      QueueGrowsRun(Next(st, run[0], limit), run[1..], limit, c);
    }
  }

  /** Of the frames that come through the session, the connection's queue carries first exactly those sent while it was
      away. */
  ghost predicate StartsWithMissed(sent: seq<Msg>, missed: seq<Msg>) {
    var kept := Keepable(sent);
    && |missed| <= |kept|
    && (forall sid: u32 :: Only(sid, kept[..|missed|]) == Only(sid, missed))
    && multiset(kept[..|missed|]) == multiset(missed)
  }

  lemma {:induction false} ReplayQueued(st: State, c: nat, replay: seq<Msg>, queued: seq<Msg>, limit: int)
    requires ServerSide(st, limit) && st.srv.conn.None? && !st.rec.queue.overflowed
    requires BindsAlive(st, c, replay, queued, limit)
    ensures Keepable(queued) == replay && Next(st, Bind(c, replay, queued), limit).downs[c].sent == queued
    ensures var missed := SentWhileAway(st.rec);
      && |replay| == |missed|
      && (forall sid: u32 :: Only(sid, replay) == Only(sid, missed))
      && multiset(replay) == multiset(missed)
  {
    ReplayIsComplete(replay, st.rec.queue, st.rec.kept, limit);
    assert st.downs[c].sent == [];
    assert Next(st, Bind(c, replay, queued), limit).downs[c].sent == [] + queued == queued;
  }

  /** The replay ledger: when a disconnected session that has not overflowed is bound and the connection lives, then of
      all frames that come through the session its queue carries first, for good, exactly the keepable ones sent since
      the disconnection, each stream in the order sent; every later one comes after them. Frames sent straight to the
      connection, such as CREDIT and CANCEL, may come in between. */
  lemma {:induction false} ReplayLedger(run: seq<Step>, c: nat, replay: seq<Msg>, queued: seq<Msg>, later: seq<Step>,
        limit: int)
    requires Runnable(START, run, limit)
    requires var st := Run(START, run, limit);
      && st.srv.conn.None? && !st.rec.queue.overflowed && BindsAlive(st, c, replay, queued, limit)
      && Runnable(Next(st, Bind(c, replay, queued), limit), later, limit)
    ensures var st := Run(START, run, limit);
      var end := Run(Next(st, Bind(c, replay, queued), limit), later, limit);
      && c < |end.downs| && st.rec.since <= |st.rec.log|
      && var kept, missed := Keepable(end.downs[c].sent), Keepable(st.rec.log[st.rec.since..]);
      && |missed| <= |kept|
      && (forall sid: u32 :: Only(sid, kept[..|missed|]) == Only(sid, missed))
      && multiset(kept[..|missed|]) == multiset(missed)
  {
    var st := Run(START, run, limit);
    ServerSideStart(limit);
    ServerSideRun(START, run, limit);
    ReplayQueued(st, c, replay, queued, limit);
    BoundQueueGrows(st, c, replay, queued, later, limit);
    var sent := Run(Next(st, Bind(c, replay, queued), limit), later, limit).downs[c].sent;
    KeepablePrefix(queued, sent);
    Prefix(replay, Keepable(sent), SentWhileAway(st.rec), sent);
  }

  lemma {:induction false} Prefix(replay: seq<Msg>, kept: seq<Msg>, missed: seq<Msg>, sent: seq<Msg>)
    requires kept == Keepable(sent) && replay <= kept && |replay| == |missed| && multiset(replay) == multiset(missed)
    requires forall sid: u32 :: Only(sid, replay) == Only(sid, missed)
    ensures StartsWithMissed(sent, missed)
  {
    assert kept[..|missed|] == replay;
  }

  /** No frame that was sent straight to the connection comes before a replayed one. */
  ghost predicate KeptFirst(queued: seq<Msg>) {
    forall i, j :: 0 <= i < j < |queued| && Retainable(queued[j].frame.ty) ==> Retainable(queued[i].frame.ty)
  }

  lemma {:induction false} KeptFirstSplits(queued: seq<Msg>)
    requires KeptFirst(queued)
    ensures queued == Keepable(queued) + Passing(queued)
    decreases |queued|
  {
    if queued != [] {
      var init, last := queued[..|queued| - 1], queued[|queued| - 1];
      KeptFirstSplits(init);
      assert queued == init + [last];
      if Retainable(last.frame.ty) {
        forall i | 0 <= i < |init| ensures Retainable(init[i].frame.ty) {
          assert init[i] == queued[i] && queued[|queued| - 1] == last;
        }
        AllKeepable(init);
        AllKeepable(queued);
      } else {
        assert Keepable(queued) == Keepable(init) && Passing(queued) == Passing(init) + [last];
      }
    }
  }

  lemma {:induction false} SplitIsKeptFirst(replay: seq<Msg>, queued: seq<Msg>)
    requires Keepable(queued) == replay && replay <= queued
    ensures KeptFirst(queued)
  {
    var rest := queued[|replay|..];
    assert queued == replay + rest;
    KeepableMembers(queued);
    AllKeepable(replay);
    KeepableAppend(replay, rest);
    NothingKeepable(rest);
    forall j | |replay| <= j < |queued| ensures !Retainable(queued[j].frame.ty) {
      assert queued[j] == rest[j - |replay|];
    }
    forall i, j | 0 <= i < j < |queued| && Retainable(queued[j].frame.ty) ensures Retainable(queued[i].frame.ty) {
      assert j < |replay| && queued[i] == replay[i] && replay[i] in Keepable(queued);
    }
  }

  lemma {:induction false} NothingKeepable(ms: seq<Msg>)
    requires Keepable(ms) == []
    ensures forall i :: 0 <= i < |ms| ==> !Retainable(ms[i].frame.ty)
  {
    KeepableMembers(ms);
    forall i | 0 <= i < |ms| ensures !Retainable(ms[i].frame.ty) {
      assert ms[i] in ms && ms[i] !in Keepable(ms);
    }
  }

  /** When the whole queue, and not only what comes through the session, begins with the replay: exactly when no frame
      sent straight to the connection got in before the last replayed one. */
  lemma {:induction false} BeginsWithReplayIff(st: State, c: nat, replay: seq<Msg>, queued: seq<Msg>, later: seq<Step>,
        limit: int)
    requires Reachable(st, limit) && st.srv.conn.None? && !st.rec.queue.overflowed
    requires BindsAlive(st, c, replay, queued, limit)
    requires Runnable(Next(st, Bind(c, replay, queued), limit), later, limit)
    ensures var end := Run(Next(st, Bind(c, replay, queued), limit), later, limit);
      c < |end.downs| && (replay <= end.downs[c].sent <==> KeptFirst(queued))
  {
    ReachableServerSide(st, limit);
    ReplayQueued(st, c, replay, queued, limit);
    BoundQueueGrows(st, c, replay, queued, later, limit);
    KeptFirstIff(replay, queued);
  }

  lemma {:induction false} KeptFirstIff(replay: seq<Msg>, queued: seq<Msg>)
    requires Keepable(queued) == replay
    ensures |replay| <= |queued| && (replay <= queued <==> KeptFirst(queued))
  {
    TwoParts(queued);
    if KeptFirst(queued) {
      KeptFirstSplits(queued);
    }
    if replay <= queued {
      SplitIsKeptFirst(replay, queued);
    }
  }

  lemma {:induction false} ReachableServerSide(st: State, limit: int)
    requires Reachable(st, limit)
    ensures ServerSide(st, limit)
  {
    var run :| Runnable(START, run, limit) && Run(START, run, limit) == st;
    ServerSideStart(limit);
    ServerSideRun(START, run, limit);
  }

  /** What a bind queues stays at the front of the connection's queue. */
  lemma {:induction false} BoundQueueGrows(st: State, c: nat, replay: seq<Msg>, queued: seq<Msg>, later: seq<Step>,
        limit: int)
    requires ServerSide(st, limit) && Enabled(st, Bind(c, replay, queued))
    requires Runnable(Next(st, Bind(c, replay, queued), limit), later, limit)
    ensures var end := Run(Next(st, Bind(c, replay, queued), limit), later, limit);
      c < |end.downs| && queued <= end.downs[c].sent
  {
    BindQueued(st, c, replay, queued, limit);
    QueueGrowsRun(Next(st, Bind(c, replay, queued), limit), later, limit, c);
  }

  lemma {:induction false} BindQueued(st: State, c: nat, replay: seq<Msg>, queued: seq<Msg>, limit: int)
    requires ServerSide(st, limit) && Enabled(st, Bind(c, replay, queued))
    ensures c < |Next(st, Bind(c, replay, queued), limit).downs|
    ensures Next(st, Bind(c, replay, queued), limit).downs[c].sent == queued
  {
    assert st.downs[c].sent == [];
    assert [] + queued == queued;
  }

  /** In every run, on every connection: the queue holds frames of the log, none twice; those that came through the
      session are, stream by stream, in the order they were sent; and a connection bound earlier carries only frames
      sent earlier. */
  lemma {:induction false} QueuesInOrder(st: State, limit: int, a: nat, b: nat)
    requires Reachable(st, limit) && a < |st.downs| && b < |st.downs|
    ensures |st.srv.links| == |st.downs|
    ensures var sent, kept := st.downs[a].sent, Keepable(st.downs[a].sent);
      && (forall i :: 0 <= i < |sent| ==> sent[i].uid < |st.rec.log| && st.rec.log[sent[i].uid] == sent[i])
      && (forall i, j :: 0 <= i < j < |sent| ==> sent[i].uid != sent[j].uid)
      && (forall i, j :: 0 <= i < j < |kept| && kept[i].frame.sid == kept[j].frame.sid ==> kept[i].uid < kept[j].uid)
    ensures var ra, rb := st.srv.links[a].rank, st.srv.links[b].rank;
      ra.Some? && rb.Some? && ra.value < rb.value ==>
      forall i, j :: 0 <= i < |st.downs[a].sent| && 0 <= j < |st.downs[b].sent| ==>
        st.downs[a].sent[i].uid < st.downs[b].sent[j].uid
  {
    ReachableServerSide(st, limit);
    assert Orderly(st.downs[a].sent, st.rec.log);
    if Earlier(st.srv.links[a], st.srv.links[b]) {
      assert Before(st.downs[a].sent, st.downs[b].sent);
    }
  }

  /** A server-initiated request comes after everything its connection's bind has queued: a number that the server uses
      again on a new connection never finds the replay of its namesake behind it. */
  lemma {:induction false} RequestsFollowReplay(st: State, c: nat, replay: seq<Msg>, queued: seq<Msg>, later: seq<Step>,
        limit: int, i: nat)
    requires Reachable(st, limit) && Enabled(st, Bind(c, replay, queued))
    requires Runnable(Next(st, Bind(c, replay, queued), limit), later, limit)
    requires var end := Run(Next(st, Bind(c, replay, queued), limit), later, limit);
      c < |end.downs| && i < |end.downs[c].sent| && end.downs[c].sent[i].frame.ty == REQUEST
    ensures i >= |queued| && queued <= Run(Next(st, Bind(c, replay, queued), limit), later, limit).downs[c].sent
  {
    ReachableServerSide(st, limit);
    BoundQueueGrows(st, c, replay, queued, later, limit);
    NoRequests(queued);
  }

  lemma {:induction false} NoRequests(queued: seq<Msg>)
    requires forall m :: m in Passing(queued) ==> m.frame.ty in {CREDIT, CANCEL}
    ensures forall i :: 0 <= i < |queued| ==> queued[i].frame.ty != REQUEST
  {
    TwoParts(queued);
    KeepableMembers(queued);
    forall i | 0 <= i < |queued| ensures queued[i].frame.ty != REQUEST {
      assert queued[i] in queued;
    }
  }

  /** CREDIT frames, as consumers of the moved streams send them. */
  function Credits(uid: nat, d: nat): (ms: seq<Msg>)
    ensures |ms| == d && forall i :: 0 <= i < d ==> ms[i].uid == uid + i && ms[i].frame.ty == CREDIT
  {
    if d == 0 then [] else Credits(uid, d - 1) + [Msg(uid + d - 1, Plain(CREDIT, 0, []))]
  }

  lemma {:induction false} KeptAreKeepable(r: Recovery, limit: int)
    requires Accounted(false, r, limit)
    ensures Keepable(r.kept) == r.kept && Passing(r.kept) == []
  {
    if !r.queue.overflowed {
      KeepableMembers(r.log[r.since..]);
      forall i | 0 <= i < |r.kept| ensures Retainable(r.kept[i].frame.ty) {
        assert r.kept[i] in r.kept;
      }
    }
    AllKeepable(r.kept);
  }

  lemma {:induction false} WithCredits(kept: seq<Msg>, uid: nat, d: nat) returns (queued: seq<Msg>)
    requires Keepable(kept) == kept && Passing(kept) == []
    ensures Keepable(queued) == kept && |Passing(queued)| == d && NumberedFrom(Passing(queued), uid)
    ensures forall m :: m in Passing(queued) ==> m.frame.ty == CREDIT
    ensures |queued| == |kept| + d
  {
    var credits := Credits(uid, d);
    queued := kept + credits;
    NoneKeepable(credits);
    KeepableAppend(kept, credits);
    PassingAppend(kept, credits);
    assert kept + [] == kept && [] + credits == credits;
  }

  /** One live bind, with d frames in between. */
  lemma {:induction false} SomeLiveBind(st: State, c: nat, d: nat, limit: int) returns (queued: seq<Msg>)
    requires ServerSide(st, limit) && st.srv.conn.None? && Shaped(st)
    requires c < |st.srv.links| && st.srv.links[c].rank.None? && !st.srv.links[c].dead
    requires |st.rec.kept| + d <= SEND_QUEUE
    ensures BindsAlive(st, c, st.rec.kept, queued, limit) && |Passing(queued)| == d
  {
    KeptAreKeepable(st.rec, limit);
    queued := WithCredits(st.rec.kept, |st.rec.log|, d);
    assert IsReplay(st.rec.kept, st.rec.queue);
    LiveIfWhole(st, c, st.rec.kept, queued, limit);
  }

  lemma {:induction false} LiveIfWhole(st: State, c: nat, replay: seq<Msg>, queued: seq<Msg>, limit: int)
    requires Shaped(st) && Unlocked(st.srv) && st.srv.conn.None?
    requires c < |st.srv.links| && st.srv.links[c].rank.None? && !st.srv.links[c].dead
    requires BindQueues(st.rec, false, replay, queued) && Keepable(queued) == replay
    ensures BindsAlive(st, c, replay, queued, limit)
  {
  }

  /** A live resume with d frames coming in between is possible exactly when those and the waiting ones are at most 256
      together: bind queues the replay before the connection's write loop runs, so one frame more waits for room that
      nobody makes, holding the session's lock. */
  lemma {:induction false} LiveResumeIff(run: seq<Step>, c: nat, d: nat, limit: int)
    requires Runnable(START, run, limit)
    requires var st := Run(START, run, limit);
      && st.srv.conn.None? && !st.rec.queue.overflowed
      && c < |st.srv.links| && st.srv.links[c].rank.None? && !st.srv.links[c].dead && Shaped(st)
    ensures var st := Run(START, run, limit);
      && st.rec.since <= |st.rec.log|
      && ((exists replay, queued ::
        && Enabled(st, Bind(c, replay, queued))
        && !Next(st, Bind(c, replay, queued), limit).srv.links[c].dead && |Passing(queued)| == d)
      <==> |Keepable(st.rec.log[st.rec.since..])| + d <= 256)
  {
    var st := Run(START, run, limit);
    ServerSideStart(limit);
    ServerSideRun(START, run, limit);
    if replay, queued :|
      && Enabled(st, Bind(c, replay, queued))
      && !Next(st, Bind(c, replay, queued), limit).srv.links[c].dead && |Passing(queued)| == d
    {
      ReplayIsComplete(replay, st.rec.queue, st.rec.kept, limit);
      TwoParts(queued);
    }
    if |SentWhileAway(st.rec)| + d <= SEND_QUEUE {
      var queued := SomeLiveBind(st, c, d, limit);
      assert Enabled(st, Bind(c, st.rec.kept, queued));
    }
  }
}
