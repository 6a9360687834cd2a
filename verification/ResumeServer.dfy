// The server's half of resume: at most one connection of a session is ever alive,
// and the recovery queue keeps exact accounts.

module ResumeServer {
  import opened Basics
  import opened Wire
  import opened Retention
  import opened Resume

  // ---- takeover -----------------------------------------------------------------------------

  predicate LegalLink(k: Link, binds: nat, bound: bool) {
    && (k.rank.Some? ==> k.rank.value < binds && (!bound ==> k.dead))
    && (k.rank.None? ==> !k.started)
  }

  /** Every connection that was ever bound, apart from the bound one, is dead; ranks tell the order of binds apart; only
      at a bound connection can a sender wait. */
  ghost predicate OneLive(s: Server) {
    && (s.conn.Some? ==> s.lastConn == s.conn)
    && (s.waiting.Some? ==> s.conn.Some?)
    && (s.lastConn.Some? <==> s.binds > 0)
    && (s.lastConn.Some? ==> s.lastConn.value < |s.links| && s.links[s.lastConn.value].rank == Some(s.binds - 1))
    && (forall c :: 0 <= c < |s.links| ==> LegalLink(s.links[c], s.binds, s.conn == Some(c)))
    && (forall a, b :: 0 <= a < b < |s.links| && s.links[a].rank.Some? ==> s.links[a].rank != s.links[b].rank)
  }

  lemma OneLiveDial(s: Server)
    requires OneLive(s)
    ensures OneLive(s.(links := s.links + [Link(None, false, false)]))
  {
  }

  /** Starting the loops of a bound connection and the death of any connection are harmless. */
  lemma OneLiveTouch(s: Server, c: nat, k: Link)
    requires OneLive(s) && c < |s.links| && k.rank == s.links[c].rank
    requires s.links[c].dead ==> k.dead
    requires s.links[c].rank.None? ==> !k.started
    ensures OneLive(SetLink(s, c, k))
  {
  }

  lemma OneLiveUnbind(s: Server, c: nat)
    requires OneLive(s) && c < |s.links| && s.links[c].dead && s.conn == Some(c) && Unlocked(s)
    ensures OneLive(s.(conn := None))
  {
  }

  lemma OneLiveBind(s: Server, c: nat, dies: bool)
    requires OneLive(s) && c < |s.links| && s.links[c].rank.None?
    ensures OneLive(BindLink(s, c, dies))
  {
  }

  lemma {:induction false} OneLiveWaiting(s: Server, w: Option<Frame>)
    requires OneLive(s) && (w.Some? ==> s.conn.Some?)
    ensures OneLive(s.(waiting := w))
  {
  }

  lemma {:induction false} OneLiveStep(st: State, s: Step, limit: int)
    requires OneLive(st.srv) && Enabled(st, s)
    ensures OneLive(Next(st, s, limit).srv)
  {
    if s.Dial? { OneLiveDial(st.srv); }
    else if s.Bind? { OneLiveBind(st.srv, s.c, |Keepable(s.queued)| < |s.replay|); }
    else if s.StartLoops? { OneLiveTouch(st.srv, s.c, st.srv.links[s.c].(started := true)); }
    else if s.SrvDie? { OneLiveTouch(st.srv, s.c, st.srv.links[s.c].(dead := true)); }
    else if s.Unbind? { if st.srv.conn == Some(s.c) { OneLiveUnbind(st.srv, s.c); } }
    else if s.SendDown? { OneLiveWaiting(st.srv, Send(st, s.f, s.ended, limit).srv.waiting); }
    else if s.Settle? { OneLiveWaiting(st.srv, None); }
    else { Framing(st, s, limit); }
  }

  /** Whatever the run: every connection ever bound to the session other than the current one is dead, so no two
      of its connections can carry traffic at once, and an unbind from a replaced connection changes nothing at all. */
  lemma TakeoverSafety(run: seq<Step>, limit: int)
    requires Runnable(START, run, limit)
    ensures var st := Run(START, run, limit);
      && OneLive(st.srv)
      && (forall c :: 0 <= c < |st.srv.links| && st.srv.links[c].rank.Some? && !st.srv.links[c].dead ==>
        st.srv.conn == Some(c))
      && (forall c: nat :: c < |st.srv.links| && st.srv.conn != Some(c) && Enabled(st, Unbind(c)) ==>
        Next(st, Unbind(c), limit) == st)
  {
    OneLiveRun(START, run, limit);
  }

  lemma {:induction false} OneLiveRun(st: State, run: seq<Step>, limit: int)
    requires OneLive(st.srv) && Runnable(st, run, limit)
    ensures OneLive(Run(st, run, limit).srv)
    decreases |run|
  {
    if run != [] {
      OneLiveStep(st, run[0], limit);
      OneLiveRun(Next(st, run[0], limit), run[1..], limit);
    }
  }

  // ---- retention ----------------------------------------------------------------------------

  /** The queue's accounts are right, a bound session keeps nothing, and what a disconnected session that has not
      overflowed keeps is everything keepable it was sent since the disconnection. */
  ghost predicate Accounted(bound: bool, r: Recovery, limit: int) {
    && Holds(r.queue, r.kept, limit)
    && (bound ==> r.kept == [] && r.queue.retained == map[])
    && r.since <= |r.log|
    && (!bound && !r.queue.overflowed ==> r.kept == Keepable(r.log[r.since..]))
  }

  lemma AccountedKeepBack(r: Recovery, f: Frame, limit: int)
    requires Accounted(false, r, limit)
    ensures Accounted(false, KeepBack(r, f, limit), limit)
    ensures r.queue.overflowed ==> KeepBack(r, f, limit).queue == r.queue
  {
    var m := Msg(|r.log|, f);
    RetainHolds(r.queue, r.kept, m, limit);
    assert (r.log + [m])[r.since..] == r.log[r.since..] + [m];
    KeepableSnoc(r.log[r.since..], m);
  }

  lemma {:induction false} AccountedSend(st: State, f: Frame, ended: bool, limit: int)
    requires Accounted(st.srv.conn.Some?, st.rec, limit)
    ensures var t := Send(st, f, ended, limit);
      && Accounted(t.srv.conn.Some?, t.rec, limit)
      && (st.rec.queue.overflowed ==> t.rec.queue.overflowed)
  {
    if st.srv.conn.None? { AccountedKeepBack(st.rec, f, limit); }
  }

  lemma {:induction false} AccountedSettle(st: State, why: Wake, limit: int)
    requires Accounted(st.srv.conn.Some?, st.rec, limit) && Enabled(st, Settle(why))
    ensures var t := Next(st, Settle(why), limit);
      Accounted(t.srv.conn.Some?, t.rec, limit) && t.rec.queue == st.rec.queue
  {
  }

  lemma {:induction false} AccountedUnbind(st: State, c: nat, limit: int)
    requires Accounted(st.srv.conn.Some?, st.rec, limit) && Enabled(st, Unbind(c))
    ensures var t := Next(st, Unbind(c), limit);
      Accounted(t.srv.conn.Some?, t.rec, limit) && t.rec.queue == st.rec.queue
  {
    assert st.rec.log[|st.rec.log|..] == [];
  }

  lemma {:induction false} AccountedBind(st: State, c: nat, replay: seq<Msg>, queued: seq<Msg>, limit: int)
    requires Accounted(st.srv.conn.Some?, st.rec, limit) && Enabled(st, Bind(c, replay, queued))
    ensures var t := Next(st, Bind(c, replay, queued), limit);
      Accounted(t.srv.conn.Some?, t.rec, limit) && t.rec.queue.overflowed == st.rec.queue.overflowed
  {
  }

  lemma {:induction false} AccountedQuiet(st: State, s: Step, limit: int)
    requires Accounted(st.srv.conn.Some?, st.rec, limit) && Enabled(st, s)
    requires !Sends(s) && !s.Unbind? && !s.Bind?
    ensures var t := Next(st, s, limit);
      Accounted(t.srv.conn.Some?, t.rec, limit) && t.rec.queue == st.rec.queue
  {
    if !s.Direct? { Framing(st, s, limit); }
  }

  lemma {:induction false} AccountedStep(st: State, s: Step, limit: int)
    requires Accounted(st.srv.conn.Some?, st.rec, limit) && Enabled(st, s)
    ensures Accounted(Next(st, s, limit).srv.conn.Some?, Next(st, s, limit).rec, limit)
    ensures st.rec.queue.overflowed ==> Next(st, s, limit).rec.queue.overflowed
  {
    if s.SendDown? { AccountedSend(st, s.f, s.ended, limit); }
    else if s.Settle? { AccountedSettle(st, s.why, limit); }
    else if s.Unbind? { AccountedUnbind(st, s.c, limit); }
    else if s.Bind? { AccountedBind(st, s.c, s.replay, s.queued, limit); }
    else { AccountedQuiet(st, s, limit); }
  }

  lemma {:induction false} AccountedRun(st: State, run: seq<Step>, limit: int)
    requires Accounted(st.srv.conn.Some?, st.rec, limit) && Runnable(st, run, limit)
    ensures Accounted(Run(st, run, limit).srv.conn.Some?, Run(st, run, limit).rec, limit)
    ensures st.rec.queue.overflowed ==> Run(st, run, limit).rec.queue.overflowed
    decreases |run|
  {
    if run != [] {
      AccountedStep(st, run[0], limit);
      AccountedRun(Next(st, run[0], limit), run[1..], limit);
    }
  }

  /** In every reachable state: the byte count is the sum over the kept frames and within a non-negative limit,
      a bound session keeps nothing, and an overflowed one keeps nothing either and stays overflowed. */
  lemma RetentionAccounting(run: seq<Step>, later: seq<Step>, limit: int)
    requires Runnable(START, run, limit) && Runnable(Run(START, run, limit), later, limit)
    ensures var st := Run(START, run, limit);
      && (forall sid: u32 :: Group(st.rec.queue.retained, sid) == Only(sid, st.rec.kept))
      && st.rec.queue.bytes == Bytes(st.rec.kept)
      && (limit >= 0 ==> st.rec.queue.bytes <= limit)
      && (st.srv.conn.Some? || st.rec.queue.overflowed ==> st.rec.queue.retained == map[] && st.rec.queue.bytes == 0)
      && (st.rec.queue.overflowed ==> Run(st, later, limit).rec.queue.overflowed)
  {
    assert START.rec.log[0..] == [];
    AccountedRun(START, run, limit);
    AccountedRun(Run(START, run, limit), later, limit);
  }
}
