// How far resume is at-least-once: what a session does with a frame it is sent, what becomes of
// a sender that waits, and when a frame the session kept reaches a connection.

module ResumeLoss {
  import opened Basics
  import opened Wire
  import opened Retention
  import opened Resume
  import opened ResumeServer
  import opened ResumeOrder
  import opened ResumeFate

  // ---- the fate at the moment of sending --------------------------------------------------------

  /** What a session would keep if it were sent the frame now. */
  predicate WouldKeep(q: Queue, f: Frame, limit: int) {
    Retainable(f.ty) && !q.overflowed && q.bytes + FrameSize(f) <= limit
  }

  lemma {:induction false} ReachableIsAccountable(st: State, limit: int)
    requires Reachable(st, limit)
    ensures ServerSide(st, limit) && Accountable(Placed(st.downs), st.rec)
  {
    var run :| Runnable(START, run, limit) && Run(START, run, limit) == st;
    ServerSideStart(limit);
    ServerSideRun(START, run, limit);
    assert Below(0) == {};
    AccountableRun(START, run, limit);
  }

  lemma {:induction false} KeptIff(placed: set<nat>, r: Recovery, f: Frame, limit: int)
    requires Accountable(placed, r)
    ensures |r.log| in Uids(KeepBack(r, f, limit).kept) <==> WouldKeep(r.queue, f, limit)
  {
    var m := Msg(|r.log|, f);
    assert |r.log| !in Below(|r.log|);
    if WouldKeep(r.queue, f, limit) {
      assert m in r.kept + [m];
    }
  }

  /** Where a frame sent down goes, by what can be seen as its sender takes the session's lock. Into a connection's
      queue exactly when the session is bound to a live connection whose queue has room, and the sender's context has
      not ended; into the recovery queue exactly when the session is unbound, has not overflowed, and the frame is of a
      kept type and fits, whatever the context. The sender waits exactly when the bound connection lives, the context
      too, and only the room is missing. Otherwise the frame goes nowhere: its sender's context had ended, or the
      connection was dead but not yet unbound, or the unbound session does not keep it. */
  lemma {:induction false} SendDownOutcome(st: State, f: Frame, ended: bool, limit: int)
    requires Reachable(st, limit) && Enabled(st, SendDown(f, ended))
    ensures var t, u := Next(st, SendDown(f, ended), limit), |st.rec.log|;
      var bound := st.srv.conn;
      && (bound.Some? ==> bound.value < |st.srv.links| == |st.downs|)
      && var alive := bound.Some? && !st.srv.links[bound.value].dead;
      var room := bound.Some? && |st.downs[bound.value].sent| - st.downs[bound.value].written < 256;
      var keeps := bound.None? && f.ty in {RESPONSE, PUBLISH, SUBACK, COMPLETE, ERROR} && !st.rec.queue.overflowed
        && st.rec.queue.bytes + 16 + |f.meta| + |f.payload| <= limit;
      && (u in Placed(t.downs) <==> alive && !ended && room)
      && (u in Uids(t.rec.kept) <==> keeps)
      && (t.srv.waiting == Some(f) <==> alive && !ended && !room)
      && (t.srv.waiting.None? ==> u < |t.rec.log|)
      && (t.srv.waiting.None? && u !in Placed(t.downs) && u !in Uids(t.rec.kept) <==>
            || (bound.Some? && (ended || !alive))
            || (bound.None? && !keeps))
  {
    ReachableIsAccountable(st, limit);
    var u := |st.rec.log|;
    assert u !in Below(u);
    if st.srv.conn.None? {
      KeptIff(Placed(st.downs), st.rec, f, limit);
    } else if BoundHasRoom(st) {
      UidsOfOne(Msg(u, f));
      PlacedEnqueue(st.downs, st.srv.conn.value, [Msg(u, f)]);
    }
  }

  /** The steps that take the session's lock. */
  predicate TakesLock(s: Step) {
    s.SendDown? || s.Bind? || s.Unbind? || s.Terminate?
  }

  /** No step that takes the session's lock is possible. */
  ghost predicate Locked(st: State) {
    forall s :: TakesLock(s) ==> !Enabled(st, s)
  }

  lemma {:induction false} WaitingLocks(st: State)
    requires st.srv.waiting.Some?
    ensures Locked(st)
  {
    forall s | TakesLock(s) ensures !Enabled(st, s) {
      LockHeld(st, s);
    }
  }

  /** While a sender waits for room, nothing that needs the session's lock is possible; otherwise no lock stands in the
      way of ending the session or of a new frame. */
  lemma {:induction false} LockHeld(st: State, s: Step)
    ensures st.srv.waiting.Some? && (s.SendDown? || s.Bind? || s.Unbind? || s.Terminate?) ==> !Enabled(st, s)
    ensures Shaped(st) && st.srv.waiting == None && (s.Terminate? || (s.SendDown? && s.f.sid % 2 == 0)) ==>
      Enabled(st, s)
  {
  }

  lemma {:induction false} SettlePlaces(st: State, why: Wake, limit: int)
    requires Enabled(st, Settle(why))
    ensures var t, m := Next(st, Settle(why), limit), Msg(|st.rec.log|, st.srv.waiting.value);
      && t.srv.waiting.None? && t.rec.log == st.rec.log + [m] && t.rec.kept == st.rec.kept
      && Placed(t.downs) == Placed(st.downs) + if why == Slot then {m.uid} else {}
  {
    var m := Msg(|st.rec.log|, st.srv.waiting.value);
    UidsOfOne(m);
    PlacedEnqueue(st.downs, st.srv.conn.value, [m]);
  }

  /** While a sender waits the session's lock is taken: nothing else is sent down, and nobody binds, unbinds or
      terminates the session. The wait ends with the frame in the queue exactly when a slot became free; if the
      connection's death or the sender's context ends it, the frame goes nowhere, and no unbind can come first to have
      it kept. */
  lemma {:induction false} WaitOutcome(st: State, why: Wake, limit: int)
    requires Reachable(st, limit) && Enabled(st, Settle(why))
    ensures forall s: Step :: s.SendDown? || s.Bind? || s.Unbind? || s.Terminate? ==> !Enabled(st, s)
    ensures var t, u := Next(st, Settle(why), limit), |st.rec.log|;
      && t.srv.waiting.None? && u < |t.rec.log| && t.rec.log[u].frame == st.srv.waiting.value
      && (u in Placed(t.downs) <==> why == Slot) && u !in Uids(t.rec.kept)
  {
    ReachableIsAccountable(st, limit);
    assert |st.rec.log| !in Below(|st.rec.log|);
    SettlePlaces(st, why, limit);
    WaitingLocks(st);
  }

  // ---- fates are final --------------------------------------------------------------------------

  lemma {:induction false} PlacedGrows(a: seq<Down>, b: seq<Down>)
    requires |a| <= |b| && forall c :: 0 <= c < |a| ==> a[c].sent <= b[c].sent
    ensures Placed(a) <= Placed(b)
    decreases |a|
  {
    if a != [] {
      PlacedGrows(a[1..], b[1..]);
      forall u | u in Uids(a[0].sent) ensures u in Uids(b[0].sent) {
        var m :| m in a[0].sent && m.uid == u;
        assert m in b[0].sent;
      }
    }
  }

  lemma {:induction false} QueuesGrow(st: State, s: Step, limit: int)
    requires Enabled(st, s)
    ensures Placed(st.downs) <= Placed(Next(st, s, limit).downs)
  {
    var t := Next(st, s, limit);
    forall c: nat | c < |st.downs| ensures c < |t.downs| && st.downs[c].sent <= t.downs[c].sent {
      QueueGrows(st, s, limit, c);
    }
    if st.downs != [] {
      QueueGrows(st, s, limit, |st.downs| - 1);
    }
    PlacedGrows(st.downs, t.downs);
  }

  lemma {:induction false} FatesStep(st: State, s: Step, limit: int)
    requires Enabled(st, s)
    ensures var t := Next(st, s, limit);
      && Placed(st.downs) <= Placed(t.downs) && st.rec.rejected <= t.rec.rejected
      && st.rec.abandoned <= t.rec.abandoned && st.rec.lost <= t.rec.lost
  {
    QueuesGrow(st, s, limit);
    if !(Sends(s) || s.Bind? || s.Direct? || s.Unbind?) {
      ServerFraming(st, s, limit);
    }
  }

  lemma {:induction false} FatesRun(st: State, run: seq<Step>, limit: int)
    requires Runnable(st, run, limit)
    ensures var t := Run(st, run, limit);
      && Placed(st.downs) <= Placed(t.downs) && st.rec.rejected <= t.rec.rejected
      && st.rec.abandoned <= t.rec.abandoned && st.rec.lost <= t.rec.lost
    decreases |run|
  {
    if run != [] {
      FatesStep(st, run[0], limit);
      FatesRun(Next(st, run[0], limit), run[1..], limit);
    }
  }

  /** Once queued, rejected, given up or lost, always so: a frame that is neither queued nor kept will never be
      queued. */
  lemma {:induction false} PlacedForGood(st: State, later: seq<Step>, u: nat, limit: int)
    requires ServerSide(st, limit) && Accountable(Placed(st.downs), st.rec) && Runnable(st, later, limit)
    requires u < |st.rec.log| && u !in Uids(st.rec.kept)
    ensures u in Placed(Run(st, later, limit).downs) <==> u in Placed(st.downs)
  {
    FatesRun(st, later, limit);
    AccountableRun(st, later, limit);
    assert u in Below(|st.rec.log|);
  }

  // ---- when a kept frame reaches a connection -----------------------------------------------------

  predicate NoBind(run: seq<Step>) {
    forall i :: 0 <= i < |run| ==> !run[i].Bind?
  }

  /** The frames sent later on take the recovery queue over its limit. */
  predicate TooMuch(bytes: int, more: seq<Msg>, limit: int) {
    Keepable(more) != [] && bytes + Bytes(Keepable(more)) > limit
  }

  /** What has been sent between two states of a run. */
  function SentSince(st: State, a: State): seq<Msg> {
    if |st.rec.log| <= |a.rec.log| then a.rec.log[|st.rec.log|..] else []
  }

  lemma {:induction false} BytesAppend(a: seq<Msg>, b: seq<Msg>)
    ensures Bytes(a + b) == Bytes(a) + Bytes(b)
    decreases |b|
  {
    if b == [] {
      assert a + b == a;
    } else {
      var c, m := b[..|b| - 1], b[|b| - 1];
      BytesAppend(a, c);
      assert a + b == a + c + [m] && (a + b)[..|a + c|] == a + c;
    }
  }

  lemma {:induction false} BytesOfOne(m: Msg)
    ensures Bytes([m]) == FrameSize(m.frame)
    ensures Keepable([m]) == if Retainable(m.frame.ty) then [m] else []
  {
    assert [m][..0] == [];
  }

  /** One more frame at the front of what is sent. */
  lemma {:induction false} TooMuchCons(bytes: int, m: Msg, more: seq<Msg>, limit: int)
    ensures !Retainable(m.frame.ty) ==> (TooMuch(bytes, [m] + more, limit) <==> TooMuch(bytes, more, limit))
    ensures Retainable(m.frame.ty) && bytes + FrameSize(m.frame) > limit ==> TooMuch(bytes, [m] + more, limit)
    ensures Retainable(m.frame.ty) && bytes + FrameSize(m.frame) <= limit ==>
      (TooMuch(bytes, [m] + more, limit) <==> TooMuch(bytes + FrameSize(m.frame), more, limit))
  {
    BytesOfOne(m);
    KeepableAppend([m], more);
    BytesAppend(Keepable([m]), Keepable(more));
  }

  lemma {:induction false} OneMoreSent(r: Recovery, f: Frame, more: seq<Msg>, limit: int)
    requires !r.queue.overflowed
    ensures var k, all := KeepBack(r, f, limit), [Msg(|r.log|, f)] + more;
      if k.queue.overflowed then TooMuch(r.queue.bytes, all, limit)
      else (TooMuch(r.queue.bytes, all, limit) <==> TooMuch(k.queue.bytes, more, limit)) && r.kept <= k.kept
  {
    TooMuchCons(r.queue.bytes, Msg(|r.log|, f), more, limit);
  }

  /** While a session is away nothing is queued; its log grows. */
  ghost predicate Away(a: State, b: State) {
    && b.srv.conn.None? && Placed(b.downs) == Placed(a.downs) && a.rec.log <= b.rec.log
  }

  lemma {:induction false} AwayStep(st: State, s: Step, limit: int)
    requires Plumbed(st.srv, st.downs) && st.srv.conn.None? && Enabled(st, s) && !s.Bind?
    ensures var t := Next(st, s, limit);
      && Away(st, t)
      && (s.SendDown? ==> t.rec == KeepBack(st.rec, s.f, limit))
      && (!s.SendDown? ==> t.rec == st.rec)
  {
    var t := Next(st, s, limit);
    if s.Dial? { PlacedDial(st.downs); }
    else if s.WriteOut? || s.CliDispatch? { PlacedSame(st.downs, t.downs); }
    else if s.SendDown? || s.Unbind? || s.StartLoops? || s.SrvDie? { }
    else { Framing(st, s, limit); }
  }

  /** A disconnected session overflows exactly when what it is sent is too much for the limit; until then it keeps all
      it had. */
  lemma {:induction false} OverflowIff(st: State, away: seq<Step>, limit: int)
    requires ServerSide(st, limit) && st.srv.conn.None? && !st.rec.queue.overflowed
    requires NoBind(away) && Runnable(st, away, limit)
    ensures var a := Run(st, away, limit);
      && a.srv.conn == None && Placed(a.downs) == Placed(st.downs) && st.rec.log <= a.rec.log
      && var sent := Keepable(a.rec.log[|st.rec.log|..]);
      && (a.rec.queue.overflowed <==> sent != [] && st.rec.queue.bytes + Bytes(sent) > limit)
      && (!a.rec.queue.overflowed ==> st.rec.kept <= a.rec.kept)
  {
    OverflowFrom(st, away, limit);
  }

  lemma {:induction false} OverflowFrom(st: State, away: seq<Step>, limit: int)
    requires ServerSide(st, limit) && st.srv.conn.None? && !st.rec.queue.overflowed
    requires NoBind(away) && Runnable(st, away, limit)
    ensures var a := Run(st, away, limit);
      && Away(st, a)
      && (a.rec.queue.overflowed <==> TooMuch(st.rec.queue.bytes, SentSince(st, a), limit))
      && (!a.rec.queue.overflowed ==> st.rec.kept <= a.rec.kept)
    decreases |away|, 0
  {
    if away == [] {
      assert SentSince(st, st) == [];
    } else {
      var s, t := away[0], Next(st, away[0], limit);
      assert NoBind(away[1..]) by {
        forall i | 0 <= i < |away[1..]| ensures !away[1..][i].Bind? { assert !away[i + 1].Bind?; }
      }
      AwayStep(st, s, limit);
      ServerSideStep(st, s, limit);
      AwayOn(st, t, if s.SendDown? then Some(s.f) else None, away[1..], limit);
    }
  }

  /** The induction step of OverflowFrom: from st to t one frame, or none, was sent. */
  lemma {:induction false} AwayOn(st: State, t: State, f: Option<Frame>, rest: seq<Step>, limit: int)
    requires !st.rec.queue.overflowed && ServerSide(t, limit) && Away(st, t) && NoBind(rest) && Runnable(t, rest, limit)
    requires t.rec == if f.Some? then KeepBack(st.rec, f.value, limit) else st.rec
    ensures var a := Run(t, rest, limit);
      && Away(st, a)
      && (a.rec.queue.overflowed <==> TooMuch(st.rec.queue.bytes, SentSince(st, a), limit))
      && (!a.rec.queue.overflowed ==> st.rec.kept <= a.rec.kept)
    decreases |rest|, 1
  {
    var a := Run(t, rest, limit);
    if t.rec.queue.overflowed {
      OverflowedOn(t, rest, limit);
    } else {
      OverflowFrom(t, rest, limit);
    }
    if f.Some? {
      assert SentSince(st, a) == [Msg(|st.rec.log|, f.value)] + SentSince(t, a);
      OneMoreSent(st.rec, f.value, SentSince(t, a), limit);
    }
  }

  lemma {:induction false} OverflowedOn(t: State, rest: seq<Step>, limit: int)
    requires ServerSide(t, limit) && t.srv.conn.None? && t.rec.queue.overflowed && NoBind(rest)
    requires Runnable(t, rest, limit)
    ensures Away(t, Run(t, rest, limit)) && Run(t, rest, limit).rec.queue.overflowed
    decreases |rest|, 0
  {
    if rest != [] {
      assert NoBind(rest[1..]) by {
        forall i | 0 <= i < |rest[1..]| ensures !rest[1..][i].Bind? { assert !rest[i + 1].Bind?; }
      }
      AwayStep(t, rest[0], limit);
      ServerSideStep(t, rest[0], limit);
      OverflowedOn(Next(t, rest[0], limit), rest[1..], limit);
    }
  }

  /** Of the older frames, a bind queues those its part of the replay holds. */
  lemma {:induction false} QueuedUids(r: Recovery, replay: seq<Msg>, queued: seq<Msg>, u: nat)
    requires Keepable(queued) <= replay && NumberedFrom(Passing(queued), |r.log|) && u < |r.log|
    ensures u in Uids(queued) <==> u in Uids(replay[..|Keepable(queued)|])
  {
    TwoParts(queued);
    UidsFrom(Passing(queued), |r.log|);
    assert u in Below(|r.log|);
    assert Keepable(queued) == replay[..|Keepable(queued)|];
    assert Uids(queued) == Uids(Keepable(queued)) + Uids(Passing(queued));
  }

  lemma {:induction false} ReplayUids(r: Recovery, replay: seq<Msg>, limit: int)
    requires Accounted(false, r, limit) && Numbered(r.log) && IsReplay(replay, r.queue)
    ensures Uids(replay) == Uids(r.kept)
  {
    ReplayRises(r, replay, limit);
    SameUids(replay, r.kept);
  }

  lemma {:induction false} KeptIsAnswered(a: State, c: nat, replay: seq<Msg>, queued: seq<Msg>, u: nat, limit: int)
    requires ServerSide(a, limit) && a.srv.conn.None?
    requires Enabled(a, Bind(c, replay, queued)) && u < |a.rec.log| && u !in Placed(a.downs)
    ensures u in Placed(Next(a, Bind(c, replay, queued), limit).downs) <==> u in Uids(replay[..|Keepable(queued)|])
    ensures u in Uids(replay) <==> u in Uids(a.rec.kept)
  {
    ReplayUids(a.rec, replay, limit);
    PlacedEnqueue(a.downs, c, queued);
    QueuedUids(a.rec, replay, queued, u);
  }

  /** How far resume is at-least-once. A frame the session has kept reaches a connection's queue, for good, at the next
      bind exactly when what was sent in between did not take the recovery queue over its limit, and the new connection
      lived until the frame's turn in the replay; if it lived through the replay, exactly when the limit held. */
  lemma {:induction false} KeptReachesQueueIff(st: State, u: nat, away: seq<Step>, c: nat, replay: seq<Msg>,
        queued: seq<Msg>, later: seq<Step>, limit: int)
    requires Reachable(st, limit) && st.srv.conn.None? && u in Uids(st.rec.kept)
    requires NoBind(away) && Runnable(st, away, limit) && Enabled(Run(st, away, limit), Bind(c, replay, queued))
    requires Runnable(Next(Run(st, away, limit), Bind(c, replay, queued), limit), later, limit)
    ensures var a := Run(st, away, limit);
      var end := Run(Next(a, Bind(c, replay, queued), limit), later, limit);
      && st.rec.log <= a.rec.log
      && var sent := Keepable(a.rec.log[|st.rec.log|..]);
      var fits := sent == [] || st.rec.queue.bytes + Bytes(sent) <= limit;
      && (u in Placed(end.downs) <==> u in Uids(replay[..|Keepable(queued)|]))
      && (u in Uids(replay) <==> fits)
      && (|Keepable(queued)| == |replay| ==> (u in Placed(end.downs) <==> fits))
  {
    ReachableIsAccountable(st, limit);
    ServerSideRun(st, away, limit);
    AccountableRun(st, away, limit);
    OverflowIff(st, away, limit);
    var a := Run(st, away, limit);
    assert u in Below(|st.rec.log|);
    KeptOrNot(st, a, u, limit);
    KeptIsAnswered(a, c, replay, queued, u, limit);
    SoundAfterBind(a, c, replay, queued, limit);
    FromThatBind(Next(a, Bind(c, replay, queued), limit), |Keepable(queued)|, replay, later, u, limit);
  }

  /** From the bind on, the frame stays where the bind put it. */
  lemma {:induction false} FromThatBind(t: State, n: nat, replay: seq<Msg>, later: seq<Step>, u: nat,
        limit: int)
    requires ServerSide(t, limit) && Accountable(Placed(t.downs), t.rec) && Uids(t.rec.kept) == {}
    requires u < |t.rec.log| && n <= |replay| && Runnable(t, later, limit)
    requires u in Placed(t.downs) <==> u in Uids(replay[..n])
    ensures u in Placed(Run(t, later, limit).downs) <==> u in Uids(replay[..n])
    ensures n == |replay| ==> (u in Placed(Run(t, later, limit).downs) <==> u in Uids(replay))
  {
    PlacedForGood(t, later, u, limit);
    assert n == |replay| ==> replay[..n] == replay;
  }

  lemma {:induction false} SoundAfterBind(a: State, c: nat, replay: seq<Msg>, queued: seq<Msg>, limit: int)
    requires ServerSide(a, limit) && Accountable(Placed(a.downs), a.rec) && Enabled(a, Bind(c, replay, queued))
    ensures var t := Next(a, Bind(c, replay, queued), limit);
      && ServerSide(t, limit) && Accountable(Placed(t.downs), t.rec)
      && Uids(t.rec.kept) == {} && |a.rec.log| <= |t.rec.log|
  {
    AccountableBind(a, c, replay, queued, limit);
    ServerSideStep(a, Bind(c, replay, queued), limit);
    BindEmpties(a, c, replay, queued, limit);
  }

  lemma {:induction false} BindEmpties(a: State, c: nat, replay: seq<Msg>, queued: seq<Msg>, limit: int)
    requires Enabled(a, Bind(c, replay, queued))
    ensures var t := Next(a, Bind(c, replay, queued), limit); Uids(t.rec.kept) == {} && |a.rec.log| <= |t.rec.log|
  {
  }

  lemma {:induction false} KeptOrNot(st: State, a: State, u: nat, limit: int)
    requires u in Uids(st.rec.kept) && ServerSide(a, limit)
    requires !a.rec.queue.overflowed ==> st.rec.kept <= a.rec.kept
    ensures u in Uids(a.rec.kept) <==> !a.rec.queue.overflowed
  {
    if !a.rec.queue.overflowed {
      var m :| m in st.rec.kept && m.uid == u;
      assert m in a.rec.kept;
    }
  }
}
