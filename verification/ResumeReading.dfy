// What the application reads of a stream, over any number of disconnects and resumes, whichever
// ready case the selects of its reads pick.

module ResumeReading {
  import opened Basics
  import opened Wire
  import opened Retention
  import opened Resume
  import opened ResumeOrder
  import opened ResumeStreams
  import opened ResumeContinuity
  import Flows

  // ---- one read ----------------------------------------------------------------------------------

  function Frames(ms: seq<Msg>): (fs: seq<Frame>)
    ensures |fs| == |ms| && forall i :: 0 <= i < |ms| ==> fs[i] == ms[i].frame
  {
    seq(|ms|, i requires 0 <= i < |ms| => ms[i].frame)
  }

  /** What waits in the stream's buffer. */
  function Buffer(fl: ClientFlow): seq<Frame> {
    if fl.taken <= |fl.got| then Frames(fl.got[fl.taken..]) else []
  }

  /** The stream as its own object has it. */
  function View(fl: ClientFlow, kind: Flows.Kind, inflight: nat, pending: nat): Flows.FlowState {
    Flows.FlowState(kind, Buffer(fl), fl.end.Some?, if fl.end.Some? then fl.end.value else None, inflight, pending)
  }

  lemma {:induction false} BufferHead(fl: ClientFlow)
    requires fl.taken < |fl.got|
    ensures Buffer(fl) != [] && Buffer(fl)[0] == fl.got[fl.taken].frame
    ensures Buffer(fl)[1..] == Buffer(fl.(taken := fl.taken + 1))
  {
  }

  lemma {:induction false} BufferOnly(fl: ClientFlow, seen: seq<Msg>, over: bool)
    ensures Buffer(fl.(seen := seen, over := over)) == Buffer(fl)
  {
  }

  /** A read of the state machine is a read of the stream: it leaves the same buffer and the same ending, and tells the
      application what Next returns. */
  lemma {:induction false} ReadIsNext(fl: ClientFlow, arm: Flows.Arm, kind: Flows.Kind, inflight: nat, pending: nat,
        window: int)
    requires fl.taken <= |fl.got| && CanRead(fl, arm)
    ensures Flows.Ready(View(fl, kind, inflight, pending), false, arm)
    ensures var r := Flows.Next(View(fl, kind, inflight, pending), window, false, arm);
      && r.0.frames == Buffer(ReadOnce(fl, arm))
      && (match r.1
          case Message(f) =>
            && fl.taken < |fl.got| && f == fl.got[fl.taken].frame
            && ReadOnce(fl, arm).seen == fl.seen + [fl.got[fl.taken]]
          case End => ReadOnce(fl, arm).seen == fl.seen && ReadOnce(fl, arm).over
          case CtxEnded => false)
      && r.0.done == fl.end.Some? && r.0.err == if fl.end.Some? then fl.end.value else None
  {
    var g := ReadOnce(fl, arm);
    BufferOnly(fl, g.seen, g.over);
    if fl.taken < |fl.got| {
      BufferHead(fl);
      BufferOnly(fl.(taken := fl.taken + 1), g.seen, g.over);
    }
  }

  // ---- the invariant ------------------------------------------------------------------------------

  /** What was taken came out of the buffer in order and, while the stream has not failed, was all given to the
      application; the end is reported only of an ended stream, and of one the peer ended normally only when its buffer
      is empty. */
  predicate Reading(fl: ClientFlow) {
    && fl.taken <= |fl.got| && fl.seen <= fl.got
    && (!Broken(fl) ==> fl.seen == fl.got[..fl.taken])
    && (fl.over ==> fl.end.Some?)
    && (fl.over && !Broken(fl) && fl.byPeer ==> fl.taken == |fl.got|)
  }

  ghost predicate AllReading(cl: Client) {
    forall sid: u32 :: sid in cl.flows ==> Reading(cl.flows[sid])
  }

  lemma {:induction false} ReadingOnce(fl: ClientFlow, arm: Flows.Arm)
    requires Reading(fl) && CanRead(fl, arm)
    ensures Reading(ReadOnce(fl, arm))
  {
    if fl.taken < |fl.got| {
      assert fl.got[..fl.taken + 1] == fl.got[..fl.taken] + [fl.got[fl.taken]];
    }
  }

  lemma {:induction false} ReadingGive(cl: Client, m: Msg)
    requires AllReading(cl) && m.frame.sid in cl.flows
    requires cl.flows[m.frame.sid].end.None? || !cl.flows[m.frame.sid].byPeer
    ensures AllReading(Give(cl, m))
  {
    var fl := cl.flows[m.frame.sid];
    assert (fl.got + [m])[..fl.taken] == fl.got[..fl.taken];
  }

  lemma {:induction false} ReadingEnd(cl: Client, sid: u32, end: Ending, byPeer: bool)
    requires AllReading(cl)
    ensures AllReading(EndClient(cl, sid, end, byPeer))
  {
  }

  lemma {:induction false} ReadingHandle(cl: Client, m: Msg, late: bool)
    requires AllReading(cl) && Tabled(cl) && Drawn(cl)
    ensures AllReading(Handle(cl, m, late))
  {
    if cl.hand.Some? {
      ReadingGive(cl.(hand := None), cl.hand.value);
    } else {
      if m.frame.sid in cl.table {
        assert Pending(cl.flows, m.frame.sid);
        ReadingGive(cl, m);
      }
      ReadingEnd(cl, m.frame.sid, None, true);
      ReadingEnd(cl, m.frame.sid, Some(Internal), true);
      ReadingEnd(cl, m.frame.sid, Some(Cancelled), true);
    }
  }

  lemma {:induction false} ReadingAdopt(cl: Client, c: nat)
    requires AllReading(cl) && c < |cl.ends|
    ensures AllReading(AdoptStreams(cl, c))
  {
    var d := AdoptStreams(cl, c);
    forall sid: u32 | sid in d.flows ensures Reading(d.flows[sid]) {
      assert Reading(cl.flows[sid]);
    }
  }

  lemma {:induction false} ReadingOpen(cl: Client, sid: u32, c: nat, pos: nat)
    requires AllReading(cl)
    ensures AllReading(Opened(cl, sid, c, pos))
  {
  }

  lemma {:induction false} ReadingRead(cl: Client, sid: u32, arm: Flows.Arm)
    requires AllReading(cl) && sid in cl.flows && CanRead(cl.flows[sid], arm)
    ensures AllReading(cl.(flows := cl.flows[sid := ReadOnce(cl.flows[sid], arm)]))
  {
    ReadingOnce(cl.flows[sid], arm);
  }

  lemma {:induction false} ReadingStep(st: State, s: Step, limit: int)
    requires AllReading(st.cli) && Tabled(st.cli) && Drawn(st.cli) && Enabled(st, s)
    ensures AllReading(Next(st, s, limit).cli)
  {
    if s.Read? { ReadingRead(st.cli, s.sid, s.arm); }
    else if s.CliDispatch? { ReadingHandle(st.cli, NextDown(st), s.late); }
    else if s.CliFinish? { ReadingEnd(st.cli, s.sid, s.end, false); }
    else if s.Adopt? { ReadingAdopt(st.cli, |st.cli.ends| - 1); }
    else if s.OpenStream? { ReadingOpen(st.cli, s.f.sid, st.cli.cur.value, |st.ups[st.cli.cur.value].sent|); }
    else { FlowsStay(st, s, limit); }
  }

  lemma {:induction false} FlowsStay(st: State, s: Step, limit: int)
    requires Enabled(st, s)
    requires !s.Read? && !s.CliDispatch? && !s.CliFinish? && !s.Adopt? && !s.OpenStream?
    ensures Next(st, s, limit).cli.flows == st.cli.flows
  {
    if !ClientActs(s) { StreamFraming(st, s, limit); }
  }

  lemma {:induction false} ReadingRun(st: State, run: seq<Step>, limit: int)
    requires AllReading(st.cli) && StreamSide(st) && Runnable(st, run, limit)
    ensures AllReading(Run(st, run, limit).cli)
    decreases |run|
  {
    if run != [] {
      ReadingStep(st, run[0], limit);
      StreamSideStep(st, run[0], limit);
      ReadingRun(Next(st, run[0], limit), run[1..], limit);
    }
  }

  // ---- a failed stream -----------------------------------------------------------------------------

  predicate Failed(cl: Client, sid: u32) {
    sid in cl.flows && Broken(cl.flows[sid])
  }

  /** Only reads give the application anything. */
  lemma {:induction false} SeenStays(st: State, s: Step, sid: u32, limit: int)
    requires Drawn(st.cli) && Enabled(st, s) && !s.Read? && sid in st.cli.flows
    ensures var d := Next(st, s, limit).cli; sid in d.flows && d.flows[sid].seen == st.cli.flows[sid].seen
  {
    if s.OpenStream? { FreshNumber(st.cli, s.f.sid); }
    else if !(s.CliDispatch? || s.CliFinish? || s.Adopt?) { FlowsStay(st, s, limit); }
  }

  lemma {:induction false} FailedStep(st: State, s: Step, sid: u32, limit: int)
    requires Tabled(st.cli) && Drawn(st.cli) && Enabled(st, s) && Failed(st.cli, sid)
    ensures var d := Next(st, s, limit).cli; Failed(d, sid) && d.flows[sid].seen == st.cli.flows[sid].seen
  {
    ClientEndingsStep(st, s, limit);
    assert EndKept(st.cli, Next(st, s, limit).cli, sid);
    if !s.Read? { SeenStays(st, s, sid, limit); }
  }

  lemma {:induction false} FailedRun(st: State, run: seq<Step>, sid: u32, limit: int)
    requires StreamSide(st) && Runnable(st, run, limit) && Failed(st.cli, sid)
    ensures var d := Run(st, run, limit).cli; sid in d.flows && d.flows[sid].seen == st.cli.flows[sid].seen
    decreases |run|
  {
    if run != [] {
      FailedStep(st, run[0], sid, limit);
      StreamSideStep(st, run[0], limit);
      FailedRun(Next(st, run[0], limit), run[1..], sid, limit);
    }
  }

  // ---- from the handlers to the application ----------------------------------------------------------

  lemma {:induction false} ReachedReading(st: State, sid: u32, limit: int)
    requires Reachable(st, limit) && sid in st.cli.flows
    ensures StreamSide(st) && Reading(st.cli.flows[sid])
    ensures InOrderWithoutDuplicates(st.cli.flows[sid].got, sid, st.rec.log)
  {
    var run :| Runnable(START, run, limit) && Run(START, run, limit) == st;
    ReadingRun(START, run, limit);
    ContinuousFromStart(run, limit);
    ContinuityAt(st, limit, sid);
  }

  /** What the application has been given of a stream at any moment of any run: in the order in which the handlers sent
      it and nothing twice; a beginning of what the stream was given, and as long as the stream has not failed exactly
      what was taken out of its buffer; all of it, once a read has reported a normal end made by the peer; and nothing
      more, once the stream has failed. */
  lemma {:induction false} ApplicationReads(st: State, later: seq<Step>, sid: u32, limit: int)
    requires Reachable(st, limit) && Runnable(st, later, limit) && sid in st.cli.flows
    ensures var fl, end := st.cli.flows[sid], Run(st, later, limit);
      && (forall i, j :: 0 <= i < j < |fl.seen| ==> fl.seen[i].uid < fl.seen[j].uid)
      && (forall i :: 0 <= i < |fl.seen| ==>
        fl.seen[i].uid < |st.rec.log| && st.rec.log[fl.seen[i].uid] == fl.seen[i] && fl.seen[i].frame.sid == sid)
      && fl.seen <= fl.got && fl.taken <= |fl.got|
      && (fl.end == None || fl.end == Some(None) ==> fl.seen == fl.got[..fl.taken])
      && (fl.over && fl.end == Some(None) && fl.byPeer ==> fl.seen == fl.got)
      && (fl.over ==> fl.end.Some?)
      && (fl.end != None && fl.end != Some(None) ==>
        sid in end.cli.flows && end.cli.flows[sid].seen == fl.seen)
  {
    ReachedReading(st, sid, limit);
    ReadingAt(st.cli.flows[sid], sid, st.rec.log);
    if Failed(st.cli, sid) {
      FailedRun(st, later, sid, limit);
    }
  }

  lemma {:induction false} ReadingAt(fl: ClientFlow, sid: u32, log: seq<Msg>)
    requires Reading(fl) && InOrderWithoutDuplicates(fl.got, sid, log)
    ensures InOrderWithoutDuplicates(fl.seen, sid, log)
    ensures fl.over && !Broken(fl) && fl.byPeer ==> fl.seen == fl.got
  {
    BeginningInOrder(fl.seen, fl.got, sid, log);
  }

  lemma {:induction false} BeginningInOrder(part: seq<Msg>, all: seq<Msg>, sid: u32, log: seq<Msg>)
    requires InOrderWithoutDuplicates(all, sid, log) && part <= all
    ensures InOrderWithoutDuplicates(part, sid, log)
  {
  }
}
