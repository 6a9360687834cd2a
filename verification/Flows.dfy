// One stream as this side sees it: its frame buffer, its terminal state and its credit
// bookkeeping, and what a reader gets from it whichever ready case its select picks.

module Flows {
  import opened Basics
  import opened Wire

  datatype Kind = RequestFlow | StreamFlow | ChannelFlow | SubscribeFlow

  const BUFFER := 32

  datatype FlowState = FlowState(kind: Kind, frames: seq<Frame>, done: bool, err: Option<ErrorCode>, inflight: nat,
    pending: nat)

  function Fresh(kind: Kind): FlowState {
    FlowState(kind, [], false, None, 0, 0)
  }

  // ---- ending and filling ------------------------------------------------------------

  /** `finish`: the first terminal state wins. */
  function Finish(s: FlowState, e: Option<ErrorCode>): FlowState {
    if s.done then s else s.(done := true, err := e)
  }

  /** deliver blocks while the buffer is full and the stream is alive. */
  predicate CanDeliver(s: FlowState) {
    s.done || |s.frames| < BUFFER
  }

  /** What becomes of a frame handed to a stream: it lands in the buffer, is dropped, or its delivery waits for room. */
  datatype Delivery = Landed | Dropped | Waits

  /** `deliver`'s select; `late`: of an ended stream with room in its buffer, it picks the buffer. */
  function DeliverSpec(s: FlowState, f: Frame, late: bool): (r: (FlowState, Delivery))
    ensures r.1 == Landed <==> |s.frames| < BUFFER && (s.done ==> late)
    ensures r.1 == Waits <==> !s.done && |s.frames| >= BUFFER
    ensures r.0.frames == if r.1 == Landed then s.frames + [f] else s.frames
  {
    if |s.frames| < BUFFER && (!s.done || late) then (s.(frames := s.frames + [f]), Landed)
    else (s, if s.done then Dropped else Waits)
  }

  function Deliver(s: FlowState, f: Frame): FlowState
    requires CanDeliver(s)
  {
    DeliverSpec(s, f, false).0
  }

  // ---- credit bookkeeping --------------------------------------------------------------

  /** The batch size of grants for a window: half of it, but at least one. */
  function FlushAt(window: int): (k: nat)
    ensures window > 0 ==> 1 <= k <= window && k == if window < 4 then 1 else window / 2
  {
    if window <= 0 then 0 else if window / 2 < 1 then 1 else window / 2
  }

  predicate BearsCredit(kind: Kind, window: int) {
    window > 0 && kind != RequestFlow
  }

  function CreditIn(s: FlowState, window: int): FlowState {
    if BearsCredit(s.kind, window) then s.(inflight := s.inflight + 1) else s
  }

  /** `release`: n frames reached the application; the second component is the CREDIT grant this sends, 0 for none. */
  function Release(s: FlowState, window: int, n: nat): (r: (FlowState, nat))
    ensures !BearsCredit(s.kind, window) ==> r == (s, 0)
    ensures BearsCredit(s.kind, window) ==> r.0.pending + r.1 == s.pending + n && r.0.pending < FlushAt(window)
    ensures BearsCredit(s.kind, window) ==> (r.1 > 0 <==> s.pending + n >= FlushAt(window))
    ensures r.0.frames == s.frames && r.0.done == s.done && r.0.err == s.err && r.0.kind == s.kind
  {
    if !BearsCredit(s.kind, window) then (s, 0)
    else
      var p := s.pending + n;
      var flush := p >= FlushAt(window);
      (s.(inflight := if s.inflight > n then s.inflight - n else 0, pending := if flush then 0 else p), if flush
        then p else 0)
  }

  // ---- reading ---------------------------------------------------------------------------

  /** The cases of the reader's select. */
  datatype Arm = FrameArm | CtxArm | DoneArm

  predicate Ready(s: FlowState, ctxDone: bool, arm: Arm) {
    match arm
    case FrameArm => s.frames != []
    case CtxArm => ctxDone
    case DoneArm => s.done
  }

  /** A message, the end of the stream (Err tells how), or the caller's own context. */
  datatype ReadResult = Message(frame: Frame) | End | CtxEnded

  function PopFrame(s: FlowState, window: int): FlowState
    requires s.frames != []
  {
    Release(s.(frames := s.frames[1..]), window, 1).0
  }

  /** ReadStream.Next. A context that ends cancels the stream; an error discards frames still buffered. */
  function Next(s: FlowState, window: int, ctxDone: bool, arm: Arm): (r: (FlowState, ReadResult))
    requires Ready(s, ctxDone, arm)
  {
    match arm
    case FrameArm =>
      var t := PopFrame(s, window);
      (t, if t.done && t.err.Some? then End else Message(s.frames[0]))
    case CtxArm => (Finish(s, Some(Cancelled)), CtxEnded)
    case DoneArm =>
      if s.err.Some? || s.frames == [] then (s, End) else (PopFrame(s, window), Message(s.frames[0]))
  }

  /** The grant that goes out with a read: none unless it takes a frame out of the buffer. */
  function GrantOfRead(s: FlowState, window: int, arm: Arm): nat {
    if arm == FrameArm || (arm == DoneArm && s.err.None? && s.frames != []) then Release(s, window, 1).1 else 0
  }

  /** Channel.Receive differs only in that an ended context leaves the stream alone. */
  function Receive(s: FlowState, window: int, ctxDone: bool, arm: Arm): (r: (FlowState, ReadResult))
    requires Ready(s, ctxDone, arm)
    ensures r.0.done == s.done && r.0.err == s.err
    ensures arm == CtxArm ==> r == (s, CtxEnded)
    ensures arm != CtxArm ==>
      var takes := s.frames != [] && (arm == FrameArm || s.err == None);
      && r.0.frames == (if takes then s.frames[1..] else s.frames)
      && r.1 == if takes && !(s.done && s.err.Some?) then Message(s.frames[0]) else End
  {
    if arm == CtxArm then (s, CtxEnded) else Next(s, window, ctxDone, arm)
  }

  /** doRequest: the single response ends the stream, and is looked for again after a termination. */
  function Await(s: FlowState, ctxDone: bool, arm: Arm): (r: (FlowState, ReadResult))
    requires Ready(s, ctxDone, arm)
    ensures r.1 == CtxEnded <==> arm == CtxArm
    ensures r.1 == End <==> arm == DoneArm && s.frames == []
    ensures r.1 !in {CtxEnded, End} ==> r.1 == Message(s.frames[0]) && r.0.frames == s.frames[1..]
    ensures r.1 in {CtxEnded, End} ==> r.0.frames == s.frames
    ensures r.0.done && (s.done ==> r.0.err == s.err)
    ensures !s.done ==> r.0.err == if arm == CtxArm then Some(Cancelled) else None
  {
    match arm
    case FrameArm => (Finish(s.(frames := s.frames[1..]), None), Message(s.frames[0]))
    case CtxArm => (Finish(s, Some(Cancelled)), CtxEnded)
    case DoneArm => if s.frames != [] then (s.(frames := s.frames[1..]), Message(s.frames[0])) else (s, End)
  }

  /** A response that was delivered is returned whatever else became ready, unless the caller's own context ended. */
  lemma ResponseBeatsTermination(s: FlowState, ctxDone: bool, arm: Arm)
    requires s.frames != [] && Ready(s, ctxDone, arm)
    ensures Await(s, ctxDone, arm).1 == if arm == CtxArm then CtxEnded else Message(s.frames[0])
    ensures arm == CtxArm ==>
      Await(s, ctxDone, arm).0 == if s.done then s else s.(done := true, err := Some(Cancelled))
    ensures !ctxDone ==> Await(s, ctxDone, arm).1 == Message(s.frames[0]) && Await(s, ctxDone, arm).0.done
  {
  }

  // ---- whole lives -------------------------------------------------------------------------

  datatype Event =
    | Arrives(f: Frame)                       // the read loop delivers a frame
    | Finishes(e: Option<ErrorCode>, byPeer: bool)   // COMPLETE, ERROR or CANCEL from the read loop; or a local finish
    | Straggles(f: Frame)                     // a delivery that had looked the stream up just before a local finish
    | Reads(ctxDone: bool, arm: Arm)          // Next, with the case its select picked
    | Receives(ctxDone: bool, arm: Arm)       // Receive, likewise

  /** A stream with the history of its reader. `over` records that a read has reported the end, `byPeer` that the read
      loop ended the stream. That loop also delivers, so only a local end can overtake a delivery; the delivery's select
      may then still choose the buffer. */
  datatype Life = Life(s: FlowState, delivered: seq<Frame>, returned: seq<Frame>, over: bool, byPeer: bool)

  predicate Possible(l: Life, e: Event) {
    match e
    case Arrives(_) => CanDeliver(l.s)
    case Finishes(_, _) => true
    case Straggles(_) => l.s.done && !l.byPeer && |l.s.frames| < BUFFER
    case Reads(ctxDone, arm) => Ready(l.s, ctxDone, arm)
    case Receives(ctxDone, arm) => Ready(l.s, ctxDone, arm)
  }

  function AfterRead(l: Life, r: (FlowState, ReadResult)): Life {
    match r.1
    case Message(f) => l.(s := r.0, returned := l.returned + [f])
    case End => l.(s := r.0, over := true)
    case CtxEnded => l.(s := r.0)
  }

  function Live(l: Life, e: Event, window: int): Life
    requires Possible(l, e)
  {
    match e
    case Arrives(f) => l.(s := Deliver(l.s, f), delivered := if l.s.done then l.delivered else l.delivered + [f])
    case Finishes(err, byPeer) => l.(s := Finish(l.s, err), byPeer := if l.s.done then l.byPeer else byPeer)
    case Straggles(f) => l.(s := DeliverSpec(l.s, f, true).0, delivered := l.delivered + [f])
    case Reads(ctxDone, arm) => AfterRead(l, Next(l.s, window, ctxDone, arm))
    case Receives(ctxDone, arm) => AfterRead(l, Receive(l.s, window, ctxDone, arm))
  }

  /** What each event does to a life, field by field. */
  lemma EventOutcome(l: Life, e: Event, window: int)
    requires Possible(l, e)
    ensures var m := Live(l, e, window);
      && ((e.Arrives? && !l.s.done) || e.Straggles? ==>
        && m.s.frames == l.s.frames + [e.f] && m.delivered == l.delivered + [e.f]
        && m.s.done == l.s.done && m.s.err == l.s.err && m.byPeer == l.byPeer)
      && (e.Arrives? && l.s.done ==> m == l)
      && (e.Finishes? && !l.s.done ==>
        m.s.done && m.s.err == e.e && m.byPeer == e.byPeer && m.s.frames == l.s.frames && m.delivered == l.delivered)
      && (e.Finishes? && l.s.done ==> m == l)
      && (e.Reads? && e.arm == CtxArm ==>
        && m.s.done && m.s.err == (if l.s.done then l.s.err else Some(Cancelled)) && m.s.frames == l.s.frames
        && m.returned == l.returned && m.over == l.over)
      && (e.Receives? && e.arm == CtxArm ==> m == l)
      && ((e.Reads? || e.Receives?) && e.arm != CtxArm ==>
        var takes := l.s.frames != [] && (e.arm == FrameArm || l.s.err == None);
        var gives := takes && !(l.s.done && l.s.err != None);
        && m.s.done == l.s.done && m.s.err == l.s.err && m.byPeer == l.byPeer && m.delivered == l.delivered
        && m.s.frames == (if takes then l.s.frames[1..] else l.s.frames)
        && m.returned == (if gives then l.returned + [l.s.frames[0]] else l.returned)
        && m.over == (l.over || !gives))
      && (!e.Reads? && !e.Receives? ==> m.returned == l.returned && m.over == l.over)
  {
  }

  predicate Lives(l: Life, es: seq<Event>, window: int)
    decreases |es|
  {
    es == [] || (Possible(l, es[0]) && Lives(Live(l, es[0], window), es[1..], window))
  }

  function LiveAll(l: Life, es: seq<Event>, window: int): Life
    requires Lives(l, es, window)
    decreases |es|
  {
    if es == [] then l else LiveAll(Live(l, es[0], window), es[1..], window)
  }

  function Birth(kind: Kind): Life {
    Life(Fresh(kind), [], [], false, false)
  }

  predicate Failed(s: FlowState) {
    s.done && s.err.Some?
  }

  /** What every reader relies on: nothing is reordered, duplicated or invented; while the stream has not failed,
      nothing is lost either; and the end of a stream that the peer ended is reported only after the last delivered
      frame. */
  predicate Faithful(l: Life) {
    && l.returned <= l.delivered
    && (!Failed(l.s) ==> l.delivered == l.returned + l.s.frames)
    && (l.over ==> l.s.done)
    && (l.over && !Failed(l.s) && l.byPeer ==> l.s.frames == [])
    && (!l.s.done ==> l.s.err.None? && !l.byPeer)
  }

  /** Nothing that happens to an ended stream changes how it ended, nor, if the peer ended it, what was delivered to
      it. */
  predicate Ended(l: Life, m: Life) {
    m.s.done && m.s.err == l.s.err && m.byPeer == l.byPeer && l.delivered <= m.delivered
      && (l.byPeer ==> m.delivered == l.delivered)
  }

  lemma FaithfulRead(l: Life, r: (FlowState, ReadResult), window: int, ctxDone: bool, arm: Arm)
    requires Faithful(l) && Ready(l.s, ctxDone, arm)
    requires r == Next(l.s, window, ctxDone, arm) || r == Receive(l.s, window, ctxDone, arm)
    ensures Faithful(AfterRead(l, r))
    ensures l.s.done ==> Ended(l, AfterRead(l, r))
    ensures Failed(l.s) ==> AfterRead(l, r).returned == l.returned
  {
    if arm != CtxArm && l.s.frames != [] && !Failed(l.s) {
      assert l.s.frames == [l.s.frames[0]] + l.s.frames[1..];
      assert l.delivered == (l.returned + [l.s.frames[0]]) + l.s.frames[1..];
    }
  }

  lemma FaithfulStep(l: Life, e: Event, window: int)
    requires Faithful(l) && Possible(l, e)
    ensures Faithful(Live(l, e, window))
    ensures l.s.done ==> Ended(l, Live(l, e, window))
    ensures Failed(l.s) ==> Live(l, e, window).returned == l.returned
  {
    match e
    case Reads(ctxDone, arm) => FaithfulRead(l, Next(l.s, window, ctxDone, arm), window, ctxDone, arm);
    case Receives(ctxDone, arm) => FaithfulRead(l, Receive(l.s, window, ctxDone, arm), window, ctxDone, arm);
    case _ =>
  }

  lemma {:induction false} FaithfulForever(l: Life, es: seq<Event>, window: int)
    requires Faithful(l) && Lives(l, es, window)
    ensures Faithful(LiveAll(l, es, window))
    ensures l.s.done ==> Ended(l, LiveAll(l, es, window))
    ensures Failed(l.s) ==> LiveAll(l, es, window).returned == l.returned
    decreases |es|
  {
    if es != [] {
      FaithfulStep(l, es[0], window);
      FaithfulForever(Live(l, es[0], window), es[1..], window);
    }
  }

  /** In any life of a stream, under every choice of every select: the reader has received a prefix of what was
      delivered; if the peer ended the stream normally and a read said so, it has received all of it; the first terminal
      state stays; and once the stream has ended with an error, no read ever returns another frame. */
  lemma ReaderSeesDelivered(kind: Kind, es: seq<Event>, later: seq<Event>, window: int)
    requires Lives(Birth(kind), es, window)
    requires Lives(LiveAll(Birth(kind), es, window), later, window)
    ensures var l := LiveAll(Birth(kind), es, window);
      var m := LiveAll(l, later, window);
      var failed := l.s.done && l.s.err != None;
      && l.returned <= l.delivered
      && (!failed ==> l.delivered == l.returned + l.s.frames)
      && (l.over ==> l.s.done)
      && (l.over && !failed && l.byPeer ==> m.returned == m.delivered == l.delivered)
      && (l.s.done ==> m.s.done && m.s.err == l.s.err && m.byPeer == l.byPeer && l.delivered <= m.delivered)
      && (l.s.done && l.byPeer ==> m.delivered == l.delivered)
      && (failed ==> m.returned == l.returned)
  {
    FaithfulForever(Birth(kind), es, window);
    FaithfulForever(LiveAll(Birth(kind), es, window), later, window);
  }

  /** A reported end is final only when the peer ended the stream: after a local end, as a channel's Close makes it, a
      delivery that was under way can still land behind it. */
  lemma StragglerAfterEnd(f: Frame, window: int)
    ensures var es := [Finishes(None, false), Receives(false, DoneArm), Straggles(f)];
      && Lives(Birth(ChannelFlow), es, window)
      && var l := LiveAll(Birth(ChannelFlow), es, window);
        l.over && !Failed(l.s) && l.returned == []
        && l.delivered == [f]
  {
    var es := [Finishes(None, false), Receives(false, DoneArm), Straggles(f)];
    var l1 := Live(Birth(ChannelFlow), es[0], window);
    var l2 := Live(l1, es[1], window);
    var l3 := Live(l2, es[2], window);
    assert es[1..][0] == es[1] && es[1..][1..] == [es[2]] && [es[2]][1..] == [];
    assert Lives(l3, [], window) && LiveAll(l3, [], window) == l3;
    assert Lives(l2, [es[2]], window) && LiveAll(l2, [es[2]], window) == l3;
    assert Lives(l1, es[1..], window) && LiveAll(l1, es[1..], window) == l3;
  }

  /** The reads a reader with a live context makes on a stream that is not fed any more. */
  predicate OnlyReads(es: seq<Event>) {
    forall i :: 0 <= i < |es| ==> (es[i].Reads? || es[i].Receives?) && es[i].arm != CtxArm
  }

  /** One read of a normally ended stream yields the first buffered frame, or the end if there is none. */
  lemma OneRead(l: Life, e: Event, window: int)
    requires l.s.done && l.s.err.None? && (e.Reads? || e.Receives?) && e.arm != CtxArm && Possible(l, e)
    ensures var k := Live(l, e, window);
      && k.s.done && k.s.err.None?
      && (l.s.frames != [] ==>
        k.s.frames == l.s.frames[1..] && k.returned == l.returned + [l.s.frames[0]]
        && k.over == l.over)
      && (l.s.frames == [] ==> k.s.frames == [] && k.returned == l.returned && k.over)
  {
  }

  /** What n further reads add to a life whose buffer holds fs. */
  ghost predicate Drained(l: Life, m: Life, n: nat) {
    var fs := l.s.frames;
    var k := if n <= |fs| then n else |fs|;
    && m.returned == l.returned + fs[..k]
    && m.s.frames == fs[k..]
    && (m.over <==> l.over || n > |fs|)
  }

  lemma DrainedCons(l: Life, k: Life, m: Life, n: nat)
    requires l.s.frames != [] && k.s.frames == l.s.frames[1..]
    requires k.returned == l.returned + [l.s.frames[0]] && k.over == l.over
    requires Drained(k, m, n)
    ensures Drained(l, m, n + 1)
  {
    var fs := l.s.frames;
    var j := if n <= |fs| - 1 then n else |fs| - 1;
    assert fs[..j + 1] == [fs[0]] + fs[1..][..j];
    assert l.returned + [fs[0]] + fs[1..][..j] == l.returned + fs[..j + 1];
  }

  lemma {:induction false} Drain(l: Life, es: seq<Event>, window: int)
    requires l.s.done && l.s.err.None? && OnlyReads(es) && Lives(l, es, window)
    ensures Drained(l, LiveAll(l, es, window), |es|)
    decreases |es|
  {
    if es != [] {
      OneRead(l, es[0], window);
      var k := Live(l, es[0], window);
      Drain(k, es[1..], window);
      if l.s.frames != [] {
        DrainedCons(l, k, LiveAll(l, es, window), |es| - 1);
      }
    }
  }

  /** After COMPLETE the buffered frames come out one per read, in order, and only then the end,
      no matter whether each select picks the frame or the termination. */
  lemma {:induction false} DrainBeforeEnd(l: Life, es: seq<Event>, window: int)
    requires l.s.done && l.s.err.None? && Lives(l, es, window)
    requires forall i :: 0 <= i < |es| ==> (es[i].Reads? || es[i].Receives?) && es[i].arm != CtxArm
    ensures var fs, m := l.s.frames, LiveAll(l, es, window);
      var k := if |es| <= |fs| then |es| else |fs|;
      && m.returned == l.returned + fs[..k] && m.s.frames == fs[k..]
      && (m.over <==> l.over || |es| > |fs|)
  {
    Drain(l, es, window);
  }
}
