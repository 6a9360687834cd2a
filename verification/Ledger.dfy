// Credit backpressure over one direction of one connection: the sender's gate, the frames
// between the two applications, the receiver's pending grants and the CREDIT frames going back.
// Every step of every run keeps one exact ledger; from it follow the memory bound and the
// precise condition under which batching the grants can starve the sender for good.

module Ledger {
  import opened Basics
  import opened Flows

  /** A frame in transit to the stream registered as number `flow`; `taken` if its sender took a credit for it. */
  datatype Item = Item(flow: nat, taken: bool)

  /** The receiver's view of a stream: what waits in its buffer, what is consumed but not granted back. */
  datatype Rx = Rx(kind: Kind, live: bool, buffered: seq<bool>, pending: nat)

  /** One direction. Streams are numbered in the order the receiver registered them. `dropped` counts credits that no
      grant will ever return; `extra` counts the frames granted for without having been paid for. */
  datatype Dir = Dir(
    gate: nat, held: nat, wire: seq<Item>, flows: seq<Rx>, credits: seq<nat>,
    dropped: nat, extra: nat)

  datatype Step =
    | Take                        // a sender takes a credit from the gate
    | Emit(flow: nat)             // and hands its frame to the connection
    | Waste                       // or fails to, after having taken
    | EmitFree(flow: nat)         // a frame that took no credit: a broadcast, a replay, a migrated emitter
    | Register(kind: Kind)        // the receiver registers a stream
    | Finish(flow: nat)           // a stream ends; its buffer and pending grants stay where they are
    | Dispatch                    // the read loop hands the next frame to its stream, or drops it
    | Consume(flow: nat)          // the application reads a frame, which may flush a grant
    | Grant                       // a CREDIT frame reaches the sender

  predicate Enabled(d: Dir, s: Step) {
    match s
    case Take => d.gate > 0
    case Emit(_) => d.held > 0
    case Waste => d.held > 0
    case EmitFree(_) => true
    case Register(_) => true
    case Finish(i) => i < |d.flows|
    case Dispatch => d.wire != [] && (Lands(d) ==> |d.flows[d.wire[0].flow].buffered| < BUFFER)
    case Consume(i) => i < |d.flows| && d.flows[i].buffered != []
    case Grant => d.credits != []
  }

  /** The next frame on the wire finds its stream registered. */
  predicate Lands(d: Dir)
    requires d.wire != []
  {
    d.wire[0].flow < |d.flows| && d.flows[d.wire[0].flow].live
  }

  function One(b: bool): nat {
    if b then 1 else 0
  }

  function ConsumeFrom(d: Dir, w: int, i: nat): Dir
    requires i < |d.flows| && d.flows[i].buffered != []
  {
    var rx := d.flows[i];
    var taken, rest := rx.buffered[0], rx.buffered[1..];
    // The bookkeeping is the one `release` does, here without the frames themselves.
    var (s, grant) := Release(FlowState(rx.kind, [], false, None, 0, rx.pending), w, 1);
    var flows := d.flows[i := rx.(buffered := rest, pending := s.pending)];
    if BearsCredit(rx.kind, w) then
      d.(flows := flows, credits := if grant > 0 then d.credits + [grant] else d.credits,
        extra := d.extra + One(!taken))
    else
      d.(flows := flows, dropped := d.dropped + One(taken))
  }

  function Next(d: Dir, w: int, s: Step): Dir
    requires Enabled(d, s)
  {
    match s
    case Take => d.(gate := d.gate - 1, held := d.held + 1)
    case Emit(i) => d.(held := d.held - 1, wire := d.wire + [Item(i, true)])
    case Waste => d.(held := d.held - 1, dropped := d.dropped + 1)
    case EmitFree(i) => d.(wire := d.wire + [Item(i, false)])
    case Register(kind) => d.(flows := d.flows + [Rx(kind, true, [], 0)])
    case Finish(i) => d.(flows := d.flows[i := d.flows[i].(live := false)])
    case Dispatch =>
      var it := d.wire[0];
      if Lands(d) then
        var rx := d.flows[it.flow];
        d.(wire := d.wire[1..], flows := d.flows[it.flow := rx.(buffered := rx.buffered + [it.taken])])
      else d.(wire := d.wire[1..], dropped := d.dropped + One(it.taken))
    case Consume(i) => ConsumeFrom(d, w, i)
    case Grant => d.(gate := d.gate + d.credits[0], credits := d.credits[1..])
  }

  function Start(w: nat): Dir {
    Dir(w, 0, [], [], [], 0, 0)
  }

  predicate Runnable(d: Dir, w: int, run: seq<Step>)
    decreases |run|
  {
    run == [] || (Enabled(d, run[0]) && Runnable(Next(d, w, run[0]), w, run[1..]))
  }

  function Run(d: Dir, w: int, run: seq<Step>): Dir
    requires Runnable(d, w, run)
    decreases |run|
  {
    if run == [] then d else Run(Next(d, w, run[0]), w, run[1..])
  }

  // ---- the accounts ------------------------------------------------------------------------

  function Trues(bs: seq<bool>): nat {
    if bs == [] then 0 else One(bs[0]) + Trues(bs[1..])
  }

  function OnWire(wire: seq<Item>): nat {
    if wire == [] then 0 else One(wire[0].taken) + OnWire(wire[1..])
  }

  function Sum(ns: seq<nat>): nat {
    if ns == [] then 0 else ns[0] + Sum(ns[1..])
  }

  function Buffered(flows: seq<Rx>): nat {
    if flows == [] then 0 else Trues(flows[0].buffered) + Buffered(flows[1..])
  }

  function Pending(flows: seq<Rx>): nat {
    if flows == [] then 0 else flows[0].pending + Pending(flows[1..])
  }

  /** Frames that took a credit and have not reached an application. */
  function Undelivered(d: Dir): nat {
    d.held + OnWire(d.wire) + Buffered(d.flows)
  }

  predicate Balanced(d: Dir, w: int) {
    d.gate + Undelivered(d) + Pending(d.flows) + Sum(d.credits) + d.dropped == w + d.extra
  }

  /** A pending grant is always below the batch size, and a stream outside the credit scheme has none. */
  predicate BelowFlush(d: Dir, w: int) {
    forall i :: 0 <= i < |d.flows| ==>
      d.flows[i].pending < FlushAt(w)
      && (d.flows[i].kind == RequestFlow ==> d.flows[i].pending == 0)
  }

  lemma {:induction false} TruesSnoc(bs: seq<bool>, b: bool)
    ensures Trues(bs + [b]) == Trues(bs) + One(b)
    decreases |bs|
  {
    if bs == [] {
      assert bs + [b] == [b];
    } else {
      TruesSnoc(bs[1..], b);
      assert (bs + [b])[1..] == bs[1..] + [b];
    }
  }

  lemma {:induction false} OnWireSnoc(ws: seq<Item>, x: Item)
    ensures OnWire(ws + [x]) == OnWire(ws) + One(x.taken)
    decreases |ws|
  {
    if ws == [] {
      assert ws + [x] == [x];
    } else {
      OnWireSnoc(ws[1..], x);
      assert (ws + [x])[1..] == ws[1..] + [x];
    }
  }

  lemma {:induction false} SumSnoc(ns: seq<nat>, n: nat)
    ensures Sum(ns + [n]) == Sum(ns) + n
    decreases |ns|
  {
    if ns == [] {
      assert ns + [n] == [n];
    } else {
      SumSnoc(ns[1..], n);
      assert (ns + [n])[1..] == ns[1..] + [n];
    }
  }

  /** Replacing one stream changes each account by that stream's difference. */
  lemma {:induction false} ReplaceFlow(flows: seq<Rx>, i: nat, rx: Rx)
    requires i < |flows|
    ensures Buffered(flows[i := rx]) == Buffered(flows) - Trues(flows[i].buffered) + Trues(rx.buffered)
    ensures Pending(flows[i := rx]) == Pending(flows) - flows[i].pending + rx.pending
    decreases |flows|
  {
    if i > 0 {
      ReplaceFlow(flows[1..], i - 1, rx);
      assert flows[i := rx][1..] == flows[1..][i - 1 := rx];
    }
  }

  lemma {:induction false} AppendFlow(flows: seq<Rx>, rx: Rx)
    requires rx.buffered == [] && rx.pending == 0
    ensures Buffered(flows + [rx]) == Buffered(flows) && Pending(flows + [rx]) == Pending(flows)
    decreases |flows|
  {
    if flows == [] {
      assert flows + [rx] == [rx];
    } else {
      AppendFlow(flows[1..], rx);
      assert (flows + [rx])[1..] == flows[1..] + [rx];
    }
  }

  // ---- the ledger over every run ---------------------------------------------------------

  lemma {:induction false} BalancedTransport(d: Dir, w: int, s: Step)
    requires w > 0 && Balanced(d, w) && Enabled(d, s)
    requires s.Take? || s.Emit? || s.Waste? || s.EmitFree? || s.Register? || s.Finish? || s.Grant?
    ensures Balanced(Next(d, w, s), w)
  {
    match s
    case Emit(i) => OnWireSnoc(d.wire, Item(i, true));
    case EmitFree(i) => OnWireSnoc(d.wire, Item(i, false));
    case Register(kind) => AppendFlow(d.flows, Rx(kind, true, [], 0));
    case Finish(i) => ReplaceFlow(d.flows, i, d.flows[i].(live := false));
    case _ =>
  }

  lemma {:induction false} BalancedDispatch(d: Dir, w: int)
    requires w > 0 && Balanced(d, w) && Enabled(d, Dispatch)
    ensures Balanced(Next(d, w, Dispatch), w)
  {
    if Lands(d) {
      var it := d.wire[0];
      var rx := d.flows[it.flow];
      TruesSnoc(rx.buffered, it.taken);
      ReplaceFlow(d.flows, it.flow, rx.(buffered := rx.buffered + [it.taken]));
    }
  }

  lemma {:induction false} BalancedConsume(d: Dir, w: int, i: nat)
    requires w > 0 && Balanced(d, w) && Enabled(d, Consume(i))
    ensures Balanced(Next(d, w, Consume(i)), w)
  {
    var n := Next(d, w, Consume(i));
    var rx := d.flows[i];
    ReplaceFlow(d.flows, i, n.flows[i]);
    assert n.flows == d.flows[i := n.flows[i]];
    if n.credits != d.credits {
      SumSnoc(d.credits, n.credits[|n.credits| - 1]);
    }
  }

  lemma {:induction false} BalancedStep(d: Dir, w: int, s: Step)
    requires w > 0 && Balanced(d, w) && BelowFlush(d, w) && Enabled(d, s)
    ensures Balanced(Next(d, w, s), w) && BelowFlush(Next(d, w, s), w)
  {
    match s
    case Dispatch => BalancedDispatch(d, w);
    case Consume(i) => BalancedConsume(d, w, i);
    case _ => BalancedTransport(d, w, s);
  }

  /** The exact ledger: gate + held, queued and buffered paid frames + pending grants + CREDIT in flight + lost credits
      = window + grants for unpaid frames, in every state of every run. */
  lemma {:induction false} LedgerHolds(d: Dir, w: int, run: seq<Step>)
    requires w > 0 && Balanced(d, w) && BelowFlush(d, w) && Runnable(d, w, run)
    ensures Balanced(Run(d, w, run), w) && BelowFlush(Run(d, w, run), w)
    decreases |run|
  {
    if run != [] {
      BalancedStep(d, w, run[0]);
      LedgerHolds(Next(d, w, run[0]), w, run[1..]);
    }
  }

  // ---- the bounds --------------------------------------------------------------------------

  predicate AllPaid(run: seq<Step>) {
    forall i :: 0 <= i < |run| ==> !run[i].EmitFree?
  }

  /** Without unpaid frames, no unpaid frame is ever on the way. */
  predicate PaidOnly(d: Dir) {
    && d.extra == 0
    && (forall i :: 0 <= i < |d.wire| ==> d.wire[i].taken)
    && (forall i, j :: 0 <= i < |d.flows| && 0 <= j < |d.flows[i].buffered| ==> d.flows[i].buffered[j])
  }

  lemma {:induction false} PaidStaysPaid(d: Dir, w: int, run: seq<Step>)
    requires PaidOnly(d) && AllPaid(run) && Runnable(d, w, run)
    ensures PaidOnly(Run(d, w, run))
    decreases |run|
  {
    if run != [] {
      assert AllPaid(run[1..]);
      PaidStaysPaid(Next(d, w, run[0]), w, run[1..]);
    }
  }

  /** The memory promise: on a connection that carries only paid frames, at most W of them are undelivered at any time.
      Each frame that was granted for without having been paid for widens the bound by one. */
  lemma {:induction false} WindowBound(w: nat, run: seq<Step>)
    requires w > 0 && Runnable(Start(w), w, run)
    ensures Undelivered(Run(Start(w), w, run)) <= w + Run(Start(w), w, run).extra
    ensures AllPaid(run) ==> Undelivered(Run(Start(w), w, run)) <= w
  {
    LedgerHolds(Start(w), w, run);
    if AllPaid(run) {
      PaidStaysPaid(Start(w), w, run);
    }
  }

  // ---- the bound is attained ----------------------------------------------------------------

  ghost predicate Reachable(w: nat, d: Dir) {
    exists run :: Runnable(Start(w), w, run) && Run(Start(w), w, run) == d
  }

  lemma {:induction false} RunSnoc(d: Dir, w: int, run: seq<Step>, s: Step)
    requires Runnable(d, w, run) && Enabled(Run(d, w, run), s)
    ensures Runnable(d, w, run + [s]) && Run(d, w, run + [s]) == Next(Run(d, w, run), w, s)
    decreases |run|
  {
    if run == [] {
      assert [s][1..] == [] && Runnable(Next(d, w, s), w, []);
    } else {
      RunSnoc(Next(d, w, run[0]), w, run[1..], s);
      assert (run + [s])[1..] == run[1..] + [s];
    }
  }

  lemma {:induction false} ReachNext(w: nat, d: Dir, s: Step)
    requires Reachable(w, d) && Enabled(d, s)
    ensures Reachable(w, Next(d, w, s))
  {
    var run :| Runnable(Start(w), w, run) && Run(Start(w), w, run) == d;
    RunSnoc(Start(w), w, run, s);
  }

  /** One stream, all consumed, p of its frames not yet granted back; e unpaid frames have come through. */
  function OneStream(w: nat, p: nat, e: nat): Dir
    requires p <= w + e
  {
    Moving(w + e - p, [], [], p, [], e)
  }

  /** Where the pending count goes with one more consumed frame. */
  function After(w: nat, p: nat): nat {
    if p + 1 >= FlushAt(w) then 0 else p + 1
  }

  /** One stream with what is on its way to it, in its buffer and on the way back. */
  function Moving(gate: nat, wire: seq<Item>, buffered: seq<bool>, p: nat, credits: seq<nat>, e: nat): Dir {
    Dir(gate, 0, wire, [Rx(StreamFlow, true, buffered, p)], credits, 0, e)
  }

  lemma {:induction false} DeliverOne(w: nat, gate: nat, p: nat, e: nat, paid: bool)
    requires Reachable(w, Moving(gate, [Item(0, paid)], [], p, [], e))
    ensures Reachable(w, Moving(gate, [], [paid], p, [], e))
  {
    var d := Moving(gate, [Item(0, paid)], [], p, [], e);
    ReachNext(w, d, Dispatch);
    var none: seq<bool> := [];
    assert none + [paid] == [paid] && d.wire[1..] == [];
    assert Next(d, w, Dispatch).flows == [Rx(StreamFlow, true, [paid], p)];
  }

  lemma {:induction false} ConsumeOne(w: nat, gate: nat, p: nat, e: nat, paid: bool)
    requires w > 0 && p < FlushAt(w) && Reachable(w, Moving(gate, [], [paid], p, [], e))
    ensures var x := e + One(!paid);
      Reachable(w, Moving(gate, [], [], After(w, p), if p + 1 >= FlushAt(w) then [p + 1] else [], x))
  {
    var d := Moving(gate, [], [paid], p, [], e);
    ReachNext(w, d, Consume(0));
    assert d.flows[0].buffered[1..] == [];
    assert Next(d, w, Consume(0)).flows == [Rx(StreamFlow, true, [], After(w, p))];
  }

  /** A frame on the wire is delivered and consumed, and the grant it may complete arrives. */
  lemma {:induction false} Settle(w: nat, p: nat, gate: nat, e: nat, paid: bool)
    requires w > 0 && p < FlushAt(w) && Reachable(w, Moving(gate, [Item(0, paid)], [], p, [], e))
    ensures Reachable(w, Moving(gate + p + 1 - After(w, p), [], [], After(w, p), [], e + One(!paid)))
  {
    DeliverOne(w, gate, p, e, paid);
    ConsumeOne(w, gate, p, e, paid);
    if p + 1 >= FlushAt(w) {
      ReachNext(w, Moving(gate, [], [], 0, [p + 1], e + One(!paid)), Grant);
      assert [p + 1][1..] == [];
    }
  }

  lemma {:induction false} FreeFrame(w: nat, p: nat, e: nat)
    requires w > 0 && p < FlushAt(w) && Reachable(w, OneStream(w, p, e))
    ensures Reachable(w, OneStream(w, After(w, p), e + 1))
  {
    var d := OneStream(w, p, e);
    ReachNext(w, d, EmitFree(0));
    assert Next(d, w, EmitFree(0)) == d.(wire := [Item(0, false)]);
    Settle(w, p, d.gate, e, false);
  }

  lemma {:induction false} PaidFrame(w: nat, p: nat, e: nat)
    requires w > 0 && p < FlushAt(w) && Reachable(w, OneStream(w, p, e))
    ensures Reachable(w, OneStream(w, After(w, p), e))
  {
    var d := OneStream(w, p, e);
    ReachNext(w, d, Take);
    var d1 := Next(d, w, Take);
    ReachNext(w, d1, Emit(0));
    assert Next(d1, w, Emit(0)) == d.(gate := d.gate - 1, wire := [Item(0, true)]);
    Settle(w, p, d.gate - 1, e, true);
  }

  /** e unpaid frames have come through, whatever that leaves pending. */
  lemma {:induction false} FreeFrames(w: nat, e: nat) returns (p: nat)
    requires w > 0
    ensures p < FlushAt(w) && Reachable(w, OneStream(w, p, e))
    decreases e
  {
    if e == 0 {
      assert Runnable(Start(w), w, []) && Run(Start(w), w, []) == Start(w);
      ReachNext(w, Start(w), Register(StreamFlow));
      assert Next(Start(w), w, Register(StreamFlow)) == OneStream(w, 0, 0);
      p := 0;
    } else {
      var q := FreeFrames(w, e - 1);
      FreeFrame(w, q, e - 1);
      p := After(w, q);
    }
  }

  /** Paid frames complete the pending batch. */
  lemma {:induction false} CompleteBatch(w: nat, p: nat, e: nat)
    requires w > 0 && p < FlushAt(w) && Reachable(w, OneStream(w, p, e))
    ensures Reachable(w, OneStream(w, 0, e))
    decreases if p == 0 then 0 else FlushAt(w) - p
  {
    if p > 0 {
      PaidFrame(w, p, e);
      CompleteBatch(w, After(w, p), e);
    }
  }

  lemma {:induction false} TakeMany(w: nat, d: Dir, n: nat)
    requires Reachable(w, d) && n <= d.gate
    ensures Reachable(w, d.(gate := d.gate - n, held := d.held + n))
    decreases n
  {
    if n > 0 {
      TakeMany(w, d, n - 1);
      ReachNext(w, d.(gate := d.gate - (n - 1), held := d.held + (n - 1)), Take);
    }
  }

  /** The widened bound is exact: for every window and any number of unpaid frames, some run has W plus that number of
      paid frames undelivered at once. So a single broadcast or replayed frame already breaks the bound W. */
  lemma {:induction false} BoundAttained(w: nat, e: nat) returns (d: Dir)
    requires w > 0
    ensures Reachable(w, d) && d.extra == e && Undelivered(d) == w + e
  {
    var p := FreeFrames(w, e);
    CompleteBatch(w, p, e);
    TakeMany(w, OneStream(w, 0, e), w + e);
    d := OneStream(w, 0, e).(gate := 0, held := w + e);
    NothingBuffered(d.flows);
  }

  /** Everything sent has been consumed, every grant has arrived and no credit was lost. */
  predicate Settled(d: Dir) {
    d.held == 0 && d.wire == [] && d.credits == [] && d.dropped == 0 && forall i :: 0 <= i < |d.flows| ==>
      d.flows[i].buffered == []
  }

  /** The number of streams that take part in the credit scheme. */
  function Bearing(flows: seq<Rx>): nat {
    if flows == [] then 0 else One(flows[0].kind != RequestFlow) + Bearing(flows[1..])
  }

  lemma {:induction false} NothingBuffered(flows: seq<Rx>)
    requires forall i :: 0 <= i < |flows| ==> flows[i].buffered == []
    ensures Buffered(flows) == 0
    decreases |flows|
  {
    if flows != [] {
      NothingBuffered(flows[1..]);
    }
  }

  lemma {:induction false} PendingBound(flows: seq<Rx>, m: nat)
    requires forall i :: 0 <= i < |flows| ==>
      flows[i].pending <= m
      && (flows[i].kind == RequestFlow ==> flows[i].pending == 0)
    ensures Pending(flows) <= Bearing(flows) * m
    decreases |flows|
  {
    if flows != [] {
      PendingBound(flows[1..], m);
      assert Bearing(flows) * m == One(flows[0].kind != RequestFlow) * m + Bearing(flows[1..]) * m;
    }
  }

  /** When everything is settled the gate lacks only the unflushed remainders, fewer than a batch per stream. */
  lemma {:induction false} SettledGate(w: nat, run: seq<Step>)
    requires w > 0 && Runnable(Start(w), w, run) && Settled(Run(Start(w), w, run))
    ensures var d := Run(Start(w), w, run);
      && d.gate + Pending(d.flows) == w + d.extra
      && d.gate >= w - Bearing(d.flows) * (FlushAt(w) - 1)
  {
    var d := Run(Start(w), w, run);
    LedgerHolds(Start(w), w, run);
    NothingBuffered(d.flows);
    PendingBound(d.flows, FlushAt(w) - 1);
  }

  /** Two streams can always go on. */
  lemma {:induction false} TwoStreamsNeverStarve(w: nat, run: seq<Step>)
    requires w > 0 && Runnable(Start(w), w, run) && Settled(Run(Start(w), w, run))
    requires Bearing(Run(Start(w), w, run).flows) <= 2
    ensures Run(Start(w), w, run).gate >= 1
  {
    SettledGate(w, run);
    Scale(Bearing(Run(Start(w), w, run).flows), 2, FlushAt(w) - 1);
    TwiceFlush(w);
  }

  lemma TwiceFlush(w: nat)
    requires w > 0
    ensures 2 * (FlushAt(w) - 1) < w
  {
  }

  /** A window of at most three comes back in full, however many streams share it. */
  lemma {:induction false} SmallWindowReturnsInFull(w: nat, run: seq<Step>)
    requires 0 < w <= 3 && AllPaid(run) && Runnable(Start(w), w, run) && Settled(Run(Start(w), w, run))
    ensures Run(Start(w), w, run).gate == w
  {
    var d := Run(Start(w), w, run);
    LedgerHolds(Start(w), w, run);
    PaidStaysPaid(Start(w), w, run);
    NothingBuffered(d.flows);
    PendingBound(d.flows, 0);
  }

  // ---- starvation, exactly ------------------------------------------------------------------

  /** The sender has nothing left to take, though everything it sent has been consumed. */
  predicate Starved(d: Dir) {
    Settled(d) && d.gate == 0
  }

  /** A starved sender stays starved: no step of either side, short of sending an unpaid frame, ever gives it a credit
      again. */
  lemma {:induction false} StarvedForever(d: Dir, w: int, run: seq<Step>)
    requires Starved(d) && AllPaid(run) && Runnable(d, w, run)
    ensures Starved(Run(d, w, run))
    decreases |run|
  {
    if run != [] {
      assert AllPaid(run[1..]);
      StarvedForever(Next(d, w, run[0]), w, run[1..]);
    }
  }

  /** Some run in which at most k credit-bearing streams are ever used starves the sender. */
  ghost predicate CanStarve(w: nat, k: nat) {
    exists run {:trigger Runnable(Start(w), w, run)} ::
      Runnable(Start(w), w, run) && AllPaid(run) && Starved(Run(Start(w), w, run))
        && Bearing(Run(Start(w), w, run).flows) <= k
  }

  lemma RunCons(d: Dir, w: int, s: Step, run: seq<Step>)
    requires Enabled(d, s) && Runnable(Next(d, w, s), w, run)
    ensures Runnable(d, w, [s] + run) && Run(d, w, [s] + run) == Run(Next(d, w, s), w, run)
    ensures AllPaid(run) && !s.EmitFree? ==> AllPaid([s] + run)
  {
    assert ([s] + run)[1..] == run;
  }

  /** k live streams, all consumed, none at its batch size; the rest of the window is in the gate. */
  predicate Filling(d: Dir, w: int, k: nat) {
    && Settled(d) && |d.flows| == k && d.gate + Pending(d.flows) == w
    && forall i :: 0 <= i < k ==> d.flows[i].kind == StreamFlow && d.flows[i].live && d.flows[i].pending < FlushAt(w)
  }

  lemma {:induction false} SomeStreamHasRoom(flows: seq<Rx>, m: nat) returns (i: nat)
    requires Pending(flows) < |flows| * m
    ensures i < |flows| && flows[i].pending < m
    decreases |flows|
  {
    if flows[0].pending < m {
      i := 0;
    } else {
      assert |flows| * m == m + |flows[1..]| * m;
      i := SomeStreamHasRoom(flows[1..], m);
      i := i + 1;
    }
  }

  /** One frame sent, delivered and consumed on a stream that does not reach its batch size by it. */
  lemma {:induction false} RoundTrip(d: Dir, w: int, k: nat, i: nat) returns (e: Dir)
    requires w > 0 && Filling(d, w, k) && d.gate > 0 && i < k && d.flows[i].pending < FlushAt(w) - 1
    ensures Filling(e, w, k) && e.gate == d.gate - 1
    ensures forall rest :: Runnable(e, w, rest) && AllPaid(rest) ==>
      var run := [Take] + ([Emit(i)] + ([Dispatch] + ([Consume(i)] + rest)));
      Runnable(d, w, run) && AllPaid(run) && Run(d, w, run) == Run(e, w, rest)
  {
    var d1 := Next(d, w, Take);
    var d2 := Next(d1, w, Emit(i));
    var d3 := Next(d2, w, Dispatch);
    e := Next(d3, w, Consume(i));
    assert d2.wire == [Item(i, true)] && d2.flows == d.flows;
    var rx := d.flows[i];
    assert rx.buffered == [] && rx.buffered + [true] == [true] && [true][1..] == rx.buffered;
    assert d3.wire == [] && d3.flows == d.flows[i := rx.(buffered := [true])];
    assert e.flows == d.flows[i := d.flows[i].(pending := d.flows[i].pending + 1)];
    ReplaceFlow(d.flows, i, d.flows[i].(pending := d.flows[i].pending + 1));
    forall rest | Runnable(e, w, rest) && AllPaid(rest)
      ensures var run := [Take] + ([Emit(i)] + ([Dispatch] + ([Consume(i)] + rest)));
        Runnable(d, w, run) && AllPaid(run) && Run(d, w, run) == Run(e, w, rest)
    {
      RunCons(d3, w, Consume(i), rest);
      RunCons(d2, w, Dispatch, [Consume(i)] + rest);
      RunCons(d1, w, Emit(i), [Dispatch] + ([Consume(i)] + rest));
      RunCons(d, w, Take, [Emit(i)] + ([Dispatch] + ([Consume(i)] + rest)));
    }
  }

  lemma {:induction false} EmptyTheGate(d: Dir, w: int, k: nat) returns (run: seq<Step>)
    requires w > 0 && Filling(d, w, k) && k * (FlushAt(w) - 1) >= w
    ensures Runnable(d, w, run) && AllPaid(run) && Filling(Run(d, w, run), w, k) && Run(d, w, run).gate == 0
    decreases d.gate
  {
    if d.gate == 0 {
      run := [];
    } else {
      var i := SomeStreamHasRoom(d.flows, FlushAt(w) - 1);
      var e := RoundTrip(d, w, k, i);
      var rest := EmptyTheGate(e, w, k);
      run := [Take] + ([Emit(i)] + ([Dispatch] + ([Consume(i)] + rest)));
    }
  }

  lemma {:induction false} OpenStreams(d: Dir, w: int, k: nat, more: nat) returns (run: seq<Step>)
    requires w > 0 && Filling(d, w, k) && (k + more) * (FlushAt(w) - 1) >= w
    ensures Runnable(d, w, run) && AllPaid(run) && Filling(Run(d, w, run), w, k + more) && Run(d, w, run).gate == 0
    decreases more
  {
    if more == 0 {
      run := EmptyTheGate(d, w, k);
    } else {
      AppendFlow(d.flows, Rx(StreamFlow, true, [], 0));
      var rest := OpenStreams(Next(d, w, Register(StreamFlow)), w, k + 1, more - 1);
      RunCons(d, w, Register(StreamFlow), rest);
      run := [Register(StreamFlow)] + rest;
    }
  }

  lemma {:induction false} BearingAtMost(flows: seq<Rx>)
    ensures Bearing(flows) <= |flows|
    decreases |flows|
  {
    if flows != [] {
      BearingAtMost(flows[1..]);
    }
  }

  /** Batched grants can starve a sender for good exactly when the streams it may use can hold the whole window in
      unflushed remainders: k * (max(1, W/2) - 1) >= W. */
  lemma {:induction false} StarvationIff(w: nat, k: nat)
    requires w > 0
    ensures CanStarve(w, k) <==> k * (FlushAt(w) - 1) >= w
    ensures k * (FlushAt(w) - 1) >= w <==> k * (w / 2 - 1) >= w
  {
    HalfIsEnough(w, k);
    if k * (FlushAt(w) - 1) >= w {
      var run := OpenStreams(Start(w), w, 0, k);
      BearingAtMost(Run(Start(w), w, run).flows);
    }
    if CanStarve(w, k) {
      var run :| Runnable(Start(w), w, run) && AllPaid(run) && Starved(Run(Start(w), w, run))
        && Bearing(Run(Start(w), w, run).flows) <= k;
      SettledGate(w, run);
      var b := Bearing(Run(Start(w), w, run).flows);
      Scale(b, k, FlushAt(w) - 1);
    }
  }

  /** The batch size is half the window, or one where half of it is less. */
  lemma HalfIsEnough(w: nat, k: nat)
    requires w > 0
    ensures k * (FlushAt(w) - 1) >= w <==> k * (w / 2 - 1) >= w
  {
    if w < 2 {
      assert k * (w / 2 - 1) == k * -1;
    }
  }

  lemma Scale(b: nat, k: nat, m: nat)
    requires b <= k
    ensures b * m <= k * m
  {
  }
}
