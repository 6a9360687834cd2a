// The objects of one side of a connection: its transport, its streams, and the endpoint that
// registers streams, dispatches inbound frames to them, and answers requests.

module Endpoints {
  import opened Basics
  import opened Wire
  import opened Retention
  import opened Flows
  import Credit
  import Ids

  // ---- transport ------------------------------------------------------------------------------

  /** Parked: the queue is full and the sender waits for room, death or its context. */
  datatype SendResult = Queued | ConnClosed | CtxErr | Parked

  /** sendCtx: an ended context is noticed first, then a dead connection, then the queue. */
  function SendSpec(dead: bool, queue: seq<Msg>, ctxDone: bool, m: Msg): (r: (seq<Msg>, SendResult))
    ensures r.1 == Queued <==> !ctxDone && !dead && |queue| < SEND_QUEUE
    ensures r.0 == if r.1 == Queued then queue + [m] else queue
  {
    if ctxDone then (queue, CtxErr)
    else if dead then (queue, ConnClosed)
    else if |queue| < SEND_QUEUE then (queue + [m], Queued)
    else (queue, Parked)
  }

  class Transport {
    var dead: bool
    var connected: bool
    var queue: seq<Msg>
    const credit: Credit.CreditGate?

    constructor (window: int)
      ensures !dead && connected && queue == [] && (credit == null <==> window <= 0)
      ensures credit != null ==> fresh(credit) && credit.State() == Credit.GateState(window, false, false)
    {
      dead, connected, queue := false, true, [];
      if window > 0 {
        var g := new Credit.CreditGate(window);
        credit := g;
      } else {
        credit := null;
      }
    }

    method SendCtx(ctxDone: bool, m: Msg) returns (r: SendResult)
      modifies this`queue
      ensures (queue, r) == SendSpec(dead, old(queue), ctxDone, m)
      ensures r == CtxErr <==> ctxDone
      ensures r == ConnClosed <==> !ctxDone && dead
      ensures r == Queued <==> !ctxDone && !dead && |old(queue)| < 256
      ensures queue == if r == Queued then old(queue) + [m] else old(queue)
    {
      if ctxDone { return CtxErr; }
      if dead { return ConnClosed; }
      if |queue| < SEND_QUEUE {
        queue := queue + [m];
        return Queued;
      }
      r := Parked;
    }

    /** kill runs once: the credit gate and the socket close with the connection, and the death is to be reported. */
    method Kill() returns (report: bool)
      modifies this`dead, this`connected, credit
      ensures dead && report == !old(dead) && connected == (old(connected) && old(dead))
      ensures credit != null ==> credit.State() == if old(dead) then old(credit.State())
        else Credit.Arrive(old(credit.State()), Credit.Shut)
      ensures credit != null ==> credit.n == old(credit.n)
      ensures credit != null && !old(dead) ==> credit.closed && credit.token
    {
      if dead { return false; }
      dead := true;
      if credit != null {
        credit.Close();
      }
      connected := false;
      report := true;
    }
  }

  // ---- streams -----------------------------------------------------------------------------------

  class Flow {
    const id: u32
    const kind: Kind
    var ep: Endpoint
    var frames: seq<Frame>
    var done: bool
    var err: Option<ErrorCode>
    var inflight: nat
    var pending: nat
    var acked: bool

    function State(): FlowState
      reads this`frames, this`done, this`err, this`inflight, this`pending
    {
      FlowState(kind, frames, done, err, inflight, pending)
    }

    constructor (id: u32, kind: Kind, ep: Endpoint)
      ensures this.id == id && this.kind == kind && this.ep == ep && State() == Fresh(kind) && !acked
    {
      this.id, this.kind, this.ep := id, kind, ep;
      frames, done, err, inflight, pending, acked := [], false, None, 0, 0, false;
    }

    /** The first terminal state is recorded and the current endpoint forgets the stream; later ones do nothing. */
    method Finish(e: Option<ErrorCode>)
      modifies this`done, this`err, ep`streams
      ensures State() == Flows.Finish(old(State()), e)
      ensures done && err == if old(done) then old(err) else e
      ensures ep.streams == if old(done) then old(ep.streams) else Without(old(ep.streams), this)
      ensures !old(done) && id in old(ep.streams) && old(ep.streams)[id] == this ==>
        ep.streams == old(ep.streams) - {id}
    {
      if done { return; }
      done := true;
      err := e;
      ep.UnregisterFlow(this);
    }

    method SetEndpoint(e: Endpoint)
      modifies this`ep
      ensures ep == e
    {
      ep := e;
    }

    /** SUBACK: whoever waits for the subscription goes on. */
    method Ack()
      modifies this`acked
      ensures acked
    {
      acked := true;
    }

    /** deliver. `late` tells which case the select picks when the stream has ended and the buffer has room. */
    method Deliver(f: Frame, late: bool) returns (r: Delivery)
      modifies this`frames
      ensures (State(), r) == DeliverSpec(old(State()), f, late)
      ensures r == Landed <==> |old(frames)| < 32 && (done ==> late)
      ensures r == Waits <==> |old(frames)| >= 32 && !done
      ensures frames == if r == Landed then old(frames) + [f] else old(frames)
    {
      if done && !late { return Dropped; }
      if |frames| < BUFFER {
        frames := frames + [f];
        return Landed;
      }
      r := if done then Dropped else Waits;
    }

    method CreditIn()
      modifies this`inflight
      ensures State() == Flows.CreditIn(old(State()), ep.window)
      ensures inflight == old(inflight) + if ep.window > 0 && kind != RequestFlow then 1 else 0
    {
      if ep.window <= 0 || kind == RequestFlow { return; }
      inflight := inflight + 1;
    }

    /** Returns the size of the CREDIT grant to send, 0 for none. */
    method Release(n: nat) returns (grant: nat)
      modifies this`inflight, this`pending
      ensures (State(), grant) == Flows.Release(old(State()), ep.window, n)
      ensures ep.window <= 0 || kind == RequestFlow ==>
        grant == 0 && pending == old(pending) && inflight == old(inflight)
      ensures ep.window > 0 && kind != RequestFlow ==>
        && pending + grant == old(pending) + n && (pending == 0 || grant == 0)
        && (grant > 0 <==> old(pending) + n >= 1 && old(pending) + n >= ep.window / 2)
        && inflight == if old(inflight) > n then old(inflight) - n else 0
    {
      grant := 0;
      if ep.window <= 0 || kind == RequestFlow { return; }
      if inflight > n {
        inflight := inflight - n;
      } else {
        inflight := 0;
      }
      pending := pending + n;
      if pending >= FlushAt(ep.window) {
        grant := pending;
        pending := 0;
      }
    }

    /** ReadStream.Next, with the case its select picked; the CREDIT grant it sends, 0 for none; and whether it sends
        CANCEL. */
    method Next(ctxDone: bool, arm: Arm) returns (r: Flows.ReadResult, grant: nat, cancel: bool)
      requires Ready(State(), ctxDone, arm)
      modifies this`frames, this`inflight, this`pending, this`done, this`err, ep`streams
      ensures (State(), r) == Flows.Next(old(State()), ep.window, ctxDone, arm)
      ensures grant == GrantOfRead(old(State()), ep.window, arm)
      ensures arm == CtxArm ==>
        && r == CtxEnded && frames == old(frames) && pending == old(pending) && grant == 0
        && done && err == if old(done) then old(err) else Some(Cancelled)
      ensures arm != CtxArm ==> done == old(done) && err == old(err)
      ensures arm == FrameArm ==>
        frames == old(frames)[1..] && r == if done && err.Some? then End else Message(old(frames)[0])
      ensures arm == DoneArm && (err.Some? || old(frames) == []) ==> r == End && frames == old(frames)
      ensures arm == DoneArm && err.None? && old(frames) != [] ==>
        r == Message(old(frames)[0]) && frames == old(frames)[1..]
      ensures pending + grant ==
        old(pending) + if |frames| < |old(frames)| && ep.window > 0 && kind != RequestFlow then 1 else 0
      ensures grant > 0 <==>
        |frames| < |old(frames)| && ep.window > 0 && kind != RequestFlow && old(pending) + 1 >= ep.window / 2
      ensures cancel <==> arm == CtxArm && !old(done)
      ensures ep.streams == if old(done) || arm != CtxArm then old(ep.streams) else Without(old(ep.streams), this)
    {
      grant, cancel := 0, false;
      match arm
      case FrameArm =>
        var f := frames[0];
        frames := frames[1..];
        grant := Release(1);
        r := if done && err.Some? then End else Message(f);
      case CtxArm =>
        if !done {
          cancel := true;
          Finish(Some(Cancelled));
        }
        r := CtxEnded;
      case DoneArm =>
        if err.Some? || frames == [] {
          r := End;
        } else {
          r := Message(frames[0]);
          frames := frames[1..];
          grant := Release(1);
        }
    }
  }

  /** A stream table after a stream has been taken out of it, if it was the one registered. */
  function Without(streams: map<u32, Flow>, flw: Flow): map<u32, Flow> {
    if flw.id in streams && streams[flw.id] == flw then streams - {flw.id} else streams
  }

  // ---- endpoint ----------------------------------------------------------------------------------

  /** What handleFrame asks its caller to do: nothing, add credit to the gate, or kill the connection. */
  datatype Verdict = Fine | AddCredit(n: int) | Fatal

  class Endpoint {
    const client: bool
    const window: int
    const tr: Transport
    var nextID: u32
    var streams: map<u32, Flow>

    constructor (client: bool, window: int, tr: Transport)
      ensures this.client == client && this.window == window && this.tr == tr && nextID == 0 && streams == map[]
    {
      this.client, this.window, this.tr := client, window, tr;
      nextID, streams := 0, map[];
    }

    /** Streams are registered under their own number, have not ended, and send through this endpoint. */
    ghost predicate Valid()
      reads this, streams.Values
    {
      && Ids.Sane(client, nextID)
      && forall id :: id in streams ==> streams[id].id == id && streams[id].ep == this && !streams[id].done
    }

    /** The part of Valid that concerns the streams of one parity; migration leaves the other parity of a replaced
        endpoint alone. */
    ghost predicate Owns(parity: int)
      reads this, streams.Values
    {
      forall id :: id in streams ==>
        streams[id].id == id
        && (id % 2 == parity ==> streams[id].ep == this && !streams[id].done)
    }

    method AllocID() returns (id: u32)
      requires Ids.Sane(client, nextID)
      modifies this`nextID
      ensures (id, nextID) == Ids.Alloc(client, old(nextID))
      ensures Ids.Sane(client, nextID) && id != 0 && id % 2 == (if client then 1 else 0)
    {
      Ids.AllocKeepsParity(client, nextID);
      if nextID == 0 {
        if client { nextID := 1; } else { nextID := 2; }
      }
      id := nextID;
      nextID := (nextID + 2) % Ids.MODULUS;
    }

    method RegisterFlow(flw: Flow)
      modifies this`streams
      ensures streams == old(streams)[flw.id := flw]
    {
      streams := streams[flw.id := flw];
    }

    method UnregisterFlow(flw: Flow)
      modifies this`streams
      ensures streams == Without(old(streams), flw)
      ensures streams == if flw.id in old(streams) && old(streams)[flw.id] == flw then old(streams) - {flw.id}
                         else old(streams)
    {
      if flw.id in streams && streams[flw.id] == flw {
        streams := streams - {flw.id};
      }
    }

    /** The synchronous half of a request: look the route up, check the mode, register the stream; or answer with one
        ERROR. */
    method PrepareRequest(f: Frame, channelKnown: bool, route: Option<RouteKind>) returns (flw: Flow?, out: seq<Reply>)
      modifies this`streams
      ensures flw != null <==> Admits(f.flags, channelKnown, route)
      ensures flw != null <==>
        if f.flags.channel then channelKnown
        else route == Some(if f.flags.stream then ManyResponses else OneResponse)
      ensures flw != null && f.flags.channel ==> flw.kind == ChannelFlow
      ensures flw != null && !f.flags.channel ==> flw.kind == if f.flags.stream then StreamFlow else RequestFlow
      ensures flw != null ==> flw.frames == [] && !flw.done && flw.err.None? && flw.pending == 0
      ensures flw == null ==> out == [Failed(if f.flags.channel || route.None? then NotFound else Protocol)]
      ensures flw != null ==>
        fresh(flw) && flw.id == f.sid && flw.ep == this && streams == old(streams)[f.sid := flw]
        && out == []
      ensures flw != null ==> flw.State() == Fresh(RequestKind(f.flags, route))
      ensures flw == null ==> streams == old(streams) && out == [Refusal(f.flags, route)]
    {
      flw, out := null, [];
      if f.flags.channel {
        if !channelKnown { out := [Failed(NotFound)]; return; }
        flw := new Flow(f.sid, ChannelFlow, this);
        RegisterFlow(flw);
        return;
      }
      if route.None? { out := [Failed(NotFound)]; return; }
      var kind := if route.value == ManyResponses then StreamFlow else RequestFlow;
      if route.value == OneResponse && f.flags.stream { out := [Failed(Protocol)]; return; }
      if route.value == ManyResponses && !f.flags.stream { out := [Failed(Protocol)]; return; }
      flw := new Flow(f.sid, kind, this);
      RegisterFlow(flw);
    }

    /** handleFrame. `credit` is the decoded CREDIT payload, if it decodes; `peer` the code an ERROR frame carries;
        `channelKnown` and `route` what the route table has for a REQUEST. A REQUEST is prepared on this synchronous
        path, so its stream is registered before the next frame is handled; `started` is the stream whose handler is to
        run. */
    method HandleFrame(f: Frame, credit: Option<int>, peer: ErrorCode, channelKnown: bool, route: Option<RouteKind>)
      returns (v: Verdict, started: Flow?, out: seq<Reply>)
      requires Valid()
      requires f.sid in streams && f.ty in {RESPONSE, PUBLISH} ==> CanDeliver(streams[f.sid].State())
      modifies this`streams
      modifies Named(f)`frames, Named(f)`inflight, Named(f)`done, Named(f)`err, Named(f)`acked
      ensures Valid()
      ensures v == if f.ty == CREDIT then (if credit.Some? then AddCredit(credit.value) else Fatal)
                   else if f.ty == ERROR && f.sid == 0 then Fatal
                   else if f.ty in {REQUEST, RESPONSE, COMPLETE, CANCEL, ONEWAY, ERROR, SUBSCRIBE, SUBACK, UNSUBSCRIBE,
                     PUBLISH} then Fine
                   else Fatal
      ensures old(f.sid in streams) ==>
        old(streams[f.sid]).State() == AfterFrame(old(streams[f.sid].State()), window, f, peer)
      ensures old(f.sid in streams) ==> var g := old(streams[f.sid]);
        && g.frames == old(g.frames) + (if f.ty in {RESPONSE, PUBLISH} then [f] else [])
        && (g.done <==> f.ty in {COMPLETE, CANCEL} || (f.ty == ERROR && f.sid != 0))
        && g.err == (if f.ty == COMPLETE then None
                     else if f.ty == CANCEL then Some(Cancelled)
                     else if f.ty == ERROR && f.sid != 0 then Some(peer)
                     else old(g.err))
        && g.inflight == old(g.inflight) + (if f.ty in {RESPONSE, PUBLISH} && window > 0 && g.kind != RequestFlow
          then 1 else 0)
        && g.pending == old(g.pending)
      ensures old(f.sid in streams) && f.ty == SUBACK ==> old(streams[f.sid]).acked
      ensures started != null <==> f.ty == REQUEST && Admits(f.flags, channelKnown, route)
      ensures started != null ==>
        fresh(started) && started.id == f.sid
        && started.State() == Fresh(RequestKind(f.flags, route))
      ensures started != null <==>
        && f.ty == REQUEST
        && if f.flags.channel then channelKnown
           else route == Some(if f.flags.stream then ManyResponses else OneResponse)
      ensures out == Immediate(f, client, channelKnown, route)
      ensures out == if f.ty == REQUEST && started == null
                       then [Failed(if f.flags.channel || route.None? then NotFound else Protocol)]
                     else if f.ty == SUBSCRIBE && !client then [Subscribed]
                     else []
      ensures streams == if started != null then old(streams)[f.sid := started]
                         else if f.ty in {COMPLETE, CANCEL} || (f.ty == ERROR && f.sid != 0)
                           then old(streams) - {f.sid}
                         else old(streams)
      ensures streams == if started != null then old(streams)[f.sid := started]
                         else if old(f.sid in streams) && EndsStream(f) then Without(old(streams), old(streams[f.sid]))
                         else old(streams)
    {
      v, started, out := Fine, null, [];
      if f.ty == REQUEST {
        started, out := PrepareRequest(f, channelKnown, route);
      } else if f.ty == SUBSCRIBE {
        if !client { out := [Subscribed]; }
      } else if f.ty == CREDIT {
        v := if credit.Some? then AddCredit(credit.value) else Fatal;
      } else if (f.ty == ERROR && f.sid == 0) || f.ty !in KNOWN_TYPES {
        v := Fatal;
      } else if f.sid in streams {
        ToStream(f, peer);
      }
    }

    /** The stream a frame names, if it is registered. */
    ghost function Named(f: Frame): set<Flow>
      reads this
    {
      if f.sid in streams then {streams[f.sid]} else {}
    }

    /** The frames that concern a registered stream. */
    method ToStream(f: Frame, peer: ErrorCode)
      requires Valid() && f.sid in streams && (f.ty in {RESPONSE, PUBLISH} ==> CanDeliver(streams[f.sid].State()))
      requires f.ty != REQUEST && f.ty != CREDIT && f.ty in KNOWN_TYPES && (f.ty == ERROR ==> f.sid != 0)
      modifies this`streams
      modifies Named(f)`frames, Named(f)`inflight, Named(f)`done, Named(f)`err, Named(f)`acked
      ensures Valid()
      ensures old(streams[f.sid]).State() == AfterFrame(old(streams[f.sid].State()), window, f, peer)
      ensures var g := old(streams[f.sid]);
        && g.frames == old(g.frames) + (if f.ty in {RESPONSE, PUBLISH} then [f] else [])
        && (g.done <==> f.ty in {COMPLETE, CANCEL, ERROR})
        && g.err == (if f.ty == COMPLETE then None
                     else if f.ty == CANCEL then Some(Cancelled)
                     else if f.ty == ERROR then Some(peer)
                     else old(g.err))
        && g.inflight == old(g.inflight) + (if f.ty in {RESPONSE, PUBLISH} && window > 0 && g.kind != RequestFlow
          then 1 else 0)
      ensures f.ty == SUBACK ==> old(streams[f.sid]).acked
      ensures streams == if EndsStream(f) then Without(old(streams), old(streams[f.sid])) else old(streams)
    {
      var flw := streams[f.sid];
      if f.ty == RESPONSE || f.ty == PUBLISH {
        flw.CreditIn();
        var _ := flw.Deliver(f, false);
      } else if f.ty == COMPLETE {
        flw.Finish(None);
      } else if f.ty == ERROR {
        flw.Finish(Some(peer));
      } else if f.ty == CANCEL {
        flw.Finish(Some(Cancelled));
      } else if f.ty == SUBACK {
        flw.Ack();
      }
    }

    /** One Emit. The stream may be ended from outside before it, or while it waits for credit. */
    method Emit(flw: Flow, a: Attempt) returns (out: seq<Reply>)
      modifies flw`done, flw`err, flw.ep`streams
      ensures out == Emitted(old(flw.done), [a])
      ensures flw.done <==> Over(old(flw.done), [a])
      ensures out == if !old(flw.done) && !a.cancelled && a.encodable && a.wait != StreamEnded
        then [Response(a.payload)] else []
      ensures flw.done <==> old(flw.done) || a.cancelled || (a.encodable && a.wait == StreamEnded)
      ensures !old(flw.done) && flw.done ==> flw.err == Some(Cancelled)
      ensures !old(flw.done) && flw.done ==> flw.ep.streams == Without(old(flw.ep.streams), flw)
      ensures old(flw.done) == flw.done ==> flw.ep.streams == old(flw.ep.streams) && flw.err == old(flw.err)
    {
      if a.cancelled { flw.Finish(Some(Cancelled)); }
      if !a.encodable { return []; }
      if flw.done { return []; }
      if a.wait == StreamEnded {
        flw.Finish(Some(Cancelled));
        return [];
      }
      out := [Response(a.payload)];
    }

    /** The emits of a streaming handler. `from` tells which attempt each RESPONSE stems from. */
    method RunEmits(flw: Flow, emits: seq<Attempt>) returns (out: seq<Reply>, ghost from: seq<int>)
      modifies flw`done, flw`err, flw.ep`streams
      ensures out == Emitted(old(flw.done), emits)
      ensures flw.done <==> Over(old(flw.done), emits)
      ensures |out| == |from| && forall j, k :: 0 <= j < k < |from| ==> from[j] < from[k]
      ensures forall k :: 0 <= k < |out| ==> 0 <= from[k] < |emits| && out[k] == Response(emits[from[k]].payload)
      ensures forall i :: i in from <==>
        && 0 <= i < |emits| && !old(flw.done) && emits[i].encodable
        && forall j :: 0 <= j <= i ==> !emits[j].cancelled && (emits[j].encodable ==> emits[j].wait != StreamEnded)
      ensures flw.done <==>
        || old(flw.done)
        || exists j :: 0 <= j < |emits| && (emits[j].cancelled || (emits[j].encodable && emits[j].wait == StreamEnded))
      ensures flw.err == if flw.done && !old(flw.done) then Some(Cancelled) else old(flw.err)
      ensures flw.ep.streams == if !old(flw.done) && flw.done then Without(old(flw.ep.streams), flw)
        else old(flw.ep.streams)
    {
      out := RunEach(flw, emits);
      from := EmittedContent(old(flw.done), emits);
    }

    method RunEach(flw: Flow, emits: seq<Attempt>) returns (out: seq<Reply>)
      modifies flw`done, flw`err, flw.ep`streams
      ensures out == Emitted(old(flw.done), emits)
      ensures flw.done <==> Over(old(flw.done), emits)
      ensures old(flw.done) ==> flw.done
      ensures flw.err == if flw.done && !old(flw.done) then Some(Cancelled) else old(flw.err)
      ensures flw.ep.streams == if !old(flw.done) && flw.done then Without(old(flw.ep.streams), flw)
        else old(flw.ep.streams)
    {
      out := [];
      var i := 0;
      while i < |emits|
        invariant i <= |emits|
        invariant Emitted(old(flw.done), emits) == out + Emitted(flw.done, emits[i..])
        invariant Over(old(flw.done), emits) == Over(flw.done, emits[i..])
        invariant old(flw.done) ==> flw.done
        invariant flw.err == if flw.done && !old(flw.done) then Some(Cancelled) else old(flw.err)
        invariant flw.ep.streams == if !old(flw.done) && flw.done then Without(old(flw.ep.streams), flw)
          else old(flw.ep.streams)
      {
        EmittedCons(flw.done, emits[i..]);
        var one := Emit(flw, emits[i]);
        out := out + one;
        assert emits[i..][1..] == emits[i + 1..];
        i := i + 1;
      }
      assert emits[i..] == [];
    }

    /** runRequest for the two non-channel modes. A panic is answered with an ERROR but does not finish the stream. */
    method RunRequest(flw: Flow, h: HandlerRun) returns (out: seq<Reply>, ghost from: seq<int>)
      requires flw.kind == RequestFlow || flw.kind == StreamFlow
      modifies flw`done, flw`err, flw.ep`streams
      ensures out == Replies(flw.kind, old(flw.done), h)
      ensures flw.done <==> Finished(flw.kind, old(flw.done), h)
      ensures |out| == |from| + 1 && (flw.kind == RequestFlow ==> from == [])
      ensures out[|from|] == match h.end
        case Panicked => Failed(Internal)
        case Raised(Typed(c)) => Failed(c)
        case Raised(Plain) => Failed(Internal)
        case Returned =>
          if flw.kind == StreamFlow then Completed
          else if h.value == None then Failed(Invalid)
          else Response(h.value.value)
      ensures forall j, k :: 0 <= j < k < |from| ==> from[j] < from[k]
      ensures forall k :: 0 <= k < |from| ==> 0 <= from[k] < |h.emits| && out[k] == Response(h.emits[from[k]].payload)
      ensures flw.kind == StreamFlow ==> forall i :: i in from <==>
        && 0 <= i < |h.emits| && !old(flw.done) && h.emits[i].encodable
        && forall j :: 0 <= j <= i ==>
          !h.emits[j].cancelled && (h.emits[j].encodable ==> h.emits[j].wait != StreamEnded)
      ensures h.end != Panicked ==> flw.done
      ensures old(flw.done) ==> flw.done && flw.err == old(flw.err)
      ensures flw.kind == RequestFlow && !old(flw.done) ==>
        if h.end == Panicked then !flw.done && flw.err == old(flw.err) else flw.err == None
      ensures flw.ep.streams == if !old(flw.done) && flw.done then Without(old(flw.ep.streams), flw)
        else old(flw.ep.streams)
    {
      out, from := [], [];
      if flw.kind == StreamFlow {
        out, from := RunEmits(flw, h.emits);
      }
      match h.end {
        case Panicked =>
          out := out + [Failed(Internal)];
          return;
        case Raised(e) =>
          out := out + [Failed(AsStreamError(e))];
        case Returned =>
          if flw.kind == StreamFlow {
            out := out + [Completed];
          } else if h.value.None? {
            out := out + [Failed(Invalid)];
          } else {
            out := out + [Response(h.value.value)];
          }
      }
      flw.Finish(None);
    }
  }

  // ---- whole tables ------------------------------------------------------------------------------

  /** The streams of a table that are unfinished and client-initiated. */
  function Moving(streams: map<u32, Flow>): map<u32, Flow>
    reads streams.Values
  {
    map id | id in streams && id % 2 == 1 && !streams[id].done :: streams[id]
  }

  lemma MoveOne<T>(start: map<u32, T>, moving: map<u32, T>, todo: set<u32>, id: u32)
    requires id in todo
    ensures id in moving ==> (start + (moving - todo))[id := moving[id]] == start + (moving - (todo - {id}))
    ensures id !in moving ==> moving - todo == moving - (todo - {id})
  {
  }

  /** Migration, as both ends do it on resume: unfinished client-initiated streams switch to the new endpoint. */
  method MigrateFlows(src: Endpoint, dst: Endpoint)
    requires src != dst && forall id :: id in src.streams ==> src.streams[id].id == id
    modifies dst`streams, src.streams.Values`ep
    ensures src.streams == old(src.streams)
    ensures dst.streams == old(dst.streams) + old(Moving(src.streams))
    ensures forall id :: id in src.streams ==>
      src.streams[id].ep == if id % 2 == 1 && !src.streams[id].done then dst else old(src.streams[id].ep)
    ensures forall id :: id in src.streams && id % 2 == 1 && !src.streams[id].done ==>
      id in dst.streams && dst.streams[id] == src.streams[id]
    ensures forall id :: !(id in src.streams && id % 2 == 1 && !src.streams[id].done) ==>
      if id in old(dst.streams) then id in dst.streams && dst.streams[id] == old(dst.streams[id])
      else id !in dst.streams
  {
    var table := src.streams;
    ghost var start, moving := dst.streams, Moving(table);
    var todo := table.Keys;
    while todo != {}
      invariant todo <= table.Keys
      invariant dst.streams == start + (moving - todo)
      invariant forall id :: id in table ==> table[id].ep == if id in moving && id !in todo then dst
        else old(table[id].ep)
    {
      var id :| id in todo;
      MoveOne(start, moving, todo, id);
      if id % 2 == 1 && !table[id].done {
        table[id].SetEndpoint(dst);
        dst.RegisterFlow(table[id]);
      }
      todo := todo - {id};
    }
  }

  lemma DropOne<T>(all: map<u32, T>, gone: set<u32>, id: u32)
    requires id in all
    ensures (all - gone) - {id} == all - (gone + {id})
    ensures id !in gone ==> id in all - gone
  {
  }

  function OfParity(streams: map<u32, Flow>, parity: int): set<u32> {
    set id | id in streams && id % 2 == parity
  }

  /** Every stream of one parity that is registered at the endpoint fails with the same error. */
  method FailFlows(ep: Endpoint, parity: int, e: ErrorCode)
    requires ep.Owns(parity)
    modifies ep`streams, ep.streams.Values`done, ep.streams.Values`err
    ensures ep.streams == old(ep.streams - OfParity(ep.streams, parity)) && (old(ep.Valid()) ==> ep.Valid())
    ensures parity == 1 ==> Moving(ep.streams) == map[]
    ensures forall id :: id in ep.streams <==> id in old(ep.streams) && id % 2 != parity
    ensures forall id :: id in ep.streams ==> ep.streams[id] == old(ep.streams[id])
    ensures forall id :: id in old(ep.streams) && id % 2 == parity ==>
      old(ep.streams)[id].done && old(ep.streams)[id].err == Some(e)
    ensures forall id :: id in old(ep.streams) && id % 2 != parity ==>
      old(ep.streams)[id].done == old(ep.streams[id].done) && old(ep.streams)[id].err == old(ep.streams[id].err)
    ensures forall id :: id in old(ep.streams) ==>
      old(ep.streams)[id].State() == if id % 2 == parity then Flows.Finish(old(ep.streams[id].State()), Some(e))
        else old(ep.streams[id].State())
  {
    var all := ep.streams;
    var todo := OfParity(all, parity);
    ghost var gone: set<u32> := {};
    while todo != {}
      invariant gone !! todo && gone + todo == OfParity(all, parity)
      invariant ep.streams == all - gone
      invariant forall id :: id in all ==> all[id].done == (id in gone || old(all[id].done))
      invariant forall id :: id in all ==> all[id].err == if id in gone then Some(e) else old(all[id].err)
    {
      var id :| id in todo;
      DropOne(all, gone, id);
      all[id].Finish(Some(e));
      gone, todo := gone + {id}, todo - {id};
    }
  }

  /** The types handleFrame knows. CONNECT, CONNACK, PING and PONG never reach it legally. */
  const KNOWN_TYPES: set<u8> :=
    {REQUEST, RESPONSE, COMPLETE, CANCEL, ONEWAY, ERROR, SUBSCRIBE, SUBACK, UNSUBSCRIBE, PUBLISH, CREDIT}

  predicate EndsStream(f: Frame) {
    f.ty == COMPLETE || f.ty == CANCEL || (f.ty == ERROR && f.sid != 0)
  }

  function AfterFrame(s: FlowState, window: int, f: Frame, peer: ErrorCode): FlowState
    requires f.ty in {RESPONSE, PUBLISH} ==> CanDeliver(s)
  {
    if f.ty == RESPONSE || f.ty == PUBLISH then Flows.Deliver(Flows.CreditIn(s, window), f)
    else if f.ty == COMPLETE then Flows.Finish(s, None)
    else if f.ty == ERROR && f.sid != 0 then Flows.Finish(s, Some(peer))
    else if f.ty == CANCEL then Flows.Finish(s, Some(Cancelled))
    else s
  }

  // ---- answering requests ------------------------------------------------------------------------

  /** How a route is registered. */
  datatype RouteKind = OneResponse | ManyResponses

  /** What the responder hands to emit. Payload encoding is abstracted away; errors travel as their codes. */
  datatype Reply = Response(payload: seq<u8>) | Completed | Failed(code: ErrorCode) | Subscribed

  /** A handler's error: one of the library's own, or any other. */
  datatype HandlerError = Typed(code: ErrorCode) | Plain

  /** `asStreamError`: the library's errors keep their code, all others are internal. */
  function AsStreamError(e: HandlerError): ErrorCode {
    match e
    case Typed(code) => code
    case Plain => Internal
  }

  datatype HandlerEnd = Returned | Raised(e: HandlerError) | Panicked

  /** How a wait for credit ends: with a credit or without the scheme, with the gate closing, or with the stream
      ending. */
  datatype CreditWait = Available | GateClosed | StreamEnded

  /** One Emit of a streaming handler; `cancelled` if the stream was ended from outside before it. */
  datatype Attempt = Attempt(cancelled: bool, encodable: bool, wait: CreditWait, payload: seq<u8>)

  /** A handler run: for a request its encoded value (None: not encodable), for a stream its emits; then how it
      ended. */
  datatype HandlerRun = HandlerRun(value: Option<seq<u8>>, emits: seq<Attempt>, end: HandlerEnd)

  function FlowKind(route: RouteKind): Kind {
    if route == ManyResponses then StreamFlow else RequestFlow
  }

  /** The kind of stream an admitted request gets. */
  function RequestKind(flags: Flags, route: Option<RouteKind>): Kind {
    if flags.channel then ChannelFlow else if route.Some? then FlowKind(route.value) else RequestFlow
  }

  /** The one answer to a request that is not admitted. */
  function Refusal(flags: Flags, route: Option<RouteKind>): Reply {
    Failed(if flags.channel || route.None? then NotFound else Protocol)
  }

  /** What handleFrame itself answers: a refused request, and a subscription at the server. */
  function Immediate(f: Frame, client: bool, channelKnown: bool, route: Option<RouteKind>): seq<Reply> {
    if f.ty == REQUEST && !Admits(f.flags, channelKnown, route) then [Refusal(f.flags, route)]
    else if f.ty == SUBSCRIBE && !client then [Subscribed]
    else []
  }

  /** A request is admitted when its route exists and its flags match the way the route is registered. */
  predicate Admits(flags: Flags, channelKnown: bool, route: Option<RouteKind>) {
    if flags.channel then channelKnown else route.Some? && (route.value == ManyResponses <==> flags.stream)
  }

  /** Whether the stream is over after one more Emit. */
  predicate OverAfter(over: bool, a: Attempt) {
    over || a.cancelled || (a.encodable && a.wait == StreamEnded)
  }

  predicate Over(over: bool, emits: seq<Attempt>)
    decreases |emits|
  {
    if emits == [] then over else Over(OverAfter(over, emits[0]), emits[1..])
  }

  /** The frames a sequence of emits produces. */
  function Emitted(over: bool, emits: seq<Attempt>): (out: seq<Reply>)
    decreases |emits|
  {
    if emits == [] then []
    else
      var rest := Emitted(OverAfter(over, emits[0]), emits[1..]);
      if emits[0].encodable && !OverAfter(over, emits[0]) then [Response(emits[0].payload)] + rest else rest
  }

  lemma EmittedCons(over: bool, emits: seq<Attempt>)
    requires emits != []
    ensures Emitted(over, emits) == Emitted(over, [emits[0]]) + Emitted(OverAfter(over, emits[0]), emits[1..])
    ensures Over(over, [emits[0]]) == OverAfter(over, emits[0])
  {
    assert [emits[0]][1..] == [];
  }

  /** An attempt whose frame is sent: encodable, and nothing has ended the stream up to it. */
  predicate Sent(over: bool, emits: seq<Attempt>, i: int) {
    && 0 <= i < |emits| && !over && emits[i].encodable
    && forall j :: 0 <= j <= i ==> !OverAfter(false, emits[j])
  }

  lemma {:induction false} SentCons(over: bool, emits: seq<Attempt>, i: int)
    requires emits != []
    ensures Sent(over, emits, i) <==>
      if i == 0 then emits[0].encodable && !OverAfter(over, emits[0])
      else Sent(OverAfter(over, emits[0]), emits[1..], i - 1)
  {
    if 0 < i < |emits| {
      assert emits[i] == emits[1..][i - 1];
      if Sent(OverAfter(over, emits[0]), emits[1..], i - 1) {
        forall j | 0 <= j <= i ensures !OverAfter(false, emits[j]) {
          assert j > 0 ==> emits[j] == emits[1..][j - 1];
        }
      }
    }
  }

  /** These replies carry the payloads of the attempts at these places. */
  predicate Carries(emits: seq<Attempt>, from: seq<int>, out: seq<Reply>) {
    |from| == |out| && forall k :: 0 <= k < |from| ==>
      0 <= from[k] < |emits| && out[k] == Response(emits[from[k]].payload)
  }

  lemma {:induction false} CarriesLater(emits: seq<Attempt>, rest: seq<int>, out: seq<Reply>)
    requires emits != [] && Carries(emits[1..], rest, out)
    ensures Carries(emits, Later(rest), out)
    ensures Carries(emits, [0] + Later(rest), [Response(emits[0].payload)] + out)
  {
    var from := Later(rest);
    forall k | 0 <= k < |from| ensures 0 <= from[k] < |emits| && out[k] == Response(emits[from[k]].payload) {
      assert emits[from[k]] == emits[1..][rest[k]];
    }
  }

  /** The attempts that are sent, in order. */
  lemma {:induction false} EmittedFrom(over: bool, emits: seq<Attempt>) returns (from: seq<int>)
    ensures Increasing(from) && Carries(emits, from, Emitted(over, emits))
    ensures forall i :: i in from <==> Sent(over, emits, i)
    decreases |emits|
  {
    if emits == [] { return []; }
    var rest := EmittedFrom(OverAfter(over, emits[0]), emits[1..]);
    from := if emits[0].encodable && !OverAfter(over, emits[0]) then [0] + Later(rest) else Later(rest);
    CarriesLater(emits, rest, Emitted(OverAfter(over, emits[0]), emits[1..]));
    LaterIncreases(rest);
    forall i ensures i in from <==> Sent(over, emits, i) {
      SentCons(over, emits, i);
    }
  }

  lemma {:induction false} OverWhen(over: bool, emits: seq<Attempt>)
    ensures Over(over, emits) <==> over || exists j :: 0 <= j < |emits| && OverAfter(false, emits[j])
    decreases |emits|
  {
    if emits != [] {
      OverWhen(OverAfter(over, emits[0]), emits[1..]);
      forall j | 0 <= j < |emits| ensures j > 0 ==> emits[j] == emits[1..][j - 1] {}
      if j :| 0 <= j < |emits[1..]| && OverAfter(false, emits[1..][j]) {
        assert emits[j + 1] == emits[1..][j];
      }
    }
  }

  /** What the emits of a handler put on the wire: one RESPONSE for each encodable attempt made before the stream is
      over, carrying its payload, in order; `from` tells which attempt each stems from. */
  lemma {:induction false} EmittedContent(over: bool, emits: seq<Attempt>) returns (from: seq<int>)
    ensures |Emitted(over, emits)| == |from| && forall j, k :: 0 <= j < k < |from| ==> from[j] < from[k]
    ensures forall k :: 0 <= k < |from| ==>
      0 <= from[k] < |emits| && Emitted(over, emits)[k] == Response(emits[from[k]].payload)
    ensures forall i :: i in from <==>
      && 0 <= i < |emits| && !over && emits[i].encodable
      && forall j :: 0 <= j <= i ==> !emits[j].cancelled && (emits[j].encodable ==> emits[j].wait != StreamEnded)
    ensures Over(over, emits) <==>
      || over
      || exists j :: 0 <= j < |emits| && (emits[j].cancelled || (emits[j].encodable && emits[j].wait == StreamEnded))
  {
    from := EmittedFrom(over, emits);
    OverWhen(over, emits);
  }

  /** Everything a non-channel request is answered with. */
  function Replies(kind: Kind, over: bool, h: HandlerRun): seq<Reply> {
    var sent := if kind == StreamFlow then Emitted(over, h.emits) else [];
    match h.end
    case Panicked => sent + [Failed(Internal)]
    case Raised(e) => sent + [Failed(AsStreamError(e))]
    case Returned =>
      sent + [if kind == StreamFlow then Completed else if h.value.None? then Failed(Invalid)
        else Response(h.value.value)]
  }

  /** Whether runRequest leaves the stream finished: always, unless the handler panicked and nobody had ended the
      stream. */
  predicate Finished(kind: Kind, over: bool, h: HandlerRun) {
    h.end != Panicked || (if kind == StreamFlow then Over(over, h.emits) else over)
  }

  /** Everything a request is answered with, over every handler behaviour, cancellations included. A single request
      gets one frame: its value, or the error that stands for what went wrong. A stream gets one RESPONSE for each
      encodable attempt made before it is over, in order and with that attempt's payload, then one terminal frame, which
      says COMPLETE exactly when the handler returned without error. */
  lemma {:induction false} ResponseGrammar(kind: Kind, over: bool, h: HandlerRun) returns (from: seq<int>)
    requires kind == RequestFlow || kind == StreamFlow
    ensures |Replies(kind, over, h)| == |from| + 1 && (kind == RequestFlow || over ==> from == [])
    ensures Replies(kind, over, h)[|from|] == match h.end
      case Panicked => Failed(Internal)
      case Raised(Typed(c)) => Failed(c)
      case Raised(Plain) => Failed(Internal)
      case Returned =>
        if kind == StreamFlow then Completed else if h.value == None then Failed(Invalid) else Response(h.value.value)
    ensures forall j, k :: 0 <= j < k < |from| ==> from[j] < from[k]
    ensures forall k :: 0 <= k < |from| ==>
      0 <= from[k] < |h.emits| && Replies(kind, over, h)[k] == Response(h.emits[from[k]].payload)
    ensures kind == StreamFlow ==> forall i :: i in from <==>
      && 0 <= i < |h.emits| && !over && h.emits[i].encodable
      && forall j :: 0 <= j <= i ==> !h.emits[j].cancelled && (h.emits[j].encodable ==> h.emits[j].wait != StreamEnded)
  {
    if kind == RequestFlow { return []; }
    from := EmittedContent(over, h.emits);
    if |from| > 0 {
      assert from[0] in from;
    }
  }

  // ---- laws over several calls -------------------------------------------------------------------

  /** RESPONSEs handled for a stream fill its buffer, one by one. */
  method Answer(ep: Endpoint, flw: Flow, answers: seq<Frame>)
    requires ep.Valid() && flw.id in ep.streams && ep.streams[flw.id] == flw && flw.frames == []
    requires |answers| <= 32 && forall i :: 0 <= i < |answers| ==> answers[i].ty == RESPONSE && answers[i].sid == flw.id
    modifies ep`streams, flw`frames, flw`inflight, flw`done, flw`err, flw`acked
    ensures ep.Valid() && flw.id in ep.streams && ep.streams[flw.id] == flw
    ensures flw.frames == answers
  {
    var i := 0;
    while i < |answers|
      invariant i <= |answers| && ep.Valid() && flw.id in ep.streams && ep.streams[flw.id] == flw
      invariant flw.frames == answers[..i]
    {
      var _, _, _ := ep.HandleFrame(answers[i], None, Internal, false, None);
      assert answers[..i + 1] == answers[..i] + [answers[i]];
      i := i + 1;
    }
    assert answers[..i] == answers;
  }

  /** Reads of a normally ended stream return what it buffers, then only ends. */
  method ReadBack(flw: Flow, answers: seq<Frame>, picks: seq<Arm>, more: nat) returns (read: seq<Flows.ReadResult>)
    requires flw.done && flw.err == None && flw.frames == answers
    requires |picks| == |answers| && forall i :: 0 <= i < |picks| ==> picks[i] != CtxArm
    modifies flw`frames, flw`inflight, flw`pending, flw`done, flw`err, flw.ep`streams
    ensures |read| == |answers| + more && flw.done && flw.err == None
    ensures forall i :: 0 <= i < |answers| ==> read[i] == Message(answers[i])
    ensures forall i :: |answers| <= i < |read| ==> read[i] == End
  {
    var i := 0;
    read := [];
    while i < |answers| + more
      invariant i <= |answers| + more && |read| == i
      invariant flw.done && flw.err == None
      invariant flw.frames == if i <= |answers| then answers[i..] else []
      invariant forall k :: 0 <= k < i && k < |answers| ==> read[k] == Message(answers[k])
      invariant forall k :: |answers| <= k < i ==> read[k] == End
    {
      var r, _, _ := flw.Next(false, if i < |answers| then picks[i] else DoneArm);
      read, i := read + [r], i + 1;
    }
  }

  /** The frames of an answer, handled one by one, come out of the client's reader one by one: n RESPONSEs and a
      COMPLETE handled for a fresh stream, and the next n reads return those n frames in order; then come only ends,
      whatever each select picks. */
  method AnswerThenRead(ep: Endpoint, flw: Flow, answers: seq<Frame>, complete: Frame, picks: seq<Arm>, more: nat)
    returns (read: seq<Flows.ReadResult>)
    requires ep.Valid() && flw.id in ep.streams && ep.streams[flw.id] == flw && flw.frames == []
    requires |answers| <= 32 && forall i :: 0 <= i < |answers| ==> answers[i].ty == RESPONSE && answers[i].sid == flw.id
    requires complete.ty == COMPLETE && complete.sid == flw.id
    requires |picks| == |answers| && forall i :: 0 <= i < |picks| ==> picks[i] != CtxArm
    modifies ep`streams, flw`frames, flw`inflight, flw`pending, flw`done, flw`err, flw`acked
    ensures |read| == |answers| + more && flw.done && flw.err == None
    ensures forall i :: 0 <= i < |answers| ==> read[i] == Message(answers[i])
    ensures forall i :: |answers| <= i < |read| ==> read[i] == End
  {
    Answer(ep, flw, answers);
    var _, _, _ := ep.HandleFrame(complete, None, Internal, false, None);
    read := ReadBack(flw, answers, picks, more);
  }

  /** A stream that is finished with an error reports it in every later read and keeps it, whatever a later finish
      says; the frames it still buffers are never returned. */
  method FailThenRead(flw: Flow, e: ErrorCode, later: Option<ErrorCode>, picks: seq<Arm>)
    returns (read: seq<Flows.ReadResult>)
    requires !flw.done && forall i :: 0 <= i < |picks| ==> picks[i] != CtxArm
    modifies flw, flw.ep`streams
    ensures flw.done && flw.err == Some(e)
    ensures forall r :: r in read ==> r == End
  {
    flw.Finish(Some(e));
    flw.Finish(later);
    read := [];
    var i := 0;
    while i < |picks|
      invariant i <= |picks| && flw.done && flw.err == Some(e)
      invariant flw.ep == old(flw.ep) && forall r :: r in read ==> r == End
    {
      var arm := if picks[i] == FrameArm && flw.frames == [] then DoneArm else picks[i];
      var r, _, _ := flw.Next(false, arm);
      read, i := read + [r], i + 1;
    }
    flw.Finish(later);
  }
}
