// One direction of an established connection: the write loop's encoding, the read
// loop's dispatch, and the theorem that what is dispatched is a prefix of what was queued.

module Link {
  import opened Basics
  import opened Wire
  import opened Transform
  import opened Handshake

  // ---- sending -------------------------------------------------------------------

  /** The frame the write loop actually encodes: transformed payload, merged flag bits. */
  function Outer(c: Codecs, t: Transformer, nonce: seq<u8>, f: Frame): Frame {
    var o := OutboundSpec(c, t, nonce, f.payload);
    Frame(f.version,
      f.flags.(compressed := f.flags.compressed || o.compressed, encrypted := f.flags.encrypted || o.encrypted),
          f.ty, f.sid, f.meta, o.data)
  }

  method EncodeFrame(c: Codecs, t: Transformer, nonce: seq<u8>, f: Frame, dst: seq<u8>) returns (out: seq<u8>, ok: bool)
    ensures ok <==> Fits(Outer(c, t, nonce, f))
    ensures out == if ok then dst + Encode(Outer(c, t, nonce, f)) else dst
  {
    var payload, compressed, encrypted := Outbound(c, t, nonce, f.payload);
    var flags := f.flags.(compressed := f.flags.compressed || compressed, encrypted := f.flags.encrypted || encrypted);
    var err;
    out, err := AppendTo(Frame(f.version, flags, f.ty, f.sid, f.meta, payload), dst);
    ok := err.None?;
  }

  // ---- receiving -----------------------------------------------------------------

  /** What a read loop did before it stopped. `dead` is set when it killed the connection over a bad frame. */
  datatype Heard = Heard(dispatched: seq<Frame>, pongs: nat, dead: bool)

  /** What one turn of the loop does with a frame: answer a PING, skip a PONG, stop over a frame that cannot be
      transformed back, or dispatch it, for the last time if the handler finds it fatal. Broken: there was no frame to
      be read. */
  datatype Turn = Broken | Pinged | Skipped | Unusable | Dispatched(f: Frame, last: bool)

  function TurnOn(c: Codecs, t: Transformer, fatal: Frame -> bool, w: Frame): Turn {
    if w.ty == PING then Pinged
    else if w.ty == PONG then Skipped
    else
      match InboundSpec(c, t, w.flags, w.payload)
      case Rejected(_) => Unusable
      case Plaintext(p) => Dispatched(w.(payload := p), fatal(w.(payload := p)))
  }

  /** A turn, and then what the rest of the bytes make the loop do. */
  function Then(turn: Turn, h: Heard): Heard {
    match turn
    case Broken => Heard([], 0, false)
    case Pinged => h.(pongs := h.pongs + 1)
    case Skipped => h
    case Unusable => Heard([], 0, true)
    case Dispatched(f, last) => if last then Heard([f], 0, true) else h.(dispatched := [f] + h.dispatched)
  }

  /** The read loop over the frames on the wire. `fatal` marks the frames handleFrame answers with an error. */
  function Hear(c: Codecs, t: Transformer, fatal: Frame -> bool, ws: seq<Frame>): Heard {
    if ws == [] then Heard([], 0, false) else Then(TurnOn(c, t, fatal, ws[0]), Hear(c, t, fatal, ws[1..]))
  }

  /** The loop stops over this frame: it cannot be transformed back, or the handler finds it fatal. */
  predicate StopsAt(c: Codecs, t: Transformer, fatal: Frame -> bool, w: Frame) {
    && w.ty != PING && w.ty != PONG
    && var r := InboundSpec(c, t, w.flags, w.payload);
      r.Rejected? || fatal(w.(payload := r.data))
  }

  /** The loop dispatches this frame if it gets to it. */
  predicate Dispatches(c: Codecs, t: Transformer, w: Frame) {
    w.ty != PING && w.ty != PONG && InboundSpec(c, t, w.flags, w.payload).Plaintext?
  }

  /** How many frames the loop looks at: up to the first it stops over, or all. */
  function Looked(c: Codecs, t: Transformer, fatal: Frame -> bool, ws: seq<Frame>): (n: nat)
    ensures n <= |ws|
  {
    if ws == [] then 0 else if StopsAt(c, t, fatal, ws[0]) then 1 else 1 + Looked(c, t, fatal, ws[1..])
  }

  lemma {:induction false} HearStops(c: Codecs, t: Transformer, fatal: Frame -> bool, ws: seq<Frame>)
    ensures var n, h := Looked(c, t, fatal, ws), Hear(c, t, fatal, ws);
      && (forall i :: 0 <= i < n - 1 ==> !StopsAt(c, t, fatal, ws[i]))
      && (h.dead <==> n > 0 && StopsAt(c, t, fatal, ws[n - 1])) && (!h.dead ==> n == |ws|)
    decreases |ws|
  {
    if ws != [] && !StopsAt(c, t, fatal, ws[0]) {
      HearStops(c, t, fatal, ws[1..]);
      forall i | 0 < i < |ws| ensures ws[i] == ws[1..][i - 1] {}
    }
  }

  lemma {:induction false} HearPings(c: Codecs, t: Transformer, fatal: Frame -> bool, ws: seq<Frame>)
    returns (pinged: seq<int>)
    ensures Increasing(pinged) && |pinged| == Hear(c, t, fatal, ws).pongs
    ensures forall i :: i in pinged <==> 0 <= i < Looked(c, t, fatal, ws) && ws[i].ty == PING
    decreases |ws|
  {
    if ws == [] || StopsAt(c, t, fatal, ws[0]) { return []; }
    var rest := HearPings(c, t, fatal, ws[1..]);
    LaterIncreases(rest);
    pinged := if ws[0].ty == PING then [0] + Later(rest) else Later(rest);
    forall i | 0 < i < |ws| ensures ws[i] == ws[1..][i - 1] {}
  }

  /** A frame with its payload transformed back. */
  function Inner(c: Codecs, t: Transformer, w: Frame): Frame
    requires Dispatches(c, t, w)
  {
    w.(payload := InboundSpec(c, t, w.flags, w.payload).data)
  }

  /** These frames are those at these places, transformed back. */
  predicate Taken(c: Codecs, t: Transformer, ws: seq<Frame>, from: seq<int>, out: seq<Frame>) {
    |from| == |out| && forall k :: 0 <= k < |from| ==>
      0 <= from[k] < |ws| && Dispatches(c, t, ws[from[k]]) && out[k] == Inner(c, t, ws[from[k]])
  }

  lemma {:induction false} TakenLater(c: Codecs, t: Transformer, ws: seq<Frame>, rest: seq<int>, out: seq<Frame>)
    requires ws != [] && Taken(c, t, ws[1..], rest, out)
    ensures Taken(c, t, ws, Later(rest), out)
    ensures Dispatches(c, t, ws[0]) ==> Taken(c, t, ws, [0] + Later(rest), [Inner(c, t, ws[0])] + out)
  {
    var from := Later(rest);
    forall k | 0 <= k < |from|
      ensures 0 <= from[k] < |ws| && Dispatches(c, t, ws[from[k]]) && out[k] == Inner(c, t, ws[from[k]])
    {
      assert ws[from[k]] == ws[1..][rest[k]];
    }
  }

  lemma {:induction false} HearCons(c: Codecs, t: Transformer, fatal: Frame -> bool, ws: seq<Frame>)
    requires ws != []
    ensures var rest := if StopsAt(c, t, fatal, ws[0]) then [] else Hear(c, t, fatal, ws[1..]).dispatched;
      Hear(c, t, fatal, ws).dispatched == if Dispatches(c, t, ws[0]) then [Inner(c, t, ws[0])] + rest else rest
  {
  }

  /** The places of the frames that are dispatched, in the list and in the rest of it. */
  lemma {:induction false} PlacesCons(c: Codecs, t: Transformer, ws: seq<Frame>, n: nat, rest: seq<int>)
    requires ws != [] && n < |ws|
    requires forall i :: i in rest <==> 0 <= i < n && Dispatches(c, t, ws[1..][i])
    ensures forall i :: i in (if Dispatches(c, t, ws[0]) then [0] + Later(rest) else Later(rest)) <==>
      0 <= i < n + 1 && Dispatches(c, t, ws[i])
  {
    forall i | 0 < i < |ws| ensures ws[i] == ws[1..][i - 1] {}
  }

  lemma {:induction false} HearData(c: Codecs, t: Transformer, fatal: Frame -> bool, ws: seq<Frame>)
    returns (from: seq<int>)
    ensures Increasing(from) && Taken(c, t, ws, from, Hear(c, t, fatal, ws).dispatched)
    ensures forall i :: i in from <==> 0 <= i < Looked(c, t, fatal, ws) && Dispatches(c, t, ws[i])
    decreases |ws|
  {
    if ws == [] { return []; }
    var rest, out, n := [], [], 0;
    if !StopsAt(c, t, fatal, ws[0]) {
      rest := HearData(c, t, fatal, ws[1..]);
      out, n := Hear(c, t, fatal, ws[1..]).dispatched, Looked(c, t, fatal, ws[1..]);
    }
    HearCons(c, t, fatal, ws);
    TakenLater(c, t, ws, rest, out);
    LaterIncreases(rest);
    PlacesCons(c, t, ws, n, rest);
    from := if Dispatches(c, t, ws[0]) then [0] + Later(rest) else Later(rest);
  }

  /** The read loop, frame by frame. It looks at the frames up to the first that cannot be transformed back or that the
      handler finds fatal, at all of them if there is none; over those it answers each PING, skips each PONG, and
      dispatches every other one whose payload can be transformed back, in order, with that payload. */
  lemma {:induction false} HearIs(c: Codecs, t: Transformer, fatal: Frame -> bool, ws: seq<Frame>)
    returns (n: nat, from: seq<int>, pinged: seq<int>)
    ensures n <= |ws|
    ensures forall i :: 0 <= i < n - 1 && ws[i].ty !in {PING, PONG} ==>
      var r := InboundSpec(c, t, ws[i].flags, ws[i].payload);
      r.Plaintext? && !fatal(ws[i].(payload := r.data))
    ensures var h := Hear(c, t, fatal, ws);
      && (!h.dead ==> n == |ws|)
      && (h.dead <==>
        && n > 0 && ws[n - 1].ty !in {PING, PONG}
        && var r := InboundSpec(c, t, ws[n - 1].flags, ws[n - 1].payload);
          r.Rejected? || fatal(ws[n - 1].(payload := r.data)))
    ensures var h := Hear(c, t, fatal, ws);
      && |pinged| == h.pongs && |from| == |h.dispatched|
      && (forall j, k :: 0 <= j < k < |from| ==> from[j] < from[k])
      && (forall j, k :: 0 <= j < k < |pinged| ==> pinged[j] < pinged[k])
      && (forall i :: i in pinged <==> 0 <= i < n && ws[i].ty == PING)
      && (forall i :: i in from <==>
        && 0 <= i < n && ws[i].ty !in {PING, PONG} && InboundSpec(c, t, ws[i].flags, ws[i].payload).Plaintext?)
      && (forall k :: 0 <= k < |from| ==>
        && 0 <= from[k] < n
        && var w := ws[from[k]];
          var r := InboundSpec(c, t, w.flags, w.payload);
          r.Plaintext? && h.dispatched[k] == w.(payload := r.data))
  {
    n := Looked(c, t, fatal, ws);
    HearStops(c, t, fatal, ws);
    pinged := HearPings(c, t, fatal, ws);
    from := HearData(c, t, fatal, ws);
    forall k | 0 <= k < |from| ensures 0 <= from[k] < n {
      assert from[k] in from;
    }
    forall i | 0 <= i < n - 1 && ws[i].ty !in {PING, PONG}
      ensures var r := InboundSpec(c, t, ws[i].flags, ws[i].payload);
        r.Plaintext? && !fatal(ws[i].(payload := r.data))
    {
      assert !StopsAt(c, t, fatal, ws[i]);
    }
  }

  /** The read loop over the bytes that are still to come. */
  function HearAll(c: Codecs, t: Transformer, fatal: Frame -> bool, bytes: seq<u8>): Heard {
    Hear(c, t, fatal, ReadAll(bytes).0)
  }

  lemma {:induction false} HearNext(c: Codecs, t: Transformer, fatal: Frame -> bool, bytes: seq<u8>)
    requires Parse(bytes).Got?
    ensures var r := Parse(bytes);
      HearAll(c, t, fatal, bytes) == Then(TurnOn(c, t, fatal, r.frame), HearAll(c, t, fatal, r.rest))
  {
    var r := Parse(bytes);
    var fs := ReadAll(r.rest).0;
    assert ReadAll(bytes).0 == [r.frame] + fs;
    assert ([r.frame] + fs)[1..] == fs;
  }

  /** One turn of the read loop; `rest` is what the loop will make of the bytes after it. */
  method TakeTurn(c: Codecs, t: Transformer, fatal: Frame -> bool, reader: Reader)
    returns (turn: Turn, ghost rest: Heard)
    modifies reader
    ensures HearAll(c, t, fatal, old(reader.rest)) == Then(turn, rest) && rest == HearAll(c, t, fatal, reader.rest)
    ensures turn != Broken ==> |reader.rest| < |old(reader.rest)|
  {
    ghost var bytes := reader.rest;
    var r := reader.ReadFrame();
    rest := HearAll(c, t, fatal, reader.rest);
    if r.Bad? { return Broken, rest; }
    HearNext(c, t, fatal, bytes);
    if r.frame.ty == PING { return Pinged, rest; }
    if r.frame.ty == PONG { return Skipped, rest; }
    var plain := Inbound(c, t, r.frame.flags, r.frame.payload);
    if plain.Rejected? { return Unusable, rest; }
    var f := r.frame.(payload := plain.data);
    turn := Dispatched(f, fatal(f));
  }

  /** The loop has done its part, and the rest of the bytes will do the rest. */
  predicate Completes(all: Heard, dispatched: seq<Frame>, pongs: nat, rest: Heard) {
    all.dispatched == dispatched + rest.dispatched && all.pongs == pongs + rest.pongs
  }

  lemma {:induction false} HandedOn(all: Heard, dispatched: seq<Frame>, pongs: nat, f: Frame, rest: Heard)
    requires all.pongs == pongs + rest.pongs && all.dispatched == dispatched + ([f] + rest.dispatched)
    ensures Completes(all, dispatched + [f], pongs, rest)
  {
  }

  method ReadLoop(c: Codecs, t: Transformer, fatal: Frame -> bool, reader: Reader)
    returns (dispatched: seq<Frame>, pongs: nat)
    modifies reader
    ensures var h := HearAll(c, t, fatal, old(reader.rest)); dispatched == h.dispatched && pongs == h.pongs
  {
    dispatched, pongs := [], 0;
    ghost var all := HearAll(c, t, fatal, reader.rest);
    ghost var rest := all;
    while true
      invariant rest == HearAll(c, t, fatal, reader.rest) && Completes(all, dispatched, pongs, rest)
      decreases |reader.rest|
    {
      var turn;
      turn, rest := TakeTurn(c, t, fatal, reader);
      match turn
      case Broken => return;
      case Pinged => pongs := pongs + 1;
      case Skipped =>
      case Unusable => return;
      case Dispatched(f, last) =>
        if !last { HandedOn(all, dispatched, pongs, f, rest); }
        dispatched := dispatched + [f];
        if last { return; }
    }
  }

  // ---- the two ends together -------------------------------------------------------

  /** A queued frame with the nonce the write loop drew for it. */
  datatype Sent = Sent(frame: Frame, nonce: seq<u8>)

  /** What the endpoint may put on the queue: current version and only mode flags. */
  predicate Queueable(f: Frame) {
    Admissible(f) && !f.flags.compressed && !f.flags.encrypted
  }

  /** The frame as the peer's handler sees it: the original, with the flags that describe its journey. */
  function Seen(c: Codecs, t: Transformer, s: Sent): Frame {
    Normal(Outer(c, t, s.nonce, s.frame)).(payload := s.frame.payload)
  }

  predicate SameMessage(f: Frame, g: Frame) {
    && f.version == g.version && f.ty == g.ty && f.sid == g.sid && f.meta == g.meta && f.payload == g.payload
    && f.flags.stream == g.flags.stream && f.flags.channel == g.flags.channel
  }

  /** Every frame can be written, and its plaintext is within the inflation cap. */
  ghost predicate Sendable(c: Codecs, t: Transformer, q: seq<Sent>) {
    forall i :: 0 <= i < |q| ==>
      && Queueable(q[i].frame) && |q[i].nonce| == NONCE_SIZE
      && Fits(Outer(c, t, q[i].nonce, q[i].frame)) && |q[i].frame.payload| <= MAX_PAYLOAD
  }

  function Outers(c: Codecs, t: Transformer, q: seq<Sent>): (r: seq<Frame>)
    ensures |r| == |q| && forall i :: 0 <= i < |q| ==> r[i] == Outer(c, t, q[i].nonce, q[i].frame)
  {
    seq(|q|, i requires 0 <= i < |q| => Outer(c, t, q[i].nonce, q[i].frame))
  }

  /** The queued frames a handler is meant to see: all but the heartbeats, up to and including a fatal one. */
  function Meant(c: Codecs, t: Transformer, fatal: Frame -> bool, q: seq<Sent>): seq<Frame> {
    if q == [] then []
    else if q[0].frame.ty in {PING, PONG} then Meant(c, t, fatal, q[1..])
    else [q[0].frame] + if fatal(Seen(c, t, q[0])) then [] else Meant(c, t, fatal, q[1..])
  }

  ghost predicate SameMessages(fs: seq<Frame>, gs: seq<Frame>) {
    |fs| == |gs| && forall i :: 0 <= i < |fs| ==> SameMessage(fs[i], gs[i])
  }

  lemma {:induction false} SeenIsSame(c: Codecs, t: Transformer, s: Sent)
    requires Lawful(c) && Valid(t) && |s.nonce| == NONCE_SIZE && Queueable(s.frame) && |s.frame.payload| <= MAX_PAYLOAD
    ensures var w := Normal(Outer(c, t, s.nonce, s.frame));
      InboundSpec(c, t, w.flags, w.payload) == Plaintext(s.frame.payload)
        && w.(payload := s.frame.payload) == Seen(c, t, s)
    ensures SameMessage(Seen(c, t, s), s.frame)
  {
    PipelineInverse(c, t, s.nonce, s.frame.payload, Normal(Outer(c, t, s.nonce, s.frame)).flags);
  }

  lemma {:induction false} HearMeant(c: Codecs, t: Transformer, fatal: Frame -> bool, q: seq<Sent>)
    requires Lawful(c) && Valid(t) && Sendable(c, t, q)
    ensures SameMessages(Hear(c, t, fatal, NormalAll(Outers(c, t, q))).dispatched, Meant(c, t, fatal, q))
    decreases |q|
  {
    if q != [] {
      var ws := NormalAll(Outers(c, t, q));
      assert Outers(c, t, q)[1..] == Outers(c, t, q[1..]);
      assert ws[1..] == NormalAll(Outers(c, t, q[1..]));
      SeenIsSame(c, t, q[0]);
      HearMeant(c, t, fatal, q[1..]);
    }
  }

  /** The bytes of a queue, and the number of its frames whose encodings fit in the first k of them. */
  ghost function Bytes(c: Codecs, t: Transformer, q: seq<Sent>): seq<u8>
    requires Sendable(c, t, q)
  {
    EncodeAll(Outers(c, t, q))
  }

  ghost function WrittenBy(c: Codecs, t: Transformer, q: seq<Sent>, k: nat): (n: nat)
    requires Sendable(c, t, q)
    ensures n <= |q|
  {
    Whole(Chunks(Outers(c, t, q)), k)
  }

  /** What a receiver with transformer t dispatches when the first k bytes reach it. */
  ghost function Arrived(c: Codecs, t: Transformer, fatal: Frame -> bool, bytes: seq<u8>): seq<Frame> {
    HearAll(c, t, fatal, bytes).dispatched
  }

  /** Two transformers that undo each other. */
  predicate Matched(a: Transformer, b: Transformer) {
    a.compress == b.compress && a.encrypt == b.encrypt && (a.encrypt ==> a.key == b.key)
  }

  lemma {:induction false} SameKeyTransparent(c: Codecs, t: Transformer, fatal: Frame -> bool, q: seq<Sent>, k: nat)
    requires Lawful(c) && Valid(t) && Sendable(c, t, q) && k <= |Bytes(c, t, q)|
    ensures SameMessages(Arrived(c, t, fatal, Bytes(c, t, q)[..k]), Meant(c, t, fatal, q[..WrittenBy(c, t, q, k)]))
  {
    var os := Outers(c, t, q);
    var n := WrittenBy(c, t, q, k);
    CutStreamYieldsPrefix(os, k);
    assert NormalAll(os)[..n] == NormalAll(Outers(c, t, q[..n]));
    HearMeant(c, t, fatal, q[..n]);
  }

  lemma {:induction false} MatchedHearAlike(c: Codecs, a: Transformer, b: Transformer, fatal: Frame -> bool,
        ws: seq<Frame>)
    requires Matched(a, b)
    ensures Hear(c, a, fatal, ws) == Hear(c, b, fatal, ws)
    decreases |ws|
  {
    if ws != [] {
      MatchedHearAlike(c, a, b, fatal, ws[1..]);
    }
  }

  /** Over matched transformers the peer's handlers see, in order and unchanged, exactly the queued frames
      that were completely written when the connection stopped after k bytes, whatever k is. */
  lemma {:induction false} MatchedTransparent(c: Codecs, a: Transformer, b: Transformer, fatal: Frame -> bool,
        q: seq<Sent>, k: nat)
    requires Lawful(c) && Valid(a) && Matched(a, b) && Sendable(c, a, q) && k <= |Bytes(c, a, q)|
    ensures var got, sent := Arrived(c, b, fatal, Bytes(c, a, q)[..k]), Meant(c, a, fatal, q[..WrittenBy(c, a, q, k)]);
      && |got| == |sent|
      && forall i :: 0 <= i < |sent| ==>
        && got[i] == sent[i].(flags := got[i].flags)
        && got[i].flags.stream == sent[i].flags.stream && got[i].flags.channel == sent[i].flags.channel
  {
    SameKeyTransparent(c, a, fatal, q, k);
    MatchedHearAlike(c, a, b, fatal, ReadAll(Bytes(c, a, q)[..k]).0);
  }

  lemma {:induction false} AllMeant(c: Codecs, t: Transformer, fatal: Frame -> bool, q: seq<Sent>)
    requires forall i :: 0 <= i < |q| ==> q[i].frame.ty !in {PING, PONG} && !fatal(Seen(c, t, q[i]))
    ensures |Meant(c, t, fatal, q)| == |q| && forall i :: 0 <= i < |q| ==> Meant(c, t, fatal, q)[i] == q[i].frame
    decreases |q|
  {
    if q != [] {
      AllMeant(c, t, fatal, q[1..]);
    }
  }

  lemma {:induction false} WholeOfAll(chunks: seq<seq<u8>>)
    ensures Whole(chunks, |Flatten(chunks)|) == |chunks|
    decreases |chunks|
  {
    if chunks != [] {
      WholeOfAll(chunks[1..]);
    }
  }

  /** A connection that is not cut and whose queue holds neither heartbeats nor anything fatal delivers all of it:
      frame by frame the queued messages, no more and no fewer. */
  lemma {:induction false} WholeQueueArrives(c: Codecs, a: Transformer, b: Transformer, fatal: Frame -> bool,
        q: seq<Sent>)
    requires Lawful(c) && Valid(a) && Matched(a, b) && Sendable(c, a, q)
    requires forall i :: 0 <= i < |q| ==> q[i].frame.ty !in {PING, PONG} && !fatal(Seen(c, a, q[i]))
    ensures var got := Arrived(c, b, fatal, Bytes(c, a, q));
      && |got| == |q|
      && forall i :: 0 <= i < |q| ==>
        && got[i] == q[i].frame.(flags := got[i].flags)
        && got[i].flags.stream == q[i].frame.flags.stream && got[i].flags.channel == q[i].frame.flags.channel
  {
    var bytes := Bytes(c, a, q);
    MatchedTransparent(c, a, b, fatal, q, |bytes|);
    WholeOfAll(Chunks(Outers(c, a, q)));
    AllMeant(c, a, fatal, q);
    assert bytes[..|bytes|] == bytes && q[..|q|] == q;
  }

  /** Whatever two configurations a client and a server are started with: once the handshake succeeds, the client can
      build its transformer, and unless an encrypted link was given two keys both directions are transparent. */
  lemma {:induction false} LinkTransparent(c: Codecs, srv: Config, cli: Config, auth: Option<ErrorCode>, aj: Connack,
        tx: Transformer, fatal: Frame -> bool, q: seq<Sent>, k: nat)
    requires Lawful(c) && Usable(srv) && Usable(cli)
    requires Admit(srv, CONNECT, Some(ClientConnect(cli)), auth) == Establish(aj, tx)
    requires aj.encrypt ==> srv.key == cli.key
    ensures ClientTransformer(cli, aj).Some?
    ensures var there := ClientTransformer(cli, aj).value;
      && (Sendable(c, tx, q) && k <= |Bytes(c, tx, q)| ==>
        var got, sent := Arrived(c, there, fatal, Bytes(c, tx, q)[..k]),
          Meant(c, tx, fatal, q[..WrittenBy(c, tx, q, k)]);
        && |got| == |sent|
        && forall i :: 0 <= i < |sent| ==>
          && got[i] == sent[i].(flags := got[i].flags)
          && got[i].flags.stream == sent[i].flags.stream && got[i].flags.channel == sent[i].flags.channel)
      && (Sendable(c, there, q) && k <= |Bytes(c, there, q)| ==>
        var got, sent := Arrived(c, tx, fatal, Bytes(c, there, q)[..k]),
          Meant(c, there, fatal, q[..WrittenBy(c, there, q, k)]);
        && |got| == |sent|
        && forall i :: 0 <= i < |sent| ==>
          && got[i] == sent[i].(flags := got[i].flags)
          && got[i].flags.stream == sent[i].flags.stream && got[i].flags.channel == sent[i].flags.channel)
  {
    Negotiated(srv, cli, auth);
    var there := ClientTransformer(cli, aj).value;
    if Sendable(c, tx, q) && k <= |Bytes(c, tx, q)| {
      MatchedTransparent(c, tx, there, fatal, q, k);
    }
    if Sendable(c, there, q) && k <= |Bytes(c, there, q)| {
      MatchedTransparent(c, there, tx, fatal, q, k);
    }
  }
}
