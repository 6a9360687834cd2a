// One client, one server session, and every connection they ever have.
// The state machine takes each critical section of the source as one step and lets the
// environment choose everything else: when either end of a connection dies, how late the
// server binds a connection the client dialled, how far each loop gets, what handlers send.

module Resume {
  import opened Basics
  import opened Wire
  import opened Retention
  import Flows
  import Ids

  /** How a stream ended: None for a normal end, otherwise the code. */
  type Ending = Option<ErrorCode>

  // ---- the state ----------------------------------------------------------------------------

  /** A connection's server transport. `rank` is its place in the order of the session's binds, once bound. */
  datatype Link = Link(rank: Option<nat>, started: bool, dead: bool)

  /** The session's view of its connections: all of them in dial order, the bound one, the last bound one; `waiting` is
      a frame whose sender waits for room in the bound connection's queue, holding the session's lock. */
  datatype Server = Server(
    links: seq<Link>, conn: Option<nat>, lastConn: Option<nat>, binds: nat, waiting: Option<Frame>)

  /** Server to client: all that ever entered the send queue, how much the write loop took, how much the client
      handled. */
  datatype Down = Down(sent: seq<Msg>, written: nat, dispatched: nat)

  /** Client to server: all that ever entered the send queue, how much the server handled. */
  datatype Up = Up(sent: seq<Frame>, handled: nat)

  /** The recovery queue, and history: `log` is every frame sent down whose sender does not wait, in order; `kept` what
      the queue accepted since it was last emptied; `since` where in the log the last disconnection began; the frames a
      dead connection rejected; those given up because their sender's context ended; those an overflow or their type
      kept out of the queue. */
  datatype Recovery = Recovery(queue: Queue, log: seq<Msg>, kept: seq<Msg>, since: nat, rejected: set<nat>,
    abandoned: set<nat>, lost: set<nat>)

  /** A client-initiated stream at the server, and the connection whose endpoint it sends through. */
  datatype ServerFlow = ServerFlow(ep: nat, end: Option<Ending>)

  /** The stream tables of the server's endpoints, one per connection, and every accepted stream; the numbers of all
      requests and subscriptions the server has handled, and of those it refused. */
  datatype Streams = Streams(tables: seq<set<u32>>, flows: map<u32, ServerFlow>, heard: set<u32>, refused: set<u32>)

  /** The same stream at the client, with the data frames delivered to it; `byPeer`: the read loop ended it; `home` and
      `pos` say where its opening frame was queued. Of its reader: `taken` frames have left the buffer, `seen` are those
      the application was given, `over`: a read has reported the end. */
  datatype ClientFlow = ClientFlow(
    ep: nat, end: Option<Ending>, byPeer: bool, got: seq<Msg>, home: nat, pos: nat, taken: nat, seen: seq<Msg>,
      over: bool)

  /** A connection's client transport: adopted once bindSession ran on it; dead also when the attempt was given up. */
  datatype ClientEnd = ClientEnd(adopted: bool, dead: bool)

  /** The client's connections in dial order, the adopted one, all its streams and the table of the current endpoint;
      `hand` is a data frame whose stream the read loop has looked up but not delivered to yet; `drawn` counts the
      numbers allocated. */
  datatype Client = Client(
    ends: seq<ClientEnd>, cur: Option<nat>, flows: map<u32, ClientFlow>, table: set<u32>, hand: Option<Msg>, drawn: nat)

  datatype State = State(srv: Server, downs: seq<Down>, ups: seq<Up>, rec: Recovery, streams: Streams, cli: Client)

  const START := State(
    Server([], None, None, 0, None), [], [], Recovery(EMPTY_QUEUE, [], [], 0, {}, {}, {}),
    Streams([], map[], {}, {}), Client([], None, map[], {}, None, 0))

  /** Every per-connection list has one entry per connection. */
  predicate Shaped(st: State) {
    |st.srv.links| == |st.downs| == |st.ups| == |st.streams.tables| == |st.cli.ends|
  }

  // ---- the steps ----------------------------------------------------------------------------

  datatype Step =
    // the client
    | Dial                                      // connectLoop opens the next connection
    | Adopt                                     // bindSession with resumed == true
    | CliDie(c: nat)                            // the client's transport dies, or the handshake is given up
    | Draw                                      // a number is allocated for a ONEWAY, a PUBLISH or a frame never sent
    | OpenStream(f: Frame)                      // allocate a number, register, queue the REQUEST or SUBSCRIBE
    | CliSend(f: Frame)                         // any later frame of a stream
    | CliFinish(sid: u32, end: Ending)          // a local end: Cancel, Close, a fired context
    | Lookup                                    // handleFrame of a data frame has found its stream
    | CliDispatch(late: bool)                   // handleFrame of the next frame, or its rest after a Lookup;
                                                // late: the buffer is picked though the stream has ended
    | Read(sid: u32, arm: Flows.Arm)            // the application reads, with the case its select picks
    // the server
    | Bind(c: nat, replay: seq<Msg>, queued: seq<Msg>)  // bind; queued: what the connection's queue has taken
    | StartLoops(c: nat)
    | SrvDie(c: nat)
    | Unbind(c: nat)
    | SendDown(f: Frame, ended: bool)           // sendDown, by a sender whose context may have ended
    | Settle(why: Wake)                         // a sender that waits for room is released
    | Direct(f: Frame)                          // CREDIT, CANCEL and the like, straight to the connection
    | WriteOut(c: nat)
    | SrvDispatch(c: nat, accept: bool)         // handleFrame of the next frame; accept: route and mode fit
    | SrvFinish(sid: u32, end: Ending)          // a handler finishes its stream
    | Terminate

  /** What releases a waiting sender: a free slot, the connection's death, or the end of its own context. */
  datatype Wake = Slot | Death | Ended

  predicate IsData(f: Frame) {
    f.ty == RESPONSE || f.ty == PUBLISH
  }

  predicate IsOpening(f: Frame) {
    f.ty == REQUEST || f.ty == SUBSCRIBE
  }

  // -- the server's connections

  function SetLink(s: Server, c: nat, k: Link): Server
    requires c < |s.links|
  {
    s.(links := s.links[c := k])
  }

  /** Takeover, then the new connection becomes the bound one; it may die while the replay is queued. */
  function BindLink(s: Server, c: nat, dies: bool): Server
    requires c < |s.links|
  {
    var links := if s.conn.Some? && s.conn.value < |s.links| && s.conn.value != c
                 then s.links[s.conn.value := s.links[s.conn.value].(dead := true)] else s.links;
    Server(links[c := Link(Some(s.binds), s.links[c].started, s.links[c].dead || dies)], Some(c), Some(c),
      s.binds + 1, s.waiting)
  }

  /** The bound connection, if the server still believes it alive. */
  predicate Live(s: Server) {
    s.conn.Some? && s.conn.value < |s.links| && !s.links[s.conn.value].dead
  }

  /** The connection whose endpoint holds the session's streams. */
  function Source(s: Server): Option<nat> {
    if s.conn.Some? then s.conn else s.lastConn
  }

  // -- downward

  function Enqueue(downs: seq<Down>, c: nat, ms: seq<Msg>): seq<Down>
    requires c < |downs|
  {
    downs[c := downs[c].(sent := downs[c].sent + ms)]
  }

  /** A free slot in the send queue; a sender without one waits, or is refused when the connection dies. */
  predicate HasRoom(d: Down) {
    |d.sent| - d.written < SEND_QUEUE
  }

  function Uids(ms: seq<Msg>): set<nat> {
    set m | m in ms :: m.uid
  }

  function Logged(r: Recovery, f: Frame): Recovery {
    r.(log := r.log + [Msg(|r.log|, f)])
  }

  /** sendDown without a connection, with its history. */
  function KeepBack(r: Recovery, f: Frame, limit: int): Recovery {
    var m := Msg(|r.log|, f);
    var q := Retain(r.queue, m, limit);
    Logged(r, f).(
      queue := q, kept := Accept(r.queue, r.kept, m, limit),
      lost := r.lost + if q.overflowed then Uids(r.kept) + {m.uid} else if Retainable(f.ty) then {} else {m.uid})
  }

  // -- streams

  predicate Unfinished(flows: map<u32, ServerFlow>, sid: u32) {
    sid in flows && flows[sid].end.None?
  }

  predicate Pending(flows: map<u32, ClientFlow>, sid: u32) {
    sid in flows && flows[sid].end.None?
  }

  /** finish at the server: terminal states do not change, and the stream's current endpoint forgets it. */
  function EndServer(s: Streams, sid: u32, end: Ending): Streams {
    if !Unfinished(s.flows, sid) || s.flows[sid].ep >= |s.tables| then s
    else
      var e := s.flows[sid].ep;
      s.(flows := s.flows[sid := s.flows[sid].(end := Some(end))], tables := s.tables[e := s.tables[e] - {sid}])
  }

  function EndClient(c: Client, sid: u32, end: Ending, byPeer: bool): Client {
    if !Pending(c.flows, sid) then c
    else c.(flows := c.flows[sid := c.flows[sid].(end := Some(end), byPeer := byPeer)], table := c.table - {sid})
  }

  function Give(c: Client, m: Msg): Client
    requires m.frame.sid in c.flows
  {
    c.(flows := c.flows[m.frame.sid := c.flows[m.frame.sid].(got := c.flows[m.frame.sid].got + [m])])
  }

  /** The streams bind moves and terminate fails: at the source endpoint, client-initiated, unfinished. */
  function Surviving(s: Streams, src: Option<nat>): set<u32> {
    if src.Some? && src.value < |s.tables| then set sid | sid in s.tables[src.value] && sid % 2 == 1
      && Unfinished(s.flows, sid) else {}
  }

  function Migrate(s: Streams, src: Option<nat>, c: nat): Streams
    requires c < |s.tables|
  {
    var moving := Surviving(s, src);
    s.(flows := map sid | sid in s.flows :: if sid in moving then s.flows[sid].(ep := c) else s.flows[sid],
       tables := s.tables[c := s.tables[c] + moving])
  }

  function FailSurviving(s: Streams, src: Option<nat>): Streams {
    var left := Surviving(s, src);
    s.(flows := map sid | sid in s.flows :: if sid in left then s.flows[sid].(end := Some(Some(SessionExpired)))
      else s.flows[sid],
       tables := if src.Some? && src.value < |s.tables| then s.tables[src.value := s.tables[src.value] - left]
         else s.tables)
  }

  /** handleFrame at the server's endpoint c. */
  function Hear(s: Streams, c: nat, f: Frame, accept: bool): Streams
    requires c < |s.tables|
  {
    if f.ty == REQUEST then
      if accept
        then s.(heard := s.heard + {f.sid}, flows := s.flows[f.sid := ServerFlow(c, None)],
          tables := s.tables[c := s.tables[c] + {f.sid}])
      else s.(heard := s.heard + {f.sid}, refused := s.refused + {f.sid})
    else if f.ty == SUBSCRIBE then s.(heard := s.heard + {f.sid})
    else if f.sid !in s.tables[c] then s
    else if f.ty == COMPLETE then EndServer(s, f.sid, None)
    else if f.ty == ERROR then EndServer(s, f.sid, Some(Internal))
    else if f.ty == CANCEL then EndServer(s, f.sid, Some(Cancelled))
    else s
  }

  /** handleFrame at the client's current endpoint, without an interruption between lookup and effect. */
  function Receive(c: Client, m: Msg): Client {
    var sid := m.frame.sid;
    if sid !in c.table || sid !in c.flows then c
    else if IsData(m.frame) then Give(c, m)
    else if m.frame.ty == COMPLETE then EndClient(c, sid, None, true)
    else if m.frame.ty == ERROR then EndClient(c, sid, Some(Internal), true)
    else if m.frame.ty == CANCEL then EndClient(c, sid, Some(Cancelled), true)
    else c
  }

  /** The delivery of a frame in hand: certain to a pending stream; to one that ended meanwhile only if its select picks
      the buffer. */
  function Release(c: Client, m: Msg, late: bool): Client {
    var d := c.(hand := None);
    if m.frame.sid in c.flows && (late || c.flows[m.frame.sid].end.None?) then Give(d, m) else d
  }

  function Handle(c: Client, m: Msg, late: bool): Client {
    if c.hand.Some? then Release(c, c.hand.value, late) else Receive(c, m)
  }

  /** bindSession with resumed == true: the unfinished streams move to the new endpoint. */
  function AdoptStreams(cl: Client, c: nat): Client
    requires c < |cl.ends|
  {
    Client(cl.ends[c := cl.ends[c].(adopted := true)], Some(c),
           map sid | sid in cl.flows :: if sid in cl.table && cl.flows[sid].end.None? then cl.flows[sid].(ep := c)
             else cl.flows[sid],
           (set sid | sid in cl.table && Pending(cl.flows, sid)), None, cl.drawn)
  }

  /** A new stream, registered at the current endpoint before its opening frame is queued. */
  function Opened(cl: Client, sid: u32, c: nat, pos: nat): Client {
    cl.(flows := cl.flows[sid := ClientFlow(c, None, false, [], c, pos, 0, [], false)], table := cl.table + {sid},
      drawn := cl.drawn + 1)
  }

  function CliQueue(ups: seq<Up>, c: nat, f: Frame): seq<Up>
    requires c < |ups|
  {
    ups[c := ups[c].(sent := ups[c].sent + [f])]
  }

  /** Frames numbered one after the other. */
  ghost predicate NumberedFrom(ms: seq<Msg>, uid: nat) {
    forall i :: 0 <= i < |ms| ==> ms[i].uid == uid + i
  }

  /** What the queue of a connection can have taken when its bind is over: a beginning of the replay, interleaved with
      frames that others sent meanwhile straight to the connection. bind holds the session's lock, so those came neither
      through sendDown nor from a server-initiated request, which looks the bound connection up under that lock; but the
      streams were already moved, and a CREDIT of a release or a CANCEL needs no lock. Nothing is drained yet. */
  ghost predicate BindQueues(r: Recovery, dead: bool, replay: seq<Msg>, queued: seq<Msg>) {
    && IsReplay(replay, r.queue)
    && Keepable(queued) <= replay
    && NumberedFrom(Passing(queued), |r.log|)
    && (forall m :: m in Passing(queued) ==> m.frame.ty in {CREDIT, CANCEL})
    && |queued| <= SEND_QUEUE
    && (dead ==> queued == [])
  }

  /** The recovery queue after a bind: emptied, with the part of the replay that the connection did not live to take
      rejected. */
  function AfterBind(r: Recovery, replay: seq<Msg>, queued: seq<Msg>): Recovery {
    var n := |Keepable(queued)|;
    r.(queue := Queue(map[], 0, r.queue.overflowed), kept := [], log := r.log + Passing(queued),
       rejected := if n <= |replay| then r.rejected + Uids(replay[n..]) else r.rejected)
  }

  /** The frame the client's read loop handles next. */
  predicate HasNext(st: State) {
    && ClientLive(st.cli) && st.cli.cur.value < |st.downs|
    && var d := st.downs[st.cli.cur.value]; d.dispatched < d.written <= |d.sent|
  }

  function NextDown(st: State): Msg
    requires HasNext(st)
  {
    var d := st.downs[st.cli.cur.value];
    d.sent[d.dispatched]
  }

  // -- sendDown

  /** The session's lock is not held by a sender that waits for room. */
  predicate Unlocked(s: Server) {
    s.waiting.None?
  }

  predicate BoundHasRoom(st: State) {
    st.srv.conn.Some? && st.srv.conn.value < |st.downs| && HasRoom(st.downs[st.srv.conn.value])
  }

  /** A frame enters the queue of the bound connection. */
  function EnterQueue(st: State, f: Frame): State
    requires st.srv.conn.Some? && st.srv.conn.value < |st.downs|
  {
    st.(downs := Enqueue(st.downs, st.srv.conn.value, [Msg(|st.rec.log|, f)]), rec := Logged(st.rec, f))
  }

  function Reject(st: State, f: Frame): State {
    st.(rec := Logged(st.rec, f).(rejected := st.rec.rejected + {|st.rec.log|}))
  }

  function Abandon(st: State, f: Frame): State {
    st.(rec := Logged(st.rec, f).(abandoned := st.rec.abandoned + {|st.rec.log|}))
  }

  /** sendDown: unbound, the frame goes to the recovery queue whatever the context; bound, an ended context is noticed
      first, then a dead connection; a full queue makes the sender wait, lock in hand. */
  function Send(st: State, f: Frame, ended: bool, limit: int): State {
    if st.srv.conn.None? then st.(rec := KeepBack(st.rec, f, limit))
    else if ended then Abandon(st, f)
    else if !Live(st.srv) then Reject(st, f)
    else if BoundHasRoom(st) then EnterQueue(st, f)
    else st.(srv := st.srv.(waiting := Some(f)))
  }

  function ReleaseSender(st: State, f: Frame, why: Wake): State
    requires st.srv.conn.Some? && st.srv.conn.value < |st.downs|
  {
    var t := st.(srv := st.srv.(waiting := None));
    match why
    case Slot => EnterQueue(t, f)
    case Death => Reject(t, f)
    case Ended => Abandon(t, f)
  }

  // -- reading

  predicate Broken(fl: ClientFlow) {
    fl.end.Some? && fl.end.value.Some?
  }

  /** A case of the reader's select is ready. An ended context is a local end of the stream, or no step at all. */
  predicate CanRead(fl: ClientFlow, arm: Flows.Arm) {
    match arm
    case FrameArm => fl.taken < |fl.got|
    case DoneArm => fl.end.Some?
    case CtxArm => false
  }

  /** One read: an error discards the frame or ends the drain; otherwise a buffered frame comes before the end. */
  function ReadOnce(fl: ClientFlow, arm: Flows.Arm): ClientFlow {
    var buffered := fl.taken < |fl.got|;
    if arm == Flows.FrameArm && buffered && Broken(fl) then fl.(taken := fl.taken + 1, over := true)
    else if buffered && !Broken(fl) then fl.(taken := fl.taken + 1, seen := fl.seen + [fl.got[fl.taken]])
    else fl.(over := true)
  }

  // -- guards and effects

  predicate ClientLive(cl: Client) {
    cl.cur.Some? && cl.cur.value < |cl.ends| && !cl.ends[cl.cur.value].dead
  }

  ghost predicate Enabled(st: State, s: Step) {
    Shaped(st) &&
    match s
    case Dial => st.cli.ends == [] || st.cli.ends[|st.cli.ends| - 1].dead
    case Adopt =>
      var c := |st.cli.ends| - 1;
      c >= 0 && st.srv.links[c].rank.Some? && !st.cli.ends[c].adopted && !st.cli.ends[c].dead
    case CliDie(c) => c < |st.cli.ends|
    case Draw => st.cli.drawn < Ids.HALF
    case OpenStream(f) => ClientLive(st.cli) && st.cli.drawn < Ids.HALF && f.sid == Ids.Nth(true, st.cli.drawn)
      && IsOpening(f)
    case CliSend(f) =>
      && f.sid in st.cli.flows && !IsOpening(f)
      && var e := st.cli.flows[f.sid].ep; e < |st.cli.ends| && !st.cli.ends[e].dead
    case CliFinish(_, _) => true
    case Lookup => HasNext(st) && st.cli.hand.None? && IsData(NextDown(st).frame)
      && NextDown(st).frame.sid in st.cli.table
    case CliDispatch(_) => HasNext(st)
    case Read(sid, arm) => sid in st.cli.flows && CanRead(st.cli.flows[sid], arm)
    case Bind(c, replay, queued) =>
      && Unlocked(st.srv) && c < |st.srv.links| && st.srv.links[c].rank.None?
      && BindQueues(st.rec, st.srv.links[c].dead, replay, queued)
    case StartLoops(c) => c < |st.srv.links| && st.srv.links[c].rank.Some?
    case SrvDie(c) => c < |st.srv.links|
    case Unbind(c) => Unlocked(st.srv) && c < |st.srv.links| && st.srv.links[c].dead
    case SendDown(f, _) => Unlocked(st.srv) && (IsData(f) && f.sid % 2 == 1 ==> f.sid in st.streams.heard)
    case Settle(why) =>
      && st.srv.waiting.Some? && st.srv.conn.Some? && st.srv.conn.value < |st.downs|
      && (why == Slot ==> BoundHasRoom(st)) && (why == Death ==> !Live(st.srv))
    case Direct(f) => !Retainable(f.ty) && Live(st.srv) && BoundHasRoom(st)
    case WriteOut(c) => c < |st.downs| && st.srv.links[c].started && st.downs[c].written < |st.downs[c].sent|
    case SrvDispatch(c, _) =>
      c < |st.ups| && st.srv.links[c].started && !st.srv.links[c].dead && st.ups[c].handled < |st.ups[c].sent|
    case SrvFinish(_, _) => true
    case Terminate => Unlocked(st.srv)
  }

  ghost function Next(st: State, s: Step, limit: int): State
    requires Enabled(st, s)
  {
    match s
    case Dial =>
      State(st.srv.(links := st.srv.links + [Link(None, false, false)]), st.downs + [Down([], 0, 0)],
        st.ups + [Up([], 0)], st.rec,
            st.streams.(tables := st.streams.tables + [{}]), st.cli.(ends := st.cli.ends + [ClientEnd(false, false)]))
    case Adopt => st.(cli := AdoptStreams(st.cli, |st.cli.ends| - 1))
    case CliDie(c) => st.(cli := st.cli.(ends := st.cli.ends[c := st.cli.ends[c].(dead := true)]))
    case Draw => st.(cli := st.cli.(drawn := st.cli.drawn + 1))
    case OpenStream(f) =>
      var c := st.cli.cur.value;
      st.(ups := CliQueue(st.ups, c, f), cli := Opened(st.cli, f.sid, c, |st.ups[c].sent|))
    case CliSend(f) => st.(ups := CliQueue(st.ups, st.cli.flows[f.sid].ep, f))
    case CliFinish(sid, end) => st.(cli := EndClient(st.cli, sid, end, false))
    case Lookup => st.(cli := st.cli.(hand := Some(NextDown(st))))
    case CliDispatch(late) =>
      var c := st.cli.cur.value;
      var d := st.downs[c];
      st.(downs := st.downs[c := d.(dispatched := d.dispatched + 1)], cli := Handle(st.cli, d.sent[d.dispatched], late))
    case Read(sid, arm) =>
      st.(cli := st.cli.(flows := st.cli.flows[sid := ReadOnce(st.cli.flows[sid], arm)]))
    case Bind(c, replay, queued) =>
      State(BindLink(st.srv, c, |Keepable(queued)| < |replay|), Enqueue(st.downs, c, queued), st.ups,
            AfterBind(st.rec, replay, queued), Migrate(st.streams, Source(st.srv), c), st.cli)
    case StartLoops(c) => st.(srv := SetLink(st.srv, c, st.srv.links[c].(started := true)))
    case SrvDie(c) => st.(srv := SetLink(st.srv, c, st.srv.links[c].(dead := true)))
    case Unbind(c) => if st.srv.conn == Some(c)
      then st.(srv := st.srv.(conn := None), rec := st.rec.(since := |st.rec.log|)) else st
    case SendDown(f, ended) => Send(st, f, ended, limit)
    case Settle(why) => ReleaseSender(st, st.srv.waiting.value, why)
    case Direct(f) => EnterQueue(st, f)
    case WriteOut(c) => st.(downs := st.downs[c := st.downs[c].(written := st.downs[c].written + 1)])
    case SrvDispatch(c, accept) =>
      var u := st.ups[c];
      st.(ups := st.ups[c := u.(handled := u.handled + 1)], streams := Hear(st.streams, c, u.sent[u.handled], accept))
    case SrvFinish(sid, end) => st.(streams := EndServer(st.streams, sid, end))
    case Terminate => st.(streams := FailSurviving(st.streams, Source(st.srv)))
  }

  ghost predicate Runnable(st: State, run: seq<Step>, limit: int)
    decreases |run|
  {
    run == [] || (Enabled(st, run[0]) && Runnable(Next(st, run[0], limit), run[1..], limit))
  }

  ghost function Run(st: State, run: seq<Step>, limit: int): State
    requires Runnable(st, run, limit)
    decreases |run|
  {
    if run == [] then st else Run(Next(st, run[0], limit), run[1..], limit)
  }

  lemma {:induction false} RunSnoc(st: State, run: seq<Step>, s: Step, limit: int)
    requires Runnable(st, run, limit) && Enabled(Run(st, run, limit), s)
    ensures Runnable(st, run + [s], limit) && Run(st, run + [s], limit) == Next(Run(st, run, limit), s, limit)
    decreases |run|
  {
    if run == [] {
      assert [s][1..] == [] && Runnable(Next(st, s, limit), [], limit);
    } else {
      RunSnoc(Next(st, run[0], limit), run[1..], s, limit);
      assert (run + [s])[1..] == run[1..] + [s];
    }
  }

  ghost predicate Reachable(st: State, limit: int) {
    exists run :: Runnable(START, run, limit) && Run(START, run, limit) == st
  }

  lemma {:induction false} ReachNext(st: State, s: Step, limit: int)
    requires Reachable(st, limit) && Enabled(st, s)
    ensures Reachable(Next(st, s, limit), limit)
  {
    var run :| Runnable(START, run, limit) && Run(START, run, limit) == st;
    RunSnoc(START, run, s, limit);
  }

  lemma {:induction false} ReachStart(limit: int)
    ensures Reachable(START, limit)
  {
    assert Runnable(START, [], limit) && Run(START, [], limit) == START;
  }

  predicate ClientActs(s: Step) {
    || s.Dial? || s.Adopt? || s.CliDie? || s.Draw? || s.OpenStream? || s.CliFinish? || s.Lookup? || s.CliDispatch?
    || s.Read?
  }

  /** The steps that put a frame through sendDown or give one up. */
  predicate Sends(s: Step) {
    s.SendDown? || s.Settle?
  }

  // ---- which step touches what -------------------------------------------------------------

  lemma {:induction false} ServerFraming(st: State, s: Step, limit: int)
    requires Enabled(st, s)
    ensures !(s.Dial? || s.Bind? || s.StartLoops? || s.SrvDie? || s.Unbind? || Sends(s)) ==>
      Next(st, s, limit).srv == st.srv
    ensures Sends(s) ==> Next(st, s, limit).srv == st.srv.(waiting := Next(st, s, limit).srv.waiting)
    ensures !(s.Dial? || s.Bind? || Sends(s) || s.Direct? || s.WriteOut? || s.CliDispatch?) ==>
      Next(st, s, limit).downs == st.downs
    ensures !(s.Bind? || s.Unbind? || Sends(s) || s.Direct?) ==> Next(st, s, limit).rec == st.rec
  {
  }

  lemma {:induction false} StreamFraming(st: State, s: Step, limit: int)
    requires Enabled(st, s)
    ensures !(s.Dial? || s.OpenStream? || s.CliSend? || s.SrvDispatch?) ==> Next(st, s, limit).ups == st.ups
    ensures !(s.Dial? || s.Bind? || s.SrvDispatch? || s.SrvFinish? || s.Terminate?) ==>
      Next(st, s, limit).streams == st.streams
    ensures !ClientActs(s) ==> Next(st, s, limit).cli == st.cli
  {
  }

  lemma {:induction false} StaysShaped(st: State, s: Step, limit: int)
    requires Enabled(st, s)
    ensures Shaped(Next(st, s, limit))
  {
  }

  lemma {:induction false} Framing(st: State, s: Step, limit: int)
    requires Enabled(st, s)
    ensures Shaped(Next(st, s, limit))
    ensures !(s.Dial? || s.Bind? || s.StartLoops? || s.SrvDie? || s.Unbind? || Sends(s)) ==>
      Next(st, s, limit).srv == st.srv
    ensures Sends(s) ==> Next(st, s, limit).srv == st.srv.(waiting := Next(st, s, limit).srv.waiting)
    ensures !(s.Dial? || s.Bind? || Sends(s) || s.Direct? || s.WriteOut? || s.CliDispatch?) ==>
      Next(st, s, limit).downs == st.downs
    ensures !(s.Dial? || s.OpenStream? || s.CliSend? || s.SrvDispatch?) ==> Next(st, s, limit).ups == st.ups
    ensures !(s.Bind? || s.Unbind? || Sends(s) || s.Direct?) ==> Next(st, s, limit).rec == st.rec
    ensures !(s.Dial? || s.Bind? || s.SrvDispatch? || s.SrvFinish? || s.Terminate?) ==>
      Next(st, s, limit).streams == st.streams
    ensures !ClientActs(s) ==> Next(st, s, limit).cli == st.cli
  {
    ServerFraming(st, s, limit);
    StreamFraming(st, s, limit);
    StaysShaped(st, s, limit);
  }
}
