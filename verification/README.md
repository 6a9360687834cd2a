# JsonStream in Dafny

JsonStream multiplexes requests, streams, channels and subscriptions over one TCP connection. A session
survives the connections that carry it: what the server sends while the client is away is retained and
replayed, and unfinished streams move to the next connection. Emitting is limited by a credit window, and
frames travel in a binary format with optional compression and encryption. This project models that logic
in Dafny and proves what it promises, or the exact condition under which the code keeps the promise.

## The model

Bottom up, one module per file:

- `Wire` (frame.go): the frame format, `appendTo` and `ReadFrame`, and streams of many frames.
- `Transform`, `Handshake`, `Link` (transform.go, handshake.go, transport.go): the payload pipeline over
  abstract codecs with inverse laws, negotiation, and one direction of a connection as the peer's handlers
  see it.
- `Flows` (flow.go): one stream's buffer, terminal state and credit bookkeeping, and its reader under every
  choice of every select.
- `Credit`, `Ledger` (credit.go, flow.go, endpoint.go): the sender's gate as an object and as a world of
  interleaved takers and signallers; then the full credit circuit of one direction.
- `Ids` (endpoint.go, client.go): stream numbers across uint32 wrap and reconnects.
- `Retention` (server.go): the recovery queue as the list of what it accepted.
- `Endpoints`, `Sessions`, `Clients` (endpoint.go, flow.go, transport.go, server.go, client.go): the objects
  that the source updates in place, as classes; each method is proved against the functions of `Flows`,
  `Retention`, `Credit` and `Ids`, about which the lemmas speak.
- `Resume` and its nine companions: a state machine of one client, one server session and every connection
  they ever have. Each critical section under the session's or the client's lock is one step; a sender that
  waits for room keeps the session's lock until it is released. What takes no lock may come between: frames
  sent straight to a connection while bind replays into it, and a local end between the read loop's lookup of
  a stream and its delivery. Deaths, ended contexts, lateness, the choices of selects and handler behaviour
  are up to the environment. Layers of invariants lead to the end-to-end theorems: `ResumeServer` (one live
  connection, exact accounts), `ResumeOrder` (queues in order), `ResumeFate` (one fate per frame),
  `ResumeLoss` (how far delivery is guaranteed), `ResumeStreams` (no orphans, endings), `ResumeContinuity`
  (what the client is given), `ResumeReading` (what its application reads), `ResumeEndings` (what each frame
  and each end does to its stream, and an answer from the queue to the application). `ResumeRuns` holds a run
  in which an answer survives a reconnect, and those in which less happens than one might expect.

Frames are passed by pointer in the source; `Msg.uid` is that identity, numbered in the order of emission.
`Nat`-valued fields stand for Go `int` counters that never approach their width; stream numbers are the only
arithmetic that wraps, and they wrap here too. The retention limit may be any integer, as in the source.

Assumptions taken from how the parts are meant to be composed: a connection that is dead at one end
dispatches no further inbound frame there, so a frame its read loop had in hand is given up when the next
connection is adopted; and a migration of stream tables is one step. A client draws at most 2^31 stream
numbers; that those of fresh and surviving streams differ is then proved (`ResumeStreams.NumbersStayFresh`).
Frames that a server sends without going through sendDown are never of a retained type: CREDIT, CANCEL,
PONG, REQUEST and ONEWAY; while bind holds the session's lock only CREDIT and CANCEL are possible, since a
server-initiated request looks the bound connection up under that lock and no loop runs yet.

## What was found

Where code and documentation differ, the model follows the code.

- docs/protocol.md section 8.3 calls resume at-least-once. It is at most once: no frame is ever queued twice
  (`ResumeFate.AtMostOnce`). And it is at-least-once only under a condition. As its sender takes the session's
  lock, a frame goes nowhere, neither queued nor kept, if and only if the session is bound and the sender's
  context has ended or the connection is dead but not yet unbound (server.go:421-423), or the session is
  unbound and the frame is of no kept type, the session has overflowed, or the frame does not fit
  (`ResumeLoss.SendDownOutcome`; `ResumeRuns.AnswerRefused` is a run that loses an answer for good). A sender
  that finds the queue of a live connection full waits with the lock in hand, so no unbind comes first: if the
  connection dies or the context ends meanwhile, the frame goes nowhere (`ResumeLoss.WaitOutcome`). A frame
  that was kept reaches the next connection's queue if and only if the session does not overflow meanwhile and
  that connection lives until the frame's turn (`ResumeLoss.KeptReachesQueueIff`).
  `ResumeContinuity.NothingElseMissing` lists every way a frame can be absent.
- Section 8.2 has the replay precede everything else on a new connection. It precedes every later frame that
  comes through the session (`ResumeFate.ReplayLedger`) and every server-initiated request
  (`ResumeFate.RequestsFollowReplay`), but a CREDIT or CANCEL of a stream already moved takes no lock and can
  stand before a replayed frame (`ResumeRuns.CreditOvertakesReplay`). The queue begins with the whole replay if
  and only if none got in before the last replayed frame (`ResumeFate.BeginsWithReplayIff`).
- bind queues the replay into a 256-slot queue whose write loop has not started, holding the session's lock.
  A live resume is possible if and only if the retained frames and those that come in between are at most 256
  together (`ResumeFate.LiveResumeIff`, `Sessions.ServerSession.Replay`); beyond that the session is stuck
  until that connection dies.
- The gate's single wake-up token loses wake-ups if and only if two or more goroutines take at once
  (`Credit.NoLostWakeupIff`). A taker that missed its wake-up sleeps on until a close, its own context's end or,
  while the gate is open, the next add (`Credit.SleepsUntilSignalled`); a gate is closed only once, so of two
  takers parked when the connection dies one sleeps until its own context ends, whatever is granted
  (`Credit.CloseStrandsSecondTaker`).
- Grants are batched at half a window per stream and leftovers are never flushed. A sender can starve for good
  if and only if k * (max(1, W/2) - 1) >= W for k credit-bearing streams (`Ledger.StarvationIff`).
- PUBLISH deliveries, replays and migrated emitters are granted for without having paid; each such frame
  widens the memory bound by one (`Ledger.WindowBound`), and the widened bound is attained for every window
  and every number of them (`Ledger.BoundAttained`).
- deliver's select may choose the buffer of a stream that a concurrent local end has just finished. A reported
  end is therefore final when the peer ended the stream (`Flows.ReaderSeesDelivered`), but not after a local
  Close (`Flows.StragglerAfterEnd`).
- A handler panic is answered with ERROR but leaves its stream registered and unfinished
  (`Endpoints.Endpoint.RunRequest`).
- A REQUEST lost with its connection leaves a migrated client stream the server has never heard of; its later
  frames find nothing (`ResumeStreams.RegistrationPrecedesTraffic`; `ResumeRuns.LostRequestLeavesOrphan` is a
  run to such a frame).
- The sender compresses payloads beyond 16 MiB that the receiver's inflation cap rejects
  (`Transform.PipelineInverse`).
- If writing CONNACK fails after bind, the session stays bound to a connection whose loops never start
  (server.go:319-325). Its queue fills up, and the next sender waits with the session's lock in hand: from
  there on the session cannot be sent to, bound, unbound or terminated (`ResumeRuns.UnstartedConnectionJams`,
  `ResumeLoss.LockHeld`).

## Model

| member | source | states |
|---|---|---|
| Wire.AppendTo | frame.go:133-158 | Appends exactly the encoding of a frame that fits; otherwise names the field that is too long, metadata first, and leaves the buffer as it was. |
| Wire.Layout | frame.go:133-158 | Byte by byte: magic, version, each flag bit, type, the reserved byte, big-endian stream number and payload length, then metadata behind its length if flagged or present, and the payload. |
| Wire.Reader.ReadFull | frame.go:168-210 | Yields exactly n bytes, or consumes what is left and fails. |
| Wire.Reader.ReadFrame | frame.go:168-214 | The step-by-step reader computes the parsing function, unread bytes included. |
| Wire.FirstFault | frame.go:168-214 | Which fault a fixed header shows first, by its bytes: short, magic, version, reserved flags, oversize; behind a sound header only shortness is left. |
| Wire.FlagByteInverse | frame.go:101-107 | Flags survive the trip through the flag byte. |
| Wire.ByteFlagsInverse | frame.go:101-107 | Every flag byte is the encoding of the flags it decodes to. |
| Wire.ParseEncode | frame.go:133-214 | A frame that can be encoded reads back as itself, whatever follows it; it is refused exactly when its version or a reserved flag is wrong. |
| Wire.EncodeParse | frame.go:168-214 | Every byte string the reader accepts is the encoding of what it returned, the reserved byte aside. |
| Wire.PrefixFree | frame.go:133-214 | No proper prefix of a legal frame's encoding reads as a frame. |
| Wire.StreamRoundTrip | frame.go:133-214 | Any list of legal frames, concatenated and followed by anything, reads back as that list and then as the rest. |
| Wire.UniquelyDecodable | frame.go:133-214 | Nothing is left over after the last frame; equal byte streams come from equal frame lists and only from those. |
| Wire.CutStreamYieldsPrefix | transport.go:175-203 | A byte stream cut anywhere yields exactly the frames it completes. |
| Transform.NewTransformer | transform.go:48-65 | A transformer exists unless encryption is asked for without a 32-byte key. |
| Transform.Outbound | transform.go:68-96 | Compress exactly from 64 bytes with compression on, then encrypt exactly with encryption on, and report which was done. |
| Transform.Inbound | transform.go:99-137 | Undoes the flags in reverse order: each of the six failures exactly under its own condition, in order, the 16 MiB inflation cap included; otherwise the payload. |
| Transform.PipelineInverse | transform.go:68-137 | A payload comes back unchanged if and only if it is not a compressed one beyond 16 MiB, and then the fault is that cap. |
| Transform.Overhead | transform.go:68-96 | Encryption costs 28 bytes; without compression nothing else changes the size. |
| Handshake.EffectiveConnack | handshake.go:51-65 | Credit is in force if and only if both sides want it, at the smaller of the two windows. |
| Handshake.Admit | server.go:230-287 | A connection is established if and only if the first frame is a CONNECT that decodes, of version 1, auth passes, and a server that encrypts meets a client that does with a 32-byte key; each refusal with its code, in order; and what is established. |
| Handshake.Negotiated | server.go:230-287 | Two usable configurations connect if and only if the server's encryption demand and auth are met; then both ends build transformers that agree, and are equal exactly when the keys are. |
| Handshake.CreditSymmetric | handshake.go:51-65 | Swapping the roles of the two sides leaves the window as it is. |
| Link.EncodeFrame | transport.go:166-173 | Appends the encoding of the transformed frame with merged flags, or nothing if it does not fit. |
| Link.ReadLoop | transport.go:175-203 | Dispatches every readable frame in order except heartbeats, answers each PING, stops at the first bad or fatal frame. |
| Link.HearIs | transport.go:175-203 | Frame by frame: the loop looks at all frames up to the first it cannot transform back or that is fatal, answers exactly the PINGs among them, skips the PONGs, and dispatches every other one it can transform back, in order, with that payload. |
| Link.TakeTurn | transport.go:178-201 | One turn of the loop, and the rest of the bytes, together make what the whole of the bytes makes; each turn but the last consumes input. |
| Link.HearMeant | transport.go:166-203 | What is dispatched is message by message what was queued, up to a fatal frame. |
| Link.MatchedTransparent | transport.go:166-203 | Over matched transformers the peer's handlers see, in order and unchanged, the queued frames that were completely written, wherever the connection was cut. |
| Link.WholeQueueArrives | transport.go:166-203 | An uncut connection without heartbeats or fatal frames delivers the whole queue, frame by frame, and nothing else. |
| Link.LinkTransparent | client.go:328-340 | After any successful handshake both directions are transparent, unless an encrypted link was given two keys. |
| Credit.CreditGate.Add | credit.go:22-36 | Adds a positive grant and posts a token unless closed; ignores other grants. |
| Credit.CreditGate.Close | credit.go:63-74 | Closes the gate and leaves a token for the waiter. |
| Credit.CreditGate.Take | credit.go:39-61 | The retry loop computes the outcome, the gate left behind, its token included, and the events it waited for; an ended context may win over a token. |
| Credit.LoneTakerSucceedsIff | credit.go:39-61 | A lone taker gets its credit if and only if there is some at once, or the counter turns positive before a close or its context and the select does not pick an ended context over the token; the counter moves by the grants it saw and its own token only. |
| Credit.TakeExplained | credit.go:39-61 | Why a take ends: with a credit only while the gate is open, refused only by a closed gate, given up exactly when the last event it saw ended its context, still parked only without a token and when nothing more happens. |
| Credit.TakesNeverExceedGrants | credit.go:22-61 | In every interleaving with any number of takers, takes never exceed the initial window plus the grants. |
| Credit.LoneTakerNeverStranded | credit.go:22-74 | With one taker, whenever it could proceed a token is present or about to be posted. |
| Credit.SecondTakerStranded | credit.go:30-61 | With two takers and a grant of two, one sleeps beside a positive counter with no wake-up left. |
| Credit.SleepsUntilSignalled | credit.go:22-74 | A taker parked with no token and none about to be posted stays parked through every run without a further close, without the end of its context and, if the gate is open, without a further add. |
| Credit.CloseStrandsSecondTaker | credit.go:63-74 | With two takers and one close, one sleeps on through every later run, adds included, until its own context ends. |
| Credit.CloseReaches | credit.go:39-74 | The run that gets there: one taker refused, the other parked in silence on the closed gate. |
| Credit.NoLostWakeupIff | credit.go:22-74 | No wake-up is lost in any interleaving if and only if at most one goroutine takes. |
| Flows.Release | flow.go:93-114 | Consumed frames are either pending or granted, never both and never neither; a grant is sent exactly when a batch is complete. |
| Flows.DeliverSpec | flow.go:72-79 | A frame lands if and only if there is room and the stream lives or the select picks the buffer late; delivery waits if and only if the stream lives and its buffer is full. |
| Flows.Await | endpoint.go:360-380 | The response if one is buffered, the end otherwise, unless the caller's own context is picked; the stream is over afterwards, as cancelled if that context ended it, and a stream that had ended keeps its ending. |
| Flows.Receive | flow.go:272-295 | Like a read of a stream, except that an ended context leaves it alone; it never ends it. |
| Flows.ResponseBeatsTermination | endpoint.go:360-380 | A delivered response is returned whichever ready case the select picks, unless the caller's context ended. |
| Flows.EventOutcome | flow.go:72-212 | What each event in the life of a stream does to buffer, ending, deliveries, returned frames and reported end, field by field. |
| Flows.ReaderSeesDelivered | flow.go:181-212 | Over a whole life and all select choices the reader gets a prefix of what was delivered, all of it for good once a normal end made by the peer is reported, and nothing after a failure; the first terminal state stays. |
| Flows.StragglerAfterEnd | flow.go:71-79 | After a local end a delivery under way can still land behind a reported end: a run that shows it. |
| Flows.OneRead | flow.go:181-212 | One read of a normally ended stream yields the first buffered frame, or the end if there is none. |
| Flows.DrainBeforeEnd | flow.go:272-295 | n reads of a normally ended stream yield the first n buffered frames in order and the end exactly after the last. |
| Ledger.BalancedStep | endpoint.go:117-133 | Each step of take, emit, dispatch, consume and grant keeps the account balanced and pending grants below a batch. |
| Ledger.LedgerHolds | credit.go:22-61 | In every state of every run: tokens, undelivered paid frames, pending and travelling grants and lost credits add up to the window plus the grants for unpaid frames. |
| Ledger.WindowBound | message.go:94-103 | Undelivered paid frames never exceed the window, plus one for each unpaid frame granted for. |
| Ledger.BoundAttained | message.go:94-103 | For every window and every number of unpaid frames, some run has exactly the window plus that number of paid frames undelivered at once. |
| Ledger.SettledGate | flow.go:93-114 | When all is consumed the gate lacks exactly the unflushed remainders, fewer than a batch per stream. |
| Ledger.TwoStreamsNeverStarve | flow.go:93-114 | With at most two credit-bearing streams a settled gate always holds a token. |
| Ledger.SmallWindowReturnsInFull | flow.go:104-109 | A window of at most three always comes back whole. |
| Ledger.StarvedForever | flow.go:104-109 | Once starved, no step of either side ever gives the sender a token again, unpaid frames aside. |
| Ledger.StarvationIff | flow.go:93-114 | Some run starves the sender if and only if k streams can hold the whole window in unflushed remainders: k * (W/2 - 1) >= W, with half the window rounded down. |
| Ids.AllocKeepsParity | endpoint.go:57-71 | A number is never 0 and keeps its side's parity, also across the wrap. |
| Ids.NthClosedForm | endpoint.go:57-71 | The n-th number of either side in closed form, for all n. |
| Ids.SameNumberIff | endpoint.go:57-71 | Two allocations collide if and only if they are whole cycles apart: 2^31 on the client, one fewer on the server. |
| Ids.SidesNeverCollide | endpoint.go:57-71 | Client and server numbers never coincide. |
| Ids.WiredNumbersDistinct | client.go:376-381 | Over all reconnects, stale endpoints included, the numbers put on live connections are odd and pairwise distinct for the first 2^31 allocations. |
| Retention.RetainHolds | server.go:418-439 | The queue holds exactly the accepted frames, stream by stream in order, with the right byte count within the limit; an overflow empties it for good. |
| Retention.FrameSizeIsWireSize | server.go:418-439 | What a frame counts in the recovery queue is its size on the wire with a metadata length; the kept types are RESPONSE, COMPLETE, ERROR, SUBACK and PUBLISH. |
| Retention.ReplayIsComplete | server.go:472-478 | A replay in any order of streams is a permutation of what was accepted. |
| Retention.PartIsNoLonger | server.go:472-476 | A replay that has sent a beginning of each stream has sent no more frames than were kept. |
| Endpoints.SendSpec | transport.go:84-109 | A frame is queued if and only if the context is live, the connection is alive and a slot is free, and then at the end. |
| Endpoints.Transport.constructor | transport.go:32-48 | A live transport with an empty queue, and a full gate exactly for a positive window. |
| Endpoints.Transport.SendCtx | transport.go:84-109 | An ended context is reported first, then a dead connection; otherwise the frame is queued at the end while fewer than 256 wait, and parks with a full queue. |
| Endpoints.Transport.Kill | transport.go:205-217 | The first kill marks the transport dead, closes its gate and its socket and has the death reported; later ones change and report nothing. |
| Endpoints.Flow.Finish | flow.go:145-157 | An unfinished stream ends with exactly the given error and the current endpoint forgets it; an ended one keeps its error and nothing changes. |
| Endpoints.Flow.Deliver | flow.go:72-79 | Lands at the end of a buffer of 32, drops or waits, each exactly when it should, for every state of the stream and both choices of the select. |
| Endpoints.Flow.CreditIn | flow.go:82-89 | One more frame in flight exactly for a stream under the credit scheme. |
| Endpoints.Flow.Release | flow.go:93-114 | Pending and granted together are what was pending and released; a grant goes out exactly when half the window, at least one, is reached; outside the credit scheme nothing changes. |
| Endpoints.Flow.Next | flow.go:181-236 | For each select case: the result, the buffer, the ending; exactly one credit per frame taken is pending or granted; only an ended context on an unfinished stream ends it as cancelled, sends CANCEL and unregisters it. |
| Endpoints.Endpoint.AllocID | endpoint.go:57-71 | Hands out the next number of its side and keeps the counter sane. |
| Endpoints.Endpoint.UnregisterFlow | endpoint.go:79-91 | Removes the stream only if it is the one registered under its number. |
| Endpoints.Endpoint.HandleFrame | endpoint.go:115-221 | RESPONSE and PUBLISH are appended to the buffer of their registered stream and counted; COMPLETE ends it without error, ERROR with the peer's code, CANCEL as cancelled, and each takes it out of the table; every other type leaves it as it was; a REQUEST registers exactly if route and mode fit; what is answered on the spot; which frames are fatal. |
| Endpoints.Endpoint.ToStream | endpoint.go:116-178 | Data is appended to the buffer; COMPLETE, ERROR and CANCEL end the stream without error, with the peer's code, as cancelled, and take it out of the table; all else leaves buffer and ending alone. |
| Endpoints.Endpoint.PrepareRequest | endpoint.go:228-269 | A fresh, empty, unfinished stream of the kind the flags ask for is registered if and only if route and mode fit; otherwise exactly one ERROR, NOT_FOUND or PROTOCOL, and no stream. |
| Endpoints.Endpoint.Emit | message.go:79-104 | A RESPONSE with the payload goes out if and only if the payload encodes and the stream is not over before or while waiting for credit; a closed gate does not stop it; the stream is then over exactly if it was, was cancelled, or ended while waiting. |
| Endpoints.Endpoint.RunEmits | message.go:79-104 | The k-th RESPONSE carries the payload of the k-th encodable attempt made before the stream is over, and there are exactly as many; whether the stream is over, and with which error. |
| Endpoints.EmittedContent | message.go:79-104 | The same of the specification, for any sequence of attempts: which of them are sent, in which order, with which payload. |
| Endpoints.Endpoint.RunRequest | endpoint.go:272-309 | A request is answered with its value, INVALID if it does not encode, the handler's code, or INTERNAL; a stream with its emitted payloads in order and one terminal frame; the stream is finished, without error unless cancelled, and unregistered afterwards, except after a panic. |
| Endpoints.ResponseGrammar | endpoint.go:272-309 | Over all handler behaviours, frame by frame: the one answer of a request; the RESPONSEs of a stream by attempt and payload, then one COMPLETE or ERROR of the right code, COMPLETE exactly for a handler that returned without error. |
| Endpoints.AnswerThenRead | flow.go:181-212 | n RESPONSEs and a COMPLETE handled for a fresh stream, then reads: the first n return those frames in order whatever the selects pick, all later ones the end. |
| Endpoints.FailThenRead | flow.go:145-212 | A stream finished with an error keeps it through later finishes, and every later read reports the end, buffered frames or not. |
| Endpoints.MigrateFlows | server.go:458-469 | Stream by stream: each unfinished odd one is registered at the new endpoint under its number, the same object, and sends through it; every other number of the new table and every other stream's endpoint is as before. |
| Endpoints.FailFlows | server.go:377-391 | Every registered stream of one parity is done with exactly the given error and out of the table; every other keeps its place, its state and its error. |
| Sessions.ServerSession.SendDown | server.go:418-439 | A bound session hands the frame to its connection, dead or alive, and retains nothing; an unbound one keeps it if its type is one of the five, behind the stream's earlier ones, and counts 16 bytes more than metadata and payload, unless that exceeds the limit: then it drops everything for good. |
| Sessions.MoveStreams | server.go:458-469 | The moved streams are exactly the unfinished odd ones of the other endpoint, object by object; all other registrations and endpoints stay. |
| Sessions.ServerSession.Replay | server.go:472-478 | While others send straight to the connection and it may die: the replay sticks if and only if the transport is alive and the queue cannot hold theirs and all that was kept; otherwise every kept frame is handed over once, each stream in order, and a transport that dies has taken a beginning of them; if stuck, a beginning of each stream is queued. |
| Sessions.ServerSession.TakeOver | server.go:442-470 | The replaced connection is dead, the expiry timer is off; the moved streams are exactly the unfinished odd ones at the connection bound last, each the same object, registered at the new endpoint and sending through it; all else stays. |
| Sessions.ServerSession.Bind | server.go:442-479 | Takeover, migration stream by stream, and replay; unless stuck, the session is bound and retains nothing and each retained stream was replayed in order; stuck exactly if more than 256 frames come together on a live connection, and then the queue is full with a beginning of each retained stream in it. |
| Sessions.ServerSession.Unbind | server.go:482-497 | Acts only for the bound connection; arms the timer, or asks to be dropped when retention is disabled. |
| Sessions.ServerSession.Terminate | server.go:536-559 | Every client-initiated stream registered at the connection bound last is done with SESSION_EXPIRED and out of the table; every other stays as it was. |
| Sessions.ServerSession.OnDead | server.go:377-391 | Unbinds the connection; every server-initiated stream registered on it is done with an internal error, every other stays as it was. |
| Sessions.ResumeThenCancel | server.go:442-479 | After a bind, stuck or not, a CANCEL handled at the new connection finishes the stream it names, opened on the old one, as cancelled. |
| Sessions.ResumeThenTerminate | server.go:536-559 | After a bind, a terminate leaves no client-initiated stream of the old connection unfinished: each ends with SESSION_EXPIRED. |
| Clients.HandOver | client.go:351-381 | After a failed resume every odd stream is done with SESSION_EXPIRED and none moves; otherwise exactly the unfinished odd ones move, the same objects with their state untouched; the number counter moves either way. |
| Clients.Client.BindSession | client.go:328-390 | Without a transformer nothing changes. A failure is reported if and only if the client had a session and the server did not take it back; then every odd stream is done with SESSION_EXPIRED and the new endpoint gains none; otherwise no stream ends and exactly the unfinished odd ones move. |
| ResumeServer.TakeoverSafety | server.go:441-497 | In every run all connections ever bound except the current one are dead, and an unbind from a replaced one changes nothing. |
| ResumeServer.RetentionAccounting | server.go:424-437 | In every reachable state the byte count is the sum of the kept frames and within a non-negative limit, a bound session keeps nothing, and overflow is permanent and empty. |
| ResumeOrder.ServerSideRun | server.go:418-497 | Every run keeps the frames that come through the session in stream order in each queue, no frame twice, earlier connections before later ones, and the recovery accounts right. |
| ResumeFate.AtMostOnce | server.go:418-479 | No frame enters two queues, or one queue twice. |
| ResumeFate.QueuesInOrder | server.go:418-497 | In every reachable state each queue holds logged frames, none twice; those that came through the session are in stream order; and a connection bound earlier carries only earlier frames. |
| ResumeFate.PlacedMeans | server.go:418-479 | A frame counts as queued exactly when it is an entry of some connection's queue. |
| ResumeFate.ExactlyOneFate | server.go:418-479 | Each frame ever sent down, unless its sender still waits, is queued on a connection, still kept, rejected by a dead connection, given up with its sender's context, or lost to overflow or type, and exactly one of these. |
| ResumeFate.ReplayLedger | server.go:472-478 | After a live bind, of all frames that come through the session the connection's queue carries first, for good, exactly the keepable ones sent since the disconnection, each stream in order; frames sent straight to the connection may come in between. |
| ResumeFate.BeginsWithReplayIff | server.go:472-478 | After a live bind the whole queue begins with the replay, for good, if and only if no frame sent straight to the connection got in before the last replayed one. |
| ResumeFate.RequestsFollowReplay | server.go:131-151 | Every server-initiated request on a connection comes after all that its bind has queued, so a reused even number never has the replay of its namesake behind it. |
| ResumeFate.LiveResumeIff | server.go:312-326 | A disconnected session can be bound to a live connection with d frames coming in between if and only if those and the waiting frames are at most 256 together. |
| ResumeLoss.SendDownOutcome | server.go:418-439 | In every reachable state, by what can be seen as the sender takes the lock: a frame is queued if and only if the bound connection lives, its queue has room and the context has not ended; its sender waits if and only if only the room is missing; it is kept if and only if the session is unbound, has not overflowed and the frame is of a kept type and fits; and it goes nowhere exactly otherwise. |
| ResumeLoss.WaitOutcome | transport.go:84-109 | While a sender waits no step that takes the session's lock is possible; the wait ends with the frame queued if and only if a slot became free, and otherwise with the frame nowhere. |
| ResumeLoss.LockHeld | server.go:418-423 | While a sender waits with the session's lock nothing is sent down, bound, unbound or terminated; while none does, a new frame and a terminate are possible. |
| ResumeLoss.PlacedForGood | server.go:418-479 | A frame that is neither queued nor kept is never queued in any later run, and a queued one stays so. |
| ResumeLoss.OverflowIff | server.go:424-437 | A disconnected session overflows if and only if the keepable frames it is sent take the queue over the limit; until then it keeps all it had. |
| ResumeLoss.KeptReachesQueueIff | server.go:418-479 | A kept frame enters the next connection's queue, for good, if and only if the limit held meanwhile and the connection lived until the frame's turn in the replay. |
| ResumeRuns.AnswerRefused | server.go:421-423 | A run in which the answer to a pending request is rejected by a dead but still bound connection and never queued afterwards. |
| ResumeRuns.AnswerSurvives | server.go:418-479 | A run in which a request is accepted on one connection, that connection dies, the answer is sent while the client is away, and the application reads it and a normal end on the next connection. |
| ResumeRuns.CreditOvertakesReplay | server.go:458-476 | A run in which a CREDIT of the same stream stands before the answer that bind replays. |
| ResumeRuns.LostRequestLeavesOrphan | client.go:351-374 | A run in which a migrated stream's CANCEL reaches a server that never heard of the stream. |
| ResumeRuns.UnstartedConnectionJams | server.go:312-326 | A run to a live, bound, never started connection with a full queue of 256 and a waiting sender; through every run without a start, a death or the end of that sender's context it waits on, holding the session's lock. |
| ResumeStreams.NumbersStayFresh | client.go:376-381 | In every run the number of a stream about to be opened is odd and differs from those of all streams opened before, on whatever connection. |
| ResumeStreams.FirstTerminalWins | flow.go:145-157 | Over any run an ended stream keeps its ending on both sides; it is given nothing more if the read loop ended it, and after a local end at most the one frame that loop had in hand. |
| ResumeStreams.NoOrphans | server.go:458-469 | Every unfinished accepted stream is registered at and sends through the connection bound last; a terminate is possible whenever no sender holds the session's lock, and ends each of them with SESSION_EXPIRED and none that had ended. |
| ResumeStreams.RegistrationPrecedesTraffic | endpoint.go:205-212 | A later frame finds its stream registered at the server if and only if the stream is not finished, refused, a subscription, or one whose request never arrived; the last only if it was opened on an earlier connection. |
| ResumeContinuity.EndToEndContinuity | client.go:351-393 | Over any disconnects, resumes and takeovers, a stream's frames at the client are those in the handled prefixes of the queues: in order, without duplicates, and all of them while the stream is pending. |
| ResumeContinuity.DataFindsItsStream | endpoint.go:117-133 | Every data frame of a client-initiated stream in any connection's queue, replayed or not, is for a stream the client has opened, and it is registered at the current endpoint if and only if it has not ended. |
| ResumeContinuity.NothingElseMissing | server.go:418-479 | Each data frame sent on a pending stream, unless its sender still waits, has been given to the client, is unread in a queue, is kept, was rejected by a dead connection, was given up with its sender's context, or fell to an overflow. |
| ResumeReading.ReadIsNext | flow.go:181-212 | A read step of the state machine leaves the buffer and tells the application what the stream's own Next does, for each select case. |
| ResumeReading.ApplicationReads | flow.go:181-212 | In every run what the application has read is in order and duplicate-free, a beginning of what the stream was given and, unless it failed, exactly what left its buffer; all of it once a normal end made by the peer was reported; and nothing more after a failure. |
| ResumeEndings.ClientHandles | endpoint.go:115-182 | In every run, what the next frame does when the client handles it: of a pending stream, RESPONSE and PUBLISH are delivered, COMPLETE ends it normally, ERROR and CANCEL with a code, all as ended by the peer; no other stream and none that has ended is touched. |
| ResumeEndings.ClientDelivers | flow.go:71-79 | In every run, a frame looked up before reaches its stream if that is pending still, and one that has ended meanwhile exactly if the select picks the buffer; nothing else changes. |
| ResumeEndings.ClientFinishes | flow.go:145-157 | A local end gives a pending stream exactly that ending, not as ended by the peer, and takes it out of the table; it changes nothing else. |
| ResumeEndings.ServerHandles | endpoint.go:115-221 | In every run, what the next frame does when the server handles it: a REQUEST, never of a number in use, starts a stream or is refused; COMPLETE ends an unfinished stream normally, ERROR and CANCEL with a code; nothing else touches a stream. |
| ResumeEndings.ServerFinishes | flow.go:145-157 | In every run a handler that finishes gives its stream, if unfinished, exactly that ending, and changes nothing else. |
| ResumeEndings.ClientKeeps | client.go:366-374 | In every run no other step touches a stream at the client, except that adopting a connection moves the pending ones to it and registers them there. |
| ResumeEndings.ServerKeeps | server.go:458-469 | In every run no other step ends a stream at the server; a bind moves the unfinished ones to its connection and registers them there. |
| ResumeEndings.EndedByPeer | endpoint.go:156-178 | In every run a stream the read loop ended was ended by a handled frame of its own, after all its data handled before had been given to it and nothing since: normally if and only if that frame is a COMPLETE, as cancelled if and only if it is a CANCEL. |
| ResumeEndings.AnswerIsRead | flow.go:181-212 | In every run: if n data frames of a pending stream and its COMPLETE come next, then once they are handled and the buffer is read out, the application has been given all the stream ever was, those n last and in order, and the end is reported by the next read and not before. |

## Left out

- Server.Publish: the fan-out over sessions and its check of the context before each target; each delivery is one sendDown with the caller's context, which is modelled, so a broadcast is a run of such steps.
- Subscriptions beyond their frames: the subscribe table, SUBACK waiting, the consume goroutine and automatic resubscription.
- Channels beyond Receive: Channel.Send, Channel.Close and runChannel; Close finishes the local stream, so there is no half-close to prove.
- JSON encodings of metadata, handshake, credit and error payloads; the decoded record stands for the payload.
- DEFLATE and AES-GCM internals, buffer pools and nonce randomness; they are parameters with inverse and length laws.
- Heartbeats, deadlines, dialing, backoff and jitter; a death of a connection may come at any step.
- The race between the retention timer firing and a resume, and the session store; Terminate may come at any step.
- Sessions other than the one in the resume state machine, a failed resume (resumed false) in it, and server-initiated (even) streams; these are covered one call at a time by `Sessions` and `Clients`.
- Endpoints.Endpoint.HandleFrame: the handlers of ONEWAY and of client publications, which run on their own and change no stream, and the subscription table.
- Route tables, configuration defaults, logging and the auth hook; they appear as parameters.
- FRAGMENT frames, which the documentation specifies and the code does not have.
- Endpoints.Endpoint.Emit: takes the outcome of its wait for credit as given; which outcomes a gate allows is what `Credit` proves.
- Clients.Client.BindSession: says that the resubscription and the callbacks after a failed resume are due, not what they do.
- Endings of server-initiated streams across connections: they fail with their connection one call at a time (`Sessions.ServerSession.OnDead`), and are not streams of the resume state machine.
