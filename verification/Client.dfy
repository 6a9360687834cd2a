// The client's side of a reconnect: bindSession.

module Clients {
  import opened Basics
  import opened Wire
  import opened Endpoints
  import opened Handshake
  import Flows
  import Sessions

  class Client {
    var ep: Endpoint?
    var sessionID: string

    constructor ()
      ensures ep == null && sessionID == ""
    {
      ep, sessionID := null, "";
    }

    /** bindSession. A CONNACK the client cannot build a transformer for changes nothing. Otherwise the number counter
        moves over; if the server resumed the session, or there was none, the unfinished client-initiated streams move
        over as they are; if not, they all fail and none moves, and the failure is to be reported and the topics
        resubscribed. `moved` are the numbers of those that move. */
    method BindSession(cfg: Config, aj: Connack, resumed: bool, sid: string, newEp: Endpoint)
      returns (ok: bool, report: bool, ghost moved: set<u32>)
      requires newEp.Valid() && newEp.client && newEp != ep
      requires ep != null ==> ep.Valid() && ep.client
      modifies this, newEp`streams, newEp`nextID, (if ep != null then {ep} else {})`streams
      modifies (if ep != null then ep.streams.Values else {})`ep
      modifies (if ep != null then ep.streams.Values else {})`done, (if ep != null then ep.streams.Values else {})`err
      ensures ok <==> (aj.encrypt ==> |cfg.key| == 32)
      ensures report <==> ok && old(sessionID) != "" && !resumed
      ensures !ok ==> ep == old(ep) && sessionID == old(sessionID) && newEp.streams == old(newEp.streams)
      ensures !ok && ep != null ==> ep.streams == old(ep.streams)
      ensures ok ==> ep == newEp && sessionID == sid && ep.Valid()
      ensures ok ==> ep.nextID == if old(ep) != null then old(ep.nextID) else old(newEp.nextID)
      ensures forall id :: id in moved <==>
        ok && !report && old(ep) != null && id in old(ep.streams) && id % 2 == 1 && !old(ep.streams[id].done)
      ensures forall id :: id in moved ==> id in newEp.streams && newEp.streams[id] == old(ep.streams[id])
      ensures forall id :: id in newEp.streams <==> id in moved || id in old(newEp.streams)
      ensures forall id :: id in newEp.streams && id !in moved ==> newEp.streams[id] == old(newEp.streams[id])
      ensures old(ep) != null ==> forall id :: id in old(ep.streams) ==>
        var g := old(ep.streams[id]);
        && g.ep == (if id in moved then newEp else old(g.ep))
        && if report && id % 2 == 1 then g.done && g.err == Some(SessionExpired)
           else g.done == old(g.done) && g.err == old(g.err)
    {
      ok, report, moved := ClientTransformer(cfg, aj).Some?, false, {};
      if !ok { return; }
      var prev, oldEp := sessionID, ep;
      sessionID, ep := sid, newEp;
      report := prev != "" && !resumed;
      if oldEp != null {
        moved := HandOver(oldEp, newEp, report);
      }
    }
  }

  /** The part of bindSession that deals with the previous connection's endpoint. `moved` are the numbers of the
      streams that change over: none after a failed resume. */
  method HandOver(oldEp: Endpoint, newEp: Endpoint, failed: bool) returns (ghost moved: set<u32>)
    requires oldEp.Valid() && newEp.Valid() && oldEp.client && newEp.client && oldEp != newEp
    modifies newEp`streams, newEp`nextID, oldEp`streams
    modifies oldEp.streams.Values`ep, oldEp.streams.Values`done, oldEp.streams.Values`err
    ensures newEp.Valid() && newEp.nextID == old(oldEp.nextID)
    ensures forall id :: id in moved <==>
      !failed && id in old(oldEp.streams) && id % 2 == 1 && !old(oldEp.streams[id].done)
    ensures forall id :: id in old(oldEp.streams) ==>
      old(oldEp.streams[id]).ep == if id in moved then newEp else old(oldEp.streams[id].ep)
    ensures forall id :: id in moved ==> id in newEp.streams && newEp.streams[id] == old(oldEp.streams[id])
    ensures forall id :: id in newEp.streams <==> id in moved || id in old(newEp.streams)
    ensures forall id :: id in newEp.streams && id !in moved ==> newEp.streams[id] == old(newEp.streams[id])
    ensures forall id :: id in old(oldEp.streams) ==>
      var g := old(oldEp.streams[id]);
      if failed && id % 2 == 1 then g.done && g.err == Some(SessionExpired)
      else g.done == old(g.done) && g.err == old(g.err)
  {
    if failed {
      FailFlows(oldEp, 1, SessionExpired);
    }
    moved := Sessions.MoveStreams(oldEp, newEp);
    newEp.nextID := oldEp.nextID;
  }
}
