/** Who gets a media packet (src/handlers/gateway.rs). */
module FanOut {
  import opened Types
  import opened ServerStates
  import opened Gateway
  import opened IndexAgreement

  // ------------------------------------------------------------------ media

  /** The copy with this number goes to this four-tuple. */
  ghost predicate GoesTo(copies: seq<Outgoing>, k: int, ft: FourTuple) {
    0 <= k < |copies| && copies[k].transport.Tuple() == ft
  }

  /** A transport of another endpoint of the sender's session that is ready for media. */
  ghost predicate Listens(st: State, sid: SessionId, sender: EndpointId, ft: FourTuple) {
    exists a: EndpointId :: a != sender && Holds(st, sid, a, ft) && TransportAt(st, sid, a, ft).srtpReady
  }

  lemma PeerIffListening(st: State, sid: SessionId, sender: EndpointId, ft: FourTuple)
    requires sid in st.sessions
    ensures Listens(st, sid, sender, ft) <==> exists a: EndpointId :: (a, ft) in MediaPeers(st.sessions[sid], sender)
  {
    if Listens(st, sid, sender, ft) {
      var a: EndpointId :| a != sender && Holds(st, sid, a, ft) && TransportAt(st, sid, a, ft).srtpReady;
      assert (a, ft) in MediaPeers(st.sessions[sid], sender);
    }
    if a: EndpointId :| (a, ft) in MediaPeers(st.sessions[sid], sender) {
      assert Holds(st, sid, a, ft);
    }
  }

  /**
   With agreement, a packet from a held four-tuple goes once to each listening transport of its
   session, and nowhere else: not to the sender's endpoint and not to another session.
   */
  lemma FanOutIsExact(st: State, ctx: TransportContext, packet: MediaPacket, now: int,
                      peers: seq<(EndpointId, FourTuple)>, sid: SessionId, sender: EndpointId)
    requires Agreement(st) && Holds(st, sid, sender, ctx.Tuple())
    requires Enumerates(peers, MediaPeers(st.sessions[sid], sender))
    ensures var copies := Copies(peers, ctx.ecn, packet, now);
      && (forall ft :: Listens(st, sid, sender, ft) <==> exists k :: GoesTo(copies, k, ft))
      && (forall j, k, ft :: GoesTo(copies, j, ft) && GoesTo(copies, k, ft) ==> j == k)
      && (forall k :: 0 <= k < |copies| ==>
            copies[k].payload == MediaPayload(packet) && copies[k].now == now && copies[k].transport.ecn == ctx.ecn)
      && (forall k, ft, s: SessionId, a: EndpointId :: GoesTo(copies, k, ft) && Holds(st, s, a, ft) ==>
           s == sid && a != sender)
    ensures st.index[ctx.Tuple()] == (sid, sender)
  {
    var copies := Copies(peers, ctx.ecn, packet, now);
    forall k | 0 <= k < |copies|
      ensures peers[k] in MediaPeers(st.sessions[sid], sender)
      ensures copies[k].transport.Tuple() == peers[k].1
      ensures Holds(st, sid, peers[k].0, peers[k].1) && peers[k].0 != sender
    {
      assert peers[k] in peers;
    }
    forall ft
      ensures Listens(st, sid, sender, ft) <==> exists k :: GoesTo(copies, k, ft)
    {
      PeerIffListening(st, sid, sender, ft);
      if a: EndpointId :| (a, ft) in MediaPeers(st.sessions[sid], sender) {
        var k :| 0 <= k < |peers| && peers[k] == (a, ft);
        assert GoesTo(copies, k, ft);
      }
      if k :| GoesTo(copies, k, ft) {
        assert (peers[k].0, ft) in MediaPeers(st.sessions[sid], sender);
      }
    }
    forall j, k, ft | GoesTo(copies, j, ft) && GoesTo(copies, k, ft)
      ensures j == k
    {
      assert Holds(st, sid, peers[j].0, ft) && Holds(st, sid, peers[k].0, ft);
      assert peers[j] == peers[k];
    }
  }
}
