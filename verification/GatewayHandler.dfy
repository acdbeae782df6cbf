/** The gateway handler as an object, working on the shared server state (src/handlers/gateway.rs). */
module GatewayHandlers {
  import opened Types
  import opened Directions
  import opened Sdp
  import opened Endpoints
  import opened SdpGeneration
  import opened Sessions
  import opened ServerStates
  import opened Gateway

  // ------------------------------------------------------------------ walking a session

  method CollectTracks(s: Session, b: EndpointId) returns (tracks: seq<(EndpointId, Mid)>)
    ensures Enumerates(tracks, TracksFor(s, b))
  {
    tracks := [];
    var todo := s.endpoints.Keys;
    while todo != {}
      invariant todo <= s.endpoints.Keys
      invariant Distinct(tracks)
      invariant forall p :: p in tracks <==> p in TracksFor(s, b) && p.0 !in todo
      decreases todo
    {
      var other :| other in todo;
      todo := todo - {other};
      if other != b {
        var transceivers := s.endpoints[other].transceivers;
        var mids := transceivers.Keys;
        while mids != {}
          invariant mids <= transceivers.Keys
          invariant Distinct(tracks)
          invariant forall p :: p in tracks <==>
                      p in TracksFor(s, b) && p.0 !in todo && (p.0 == other ==> p.1 !in mids)
          decreases mids
        {
          var mid :| mid in mids;
          mids := mids - {mid};
          if transceivers[mid].direction == Recvonly {
            assert (other, mid) !in tracks;
            tracks := tracks + [(other, mid)];
          }
        }
      }
    }
  }

  method CollectChannelPeers(s: Session, b: EndpointId) returns (peers: seq<ChannelPeer>)
    ensures Enumerates(peers, ChannelPeers(s, b))
  {
    peers := [];
    var todo := s.endpoints.Keys;
    while todo != {}
      invariant todo <= s.endpoints.Keys
      invariant Distinct(peers)
      invariant forall p :: p in peers <==> p in ChannelPeers(s, b) && p.endpoint !in todo
      decreases todo
    {
      var other :| other in todo;
      todo := todo - {other};
      if other != b {
        var e := s.endpoints[other];
        var tuples := e.transports.Keys;
        while tuples != {}
          invariant tuples <= e.transports.Keys
          invariant Distinct(peers)
          invariant forall p :: p in peers <==>
                      p in ChannelPeers(s, b) && p.endpoint !in todo && (p.endpoint == other ==> p.fourTuple !in tuples)
          decreases tuples
        {
          var ft :| ft in tuples;
          tuples := tuples - {ft};
          if e.transports[ft].channel.Some? {
            assert PeerAt(s, other, ft) !in peers;
            peers := peers + [PeerAt(s, other, ft)];
          }
        }
      }
    }
  }

  method CollectMediaPeers(s: Session, b: EndpointId) returns (peers: seq<(EndpointId, FourTuple)>)
    ensures Enumerates(peers, MediaPeers(s, b))
  {
    peers := [];
    var todo := s.endpoints.Keys;
    while todo != {}
      invariant todo <= s.endpoints.Keys
      invariant Distinct(peers)
      invariant forall p :: p in peers <==> p in MediaPeers(s, b) && p.0 !in todo
      decreases todo
    {
      var other :| other in todo;
      todo := todo - {other};
      if other != b {
        var transports := s.endpoints[other].transports;
        var tuples := transports.Keys;
        while tuples != {}
          invariant tuples <= transports.Keys
          invariant Distinct(peers)
          invariant forall p :: p in peers <==>
                      p in MediaPeers(s, b) && p.0 !in todo && (p.0 == other ==> p.1 !in tuples)
          decreases tuples
        {
          var ft :| ft in tuples;
          tuples := tuples - {ft};
          if transports[ft].srtpReady {
            assert (other, ft) !in peers;
            peers := peers + [(other, ft)];
          }
        }
      }
    }
  }

  method CollectIdleIn(e: Endpoint, cutoff: int) returns (tuples: seq<FourTuple>)
    ensures forall ft :: ft in tuples <==> ft in IdleIn(e, cutoff)
  {
    tuples := [];
    var todo := e.transports.Keys;
    while todo != {}
      invariant todo <= e.transports.Keys
      invariant forall ft :: ft in tuples <==>
                  exists k :: k in e.transports && k !in todo && e.transports[k].lastActivity <= cutoff
                              && e.transports[k].fourTuple == ft
      decreases todo
    {
      var k :| k in todo;
      todo := todo - {k};
      if e.transports[k].lastActivity <= cutoff {
        tuples := tuples + [e.transports[k].fourTuple];
      }
    }
  }

  method CollectIdleInSession(s: Session, cutoff: int) returns (tuples: seq<FourTuple>)
    ensures forall ft :: ft in tuples <==> ft in IdleInSession(s, cutoff)
  {
    tuples := [];
    var todo := s.endpoints.Keys;
    while todo != {}
      invariant todo <= s.endpoints.Keys
      invariant forall ft :: ft in tuples <==>
                  exists a :: a in s.endpoints && a !in todo && ft in IdleIn(s.endpoints[a], cutoff)
      decreases todo
    {
      var a :| a in todo;
      todo := todo - {a};
      var more := CollectIdleIn(s.endpoints[a], cutoff);
      tuples := tuples + more;
    }
  }

  class GatewayHandler {
    const server: Server
    const idleTimeout: nat
    var nextTimeout: int

    constructor (server: Server, idleTimeout: nat, now: int)
      ensures this.server == server && this.idleTimeout == idleTimeout
      ensures nextTimeout == now + idleTimeout
    {
      this.server := server;
      this.idleTimeout := idleTimeout;
      nextTimeout := now + idleTimeout;
    }

    method CheckStunMessage(request: StunRequest) returns (r: Result<Option<Candidate>>)
      ensures r.Ok? <==> Credible(server.View(), request) || Anonymous(request)
      ensures Credible(server.View(), request) ==> r == Ok(Some(server.candidates[request.username.value]))
      ensures Anonymous(request) ==> r == Ok(None)
      ensures r == CheckStun(server.View(), request)
    {
      CheckStunIff(server.View(), request);
      if request.username.Some? {
        if !request.priority {
          return Err("no priority");
        }
        if request.controlling {
          if request.controlled {
            return Err("two roles");
          }
        } else if request.controlled {
          if request.useCandidate {
            return Err("nominating while controlled");
          }
        } else {
          return Err("no role");
        }
        if request.username.value !in server.candidates {
          return Err("username not found");
        }
        var candidate := server.candidates[request.username.value];
        if request.signedWith != candidate.localCredentials.password {
          return Err("ErrIntegrityMismatch");
        }
        return Ok(Some(candidate));
      }
      if request.controlled || request.controlling || request.networkCost || request.priority || request.useCandidate {
        return Err("unexpected attribute");
      }
      return Ok(None);
    }

    /** The request came at `now`; a new transport is stamped with the clock. */
    method HandleStunMessage(ctx: TransportContext, request: StunRequest, now: int, clock: int)
      returns (r: Result<seq<Outgoing>>)
      modifies server
      ensures server.View() == AfterStun(old(server.View()), ctx, request, clock)
      ensures r == StunResponse(old(server.View()), ctx, request, now)
    {
      var candidate := CheckStunMessage(request);
      if candidate.Err? {
        return Err(candidate.error);
      }
      if candidate.value.None? {
        return Ok([Outgoing(now, ctx, StunPayload(request.transactionId, ctx.peer, None))]);
      }
      var c := candidate.value.value;
      var added := server.AddEndpoint(c, ctx.Tuple(), request.useCandidate, clock);
      if added.Err? {
        return Err(added.error);
      }
      return Ok([Outgoing(now, ctx, StunPayload(request.transactionId, ctx.peer, Some(c.localCredentials.password)))]);
    }

    method CreateOfferMessage(ctx: TransportContext, handle: nat, stream: nat, now: int) returns (r: Result<Outgoing>)
      modifies server
      ensures (server.View(), r) == AfterOfferMessage(old(server.View()), server.config, ctx, handle, stream, now)
    {
      var ft := ctx.Tuple();
      if ft !in server.index {
        return Err(NOT_SET);
      }
      var (sid, a) := server.index[ft];
      if sid !in server.sessions {
        return Err("can't find session id");
      }
      var s := server.sessions[sid];
      if a !in s.endpoints {
        return Err("can't find endpoint id");
      }
      var e := s.endpoints[a].(renegotiate := false);
      s := s.(endpoints := s.endpoints[a := e]);
      server.sessions := server.sessions[sid := s];
      if e.remote.None? {
        return Err("remote_description is not set");
      }
      if ft !in e.transports {
        return Err("can't find transport for endpoint id");
      }
      var credentials := e.transports[ft].candidate.localCredentials;
      var offer := GenerateMatchedSdp(s, a, e.remote.value, true, SdpContext("actpass", credentials, server.config));
      if offer.Err? {
        return Err(offer.error);
      }
      var s', local := SetLocalDescription(s, a, offer.value);
      assert server.sessions[sid := s'] == server.sessions;
      server.sessions := server.sessions[sid := s'];
      return Ok(Outgoing(now, ctx, ChannelPayload(handle, stream, offer.value)));
    }

    method InsertMirrors(e: Endpoint, s: Session, tracks: seq<(EndpointId, Mid)>) returns (e': Endpoint)
      requires TracksOf(s, tracks)
      ensures e' == WithMirrors(e, s, tracks)
    {
      e' := e;
      for k := 0 to |tracks|
        invariant e' == WithMirrors(e, s, tracks[..k])
      {
        assert tracks[..k + 1][..k] == tracks[..k];
        var t := MirrorOf(s, tracks[k]);
        e' := e'.(mids := e'.mids + [t.mid], transceivers := e'.transceivers[t.mid := t]);
      }
      assert tracks[..|tracks|] == tracks;
    }

    /** `tracks` is the order in which the tracks of the other endpoints were met. */
    method HandleDatachannelOpen(ctx: TransportContext, handle: nat, stream: nat, now: int)
      returns (r: Result<seq<Outgoing>>, ghost tracks: seq<(EndpointId, Mid)>)
      modifies server
      ensures old(GetTransport(server.View(), ctx.Tuple())).Ok? ==>
                Enumerates(tracks, old(var (sid, b) := server.index[ctx.Tuple()]; TracksFor(server.sessions[sid], b)))
      ensures old(GetTransport(server.View(), ctx.Tuple())).Ok? ==>
                TracksOf(old(server.sessions[server.index[ctx.Tuple()].0]), tracks)
      ensures (server.View(), r) == AfterOpen(old(server.View()), server.config, ctx, handle, stream, now, tracks)
    {
      tracks := [];
      var ft := ctx.Tuple();
      if ft !in server.index {
        r := Err(NOT_SET);
        return;
      }
      var (sid, b) := server.index[ft];
      if sid !in server.sessions {
        r := Err("can't find session id");
        return;
      }
      var s := server.sessions[sid];
      var found := CollectTracks(s, b);
      assert TracksOf(s, found) by {
        assert forall k :: 0 <= k < |found| ==> found[k] in TracksFor(s, b);
      }
      if b !in s.endpoints {
        r := Err("can't find endpoint id");
        return;
      }
      var e := s.endpoints[b];
      if ft !in e.transports {
        r := Err("can't find transport with four_tuple");
        return;
      }
      tracks := found;
      e := e.(transports := e.transports[ft := e.transports[ft].(channel := Some((handle, stream)))],
          renegotiate := found != []);
      e := InsertMirrors(e, s, found);
      server.sessions := server.sessions[sid := s.(endpoints := s.endpoints[b := e])];
      if e.renegotiate {
        var offer := CreateOfferMessage(ctx, handle, stream, now);
        r := if offer.Ok? then Ok([offer.value]) else Err(offer.error);
      } else {
        r := Ok([]);
      }
    }

    method OfferToPeers(first: Outgoing, peers: seq<ChannelPeer>, ecn: Option<nat>, now: int)
      returns (r: Result<seq<Outgoing>>)
      modifies server
      ensures (server.View(), r) == AfterPeerOffers(old(server.View()), [first], server.config, peers, ecn, now)
    {
      var sent := [first];
      for k := 0 to |peers|
        invariant AfterPeerOffers(old(server.View()), [first], server.config, peers, ecn, now)
               == AfterPeerOffers(server.View(), sent, server.config, peers[k..], ecn, now)
      {
        assert peers[k..][1..] == peers[k + 1..];
        var p := peers[k];
        if p.flagged {
          var offer := CreateOfferMessage(ContextOf(p.fourTuple, ecn), p.handle, p.stream, now);
          if offer.Err? {
            return Err(offer.error);
          }
          sent := sent + [offer.value];
        }
      }
      return Ok(sent);
    }

    /** `peers` is the order in which the peers were met, if it came to that. */
    method HandleDatachannelMessage(ctx: TransportContext, handle: nat, stream: nat, request: Result<SdpText>,
                                    minted: Minted, now: int)
      returns (r: Result<seq<Outgoing>>, ghost peers: seq<ChannelPeer>)
      modifies server
      ensures (server.View(), r)
           == AfterMessage(old(server.View()), server.config, ctx, handle, stream, request, minted, now, peers)
      ensures request.Ok? && request.value.sdpType == Offer ==>
              PeersChosen(old(server.View()), server.config, ctx, request.value, minted, peers)
    {
      peers := [];
      if request.Err? {
        r := Err(request.error);
        return;
      }
      var ft := ctx.Tuple();
      if ft !in server.index {
        r := Err(NOT_SET);
        return;
      }
      var (sid, a) := server.index[ft];
      match request.value.sdpType
      case Offer =>
        var answer := server.AcceptOffer(sid, a, Some(ft), request.value, minted);
        if answer.Err? {
          r := Err(answer.error);
          return;
        }
        OfferKeepsIndex(old(server.View()), server.config, sid, a, Some(ft), request.value, minted);
        var found := CollectChannelPeers(server.sessions[sid], a);
        peers := found;
        r := OfferToPeers(Outgoing(now, ctx, ChannelPayload(handle, stream, answer.value)), found, ctx.ecn, now);
      case Answer =>
        var applied := server.AcceptAnswer(sid, a, request.value);
        r := if applied.Ok? then Ok([]) else Err(applied.error);
      case _ =>
        r := Err("Unsupported SDP type");
    }

    /**
     One copy for each ready transport of the other endpoints; `peers` is the order in which they were met. The
     packet came at `now`; the activity of its transport is stamped with the clock.
     */
    method HandleMediaMessage(ctx: TransportContext, packet: MediaPacket, now: int, clock: int)
      returns (r: Result<seq<Outgoing>>, ghost peers: seq<(EndpointId, FourTuple)>)
      modifies server
      ensures server.View() == AfterMedia(old(server.View()), ctx.Tuple(), clock)
      ensures r.Ok? <==> old(GetTransport(server.View(), ctx.Tuple())).Ok?
      ensures r.Err? ==> r.error == old(GetTransport(server.View(), ctx.Tuple())).error
      ensures r.Ok? ==>
                && Enumerates(peers, old(var (s, a) := server.index[ctx.Tuple()]; MediaPeers(server.sessions[s], a)))
                && r.value == Copies(peers, ctx.ecn, packet, now)
    {
      peers := [];
      var ft := ctx.Tuple();
      if ft !in server.index {
        r := Err("can't find endpoint with four_tuple");
        return;
      }
      var (sid, a) := server.index[ft];
      if sid !in server.sessions {
        r := Err("can't find session id");
        return;
      }
      var s := server.sessions[sid];
      if a !in s.endpoints {
        r := Err("can't find endpoint id");
        return;
      }
      var e := s.endpoints[a];
      if ft !in e.transports {
        r := Err("can't find transport with four_tuple");
        return;
      }
      var t := e.transports[ft].(lastActivity := clock);
      var s' := s.(endpoints := s.endpoints[a := e.(transports := e.transports[ft := t])]);
      server.sessions := server.sessions[sid := s'];
      var found := CollectMediaPeers(s', a);
      assert MediaPeers(s', a) == MediaPeers(s, a);
      peers := found;
      var messages := [];
      for k := 0 to |found|
        invariant messages == Copies(found, ctx.ecn, packet, now)[..k]
      {
        messages := messages + [Outgoing(now, ContextOf(found[k].1, ctx.ecn), MediaPayload(packet))];
      }
      r := Ok(messages);
    }

    method CollectIdle(cutoff: int) returns (tuples: seq<FourTuple>)
      ensures forall ft :: ft in tuples <==> ft in Idle(server.sessions, cutoff)
    {
      tuples := [];
      var todo := server.sessions.Keys;
      while todo != {}
        invariant todo <= server.sessions.Keys
        invariant forall ft :: ft in tuples <==>
                    exists sid :: sid in server.sessions && sid !in todo
                        && ft in IdleInSession(server.sessions[sid], cutoff)
        decreases todo
      {
        var sid :| sid in todo;
        todo := todo - {sid};
        var more := CollectIdleInSession(server.sessions[sid], cutoff);
        tuples := tuples + more;
      }
    }

    /** `tuples` is the order in which idle transports were removed, if the sweep was due. */
    method HandleTimeout(now: int) returns (ghost tuples: seq<FourTuple>)
      modifies server, `nextTimeout
      ensures if old(nextTimeout) <= now then
                && (forall ft :: ft in tuples <==> ft in Idle(old(server.sessions), now - idleTimeout))
                && server.View() == AfterRemovals(old(server.View()), tuples)
                && nextTimeout == old(nextTimeout) + idleTimeout
              else server.View() == old(server.View()) && nextTimeout == old(nextTimeout)
    {
      tuples := [];
      if nextTimeout <= now {
        var found := CollectIdle(now - idleTimeout);
        tuples := found;
        for k := 0 to |found|
          invariant AfterRemovals(old(server.View()), found) == AfterRemovals(server.View(), found[k..])
          invariant nextTimeout == old(nextTimeout)
        {
          assert found[k..][1..] == found[k + 1..];
          server.RemoveTransport(found[k]);
        }
        nextTimeout := nextTimeout + idleTimeout;
      }
    }

    method PollTimeout(eto: int) returns (eto': int)
      ensures eto' <= eto && eto' <= nextTimeout && (eto' == eto || eto' == nextTimeout)
    {
      eto' := if nextTimeout < eto then nextTimeout else eto;
    }
  }

  /** The peers that get offers are those of the state after the client's own offer was taken up. */
  ghost predicate PeersChosen(st: State, config: SdpConfig, ctx: TransportContext, offer: SdpText, minted: Minted,
                              peers: seq<ChannelPeer>) {
    ctx.Tuple() in st.index ==>
      var (sid, a) := st.index[ctx.Tuple()];
      var (st1, r) := AfterOffer(st, config, sid, a, Some(ctx.Tuple()), offer, minted);
      r.Ok? ==> sid in st1.sessions && Enumerates(peers, ChannelPeers(st1.sessions[sid], a))
  }

  lemma OfferKeepsIndex(st: State, config: SdpConfig, sid: SessionId, a: EndpointId, ft: Option<FourTuple>,
                        offer: SdpText, minted: Minted)
    ensures AfterOffer(st, config, sid, a, ft, offer, minted).0.index == st.index
    ensures AfterOffer(st, config, sid, a, ft, offer, minted).1.Ok? ==>
              sid in AfterOffer(st, config, sid, a, ft, offer, minted).0.sessions
  {
  }
}
