/**
 Everything that can happen to the server state, as the events of a run, and what every run keeps:
 the shape of the tree.
 */
module Runs {
  import opened Types
  import opened Sdp
  import opened Endpoints
  import opened SdpGeneration
  import opened OfferAnswer
  import opened Sessions
  import opened ServerStates
  import opened Gateway
  import opened GatewayHandlers
  import opened Tracks

  datatype Event =
    /** An offer handed to the server directly, outside any data channel. */
    | OfferEvent(sid: SessionId, endpoint: EndpointId, tuple: Option<FourTuple>, offer: SdpText, minted: Minted)
    /** A connectivity check; `now` is what the clock says, here and for media. */
    | StunEvent(ctx: TransportContext, request: StunRequest, now: int)
    | OpenEvent(ctx: TransportContext, handle: nat, stream: nat, now: int, tracks: seq<(EndpointId, Mid)>)
    | MessageEvent(ctx: TransportContext, handle: nat, stream: nat, sdp: Result<SdpText>, minted: Minted, now: int,
                   peers: seq<ChannelPeer>)
    | MediaEvent(ft: FourTuple, now: int)
    | HandshakeEvent(ft: FourTuple)
    | SweepEvent(cutoff: int, tuples: seq<FourTuple>)
    /** A fatal or closing alert of the DTLS layer (src/handlers/dtls.rs). */
    | AlertEvent(ft: FourTuple)

  /** The orders in an event are orders in which the hash maps of this state can be walked. */
  ghost predicate Enabled(st: State, config: SdpConfig, ev: Event) {
    match ev
    case OpenEvent(ctx, _, _, _, tracks) =>
      GetTransport(st, ctx.Tuple()).Ok? ==>
        var (sid, b) := st.index[ctx.Tuple()]; Enumerates(tracks, TracksFor(st.sessions[sid], b))
    case MessageEvent(ctx, _, _, Ok(SdpText(Offer, parsed)), minted, _, peers) =>
      PeersChosen(st, config, ctx, SdpText(Offer, parsed), minted, peers)
    case SweepEvent(cutoff, tuples) => forall ft :: ft in tuples <==> ft in Idle(st.sessions, cutoff)
    case _ => true
  }

  ghost function Next(st: State, config: SdpConfig, ev: Event): State
    requires Enabled(st, config, ev)
  {
    match ev
    case OfferEvent(sid, a, ft, offer, minted) => AfterOffer(st, config, sid, a, ft, offer, minted).0
    case StunEvent(ctx, request, now) => AfterStun(st, ctx, request, now)
    case OpenEvent(ctx, handle, stream, now, tracks) =>
      if GetTransport(st, ctx.Tuple()).Ok? then
        TracksArePresent(st.sessions[st.index[ctx.Tuple()].0], st.index[ctx.Tuple()].1, tracks);
        AfterOpen(st, config, ctx, handle, stream, now, tracks).0
      else st
    case MessageEvent(ctx, handle, stream, sdp, minted, now, peers) =>
      AfterMessage(st, config, ctx, handle, stream, sdp, minted, now, peers).0
    case MediaEvent(ft, now) => AfterMedia(st, ft, now)
    case HandshakeEvent(ft) => AfterHandshake(st, ft)
    case SweepEvent(_, tuples) => AfterRemovals(st, tuples)
    case AlertEvent(ft) => AfterRemoval(st, ft)
  }

  ghost predicate IsRun(st: State, config: SdpConfig, events: seq<Event>)
    decreases |events|
  {
    events == [] || (Enabled(st, config, events[0]) && IsRun(Next(st, config, events[0]), config, events[1..]))
  }

  ghost function After(st: State, config: SdpConfig, events: seq<Event>): State
    requires IsRun(st, config, events)
    decreases |events|
  {
    if events == [] then st else After(Next(st, config, events[0]), config, events[1..])
  }

  // ------------------------------------------------------------------ steps that keep every transport

  ghost predicate KinTransport(t: Transport, t': Transport) {
    t'.fourTuple == t.fourTuple && t'.candidate == t.candidate
  }

  /** The same endpoint later: the same transports, the old mids first. */
  ghost predicate Kin(e: Endpoint, e': Endpoint) {
    && e'.id == e.id
    && e'.remote == e.remote
    && e'.transports.Keys == e.transports.Keys
    && (forall ft :: ft in e.transports ==> KinTransport(e.transports[ft], e'.transports[ft]))
    && e.mids <= e'.mids
    && (MidsOk(e) ==> MidsOk(e'))
  }

  ghost predicate KinSession(s: Session, s': Session) {
    && s'.id == s.id
    && s'.endpoints.Keys == s.endpoints.Keys
    && forall a :: a in s.endpoints ==> Kin(s.endpoints[a], s'.endpoints[a])
  }

  ghost predicate CandidateOk(username: UserName, c: Candidate) {
    c.Username() == username && Bare(c.remoteDescription.sections)
  }

  /** Only sessions without endpoints may be new, and only candidates in order. */
  ghost predicate KinState(st: State, st': State) {
    && st'.index == st.index
    && (forall sid :: sid in st.sessions ==> sid in st'.sessions && KinSession(st.sessions[sid], st'.sessions[sid]))
    && (forall sid :: sid in st'.sessions && sid !in st.sessions ==> st'.sessions[sid] == Session(sid, map[]))
    && (forall u :: u in st'.candidates ==>
          (u in st.candidates && st'.candidates[u] == st.candidates[u]) || CandidateOk(u, st'.candidates[u]))
  }

  lemma KinSessionTransitive(s: Session, t: Session, u: Session)
    requires KinSession(s, t) && KinSession(t, u)
    ensures KinSession(s, u)
  {
  }

  lemma KinTransitive(st: State, st1: State, st2: State)
    requires KinState(st, st1) && KinState(st1, st2)
    ensures KinState(st, st2)
  {
    forall sid | sid in st.sessions
      ensures sid in st2.sessions && KinSession(st.sessions[sid], st2.sessions[sid])
    {
      KinSessionTransitive(st.sessions[sid], st1.sessions[sid], st2.sessions[sid]);
    }
    forall sid | sid in st2.sessions && sid !in st.sessions
      ensures st2.sessions[sid] == Session(sid, map[])
    {
      if sid in st1.sessions {
        assert KinSession(st1.sessions[sid], st2.sessions[sid]);
        assert st2.sessions[sid].endpoints == map[];
      }
    }
  }

  lemma KinReflexive(st: State)
    ensures KinState(st, st)
  {
  }

  lemma GrowsIsKin(s: Session, s': Session)
    requires SessionGrows(s, s')
    ensures KinSession(s, s')
  {
  }

  lemma PutSessionIsKin(st: State, sid: SessionId, s': Session)
    requires sid in st.sessions && KinSession(st.sessions[sid], s')
    ensures KinState(st, PutSession(st, sid, s'))
  {
  }

  lemma PutEndpointIsKin(st: State, sid: SessionId, a: EndpointId, e': Endpoint)
    requires sid in st.sessions && a in st.sessions[sid].endpoints && Kin(st.sessions[sid].endpoints[a], e')
    ensures KinState(st, PutEndpoint(st, sid, a, e'))
  {
  }

  lemma WithSessionIsKin(st: State, sid: SessionId)
    ensures KinState(st, WithSession(st, sid))
  {
  }

  lemma KnownOfferGrows(s: Session, a: EndpointId, ft: Option<FourTuple>, d: RemoteDescription, config: SdpConfig)
    requires a in s.endpoints
    ensures SessionGrows(s, AfterKnownOffer(s, a, ft, d, config).0)
  {
    RemoteGrows(s, a, d);
    var (s1, r) := AfterRemote(s, a, d);
    if r.Ok? && ft.Some? && ft.value in s1.endpoints[a].transports {
      var answer := AnswerFor(s1, a, d, s1.endpoints[a].transports[ft.value].candidate.localCredentials, config);
      if answer.Ok? {
        LocalGrows(s1, a, answer.value);
        SessionGrowsTransitive(s, s1, AfterLocal(s1, a, answer.value).0);
      }
    }
  }

  lemma AnsweredWithoutTransceivers(s: Session, a: EndpointId, d: RemoteDescription, cred: Credentials,
                                    config: SdpConfig)
    requires a !in s.endpoints && AnswerFor(s, a, d, cred, config).Ok?
    ensures Bare(d.sections)
  {
    var none: Transceivers := map[];
    assert none.Keys == {};
    MatchedIsEligible([], {}, d.sections, false);
  }

  lemma KnownOfferIsKin(st: State, config: SdpConfig, sid: SessionId, a: EndpointId, ft: Option<FourTuple>,
                        d: RemoteDescription)
    requires sid in st.sessions && a in st.sessions[sid].endpoints
    ensures KinState(st, PutSession(st, sid, AfterKnownOffer(st.sessions[sid], a, ft, d, config).0))
  {
    var s := st.sessions[sid];
    var s' := AfterKnownOffer(s, a, ft, d, config).0;
    KnownOfferGrows(s, a, ft, d, config);
    GrowsIsKin(s, s');
    PutSessionIsKin(st, sid, s');
  }

  lemma CandidateIsKin(st: State, c: Candidate)
    requires Bare(c.remoteDescription.sections)
    ensures KinState(st, WithCandidate(st, c))
  {
  }

  lemma OfferIsKin(st: State, config: SdpConfig, sid: SessionId, a: EndpointId, ft: Option<FourTuple>, offer: SdpText,
                   minted: Minted)
    ensures KinState(st, AfterOffer(st, config, sid, a, ft, offer, minted).0)
  {
    if offer.parsed.Ok? && offer.parsed.value.credentials.Ok? {
      var st1 := WithSession(st, sid);
      WithSessionIsKin(st, sid);
      var s, d := st1.sessions[sid], RemoteDescription(offer.sdpType, offer.parsed.value.sections);
      if a in s.endpoints {
        KnownOfferIsKin(st1, config, sid, a, ft, d);
        KinTransitive(st, st1, PutSession(st1, sid, AfterKnownOffer(s, a, ft, d, config).0));
      } else if AnswerFor(s, a, d, minted.credentials, config).Ok? {
        AnsweredWithoutTransceivers(s, a, d, minted.credentials, config);
        var answer := AnswerFor(s, a, d, minted.credentials, config).value;
        var c := NewCandidate(sid, a, offer.parsed.value.credentials.value, d, answer, minted);
        CandidateIsKin(st1, c);
        KinTransitive(st, st1, WithCandidate(st1, c));
      }
    } else {
      KinReflexive(st);
    }
  }

  lemma AnswerIsKin(st: State, sid: SessionId, a: EndpointId, answer: SdpText)
    ensures KinState(st, AfterAnswer(st, sid, a, answer).0)
  {
    if answer.parsed.Ok? {
      var st1 := WithSession(st, sid);
      WithSessionIsKin(st, sid);
      var s, d := st1.sessions[sid], RemoteDescription(answer.sdpType, answer.parsed.value.sections);
      if a in s.endpoints {
        RemoteGrows(s, a, d);
        GrowsIsKin(s, AfterRemote(s, a, d).0);
        PutSessionIsKin(st1, sid, AfterRemote(s, a, d).0);
        KinTransitive(st, st1, AfterAnswer(st, sid, a, answer).0);
      }
    } else {
      KinReflexive(st);
    }
  }

  lemma OfferMessageIsKin(st: State, config: SdpConfig, ctx: TransportContext, handle: nat, stream: nat, now: int)
    ensures KinState(st, AfterOfferMessage(st, config, ctx, handle, stream, now).0)
  {
    if FindEndpoint(st, ctx.Tuple()).Ok? {
      var (sid, a) := FindEndpoint(st, ctx.Tuple()).value;
      var e := st.sessions[sid].endpoints[a];
      assert MidsOk(e) ==> MidsOk(e.(renegotiate := false));
      PutEndpointIsKin(st, sid, a, e.(renegotiate := false));
    } else {
      KinReflexive(st);
    }
  }

  lemma {:induction false} PeerOffersAreKin(st: State, sent: seq<Outgoing>, config: SdpConfig,
                                            peers: seq<ChannelPeer>, ecn: Option<nat>, now: int)
    ensures KinState(st, AfterPeerOffers(st, sent, config, peers, ecn, now).0)
    decreases |peers|
  {
    if peers == [] {
      KinReflexive(st);
    } else if !peers[0].flagged {
      PeerOffersAreKin(st, sent, config, peers[1..], ecn, now);
    } else {
      var p := peers[0];
      var (st', r) := AfterOfferMessage(st, config, ContextOf(p.fourTuple, ecn), p.handle, p.stream, now);
      OfferMessageIsKin(st, config, ContextOf(p.fourTuple, ecn), p.handle, p.stream, now);
      if r.Ok? {
        PeerOffersAreKin(st', sent + [r.value], config, peers[1..], ecn, now);
        KinTransitive(st, st', AfterPeerOffers(st', sent + [r.value], config, peers[1..], ecn, now).0);
      }
    }
  }

  lemma MessageIsKin(st: State, config: SdpConfig, ctx: TransportContext, handle: nat, stream: nat,
                     request: Result<SdpText>, minted: Minted, now: int, peers: seq<ChannelPeer>)
    ensures KinState(st, AfterMessage(st, config, ctx, handle, stream, request, minted, now, peers).0)
  {
    KinReflexive(st);
    if request.Ok? && ctx.Tuple() in st.index {
      var (sid, a) := st.index[ctx.Tuple()];
      if request.value.sdpType == Offer {
        OfferIsKin(st, config, sid, a, Some(ctx.Tuple()), request.value, minted);
        var (st1, r) := AfterOffer(st, config, sid, a, Some(ctx.Tuple()), request.value, minted);
        if r.Ok? {
          var sent := [Outgoing(now, ctx, ChannelPayload(handle, stream, r.value))];
          PeerOffersAreKin(st1, sent, config, peers, ctx.ecn, now);
          KinTransitive(st, st1, AfterPeerOffers(st1, sent, config, peers, ctx.ecn, now).0);
        }
      } else if request.value.sdpType == Answer {
        AnswerIsKin(st, sid, a, request.value);
      }
    }
  }

  lemma {:induction false} MirrorsAreKin(e: Endpoint, s: Session, tracks: seq<(EndpointId, Mid)>)
    requires TracksOf(s, tracks)
    requires forall k :: 0 <= k < |tracks| ==> MidsOk(s.endpoints[tracks[k].0])
    ensures Grows(e, WithMirrors(e, s, tracks))
    ensures WithMirrors(e, s, tracks).renegotiate == e.renegotiate
  {
    if tracks != [] {
      var n := |tracks| - 1;
      MirrorsAreKin(e, s, tracks[..n]);
      assert TransceiverOk(tracks[n].1, s.endpoints[tracks[n].0].transceivers[tracks[n].1]);
      WithTransceiverGrows(WithMirrors(e, s, tracks[..n]), MirrorOf(s, tracks[n]));
    }
  }

  lemma OpenedIsKin(s: Session, b: EndpointId, ft: FourTuple, handle: nat, stream: nat, tracks: seq<(EndpointId, Mid)>)
    requires b in s.endpoints && ft in s.endpoints[b].transports && TracksOf(s, tracks)
    requires forall a :: a in s.endpoints ==> MidsOk(s.endpoints[a])
    ensures Kin(s.endpoints[b], Opened(s, b, ft, handle, stream, tracks))
  {
    var e := s.endpoints[b];
    var t := e.transports[ft].(channel := Some((handle, stream)));
    var e1 := e.(transports := e.transports[ft := t], renegotiate := tracks != []);
    assert MidsOk(e1);
    MirrorsAreKin(e1, s, tracks);
  }

  lemma PutTransportIsKin(st: State, ft: FourTuple, t: Transport)
    requires GetTransport(st, ft).Ok? && KinTransport(GetTransport(st, ft).value, t)
    ensures KinState(st, PutTransport(st, ft, t))
  {
    var (sid, a) := FindEndpoint(st, ft).value;
    var e := st.sessions[sid].endpoints[a];
    var e' := e.(transports := e.transports[ft := t]);
    assert MidsOk(e) ==> MidsOk(e');
    PutEndpointIsKin(st, sid, a, e');
  }

  // ------------------------------------------------------------------ the shape of the tree

  ghost predicate EndpointOk(sid: SessionId, a: EndpointId, e: Endpoint) {
    && e.id == a
    && e.transports != map[]
    && (forall ft :: ft in e.transports ==> TransportOk(sid, a, ft, e.transports[ft]))
    && e.remote.Some? && Bare(e.remote.value.sections)
    && MidsOk(e)
  }

  ghost predicate TransportOk(sid: SessionId, a: EndpointId, ft: FourTuple, t: Transport) {
    t.fourTuple == ft && t.candidate.sessionId == sid && t.candidate.endpointId == a
  }

  ghost predicate SessionOk(sid: SessionId, s: Session) {
    s.id == sid && forall a :: a in s.endpoints ==> EndpointOk(sid, a, s.endpoints[a])
  }

  /**
   No endpoint without transports, every key is the identity of what it leads to, every transport's
   candidate names the session and the endpoint it is found in, and mids and transceivers agree.
   */
  ghost predicate TreeOk(st: State) {
    && (forall sid :: sid in st.sessions ==> SessionOk(sid, st.sessions[sid]))
    && (forall u :: u in st.candidates ==> CandidateOk(u, st.candidates[u]))
  }

  lemma KinKeepsTree(st: State, st': State)
    requires TreeOk(st) && KinState(st, st')
    ensures TreeOk(st')
  {
    forall sid | sid in st'.sessions
      ensures SessionOk(sid, st'.sessions[sid])
    {
      if sid in st.sessions {
        var s, s' := st.sessions[sid], st'.sessions[sid];
        assert SessionOk(sid, s) && KinSession(s, s');
        forall a | a in s'.endpoints
          ensures EndpointOk(sid, a, s'.endpoints[a])
        {
          KinKeepsEndpoint(sid, a, s.endpoints[a], s'.endpoints[a]);
        }
      }
    }
  }

  lemma KinKeepsEndpoint(sid: SessionId, a: EndpointId, e: Endpoint, e': Endpoint)
    requires EndpointOk(sid, a, e) && Kin(e, e')
    ensures EndpointOk(sid, a, e')
  {
  }

  lemma PutOpenedIsKin(st: State, ft: FourTuple, handle: nat, stream: nat, tracks: seq<(EndpointId, Mid)>)
    requires TreeOk(st) && GetTransport(st, ft).Ok? && TracksOf(st.sessions[st.index[ft].0], tracks)
    ensures var (sid, b) := st.index[ft];
      KinState(st, PutEndpoint(st, sid, b, Opened(st.sessions[sid], b, ft, handle, stream, tracks)))
  {
    var (sid, b) := st.index[ft];
    var s := st.sessions[sid];
    assert SessionOk(sid, s);
    assert forall a :: a in s.endpoints ==> MidsOk(s.endpoints[a]) by {
      assert forall a :: a in s.endpoints ==> EndpointOk(sid, a, s.endpoints[a]);
    }
    OpenedIsKin(s, b, ft, handle, stream, tracks);
    PutEndpointIsKin(st, sid, b, Opened(s, b, ft, handle, stream, tracks));
  }

  lemma KinThenOffer(st: State, st1: State, config: SdpConfig, ctx: TransportContext, handle: nat, stream: nat,
                     now: int)
    requires KinState(st, st1)
    ensures KinState(st, AfterOfferMessage(st1, config, ctx, handle, stream, now).0)
  {
    OfferMessageIsKin(st1, config, ctx, handle, stream, now);
    KinTransitive(st, st1, AfterOfferMessage(st1, config, ctx, handle, stream, now).0);
  }

  lemma OpenIsKin(st: State, config: SdpConfig, ctx: TransportContext, handle: nat, stream: nat, now: int,
                  tracks: seq<(EndpointId, Mid)>)
    requires TreeOk(st) && GetTransport(st, ctx.Tuple()).Ok?
    requires TracksOf(st.sessions[st.index[ctx.Tuple()].0], tracks)
    ensures KinState(st, AfterOpen(st, config, ctx, handle, stream, now, tracks).0)
  {
    var (sid, b) := st.index[ctx.Tuple()];
    var e := Opened(st.sessions[sid], b, ctx.Tuple(), handle, stream, tracks);
    var st1 := PutEndpoint(st, sid, b, e);
    assert KinState(st, st1) by {
      PutOpenedIsKin(st, ctx.Tuple(), handle, stream, tracks);
    }
    KinThenOffer(st, st1, config, ctx, handle, stream, now);
  }

  /** Events other than connectivity checks, sweeps and alerts keep every transport where it is. */
  lemma MostStepsAreKin(st: State, config: SdpConfig, ev: Event)
    requires TreeOk(st) && Enabled(st, config, ev)
    requires !ev.StunEvent? && !ev.SweepEvent? && !ev.AlertEvent?
    ensures KinState(st, Next(st, config, ev))
  {
    match ev
    case OfferEvent(sid, a, ft, offer, minted) => OfferIsKin(st, config, sid, a, ft, offer, minted);
    case OpenEvent(ctx, handle, stream, now, tracks) =>
      if GetTransport(st, ctx.Tuple()).Ok? {
        TracksArePresent(st.sessions[st.index[ctx.Tuple()].0], st.index[ctx.Tuple()].1, tracks);
        OpenIsKin(st, config, ctx, handle, stream, now, tracks);
      } else {
        KinReflexive(st);
      }
    case MessageEvent(ctx, handle, stream, sdp, minted, now, peers) =>
      MessageIsKin(st, config, ctx, handle, stream, sdp, minted, now, peers);
    case MediaEvent(ft, now) =>
      if GetTransport(st, ft).Ok? {
        PutTransportIsKin(st, ft, GetTransport(st, ft).value.(lastActivity := now));
      } else {
        KinReflexive(st);
      }
    case HandshakeEvent(ft) =>
      if GetTransport(st, ft).Ok? {
        PutTransportIsKin(st, ft, GetTransport(st, ft).value.(srtpReady := true));
      } else {
        KinReflexive(st);
      }
  }

  lemma NominatedIsOk(sid: SessionId, s: Session, c: Candidate, ft: FourTuple, now: int)
    requires SessionOk(sid, s) && c.sessionId == sid && Bare(c.remoteDescription.sections)
    ensures SessionOk(sid, WithNominated(s, c, ft, now))
  {
    var s', a := WithNominated(s, c, ft, now), c.endpointId;
    forall b | b in s'.endpoints
      ensures EndpointOk(sid, b, s'.endpoints[b])
    {
      if b != a {
        assert EndpointOk(sid, b, s.endpoints[b]);
      } else if a in s.endpoints {
        assert EndpointOk(sid, a, s.endpoints[a]);
        assert ft in s'.endpoints[a].transports;
      } else {
        assert ft in s'.endpoints[a].transports;
      }
    }
  }

  lemma NominationKeepsTree(st: State, c: Candidate, ft: FourTuple, useCandidate: bool, now: int)
    requires TreeOk(st) && Bare(c.remoteDescription.sections)
    ensures TreeOk(AfterNomination(st, c, ft, useCandidate, now).0)
  {
    if c.sessionId in st.sessions {
      NominatedIsOk(c.sessionId, st.sessions[c.sessionId], c, ft, now);
    }
  }

  lemma StunKeepsTree(st: State, ctx: TransportContext, request: StunRequest, now: int)
    requires TreeOk(st)
    ensures TreeOk(AfterStun(st, ctx, request, now))
  {
    var c := CheckStun(st, request);
    if c.Ok? && c.value.Some? {
      assert CandidateOk(request.username.value, c.value.value);
      NominationKeepsTree(st, c.value.value, ctx.Tuple(), request.useCandidate, now);
    }
  }

  lemma WithoutTransportIsOk(sid: SessionId, a: EndpointId, e: Endpoint, ft: FourTuple)
    requires EndpointOk(sid, a, e) && e.transports - {ft} != map[]
    ensures EndpointOk(sid, a, e.(transports := e.transports - {ft}))
  {
  }

  lemma PutEndpointIsOk(sid: SessionId, s: Session, a: EndpointId, e: Endpoint)
    requires SessionOk(sid, s) && EndpointOk(sid, a, e)
    ensures SessionOk(sid, s.(endpoints := s.endpoints[a := e]))
  {
  }

  lemma WithoutEndpointIsOk(sid: SessionId, s: Session, a: EndpointId)
    requires SessionOk(sid, s)
    ensures SessionOk(sid, s.(endpoints := s.endpoints - {a}))
  {
  }

  lemma RemovalKeepsSession(st: State, ft: FourTuple, sid: SessionId)
    requires sid in st.sessions && SessionOk(sid, st.sessions[sid]) && sid in AfterRemoval(st, ft).sessions
    ensures SessionOk(sid, AfterRemoval(st, ft).sessions[sid])
  {
    if FindEndpoint(st, ft).Ok? && FindEndpoint(st, ft).value.0 == sid {
      var s, a := st.sessions[sid], FindEndpoint(st, ft).value.1;
      WithoutEndpointIsOk(sid, s, a);
      if s.endpoints[a].transports - {ft} != map[] {
        WithoutTransportIsOk(sid, a, s.endpoints[a], ft);
        PutEndpointIsOk(sid, s, a, s.endpoints[a].(transports := s.endpoints[a].transports - {ft}));
      }
    }
  }

  lemma RemovalShrinks(st: State, ft: FourTuple)
    ensures AfterRemoval(st, ft).sessions.Keys <= st.sessions.Keys
    ensures forall u :: u in AfterRemoval(st, ft).candidates ==>
              u in st.candidates && AfterRemoval(st, ft).candidates[u] == st.candidates[u]
  {
  }

  lemma RemovalKeepsTree(st: State, ft: FourTuple)
    requires TreeOk(st)
    ensures TreeOk(AfterRemoval(st, ft))
  {
    RemovalShrinks(st, ft);
    var sessions := AfterRemoval(st, ft).sessions;
    forall sid | sid in sessions
      ensures SessionOk(sid, sessions[sid])
    {
      assert sid in sessions.Keys;
      RemovalKeepsSession(st, ft, sid);
    }
  }

  lemma {:induction false} RemovalsKeepTree(st: State, tuples: seq<FourTuple>)
    requires TreeOk(st)
    ensures TreeOk(AfterRemovals(st, tuples))
    decreases |tuples|
  {
    if tuples != [] {
      RemovalKeepsTree(st, tuples[0]);
      RemovalsKeepTree(AfterRemoval(st, tuples[0]), tuples[1..]);
    }
  }

  lemma StepKeepsTree(st: State, config: SdpConfig, ev: Event)
    requires TreeOk(st) && Enabled(st, config, ev)
    ensures TreeOk(Next(st, config, ev))
  {
    if ev.StunEvent? {
      StunKeepsTree(st, ev.ctx, ev.request, ev.now);
    } else if ev.SweepEvent? {
      RemovalsKeepTree(st, ev.tuples);
    } else if ev.AlertEvent? {
      RemovalKeepsTree(st, ev.ft);
    } else {
      MostStepsAreKin(st, config, ev);
      KinKeepsTree(st, Next(st, config, ev));
    }
  }

  /** Whatever happens, the tree keeps its shape. */
  lemma {:induction false} EveryRunKeepsTree(st: State, config: SdpConfig, events: seq<Event>)
    requires TreeOk(st) && IsRun(st, config, events)
    ensures TreeOk(After(st, config, events))
    decreases |events|
  {
    if events != [] {
      StepKeepsTree(st, config, events[0]);
      EveryRunKeepsTree(Next(st, config, events[0]), config, events[1..]);
    }
  }
}
