/**
 The gateway: connectivity checks, data channel signalling, media forwarding and the idle sweep
 (src/handlers/gateway.rs).

 Hash maps are walked in any order: where an order matters to the outcome it is a parameter of the
 functions here, and the methods choose one.
 */
module Gateway {
  import opened Types
  import opened Directions
  import opened Endpoints
  import opened MirrorKeys
  import opened SdpGeneration
  import opened Sessions
  import opened ServerStates
  import Interceptors
  import Streams = ReceiverStreams

  datatype MediaPacket = RtpMedia(packet: Streams.RtpPacket) | RtcpMedia(packets: seq<Interceptors.RtcpPacket>)

  datatype Payload =
    | ChannelPayload(handle: nat, stream: nat, description: LocalDescription)
    | MediaPayload(packet: MediaPacket)
    | StunPayload(transactionId: nat, mapped: SocketAddr, password: Option<string>)

  datatype Outgoing = Outgoing(now: int, transport: TransportContext, payload: Payload)

  function ContextOf(ft: FourTuple, ecn: Option<nat>): TransportContext { TransportContext(ft.local, ft.peer, ecn) }

  const NOT_SET := "ErrClientTransportNotSet"

  // ------------------------------------------------------------------ connectivity checks

  /** The attributes of a binding request; `signedWith` is the password its integrity attribute was made with. */
  datatype StunRequest = StunRequest(
    transactionId: nat, username: Option<UserName>, priority: bool, controlling: bool, controlled: bool,
    useCandidate: bool, networkCost: bool, signedWith: string)

  function CheckStun(st: State, request: StunRequest): Result<Option<Candidate>> {
    match request.username
    case Some(username) =>
      if !request.priority then Err("no priority")
      else if request.controlling && request.controlled then Err("two roles")
      else if !request.controlling && request.controlled && request.useCandidate then Err("nominating while controlled")
      else if !request.controlling && !request.controlled then Err("no role")
      else if username !in st.candidates then Err("username not found")
      else if request.signedWith != st.candidates[username].localCredentials.password then Err("ErrIntegrityMismatch")
      else Ok(Some(st.candidates[username]))
    case None =>
      if request.controlled || request.controlling || request.networkCost || request.priority || request.useCandidate
      then Err("unexpected attribute")
      else Ok(None)
  }

  /** A known user asks, signed with its password, in exactly one role, and nominates only when it is in control. */
  predicate Credible(st: State, request: StunRequest) {
    && request.username.Some? && request.username.value in st.candidates
    && request.signedWith == st.candidates[request.username.value].localCredentials.password
    && request.priority
    && request.controlling != request.controlled
    && (request.useCandidate ==> request.controlling)
  }

  /** Nobody in particular asks for its own address. */
  predicate Anonymous(request: StunRequest) {
    && request.username.None? && !request.priority && !request.controlling && !request.controlled
    && !request.useCandidate && !request.networkCost
  }

  /** Checks yield a candidate exactly for credible requests, and none without an error exactly for anonymous ones. */
  lemma CheckStunIff(st: State, request: StunRequest)
    ensures CheckStun(st, request).Ok? <==> Credible(st, request) || Anonymous(request)
    ensures Credible(st, request) ==> CheckStun(st, request) == Ok(Some(st.candidates[request.username.value]))
    ensures Anonymous(request) ==> CheckStun(st, request) == Ok(None)
  {
  }

  function AfterStun(st: State, ctx: TransportContext, request: StunRequest, clock: int): State {
    match CheckStun(st, request)
    case Ok(Some(c)) => AfterNomination(st, c, ctx.Tuple(), request.useCandidate, clock).0
    case _ => st
  }

  function StunResponse(st: State, ctx: TransportContext, request: StunRequest, now: int): Result<seq<Outgoing>> {
    match CheckStun(st, request)
    case Err(e) => Err(e)
    case Ok(None) => Ok([Outgoing(now, ctx, StunPayload(request.transactionId, ctx.peer, None))])
    case Ok(Some(c)) =>
      var r := AfterNomination(st, c, ctx.Tuple(), request.useCandidate, now).1;
      if r.Err? then Err(r.error)
      else
        var payload := StunPayload(request.transactionId, ctx.peer, Some(c.localCredentials.password));
        Ok([Outgoing(now, ctx, payload)])
  }

  // ------------------------------------------------------------------ offers to a client

  /** Asking for an offer takes the endpoint's flag down, even when no offer can be made. */
  function AfterOfferMessage(st: State, config: SdpConfig, ctx: TransportContext, handle: nat, stream: nat,
                             now: int): (State, Result<Outgoing>) {
    var ft := ctx.Tuple();
    if ft !in st.index then (st, Err(NOT_SET))
    else
      match FindEndpoint(st, ft)
      case Err(e) => (st, Err(e))
      case Ok((sid, a)) =>
        var e := st.sessions[sid].endpoints[a].(renegotiate := false);
        var st1 := PutEndpoint(st, sid, a, e);
        (st1, OfferMessage(st1.sessions[sid], a, config, ctx, handle, stream, now))
  }

  function OfferMessage(s: Session, a: EndpointId, config: SdpConfig, ctx: TransportContext, handle: nat, stream: nat,
                        now: int): Result<Outgoing>
    requires a in s.endpoints
  {
    var e := s.endpoints[a];
    if e.remote.None? then Err("remote_description is not set")
    else if ctx.Tuple() !in e.transports then Err("can't find transport for endpoint id")
    else
      match OfferFor(s, a, e.remote.value, e.transports[ctx.Tuple()].candidate.localCredentials, config)
      case Err(err) => Err(err)
      case Ok(offer) => Ok(Outgoing(now, ctx, ChannelPayload(handle, stream, offer)))
  }

  // ------------------------------------------------------------------ a data channel opens

  /** The tracks that the server receives from the other endpoints. */
  function TracksFor(s: Session, b: EndpointId): set<(EndpointId, Mid)> {
    set a, m | a in s.endpoints && a != b && m in s.endpoints[a].transceivers
               && s.endpoints[a].transceivers[m].direction == Recvonly :: (a, m)
  }

  function MirrorOf(s: Session, track: (EndpointId, Mid)): Transceiver
    requires track.0 in s.endpoints && track.1 in s.endpoints[track.0].transceivers
  {
    s.endpoints[track.0].transceivers[track.1].(mid := MirrorKey(track.0, track.1), direction := Sendonly)
  }

  ghost predicate TracksOf(s: Session, tracks: seq<(EndpointId, Mid)>) {
    forall k :: 0 <= k < |tracks| ==> tracks[k].0 in s.endpoints && tracks[k].1 in s.endpoints[tracks[k].0].transceivers
  }

  /** The endpoint takes over the given tracks, in this order. */
  function WithMirrors(e: Endpoint, s: Session, tracks: seq<(EndpointId, Mid)>): Endpoint
    requires TracksOf(s, tracks)
  {
    if tracks == [] then e
    else
      var n := |tracks| - 1;
      WithTransceiver(WithMirrors(e, s, tracks[..n]), MirrorOf(s, tracks[n]))
  }

  function Opened(s: Session, b: EndpointId, ft: FourTuple, handle: nat, stream: nat,
                  tracks: seq<(EndpointId, Mid)>): Endpoint
    requires b in s.endpoints && ft in s.endpoints[b].transports && TracksOf(s, tracks)
  {
    var e := s.endpoints[b];
    var t := e.transports[ft].(channel := Some((handle, stream)));
    WithMirrors(e.(transports := e.transports[ft := t], renegotiate := tracks != []), s, tracks)
  }

  function AfterOpen(st: State, config: SdpConfig, ctx: TransportContext, handle: nat, stream: nat, now: int,
                     tracks: seq<(EndpointId, Mid)>): (State, Result<seq<Outgoing>>)
    requires ctx.Tuple() in st.index && GetTransport(st, ctx.Tuple()).Ok? ==>
               TracksOf(st.sessions[st.index[ctx.Tuple()].0], tracks)
  {
    var ft := ctx.Tuple();
    if ft !in st.index then (st, Err(NOT_SET))
    else if GetTransport(st, ft).Err? then (st, Err(GetTransport(st, ft).error))
    else
      var (sid, b) := st.index[ft];
      var e := Opened(st.sessions[sid], b, ft, handle, stream, tracks);
      var st1 := PutEndpoint(st, sid, b, e);
      if !e.renegotiate then (st1, Ok([]))
      else
        var (st2, r) := AfterOfferMessage(st1, config, ctx, handle, stream, now);
        (st2, if r.Ok? then Ok([r.value]) else Err(r.error))
  }

  // ------------------------------------------------------------------ a description arrives in band

  datatype ChannelPeer = ChannelPeer(endpoint: EndpointId, fourTuple: FourTuple, handle: nat, stream: nat,
                                     flagged: bool)

  function PeerAt(s: Session, a: EndpointId, ft: FourTuple): ChannelPeer
    requires a in s.endpoints && ft in s.endpoints[a].transports && s.endpoints[a].transports[ft].channel.Some?
  {
    var e := s.endpoints[a];
    ChannelPeer(a, ft, e.transports[ft].channel.value.0, e.transports[ft].channel.value.1, e.renegotiate)
  }

  /** The transports of the other endpoints whose data channel is open. */
  function ChannelPeers(s: Session, b: EndpointId): set<ChannelPeer> {
    set a, ft | a in s.endpoints && a != b && ft in s.endpoints[a].transports
                && s.endpoints[a].transports[ft].channel.Some? :: PeerAt(s, a, ft)
  }

  /** One offer for each flagged peer; the first that fails ends it. */
  function AfterPeerOffers(st: State, sent: seq<Outgoing>, config: SdpConfig, peers: seq<ChannelPeer>,
                           ecn: Option<nat>, now: int): (State, Result<seq<Outgoing>>)
    decreases |peers|
  {
    if peers == [] then (st, Ok(sent))
    else
      var p := peers[0];
      if !p.flagged then AfterPeerOffers(st, sent, config, peers[1..], ecn, now)
      else
        var (st', r) := AfterOfferMessage(st, config, ContextOf(p.fourTuple, ecn), p.handle, p.stream, now);
        if r.Err? then (st', Err(r.error))
        else AfterPeerOffers(st', sent + [r.value], config, peers[1..], ecn, now)
  }

  function AfterChannelOffer(st: State, config: SdpConfig, ctx: TransportContext, handle: nat, stream: nat,
                             offer: SdpText, minted: Minted, now: int, peers: seq<ChannelPeer>)
    : (State, Result<seq<Outgoing>>)
    requires ctx.Tuple() in st.index
  {
    var (sid, a) := st.index[ctx.Tuple()];
    var (st1, r) := AfterOffer(st, config, sid, a, Some(ctx.Tuple()), offer, minted);
    if r.Err? then (st1, Err(r.error))
    else
      var answer := Outgoing(now, ctx, ChannelPayload(handle, stream, r.value));
      AfterPeerOffers(st1, [answer], config, peers, ctx.ecn, now)
  }

  /** `request` is the description in the payload, or the error of decoding it. */
  function AfterMessage(st: State, config: SdpConfig, ctx: TransportContext, handle: nat, stream: nat,
                        request: Result<SdpText>, minted: Minted, now: int, peers: seq<ChannelPeer>)
    : (State, Result<seq<Outgoing>>)
  {
    if request.Err? then (st, Err(request.error))
    else if ctx.Tuple() !in st.index then (st, Err(NOT_SET))
    else
      match request.value.sdpType
      case Offer => AfterChannelOffer(st, config, ctx, handle, stream, request.value, minted, now, peers)
      case Answer =>
        var (sid, a) := st.index[ctx.Tuple()];
        var (st1, r) := AfterAnswer(st, sid, a, request.value);
        (st1, if r.Ok? then Ok([]) else Err(r.error))
      case _ => (st, Err("Unsupported SDP type"))
  }

  // ------------------------------------------------------------------ media

  /** The transports of the other endpoints that media can be sent to. */
  function MediaPeers(s: Session, b: EndpointId): set<(EndpointId, FourTuple)> {
    set a, ft | a in s.endpoints && a != b && ft in s.endpoints[a].transports
                && s.endpoints[a].transports[ft].srtpReady :: (a, ft)
  }

  function AfterMedia(st: State, ft: FourTuple, now: int): State {
    match GetTransport(st, ft)
    case Err(_) => st
    case Ok(t) => PutTransport(st, ft, t.(lastActivity := now))
  }

  function Copies(peers: seq<(EndpointId, FourTuple)>, ecn: Option<nat>, packet: MediaPacket, now: int): seq<Outgoing> {
    seq(|peers|, k requires 0 <= k < |peers| => Outgoing(now, ContextOf(peers[k].1, ecn), MediaPayload(packet)))
  }

  /** A completed DTLS handshake makes a transport ready for media (src/handlers/dtls.rs). */
  function AfterHandshake(st: State, ft: FourTuple): State {
    match GetTransport(st, ft)
    case Err(_) => st
    case Ok(t) => PutTransport(st, ft, t.(srtpReady := true))
  }

  // ------------------------------------------------------------------ the idle sweep

  function IdleIn(e: Endpoint, cutoff: int): set<FourTuple> {
    set ft | ft in e.transports && e.transports[ft].lastActivity <= cutoff :: e.transports[ft].fourTuple
  }

  function IdleInSession(s: Session, cutoff: int): set<FourTuple> {
    set a, ft | a in s.endpoints && ft in IdleIn(s.endpoints[a], cutoff) :: ft
  }

  function Idle(sessions: map<SessionId, Session>, cutoff: int): set<FourTuple> {
    set sid, ft | sid in sessions && ft in IdleInSession(sessions[sid], cutoff) :: ft
  }

  function AfterRemovals(st: State, tuples: seq<FourTuple>): State
    decreases |tuples|
  {
    if tuples == [] then st else AfterRemovals(AfterRemoval(st, tuples[0]), tuples[1..])
  }
}
