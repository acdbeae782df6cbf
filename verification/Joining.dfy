/**
 How a client joins: the credentials it reads in an answer, the checks it makes with them, and the endpoint that
 comes of it (src/server/states.rs, src/handlers/gateway.rs).
 */
module Joining {
  import opened Types
  import opened Sdp
  import opened Endpoints
  import opened SdpGeneration
  import opened Sessions
  import opened ServerStates
  import opened Gateway
  import opened Runs
  import opened IndexAgreement
  import opened IdleSweep
  import opened Convergence
  import opened Renegotiation
  import opened Lifetimes
  import opened WrittenLines

  // ------------------------------------------------------------------ what descriptions say

  lemma DescribedSays(s: Session, a: EndpointId, remote: RemoteDescription, offering: bool, ctx: SdpContext)
    requires Described(s, a, remote, offering, ctx).Ok?
    ensures AllSay(Described(s, a, remote, offering, ctx).value.sdp, ctx)
  {
    DescriptionSays(Sections(MidsOf(s, a), TransceiversOf(s, a).Keys, remote.sections, offering).value,
        TransceiversOf(s, a), ctx);
  }

  /** An offer says actpass and the credentials of the transport that it is made for. */
  lemma OfferSays(s: Session, a: EndpointId, ft: FourTuple, config: SdpConfig)
    requires a in s.endpoints && ft in s.endpoints[a].transports && OfferNow(s, a, ft, config).Ok?
    ensures AllSay(OfferNow(s, a, ft, config).value.sdp,
            SdpContext("actpass", s.endpoints[a].transports[ft].candidate.localCredentials, config))
  {
    var e := s.endpoints[a];
    DescribedSays(s, a, e.remote.value, true,
        SdpContext("actpass", e.transports[ft].candidate.localCredentials, config));
  }

  /** Every offer that an event sends says the credentials of the transport that it goes to. */
  lemma SentOfferSays(st: State, config: SdpConfig, ev: Event, k: nat, sid: SessionId, b: EndpointId)
    requires TreeOk(st) && Agreement(st) && Enabled(st, config, ev)
    requires k < |SentBy(st, config, ev)| && SentBy(st, config, ev)[k].payload.ChannelPayload?
    requires SentBy(st, config, ev)[k].payload.description.sdpType == Offer
    requires Holds(Next(st, config, ev), sid, b, SentBy(st, config, ev)[k].transport.Tuple())
    requires Agreement(Next(st, config, ev))
    ensures var m, st' := SentBy(st, config, ev)[k], Next(st, config, ev);
      AllSay(m.payload.description.sdp,
             SdpContext("actpass", TransportAt(st', sid, b, m.transport.Tuple()).candidate.localCredentials, config))
  {
    SentOffersAreWellAddressed(st, config, ev, k);
    OfferSays(Next(st, config, ev).sessions[sid], b, SentBy(st, config, ev)[k].transport.Tuple(), config);
  }

  /** The credentials that the answer to an offer is made with: the transport's, or new ones. */
  ghost function AnsweredWith(st: State, sid: SessionId, a: EndpointId, ft: Option<FourTuple>,
                              minted: Minted): Credentials {
    if ft.Some? && Holds(st, sid, a, ft.value) then TransportAt(st, sid, a, ft.value).candidate.localCredentials
    else minted.credentials
  }

  lemma KnownAnswerSays(s: Session, a: EndpointId, ft: Option<FourTuple>, d: RemoteDescription, config: SdpConfig)
    requires a in s.endpoints && AfterKnownOffer(s, a, ft, d, config).1.Ok?
    ensures ft.Some? && ft.value in s.endpoints[a].transports
    ensures var cred := s.endpoints[a].transports[ft.value].candidate.localCredentials;
            AllSay(AfterKnownOffer(s, a, ft, d, config).1.value.sdp, SdpContext("passive", cred, config))
  {
    RemoteGrows(s, a, d);
    var s1 := AfterRemote(s, a, d).0;
    assert Grows(s.endpoints[a], s1.endpoints[a]);
    DescribedSays(s1, a, d, false,
        SdpContext("passive", s1.endpoints[a].transports[ft.value].candidate.localCredentials, config));
  }

  /**
   An answer says passive and the credentials of the transport that its offer came over or, for a client that is not
   connected, new ones.
   */
  lemma AnswerSays(st: State, config: SdpConfig, sid: SessionId, a: EndpointId, ft: Option<FourTuple>, offer: SdpText,
                   minted: Minted)
    requires AfterOffer(st, config, sid, a, ft, offer, minted).1.Ok?
    ensures Present(st, sid, a) ==> ft.Some? && Holds(st, sid, a, ft.value)
    ensures AllSay(AfterOffer(st, config, sid, a, ft, offer, minted).1.value.sdp,
            SdpContext("passive", AnsweredWith(st, sid, a, ft, minted), config))
  {
    var d := RemoteDescription(offer.sdpType, offer.parsed.value.sections);
    if Present(st, sid, a) {
      KnownAnswerSays(st.sessions[sid], a, ft, d, config);
    } else {
      DescribedSays(WithSession(st, sid).sessions[sid], a, d, false, SdpContext("passive", minted.credentials, config));
    }
  }

  /** The credentials that a reader finds in a section. */
  ghost predicate Reads(m: Media, ufrag: string, password: string) {
    ValuesOf(m.attributes, "ice-ufrag") == [Some(ufrag)] && ValuesOf(m.attributes, "ice-pwd") == [Some(password)]
  }

  lemma SaidIsRead(sdp: SessionDescription, ctx: SdpContext, k: nat, ufrag: string, password: string)
    requires AllSay(sdp, ctx) && k < |sdp.media|
    ensures Reads(sdp.media[k], ufrag, password) <==> Credentials(ufrag, password) == ctx.credentials
  {
    assert Says(sdp.media[k], SaidBy(ctx, k == 0));
    assert Name(Ufrag) == "ice-ufrag" && Name(Password) == "ice-pwd";
    assert ValuesOf(sdp.media[k].attributes, Name(Ufrag)) == ValuesIn(SaidBy(ctx, k == 0), Ufrag);
    assert ValuesOf(sdp.media[k].attributes, Name(Password)) == ValuesIn(SaidBy(ctx, k == 0), Password);
  }

  // ------------------------------------------------------------------ candidates over time

  lemma {:induction false} PeerOffersKeepCandidates(st: State, sent: seq<Outgoing>, config: SdpConfig,
                                                    peers: seq<ChannelPeer>, ecn: Option<nat>, now: int)
    ensures AfterPeerOffers(st, sent, config, peers, ecn, now).0.candidates == st.candidates
    decreases |peers|
  {
    if peers != [] {
      var p := peers[0];
      if !p.flagged {
        PeerOffersKeepCandidates(st, sent, config, peers[1..], ecn, now);
      } else {
        var (st1, r) := AfterOfferMessage(st, config, ContextOf(p.fourTuple, ecn), p.handle, p.stream, now);
        if r.Ok? {
          PeerOffersKeepCandidates(st1, sent + [r.value], config, peers[1..], ecn, now);
        }
      }
    }
  }

  /** The candidate that an offer leaves: one for every answered offer of a client that is not connected. */
  ghost function Greeting(st: State, config: SdpConfig, sid: SessionId, a: EndpointId, ft: Option<FourTuple>,
                          offer: SdpText, minted: Minted): Option<Candidate> {
    var r := AfterOffer(st, config, sid, a, ft, offer, minted).1;
    if r.Err? || Present(st, sid, a) then None
    else
      Some(Candidate(sid, a, offer.parsed.value.credentials.value, minted.credentials,
                     RemoteDescription(offer.sdpType, offer.parsed.value.sections), r.value, minted.expiry))
  }

  ghost function GreetingIn(st: State, config: SdpConfig, ev: Event): Option<Candidate> {
    if ev.OfferEvent? then Greeting(st, config, ev.sid, ev.endpoint, ev.tuple, ev.offer, ev.minted)
    else if Asks(st, ev) then
      var (sid, a) := st.index[ev.ctx.Tuple()];
      Greeting(st, config, sid, a, Some(ev.ctx.Tuple()), ev.sdp.value, ev.minted)
    else None
  }

  /** The user names of the transports that an event removes. */
  ghost function DroppedNames(st: State, ev: Event): set<UserName> {
    match ev
    case SweepEvent(_, tuples) => UserNames(st, Elements(tuples))
    case AlertEvent(ft) => UserNames(st, {ft})
    case _ => {}
  }

  function Noted(candidates: map<UserName, Candidate>, c: Option<Candidate>): map<UserName, Candidate> {
    if c.None? then candidates else candidates[c.value.localCredentials.ufrag + ":" + c.value.remoteCredentials.ufrag
                                               := c.value]
  }

  lemma OfferNotes(st: State, config: SdpConfig, sid: SessionId, a: EndpointId, ft: Option<FourTuple>, offer: SdpText,
                   minted: Minted)
    ensures AfterOffer(st, config, sid, a, ft, offer, minted).0.candidates
         == Noted(st.candidates, Greeting(st, config, sid, a, ft, offer, minted))
  {
  }

  lemma MessageNotes(st: State, config: SdpConfig, ev: Event)
    requires ev.MessageEvent? && Enabled(st, config, ev)
    ensures Next(st, config, ev).candidates == Noted(st.candidates, GreetingIn(st, config, ev))
  {
    if Asks(st, ev) {
      var (sid, a) := st.index[ev.ctx.Tuple()];
      OfferNotes(st, config, sid, a, Some(ev.ctx.Tuple()), ev.sdp.value, ev.minted);
      var (st1, r) := AfterOffer(st, config, sid, a, Some(ev.ctx.Tuple()), ev.sdp.value, ev.minted);
      if r.Ok? {
        PeerOffersKeepCandidates(st1, [Outgoing(ev.now, ev.ctx, ChannelPayload(ev.handle, ev.stream, r.value))], config,
            ev.peers, ev.ctx.ecn, ev.now);
      }
    }
  }

  lemma OpeningKeepsCandidates(st: State, config: SdpConfig, ev: Event)
    requires ev.OpenEvent? && Enabled(st, config, ev)
    ensures Next(st, config, ev).candidates == st.candidates
  {
  }

  lemma QuietKeepsCandidates(st: State, config: SdpConfig, ev: Event)
    requires Enabled(st, config, ev) && (ev.StunEvent? || ev.MediaEvent? || ev.HandshakeEvent?)
    ensures Next(st, config, ev).candidates == st.candidates
  {
  }

  /**
   What an event does to the candidates: an answered offer of a client that is not connected adds one, under both
   user fragments, and each transport that is removed takes its own with it.
   */
  lemma StepCandidates(st: State, config: SdpConfig, ev: Event)
    requires TreeOk(st) && Agreement(st) && Enabled(st, config, ev)
    ensures Next(st, config, ev).candidates
         == Noted(st.candidates, GreetingIn(st, config, ev)) - DroppedNames(st, ev)
  {
    match ev
    case OfferEvent(sid, a, ft, offer, minted) => OfferNotes(st, config, sid, a, ft, offer, minted);
    case MessageEvent(_, _, _, _, _, _, _) => MessageNotes(st, config, ev);
    case SweepEvent(_, tuples) => RemovalsDropCandidates(st, tuples);
    case AlertEvent(ft) => OwnCandidateDropped(st, ft);
    case OpenEvent(_, _, _, _, _) => OpeningKeepsCandidates(st, config, ev);
    case _ => QuietKeepsCandidates(st, config, ev);
  }

  /** The candidate waits under its name at every moment of the run: no event drops or replaces it. */
  ghost predicate Undisturbed(st: State, config: SdpConfig, events: seq<Event>, u: UserName)
    requires IsRun(st, config, events)
    decreases |events|
  {
    events != [] ==>
      && u !in DroppedNames(st, events[0])
      && Noted(map[], GreetingIn(st, config, events[0])).Keys !! {u}
      && Undisturbed(Next(st, config, events[0]), config, events[1..], u)
  }

  lemma {:induction false} CandidateWaits(st: State, config: SdpConfig, events: seq<Event>, u: UserName)
    requires TreeOk(st) && Agreement(st) && IsRun(st, config, events) && ExclusiveRun(st, config, events)
    requires u in st.candidates && Undisturbed(st, config, events, u)
    ensures u in After(st, config, events).candidates && After(st, config, events).candidates[u] == st.candidates[u]
    decreases |events|
  {
    if events != [] {
      StepCandidates(st, config, events[0]);
      OneCandidateStays(st, config, events[0], u);
      StepKeepsShape(st, config, events[0]);
      CandidateWaits(Next(st, config, events[0]), config, events[1..], u);
    }
  }

  lemma OneCandidateStays(st: State, config: SdpConfig, ev: Event, u: UserName)
    requires Enabled(st, config, ev) && u in st.candidates
    requires Next(st, config, ev).candidates == Noted(st.candidates, GreetingIn(st, config, ev)) - DroppedNames(st, ev)
    requires u !in DroppedNames(st, ev) && Noted(map[], GreetingIn(st, config, ev)).Keys !! {u}
    ensures u in Next(st, config, ev).candidates && Next(st, config, ev).candidates[u] == st.candidates[u]
  {
    var c := GreetingIn(st, config, ev);
    if c.Some? {
      var name := c.value.localCredentials.ufrag + ":" + c.value.remoteCredentials.ufrag;
      assert name in Noted(map[], c).Keys;
    }
  }

  // ------------------------------------------------------------------ from an offer to an endpoint

  /** A check as a client makes it: it controls, gives a priority and signs with the password it has read. */
  function CheckWith(transactionId: nat, ufrag: string, own: string, password: string, nominates: bool): StunRequest {
    StunRequest(transactionId, Some(ufrag + ":" + own), true, true, false, nominates, false, password)
  }

  /** The response of the server to a check. */
  ghost predicate Responds(r: Result<seq<Outgoing>>, ctx: TransportContext, request: StunRequest, now: int) {
    && r.Ok? && |r.value| == 1
    && var m := r.value[0];
    && m.now == now && m.transport == ctx && m.payload.StunPayload?
    && m.payload.transactionId == request.transactionId
    && m.payload.mapped == ctx.peer
    && m.payload.password == if request.username.Some? then Some(request.signedWith) else None
  }

  /**
   A request is answered exactly if it is anonymous, or credible and its candidate's session is still there. The
   response goes back where the request came from and names that address; it is signed like the request.
   */
  lemma RespondsIff(st: State, ctx: TransportContext, request: StunRequest, now: int)
    ensures StunResponse(st, ctx, request, now).Ok? <==>
            Anonymous(request)
            || (Credible(st, request) && st.candidates[request.username.value].sessionId in st.sessions)
    ensures StunResponse(st, ctx, request, now).Ok? ==> Responds(StunResponse(st, ctx, request, now), ctx, request, now)
  {
    CheckStunIff(st, request);
  }

  /** With the credentials read in the answer, and exactly with that password, a client's check is credible. */
  lemma ReadCredentialsAreCredible(st: State, config: SdpConfig, ev: Event, events: seq<Event>, c: Candidate, k: nat,
                                   ufrag: string, password: string, transactionId: nat, nominates: bool)
    requires TreeOk(st) && Agreement(st) && Enabled(st, config, ev) && GreetingIn(st, config, ev) == Some(c)
    requires Exclusive(st, ev)
    requires IsRun(Next(st, config, ev), config, events) && ExclusiveRun(Next(st, config, ev), config, events)
    requires k < |c.localDescription.sdp.media| && Reads(c.localDescription.sdp.media[k], ufrag, password)
    requires Undisturbed(Next(st, config, ev), config, events, ufrag + ":" + c.remoteCredentials.ufrag)
    ensures var st' := After(Next(st, config, ev), config, events);
      && ufrag + ":" + c.remoteCredentials.ufrag in st'.candidates
      && st'.candidates[ufrag + ":" + c.remoteCredentials.ufrag] == c
      && forall p :: Credible(st', CheckWith(transactionId, ufrag, c.remoteCredentials.ufrag, p, nominates))
           <==> p == password
  {
    GreetedReads(st, config, ev, c, k, ufrag, password);
    var u := ufrag + ":" + c.remoteCredentials.ufrag;
    StepCandidates(st, config, ev);
    assert u in Next(st, config, ev).candidates && Next(st, config, ev).candidates[u] == c;
    StepKeepsShape(st, config, ev);
    CandidateWaits(Next(st, config, ev), config, events, u);
  }

  lemma GreetedReads(st: State, config: SdpConfig, ev: Event, c: Candidate, k: nat, ufrag: string, password: string)
    requires GreetingIn(st, config, ev) == Some(c)
    requires k < |c.localDescription.sdp.media|
    ensures Reads(c.localDescription.sdp.media[k], ufrag, password)
       <==> Credentials(ufrag, password) == c.localCredentials
  {
    if ev.OfferEvent? {
      AnswerSays(st, config, ev.sid, ev.endpoint, ev.tuple, ev.offer, ev.minted);
      SaidIsRead(c.localDescription.sdp, SdpContext("passive", ev.minted.credentials, config), k, ufrag, password);
    } else {
      var (sid, a) := st.index[ev.ctx.Tuple()];
      AnswerSays(st, config, sid, a, Some(ev.ctx.Tuple()), ev.sdp.value, ev.minted);
      SaidIsRead(c.localDescription.sdp, SdpContext("passive", ev.minted.credentials, config), k, ufrag, password);
    }
  }

  /** An endpoint as it is when it has just joined with this candidate, over this transport. */
  ghost predicate HasJoined(st: State, c: Candidate, ft: FourTuple, clock: int) {
    && Holds(st, c.sessionId, c.endpointId, ft)
    && MarkOf(st, c.sessionId, c.endpointId, ft) == Some(Mark(c, clock, None, false))
    && ft in st.index && st.index[ft] == (c.sessionId, c.endpointId)
    && var e := st.sessions[c.sessionId].endpoints[c.endpointId];
    && e.id == c.endpointId && e.remote == Some(c.remoteDescription) && e.local == Some(c.localDescription)
    && e.transports.Keys == {ft} && e.mids == [] && e.transceivers == map[] && !e.renegotiate
  }

  /**
   A credible check that nominates, from a client that is not connected, makes it an endpoint of the session under
   the identifier that it offered with, with its first offer as the remote description.
   */
  lemma NominationJoins(st: State, ctx: TransportContext, request: StunRequest, clock: int)
    requires Credible(st, request) && request.useCandidate
    requires var c := st.candidates[request.username.value];
      c.sessionId in st.sessions && c.endpointId !in st.sessions[c.sessionId].endpoints
    ensures HasJoined(AfterStun(st, ctx, request, clock), st.candidates[request.username.value], ctx.Tuple(), clock)
  {
    CheckStunIff(st, request);
  }

  /**
   Together: a client's offer is answered; it reads the credentials in any section of the answer; as long as its
   candidate waits and its session is there, its nominating check is answered and it has joined, as the one that
   offered.
   */
  lemma ClientJoins(st: State, config: SdpConfig, ev: Event, events: seq<Event>, c: Candidate, k: nat,
                    ufrag: string, password: string, transactionId: nat, ctx: TransportContext, now: int, clock: int)
    requires TreeOk(st) && Agreement(st) && Enabled(st, config, ev) && GreetingIn(st, config, ev) == Some(c)
    requires Exclusive(st, ev)
    requires IsRun(Next(st, config, ev), config, events) && ExclusiveRun(Next(st, config, ev), config, events)
    requires k < |c.localDescription.sdp.media| && Reads(c.localDescription.sdp.media[k], ufrag, password)
    requires Undisturbed(Next(st, config, ev), config, events, ufrag + ":" + c.remoteCredentials.ufrag)
    requires var st' := After(Next(st, config, ev), config, events);
      c.sessionId in st'.sessions && c.endpointId !in st'.sessions[c.sessionId].endpoints
    ensures var st' := After(Next(st, config, ev), config, events);
      var request := CheckWith(transactionId, ufrag, c.remoteCredentials.ufrag, password, true);
      && Responds(StunResponse(st', ctx, request, now), ctx, request, now)
      && HasJoined(AfterStun(st', ctx, request, clock), c, ctx.Tuple(), clock)
  {
    ReadCredentialsAreCredible(st, config, ev, events, c, k, ufrag, password, transactionId, true);
    var st' := After(Next(st, config, ev), config, events);
    var request := CheckWith(transactionId, ufrag, c.remoteCredentials.ufrag, password, true);
    RespondsIff(st', ctx, request, now);
    NominationJoins(st', ctx, request, clock);
  }
}
