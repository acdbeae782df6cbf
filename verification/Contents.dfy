/**
 What the transceivers of a session carry besides their directions: the kind, the sender and the parameters of
 a track (src/session/mod.rs, src/handlers/gateway.rs).
 */
module Contents {
  import opened Types
  import opened Directions
  import opened Sdp
  import opened Endpoints
  import opened MirrorKeys
  import opened SdpGeneration
  import opened Sessions
  import opened ServerStates
  import opened Gateway
  import opened Tracks
  import opened Runs
  import opened Convergence

  datatype Content = Content(kind: Kind, sender: Option<Sender>, params: RtpParameters)

  function ContentOf(t: Transceiver): Content { Content(t.kind, t.sender, t.params) }

  /** The content of the transceiver that endpoint `a` holds under mid `m`. */
  function ContentAt(s: Session, a: EndpointId, m: Mid): Option<Content> {
    if a in s.endpoints && m in s.endpoints[a].transceivers
    then Some(ContentOf(s.endpoints[a].transceivers[m]))
    else None
  }

  /** The same endpoints with the same contents. */
  ghost predicate SameContents(s: Session, s': Session) {
    && s'.endpoints.Keys == s.endpoints.Keys
    && forall a: EndpointId, m: Mid :: ContentAt(s', a, m) == ContentAt(s, a, m)
  }

  lemma SameContentsTransitive(s: Session, t: Session, u: Session)
    requires SameContents(s, t) && SameContents(t, u)
    ensures SameContents(s, u)
  {
  }

  // ------------------------------------------------------------------ publishing

  /**
   What publishing does to every transceiver of every endpoint: the offering endpoint and everyone who is newly
   sent the track hold it with its kind, sender and parameters; what was held before keeps its content.
   */
  lemma PublishedContent(s: Session, c: EndpointId, x: Mid, d: Direction, kind: Kind, track: Track, b: EndpointId,
                         m: Mid)
    requires c in s.endpoints
    ensures ContentAt(Published(s, c, x, d, kind, track), b, m)
         == if b == c && m == x then Some(Content(kind, track.sender, track.params))
            else if b != c && b in s.endpoints && m == MirrorKey(c, x) && d == Sendonly && ContentAt(s, b, m).None?
            then Some(Content(kind, track.sender, track.params))
            else ContentAt(s, b, m)
  {
  }

  /** Publishing makes transceivers without a current direction; of those held it changes the direction at most. */
  lemma PublishedTransceiver(s: Session, c: EndpointId, x: Mid, d: Direction, kind: Kind, track: Track, b: EndpointId,
                             m: Mid)
    requires c in s.endpoints && x !in s.endpoints[c].transceivers && b in s.endpoints
    ensures var ts, ts' := s.endpoints[b].transceivers,
                           Published(s, c, x, d, kind, track).endpoints[b].transceivers;
      && (m in ts ==> m in ts' && ts'[m] == ts[m].(direction := ts'[m].direction))
      && (m in ts' && m !in ts ==> ts'[m].currentDirection == Unspecified && ts'[m].mid == m)
  {
  }

  // ------------------------------------------------------------------ the sections of an offer

  function OfferedContent(section: RemoteMedia): Content
    requires section.track.Ok?
  {
    Content(KindOf(section.media.name), section.track.value.sender, section.track.value.params)
  }

  /** The mids that these sections make the endpoint hold, each with the section that does so. */
  ghost function FirstSections(s: Session, c: EndpointId, sections: seq<RemoteMedia>): (r: map<Mid, RemoteMedia>)
    requires c in s.endpoints
    ensures forall x :: x in r ==> r[x].track.Ok?
    decreases |sections|
  {
    if sections == [] then map[]
    else
      SectionKeepsKeys(s, c, false, sections[0]);
      var (s1, r) := AfterOfferedSection(s, c, sections[0]);
      var later := if r.Ok? then FirstSections(s1, c, sections[1..]) else map[];
      if Creates(s.endpoints[c], sections[0]) then later[MidOf(sections[0].media).value := sections[0]] else later
  }

  lemma {:induction false} FirstSectionsAreNew(s: Session, c: EndpointId, sections: seq<RemoteMedia>)
    requires c in s.endpoints
    ensures forall x :: x in FirstSections(s, c, sections) ==> x !in s.endpoints[c].transceivers
    decreases |sections|
  {
    if sections != [] {
      SectionKeepsKeys(s, c, false, sections[0]);
      var (s1, r) := AfterOfferedSection(s, c, sections[0]);
      if r.Ok? {
        FirstSectionsAreNew(s1, c, sections[1..]);
      }
    }
  }

  /** The content that the first sections of `c` give to a new transceiver of another endpoint under key `m`. */
  ghost function MirroredContent(firsts: map<Mid, RemoteMedia>, c: EndpointId, m: Mid): Option<Content>
    requires forall x :: x in firsts ==> firsts[x].track.Ok?
  {
    if x :| x in firsts && MirrorKey(c, x) == m && PeerDirection(firsts[x].media) == Sendonly
    then Some(OfferedContent(firsts[x])) else None
  }

  lemma MirroredContentIs(firsts: map<Mid, RemoteMedia>, c: EndpointId, x: Mid)
    requires forall y :: y in firsts ==> firsts[y].track.Ok?
    ensures MirroredContent(firsts, c, MirrorKey(c, x))
         == if x in firsts && PeerDirection(firsts[x].media) == Sendonly then Some(OfferedContent(firsts[x])) else None
  {
    forall y | y in firsts && MirrorKey(c, y) == MirrorKey(c, x)
      ensures y == x
    {
      MirrorKeyInjective(c, y, c, x);
    }
  }

  lemma MirroredContentStep(firsts: map<Mid, RemoteMedia>, c: EndpointId, x: Mid, section: RemoteMedia, m: Mid)
    requires x !in firsts && section.track.Ok? && forall y :: y in firsts ==> firsts[y].track.Ok?
    ensures MirroredContent(firsts[x := section], c, m)
         == if m == MirrorKey(c, x) then
              if PeerDirection(section.media) == Sendonly then Some(OfferedContent(section)) else None
            else MirroredContent(firsts, c, m)
    ensures m == MirrorKey(c, x) ==> MirroredContent(firsts, c, m).None?
  {
    if m == MirrorKey(c, x) {
      MirroredContentIs(firsts[x := section], c, x);
      MirroredContentIs(firsts, c, x);
    } else if y :| y in firsts && MirrorKey(c, y) == m {
      MirroredContentIs(firsts, c, y);
      MirroredContentIs(firsts[x := section], c, y);
    }
  }

  /** What an offer of `c` leaves under mid `m` of endpoint `b`. */
  ghost function OfferedAt(s: Session, c: EndpointId, sections: seq<RemoteMedia>, b: EndpointId, m: Mid)
    : Option<Content>
    requires c in s.endpoints
  {
    var firsts := FirstSections(s, c, sections);
    if b !in s.endpoints || ContentAt(s, b, m).Some? then ContentAt(s, b, m)
    else if b == c then if m in firsts then Some(OfferedContent(firsts[m])) else None
    else MirroredContent(firsts, c, m)
  }

  lemma OfferedAtStep(s: Session, c: EndpointId, sections: seq<RemoteMedia>, b: EndpointId, m: Mid)
    requires c in s.endpoints && sections != [] && AfterOfferedSection(s, c, sections[0]).1.Ok?
    ensures c in AfterOfferedSection(s, c, sections[0]).0.endpoints
    ensures OfferedAt(AfterOfferedSection(s, c, sections[0]).0, c, sections[1..], b, m)
         == OfferedAt(s, c, sections, b, m)
  {
    var section := sections[0];
    SectionKeepsKeys(s, c, false, section);
    var s1 := AfterOfferedSection(s, c, section).0;
    var later := FirstSections(s1, c, sections[1..]);
    FirstSectionsAreNew(s1, c, sections[1..]);
    if Creates(s.endpoints[c], section) {
      var x := MidOf(section.media).value;
      PublishedContent(s, c, x, PeerDirection(section.media), KindOf(section.media.name), section.track.value, b, m);
      MirroredContentStep(later, c, x, section, m);
    }
  }

  /** A whole offer gives contents exactly as its first sections say, and changes none. */
  lemma {:induction false} OfferContents(s: Session, c: EndpointId, sections: seq<RemoteMedia>, b: EndpointId, m: Mid)
    requires c in s.endpoints
    ensures ContentAt(AfterSections(s, c, false, sections).0, b, m) == OfferedAt(s, c, sections, b, m)
    decreases |sections|
  {
    if sections != [] {
      SectionKeepsKeys(s, c, false, sections[0]);
      var (s1, r) := AfterOfferedSection(s, c, sections[0]);
      if r.Ok? {
        OfferContents(s1, c, sections[1..], b, m);
        OfferedAtStep(s, c, sections, b, m);
      }
    }
  }

  // ------------------------------------------------------------------ answers and local descriptions

  lemma {:induction false} AnsweredSectionsKeepContents(s: Session, a: EndpointId, sections: seq<RemoteMedia>)
    requires a in s.endpoints
    ensures SameContents(s, AfterSections(s, a, true, sections).0)
    decreases |sections|
  {
    if sections != [] {
      SectionKeepsKeys(s, a, true, sections[0]);
      var (s1, r) := AfterAnsweredSection(s, a, sections[0]);
      if r.Ok? {
        AnsweredSectionsKeepContents(s1, a, sections[1..]);
        SameContentsTransitive(s, s1, AfterSections(s1, a, true, sections[1..]).0);
      }
    }
  }

  lemma {:induction false} LocalMediaKeepsContents(e: Endpoint, media: seq<Media>, m: Mid)
    ensures var e' := AfterLocalMedia(e, media).0;
      && (m in e'.transceivers <==> m in e.transceivers)
      && (m in e.transceivers ==> ContentOf(e'.transceivers[m]) == ContentOf(e.transceivers[m]))
    decreases |media|
  {
    if media != [] {
      if !Negotiable(media[0]) || MidOf(media[0]).None? {
        LocalMediaKeepsContents(e, media[1..], m);
      } else if MidOf(media[0]).value != "" {
        LocalMediaKeepsContents(WithCurrentDirection(e, MidOf(media[0]).value, PeerDirection(media[0])), media[1..], m);
      }
    }
  }

  lemma LocalKeepsContents(s: Session, a: EndpointId, d: LocalDescription)
    ensures SameContents(s, AfterLocal(s, a, d).0)
  {
    var s' := AfterLocal(s, a, d).0;
    forall b: EndpointId, m: Mid
      ensures ContentAt(s', b, m) == ContentAt(s, b, m)
    {
      if b == a && a in s.endpoints {
        LocalMediaKeepsContents(s.endpoints[a], d.sdp.media, m);
      }
    }
  }

  // ------------------------------------------------------------------ a data channel opens

  /** The content of the track that has this mirror key. */
  ghost function TakenContent(s: Session, b: EndpointId, m: Mid): Option<Content> {
    if t: (EndpointId, Mid) :| t in TracksFor(s, b) && MirrorKey(t.0, t.1) == m then ContentAt(s, t.0, t.1) else None
  }

  lemma TakenContentIs(s: Session, b: EndpointId, a: EndpointId, x: Mid)
    requires (a, x) in TracksFor(s, b)
    ensures TakenContent(s, b, MirrorKey(a, x)) == ContentAt(s, a, x) && ContentAt(s, a, x).Some?
  {
    forall t: (EndpointId, Mid) | t in TracksFor(s, b) && MirrorKey(t.0, t.1) == MirrorKey(a, x)
      ensures t == (a, x)
    {
      MirrorKeyInjective(t.0, t.1, a, x);
    }
    assert MirrorKey((a, x).0, (a, x).1) == MirrorKey(a, x);
  }

  lemma {:induction false} MirrorsCarryContents(e: Endpoint, s: Session, tracks: seq<(EndpointId, Mid)>, k: nat)
    requires TracksOf(s, tracks) && Distinct(tracks) && k < |tracks|
    ensures var m, e' := MirrorKey(tracks[k].0, tracks[k].1), WithMirrors(e, s, tracks);
      var source := s.endpoints[tracks[k].0].transceivers[tracks[k].1];
      && m in e'.transceivers
      && e'.transceivers[m]
         == Transceiver(m, source.sender, Sendonly, source.currentDirection, source.params, source.kind)
  {
    var n := |tracks| - 1;
    if k < n {
      assert tracks[..n][k] == tracks[k] && tracks[k] != tracks[n];
      MirrorsCarryContents(e, s, tracks[..n], k);
      if MirrorKey(tracks[k].0, tracks[k].1) == MirrorKey(tracks[n].0, tracks[n].1) {
        MirrorKeyInjective(tracks[k].0, tracks[k].1, tracks[n].0, tracks[n].1);
      }
    }
  }

  /** What an endpoint takes over when its channel opens is what the sources carry; the rest stays. */
  lemma OpenedContent(s: Session, b: EndpointId, ft: FourTuple, handle: nat, stream: nat,
                      tracks: seq<(EndpointId, Mid)>, a: EndpointId, m: Mid)
    requires b in s.endpoints && ft in s.endpoints[b].transports && TracksOf(s, tracks)
    requires Enumerates(tracks, TracksFor(s, b))
    ensures ContentAt(WithOpened(s, b, ft, handle, stream, tracks), a, m)
         == if a == b && KeyOf(TracksFor(s, b), m) then TakenContent(s, b, m) else ContentAt(s, a, m)
  {
    if a == b {
      var e := s.endpoints[b];
      var t := e.transports[ft].(channel := Some((handle, stream)));
      var e1 := e.(transports := e.transports[ft := t], renegotiate := tracks != []);
      MirrorsInserted(e1, s, tracks, m);
      ListedIffKey(tracks, TracksFor(s, b), m);
      if Listed(tracks, m) {
        var k :| 0 <= k < |tracks| && MirrorKey(tracks[k].0, tracks[k].1) == m;
        MirrorsCarryContents(e1, s, tracks, k);
        assert tracks[k] in TracksFor(s, b);
        TakenContentIs(s, b, tracks[k].0, tracks[k].1);
      }
    }
  }

  // ------------------------------------------------------------------ every event

  ghost function ActedContent(s: Session, action: Action, b: EndpointId, m: Mid): Option<Content>
    requires Possible(s, action)
  {
    match action
    case Nothing => ContentAt(s, b, m)
    case Offering(c, sections) => OfferedAt(s, c, sections, b, m)
    case Opening(c) => if b == c && KeyOf(TracksFor(s, c), m) then TakenContent(s, c, m) else ContentAt(s, b, m)
  }

  /** Whoever is in the session afterwards carries what the action says; newcomers hold nothing. */
  ghost predicate Carried(s: Session, action: Action, s': Session)
    requires Possible(s, action)
  {
    forall b: EndpointId, m: Mid :: b in s'.endpoints ==> ContentAt(s', b, m) == ActedContent(s, action, b, m)
  }

  lemma SameContentsCarried(s: Session, action: Action, s1: Session, s2: Session)
    requires Possible(s, action) && Carried(s, action, s1) && SameContents(s1, s2)
    ensures Carried(s, action, s2)
  {
  }

  lemma OfferingCarries(s: Session, a: EndpointId, sections: seq<RemoteMedia>)
    requires a in s.endpoints
    ensures Carried(s, Offering(a, sections), AfterSections(s, a, false, sections).0)
  {
    forall b: EndpointId, m: Mid
      ensures ContentAt(AfterSections(s, a, false, sections).0, b, m) == OfferedAt(s, a, sections, b, m)
    {
      OfferContents(s, a, sections, b, m);
    }
  }

  lemma KnownOfferCarries(s: Session, a: EndpointId, ft: Option<FourTuple>, d: RemoteDescription, config: SdpConfig)
    requires a in s.endpoints
    ensures var action := if d.sdpType == Answer then Nothing else Offering(a, d.sections);
            Carried(s, action, AfterKnownOffer(s, a, ft, d, config).0)
  {
    var action := if d.sdpType == Answer then Nothing else Offering(a, d.sections);
    var (s1, r) := AfterRemote(s, a, d);
    if d.sdpType == Answer {
      AnsweredSectionsKeepContents(s, a, d.sections);
    } else {
      OfferingCarries(s, a, d.sections);
    }
    assert Carried(s, action, s1);
    RemoteGrows(s, a, d);
    if r.Ok? && ft.Some? && ft.value in s1.endpoints[a].transports {
      var answer := AnswerFor(s1, a, d, s1.endpoints[a].transports[ft.value].candidate.localCredentials, config);
      if answer.Ok? {
        LocalKeepsContents(s1, a, answer.value);
        SameContentsCarried(s, action, s1, AfterLocal(s1, a, answer.value).0);
      }
    }
  }

  lemma OfferCarries(st: State, config: SdpConfig, sid: SessionId, a: EndpointId, ft: Option<FourTuple>,
                     offer: SdpText, minted: Minted, other: SessionId)
    ensures var action := if other == sid then OfferIn(st, sid, a, offer) else Nothing;
            Carried(SessionOf(st, other), action, SessionOf(AfterOffer(st, config, sid, a, ft, offer, minted).0, other))
  {
    if other == sid && offer.parsed.Ok? && offer.parsed.value.credentials.Ok? && Present(st, sid, a) {
      KnownOfferCarries(st.sessions[sid], a, ft, RemoteDescription(offer.sdpType, offer.parsed.value.sections), config);
    }
  }

  ghost predicate SameContentsIn(st: State, st': State, sid: SessionId) {
    SameContents(SessionOf(st, sid), SessionOf(st', sid))
  }

  lemma OfferMessageKeepsContents(st: State, config: SdpConfig, ctx: TransportContext, handle: nat, stream: nat,
                                  now: int, sid: SessionId)
    ensures SameContentsIn(st, AfterOfferMessage(st, config, ctx, handle, stream, now).0, sid)
  {
  }

  lemma {:induction false} PeerOffersKeepContents(st: State, sent: seq<Outgoing>, config: SdpConfig,
                                                  peers: seq<ChannelPeer>, ecn: Option<nat>, now: int, sid: SessionId)
    ensures SameContentsIn(st, AfterPeerOffers(st, sent, config, peers, ecn, now).0, sid)
    decreases |peers|
  {
    if peers != [] {
      var p := peers[0];
      if !p.flagged {
        PeerOffersKeepContents(st, sent, config, peers[1..], ecn, now, sid);
      } else {
        var (st1, r) := AfterOfferMessage(st, config, ContextOf(p.fourTuple, ecn), p.handle, p.stream, now);
        OfferMessageKeepsContents(st, config, ContextOf(p.fourTuple, ecn), p.handle, p.stream, now, sid);
        if r.Ok? {
          PeerOffersKeepContents(st1, sent + [r.value], config, peers[1..], ecn, now, sid);
          var st2 := AfterPeerOffers(st1, sent + [r.value], config, peers[1..], ecn, now).0;
          SameContentsTransitive(SessionOf(st, sid), SessionOf(st1, sid), SessionOf(st2, sid));
        }
      }
    }
  }

  lemma AnswerKeepsContents(st: State, sid: SessionId, a: EndpointId, answer: SdpText, other: SessionId)
    requires answer.sdpType == Answer
    ensures SameContentsIn(st, AfterAnswer(st, sid, a, answer).0, other)
  {
    if answer.parsed.Ok? && Present(st, sid, a) {
      AnsweredSectionsKeepContents(st.sessions[sid], a, answer.parsed.value.sections);
    }
  }

  lemma MessageCarries(st: State, config: SdpConfig, ev: Event, sid: SessionId)
    requires ev.MessageEvent? && Enabled(st, config, ev)
    ensures Possible(SessionOf(st, sid), ActionIn(st, ev, sid))
    ensures Carried(SessionOf(st, sid), ActionIn(st, ev, sid), SessionOf(Next(st, config, ev), sid))
  {
    var ft := ev.ctx.Tuple();
    if ev.sdp.Ok? && ft in st.index {
      var (s, a) := st.index[ft];
      if ev.sdp.value.sdpType == Offer {
        OfferCarries(st, config, s, a, Some(ft), ev.sdp.value, ev.minted, sid);
        var (st1, r) := AfterOffer(st, config, s, a, Some(ft), ev.sdp.value, ev.minted);
        if r.Ok? {
          var sent := [Outgoing(ev.now, ev.ctx, ChannelPayload(ev.handle, ev.stream, r.value))];
          PeerOffersKeepContents(st1, sent, config, ev.peers, ev.ctx.ecn, ev.now, sid);
          SameContentsCarried(SessionOf(st, sid), ActionIn(st, ev, sid), SessionOf(st1, sid),
              SessionOf(Next(st, config, ev), sid));
        }
      } else if ev.sdp.value.sdpType == Answer {
        AnswerKeepsContents(st, s, a, ev.sdp.value, sid);
      }
    }
  }

  lemma PutOpenedCarries(st: State, ft: FourTuple, handle: nat, stream: nat, tracks: seq<(EndpointId, Mid)>,
                         sid: SessionId)
    requires GetTransport(st, ft).Ok? && Enumerates(tracks, TracksFor(st.sessions[st.index[ft].0], st.index[ft].1))
    ensures TracksOf(st.sessions[st.index[ft].0], tracks)
    ensures var (s, b) := st.index[ft];
      Carried(SessionOf(st, sid), if s == sid then Opening(b) else Nothing,
              SessionOf(PutEndpoint(st, s, b, Opened(st.sessions[s], b, ft, handle, stream, tracks)), sid))
  {
    var (s, b) := st.index[ft];
    TracksArePresent(st.sessions[s], b, tracks);
    if s == sid {
      assert SessionOf(PutEndpoint(st, s, b, Opened(st.sessions[s], b, ft, handle, stream, tracks)), sid)
          == WithOpened(st.sessions[s], b, ft, handle, stream, tracks);
      forall a: EndpointId, m: Mid
        ensures ContentAt(WithOpened(st.sessions[s], b, ft, handle, stream, tracks), a, m)
             == if a == b && KeyOf(TracksFor(st.sessions[s], b), m) then TakenContent(st.sessions[s], b, m)
                 else ContentAt(st.sessions[s], a, m)
      {
        OpenedContent(st.sessions[s], b, ft, handle, stream, tracks, a, m);
      }
    }
  }

  lemma OpenCarries(st: State, config: SdpConfig, ev: Event, sid: SessionId)
    requires ev.OpenEvent? && Enabled(st, config, ev)
    ensures Possible(SessionOf(st, sid), ActionIn(st, ev, sid))
    ensures Carried(SessionOf(st, sid), ActionIn(st, ev, sid), SessionOf(Next(st, config, ev), sid))
  {
    var ft := ev.ctx.Tuple();
    if GetTransport(st, ft).Ok? {
      var (s, b) := st.index[ft];
      PutOpenedCarries(st, ft, ev.handle, ev.stream, ev.tracks, sid);
      var st1 := PutEndpoint(st, s, b, Opened(st.sessions[s], b, ft, ev.handle, ev.stream, ev.tracks));
      OfferMessageKeepsContents(st1, config, ev.ctx, ev.handle, ev.stream, ev.now, sid);
      var st2 := AfterOfferMessage(st1, config, ev.ctx, ev.handle, ev.stream, ev.now).0;
      SameContentsCarried(SessionOf(st, sid), ActionIn(st, ev, sid), SessionOf(st1, sid), SessionOf(st2, sid));
    }
  }

  lemma RemovalCarries(st: State, ft: FourTuple, sid: SessionId)
    ensures Carried(SessionOf(st, sid), Nothing, SessionOf(AfterRemoval(st, ft), sid))
    ensures SessionOf(AfterRemoval(st, ft), sid).endpoints.Keys <= SessionOf(st, sid).endpoints.Keys
  {
  }

  lemma {:induction false} RemovalsCarry(st: State, tuples: seq<FourTuple>, sid: SessionId)
    ensures Carried(SessionOf(st, sid), Nothing, SessionOf(AfterRemovals(st, tuples), sid))
    ensures SessionOf(AfterRemovals(st, tuples), sid).endpoints.Keys <= SessionOf(st, sid).endpoints.Keys
    decreases |tuples|
  {
    if tuples != [] {
      RemovalCarries(st, tuples[0], sid);
      RemovalsCarry(AfterRemoval(st, tuples[0]), tuples[1..], sid);
    }
  }

  lemma NominationCarries(st: State, c: Candidate, ft: FourTuple, useCandidate: bool, now: int, sid: SessionId)
    ensures Carried(SessionOf(st, sid), Nothing, SessionOf(AfterNomination(st, c, ft, useCandidate, now).0, sid))
  {
  }

  lemma StunCarries(st: State, ctx: TransportContext, request: StunRequest, now: int, sid: SessionId)
    ensures Carried(SessionOf(st, sid), Nothing, SessionOf(AfterStun(st, ctx, request, now), sid))
  {
    var c := CheckStun(st, request);
    if c.Ok? && c.value.Some? {
      NominationCarries(st, c.value.value, ctx.Tuple(), request.useCandidate, now, sid);
    }
  }

  lemma PutTransportCarries(st: State, ft: FourTuple, t: Transport, sid: SessionId)
    requires GetTransport(st, ft).Ok?
    ensures Carried(SessionOf(st, sid), Nothing, SessionOf(PutTransport(st, ft, t), sid))
  {
  }

  /** Every event does to the contents of every session what its action says, and nothing else. */
  lemma StepContents(st: State, config: SdpConfig, ev: Event, sid: SessionId)
    requires Enabled(st, config, ev)
    ensures Possible(SessionOf(st, sid), ActionIn(st, ev, sid))
    ensures Carried(SessionOf(st, sid), ActionIn(st, ev, sid), SessionOf(Next(st, config, ev), sid))
  {
    if ev.OfferEvent? {
      OfferCarries(st, config, ev.sid, ev.endpoint, ev.tuple, ev.offer, ev.minted, sid);
    } else if ev.MessageEvent? {
      MessageCarries(st, config, ev, sid);
    } else if ev.OpenEvent? {
      OpenCarries(st, config, ev, sid);
    } else if ev.StunEvent? {
      StunCarries(st, ev.ctx, ev.request, ev.now, sid);
    } else if ev.SweepEvent? {
      RemovalsCarry(st, ev.tuples, sid);
    } else if ev.AlertEvent? {
      RemovalCarries(st, ev.ft, sid);
    } else if GetTransport(st, ev.ft).Ok? {
      var t := GetTransport(st, ev.ft).value;
      PutTransportCarries(st, ev.ft, if ev.MediaEvent? then t.(lastActivity := ev.now) else t.(srtpReady := true), sid);
    }
  }

  // ------------------------------------------------------------------ mirrors and their sources

  /** If `b` holds the mirror of `a`'s mid `m` while `a` is there, `a` holds `m` with the same content. */
  ghost predicate MirrorMatches(s: Session, a: EndpointId, m: Mid, b: EndpointId) {
    a in s.endpoints && ContentAt(s, b, MirrorKey(a, m)).Some? ==>
      ContentAt(s, a, m) == ContentAt(s, b, MirrorKey(a, m))
  }

  /** The client of `b` offers the mirror key as a mid of its own, with a content that is not that of `a`'s mid. */
  ghost predicate OffersKey(s: Session, action: Action, a: EndpointId, m: Mid, b: EndpointId)
    requires Possible(s, action)
  {
    && action.Offering? && action.endpoint == b && a in s.endpoints
    && var firsts := FirstSections(s, b, action.sections);
    && MirrorKey(a, m) in firsts
    && ActedContent(s, action, a, m) != Some(OfferedContent(firsts[MirrorKey(a, m)]))
  }

  /** `m` is itself a mirror key, and what `a` takes over under it differs from what `b` holds. */
  ghost predicate TakesOtherContent(s: Session, action: Action, a: EndpointId, m: Mid, b: EndpointId) {
    && action == Opening(a) && KeyOf(TracksFor(s, a), m)
    && ContentAt(s, b, MirrorKey(a, m)).Some? && TakenContent(s, a, m) != ContentAt(s, b, MirrorKey(a, m))
  }

  /** The identifier of `a` is used again while `b` still holds the mirror of its predecessor's mid. */
  ghost predicate ReusesId(s: Session, s': Session, a: EndpointId, m: Mid, b: EndpointId) {
    a !in s.endpoints && a in s'.endpoints && b in s'.endpoints && ContentAt(s, b, MirrorKey(a, m)).Some?
  }

  ghost predicate Spoiled(s: Session, action: Action, s': Session, a: EndpointId, m: Mid, b: EndpointId)
    requires Possible(s, action)
  {
    OffersKey(s, action, a, m, b) || TakesOtherContent(s, action, a, m, b) || ReusesId(s, s', a, m, b)
  }

  ghost predicate Spoils(st: State, config: SdpConfig, ev: Event, sid: SessionId, a: EndpointId, m: Mid, b: EndpointId)
    requires Enabled(st, config, ev)
  {
    ActionIsPossible(st, ev, sid);
    Spoiled(SessionOf(st, sid), ActionIn(st, ev, sid), SessionOf(Next(st, config, ev), sid), a, m, b)
  }

  lemma OfferMatches(s: Session, s': Session, c: EndpointId, sections: seq<RemoteMedia>, a: EndpointId, m: Mid,
                     b: EndpointId)
    requires c in s.endpoints && a != b && MirrorMatches(s, a, m, b)
    requires Carried(s, Offering(c, sections), s') && s'.endpoints.Keys == s.endpoints.Keys
    ensures MirrorMatches(s', a, m, b) <==> !OffersKey(s, Offering(c, sections), a, m, b)
  {
    var firsts, key := FirstSections(s, c, sections), MirrorKey(a, m);
    FirstSectionsAreNew(s, c, sections);
    if a in s.endpoints && b in s.endpoints && ContentAt(s, b, key).None? && c != b {
      if c == a {
        MirroredContentIs(firsts, c, m);
      } else {
        forall x | x in firsts
          ensures MirrorKey(c, x) != key
        {
          if MirrorKey(c, x) == key {
            MirrorKeyInjective(c, x, a, m);
          }
        }
      }
    }
  }

  lemma OpeningMatches(s: Session, s': Session, c: EndpointId, a: EndpointId, m: Mid, b: EndpointId)
    requires c in s.endpoints && a != b && MirrorMatches(s, a, m, b)
    requires Carried(s, Opening(c), s') && s'.endpoints.Keys == s.endpoints.Keys
    ensures MirrorMatches(s', a, m, b) <==> !TakesOtherContent(s, Opening(c), a, m, b)
  {
    KeyOfIff(s, b, a, m);
    if c == b && KeyOf(TracksFor(s, b), MirrorKey(a, m)) {
      TakenContentIs(s, b, a, m);
    }
  }

  lemma ActionMatches(s: Session, action: Action, s': Session, a: EndpointId, m: Mid, b: EndpointId)
    requires Possible(s, action) && a != b && MirrorMatches(s, a, m, b) && Carried(s, action, s')
    requires !action.Nothing? ==> s'.endpoints.Keys == s.endpoints.Keys
    ensures MirrorMatches(s', a, m, b) <==> !Spoiled(s, action, s', a, m, b)
  {
    match action
    case Nothing =>
    case Offering(c, sections) => OfferMatches(s, s', c, sections, a, m, b);
    case Opening(c) => OpeningMatches(s, s', c, a, m, b);
  }

  lemma ActionKeepsEndpoints(st: State, config: SdpConfig, ev: Event, sid: SessionId)
    requires TreeOk(st) && Enabled(st, config, ev) && !ActionIn(st, ev, sid).Nothing?
    ensures SessionOf(Next(st, config, ev), sid).endpoints.Keys == SessionOf(st, sid).endpoints.Keys
  {
    MostStepsAreKin(st, config, ev);
    assert KinSession(st.sessions[sid], Next(st, config, ev).sessions[sid]);
  }

  /**
   A mirror that matches its source goes on doing so over an event, except exactly when the peer offers the key
   itself with another content, a source that is a mirror itself is overwritten with another content, or the
   identifier of the source's endpoint is used again while the mirror is held.
   */
  lemma StepKeepsMirrorIff(st: State, config: SdpConfig, ev: Event, sid: SessionId, a: EndpointId, m: Mid,
                           b: EndpointId)
    requires TreeOk(st) && Enabled(st, config, ev) && a != b && MirrorMatches(SessionOf(st, sid), a, m, b)
    ensures MirrorMatches(SessionOf(Next(st, config, ev), sid), a, m, b) <==> !Spoils(st, config, ev, sid, a, m, b)
  {
    StepContents(st, config, ev, sid);
    if !ActionIn(st, ev, sid).Nothing? {
      ActionKeepsEndpoints(st, config, ev, sid);
    }
    ActionMatches(SessionOf(st, sid), ActionIn(st, ev, sid), SessionOf(Next(st, config, ev), sid), a, m, b);
  }

  ghost predicate NeverSpoiled(st: State, config: SdpConfig, events: seq<Event>, sid: SessionId, a: EndpointId, m: Mid,
                               b: EndpointId)
    requires IsRun(st, config, events)
    decreases |events|
  {
    events == [] || (!Spoils(st, config, events[0], sid, a, m, b)
                     && NeverSpoiled(Next(st, config, events[0]), config, events[1..], sid, a, m, b))
  }

  /** On every run without such an event, a mirror carries the kind, sender and parameters of its source. */
  lemma {:induction false} EveryRunKeepsMirrors(st: State, config: SdpConfig, events: seq<Event>, sid: SessionId,
                                                a: EndpointId, m: Mid, b: EndpointId)
    requires TreeOk(st) && a != b && MirrorMatches(SessionOf(st, sid), a, m, b)
    requires IsRun(st, config, events) && NeverSpoiled(st, config, events, sid, a, m, b)
    ensures MirrorMatches(SessionOf(After(st, config, events), sid), a, m, b)
    decreases |events|
  {
    if events != [] {
      StepKeepsMirrorIff(st, config, events[0], sid, a, m, b);
      StepKeepsTree(st, config, events[0]);
      EveryRunKeepsMirrors(Next(st, config, events[0]), config, events[1..], sid, a, m, b);
    }
  }

  /**
   Nothing is spoiled by an event that does not bring the endpoint in, for a mid that is no mirror key itself and a
   peer whose client does not offer the key as a mid of its own.
   */
  lemma PlainEventSpoilsNothing(st: State, config: SdpConfig, ev: Event, sid: SessionId, a: EndpointId, m: Mid,
                                b: EndpointId)
    requires Enabled(st, config, ev) && ClientMid(m)
    requires Present(Next(st, config, ev), sid, a) ==> Present(st, sid, a)
    requires var action := ActionIn(st, ev, sid);
      action.Offering? && action.endpoint == b ==>
        forall k :: 0 <= k < |action.sections| ==> MidOf(action.sections[k].media) != Some(MirrorKey(a, m))
    ensures !Spoils(st, config, ev, sid, a, m, b)
  {
    var s, action := SessionOf(st, sid), ActionIn(st, ev, sid);
    ActionIsPossible(st, ev, sid);
    if action.Offering? && action.endpoint == b {
      OnlyNamedAreFirst(s, b, action.sections, MirrorKey(a, m));
    }
  }

  lemma {:induction false} OnlyNamedAreFirst(s: Session, c: EndpointId, sections: seq<RemoteMedia>, x: Mid)
    requires c in s.endpoints
    requires forall k :: 0 <= k < |sections| ==> MidOf(sections[k].media) != Some(x)
    ensures x !in FirstSections(s, c, sections)
    decreases |sections|
  {
    if sections != [] {
      SectionKeepsKeys(s, c, false, sections[0]);
      var (s1, r) := AfterOfferedSection(s, c, sections[0]);
      if r.Ok? {
        OnlyNamedAreFirst(s1, c, sections[1..], x);
      }
    }
  }
}
