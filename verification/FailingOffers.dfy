/** Runs of the server from its start on which a renegotiation is lost, in each of the ways that Renegotiation knows. */
module FailingOffers {
  import opened Types
  import opened Directions
  import opened Sdp
  import opened Endpoints
  import opened MirrorKeys
  import opened OfferAnswer
  import opened Sessions
  import opened ServerStates
  import opened Gateway
  import opened Runs
  import opened IndexAgreement
  import opened Convergence
  import opened Negotiations
  import opened Renegotiation
  import opened FailingRuns

  lemma TwoInAgrees()
    ensures Agreement(TWO_IN)
  {
    assert FT(1) != FT(2);
  }

  // ------------------------------------------------------------------ what an offer leaves at a peer

  /** Answering an offer does nothing to the peers. */
  lemma PeersOfKnownOffer(s: Session, a: EndpointId, ft: Option<FourTuple>, d: RemoteDescription, b: EndpointId)
    requires a in s.endpoints && b in s.endpoints && a != b
    ensures var s1, s2 := AfterRemote(s, a, d).0, AfterKnownOffer(s, a, ft, d, CONFIG).0;
      s1.endpoints.Keys == s2.endpoints.Keys == s.endpoints.Keys && s2.endpoints[b] == s1.endpoints[b]
  {
    RemoteGrows(s, a, d);
    KnownOfferGrows(s, a, ft, d, CONFIG);
  }

  /** The peer of a client that offers one track sendonly. */
  lemma OfferMirrors(s: Session, a: EndpointId, ft: FourTuple, m: Mid, b: EndpointId)
    requires a in s.endpoints && b in s.endpoints && a != b && m != "" && m !in s.endpoints[a].transceivers
    ensures var d := RemoteDescription(Offer, [Section(m, Sendonly)]);
      var s' := AfterKnownOffer(s, a, Some(ft), d, CONFIG).0;
      && s'.endpoints.Keys == s.endpoints.Keys
      && s'.endpoints[b]
         == Mirrored(s.endpoints[b], MirrorKey(a, m), Sendonly, Video, Section(m, Sendonly).track.value)
  {
    SectionsOfOne(s, a, m, Sendonly);
    PeersOfKnownOffer(s, a, Some(ft), RemoteDescription(Offer, [Section(m, Sendonly)]), b);
  }

  function TrackText(m: Mid): SdpText { SdpText(Offer, Ok(ParsedSdp([Section(m, Sendonly)], Ok(REMOTE)))) }

  lemma OfferMirrorsIn(st: State, a: EndpointId, m: Mid, b: EndpointId)
    requires Present(st, 1, a) && Present(st, 1, b) && a != b && m != ""
    requires m !in st.sessions[1].endpoints[a].transceivers
    ensures var st' := AfterOffer(st, CONFIG, 1, a, Some(FT(a)), TrackText(m), Minted(REMOTE, 0)).0;
      && 1 in st'.sessions && st'.sessions[1].endpoints.Keys == st.sessions[1].endpoints.Keys
      && st'.sessions[1].endpoints[b] == Mirrored(st.sessions[1].endpoints[b], MirrorKey(a, m), Sendonly, Video,
                                                  Section(m, Sendonly).track.value)
  {
    OfferMirrors(st.sessions[1], a, FT(a), m, b);
  }

  // ------------------------------------------------------------------ the flag goes down when nothing is left

  const OFFERED := BOTH_IN + [Track1(1, "v", Sendonly)]
  const LEFT := OFFERED + [AlertEvent(FT(1))]

  lemma OfferedAgrees()
    ensures Agreement(Next(TWO_IN, CONFIG, Track1(1, "v", Sendonly)))
  {
    TwoInIsOk();
    TwoInAgrees();
    StepKeepsAgreementIff(TWO_IN, CONFIG, Track1(1, "v", Sendonly));
  }

  lemma OfferedPlaces()
    ensures var st := Next(TWO_IN, CONFIG, Track1(1, "v", Sendonly));
      && TreeOk(st) && Holds(st, 1, 2, FT(2))
      && st.sessions[1].endpoints.Keys == {1, 2} && st.sessions[1].endpoints[1].transports.Keys == {FT(1)}
  {
    TwoInPlaces(2);
    OffersKeepPlaces(TWO_IN, 1, "v", Sendonly, 2);
    EndpointStays(TWO_IN, CONFIG, Track1(1, "v", Sendonly), 1);
  }

  lemma OfferedState()
    ensures var st := Next(TWO_IN, CONFIG, Track1(1, "v", Sendonly));
      && TreeOk(st) && Agreement(st) && Flagged(st, 1, 2) && Holds(st, 1, 2, FT(2))
      && st.sessions[1].endpoints.Keys == {1, 2} && st.sessions[1].endpoints[1].transports.Keys == {FT(1)}
  {
    OfferedAgrees();
    OfferedPlaces();
    OfferMirrorsIn(TWO_IN, 1, "v", 2);
  }

  lemma AlertDropsEndpoint(st: State, a: EndpointId, b: EndpointId)
    requires 1 in st.sessions && st.sessions[1].endpoints.Keys == {a, b} && a != b
    requires FT(a) in st.index && st.index[FT(a)] == (1, a)
    requires st.sessions[1].endpoints[a].transports.Keys == {FT(a)}
    ensures var st' := AfterRemoval(st, FT(a));
      && 1 in st'.sessions && st'.sessions[1].endpoints.Keys == {b}
      && st'.sessions[1].endpoints[b] == st.sessions[1].endpoints[b]
  {
    assert st.sessions[1].endpoints[a].transports - {FT(a)} == map[];
    assert b in st.sessions[1].endpoints - {a};
  }

  /** With nobody else in the session there is nothing to take over, and a flag that is up goes down. */
  lemma LoneOpeningLoses(st: State, b: EndpointId)
    requires TreeOk(st) && Agreement(st) && Flagged(st, 1, b) && Holds(st, 1, b, FT(b))
    requires st.sessions[1].endpoints.Keys == {b}
    ensures Enabled(st, CONFIG, Open(b, []))
    ensures Forgotten(st, Next(st, CONFIG, Open(b, [])), SentBy(st, CONFIG, Open(b, [])), 1, b)
  {
    assert TracksFor(st.sessions[1], b) == {};
    assert GetTransport(st, FT(b)).Ok? && st.index[FT(b)] == (1, b);
    RenegotiationIsLostIff(st, CONFIG, Open(b, []), 1, b);
  }

  lemma LeftState()
    ensures var st := AfterRemoval(Next(TWO_IN, CONFIG, Track1(1, "v", Sendonly)), FT(1));
      && TreeOk(st) && Agreement(st) && Flagged(st, 1, 2) && Holds(st, 1, 2, FT(2))
      && st.sessions[1].endpoints.Keys == {2}
  {
    OfferedState();
    var st := Next(TWO_IN, CONFIG, Track1(1, "v", Sendonly));
    assert Holds(st, 1, 1, FT(1)) by {
      assert FT(1) in st.sessions[1].endpoints[1].transports.Keys;
    }
    AlertDropsEndpoint(st, 1, 2);
    RemovalKeepsTree(st, FT(1));
    RemovalKeepsAgreement(st, FT(1));
  }

  /**
   The first client offers a track and leaves before the second one's channel opens: the second one is then not made
   an offer any more, although it holds the track.
   */
  lemma LeavingLosesRenegotiation()
    ensures IsRun(INITIAL, CONFIG, LEFT)
    ensures var st, ev := After(INITIAL, CONFIG, LEFT), Open(2, []);
      && Flagged(st, 1, 2) && Enabled(st, CONFIG, ev)
      && Forgotten(st, Next(st, CONFIG, ev), SentBy(st, CONFIG, ev), 1, 2)
  {
    BothIn();
    RunSnoc(INITIAL, CONFIG, BOTH_IN, Track1(1, "v", Sendonly));
    RunSnoc(INITIAL, CONFIG, OFFERED, AlertEvent(FT(1)));
    LeftState();
    LoneOpeningLoses(After(INITIAL, CONFIG, LEFT), 2);
  }

  // ------------------------------------------------------------------ no offer can be made to the peer

  const SECOND_OPENED :=
    NewEndpoint(C2, FT(2), 0).(transports := map[FT(2) := NewTransport(FT(2), C2, 0).(channel := Some((0, 0)))])

  const OPENED_STATE := PutEndpoint(TWO_IN, 1, 2, SECOND_OPENED)

  lemma SecondOpensTo()
    ensures Enabled(TWO_IN, CONFIG, Open(2, [])) && Next(TWO_IN, CONFIG, Open(2, [])) == OPENED_STATE
  {
    OpenIsEnabled();
    TwoInPlaces(2);
    var e := TWO_IN.sessions[1].endpoints[2];
    assert e.transports[FT(2) := NewTransport(FT(2), C2, 0).(channel := Some((0, 0)))] == SECOND_OPENED.transports;
    assert Opened(TWO_IN.sessions[1], 2, FT(2), 0, 0, []) == SECOND_OPENED;
  }

  /** The second client's one open channel, when the client is flagged. */
  const SECOND_PEER := ChannelPeer(2, FT(2), 0, 0, true)

  /** The first client offers, over its channel, a track without a sender. */
  const SENDERLESS := MessageEvent(Address(1), 0, 0, Ok(TrackText("v")), Minted(REMOTE, 0), 0, [SECOND_PEER])

  lemma OneTrackIsAnswerable(e: Endpoint, ft: FourTuple, m: Mid)
    requires m != "" && m !in e.transceivers && ft in e.transports
    ensures AnswerableBy(e, Some(ft), [Section(m, Sendonly)])
  {
    var section := Section(m, Sendonly);
    SectionIsRead(m, Sendonly);
    assert OffersTrack(section, m);
    assert ReadBefore([section], 0, m) by {
      assert OffersTrack([section][0], m);
    }
    assert [section][1..] == [];
    assert OwnAfter(e, [section]) == OwnAfterSection(e, section);
    assert EligibleMedia([section]) == [section.media];
    assert SectionsFor([section.media], false) == [SectionFor(section.media, false)];
  }

  /** A peer that mirrors a track without a sender cannot be made an offer. */
  lemma SenderlessIsNotOfferable(e: Endpoint, key: Mid, m: Mid)
    requires key !in e.transceivers
    ensures !Offerable(Mirrored(e, key, Sendonly, Video, Section(m, Sendonly).track.value))
  {
    var e' := Mirrored(e, key, Sendonly, Video, Section(m, Sendonly).track.value);
    assert e'.transceivers[key].direction == Sendonly && e'.transceivers[key].sender.None?;
  }

  lemma OnePeer(s: Session)
    requires s.endpoints.Keys == {1, 2} && s.endpoints[2].transports == SECOND_OPENED.transports
    requires s.endpoints[2].renegotiate
    ensures Enumerates([SECOND_PEER], ChannelPeers(s, 1))
  {
    assert SECOND_OPENED.transports.Keys == {FT(2)};
    forall p
      ensures p in ChannelPeers(s, 1) <==> p == SECOND_PEER
    {
      assert PeerAt(s, 2, FT(2)) == SECOND_PEER;
      assert 2 in s.endpoints.Keys && FT(2) in s.endpoints[2].transports;
    }
  }

  /** Two clients with one channel each, the second one's open, and no tracks. */
  ghost predicate Ready(st: State) {
    && TreeOk(st) && Agreement(st)
    && Holds(st, 1, 1, FT(1)) && st.sessions[1].endpoints.Keys == {1, 2}
    && st.sessions[1].endpoints[1].transceivers == map[] && st.sessions[1].endpoints[2] == SECOND_OPENED
  }

  lemma OpenedKeepsShape()
    ensures TreeOk(OPENED_STATE) && Agreement(OPENED_STATE)
  {
    TwoInIsOk();
    TwoInAgrees();
    SecondOpensTo();
    StepKeepsTree(TWO_IN, CONFIG, Open(2, []));
    StepKeepsAgreementIff(TWO_IN, CONFIG, Open(2, []));
  }

  lemma OpenedIsReady()
    ensures Ready(OPENED_STATE)
  {
    OpenedKeepsShape();
    TwoInPlaces(1);
  }

  function MirroredSecond(): Endpoint {
    Mirrored(SECOND_OPENED, MirrorKey(1, "v"), Sendonly, Video, Section("v", Sendonly).track.value)
  }

  lemma SenderlessAnswered(st: State)
    requires Ready(st)
    ensures Asks(st, SENDERLESS) && st.index[FT(1)] == (1, 1)
    ensures var (st1, answer) := Answered(st, CONFIG, SENDERLESS);
      && answer.Ok? && 1 in st1.sessions && st1.sessions[1].endpoints.Keys == {1, 2}
      && st1.sessions[1].endpoints[2] == MirroredSecond()
  {
    OneTrackIsAnswerable(st.sessions[1].endpoints[1], FT(1), "v");
    OfferIsAnsweredIff(st, CONFIG, 1, 1, Some(FT(1)), TrackText("v"), Minted(REMOTE, 0));
    OfferMirrorsIn(st, 1, "v", 2);
  }

  lemma SecondIsLost(st: State)
    requires 1 in st.sessions && st.sessions[1].endpoints.Keys == {1, 2}
    requires st.sessions[1].endpoints[2] == MirroredSecond()
    ensures Enumerates([SECOND_PEER], ChannelPeers(st.sessions[1], 1)) && !AllOfferable(st, 1, 1)
    ensures 2 in PeerEndpoints(FlaggedPeers(GoneThrough([SECOND_PEER], Unofferable(st.sessions[1]))))
  {
    SenderlessIsNotOfferable(SECOND_OPENED, MirrorKey(1, "v"), "v");
    OnePeer(st.sessions[1]);
    assert Holds(st, 1, 2, FT(2)) && TransportAt(st, 1, 2, FT(2)).channel.Some?;
    assert Flagged(st, 1, 2) && Reachable(st, 1, 2);
    assert GoneThrough([SECOND_PEER], Unofferable(st.sessions[1])) == [SECOND_PEER];
    assert FlaggedPeers([SECOND_PEER]) == [SECOND_PEER];
    assert SECOND_PEER in [SECOND_PEER];
  }

  lemma SenderlessLoses(st: State)
    requires Ready(st)
    ensures Enabled(st, CONFIG, SENDERLESS) && LostInPassing(st, CONFIG, SENDERLESS, 1, 2)
    ensures SentBy(st, CONFIG, SENDERLESS) == []
  {
    SenderlessAnswered(st);
    SecondIsLost(Answered(st, CONFIG, SENDERLESS).0);
    ClientOfferIsPassedOnIff(st, CONFIG, Address(1), 0, 0, TrackText("v"), Minted(REMOTE, 0), 0, [SECOND_PEER]);
  }

  /**
   With the second client's channel open, the first one offers a track without a sender over its own: no message is
   sent at all, not even the answer, and the second client is neither flagged nor made an offer.
   */
  lemma SenderlessTrackLosesRenegotiation()
    ensures IsRun(INITIAL, CONFIG, SECOND_OPEN)
    ensures var st := After(INITIAL, CONFIG, SECOND_OPEN);
      && Enabled(st, CONFIG, SENDERLESS) && SentBy(st, CONFIG, SENDERLESS) == []
      && Wanted(st, CONFIG, SENDERLESS, 1, 2)
      && Forgotten(st, Next(st, CONFIG, SENDERLESS), SentBy(st, CONFIG, SENDERLESS), 1, 2)
  {
    BothIn();
    SecondOpensTo();
    RunSnoc(INITIAL, CONFIG, BOTH_IN, Open(2, []));
    OpenedIsReady();
    SenderlessLoses(OPENED_STATE);
    RenegotiationIsLostIff(OPENED_STATE, CONFIG, SENDERLESS, 1, 2);
  }

  // ------------------------------------------------------------------ no offer can be made on opening

  lemma {:induction false} LocalMediaKeepsSender(e: Endpoint, media: seq<Media>, m: Mid)
    requires m in e.transceivers
    ensures var e' := AfterLocalMedia(e, media).0;
            m in e'.transceivers && e'.transceivers[m].sender == e.transceivers[m].sender
    decreases |media|
  {
    if media != [] {
      var first := media[0];
      if !Negotiable(first) || MidOf(first).None? {
        LocalMediaKeepsSender(e, media[1..], m);
      } else if MidOf(first).value != "" {
        LocalMediaKeepsSender(WithCurrentDirection(e, MidOf(first).value, PeerDirection(first)), media[1..], m);
      }
    }
  }

  lemma KnownOfferKeepsSender(s: Session, a: EndpointId, ft: Option<FourTuple>, d: RemoteDescription, m: Mid)
    requires a in s.endpoints
    requires a in AfterRemote(s, a, d).0.endpoints && m in AfterRemote(s, a, d).0.endpoints[a].transceivers
    ensures var s1, s2 := AfterRemote(s, a, d).0, AfterKnownOffer(s, a, ft, d, CONFIG).0;
      && a in s2.endpoints && m in s2.endpoints[a].transceivers
      && s2.endpoints[a].transceivers[m].sender == s1.endpoints[a].transceivers[m].sender
  {
    RemoteGrows(s, a, d);
    var (s1, r) := AfterRemote(s, a, d);
    if r.Ok? && ft.Some? && ft.value in s1.endpoints[a].transports {
      var answer := AnswerFor(s1, a, d, s1.endpoints[a].transports[ft.value].candidate.localCredentials, CONFIG);
      if answer.Ok? {
        LocalMediaKeepsSender(s1.endpoints[a], answer.value.sdp.media, m);
      }
    }
  }

  /** The client that offers one track without a sender. */
  lemma OfferedHasNoSender(s: Session, a: EndpointId, ft: FourTuple, m: Mid)
    requires a in s.endpoints && m != "" && m !in s.endpoints[a].transceivers
    ensures var d := RemoteDescription(Offer, [Section(m, Sendonly)]);
      var s' := AfterKnownOffer(s, a, Some(ft), d, CONFIG).0;
      a in s'.endpoints && m in s'.endpoints[a].transceivers && s'.endpoints[a].transceivers[m].sender.None?
  {
    SectionsOfOne(s, a, m, Sendonly);
    KnownOfferKeepsSender(s, a, Some(ft), RemoteDescription(Offer, [Section(m, Sendonly)]), m);
  }

  lemma FirstHasNoSender()
    ensures var st := Next(TWO_IN, CONFIG, Track1(1, "v", Sendonly));
      && Present(st, 1, 1) && "v" in st.sessions[1].endpoints[1].transceivers
      && st.sessions[1].endpoints[1].transceivers["v"].sender.None?
  {
    OfferedHasNoSender(TWO_IN.sessions[1], 1, FT(1), "v");
  }

  /** Taking over a track without a sender makes an endpoint that no offer can be made to. */
  lemma SenderlessTakenOver(s: Session, b: EndpointId, ft: FourTuple, track: (EndpointId, Mid))
    requires b in s.endpoints && ft in s.endpoints[b].transports
    requires track.0 in s.endpoints && track.1 in s.endpoints[track.0].transceivers
    requires s.endpoints[track.0].transceivers[track.1].sender.None?
    ensures TracksOf(s, [track]) && !Offerable(Opened(s, b, ft, 0, 0, [track]))
  {
    var e, key := Opened(s, b, ft, 0, 0, [track]), MirrorKey(track.0, track.1);
    assert [track][..0] == [];
    assert key in e.transceivers && e.transceivers[key] == MirrorOf(s, track);
  }

  /** The first client offers a track without a sender; the second one's channel opens and it is not told of it. */
  lemma SenderlessTrackLosesOpening()
    ensures IsRun(INITIAL, CONFIG, OFFERED)
    ensures var st, ev := After(INITIAL, CONFIG, OFFERED), Open(2, [(1, "v")]);
      && Flagged(st, 1, 2) && Enabled(st, CONFIG, ev)
      && Forgotten(st, Next(st, CONFIG, ev), SentBy(st, CONFIG, ev), 1, 2)
  {
    BothIn();
    RunSnoc(INITIAL, CONFIG, BOTH_IN, Track1(1, "v", Sendonly));
    OfferedState();
    OfferedToSecond();
    FirstHasNoSender();
    SenderlessOpeningLoses(After(INITIAL, CONFIG, OFFERED));
  }

  lemma SenderlessOpeningLoses(st: State)
    requires TreeOk(st) && Agreement(st) && Holds(st, 1, 2, FT(2))
    requires Present(st, 1, 1) && "v" in st.sessions[1].endpoints[1].transceivers
    requires st.sessions[1].endpoints[1].transceivers["v"].sender.None?
    requires Enumerates([(1, "v")], TracksFor(st.sessions[1], 2))
    ensures Enabled(st, CONFIG, Open(2, [(1, "v")]))
    ensures var ev := Open(2, [(1, "v")]); Forgotten(st, Next(st, CONFIG, ev), SentBy(st, CONFIG, ev), 1, 2)
  {
    SenderlessTakenOver(st.sessions[1], 2, FT(2), (1, "v"));
    RenegotiationIsLostIff(st, CONFIG, Open(2, [(1, "v")]), 1, 2);
  }
}
