/**
 Runs of the server from its start on which it does not do what one would expect: the inhabitants of
 the exceptions in IndexAgreement, Convergence and Negotiations.
 */
module FailingRuns {
  import opened Types
  import opened Directions
  import opened Sdp
  import opened Endpoints
  import opened MirrorKeys
  import opened SdpGeneration
  import opened OfferAnswer
  import opened Sessions
  import opened ServerStates
  import opened Gateway
  import opened Tracks
  import opened Runs
  import opened IndexAgreement
  import opened Convergence
  import opened Negotiations

  lemma {:induction false} RunConcat(st: State, config: SdpConfig, events: seq<Event>, more: seq<Event>)
    requires IsRun(st, config, events) && IsRun(After(st, config, events), config, more)
    ensures IsRun(st, config, events + more)
    ensures After(st, config, events + more) == After(After(st, config, events), config, more)
    decreases |events|
  {
    if events == [] {
      assert events + more == more;
    } else {
      assert (events + more)[1..] == events[1..] + more;
      RunConcat(Next(st, config, events[0]), config, events[1..], more);
    }
  }

  lemma RunOne(st: State, config: SdpConfig, ev: Event)
    requires Enabled(st, config, ev)
    ensures IsRun(st, config, [ev]) && After(st, config, [ev]) == Next(st, config, ev)
  {
    assert [ev][1..] == [];
  }

  /** One more event at the end of a run. */
  lemma RunSnoc(st: State, config: SdpConfig, events: seq<Event>, ev: Event)
    requires IsRun(st, config, events) && Enabled(After(st, config, events), config, ev)
    ensures IsRun(st, config, events + [ev])
    ensures After(st, config, events + [ev]) == Next(After(st, config, events), config, ev)
  {
    RunOne(After(st, config, events), config, ev);
    RunConcat(st, config, events, [ev]);
  }

  // ------------------------------------------------------------------ two clients join

  const CONFIG := SdpConfig([], "", "", "", map[])
  const REMOTE := Credentials("r", "")

  /** A first offer without any sections, and the answer to it. */
  const HELLO := SdpText(Offer, Ok(ParsedSdp([], Ok(REMOTE))))
  const NOTHING_ASKED := RemoteDescription(Offer, [])
  const NOTHING_ANSWERED :=
    LocalDescription(Answer, SessionDescription([], [PropertyAttribute("ice-lite"), ValueAttribute("group", "BUNDLE")]))

  function Address(n: nat): TransportContext {
    TransportContext(SocketAddr("server", 0), SocketAddr("client", n), None)
  }

  function CandidateOf(a: EndpointId, ufrag: string): Candidate {
    Candidate(1, a, REMOTE, Credentials(ufrag, ""), NOTHING_ASKED, NOTHING_ANSWERED, 0)
  }

  const C1 := CandidateOf(1, "x")
  const C2 := CandidateOf(2, "y")

  function Hello(a: EndpointId, ufrag: string): Event {
    OfferEvent(1, a, None, HELLO, Minted(Credentials(ufrag, ""), 0))
  }

  /** A connectivity check from the given address that nominates the candidate. */
  function Check(address: nat, ufrag: string): Event {
    StunEvent(Address(address), StunRequest(0, Some(ufrag + ":" + "r"), true, true, false, true, false, ""), 0)
  }

  function FT(n: nat): FourTuple { Address(n).Tuple() }

  const GREETED := State(map[1 := Session(1, map[])], map[], map["x:r" := C1, "y:r" := C2])

  const ONE_IN := State(
    map[1 := Session(1, map[1 := NewEndpoint(C1, FT(1), 0)])], map[FT(1) := (1, 1)], map["x:r" := C1, "y:r" := C2])

  const TWO_IN := State(
    map[1 := Session(1, map[1 := NewEndpoint(C1, FT(1), 0), 2 := NewEndpoint(C2, FT(2), 0)])],
    map[FT(1) := (1, 1), FT(2) := (1, 2)], map["x:r" := C1, "y:r" := C2])

  lemma HelloStep(st: State, a: EndpointId, ufrag: string)
    requires 1 in st.sessions ==> st.sessions[1] == Session(1, map[])
    ensures Next(st, CONFIG, Hello(a, ufrag)) == WithCandidate(WithSession(st, 1), CandidateOf(a, ufrag))
  {
    var none: Transceivers := map[];
    assert none.Keys == {};
    assert Populated([], none, SdpContext("passive", Credentials(ufrag, ""), CONFIG)).Ok?;
  }

  lemma Greeted()
    ensures IsRun(INITIAL, CONFIG, [Hello(1, "x"), Hello(2, "y")])
    ensures After(INITIAL, CONFIG, [Hello(1, "x"), Hello(2, "y")]) == GREETED
  {
    RunOne(INITIAL, CONFIG, Hello(1, "x"));
    HelloStep(INITIAL, 1, "x");
    var st := Next(INITIAL, CONFIG, Hello(1, "x"));
    RunSnoc(INITIAL, CONFIG, [Hello(1, "x")], Hello(2, "y"));
    HelloStep(st, 2, "y");
    assert [Hello(1, "x")] + [Hello(2, "y")] == [Hello(1, "x"), Hello(2, "y")];
    assert C1.Username() == "x:r" && C2.Username() == "y:r";
  }

  lemma CheckStep(st: State, n: nat, ufrag: string, c: Candidate)
    requires ufrag + ":" + "r" in st.candidates && st.candidates[ufrag + ":" + "r"] == c
             && c.localCredentials.password == ""
    ensures CheckStun(st, Check(n, ufrag).request) == Ok(Some(c))
    ensures Next(st, CONFIG, Check(n, ufrag)) == AfterNomination(st, c, FT(n), true, 0).0
  {
  }

  const FIRST_IN := [Hello(1, "x"), Hello(2, "y"), Check(1, "x")]
  const BOTH_IN := [Hello(1, "x"), Hello(2, "y"), Check(1, "x"), Check(2, "y")]

  lemma FirstChecks()
    ensures Next(GREETED, CONFIG, Check(1, "x")) == ONE_IN
  {
    assert "x" + ":" + "r" == "x:r";
    CheckStep(GREETED, 1, "x", C1);
  }

  lemma SecondChecks()
    ensures Next(ONE_IN, CONFIG, Check(2, "y")) == TWO_IN
  {
    assert "y" + ":" + "r" == "y:r";
    CheckStep(ONE_IN, 2, "y", C2);
    assert FT(1) != FT(2);
  }

  lemma FirstIn()
    ensures IsRun(INITIAL, CONFIG, FIRST_IN) && After(INITIAL, CONFIG, FIRST_IN) == ONE_IN
  {
    Greeted();
    FirstChecks();
    RunSnoc(INITIAL, CONFIG, [Hello(1, "x"), Hello(2, "y")], Check(1, "x"));
    assert FIRST_IN == [Hello(1, "x"), Hello(2, "y")] + [Check(1, "x")];
  }

  lemma BothIn()
    ensures IsRun(INITIAL, CONFIG, BOTH_IN) && After(INITIAL, CONFIG, BOTH_IN) == TWO_IN
  {
    FirstIn();
    SecondChecks();
    RunSnoc(INITIAL, CONFIG, FIRST_IN, Check(2, "y"));
    assert BOTH_IN == FIRST_IN + [Check(2, "y")];
  }

  // ------------------------------------------------------------------ one four-tuple for two endpoints

  lemma OneInIsShared()
    ensures Agreement(ONE_IN) && !Exclusive(ONE_IN, Check(1, "y"))
  {
    assert "y" + ":" + "r" == "y:r";
    CheckStep(ONE_IN, 1, "y", C2);
    assert Holds(ONE_IN, 1, 1, FT(1));
    assert HeldElsewhere(ONE_IN, 1, 2, FT(1));
  }

  /** The second client's check comes from the first one's address: the index then names only one of them. */
  lemma SharedAddressBreaksIndex()
    ensures var events := FIRST_IN + [Check(1, "y")];
      && IsRun(INITIAL, CONFIG, FIRST_IN) && IsRun(INITIAL, CONFIG, events)
      && Agreement(After(INITIAL, CONFIG, FIRST_IN))
      && !Exclusive(After(INITIAL, CONFIG, FIRST_IN), Check(1, "y"))
      && !Agreement(After(INITIAL, CONFIG, events))
  {
    FirstIn();
    OneInIsShared();
    RunSnoc(INITIAL, CONFIG, FIRST_IN, Check(1, "y"));
    EveryRunKeepsTree(INITIAL, CONFIG, FIRST_IN);
    StepKeepsAgreementIff(ONE_IN, CONFIG, Check(1, "y"));
  }

  // ------------------------------------------------------------------ two transports of one candidate

  lemma SecondTransport(st: State)
    requires 1 in st.sessions && 1 in st.sessions[1].endpoints && Holds(st, 1, 1, FT(1)) && !Holds(st, 1, 1, FT(3))
    ensures var st' := AfterNomination(st, C1, FT(3), true, 0).0;
      && Holds(st', 1, 1, FT(1)) && Holds(st', 1, 1, FT(3)) && FT(3) in st'.index && st'.index[FT(3)] == (1, 1)
      && TransportAt(st', 1, 1, FT(1)) == TransportAt(st, 1, 1, FT(1)) && TransportAt(st', 1, 1, FT(3)).candidate == C1
      && st'.candidates == st.candidates
  {
    assert FT(1) != FT(3);
  }

  lemma OneTransportLess(st: State)
    requires Holds(st, 1, 1, FT(1)) && Holds(st, 1, 1, FT(3)) && FT(3) in st.index && st.index[FT(3)] == (1, 1)
    requires TransportAt(st, 1, 1, FT(3)).candidate == C1
    ensures var st' := AfterRemoval(st, FT(3));
      && Holds(st', 1, 1, FT(1)) && TransportAt(st', 1, 1, FT(1)) == TransportAt(st, 1, 1, FT(1))
      && C1.Username() !in st'.candidates
  {
    assert FT(1) != FT(3);
    assert FT(1) in st.sessions[1].endpoints[1].transports - {FT(3)};
  }

  const TWICE_IN := FIRST_IN + [Check(3, "x")]

  lemma TwiceIn()
    ensures IsRun(INITIAL, CONFIG, TWICE_IN)
    ensures var st := After(INITIAL, CONFIG, TWICE_IN);
      && Holds(st, 1, 1, FT(1)) && Holds(st, 1, 1, FT(3)) && FT(3) in st.index && st.index[FT(3)] == (1, 1)
      && TransportAt(st, 1, 1, FT(1)).candidate == C1 && TransportAt(st, 1, 1, FT(3)).candidate == C1
  {
    FirstIn();
    assert "x" + ":" + "r" == "x:r";
    CheckStep(ONE_IN, 3, "x", C1);
    RunSnoc(INITIAL, CONFIG, FIRST_IN, Check(3, "x"));
    assert FT(1) != FT(3) && Holds(ONE_IN, 1, 1, FT(1)) && !Holds(ONE_IN, 1, 1, FT(3));
    SecondTransport(ONE_IN);
  }

  /**
   A client has two transports, both with its one candidate. When one of them goes, the candidate goes as well: the
   client's checks over the other one, with the credentials it was given, are not credible any more.
   */
  lemma OtherTransportIsSilenced(request: StunRequest)
    requires request.username == Some("x:r")
    ensures var events := TWICE_IN + [AlertEvent(FT(3))];
      && IsRun(INITIAL, CONFIG, events)
      && var st := After(INITIAL, CONFIG, events);
      && Holds(st, 1, 1, FT(1)) && TransportAt(st, 1, 1, FT(1)).candidate.Username() == "x:r"
      && !Credible(st, request)
  {
    TwiceIn();
    RunSnoc(INITIAL, CONFIG, TWICE_IN, AlertEvent(FT(3)));
    OneTransportLess(After(INITIAL, CONFIG, TWICE_IN));
    assert C1.Username() == "x:r";
  }

  // ------------------------------------------------------------------ offers of single tracks

  function Section(m: Mid, d: Direction): RemoteMedia {
    RemoteMedia(Media("video", [ValueAttribute("mid", m), PropertyAttribute(DirectionName(d))]),
                Ok(Track(None, RtpParameters([], []))))
  }

  /** Client `a`, at its own address, offers a video track under mid `m`. */
  function Track1(a: EndpointId, m: Mid, d: Direction): Event {
    OfferEvent(1, a, Some(FT(a)), SdpText(Offer, Ok(ParsedSdp([Section(m, d)], Ok(REMOTE)))), Minted(REMOTE, 0))
  }

  lemma SectionIsRead(m: Mid, d: Direction)
    requires d != Unspecified
    ensures MidOf(Section(m, d).media) == Some(m) && PeerDirection(Section(m, d).media) == d
            && Negotiable(Section(m, d).media)
  {
    var mid, name := [ValueAttribute("mid", m)], [PropertyAttribute(DirectionName(d))];
    DirectionAfter(mid, d, []);
    assert Section(m, d).media.attributes == mid + name + [];
  }

  lemma SectionsOfOne(s: Session, a: EndpointId, m: Mid, d: Direction)
    requires a in s.endpoints && m != "" && d != Unspecified
    ensures AfterSections(s, a, false, [Section(m, d)]).0
         == if m in s.endpoints[a].transceivers then s else Published(s, a, m, d, Video, Section(m, d).track.value)
  {
    SectionIsRead(m, d);
    assert [Section(m, d)][1..] == [];
  }

  lemma TrackKeepsEndpoints(st: State, a: EndpointId, m: Mid, d: Direction, b: EndpointId)
    requires Present(st, 1, b)
    ensures Present(Next(st, CONFIG, Track1(a, m, d)), 1, b)
  {
    var ev := Track1(a, m, d);
    OfferIsKin(st, CONFIG, 1, a, ev.tuple, ev.offer, ev.minted);
    KinAges(st, Next(st, CONFIG, ev), 1, b);
  }

  /** What such an offer does to any transceiver of any endpoint. */
  lemma TrackStep(st: State, a: EndpointId, m: Mid, d: Direction, b: EndpointId, k: Mid)
    requires Present(st, 1, a) && Present(st, 1, b) && m != "" && d != Unspecified
    ensures Present(Next(st, CONFIG, Track1(a, m, d)), 1, b)
    ensures var s, s' := st.sessions[1], Next(st, CONFIG, Track1(a, m, d)).sessions[1];
      DirectionAt(s', b, k) ==
        if DirectionAt(s, a, m).Some? then DirectionAt(s, b, k)
        else if b == a && k == m then Some(if d == Recvonly then Sendonly else Recvonly)
        else if b != a && k == MirrorKey(a, m) && (DirectionAt(s, b, k).Some? || d == Sendonly) then Some(d)
        else DirectionAt(s, b, k)
  {
    var ev, s := Track1(a, m, d), st.sessions[1];
    TrackKeepsEndpoints(st, a, m, d, b);
    StepOutcome(st, CONFIG, ev, 1);
    assert DirectionAt(Next(st, CONFIG, ev).sessions[1], b, k) == ActedDirection(s, Offering(a, [Section(m, d)]), b, k);
    SectionsOfOne(s, a, m, d);
    PublishedDirection(s, a, m, d, Video, Section(m, d).track.value, b, k);
  }

  lemma TwoInTracks(a: EndpointId, m: Mid)
    ensures Present(TWO_IN, 1, 1) && Present(TWO_IN, 1, 2)
    ensures DirectionAt(TWO_IN.sessions[1], a, m).None?
  {
  }

  lemma Keys()
    ensures MirrorKey(1, "v") == "1-v" && MirrorKey(2, "v") == "2-v"
  {
    assert Decimal(1) == "1" && Decimal(2) == "2";
  }

  /** The channel of client `a` opens; `tracks` are those it takes over. */
  function Open(a: EndpointId, tracks: seq<(EndpointId, Mid)>): Event { OpenEvent(Address(a), 0, 0, 0, tracks) }

  const SECOND_OPEN := BOTH_IN + [Open(2, [])]

  lemma TwoInIsOk()
    ensures TreeOk(TWO_IN)
  {
    BothIn();
    EveryRunKeepsTree(INITIAL, CONFIG, BOTH_IN);
  }

  /** Endpoints stay where they are, but for checks, sweeps and alerts. */
  lemma EndpointStays(st: State, config: SdpConfig, ev: Event, a: EndpointId)
    requires TreeOk(st) && Enabled(st, config, ev) && Present(st, 1, a)
    requires !ev.StunEvent? && !ev.SweepEvent? && !ev.AlertEvent?
    ensures var st' := Next(st, config, ev);
      && Present(st', 1, a) && st'.sessions[1].endpoints.Keys == st.sessions[1].endpoints.Keys
      && st'.sessions[1].endpoints[a].transports.Keys == st.sessions[1].endpoints[a].transports.Keys
      && MidsOk(st'.sessions[1].endpoints[a])
  {
    MostStepsAreKin(st, config, ev);
    KinEndpointStays(st, Next(st, config, ev), a);
  }

  lemma KinEndpointStays(st: State, st': State, a: EndpointId)
    requires TreeOk(st) && KinState(st, st') && Present(st, 1, a)
    ensures && Present(st', 1, a) && st'.sessions[1].endpoints.Keys == st.sessions[1].endpoints.Keys
            && st'.sessions[1].endpoints[a].transports.Keys == st.sessions[1].endpoints[a].transports.Keys
            && MidsOk(st'.sessions[1].endpoints[a])
  {
    assert KinSession(st.sessions[1], st'.sessions[1]);
    assert Kin(st.sessions[1].endpoints[a], st'.sessions[1].endpoints[a]);
    assert SessionOk(1, st.sessions[1]) && EndpointOk(1, a, st.sessions[1].endpoints[a]);
  }

  lemma OpenIsEnabled()
    ensures Enabled(TWO_IN, CONFIG, Open(2, []))
  {
    assert TracksFor(TWO_IN.sessions[1], 2) == {};
  }

  /** A channel that opens where nothing is received changes no tracks. */
  lemma OpeningOntoNothing(st: State, config: SdpConfig, ev: Event, a: EndpointId, m: Mid)
    requires TreeOk(st) && Enabled(st, config, ev) && Present(st, 1, a) && ev.OpenEvent?
    requires forall b: EndpointId :: TracksFor(st.sessions[1], b) == {}
    ensures var st' := Next(st, config, ev);
            Present(st', 1, a) && DirectionAt(st'.sessions[1], a, m) == DirectionAt(st.sessions[1], a, m)
  {
    EndpointStays(st, config, ev, a);
    StepOutcome(st, config, ev, 1);
  }

  lemma TwoInReceivesNothing(b: EndpointId)
    ensures TracksFor(TWO_IN.sessions[1], b) == {}
  {
  }

  lemma SecondOpens(a: EndpointId, m: Mid)
    requires a == 1 || a == 2
    ensures Enabled(TWO_IN, CONFIG, Open(2, []))
    ensures var st := Next(TWO_IN, CONFIG, Open(2, []));
            Present(st, 1, a) && DirectionAt(st.sessions[1], a, m).None?
  {
    OpenIsEnabled();
    TwoInIsOk();
    TwoInTracks(a, m);
    forall b: EndpointId
      ensures TracksFor(TWO_IN.sessions[1], b) == {}
    {
      TwoInReceivesNothing(b);
    }
    OpeningOntoNothing(TWO_IN, CONFIG, Open(2, []), a, m);
  }

  /** Both clients are there, the second one's channel is open, and nobody has offered anything. */
  lemma SecondOpen(a: EndpointId, m: Mid)
    requires a == 1 || a == 2
    ensures IsRun(INITIAL, CONFIG, SECOND_OPEN)
    ensures var st := After(INITIAL, CONFIG, SECOND_OPEN);
            Present(st, 1, a) && DirectionAt(st.sessions[1], a, m).None?
  {
    BothIn();
    SecondOpens(a, m);
    RunSnoc(INITIAL, CONFIG, BOTH_IN, Open(2, []));
  }

  /** After a first offer of `d`, offering the track sendonly leaves these directions. */
  lemma ReofferRun(d: Direction)
    requires d != Unspecified && d != Sendonly
    ensures var events := SECOND_OPEN + [Track1(1, "v", d)] + [Track1(1, "v", Sendonly)];
      && IsRun(INITIAL, CONFIG, events)
      && var s := SessionOf(After(INITIAL, CONFIG, events), 1);
      && 2 in s.endpoints && !Mirror(s, 2, 1, "v")
      && (Source(s, 1, "v") <==> d != Recvonly)
  {
    SecondOpen(1, "v");
    SecondOpen(2, MirrorKey(1, "v"));
    var st := After(INITIAL, CONFIG, SECOND_OPEN);
    RunSnoc(INITIAL, CONFIG, SECOND_OPEN, Track1(1, "v", d));
    RunSnoc(INITIAL, CONFIG, SECOND_OPEN + [Track1(1, "v", d)], Track1(1, "v", Sendonly));
    var st1 := Next(st, CONFIG, Track1(1, "v", d));
    TrackStep(st, 1, "v", d, 1, "v");
    TrackStep(st, 1, "v", d, 2, MirrorKey(1, "v"));
    TrackStep(st1, 1, "v", Sendonly, 1, "v");
    TrackStep(st1, 1, "v", Sendonly, 2, MirrorKey(1, "v"));
  }

  /**
   After a first offer that is sendrecv or inactive, offering the track sendonly does not send it to the peer that
   has joined.
   */
  lemma ReofferReachesNobody()
    ensures var events := SECOND_OPEN + [Track1(1, "v", Sendrecv)] + [Track1(1, "v", Sendonly)];
      && IsRun(INITIAL, CONFIG, events)
      && var s := SessionOf(After(INITIAL, CONFIG, events), 1);
      Source(s, 1, "v") && 2 in s.endpoints && !Mirror(s, 2, 1, "v")
  {
    ReofferRun(Sendrecv);
  }

  /** After a first offer that is recvonly, offering the track sendonly does not even make the server receive it. */
  lemma ReofferIsNotReceived()
    ensures var events := SECOND_OPEN + [Track1(1, "v", Recvonly)] + [Track1(1, "v", Sendonly)];
      && IsRun(INITIAL, CONFIG, events)
      && var s := SessionOf(After(INITIAL, CONFIG, events), 1);
      !Source(s, 1, "v") && 2 in s.endpoints && !Mirror(s, 2, 1, "v")
  {
    ReofferRun(Recvonly);
  }

  /** A track whose own mid is the mirror key of a peer's mid is lost when the peer offers that mid. */
  lemma MirrorShapedMidIsLost(d: Direction)
    requires d != Unspecified && d != Recvonly
    ensures var before := BOTH_IN + [Track1(1, "2-v", Sendonly)];
      && IsRun(INITIAL, CONFIG, before) && IsRun(INITIAL, CONFIG, before + [Track1(2, "v", d)])
      && Source(SessionOf(After(INITIAL, CONFIG, before), 1), 1, "2-v")
      && !Source(SessionOf(After(INITIAL, CONFIG, before + [Track1(2, "v", d)]), 1), 1, "2-v")
  {
    BothIn();
    Keys();
    RunSnoc(INITIAL, CONFIG, BOTH_IN, Track1(1, "2-v", Sendonly));
    RunSnoc(INITIAL, CONFIG, BOTH_IN + [Track1(1, "2-v", Sendonly)], Track1(2, "v", d));
    var st := Next(TWO_IN, CONFIG, Track1(1, "2-v", Sendonly));
    TwoInTracks(1, "2-v");
    TwoInTracks(2, "v");
    TrackStep(TWO_IN, 1, "2-v", Sendonly, 1, "2-v");
    TrackStep(TWO_IN, 1, "2-v", Sendonly, 2, "v");
    assert "v" != MirrorKey(1, "2-v") by {
      assert |MirrorKey(1, "2-v")| > 1;
    }
    TrackStep(st, 2, "v", d, 1, "2-v");
  }

  /** What there is to hold when the second client has offered "v" and the first one "2-v". */
  lemma LookalikeTracks(a: EndpointId, m: Mid)
    requires a == 1 || a == 2
    ensures var st := Next(Next(TWO_IN, CONFIG, Track1(2, "v", Sendrecv)), CONFIG, Track1(1, "2-v", Sendonly));
      && Present(st, 1, a)
      && DirectionAt(st.sessions[1], a, m) == if (a, m) == (1, "2-v") || (a, m) == (2, "v") then Some(Recvonly)
                                              else if a == 2 && m == MirrorKey(1, "2-v") then Some(Sendonly) else None
  {
    var st := Next(TWO_IN, CONFIG, Track1(2, "v", Sendrecv));
    TwoInTracks(a, m);
    TwoInTracks(1, "2-v");
    TwoInTracks(2, "v");
    TrackStep(TWO_IN, 2, "v", Sendrecv, a, m);
    TrackStep(TWO_IN, 2, "v", Sendrecv, 1, "2-v");
    TrackStep(st, 1, "2-v", Sendonly, a, m);
    assert "v" != MirrorKey(1, "2-v") by {
      assert |MirrorKey(1, "2-v")| > 1;
    }
  }

  /** Both clients stay where they are, whatever they offer. */
  lemma OffersKeepPlaces(st: State, a: EndpointId, m: Mid, d: Direction, b: EndpointId)
    requires TreeOk(st) && Holds(st, 1, b, FT(b)) && FT(b) in st.index && st.index[FT(b)] == (1, b)
    ensures var st' := Next(st, CONFIG, Track1(a, m, d));
      && TreeOk(st') && st'.sessions.Keys >= {1} && st'.sessions[1].endpoints.Keys == st.sessions[1].endpoints.Keys
      && Holds(st', 1, b, FT(b)) && FT(b) in st'.index && st'.index[FT(b)] == (1, b)
  {
    StepKeepsTree(st, CONFIG, Track1(a, m, d));
    MostStepsAreKin(st, CONFIG, Track1(a, m, d));
    EndpointStays(st, CONFIG, Track1(a, m, d), b);
    assert FT(b) in st.sessions[1].endpoints[b].transports.Keys;
  }

  lemma TwoInPlaces(b: EndpointId)
    requires b == 1 || b == 2
    ensures TreeOk(TWO_IN) && TWO_IN.sessions[1].endpoints.Keys == {1, 2}
    ensures Holds(TWO_IN, 1, b, FT(b)) && FT(b) in TWO_IN.index && TWO_IN.index[FT(b)] == (1, b)
  {
    TwoInIsOk();
    assert FT(1) != FT(2);
  }

  lemma LookalikePlaces()
    ensures var st := Next(Next(TWO_IN, CONFIG, Track1(2, "v", Sendrecv)), CONFIG, Track1(1, "2-v", Sendonly));
      && Holds(st, 1, 1, FT(1)) && FT(1) in st.index && st.index[FT(1)] == (1, 1)
      && st.sessions[1].endpoints.Keys == {1, 2}
  {
    TwoInPlaces(1);
    OffersKeepPlaces(TWO_IN, 2, "v", Sendrecv, 1);
    OffersKeepPlaces(Next(TWO_IN, CONFIG, Track1(2, "v", Sendrecv)), 1, "2-v", Sendonly, 1);
  }

  lemma LookalikeIsTakenOver()
    ensures var st := Next(Next(TWO_IN, CONFIG, Track1(2, "v", Sendrecv)), CONFIG, Track1(1, "2-v", Sendonly));
      && GetTransport(st, FT(1)).Ok? && st.index[FT(1)] == (1, 1)
      && Enumerates([(2, "v")], TracksFor(st.sessions[1], 1))
  {
    LookalikePlaces();
    var s := Next(Next(TWO_IN, CONFIG, Track1(2, "v", Sendrecv)), CONFIG, Track1(1, "2-v", Sendonly)).sessions[1];
    forall a: EndpointId, m: Mid
      ensures (a, m) in TracksFor(s, 1) <==> (a, m) == (2, "v")
    {
      TracksForIff(s, 1, a, m);
      if a == 1 || a == 2 {
        LookalikeTracks(a, m);
      }
    }
  }

  /** A track whose own mid is the mirror key of a peer's track is lost as well when its endpoint's channel opens. */
  lemma MirrorShapedMidIsLostOnOpening()
    ensures var before := BOTH_IN + [Track1(2, "v", Sendrecv)] + [Track1(1, "2-v", Sendonly)];
      && IsRun(INITIAL, CONFIG, before) && IsRun(INITIAL, CONFIG, before + [Open(1, [(2, "v")])])
      && Source(SessionOf(After(INITIAL, CONFIG, before), 1), 1, "2-v")
      && !Source(SessionOf(After(INITIAL, CONFIG, before + [Open(1, [(2, "v")])]), 1), 1, "2-v")
  {
    BothIn();
    RunSnoc(INITIAL, CONFIG, BOTH_IN, Track1(2, "v", Sendrecv));
    RunSnoc(INITIAL, CONFIG, BOTH_IN + [Track1(2, "v", Sendrecv)], Track1(1, "2-v", Sendonly));
    var before := BOTH_IN + [Track1(2, "v", Sendrecv)] + [Track1(1, "2-v", Sendonly)];
    var st := After(INITIAL, CONFIG, before);
    LookalikeTracks(1, "2-v");
    LookalikeIsTakenOver();
    RunSnoc(INITIAL, CONFIG, before, Open(1, [(2, "v")]));
    LookalikeTurnsAround(st);
  }

  lemma LookalikeTurnsAround(st: State)
    requires GetTransport(st, FT(1)).Ok? && st.index[FT(1)] == (1, 1)
    requires Enumerates([(2, "v")], TracksFor(st.sessions[1], 1)) && Source(st.sessions[1], 1, "2-v")
    ensures Enabled(st, CONFIG, Open(1, [(2, "v")]))
    ensures !Source(SessionOf(Next(st, CONFIG, Open(1, [(2, "v")])), 1), 1, "2-v")
  {
    Keys();
    assert (2, "v") in TracksFor(st.sessions[1], 1) by {
      assert (2, "v") in [(2, "v")];
    }
    StepKeepsSourceIff(st, CONFIG, Open(1, [(2, "v")]), 1, 1, "2-v");
  }

  // ------------------------------------------------------------------ sections that move

  /** Only the sections of an offer append mids, not the answer to it. */
  lemma KnownOfferMids(s: Session, a: EndpointId, ft: Option<FourTuple>, d: RemoteDescription)
    requires a in s.endpoints
    ensures var s1, s2 := AfterRemote(s, a, d).0, AfterKnownOffer(s, a, ft, d, CONFIG).0;
      && a in s1.endpoints && a in s2.endpoints
      && s2.endpoints[a].mids == s1.endpoints[a].mids && s2.endpoints[a].remote == s1.endpoints[a].remote
  {
    var (s1, r) := AfterRemote(s, a, d);
    RemoteGrows(s, a, d);
    if r.Ok? && ft.Some? && ft.value in s1.endpoints[a].transports {
      var answer := AnswerFor(s1, a, d, s1.endpoints[a].transports[ft.value].candidate.localCredentials, CONFIG);
      if answer.Ok? {
        LocalMediaGrows(s1.endpoints[a], answer.value.sdp.media);
      }
    }
  }

  lemma KnownOfferOfOne(s: Session, ft: FourTuple, m: Mid)
    requires 1 in s.endpoints && m != "" && m !in s.endpoints[1].transceivers
    ensures var s' := AfterKnownOffer(s, 1, Some(ft), RemoteDescription(Offer, [Section(m, Sendonly)]), CONFIG).0;
      && 1 in s'.endpoints
      && s'.endpoints[1].mids == s.endpoints[1].mids + [m] && s'.endpoints[1].remote == s.endpoints[1].remote
  {
    KnownOfferMids(s, 1, Some(ft), RemoteDescription(Offer, [Section(m, Sendonly)]));
    SectionsOfOne(s, 1, m, Sendonly);
  }

  /** The client has exactly the mid it offered, and still no application section. */
  lemma TrackGivesMid(m: Mid)
    requires m != ""
    ensures var st' := Next(TWO_IN, CONFIG, Track1(1, m, Sendonly));
      && 1 in st'.sessions && SessionOk(1, st'.sessions[1]) && 1 in st'.sessions[1].endpoints
      && st'.sessions[1].endpoints[1].mids == [m] && st'.sessions[1].endpoints[1].remote == Some(NOTHING_ASKED)
  {
    TwoInIsOk();
    StepKeepsTree(TWO_IN, CONFIG, Track1(1, m, Sendonly));
    KnownOfferOfOne(TWO_IN.sessions[1], FT(1), m);
  }

  /** Without an application section, the data section moves as soon as the client has offered a track. */
  lemma DataSectionMoves()
    ensures var later := BOTH_IN + [Track1(1, "v", Sendonly)];
      && IsRun(INITIAL, CONFIG, BOTH_IN) && IsRun(INITIAL, CONFIG, later)
      && var st, st' := After(INITIAL, CONFIG, BOTH_IN), After(INITIAL, CONFIG, later);
      && Present(st, 1, 1) && Present(st', 1, 1)
      && var e, e' := st.sessions[1].endpoints[1], st'.sessions[1].endpoints[1];
      e.remote.Some? && e'.remote.Some? && !(CurrentOffer(e) <= CurrentOffer(e'))
  {
    BothIn();
    RunSnoc(INITIAL, CONFIG, BOTH_IN, Track1(1, "v", Sendonly));
    TrackGivesMid("v");
    TwoInTracks(1, "v");
    OfferIsStable([], [], ["v"]);
  }

  // ------------------------------------------------------------------ mids that occur twice

  /** What there is to hold after the first client's offer. */
  lemma OfferedTracks(a: EndpointId, m: Mid)
    requires a == 1 || a == 2
    ensures var st := Next(TWO_IN, CONFIG, Track1(1, "v", Sendonly));
      && Present(st, 1, a)
      && DirectionAt(st.sessions[1], a, m) == if a == 1 && m == "v" then Some(Recvonly)
                                              else if a == 2 && m == MirrorKey(1, "v") then Some(Sendonly) else None
  {
    TwoInTracks(a, m);
    TwoInTracks(1, "v");
    TrackStep(TWO_IN, 1, "v", Sendonly, a, m);
  }

  lemma OfferKeepsSecond()
    ensures var st := Next(TWO_IN, CONFIG, Track1(1, "v", Sendonly));
      && 1 in st.sessions && st.sessions[1].endpoints.Keys == {1, 2} && FT(2) in st.sessions[1].endpoints[2].transports
      && MidsOk(st.sessions[1].endpoints[2])
  {
    TwoInIsOk();
    EndpointStays(TWO_IN, CONFIG, Track1(1, "v", Sendonly), 2);
    assert FT(2) in TWO_IN.sessions[1].endpoints[2].transports.Keys;
  }

  /** What the second client takes over when its channel opens after the first one's offer. */
  lemma OfferedToSecond()
    ensures var st := Next(TWO_IN, CONFIG, Track1(1, "v", Sendonly));
      && 1 in st.sessions && TracksOf(st.sessions[1], [(1, "v")])
           && Enumerates([(1, "v")], TracksFor(st.sessions[1], 2))
  {
    var s := SessionOf(Next(TWO_IN, CONFIG, Track1(1, "v", Sendonly)), 1);
    OfferKeepsSecond();
    forall a: EndpointId, m: Mid
      ensures (a, m) in TracksFor(s, 2) <==> (a, m) == (1, "v")
    {
      TracksForIff(s, 2, a, m);
      if a == 1 || a == 2 {
        OfferedTracks(a, m);
      }
    }
    TracksArePresent(s, 2, [(1, "v")]);
  }

  /** A track that was mirrored when it was offered is mirrored again when the peer's channel opens. */
  lemma MirrorIsListedTwice()
    ensures var before := BOTH_IN + [Track1(1, "v", Sendonly)];
      && IsRun(INITIAL, CONFIG, before)
      && var s := SessionOf(After(INITIAL, CONFIG, before), 1);
      && 2 in s.endpoints && FT(2) in s.endpoints[2].transports && TracksOf(s, [(1, "v")])
      && Enumerates([(1, "v")], TracksFor(s, 2))
      && !Distinct(Opened(s, 2, FT(2), 0, 0, [(1, "v")]).mids)
  {
    BothIn();
    RunSnoc(INITIAL, CONFIG, BOTH_IN, Track1(1, "v", Sendonly));
    OfferKeepsSecond();
    OfferedToSecond();
    OfferedTracks(2, MirrorKey(1, "v"));
    var s := Next(TWO_IN, CONFIG, Track1(1, "v", Sendonly)).sessions[1];
    assert (1, "v") in TracksFor(s, 2) by {
      assert (1, "v") in [(1, "v")];
    }
    OpeningMidsDistinctIff(s, 2, FT(2), 0, 0, [(1, "v")]);
  }

  /** A client whose only mid is "1" and that asked for no data section cannot be made an offer. */
  lemma DataMidCollides(cred: Credentials)
    ensures var events := BOTH_IN + [Track1(1, "1", Sendonly)];
      && IsRun(INITIAL, CONFIG, events)
      && var s := SessionOf(After(INITIAL, CONFIG, events), 1);
      && 1 in s.endpoints && s.endpoints[1].remote == Some(NOTHING_ASKED)
      && OfferFor(s, 1, NOTHING_ASKED, cred, CONFIG).Err?
  {
    BothIn();
    RunSnoc(INITIAL, CONFIG, BOTH_IN, Track1(1, "1", Sendonly));
    TrackGivesMid("1");
    var s := Next(TWO_IN, CONFIG, Track1(1, "1", Sendonly)).sessions[1];
    OfferIsMadeIff(1, s, 1, cred, CONFIG);
    assert Decimal(1) == "1" && DataMids([], ["1"])[0] == "1";
    assert "1" in s.endpoints[1].mids && "1" in s.endpoints[1].transceivers;
  }
}
