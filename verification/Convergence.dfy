/**
 Which tracks reach which peers (src/session/mod.rs, src/handlers/gateway.rs), over whole runs.

 A track is mirrored into a peer by two paths: when the client offers its mid for the first time, and
 when the peer's data channel opens. What a peer is sent is therefore decided by the direction of the
 first offer of the mid and by what the peer did since, and not by later offers of the same mid.
 */
module Convergence {
  import opened Types
  import opened Directions
  import opened Sdp
  import opened Endpoints
  import opened MirrorKeys
  import opened SdpGeneration
  import opened Sessions
  import opened ServerStates
  import opened Gateway
  import opened Tracks
  import opened Runs

  // ------------------------------------------------------------------ what has happened in a session

  /**
   `first` is the direction in which each endpoint offered a mid for the first time, `sendonly` the mids
   offered sendonly at any time. `witnesses` has (b, a, m) if b was in the session when a first offered
   m, and `since` if b's data channel has opened since then. The channels of `joined` have opened.
   */
  datatype Book = Book(
    first: map<(EndpointId, Mid), Direction>, sendonly: set<(EndpointId, Mid)>,
    witnesses: set<(EndpointId, EndpointId, Mid)>, since: set<(EndpointId, EndpointId, Mid)>,
    joined: set<EndpointId>)

  const BLANK := Book(map[], {}, {}, {}, {})

  ghost function WithFirst(book: Book, s: Session, a: EndpointId, m: Mid, d: Direction): Book {
    book.(first := book.first[(a, m) := d],
          witnesses := book.witnesses + set b | b in s.endpoints && b != a :: (b, a, m))
  }

  ghost function WithSection(book: Book, s: Session, a: EndpointId, section: RemoteMedia): Book
    requires a in s.endpoints
  {
    if !Applied(s.endpoints[a], section) then book
    else
      var m, d := MidOf(section.media).value, PeerDirection(section.media);
      var book1 := if Creates(s.endpoints[a], section) then WithFirst(book, s, a, m, d) else book;
      if d == Sendonly then book1.(sendonly := book1.sendonly + {(a, m)}) else book1
  }

  /** An offer's sections are entered one by one, up to the first that fails. */
  ghost function WithSections(book: Book, s: Session, a: EndpointId, sections: seq<RemoteMedia>): Book
    requires a in s.endpoints
    decreases |sections|
  {
    if sections == [] then book
    else
      SectionKeepsKeys(s, a, false, sections[0]);
      var (s1, r) := AfterOfferedSection(s, a, sections[0]);
      var book1 := WithSection(book, s, a, sections[0]);
      if r.Err? then book1 else WithSections(book1, s1, a, sections[1..])
  }

  ghost function WithOpening(book: Book, b: EndpointId): Book {
    book.(joined := book.joined + {b}, since := book.since + set p | p in book.first && p.0 != b :: (b, p.0, p.1))
  }

  /** What concerns endpoints that have left is struck out. */
  ghost function Restricted(book: Book, s: Session): Book {
    Book((map p | p in book.first && p.0 in s.endpoints :: book.first[p]),
         (set p | p in book.sendonly && p.0 in s.endpoints),
         (set t | t in book.witnesses && t.0 in s.endpoints && t.1 in s.endpoints),
         (set t | t in book.since && t.0 in s.endpoints && t.1 in s.endpoints),
         book.joined * s.endpoints.Keys)
  }

  // ------------------------------------------------------------------ what the session must then look like

  /** By what has happened, `b` is to be sent track `m` of `a`. */
  ghost predicate Due(book: Book, a: EndpointId, m: Mid, b: EndpointId)
    requires (a, m) in book.first
  {
    match book.first[(a, m)]
    case Sendonly => (b, a, m) in book.witnesses || (b, a, m) in book.since
    case Sendrecv | Inactive => (b, a, m) in book.since
    case Recvonly | Unspecified => false
  }

  /** Transceivers under client mids are those the endpoints offered themselves. */
  ghost predicate Held(s: Session, book: Book) {
    && (forall a: EndpointId, m: Mid :: (a, m) in book.first ==>
          DirectionAt(s, a, m).Some? && book.first[(a, m)] != Unspecified)
    && (forall a: EndpointId, m: Mid :: DirectionAt(s, a, m).Some? && ClientMid(m) ==> (a, m) in book.first)
    && (forall a: EndpointId, m: Mid :: (a, m) in book.sendonly && ClientMid(m) ==> (a, m) in book.first)
  }

  /** A track is received unless the client first offered to receive only. */
  ghost predicate Taken(s: Session, book: Book) {
    forall a: EndpointId, m: Mid :: (a, m) in book.first && ClientMid(m) ==>
      (Source(s, a, m) <==> book.first[(a, m)] != Recvonly)
  }

  /** The entries are about tracks and endpoints that are there, and about every joined endpoint. */
  ghost predicate Attended(s: Session, book: Book) {
    && (forall t :: t in book.witnesses || t in book.since ==>
          (t.1, t.2) in book.first && t.0 in s.endpoints && t.0 != t.1)
    && book.joined <= s.endpoints.Keys
    && (forall a: EndpointId, m: Mid, b: EndpointId :: (a, m) in book.first && b in book.joined && b != a ==>
          (b, a, m) in book.witnesses || (b, a, m) in book.since)
  }

  /** `b` is sent the track if it is due, and only then unless it offered that very mirror key itself. */
  ghost predicate SentRightly(s: Session, book: Book, a: EndpointId, m: Mid, b: EndpointId)
    requires (a, m) in book.first
  {
    && (Due(book, a, m, b) ==> Mirror(s, b, a, m))
    && (Mirror(s, b, a, m) && (b, MirrorKey(a, m)) !in book.first ==> Due(book, a, m, b))
  }

  ghost predicate Sent(s: Session, book: Book) {
    forall a: EndpointId, m: Mid, b: EndpointId ::
        (a, m) in book.first && ClientMid(m) && b in s.endpoints && b != a ==>
      SentRightly(s, book, a, m, b)
  }

  ghost predicate Agrees(s: Session, book: Book) {
    Held(s, book) && Taken(s, book) && Attended(s, book) && Sent(s, book)
  }

  /**
   What agreement says of the tracks offered sendonly under client mids. First offered sendonly, they
   are received and every joined peer is sent them. First offered sendrecv or inactive, they are
   received, and sent to exactly the joined peers whose channel opened after that first offer. First
   offered recvonly, they are neither received nor sent. (A peer that offered the mirror key as a mid
   of its own may hold it by that.)
   */
  lemma SendonlyTracks(s: Session, book: Book, a: EndpointId, m: Mid, b: EndpointId)
    requires Agrees(s, book)
    requires (a, m) in book.sendonly && ClientMid(m) && b in book.joined && b != a
    ensures (a, m) in book.first
    ensures Source(s, a, m) <==> book.first[(a, m)] != Recvonly
    ensures book.first[(a, m)] == Sendonly ==> Mirror(s, b, a, m)
    ensures book.first[(a, m)] in {Sendrecv, Inactive} && (b, a, m) in book.since ==> Mirror(s, b, a, m)
    ensures (b, MirrorKey(a, m)) !in book.first ==>
              (Mirror(s, b, a, m) <==>
                || book.first[(a, m)] == Sendonly
                || (book.first[(a, m)] in {Sendrecv, Inactive} && (b, a, m) in book.since))
  {
    assert SentRightly(s, book, a, m, b);
  }

  // ------------------------------------------------------------------ offers keep the agreement

  lemma PublishedHeld(s: Session, book: Book, c: EndpointId, x: Mid, d: Direction, kind: Kind, track: Track)
    requires Held(s, book) && c in s.endpoints && d != Unspecified
    ensures Held(Published(s, c, x, d, kind, track), WithFirst(book, s, c, x, d))
  {
    var s', book' := Published(s, c, x, d, kind, track), WithFirst(book, s, c, x, d);
    forall a: EndpointId, m: Mid
      ensures (a, m) in book'.first ==> DirectionAt(s', a, m).Some? && book'.first[(a, m)] != Unspecified
      ensures DirectionAt(s', a, m).Some? && ClientMid(m) ==> (a, m) in book'.first
    {
      PublishedDirection(s, c, x, d, kind, track, a, m);
    }
  }

  lemma PublishedTaken(s: Session, book: Book, c: EndpointId, x: Mid, d: Direction, kind: Kind, track: Track)
    requires Taken(s, book) && c in s.endpoints && x !in s.endpoints[c].transceivers && Held(s, book)
             && d != Unspecified
    ensures Taken(Published(s, c, x, d, kind, track), WithFirst(book, s, c, x, d))
  {
    var s', book' := Published(s, c, x, d, kind, track), WithFirst(book, s, c, x, d);
    forall a: EndpointId, m: Mid | (a, m) in book'.first && ClientMid(m)
      ensures Source(s', a, m) <==> book'.first[(a, m)] != Recvonly
    {
      PublishedDirection(s, c, x, d, kind, track, a, m);
      assert m != MirrorKey(c, x);
    }
  }

  lemma PublishedSentNew(s: Session, book: Book, c: EndpointId, x: Mid, d: Direction, kind: Kind, track: Track,
                         b: EndpointId)
    requires Attended(s, book) && (c, x) !in book.first && d != Unspecified
    requires c in s.endpoints && b in s.endpoints && b != c
    ensures SentRightly(Published(s, c, x, d, kind, track), WithFirst(book, s, c, x, d), c, x, b)
  {
    PublishedDirection(s, c, x, d, kind, track, b, MirrorKey(c, x));
    assert (b, c, x) !in book.since;
  }

  lemma PublishedSentOld(s: Session, book: Book, c: EndpointId, x: Mid, d: Direction, kind: Kind, track: Track,
                         a: EndpointId, m: Mid, b: EndpointId)
    requires (a, m) in book.first && (a, m) != (c, x) && SentRightly(s, book, a, m, b)
    requires c in s.endpoints && x !in s.endpoints[c].transceivers && b in s.endpoints && b != a
    ensures SentRightly(Published(s, c, x, d, kind, track), WithFirst(book, s, c, x, d), a, m, b)
  {
    PublishedDirection(s, c, x, d, kind, track, b, MirrorKey(a, m));
    if MirrorKey(a, m) == MirrorKey(c, x) {
      MirrorKeyInjective(a, m, c, x);
    }
    var book' := WithFirst(book, s, c, x, d);
    assert Due(book', a, m, b) <==> Due(book, a, m, b);
  }

  lemma PublishedAgrees(s: Session, book: Book, c: EndpointId, x: Mid, d: Direction, kind: Kind, track: Track)
    requires Agrees(s, book) && c in s.endpoints && x !in s.endpoints[c].transceivers && d != Unspecified
    ensures Agrees(Published(s, c, x, d, kind, track), WithFirst(book, s, c, x, d))
  {
    var s', book' := Published(s, c, x, d, kind, track), WithFirst(book, s, c, x, d);
    assert (c, x) !in book.first by {
      assert DirectionAt(s, c, x).None?;
    }
    PublishedHeld(s, book, c, x, d, kind, track);
    PublishedTaken(s, book, c, x, d, kind, track);
    forall a: EndpointId, m: Mid, b: EndpointId | (a, m) in book'.first && ClientMid(m) && b in s'.endpoints && b != a
      ensures SentRightly(s', book', a, m, b)
    {
      if (a, m) == (c, x) {
        PublishedSentNew(s, book, c, x, d, kind, track, b);
      } else {
        PublishedSentOld(s, book, c, x, d, kind, track, a, m, b);
      }
    }
  }

  lemma SectionAgrees(s: Session, book: Book, a: EndpointId, section: RemoteMedia)
    requires Agrees(s, book) && a in s.endpoints
    ensures Agrees(AfterOfferedSection(s, a, section).0, WithSection(book, s, a, section))
  {
    if Applied(s.endpoints[a], section) {
      var m, d := MidOf(section.media).value, PeerDirection(section.media);
      var s', book1 := AfterOfferedSection(s, a, section).0, book;
      if Creates(s.endpoints[a], section) {
        PublishedAgrees(s, book, a, m, d, KindOf(section.media.name), section.track.value);
        book1 := WithFirst(book, s, a, m, d);
      }
      assert Agrees(s', book1);
      SendonlyAgrees(s', book1, a, m);
    }
  }

  /** Entering a held mid as offered sendonly changes nothing else. */
  lemma SendonlyAgrees(s: Session, book: Book, a: EndpointId, m: Mid)
    requires Agrees(s, book)
    ensures DirectionAt(s, a, m).Some? ==> Agrees(s, book.(sendonly := book.sendonly + {(a, m)}))
  {
    var book' := book.(sendonly := book.sendonly + {(a, m)});
    forall x: EndpointId, y: Mid, b: EndpointId | (x, y) in book'.first && ClientMid(y) && b in s.endpoints && b != x
      ensures SentRightly(s, book', x, y, b)
    {
      assert SentRightly(s, book, x, y, b);
    }
  }

  lemma {:induction false} SectionsAgree(s: Session, book: Book, a: EndpointId, sections: seq<RemoteMedia>)
    requires Agrees(s, book) && a in s.endpoints
    ensures Agrees(AfterSections(s, a, false, sections).0, WithSections(book, s, a, sections))
    decreases |sections|
  {
    if sections != [] {
      SectionKeepsKeys(s, a, false, sections[0]);
      SectionAgrees(s, book, a, sections[0]);
      var (s1, r) := AfterOfferedSection(s, a, sections[0]);
      if r.Ok? {
        SectionsAgree(s1, WithSection(book, s, a, sections[0]), a, sections[1..]);
      }
    }
  }

  // ------------------------------------------------------------------ what an event does to a session

  datatype Action = Nothing | Offering(endpoint: EndpointId, sections: seq<RemoteMedia>) | Opening(endpoint: EndpointId)

  ghost predicate Present(st: State, sid: SessionId, a: EndpointId) {
    sid in st.sessions && a in st.sessions[sid].endpoints
  }

  function SessionOf(st: State, sid: SessionId): Session {
    if sid in st.sessions then st.sessions[sid] else Session(sid, map[])
  }

  /** An offer that is read and whose endpoint is connected is applied; anything else leaves the tracks alone. */
  ghost function OfferIn(st: State, sid: SessionId, a: EndpointId, offer: SdpText): Action {
    if Present(st, sid, a) && offer.parsed.Ok? && offer.parsed.value.credentials.Ok? && offer.sdpType != Answer
    then Offering(a, offer.parsed.value.sections)
    else Nothing
  }

  ghost function ActionIn(st: State, ev: Event, sid: SessionId): Action {
    match ev
    case OfferEvent(s, a, _, offer, _) => if s == sid then OfferIn(st, sid, a, offer) else Nothing
    case MessageEvent(ctx, _, _, Ok(SdpText(Offer, parsed)), _, _, _) =>
      if ctx.Tuple() in st.index && st.index[ctx.Tuple()].0 == sid
      then OfferIn(st, sid, st.index[ctx.Tuple()].1, SdpText(Offer, parsed))
      else Nothing
    case OpenEvent(ctx, _, _, _, _) =>
      if GetTransport(st, ctx.Tuple()).Ok? && st.index[ctx.Tuple()].0 == sid
      then Opening(st.index[ctx.Tuple()].1)
      else Nothing
    case _ => Nothing
  }

  ghost predicate Possible(s: Session, action: Action) { !action.Nothing? ==> action.endpoint in s.endpoints }

  lemma ActionIsPossible(st: State, ev: Event, sid: SessionId)
    ensures Possible(SessionOf(st, sid), ActionIn(st, ev, sid))
  {
  }

  ghost function ActedDirection(s: Session, action: Action, b: EndpointId, m: Mid): Option<Direction>
    requires Possible(s, action)
  {
    match action
    case Nothing => DirectionAt(s, b, m)
    case Offering(a, sections) => DirectionAt(AfterSections(s, a, false, sections).0, b, m)
    case Opening(a) => if b == a && KeyOf(TracksFor(s, a), m) then Some(Sendonly) else DirectionAt(s, b, m)
  }

  /** Whoever is in the session afterwards holds what the action says; newcomers hold nothing. */
  ghost predicate Outcome(s: Session, action: Action, s': Session)
    requires Possible(s, action)
  {
    forall b: EndpointId, m: Mid :: b in s'.endpoints ==> DirectionAt(s', b, m) == ActedDirection(s, action, b, m)
  }

  lemma SameTracksOutcome(s: Session, action: Action, s1: Session, s2: Session)
    requires Possible(s, action) && Outcome(s, action, s1) && SameTracks(s1, s2)
    ensures Outcome(s, action, s2)
  {
  }

  lemma KnownOfferOutcome(s: Session, a: EndpointId, ft: Option<FourTuple>, d: RemoteDescription, config: SdpConfig)
    requires a in s.endpoints
    ensures var action := if d.sdpType == Answer then Nothing else Offering(a, d.sections);
            Outcome(s, action, AfterKnownOffer(s, a, ft, d, config).0)
  {
    var action := if d.sdpType == Answer then Nothing else Offering(a, d.sections);
    if d.sdpType == Answer {
      AnsweredSectionsKeepTracks(s, a, d.sections);
    }
    RemoteGrows(s, a, d);
    var (s1, r) := AfterRemote(s, a, d);
    assert Outcome(s, action, s1);
    if r.Ok? && ft.Some? && ft.value in s1.endpoints[a].transports {
      var answer := AnswerFor(s1, a, d, s1.endpoints[a].transports[ft.value].candidate.localCredentials, config);
      if answer.Ok? {
        LocalKeepsTracks(s1, a, answer.value);
        SameTracksOutcome(s, action, s1, AfterLocal(s1, a, answer.value).0);
      }
    }
  }

  lemma OfferOutcome(st: State, config: SdpConfig, sid: SessionId, a: EndpointId, ft: Option<FourTuple>, offer: SdpText,
                     minted: Minted, other: SessionId)
    ensures var action := if other == sid then OfferIn(st, sid, a, offer) else Nothing;
            Outcome(SessionOf(st, other), action, SessionOf(AfterOffer(st, config, sid, a, ft, offer, minted).0, other))
  {
    if other == sid && offer.parsed.Ok? && offer.parsed.value.credentials.Ok? && Present(st, sid, a) {
      KnownOfferOutcome(st.sessions[sid], a, ft, RemoteDescription(offer.sdpType, offer.parsed.value.sections), config);
    }
  }

  ghost predicate SameTracksIn(st: State, st': State, sid: SessionId) {
    SameTracks(SessionOf(st, sid), SessionOf(st', sid))
  }

  lemma OfferMessageKeepsTracks(st: State, config: SdpConfig, ctx: TransportContext, handle: nat, stream: nat,
                                now: int, sid: SessionId)
    ensures SameTracksIn(st, AfterOfferMessage(st, config, ctx, handle, stream, now).0, sid)
  {
  }

  lemma {:induction false} PeerOffersKeepTracks(st: State, sent: seq<Outgoing>, config: SdpConfig,
                                                peers: seq<ChannelPeer>, ecn: Option<nat>, now: int, sid: SessionId)
    ensures SameTracksIn(st, AfterPeerOffers(st, sent, config, peers, ecn, now).0, sid)
    decreases |peers|
  {
    if peers != [] {
      var p := peers[0];
      if !p.flagged {
        PeerOffersKeepTracks(st, sent, config, peers[1..], ecn, now, sid);
      } else {
        var (st1, r) := AfterOfferMessage(st, config, ContextOf(p.fourTuple, ecn), p.handle, p.stream, now);
        OfferMessageKeepsTracks(st, config, ContextOf(p.fourTuple, ecn), p.handle, p.stream, now, sid);
        if r.Ok? {
          PeerOffersKeepTracks(st1, sent + [r.value], config, peers[1..], ecn, now, sid);
          var st2 := AfterPeerOffers(st1, sent + [r.value], config, peers[1..], ecn, now).0;
          SameTracksTransitive(SessionOf(st, sid), SessionOf(st1, sid), SessionOf(st2, sid));
        }
      }
    }
  }

  lemma AnswerKeepsTracks(st: State, sid: SessionId, a: EndpointId, answer: SdpText, other: SessionId)
    requires answer.sdpType == Answer
    ensures SameTracksIn(st, AfterAnswer(st, sid, a, answer).0, other)
  {
    if answer.parsed.Ok? && Present(st, sid, a) {
      AnsweredSectionsKeepTracks(st.sessions[sid], a, answer.parsed.value.sections);
    }
  }

  lemma MessageOutcome(st: State, config: SdpConfig, ev: Event, sid: SessionId)
    requires ev.MessageEvent? && Enabled(st, config, ev)
    ensures Possible(SessionOf(st, sid), ActionIn(st, ev, sid))
    ensures Outcome(SessionOf(st, sid), ActionIn(st, ev, sid), SessionOf(Next(st, config, ev), sid))
  {
    var ft := ev.ctx.Tuple();
    if ev.sdp.Ok? && ft in st.index {
      var (s, a) := st.index[ft];
      if ev.sdp.value.sdpType == Offer {
        OfferOutcome(st, config, s, a, Some(ft), ev.sdp.value, ev.minted, sid);
        var (st1, r) := AfterOffer(st, config, s, a, Some(ft), ev.sdp.value, ev.minted);
        if r.Ok? {
          var sent := [Outgoing(ev.now, ev.ctx, ChannelPayload(ev.handle, ev.stream, r.value))];
          PeerOffersKeepTracks(st1, sent, config, ev.peers, ev.ctx.ecn, ev.now, sid);
          SameTracksOutcome(SessionOf(st, sid), ActionIn(st, ev, sid), SessionOf(st1, sid),
              SessionOf(Next(st, config, ev), sid));
        }
      } else if ev.sdp.value.sdpType == Answer {
        AnswerKeepsTracks(st, s, a, ev.sdp.value, sid);
      }
    }
  }

  lemma PutOpenedOutcome(st: State, ft: FourTuple, handle: nat, stream: nat, tracks: seq<(EndpointId, Mid)>,
                         sid: SessionId)
    requires GetTransport(st, ft).Ok? && Enumerates(tracks, TracksFor(st.sessions[st.index[ft].0], st.index[ft].1))
    ensures TracksOf(st.sessions[st.index[ft].0], tracks)
    ensures var (s, b) := st.index[ft];
      Outcome(SessionOf(st, sid), if s == sid then Opening(b) else Nothing,
              SessionOf(PutEndpoint(st, s, b, Opened(st.sessions[s], b, ft, handle, stream, tracks)), sid))
  {
    var (s, b) := st.index[ft];
    TracksArePresent(st.sessions[s], b, tracks);
    if s == sid {
      assert SessionOf(PutEndpoint(st, s, b, Opened(st.sessions[s], b, ft, handle, stream, tracks)), sid)
          == WithOpened(st.sessions[s], b, ft, handle, stream, tracks);
      forall a: EndpointId, m: Mid
        ensures DirectionAt(WithOpened(st.sessions[s], b, ft, handle, stream, tracks), a, m)
             == if a == b && KeyOf(TracksFor(st.sessions[s], b), m) then Some(Sendonly)
                 else DirectionAt(st.sessions[s], a, m)
      {
        OpenedDirection(st.sessions[s], b, ft, handle, stream, tracks, a, m);
      }
    }
  }

  lemma OpenOutcome(st: State, config: SdpConfig, ev: Event, sid: SessionId)
    requires ev.OpenEvent? && Enabled(st, config, ev)
    ensures Possible(SessionOf(st, sid), ActionIn(st, ev, sid))
    ensures Outcome(SessionOf(st, sid), ActionIn(st, ev, sid), SessionOf(Next(st, config, ev), sid))
  {
    var ft := ev.ctx.Tuple();
    if GetTransport(st, ft).Ok? {
      var (s, b) := st.index[ft];
      PutOpenedOutcome(st, ft, ev.handle, ev.stream, ev.tracks, sid);
      var st1 := PutEndpoint(st, s, b, Opened(st.sessions[s], b, ft, ev.handle, ev.stream, ev.tracks));
      OfferMessageKeepsTracks(st1, config, ev.ctx, ev.handle, ev.stream, ev.now, sid);
      var st2 := AfterOfferMessage(st1, config, ev.ctx, ev.handle, ev.stream, ev.now).0;
      SameTracksOutcome(SessionOf(st, sid), ActionIn(st, ev, sid), SessionOf(st1, sid), SessionOf(st2, sid));
    }
  }

  lemma RemovalOutcome(st: State, ft: FourTuple, sid: SessionId)
    ensures Outcome(SessionOf(st, sid), Nothing, SessionOf(AfterRemoval(st, ft), sid))
    ensures SessionOf(AfterRemoval(st, ft), sid).endpoints.Keys <= SessionOf(st, sid).endpoints.Keys
  {
  }

  lemma {:induction false} RemovalsOutcome(st: State, tuples: seq<FourTuple>, sid: SessionId)
    ensures Outcome(SessionOf(st, sid), Nothing, SessionOf(AfterRemovals(st, tuples), sid))
    ensures SessionOf(AfterRemovals(st, tuples), sid).endpoints.Keys <= SessionOf(st, sid).endpoints.Keys
    decreases |tuples|
  {
    if tuples != [] {
      RemovalOutcome(st, tuples[0], sid);
      RemovalsOutcome(AfterRemoval(st, tuples[0]), tuples[1..], sid);
    }
  }

  lemma NominationOutcome(st: State, c: Candidate, ft: FourTuple, useCandidate: bool, now: int, sid: SessionId)
    ensures Outcome(SessionOf(st, sid), Nothing, SessionOf(AfterNomination(st, c, ft, useCandidate, now).0, sid))
  {
  }

  lemma StunOutcome(st: State, ctx: TransportContext, request: StunRequest, now: int, sid: SessionId)
    ensures Outcome(SessionOf(st, sid), Nothing, SessionOf(AfterStun(st, ctx, request, now), sid))
  {
    var c := CheckStun(st, request);
    if c.Ok? && c.value.Some? {
      NominationOutcome(st, c.value.value, ctx.Tuple(), request.useCandidate, now, sid);
    }
  }

  lemma PutTransportOutcome(st: State, ft: FourTuple, t: Transport, sid: SessionId)
    requires GetTransport(st, ft).Ok?
    ensures Outcome(SessionOf(st, sid), Nothing, SessionOf(PutTransport(st, ft, t), sid))
  {
  }

  /** Every event does to the tracks of every session what its action says, and nothing else. */
  lemma StepOutcome(st: State, config: SdpConfig, ev: Event, sid: SessionId)
    requires Enabled(st, config, ev)
    ensures Possible(SessionOf(st, sid), ActionIn(st, ev, sid))
    ensures Outcome(SessionOf(st, sid), ActionIn(st, ev, sid), SessionOf(Next(st, config, ev), sid))
  {
    if ev.OfferEvent? {
      OfferOutcome(st, config, ev.sid, ev.endpoint, ev.tuple, ev.offer, ev.minted, sid);
    } else if ev.MessageEvent? {
      MessageOutcome(st, config, ev, sid);
    } else if ev.OpenEvent? {
      OpenOutcome(st, config, ev, sid);
    } else if ev.StunEvent? {
      StunOutcome(st, ev.ctx, ev.request, ev.now, sid);
    } else if ev.SweepEvent? {
      RemovalsOutcome(st, ev.tuples, sid);
    } else if ev.AlertEvent? {
      RemovalOutcome(st, ev.ft, sid);
    } else if GetTransport(st, ev.ft).Ok? {
      var t := GetTransport(st, ev.ft).value;
      PutTransportOutcome(st, ev.ft, if ev.MediaEvent? then t.(lastActivity := ev.now) else t.(srtpReady := true), sid);
    }
  }

  // ------------------------------------------------------------------ which sources survive

  /** The event turns around what `a` receives under mid `m`. */
  ghost predicate TurnsAround(s: Session, action: Action, a: EndpointId, m: Mid)
    requires Possible(s, action)
  {
    match action
    case Nothing => false
    case Offering(c, sections) =>
      var offers := FirstOffers(s, c, sections);
      c != a && exists x :: x in offers && MirrorKey(c, x) == m && offers[x] != Recvonly
    case Opening(b) => b == a && KeyOf(TracksFor(s, b), m)
  }

  /**
   A track, under whatever mid, goes on being received exactly as long as its endpoint stays and its mid
   is not turned around: as the mirror key of a mid that a peer offers for the first time otherwise than
   recvonly, or as the mirror key of a peer's track when the endpoint's own channel opens.
   */
  lemma StepKeepsSourceIff(st: State, config: SdpConfig, ev: Event, sid: SessionId, a: EndpointId, m: Mid)
    requires Enabled(st, config, ev) && sid in st.sessions && Source(st.sessions[sid], a, m)
    ensures Possible(st.sessions[sid], ActionIn(st, ev, sid))
    ensures var s, st' := st.sessions[sid], Next(st, config, ev);
      Source(SessionOf(st', sid), a, m) <==> Present(st', sid, a) && !TurnsAround(s, ActionIn(st, ev, sid), a, m)
  {
    var s, s', action := st.sessions[sid], SessionOf(Next(st, config, ev), sid), ActionIn(st, ev, sid);
    StepOutcome(st, config, ev, sid);
    if Present(Next(st, config, ev), sid, a) {
      assert DirectionAt(s', a, m) == ActedDirection(s, action, a, m);
      if action.Offering? {
        if action.endpoint == a {
          OfferKeepsOwn(s, a, action.sections, m);
        } else {
          SourceSurvivesOfferIff(s, action.endpoint, action.sections, a, m);
        }
      }
    }
  }

  // ------------------------------------------------------------------ every event keeps the agreement

  lemma RestrictedDue(s: Session, book: Book, a: EndpointId, m: Mid, b: EndpointId)
    requires (a, m) in book.first && a in s.endpoints && b in s.endpoints
    ensures (a, m) in Restricted(book, s).first
    ensures Due(Restricted(book, s), a, m, b) <==> Due(book, a, m, b)
  {
  }

  lemma RestrictedHeld(s: Session, s': Session, book: Book)
    requires Held(s, book) && Taken(s, book)
    requires forall a: EndpointId, m: Mid :: a in s'.endpoints && ClientMid(m) ==>
             DirectionAt(s', a, m) == DirectionAt(s, a, m)
    requires forall a: EndpointId, m: Mid :: a in s'.endpoints && DirectionAt(s, a, m).Some? ==>
             DirectionAt(s', a, m).Some?
    ensures Held(s', Restricted(book, s')) && Taken(s', Restricted(book, s'))
  {
  }

  lemma RestrictedAttended(s: Session, s': Session, book: Book)
    requires Attended(s, book)
    ensures Attended(s', Restricted(book, s'))
  {
  }

  /** Leaving and joining, and anything else that touches no tracks, keeps the agreement. */
  lemma QuietAgrees(s: Session, s': Session, book: Book)
    requires Agrees(s, book) && Outcome(s, Nothing, s')
    ensures Agrees(s', Restricted(book, s'))
  {
    RestrictedHeld(s, s', book);
    RestrictedAttended(s, s', book);
    forall a: EndpointId, m: Mid, b: EndpointId
      | (a, m) in Restricted(book, s').first && ClientMid(m) && b in s'.endpoints && b != a
      ensures SentRightly(s', Restricted(book, s'), a, m, b)
    {
      QuietSent(s, s', book, a, m, b);
    }
  }

  lemma QuietSent(s: Session, s': Session, book: Book, a: EndpointId, m: Mid, b: EndpointId)
    requires Agrees(s, book) && Outcome(s, Nothing, s')
    requires (a, m) in book.first && ClientMid(m) && a in s'.endpoints && b in s'.endpoints && b != a
    ensures (a, m) in Restricted(book, s').first && SentRightly(s', Restricted(book, s'), a, m, b)
  {
    RestrictedDue(s', book, a, m, b);
    if b in s.endpoints {
      assert SentRightly(s, book, a, m, b);
    } else {
      assert DirectionAt(s', b, MirrorKey(a, m)).None?;
      assert !Due(book, a, m, b);
    }
  }

  /** The direction that an opening gives a mirror. */
  lemma OpeningMirror(s: Session, s': Session, c: EndpointId, a: EndpointId, m: Mid, b: EndpointId)
    requires c in s.endpoints && Outcome(s, Opening(c), s') && b in s'.endpoints && b != a
    ensures Mirror(s', b, a, m) <==> Mirror(s, b, a, m) || (b == c && Source(s, a, m))
  {
    KeyOfIff(s, c, a, m);
  }

  /** Whoever opens is due every track that is received. */
  lemma OpenerIsDue(book: Book, a: EndpointId, m: Mid, b: EndpointId)
    requires (a, m) in book.first && b != a && book.first[(a, m)] != Unspecified
    ensures Due(WithOpening(book, b), a, m, b) <==> book.first[(a, m)] != Recvonly
  {
    assert (b, a, m) in WithOpening(book, b).since;
  }

  lemma OthersAreDue(book: Book, c: EndpointId, a: EndpointId, m: Mid, b: EndpointId)
    requires (a, m) in book.first && b != c
    ensures Due(WithOpening(book, c), a, m, b) <==> Due(book, a, m, b)
  {
    assert (b, a, m) in WithOpening(book, c).since <==> (b, a, m) in book.since;
  }

  lemma OpeningSent(s: Session, s': Session, book: Book, c: EndpointId, a: EndpointId, m: Mid, b: EndpointId)
    requires c in s.endpoints && Outcome(s, Opening(c), s') && (a, m) in book.first && book.first[(a, m)] != Unspecified
    requires SentRightly(s, book, a, m, b) && (Source(s, a, m) <==> book.first[(a, m)] != Recvonly)
    requires b in s'.endpoints && b != a
    ensures SentRightly(s', WithOpening(book, c), a, m, b)
  {
    OpeningMirror(s, s', c, a, m, b);
    if b == c {
      OpenerIsDue(book, a, m, b);
    } else {
      OthersAreDue(book, c, a, m, b);
    }
  }

  lemma OpeningKeepsClientMids(s: Session, s': Session, c: EndpointId, a: EndpointId, m: Mid)
    requires c in s.endpoints && Outcome(s, Opening(c), s') && a in s'.endpoints && ClientMid(m)
    ensures DirectionAt(s', a, m) == DirectionAt(s, a, m)
  {
  }

  lemma OpeningAttended(s: Session, book: Book, c: EndpointId)
    requires Attended(s, book) && c in s.endpoints
    ensures Attended(s, WithOpening(book, c))
  {
  }

  lemma OpeningHeld(s: Session, s': Session, book: Book, c: EndpointId)
    requires Held(s, book) && Taken(s, book) && c in s.endpoints && Outcome(s, Opening(c), s')
    ensures var book' := Restricted(WithOpening(book, c), s');
            Held(s', book') && Taken(s', book')
  {
    forall a: EndpointId, m: Mid | a in s'.endpoints && ClientMid(m)
      ensures DirectionAt(s', a, m) == DirectionAt(s, a, m)
    {
      OpeningKeepsClientMids(s, s', c, a, m);
    }
    RestrictedHeld(s, s', WithOpening(book, c));
  }

  lemma OpeningAgrees(s: Session, s': Session, book: Book, c: EndpointId)
    requires Agrees(s, book) && c in s.endpoints && Outcome(s, Opening(c), s') && s'.endpoints.Keys == s.endpoints.Keys
    ensures Agrees(s', Restricted(WithOpening(book, c), s'))
  {
    var book' := Restricted(WithOpening(book, c), s');
    OpeningHeld(s, s', book, c);
    OpeningAttended(s, book, c);
    RestrictedAttended(s, s', WithOpening(book, c));
    forall a: EndpointId, m: Mid, b: EndpointId | (a, m) in book'.first && ClientMid(m) && b in s'.endpoints && b != a
      ensures SentRightly(s', book', a, m, b)
    {
      assert SentRightly(s, book, a, m, b);
      OpeningSent(s, s', book, c, a, m, b);
      RestrictedDue(s', WithOpening(book, c), a, m, b);
    }
  }

  ghost function WithAction(book: Book, s: Session, action: Action): Book
    requires Possible(s, action)
  {
    match action
    case Nothing => book
    case Offering(a, sections) => WithSections(book, s, a, sections)
    case Opening(b) => WithOpening(book, b)
  }

  lemma ActionAgrees(s: Session, s': Session, book: Book, action: Action)
    requires Agrees(s, book) && Possible(s, action) && Outcome(s, action, s')
    requires action.Opening? ==> s'.endpoints.Keys == s.endpoints.Keys
    ensures Agrees(s', Restricted(WithAction(book, s, action), s'))
  {
    match action
    case Nothing => QuietAgrees(s, s', book);
    case Offering(a, sections) =>
      var s1 := AfterSections(s, a, false, sections).0;
      SectionsAgree(s, book, a, sections);
      assert Outcome(s1, Nothing, s');
      QuietAgrees(s1, s', WithSections(book, s, a, sections));
    case Opening(b) => OpeningAgrees(s, s', book, b);
  }

  // ------------------------------------------------------------------ whole runs

  /** A book for every session. */
  type Ledger = map<SessionId, Book>

  ghost function BookOf(l: Ledger, sid: SessionId): Book { if sid in l then l[sid] else BLANK }

  ghost function NextLedger(l: Ledger, st: State, config: SdpConfig, ev: Event): Ledger
    requires Enabled(st, config, ev)
  {
    var st' := Next(st, config, ev);
    map sid | sid in st'.sessions ::
      ActionIsPossible(st, ev, sid);
      Restricted(WithAction(BookOf(l, sid), SessionOf(st, sid), ActionIn(st, ev, sid)), st'.sessions[sid])
  }

  /** Every session looks as what has happened in it demands. */
  ghost predicate Converged(st: State, l: Ledger) {
    && l.Keys <= st.sessions.Keys
    && forall sid :: sid in st.sessions ==> Agrees(st.sessions[sid], BookOf(l, sid))
  }

  lemma OpeningKeepsEndpoints(st: State, config: SdpConfig, ev: Event, sid: SessionId)
    requires TreeOk(st) && Enabled(st, config, ev) && ActionIn(st, ev, sid).Opening?
    ensures SessionOf(Next(st, config, ev), sid).endpoints.Keys == SessionOf(st, sid).endpoints.Keys
  {
    MostStepsAreKin(st, config, ev);
    assert KinSession(st.sessions[sid], Next(st, config, ev).sessions[sid]);
  }

  lemma SessionConverges(st: State, config: SdpConfig, ev: Event, book: Book, sid: SessionId)
    requires TreeOk(st) && Enabled(st, config, ev) && Agrees(SessionOf(st, sid), book)
    ensures Possible(SessionOf(st, sid), ActionIn(st, ev, sid))
    ensures var s' := SessionOf(Next(st, config, ev), sid);
            Agrees(s', Restricted(WithAction(book, SessionOf(st, sid), ActionIn(st, ev, sid)), s'))
  {
    StepOutcome(st, config, ev, sid);
    if ActionIn(st, ev, sid).Opening? {
      OpeningKeepsEndpoints(st, config, ev, sid);
    }
    ActionAgrees(SessionOf(st, sid), SessionOf(Next(st, config, ev), sid), book, ActionIn(st, ev, sid));
  }

  lemma NextBook(l: Ledger, st: State, config: SdpConfig, ev: Event, sid: SessionId)
    requires Enabled(st, config, ev) && sid in Next(st, config, ev).sessions
    ensures Possible(SessionOf(st, sid), ActionIn(st, ev, sid))
    ensures BookOf(NextLedger(l, st, config, ev), sid)
         == Restricted(WithAction(BookOf(l, sid), SessionOf(st, sid), ActionIn(st, ev, sid)),
             Next(st, config, ev).sessions[sid])
  {
    ActionIsPossible(st, ev, sid);
  }

  lemma BlankAgrees(sid: SessionId)
    ensures Agrees(Session(sid, map[]), BLANK)
  {
  }

  lemma StepConverges(st: State, config: SdpConfig, ev: Event, l: Ledger)
    requires TreeOk(st) && Converged(st, l) && Enabled(st, config, ev)
    ensures Converged(Next(st, config, ev), NextLedger(l, st, config, ev))
  {
    var sessions := Next(st, config, ev).sessions;
    forall sid | sid in sessions
      ensures Agrees(sessions[sid], BookOf(NextLedger(l, st, config, ev), sid))
    {
      assert Agrees(SessionOf(st, sid), BookOf(l, sid)) by {
        if sid !in st.sessions {
          BlankAgrees(sid);
        }
      }
      SessionConverges(st, config, ev, BookOf(l, sid), sid);
      NextBook(l, st, config, ev, sid);
    }
  }

  ghost function LedgerAfter(l: Ledger, st: State, config: SdpConfig, events: seq<Event>): Ledger
    requires IsRun(st, config, events)
    decreases |events|
  {
    if events == [] then l
    else LedgerAfter(NextLedger(l, st, config, events[0]), Next(st, config, events[0]), config, events[1..])
  }

  /** On every run, whatever the order of offers, joins and departures, every session has converged. */
  lemma {:induction false} EveryRunConverges(st: State, config: SdpConfig, events: seq<Event>, l: Ledger)
    requires TreeOk(st) && Converged(st, l) && IsRun(st, config, events)
    ensures Converged(After(st, config, events), LedgerAfter(l, st, config, events))
    decreases |events|
  {
    if events != [] {
      StepKeepsTree(st, config, events[0]);
      StepConverges(st, config, events[0], l);
      EveryRunConverges(Next(st, config, events[0]), config, events[1..], NextLedger(l, st, config, events[0]));
    }
  }

  /**
   So for every run of the server from its start: what becomes of a track `m` that `a` offered sendonly,
   as far as a peer `b` is concerned whose channel has opened.
   */
  lemma ServerConverges(config: SdpConfig, events: seq<Event>, sid: SessionId, a: EndpointId, m: Mid, b: EndpointId)
    requires IsRun(INITIAL, config, events)
    ensures Converged(After(INITIAL, config, events), LedgerAfter(map[], INITIAL, config, events))
    ensures var s, book := SessionOf(After(INITIAL, config, events), sid),
            BookOf(LedgerAfter(map[], INITIAL, config, events), sid);
      (a, m) in book.sendonly && ClientMid(m) && b in book.joined && b != a ==>
        && (a, m) in book.first
        && (Source(s, a, m) <==> book.first[(a, m)] != Recvonly)
        && (book.first[(a, m)] == Sendonly ==> Mirror(s, b, a, m))
        && ((b, MirrorKey(a, m)) !in book.first ==>
              (Mirror(s, b, a, m) <==>
                || book.first[(a, m)] == Sendonly
                || (book.first[(a, m)] in {Sendrecv, Inactive} && (b, a, m) in book.since)))
  {
    EveryRunConverges(INITIAL, config, events, map[]);
    var s, book := SessionOf(After(INITIAL, config, events), sid),
        BookOf(LedgerAfter(map[], INITIAL, config, events), sid);
    if (a, m) in book.sendonly && ClientMid(m) && b in book.joined && b != a {
      SendonlyTracks(s, book, a, m, b);
    }
  }
}
