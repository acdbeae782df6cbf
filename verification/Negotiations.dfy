/**
 Offers over the lifetime of an endpoint, and what becomes of an answer (sections 5.2.2 of RFC 8829 and 6.1 of RFC
 3264).
 */
module Negotiations {
  import opened Types
  import opened Directions
  import opened Sdp
  import opened Endpoints
  import opened SdpGeneration
  import opened OfferAnswer
  import opened Sessions
  import opened ServerStates
  import opened MirrorKeys
  import opened Gateway
  import opened Tracks
  import opened Runs
  import opened Convergence

  // ------------------------------------------------------------------ an endpoint's lifetime

  /** The later endpoint has the earlier one's mids first, and the same remote description. */
  ghost predicate Older(e: Endpoint, e': Endpoint) { e.mids <= e'.mids && e'.remote == e.remote }

  lemma RemovalAges(st: State, ft: FourTuple, sid: SessionId, a: EndpointId)
    requires Present(AfterRemoval(st, ft), sid, a)
    ensures Present(st, sid, a)
    ensures Older(st.sessions[sid].endpoints[a], AfterRemoval(st, ft).sessions[sid].endpoints[a])
  {
  }

  lemma {:induction false} RemovalsAge(st: State, tuples: seq<FourTuple>, sid: SessionId, a: EndpointId)
    requires Present(AfterRemovals(st, tuples), sid, a)
    ensures Present(st, sid, a)
    ensures Older(st.sessions[sid].endpoints[a], AfterRemovals(st, tuples).sessions[sid].endpoints[a])
    decreases |tuples|
  {
    if tuples != [] {
      RemovalsAge(AfterRemoval(st, tuples[0]), tuples[1..], sid, a);
      RemovalAges(st, tuples[0], sid, a);
    }
  }

  lemma NominationAges(st: State, c: Candidate, ft: FourTuple, useCandidate: bool, now: int, sid: SessionId,
                       a: EndpointId)
    requires Present(st, sid, a)
    ensures Present(AfterNomination(st, c, ft, useCandidate, now).0, sid, a)
    ensures Older(st.sessions[sid].endpoints[a],
            AfterNomination(st, c, ft, useCandidate, now).0.sessions[sid].endpoints[a])
  {
  }

  lemma StunAges(st: State, ctx: TransportContext, request: StunRequest, now: int, sid: SessionId, a: EndpointId)
    requires Present(st, sid, a)
    ensures Present(AfterStun(st, ctx, request, now), sid, a)
    ensures Older(st.sessions[sid].endpoints[a], AfterStun(st, ctx, request, now).sessions[sid].endpoints[a])
  {
    var c := CheckStun(st, request);
    if c.Ok? && c.value.Some? {
      NominationAges(st, c.value.value, ctx.Tuple(), request.useCandidate, now, sid, a);
    }
  }

  lemma KinAges(st: State, st': State, sid: SessionId, a: EndpointId)
    requires KinState(st, st') && Present(st, sid, a)
    ensures Present(st', sid, a) && Older(st.sessions[sid].endpoints[a], st'.sessions[sid].endpoints[a])
  {
  }

  lemma StepAges(st: State, config: SdpConfig, ev: Event, sid: SessionId, a: EndpointId)
    requires TreeOk(st) && Enabled(st, config, ev) && Present(st, sid, a) && Present(Next(st, config, ev), sid, a)
    ensures Older(st.sessions[sid].endpoints[a], Next(st, config, ev).sessions[sid].endpoints[a])
  {
    if ev.StunEvent? {
      StunAges(st, ev.ctx, ev.request, ev.now, sid, a);
    } else if ev.SweepEvent? {
      RemovalsAge(st, ev.tuples, sid, a);
    } else if ev.AlertEvent? {
      RemovalAges(st, ev.ft, sid, a);
    } else {
      MostStepsAreKin(st, config, ev);
      KinAges(st, Next(st, config, ev), sid, a);
    }
  }

  /** The endpoint is there at every moment of the run. */
  ghost predicate Stays(st: State, config: SdpConfig, events: seq<Event>, sid: SessionId, a: EndpointId)
    requires IsRun(st, config, events)
    decreases |events|
  {
    Present(st, sid, a) && (events != [] ==> Stays(Next(st, config, events[0]), config, events[1..], sid, a))
  }

  lemma {:induction false} LifetimeAges(st: State, config: SdpConfig, events: seq<Event>, sid: SessionId, a: EndpointId)
    requires TreeOk(st) && IsRun(st, config, events) && Stays(st, config, events, sid, a)
    ensures Present(After(st, config, events), sid, a)
    ensures Older(st.sessions[sid].endpoints[a], After(st, config, events).sessions[sid].endpoints[a])
    decreases |events|
  {
    if events != [] {
      var st1 := Next(st, config, events[0]);
      StepAges(st, config, events[0], sid, a);
      StepKeepsTree(st, config, events[0]);
      LifetimeAges(st1, config, events[1..], sid, a);
    }
  }

  // ------------------------------------------------------------------ offers

  /** The sections that an endpoint would be offered now. */
  ghost function CurrentOffer(e: Endpoint): seq<MediaSection>
    requires e.remote.Some?
  {
    OfferSections(e.remote.value.sections, e.mids)
  }

  function SectionMids(sections: seq<MediaSection>): seq<Option<Mid>> {
    seq(|sections|, k requires 0 <= k < |sections| => Some(sections[k].mid))
  }

  /** An offer that is made has the sections of the current offer and one for every transceiver. */
  lemma OfferIsCurrent(sid: SessionId, s: Session, a: EndpointId, cred: Credentials, config: SdpConfig)
    requires SessionOk(sid, s) && a in s.endpoints
    requires OfferFor(s, a, s.endpoints[a].remote.value, cred, config).Ok?
    ensures var e := s.endpoints[a];
      var offer := OfferFor(s, a, e.remote.value, cred, config).value;
      && offer.sdpType == Offer
      && WrittenMids(offer.sdp) == SectionMids(CurrentOffer(e))
      && forall mid :: mid in e.transceivers ==> Some(mid) in WrittenMids(offer.sdp)
  {
    var e := s.endpoints[a];
    assert EndpointOk(sid, a, e);
    var sections := CurrentOffer(e);
    OfferIsDataThenMids(e.remote.value.sections, e.mids, e.transceivers.Keys);
    WrittenMidsAreSections(sections, e.transceivers, SdpContext("actpass", cred, config));
    var mids := SectionMids(sections);
    forall mid | mid in e.transceivers
      ensures Some(mid) in mids
    {
      OfferCovers(e.remote.value.sections, e.mids, mid);
      var k :| 0 <= k < |sections| && sections[k] == MediaSection(mid, false, [], None);
      assert mids[k] == Some(mid);
    }
  }

  /**
   No transceiver has the mid of a data section, which is the number of mids where the client asked for none,
   and every transceiver that is sent has a sender.
   */
  ghost predicate Offerable(e: Endpoint) {
    && e.remote.Some?
    && (forall m :: m in DataMids(e.remote.value.sections, e.mids) ==> m !in e.transceivers)
    && (forall m :: m in e.transceivers && e.transceivers[m].direction == Sendonly ==> e.transceivers[m].sender.Some?)
  }

  /** An offer can be made exactly to an offerable endpoint. */
  lemma OfferIsMadeIff(sid: SessionId, s: Session, a: EndpointId, cred: Credentials, config: SdpConfig)
    requires SessionOk(sid, s) && a in s.endpoints
    ensures EndpointOk(sid, a, s.endpoints[a])
    ensures OfferFor(s, a, s.endpoints[a].remote.value, cred, config).Ok? <==> Offerable(s.endpoints[a])
  {
    var e := s.endpoints[a];
    assert EndpointOk(sid, a, e);
    OfferIsDataThenMids(e.remote.value.sections, e.mids, e.transceivers.Keys);
    OfferSucceedsIff(e.remote.value.sections, e.mids, e.transceivers, SdpContext("actpass", cred, config));
  }

  /** Neither an offer nor an answer of an endpoint ever lacks a transceiver. */
  lemma TransceiversAreNeverMissing(sid: SessionId, s: Session, a: EndpointId, remote: RemoteDescription,
                                    offering: bool, ctx: SdpContext)
    requires SessionOk(sid, s)
    ensures Described(s, a, remote, offering, ctx) != Err("ErrSDPZeroTransceivers")
  {
    if a in s.endpoints {
      assert EndpointOk(sid, a, s.endpoints[a]);
    }
    var mids, transceivers := MidsOf(s, a), TransceiversOf(s, a);
    var sections := Sections(mids, transceivers.Keys, remote.sections, offering);
    if sections.Ok? {
      NeverZeroTransceivers(mids, transceivers, remote.sections, offering, ctx);
    } else {
      SectionErrors([], transceivers.Keys, remote.sections, offering);
    }
  }

  lemma {:induction false} SectionErrors(sections: seq<MediaSection>, keys: set<Mid>, remote: seq<RemoteMedia>,
                                         offering: bool)
    ensures MatchedFrom(sections, keys, remote, offering) != Err("ErrSDPZeroTransceivers")
    decreases |remote|
  {
    if remote != [] {
      var m := remote[0].media;
      var more := if MidOf(m).None? then []
                  else if m.name == APPLICATION then [DataSection(MidOf(m).value)]
                  else if Negotiable(m) then [MatchedSection(m, MidOf(m).value, offering)] else [];
      SectionErrors(sections + more, keys, remote[1..], offering);
      assert more == [] ==> sections + more == sections;
      assert "ErrPeerConnRemoteDescriptionWithoutMidValue"[3] == 'P' && "ErrPeerConnTransceiverMidNil"[3] == 'P';
      assert "ErrSDPZeroTransceivers"[3] == 'S';
    }
  }

  /**
   While an endpoint stays, the sections offered earlier begin every later offer, in the same places,
   exactly if its remote description has an application section or no transceiver has been added.
   */
  lemma OffersStayInPlace(st: State, config: SdpConfig, events: seq<Event>, sid: SessionId, a: EndpointId)
    requires TreeOk(st) && IsRun(st, config, events) && Stays(st, config, events, sid, a)
    ensures Present(st, sid, a) && Present(After(st, config, events), sid, a)
    ensures var e, e' := st.sessions[sid].endpoints[a], After(st, config, events).sessions[sid].endpoints[a];
      && e.remote.Some? && e'.remote.Some?
      && (CurrentOffer(e) <= CurrentOffer(e') <==> HasApplication(e.remote.value.sections) || e.mids == e'.mids)
      && (HasApplication(e.remote.value.sections) ==> SectionMids(CurrentOffer(e)) <= SectionMids(CurrentOffer(e')))
  {
    LifetimeAges(st, config, events, sid, a);
    var e, e' := st.sessions[sid].endpoints[a], After(st, config, events).sessions[sid].endpoints[a];
    assert EndpointOk(sid, a, e) by {
      assert SessionOk(sid, st.sessions[sid]);
    }
    OfferIsStable(e.remote.value.sections, e.mids, e'.mids);
  }

  lemma MadeOfferHasSlots(sid: SessionId, s: Session, a: EndpointId, cred: Credentials, config: SdpConfig)
    requires SessionOk(sid, s) && a in s.endpoints
    requires OfferFor(s, a, s.endpoints[a].remote.value, cred, config).Ok?
    ensures EndpointOk(sid, a, s.endpoints[a])
    ensures WrittenSlots(OfferFor(s, a, s.endpoints[a].remote.value, cred, config).value.sdp)
         == SlotsOf(CurrentOffer(s.endpoints[a]))
  {
    var e := s.endpoints[a];
    assert EndpointOk(sid, a, e);
    OfferIsDataThenMids(e.remote.value.sections, e.mids, e.transceivers.Keys);
    WrittenSlotsAreSections(CurrentOffer(e), e.transceivers, SdpContext("actpass", cred, config));
  }

  /**
   Of two offers made to an endpoint while it stays, the later one repeats the sections of the earlier one first, with
   their mids, exactly if the remote description has an application section or no transceiver has been added.
   */
  lemma MadeOffersStayInPlace(st: State, config: SdpConfig, events: seq<Event>, sid: SessionId, a: EndpointId,
                              cred: Credentials, cred': Credentials)
    requires TreeOk(st) && IsRun(st, config, events) && Stays(st, config, events, sid, a)
    requires Present(st, sid, a) && Present(After(st, config, events), sid, a)
    requires var s, s' := st.sessions[sid], After(st, config, events).sessions[sid];
      && s.endpoints[a].remote.Some? && s'.endpoints[a].remote.Some?
      && OfferFor(s, a, s.endpoints[a].remote.value, cred, config).Ok?
      && OfferFor(s', a, s'.endpoints[a].remote.value, cred', config).Ok?
    ensures var s, s' := st.sessions[sid], After(st, config, events).sessions[sid];
      var offer := OfferFor(s, a, s.endpoints[a].remote.value, cred, config).value;
      var offer' := OfferFor(s', a, s'.endpoints[a].remote.value, cred', config).value;
      WrittenSlots(offer.sdp) <= WrittenSlots(offer'.sdp) <==>
        HasApplication(s.endpoints[a].remote.value.sections) || s.endpoints[a].mids == s'.endpoints[a].mids
  {
    LifetimeAges(st, config, events, sid, a);
    EveryRunKeepsTree(st, config, events);
    var s, s' := st.sessions[sid], After(st, config, events).sessions[sid];
    MadeOfferHasSlots(sid, s, a, cred, config);
    MadeOfferHasSlots(sid, s', a, cred', config);
    SlotsAreStable(s.endpoints[a].remote.value.sections, s.endpoints[a].mids, s'.endpoints[a].mids);
  }

  // ------------------------------------------------------------------ distinct mids

  function KeysOf(tracks: seq<(EndpointId, Mid)>): seq<Mid> {
    seq(|tracks|, k requires 0 <= k < |tracks| => MirrorKey(tracks[k].0, tracks[k].1))
  }

  lemma {:induction false} MirrorsAppendKeys(e: Endpoint, s: Session, tracks: seq<(EndpointId, Mid)>)
    requires TracksOf(s, tracks)
    ensures WithMirrors(e, s, tracks).mids == e.mids + KeysOf(tracks)
  {
    if tracks != [] {
      var n := |tracks| - 1;
      MirrorsAppendKeys(e, s, tracks[..n]);
      assert KeysOf(tracks) == KeysOf(tracks[..n]) + [MirrorKey(tracks[n].0, tracks[n].1)];
    }
  }

  lemma KeysAreDistinct(tracks: seq<(EndpointId, Mid)>)
    requires Distinct(tracks)
    ensures Distinct(KeysOf(tracks))
  {
    forall i, j | 0 <= i < j < |tracks|
      ensures KeysOf(tracks)[i] != KeysOf(tracks)[j]
    {
      if KeysOf(tracks)[i] == KeysOf(tracks)[j] {
        MirrorKeyInjective(tracks[i].0, tracks[i].1, tracks[j].0, tracks[j].1);
      }
    }
  }

  /**
   An opening channel leaves an endpoint's mids distinct exactly if none of the tracks it takes over is
   mirrored in it already. With OfferAnswer.OfferedMidsDistinctIff: otherwise an offer has two sections
   with one mid.
   */
  lemma OpeningMidsDistinctIff(s: Session, b: EndpointId, ft: FourTuple, handle: nat, stream: nat,
                               tracks: seq<(EndpointId, Mid)>)
    requires b in s.endpoints && ft in s.endpoints[b].transports && MidsOk(s.endpoints[b])
    requires TracksOf(s, tracks) && Enumerates(tracks, TracksFor(s, b))
    ensures Distinct(Opened(s, b, ft, handle, stream, tracks).mids)
       <==> Distinct(s.endpoints[b].mids) && forall t :: t in TracksFor(s, b) ==>
           DirectionAt(s, b, MirrorKey(t.0, t.1)).None?
  {
    var e := s.endpoints[b];
    var t := e.transports[ft].(channel := Some((handle, stream)));
    MirrorsAppendKeys(e.(transports := e.transports[ft := t], renegotiate := tracks != []), s, tracks);
    KeysAreDistinct(tracks);
    DistinctConcat(e.mids, KeysOf(tracks));
    forall t | t in TracksFor(s, b)
      ensures MirrorKey(t.0, t.1) in KeysOf(tracks)
    {
      var k :| 0 <= k < |tracks| && tracks[k] == t;
      assert KeysOf(tracks)[k] == MirrorKey(t.0, t.1);
    }
    forall m | m in KeysOf(tracks)
      ensures exists t :: t in TracksFor(s, b) && MirrorKey(t.0, t.1) == m
    {
      var k :| 0 <= k < |tracks| && KeysOf(tracks)[k] == m;
      assert tracks[k] in TracksFor(s, b);
    }
  }

  /** Publishing appends only mids that an endpoint does not hold, so it keeps distinct mids distinct. */
  lemma PublishingKeepsMidsDistinct(s: Session, c: EndpointId, x: Mid, d: Direction, kind: Kind, track: Track,
                                    b: EndpointId)
    requires c in s.endpoints && b in s.endpoints && x !in s.endpoints[c].transceivers && MidsOk(s.endpoints[b])
    ensures Distinct(Published(s, c, x, d, kind, track).endpoints[b].mids) <==> Distinct(s.endpoints[b].mids)
  {
    DistinctConcat(s.endpoints[b].mids, [if b == c then x else MirrorKey(c, x)]);
  }

  // ------------------------------------------------------------------ answers

  /** The direction that the last section with this mid carries. */
  function LastDirection(media: seq<Media>, mid: Mid): Option<Direction> {
    if media == [] then None
    else
      var later := LastDirection(media[1..], mid);
      if later.Some? then later
      else if Negotiable(media[0]) && MidOf(media[0]) == Some(mid) then Some(PeerDirection(media[0]))
      else None
  }

  /** Applying a local answer records, for every transceiver, the direction last written for it. */
  lemma {:induction false} LocalAnswerRecords(e: Endpoint, media: seq<Media>, mid: Mid)
    requires mid in e.transceivers && AfterLocalMedia(e, media).1.Ok?
    ensures mid in AfterLocalMedia(e, media).0.transceivers
    ensures AfterLocalMedia(e, media).0.transceivers[mid].currentDirection
         == if LastDirection(media, mid).Some? then LastDirection(media, mid).value
             else e.transceivers[mid].currentDirection
    decreases |media|
  {
    if media != [] {
      var m := media[0];
      if !Negotiable(m) || MidOf(m).None? {
        LocalAnswerRecords(e, media[1..], mid);
      } else {
        LocalAnswerRecords(WithCurrentDirection(e, MidOf(m).value, PeerDirection(m)), media[1..], mid);
      }
    }
  }

  ghost predicate DistinctMids(media: seq<Media>) {
    forall j, k :: 0 <= j < k < |media| ==> MidOf(media[j]) != MidOf(media[k])
  }

  lemma {:induction false} OnlyDirection(media: seq<Media>, k: nat, mid: Mid)
    requires k < |media| && DistinctMids(media) && Negotiable(media[k]) && MidOf(media[k]) == Some(mid)
    ensures LastDirection(media, mid) == Some(PeerDirection(media[k]))
  {
    assert DistinctMids(media[1..]);
    if k > 0 {
      OnlyDirection(media[1..], k - 1, mid);
    } else {
      NoDirectionLater(media[1..], mid);
    }
  }

  lemma {:induction false} NoDirectionLater(media: seq<Media>, mid: Mid)
    requires forall k :: 0 <= k < |media| ==> MidOf(media[k]) != Some(mid)
    ensures LastDirection(media, mid).None?
  {
    if media != [] {
      NoDirectionLater(media[1..], mid);
    }
  }

  lemma SectionsSpecified(s: Session, a: EndpointId, d: RemoteDescription)
    requires a in s.endpoints && MidsOk(s.endpoints[a])
    ensures a in AfterRemote(s, a, d).0.endpoints && Specified(AfterRemote(s, a, d).0.endpoints[a].transceivers)
  {
    RemoteGrows(s, a, d);
    var e := AfterRemote(s, a, d).0.endpoints[a];
    assert Grows(s.endpoints[a], e) && MidsOk(e);
    forall mid | mid in e.transceivers
      ensures e.transceivers[mid].direction != Unspecified && e.transceivers[mid].kind != UnknownKind
    {
      assert TransceiverOk(mid, e.transceivers[mid]);
    }
  }

  /** The answer written for a connected endpoint, and the transceivers it was written from. */
  lemma KnownOfferAnswers(s: Session, a: EndpointId, ft: Option<FourTuple>, d: RemoteDescription, config: SdpConfig)
    requires a in s.endpoints && MidsOk(s.endpoints[a])
    requires AfterKnownOffer(s, a, ft, d, config).1.Ok?
    ensures var s1 := AfterRemote(s, a, d).0;
      var (s2, answer) := AfterKnownOffer(s, a, ft, d, config);
      && a in s1.endpoints && a in s2.endpoints
      && answer.value.sdpType == Answer
      && s2 == AfterLocal(s1, a, answer.value).0 && AfterLocal(s1, a, answer.value).1.Ok?
      && Specified(s1.endpoints[a].transceivers)
      && Answers(d.sections, answer.value.sdp, s1.endpoints[a].transceivers)
  {
    SectionsSpecified(s, a, d);
    var (s1, r) := AfterRemote(s, a, d);
    var cred := s1.endpoints[a].transports[ft.value].candidate.localCredentials;
    var answer := AnswerFor(s1, a, d, cred, config).value;
    LocalGrows(s1, a, answer);
    AnswerIsWritten(s1, a, d, cred, config);
  }

  lemma AnswerIsWritten(s: Session, a: EndpointId, d: RemoteDescription, cred: Credentials, config: SdpConfig)
    requires a in s.endpoints && Specified(s.endpoints[a].transceivers) && AnswerFor(s, a, d, cred, config).Ok?
    ensures AnswerFor(s, a, d, cred, config).value.sdpType == Answer
    ensures Answers(d.sections, AnswerFor(s, a, d, cred, config).value.sdp, s.endpoints[a].transceivers)
  {
    var transceivers, ctx := s.endpoints[a].transceivers, SdpContext("passive", cred, config);
    var sections := MatchedFrom([], transceivers.Keys, d.sections, false).value;
    AnswerIsCorrect(transceivers, d.sections, ctx, sections, Populated(sections, transceivers, ctx).value);
  }

  /**
   A client's offer that is answered is answered section by section with legal directions; where its
   mids are distinct, the direction written for a section is the one recorded for its transceiver.
   */
  lemma AnswerIsRecorded(s: Session, a: EndpointId, ft: Option<FourTuple>, d: RemoteDescription, config: SdpConfig,
                         k: nat)
    requires a in s.endpoints && MidsOk(s.endpoints[a])
    requires AfterKnownOffer(s, a, ft, d, config).1.Ok?
    requires DistinctMids(EligibleMedia(d.sections)) && k < |EligibleMedia(d.sections)|
    requires EligibleMedia(d.sections)[k].name != APPLICATION
    ensures var (s2, answer) := AfterKnownOffer(s, a, ft, d, config);
      var offered := EligibleMedia(d.sections)[k];
      && |answer.value.sdp.media| == |EligibleMedia(d.sections)|
      && MidOf(answer.value.sdp.media[k]) == MidOf(offered) && MidOf(offered).Some?
      && LegalAnswer(PeerDirection(offered), PeerDirection(answer.value.sdp.media[k]))
      && a in s2.endpoints && MidOf(offered).value in s2.endpoints[a].transceivers
      && s2.endpoints[a].transceivers[MidOf(offered).value].currentDirection == PeerDirection(answer.value.sdp.media[k])
  {
    KnownOfferAnswers(s, a, ft, d, config);
    var s1 := AfterRemote(s, a, d).0;
    var answer := AfterKnownOffer(s, a, ft, d, config).1.value;
    var offered, media := EligibleMedia(d.sections), answer.sdp.media;
    var mid := MidOf(offered[k]).value;
    assert AnswersSection(offered[k], media[k], s1.endpoints[a].transceivers);
    AnsweredMidsDistinct(offered, media, s1.endpoints[a].transceivers);
    AnswerIsNegotiable(offered[k], media[k], s1.endpoints[a].transceivers);
    OnlyDirection(media, k, mid);
    LocalAnswerRecords(s1.endpoints[a], media, mid);
  }

  lemma AnsweredMidsDistinct(offered: seq<Media>, media: seq<Media>, transceivers: Transceivers)
    requires |media| == |offered| && DistinctMids(offered)
    requires forall k :: 0 <= k < |offered| ==> AnswersSection(offered[k], media[k], transceivers)
    ensures DistinctMids(media)
  {
  }

  lemma AnswerIsNegotiable(offered: Media, answered: Media, transceivers: Transceivers)
    requires offered.name != APPLICATION && AnswersSection(offered, answered, transceivers) && Specified(transceivers)
    ensures Negotiable(answered)
  {
  }

  // ------------------------------------------------------------------ when an offer is answered

  /** The endpoint after the sections of its own offer have been taken over. */
  function OwnAfter(e: Endpoint, sections: seq<RemoteMedia>): Endpoint
    decreases |sections|
  {
    if sections == [] then e
    else OwnAfter(OwnAfterSection(e, sections[0]), sections[1..])
  }

  function OwnAfterSection(e: Endpoint, section: RemoteMedia): Endpoint {
    if Creates(e, section) then
      var m := section.media;
      WithTransceiver(e, OwnTransceiver(MidOf(m).value, PeerDirection(m), KindOf(m.name), section.track.value))
    else e
  }

  /** A section offers a track under this mid. */
  predicate OffersTrack(section: RemoteMedia, mid: Mid) {
    Negotiable(section.media) && MidOf(section.media) == Some(mid)
  }

  ghost predicate ReadBefore(sections: seq<RemoteMedia>, k: int, mid: Mid) {
    exists j :: 0 <= j <= k && j < |sections| && OffersTrack(sections[j], mid) && sections[j].track.Ok?
  }

  ghost predicate Applicable(sections: seq<RemoteMedia>, k: int, keys: set<Mid>)
    requires 0 <= k < |sections|
  {
    forall mid :: OffersTrack(sections[k], mid) ==> mid != "" && (mid in keys || ReadBefore(sections, k, mid))
  }

  /** Every track is offered under a mid that is not empty, and is known or was read without an error. */
  ghost predicate AllApplicable(sections: seq<RemoteMedia>, keys: set<Mid>) {
    forall k :: 0 <= k < |sections| ==> Applicable(sections, k, keys)
  }

  lemma ReadLater(sections: seq<RemoteMedia>, k: nat, mid: Mid)
    requires 0 < k < |sections|
    ensures ReadBefore(sections, k, mid)
       <==> (OffersTrack(sections[0], mid) && sections[0].track.Ok?) || ReadBefore(sections[1..], k - 1, mid)
  {
    if j :| 0 < j <= k && OffersTrack(sections[j], mid) && sections[j].track.Ok? {
      assert sections[1..][j - 1] == sections[j];
    }
    if j :| 0 <= j <= k - 1 && OffersTrack(sections[1..][j], mid) && sections[1..][j].track.Ok? {
      assert sections[1..][j] == sections[j + 1];
    }
  }

  lemma ApplicableLater(sections: seq<RemoteMedia>, e: Endpoint)
    requires sections != [] && Applicable(sections, 0, e.transceivers.Keys)
    ensures AllApplicable(sections, e.transceivers.Keys)
       <==> AllApplicable(sections[1..], OwnAfterSection(e, sections[0]).transceivers.Keys)
  {
    var keys, keys' := e.transceivers.Keys, OwnAfterSection(e, sections[0]).transceivers.Keys;
    forall k | 1 <= k < |sections|
      ensures Applicable(sections, k, keys) <==> Applicable(sections[1..], k - 1, keys')
    {
      assert sections[1..][k - 1] == sections[k];
      forall mid | OffersTrack(sections[k], mid)
        ensures mid in keys || ReadBefore(sections, k, mid) <==> mid in keys' || ReadBefore(sections[1..], k - 1, mid)
      {
        ReadLater(sections, k, mid);
      }
    }
    if AllApplicable(sections[1..], keys') {
      forall k | 0 <= k < |sections|
        ensures Applicable(sections, k, keys)
      {
        assert k > 0 ==> Applicable(sections[1..], k - 1, keys');
      }
    }
    if AllApplicable(sections, keys) {
      forall k | 0 <= k < |sections[1..]|
        ensures Applicable(sections[1..], k, keys')
      {
        assert Applicable(sections, k + 1, keys);
      }
    }
  }

  lemma OwnSection(s: Session, a: EndpointId, sections: seq<RemoteMedia>)
    requires a in s.endpoints && sections != []
    ensures AfterOfferedSection(s, a, sections[0]).0.endpoints.Keys == s.endpoints.Keys
    ensures AfterOfferedSection(s, a, sections[0]).0.endpoints[a] == OwnAfterSection(s.endpoints[a], sections[0])
    ensures AfterOfferedSection(s, a, sections[0]).1.Ok? <==> Applicable(sections, 0, s.endpoints[a].transceivers.Keys)
  {
    var m := sections[0].media;
    if MidOf(m).Some? {
      assert OffersTrack(sections[0], MidOf(m).value) <==> Negotiable(m);
    }
  }

  /** The sections of an endpoint's own offer are all taken over exactly if they are applicable. */
  lemma {:induction false} SectionsApplyIff(s: Session, a: EndpointId, sections: seq<RemoteMedia>)
    requires a in s.endpoints
    ensures AfterSections(s, a, false, sections).1.Ok? <==> AllApplicable(sections, s.endpoints[a].transceivers.Keys)
    ensures var (s', r) := AfterSections(s, a, false, sections);
            r.Ok? ==> a in s'.endpoints && s'.endpoints[a] == OwnAfter(s.endpoints[a], sections)
    decreases |sections|
  {
    if sections != [] {
      OwnSection(s, a, sections);
      var (s1, r) := AfterOfferedSection(s, a, sections[0]);
      if r.Ok? {
        ApplicableLater(sections, s.endpoints[a]);
        SectionsApplyIff(s1, a, sections[1..]);
      }
    }
  }

  lemma {:induction false} LocalAnswerApplies(e: Endpoint, media: seq<Media>)
    requires forall k :: 0 <= k < |media| ==> MidOf(media[k]) != Some("")
    ensures AfterLocalMedia(e, media).1.Ok?
    decreases |media|
  {
    if media != [] {
      var m := media[0];
      LocalAnswerApplies(if !Negotiable(m) || MidOf(m).None? then e
                         else WithCurrentDirection(e, MidOf(m).value, PeerDirection(m)), media[1..]);
    }
  }

  /** Applying an answer that could be written never fails. */
  lemma WrittenAnswerApplies(s: Session, a: EndpointId, d: RemoteDescription, cred: Credentials, config: SdpConfig)
    requires a in s.endpoints && Specified(s.endpoints[a].transceivers) && AnswerFor(s, a, d, cred, config).Ok?
    ensures AfterLocal(s, a, AnswerFor(s, a, d, cred, config).value).1.Ok?
  {
    var media, keys := AnswerFor(s, a, d, cred, config).value.sdp.media, s.endpoints[a].transceivers.Keys;
    AnswerIsWritten(s, a, d, cred, config);
    MatchedIsEligible([], keys, d.sections, false);
    forall k | 0 <= k < |media|
      ensures MidOf(media[k]) != Some("")
    {
      EligibleIsAdmissible(d.sections, keys, k);
      assert AnswersSection(EligibleMedia(d.sections)[k], media[k], s.endpoints[a].transceivers);
    }
    LocalAnswerApplies(s.endpoints[a], media);
  }

  lemma AnswerIsWrittenIff(s: Session, a: EndpointId, d: RemoteDescription, cred: Credentials, config: SdpConfig)
    ensures AnswerFor(s, a, d, cred, config).Ok? <==> Answerable(d.sections, TransceiversOf(s, a))
  {
    AnswerSucceedsIff(d.sections, TransceiversOf(s, a), SdpContext("passive", cred, config));
  }

  /** What the offer of a connected endpoint needs to be answered. */
  ghost predicate AnswerableBy(e: Endpoint, ft: Option<FourTuple>, sections: seq<RemoteMedia>) {
    && AllApplicable(sections, e.transceivers.Keys)
    && ft.Some? && ft.value in e.transports
    && Answerable(sections, OwnAfter(e, sections).transceivers)
  }

  lemma KnownOfferIsAnsweredIff(s: Session, a: EndpointId, ft: Option<FourTuple>, d: RemoteDescription,
                                config: SdpConfig)
    requires a in s.endpoints && MidsOk(s.endpoints[a]) && d.sdpType != Answer
    ensures AfterKnownOffer(s, a, ft, d, config).1.Ok? <==> AnswerableBy(s.endpoints[a], ft, d.sections)
  {
    SectionsApplyIff(s, a, d.sections);
    SectionsSpecified(s, a, d);
    RemoteGrows(s, a, d);
    var (s1, r) := AfterRemote(s, a, d);
    assert Grows(s.endpoints[a], s1.endpoints[a]);
    if r.Ok? && ft.Some? && ft.value in s1.endpoints[a].transports {
      var cred := s1.endpoints[a].transports[ft.value].candidate.localCredentials;
      AnswerIsWrittenIff(s1, a, d, cred, config);
      if AnswerFor(s1, a, d, cred, config).Ok? {
        WrittenAnswerApplies(s1, a, d, cred, config);
      }
    }
  }

  /**
   An offer is answered exactly if it is read with its credentials and, where the endpoint is connected, its tracks
   can be taken over, the transport is the endpoint's and every section can then be written; where it is not, every
   section can be written without any transceivers.
   */
  lemma OfferIsAnsweredIff(st: State, config: SdpConfig, sid: SessionId, a: EndpointId, ft: Option<FourTuple>,
                           offer: SdpText, minted: Minted)
    requires TreeOk(st) && offer.sdpType != Answer
    ensures AfterOffer(st, config, sid, a, ft, offer, minted).1.Ok? <==>
        && offer.parsed.Ok? && offer.parsed.value.credentials.Ok?
        && if Present(st, sid, a) then AnswerableBy(st.sessions[sid].endpoints[a], ft, offer.parsed.value.sections)
           else Answerable(offer.parsed.value.sections, map[])
  {
    if offer.parsed.Ok? && offer.parsed.value.credentials.Ok? {
      var d := RemoteDescription(offer.sdpType, offer.parsed.value.sections);
      if Present(st, sid, a) {
        assert SessionOk(sid, st.sessions[sid]);
        assert EndpointOk(sid, a, st.sessions[sid].endpoints[a]);
        KnownOfferIsAnsweredIff(st.sessions[sid], a, ft, d, config);
      } else {
        AnswerIsWrittenIff(WithSession(st, sid).sessions[sid], a, d, minted.credentials, config);
      }
    }
  }
}
