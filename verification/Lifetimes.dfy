/**
 What a transport remembers: the candidate it was nominated with, when it was last active, the data channel that
 was opened over it and whether media can be sent to it (src/endpoint/transport.rs, src/handlers/gateway.rs).
 */
module Lifetimes {
  import opened Types
  import opened Sdp
  import opened Endpoints
  import opened SdpGeneration
  import opened Sessions
  import opened ServerStates
  import opened Gateway
  import opened Tracks
  import opened Runs
  import opened IndexAgreement
  import opened IdleSweep
  import opened Convergence
  import opened Renegotiation

  /** What the events since its nomination say about a transport. */
  datatype Mark = Mark(candidate: Candidate, activity: int, channel: Option<(nat, nat)>, ready: bool)

  /**
   What an event makes of the mark of four-tuple `ft`, if the transport is there afterwards: a new one is marked by
   the check that nominates it, a channel that opens, media and a completed handshake change one entry each.
   */
  ghost function Marked(st: State, ev: Event, ft: FourTuple, mark: Option<Mark>): Option<Mark> {
    match mark
    case None =>
      (match ev
       case StunEvent(_, request, now) =>
         (match CheckStun(st, request)
          case Ok(Some(c)) => Some(Mark(c, now, None, false))
          case _ => None)
       case _ => None)
    case Some(k) =>
      match ev
      case OpenEvent(ctx, handle, stream, _, _) =>
        if ctx.Tuple() == ft then Some(k.(channel := Some((handle, stream)))) else mark
      case MediaEvent(f, now) => if f == ft then Some(k.(activity := now)) else mark
      case HandshakeEvent(f) => if f == ft then Some(k.(ready := true)) else mark
      case _ => mark
  }

  /** The mark that a transport deserves as it is. */
  ghost function MarkOf(st: State, sid: SessionId, a: EndpointId, ft: FourTuple): Option<Mark> {
    if Holds(st, sid, a, ft) then
      var t := TransportAt(st, sid, a, ft);
      Some(Mark(t.candidate, t.lastActivity, t.channel, t.srtpReady))
    else None
  }

  // ------------------------------------------------------------------ event by event

  lemma OfferMessageKeepsMark(st: State, config: SdpConfig, ctx: TransportContext, handle: nat, stream: nat, now: int,
                              sid: SessionId, a: EndpointId, ft: FourTuple)
    ensures MarkOf(AfterOfferMessage(st, config, ctx, handle, stream, now).0, sid, a, ft) == MarkOf(st, sid, a, ft)
  {
  }

  lemma {:induction false} PeerOffersKeepMark(st: State, sent: seq<Outgoing>, config: SdpConfig,
                                              peers: seq<ChannelPeer>, ecn: Option<nat>, now: int,
                                              sid: SessionId, a: EndpointId, ft: FourTuple)
    ensures MarkOf(AfterPeerOffers(st, sent, config, peers, ecn, now).0, sid, a, ft) == MarkOf(st, sid, a, ft)
    decreases |peers|
  {
    if peers != [] {
      var p := peers[0];
      if !p.flagged {
        PeerOffersKeepMark(st, sent, config, peers[1..], ecn, now, sid, a, ft);
      } else {
        var (st1, r) := AfterOfferMessage(st, config, ContextOf(p.fourTuple, ecn), p.handle, p.stream, now);
        OfferMessageKeepsMark(st, config, ContextOf(p.fourTuple, ecn), p.handle, p.stream, now, sid, a, ft);
        if r.Ok? {
          PeerOffersKeepMark(st1, sent + [r.value], config, peers[1..], ecn, now, sid, a, ft);
        }
      }
    }
  }

  lemma GrowsKeepsMark(st: State, s: SessionId, s': Session, sid: SessionId, a: EndpointId, ft: FourTuple)
    requires s in st.sessions && SessionGrows(st.sessions[s], s')
    ensures MarkOf(PutSession(st, s, s'), sid, a, ft) == MarkOf(st, sid, a, ft)
  {
    if sid == s && a in s'.endpoints {
      assert Grows(st.sessions[s].endpoints[a], s'.endpoints[a]);
    }
  }

  lemma WithSessionKeepsMark(st: State, s: SessionId, sid: SessionId, a: EndpointId, ft: FourTuple)
    ensures MarkOf(WithSession(st, s), sid, a, ft) == MarkOf(st, sid, a, ft)
  {
  }

  lemma OfferKeepsMark(st: State, config: SdpConfig, s: SessionId, c: EndpointId, tuple: Option<FourTuple>,
                       offer: SdpText, minted: Minted, sid: SessionId, a: EndpointId, ft: FourTuple)
    ensures MarkOf(AfterOffer(st, config, s, c, tuple, offer, minted).0, sid, a, ft) == MarkOf(st, sid, a, ft)
  {
    WithSessionKeepsMark(st, s, sid, a, ft);
    if offer.parsed.Ok? && offer.parsed.value.credentials.Ok? && Present(st, s, c) {
      var d := RemoteDescription(offer.sdpType, offer.parsed.value.sections);
      KnownOfferGrows(st.sessions[s], c, tuple, d, config);
      GrowsKeepsMark(st, s, AfterKnownOffer(st.sessions[s], c, tuple, d, config).0, sid, a, ft);
    }
  }

  lemma AnswerKeepsMark(st: State, s: SessionId, c: EndpointId, answer: SdpText, sid: SessionId, a: EndpointId,
                        ft: FourTuple)
    ensures MarkOf(AfterAnswer(st, s, c, answer).0, sid, a, ft) == MarkOf(st, sid, a, ft)
  {
    WithSessionKeepsMark(st, s, sid, a, ft);
    if answer.parsed.Ok? && Present(st, s, c) {
      var d := RemoteDescription(answer.sdpType, answer.parsed.value.sections);
      RemoteGrows(st.sessions[s], c, d);
      GrowsKeepsMark(st, s, AfterRemote(st.sessions[s], c, d).0, sid, a, ft);
    }
  }

  lemma MessageKeepsMark(st: State, config: SdpConfig, ctx: TransportContext, handle: nat, stream: nat,
                         request: Result<SdpText>, minted: Minted, now: int, peers: seq<ChannelPeer>,
                         sid: SessionId, a: EndpointId, ft: FourTuple)
    ensures MarkOf(AfterMessage(st, config, ctx, handle, stream, request, minted, now, peers).0, sid, a, ft)
         == MarkOf(st, sid, a, ft)
  {
    if request.Ok? && ctx.Tuple() in st.index {
      var (s, c) := st.index[ctx.Tuple()];
      if request.value.sdpType == Offer {
        OfferKeepsMark(st, config, s, c, Some(ctx.Tuple()), request.value, minted, sid, a, ft);
        var (st1, r) := AfterOffer(st, config, s, c, Some(ctx.Tuple()), request.value, minted);
        if r.Ok? {
          PeerOffersKeepMark(st1, [Outgoing(now, ctx, ChannelPayload(handle, stream, r.value))], config, peers, ctx.ecn,
              now, sid, a, ft);
        }
      } else if request.value.sdpType == Answer {
        AnswerKeepsMark(st, s, c, request.value, sid, a, ft);
      }
    }
  }

  lemma OpenedHasChannel(s: Session, b: EndpointId, ft: FourTuple, handle: nat, stream: nat,
                         tracks: seq<(EndpointId, Mid)>)
    requires b in s.endpoints && ft in s.endpoints[b].transports && TracksOf(s, tracks)
    ensures var e, e' := s.endpoints[b], Opened(s, b, ft, handle, stream, tracks);
      e'.transports == e.transports[ft := e.transports[ft].(channel := Some((handle, stream)))]
  {
    var e := s.endpoints[b];
    var t := e.transports[ft].(channel := Some((handle, stream)));
    MirrorsKeepFlag(e.(transports := e.transports[ft := t], renegotiate := tracks != []), s, tracks);
  }

  lemma PutOpenedMarks(st: State, s: SessionId, b: EndpointId, f: FourTuple, e: Endpoint, channel: (nat, nat),
                       sid: SessionId, a: EndpointId, ft: FourTuple)
    requires Agreement(st) && Holds(st, s, b, f)
    requires var t := st.sessions[s].endpoints[b].transports;
      e.transports == t[f := t[f].(channel := Some(channel))]
    ensures var mark := MarkOf(st, sid, a, ft);
      MarkOf(PutEndpoint(st, s, b, e), sid, a, ft)
      == if mark.Some? && ft == f then Some(mark.value.(channel := Some(channel))) else mark
  {
  }

  lemma OpeningMarks(st: State, config: SdpConfig, ctx: TransportContext, handle: nat, stream: nat, now: int,
                     tracks: seq<(EndpointId, Mid)>, sid: SessionId, a: EndpointId, ft: FourTuple)
    requires Agreement(st) && GetTransport(st, ctx.Tuple()).Ok?
    requires TracksOf(st.sessions[st.index[ctx.Tuple()].0], tracks)
    ensures var mark := MarkOf(st, sid, a, ft);
      MarkOf(AfterOpen(st, config, ctx, handle, stream, now, tracks).0, sid, a, ft)
      == if mark.Some? && ft == ctx.Tuple() then Some(mark.value.(channel := Some((handle, stream)))) else mark
  {
    var (s, b) := st.index[ctx.Tuple()];
    OpenedHasChannel(st.sessions[s], b, ctx.Tuple(), handle, stream, tracks);
    var e := Opened(st.sessions[s], b, ctx.Tuple(), handle, stream, tracks);
    PutOpenedMarks(st, s, b, ctx.Tuple(), e, (handle, stream), sid, a, ft);
    OfferMessageKeepsMark(PutEndpoint(st, s, b, e), config, ctx, handle, stream, now, sid, a, ft);
  }

  lemma TransportMarks(st: State, f: FourTuple, t: Transport, sid: SessionId, a: EndpointId, ft: FourTuple)
    requires Agreement(st) && GetTransport(st, f).Ok?
    ensures MarkOf(PutTransport(st, f, t), sid, a, ft)
         == if MarkOf(st, sid, a, ft).Some? && ft == f
            then Some(Mark(t.candidate, t.lastActivity, t.channel, t.srtpReady))
            else MarkOf(st, sid, a, ft)
  {
    var (s, b) := st.index[f];
    assert Holds(st, s, b, f);
  }

  lemma LookupFails(st: State, f: FourTuple, sid: SessionId, a: EndpointId)
    requires Agreement(st) && GetTransport(st, f).Err?
    ensures !Holds(st, sid, a, f)
  {
    LookupIsTreeSearch(st, f);
  }

  lemma RemovalMarks(st: State, f: FourTuple, sid: SessionId, a: EndpointId, ft: FourTuple)
    ensures MarkOf(AfterRemoval(st, f), sid, a, ft).Some? ==>
              MarkOf(AfterRemoval(st, f), sid, a, ft) == MarkOf(st, sid, a, ft)
  {
  }

  lemma {:induction false} RemovalsMark(st: State, tuples: seq<FourTuple>, sid: SessionId, a: EndpointId, ft: FourTuple)
    ensures MarkOf(AfterRemovals(st, tuples), sid, a, ft).Some? ==>
              MarkOf(AfterRemovals(st, tuples), sid, a, ft) == MarkOf(st, sid, a, ft)
    decreases |tuples|
  {
    if tuples != [] {
      RemovalMarks(st, tuples[0], sid, a, ft);
      RemovalsMark(AfterRemoval(st, tuples[0]), tuples[1..], sid, a, ft);
    }
  }

  lemma NominationMarks(st: State, c: Candidate, f: FourTuple, useCandidate: bool, now: int, sid: SessionId,
                        a: EndpointId, ft: FourTuple)
    ensures var mark := MarkOf(st, sid, a, ft);
      var mark' := MarkOf(AfterNomination(st, c, f, useCandidate, now).0, sid, a, ft);
      mark'.Some? ==> mark' == if mark.Some? then mark else Some(Mark(c, now, None, false))
  {
  }

  lemma StunMarks(st: State, ctx: TransportContext, request: StunRequest, now: int, sid: SessionId, a: EndpointId,
                  ft: FourTuple)
    ensures var mark := MarkOf(st, sid, a, ft);
      var mark' := MarkOf(AfterStun(st, ctx, request, now), sid, a, ft);
      mark'.Some? ==> mark' == Marked(st, StunEvent(ctx, request, now), ft, mark)
  {
    var c := CheckStun(st, request);
    if c.Ok? && c.value.Some? {
      NominationMarks(st, c.value.value, ctx.Tuple(), request.useCandidate, now, sid, a, ft);
    }
  }

  /** Over one event, a transport that is there afterwards remembers what the event says, and nothing else changes. */
  lemma StepMarks(st: State, config: SdpConfig, ev: Event, sid: SessionId, a: EndpointId, ft: FourTuple)
    requires Agreement(st) && Enabled(st, config, ev)
    ensures var mark' := MarkOf(Next(st, config, ev), sid, a, ft);
            mark'.Some? ==> mark' == Marked(st, ev, ft, MarkOf(st, sid, a, ft))
  {
    match ev
    case OfferEvent(s, c, tuple, offer, minted) => OfferKeepsMark(st, config, s, c, tuple, offer, minted, sid, a, ft);
    case StunEvent(ctx, request, now) => StunMarks(st, ctx, request, now, sid, a, ft);
    case OpenEvent(ctx, handle, stream, now, tracks) =>
      if GetTransport(st, ctx.Tuple()).Ok? {
        TracksArePresent(st.sessions[st.index[ctx.Tuple()].0], st.index[ctx.Tuple()].1, tracks);
        OpeningMarks(st, config, ctx, handle, stream, now, tracks, sid, a, ft);
      } else {
        LookupFails(st, ctx.Tuple(), sid, a);
      }
    case MessageEvent(ctx, handle, stream, sdp, minted, now, peers) =>
      MessageKeepsMark(st, config, ctx, handle, stream, sdp, minted, now, peers, sid, a, ft);
    case MediaEvent(f, now) =>
      if GetTransport(st, f).Ok? {
        TransportMarks(st, f, GetTransport(st, f).value.(lastActivity := now), sid, a, ft);
        LookupIsTreeSearch(st, f);
      } else {
        LookupFails(st, f, sid, a);
      }
    case HandshakeEvent(f) =>
      if GetTransport(st, f).Ok? {
        TransportMarks(st, f, GetTransport(st, f).value.(srtpReady := true), sid, a, ft);
        LookupIsTreeSearch(st, f);
      } else {
        LookupFails(st, f, sid, a);
      }
    case SweepEvent(_, tuples) => RemovalsMark(st, tuples, sid, a, ft);
    case AlertEvent(f) => RemovalMarks(st, f, sid, a, ft);
  }

  // ------------------------------------------------------------------ over whole runs

  /** The mark of a transport after a run, from the events alone and from when it is there. */
  ghost function MarkAfter(st: State, config: SdpConfig, events: seq<Event>, sid: SessionId, a: EndpointId,
                           ft: FourTuple, mark: Option<Mark>): Option<Mark>
    requires IsRun(st, config, events)
    decreases |events|
  {
    if events == [] then mark
    else
      var st1 := Next(st, config, events[0]);
      var mark1 := if Holds(st1, sid, a, ft) then Marked(st, events[0], ft, mark) else None;
      MarkAfter(st1, config, events[1..], sid, a, ft, mark1)
  }

  /** On every exclusive run, what a transport remembers is what the events say. */
  lemma {:induction false} MarksAreTrue(st: State, config: SdpConfig, events: seq<Event>, sid: SessionId,
                                        a: EndpointId, ft: FourTuple)
    requires TreeOk(st) && Agreement(st) && IsRun(st, config, events) && ExclusiveRun(st, config, events)
    ensures MarkOf(After(st, config, events), sid, a, ft)
         == MarkAfter(st, config, events, sid, a, ft, MarkOf(st, sid, a, ft))
    decreases |events|
  {
    if events != [] {
      StepMarks(st, config, events[0], sid, a, ft);
      StepKeepsTree(st, config, events[0]);
      StepKeepsAgreementIff(st, config, events[0]);
      MarksAreTrue(Next(st, config, events[0]), config, events[1..], sid, a, ft);
    }
  }

  predicate IsMediaOf(ev: Event, ft: FourTuple) { ev.MediaEvent? && ev.ft == ft }

  predicate IsOpeningOf(ev: Event, ft: FourTuple) { ev.OpenEvent? && ev.ctx.Tuple() == ft }

  /** The transport is there at every moment of the run, and no media comes over it. */
  ghost predicate StaysSilent(st: State, config: SdpConfig, events: seq<Event>, sid: SessionId, a: EndpointId,
                              ft: FourTuple)
    requires IsRun(st, config, events)
    decreases |events|
  {
    && Holds(st, sid, a, ft)
    && (events != [] ==>
          && !IsMediaOf(events[0], ft)
          && StaysSilent(Next(st, config, events[0]), config, events[1..], sid, a, ft))
  }

  /** The transport is there at every moment of the run, and no channel opens over it. */
  ghost predicate StaysUnopened(st: State, config: SdpConfig, events: seq<Event>, sid: SessionId, a: EndpointId,
                                ft: FourTuple)
    requires IsRun(st, config, events)
    decreases |events|
  {
    && Holds(st, sid, a, ft)
    && (events != [] ==>
          && !IsOpeningOf(events[0], ft)
          && StaysUnopened(Next(st, config, events[0]), config, events[1..], sid, a, ft))
  }

  /** What an event does to the last activity and the channel of a transport that stays. */
  lemma StepOfHeld(st: State, config: SdpConfig, ev: Event, sid: SessionId, a: EndpointId, ft: FourTuple)
    requires Agreement(st) && Enabled(st, config, ev)
    requires Holds(st, sid, a, ft) && Holds(Next(st, config, ev), sid, a, ft)
    ensures var t, t' := TransportAt(st, sid, a, ft), TransportAt(Next(st, config, ev), sid, a, ft);
      && t'.lastActivity == (if IsMediaOf(ev, ft) then ev.now else t.lastActivity)
      && t'.channel == (if IsOpeningOf(ev, ft) then Some((ev.handle, ev.stream)) else t.channel)
  {
    StepMarks(st, config, ev, sid, a, ft);
  }

  lemma StepOfNew(st: State, config: SdpConfig, ev: Event, sid: SessionId, a: EndpointId, ft: FourTuple)
    requires Agreement(st) && Enabled(st, config, ev)
    requires !Holds(st, sid, a, ft) && Holds(Next(st, config, ev), sid, a, ft)
    ensures ev.StunEvent? && TransportAt(Next(st, config, ev), sid, a, ft).lastActivity == ev.now
  {
    StepMarks(st, config, ev, sid, a, ft);
  }

  lemma StepKeepsShape(st: State, config: SdpConfig, ev: Event)
    requires TreeOk(st) && Agreement(st) && Enabled(st, config, ev) && Exclusive(st, ev)
    ensures TreeOk(Next(st, config, ev)) && Agreement(Next(st, config, ev))
  {
    StepKeepsTree(st, config, ev);
    StepKeepsAgreementIff(st, config, ev);
  }

  /** While a transport stays and no media comes over it, its last activity stays. */
  lemma {:induction false} ActivityLasts(st: State, config: SdpConfig, events: seq<Event>, sid: SessionId,
                                         a: EndpointId, ft: FourTuple)
    requires TreeOk(st) && Agreement(st) && IsRun(st, config, events) && ExclusiveRun(st, config, events)
    requires StaysSilent(st, config, events, sid, a, ft)
    ensures Holds(After(st, config, events), sid, a, ft)
    ensures TransportAt(After(st, config, events), sid, a, ft).lastActivity == TransportAt(st, sid, a, ft).lastActivity
    decreases |events|
  {
    if events != [] {
      StepOfHeld(st, config, events[0], sid, a, ft);
      StepKeepsShape(st, config, events[0]);
      ActivityLasts(Next(st, config, events[0]), config, events[1..], sid, a, ft);
    }
  }

  /** While a transport stays and no channel opens over it, its channel stays. */
  lemma {:induction false} ChannelLasts(st: State, config: SdpConfig, events: seq<Event>, sid: SessionId,
                                        a: EndpointId, ft: FourTuple)
    requires TreeOk(st) && Agreement(st) && IsRun(st, config, events) && ExclusiveRun(st, config, events)
    requires StaysUnopened(st, config, events, sid, a, ft)
    ensures Holds(After(st, config, events), sid, a, ft)
    ensures TransportAt(After(st, config, events), sid, a, ft).channel == TransportAt(st, sid, a, ft).channel
    decreases |events|
  {
    if events != [] {
      StepOfHeld(st, config, events[0], sid, a, ft);
      StepKeepsShape(st, config, events[0]);
      ChannelLasts(Next(st, config, events[0]), config, events[1..], sid, a, ft);
    }
  }

  /** A transport keeps the time of its latest media packet, or of its nomination as long as there was none. */
  lemma LatestActivity(st: State, config: SdpConfig, ev: Event, events: seq<Event>, sid: SessionId, a: EndpointId,
                       ft: FourTuple)
    requires TreeOk(st) && Agreement(st) && Enabled(st, config, ev) && Exclusive(st, ev)
    requires if Holds(st, sid, a, ft) then IsMediaOf(ev, ft) else ev.StunEvent?
    requires IsRun(Next(st, config, ev), config, events) && ExclusiveRun(Next(st, config, ev), config, events)
    requires StaysSilent(Next(st, config, ev), config, events, sid, a, ft)
    ensures var st' := After(Next(st, config, ev), config, events);
            Holds(st', sid, a, ft) && TransportAt(st', sid, a, ft).lastActivity == ev.now
  {
    if Holds(st, sid, a, ft) {
      StepOfHeld(st, config, ev, sid, a, ft);
    } else {
      StepOfNew(st, config, ev, sid, a, ft);
    }
    StepKeepsShape(st, config, ev);
    ActivityLasts(Next(st, config, ev), config, events, sid, a, ft);
  }

  /** A transport keeps the handle and stream with which its channel was opened last. */
  lemma LatestChannel(st: State, config: SdpConfig, ev: Event, events: seq<Event>, sid: SessionId, a: EndpointId,
                      ft: FourTuple)
    requires TreeOk(st) && Agreement(st) && Enabled(st, config, ev)
    requires Holds(st, sid, a, ft) && IsOpeningOf(ev, ft)
    requires IsRun(Next(st, config, ev), config, events) && ExclusiveRun(Next(st, config, ev), config, events)
    requires StaysUnopened(Next(st, config, ev), config, events, sid, a, ft)
    ensures var st' := After(Next(st, config, ev), config, events);
            Holds(st', sid, a, ft) && TransportAt(st', sid, a, ft).channel == Some((ev.handle, ev.stream))
  {
    StepOfHeld(st, config, ev, sid, a, ft);
    StepKeepsShape(st, config, ev);
    ChannelLasts(Next(st, config, ev), config, events, sid, a, ft);
  }

  /** At the end of any exclusive run, a sweep removes exactly the transports marked active at or before the cutoff. */
  lemma SweepGoesByMarks(st: State, config: SdpConfig, events: seq<Event>, cutoff: int, tuples: seq<FourTuple>,
                         sid: SessionId, a: EndpointId, ft: FourTuple)
    requires TreeOk(st) && Agreement(st) && IsRun(st, config, events) && ExclusiveRun(st, config, events)
    requires forall f :: f in tuples <==> f in Idle(After(st, config, events).sessions, cutoff)
    ensures var mark := MarkAfter(st, config, events, sid, a, ft, MarkOf(st, sid, a, ft));
      Holds(AfterRemovals(After(st, config, events), tuples), sid, a, ft) <==>
        mark.Some? && mark.value.activity > cutoff
  {
    EveryExclusiveRunAgrees(st, config, events);
    MarksAreTrue(st, config, events, sid, a, ft);
    SweepIsExact(After(st, config, events), cutoff, tuples);
  }

  // ------------------------------------------------------------------ the offers that are sent

  /** The message is the receiver's current offer, on the channel that the receiving transport remembers. */
  ghost predicate WellAddressed(m: Outgoing, st: State, config: SdpConfig) {
    var ft := m.transport.Tuple();
    && m.payload.ChannelPayload? && ft in st.index
    && var (sid, b) := st.index[ft];
    && Holds(st, sid, b, ft)
    && TransportAt(st, sid, b, ft).channel == Some((m.payload.handle, m.payload.stream))
    && OfferNow(st.sessions[sid], b, ft, config) == Ok(m.payload.description)
  }

  lemma PeerChannel(s: Session, a: EndpointId, p: ChannelPeer)
    requires p in ChannelPeers(s, a)
    ensures p.endpoint in s.endpoints && p.fourTuple in s.endpoints[p.endpoint].transports
    ensures s.endpoints[p.endpoint].transports[p.fourTuple].channel == Some((p.handle, p.stream))
  {
  }

  lemma PeerIsWellAddressed(st: State, config: SdpConfig, sid: SessionId, a: EndpointId, p: ChannelPeer, m: Outgoing,
                            w: Sending, gone: set<EndpointId>)
    requires Agreement(st) && sid in st.sessions && p in ChannelPeers(st.sessions[sid], a)
    requires w.offers == CurrentOffers(st.sessions[sid], config) && IsOfferTo(m, p, w)
    ensures WellAddressed(m, WithoutFlags(st, sid, gone), config)
  {
    PeerChannel(st.sessions[sid], a, p);
    var st' := WithoutFlags(st, sid, gone);
    assert m.transport.Tuple() == p.fourTuple;
    assert Holds(st, sid, p.endpoint, p.fourTuple) && Holds(st', sid, p.endpoint, p.fourTuple);
    OfferIgnoresFlags(st.sessions[sid], st'.sessions[sid], p.endpoint, p.fourTuple, config);
  }

  lemma PassedOnAreWellAddressed(st: State, st': State, config: SdpConfig, sid: SessionId, a: EndpointId,
                                 first: Outgoing, r: Result<seq<Outgoing>>, peers: seq<ChannelPeer>, w: Sending, k: nat)
    requires Agreement(st) && sid in st.sessions && w.offers == CurrentOffers(st.sessions[sid], config)
    requires PassedOn(st, st', sid, a, first, r, peers, w) && r.Ok? && 0 < k < |r.value|
    ensures WellAddressed(r.value[k], st', config)
  {
    var p := FlaggedPeers(peers)[k - 1];
    assert p in FlaggedPeers(peers);
    assert r.value[1..][k - 1] == r.value[k];
    PeerIsWellAddressed(st, config, sid, a, p, r.value[k], w,
        PeerEndpoints(FlaggedPeers(GoneThrough(peers, Unofferable(st.sessions[sid])))));
  }

  lemma AnswersAreNoOffers(st: State, config: SdpConfig, sid: SessionId, a: EndpointId, ft: Option<FourTuple>,
                           offer: SdpText, minted: Minted)
    requires AfterOffer(st, config, sid, a, ft, offer, minted).1.Ok?
    ensures AfterOffer(st, config, sid, a, ft, offer, minted).1.value.sdpType == Answer
  {
  }

  lemma PassedOnEvent(st: State, config: SdpConfig, ev: Event, k: nat)
    requires TreeOk(st) && Agreement(st) && Enabled(st, config, ev) && Asks(st, ev)
    requires k < |SentBy(st, config, ev)| && SentBy(st, config, ev)[k].payload.ChannelPayload?
    requires SentBy(st, config, ev)[k].payload.description.sdpType == Offer
    ensures WellAddressed(SentBy(st, config, ev)[k], Next(st, config, ev), config)
  {
    var (s, a) := st.index[ev.ctx.Tuple()];
    var (st1, answer) := Answered(st, config, ev);
    var (st2, r) := AfterChannelOffer(st, config, ev.ctx, ev.handle, ev.stream, ev.sdp.value, ev.minted, ev.now,
                                      ev.peers);
    ClientOfferIsPassedOnIff(st, config, ev.ctx, ev.handle, ev.stream, ev.sdp.value, ev.minted, ev.now, ev.peers);
    AnswersAreNoOffers(st, config, s, a, Some(ev.ctx.Tuple()), ev.sdp.value, ev.minted);
    OfferIsKin(st, config, s, a, Some(ev.ctx.Tuple()), ev.sdp.value, ev.minted);
    KinKeepsAgreement(st, st1);
    var first := Outgoing(ev.now, ev.ctx, ChannelPayload(ev.handle, ev.stream, answer.value));
    PassedOnAreWellAddressed(st1, st2, config, s, a, first, r, ev.peers,
        Sending(CurrentOffers(st1.sessions[s], config), ev.ctx.ecn, ev.now), k);
  }

  lemma OpeningIsWellAddressed(st: State, config: SdpConfig, s: SessionId, c: EndpointId, e: Endpoint,
                               ctx: TransportContext, handle: nat, stream: nat, now: int)
    requires s in st.sessions && ctx.Tuple() in e.transports
    requires e.transports[ctx.Tuple()].channel == Some((handle, stream))
    requires var st1 := PutEndpoint(st, s, c, e); TreeOk(st1) && Agreement(st1) && Holds(st1, s, c, ctx.Tuple())
    ensures var (st', m) := AfterOfferMessage(PutEndpoint(st, s, c, e), config, ctx, handle, stream, now);
            m.Ok? ==> WellAddressed(m.value, st', config)
  {
    var st1, ft := PutEndpoint(st, s, c, e), ctx.Tuple();
    OfferTakesFlagDown(st1, config, s, c, ctx, handle, stream, now);
    var (st', m) := AfterOfferMessage(st1, config, ctx, handle, stream, now);
    if m.Ok? {
      assert Holds(st', s, c, ft);
      OfferIgnoresFlags(st1.sessions[s], st'.sessions[s], c, ft, config);
    }
  }

  lemma OpenedIsReady(st: State, ft: FourTuple, handle: nat, stream: nat, tracks: seq<(EndpointId, Mid)>)
    requires TreeOk(st) && Agreement(st) && GetTransport(st, ft).Ok? && TracksOf(st.sessions[st.index[ft].0], tracks)
    ensures var (s, c) := st.index[ft];
      var e := Opened(st.sessions[s], c, ft, handle, stream, tracks);
      var st1 := PutEndpoint(st, s, c, e);
      && TreeOk(st1) && Agreement(st1) && Holds(st1, s, c, ft)
      && ft in e.transports && e.transports[ft].channel == Some((handle, stream))
  {
    var (s, c) := st.index[ft];
    TakenOver(st, ft, handle, stream, tracks);
    OpenedHasChannel(st.sessions[s], c, ft, handle, stream, tracks);
  }

  lemma OpeningEvent(st: State, config: SdpConfig, ev: Event, k: nat)
    requires TreeOk(st) && Agreement(st) && Enabled(st, config, ev) && ev.OpenEvent?
    requires k < |SentBy(st, config, ev)|
    ensures WellAddressed(SentBy(st, config, ev)[k], Next(st, config, ev), config)
  {
    var ft := ev.ctx.Tuple();
    var (s, c) := st.index[ft];
    TracksArePresent(st.sessions[s], c, ev.tracks);
    OpenedIsReady(st, ft, ev.handle, ev.stream, ev.tracks);
    OpeningIsWellAddressed(st, config, s, c, Opened(st.sessions[s], c, ft, ev.handle, ev.stream, ev.tracks), ev.ctx,
        ev.handle, ev.stream, ev.now);
  }

  /**
   Every offer that an event sends is the current one of the endpoint it goes to, on the channel of the transport it
   goes to. With LatestChannel: the handle and stream are those of the latest opening.
   */
  lemma SentOffersAreWellAddressed(st: State, config: SdpConfig, ev: Event, k: nat)
    requires TreeOk(st) && Agreement(st) && Enabled(st, config, ev)
    requires k < |SentBy(st, config, ev)| && SentBy(st, config, ev)[k].payload.ChannelPayload?
    requires SentBy(st, config, ev)[k].payload.description.sdpType == Offer
    ensures WellAddressed(SentBy(st, config, ev)[k], Next(st, config, ev), config)
  {
    if ev.OpenEvent? {
      OpeningEvent(st, config, ev, k);
    } else {
      PassedOnEvent(st, config, ev, k);
    }
  }
}
