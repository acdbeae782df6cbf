/**
 Who is made an offer after a client's offer and when a channel opens, and when a renegotiation that is
 wanted is lost (src/handlers/gateway.rs).
 */
module Renegotiation {
  import opened Types
  import opened Directions
  import opened Sdp
  import opened Endpoints
  import opened MirrorKeys
  import opened SdpGeneration
  import opened Sessions
  import opened ServerStates
  import opened Gateway
  import opened GatewayHandlers
  import opened Tracks
  import opened Runs
  import opened IndexAgreement
  import opened Convergence
  import opened Negotiations

  // ------------------------------------------------------------------ flags

  /** The flag of an endpoint of session `sid`. */
  ghost predicate Flagged(st: State, sid: SessionId, a: EndpointId) {
    Present(st, sid, a) && st.sessions[sid].endpoints[a].renegotiate
  }

  /** The flags of these endpoints of session `sid` have been taken down. */
  ghost function WithoutFlags(st: State, sid: SessionId, gone: set<EndpointId>): State
    requires sid in st.sessions
  {
    var s := st.sessions[sid];
    PutSession(st, sid, s.(endpoints := map a | a in s.endpoints ::
                                          if a in gone then s.endpoints[a].(renegotiate := false) else s.endpoints[a]))
  }

  lemma WithoutNoFlags(st: State, sid: SessionId)
    requires sid in st.sessions
    ensures WithoutFlags(st, sid, {}) == st
  {
    assert WithoutFlags(st, sid, {}).sessions[sid].endpoints == st.sessions[sid].endpoints;
  }

  lemma WithoutFlagsTwice(st: State, sid: SessionId, gone: set<EndpointId>, more: set<EndpointId>)
    requires sid in st.sessions
    ensures WithoutFlags(WithoutFlags(st, sid, gone), sid, more) == WithoutFlags(st, sid, gone + more)
  {
    assert WithoutFlags(WithoutFlags(st, sid, gone), sid, more).sessions[sid].endpoints
        == WithoutFlags(st, sid, gone + more).sessions[sid].endpoints;
  }

  lemma WithoutFlag(st: State, sid: SessionId, a: EndpointId)
    requires Present(st, sid, a)
    ensures PutEndpoint(st, sid, a, st.sessions[sid].endpoints[a].(renegotiate := false)) == WithoutFlags(st, sid, {a})
  {
    assert PutEndpoint(st, sid, a, st.sessions[sid].endpoints[a].(renegotiate := false)).sessions[sid].endpoints
        == WithoutFlags(st, sid, {a}).sessions[sid].endpoints;
  }

  lemma FlagsLeft(st: State, sid: SessionId, gone: set<EndpointId>, s: SessionId, b: EndpointId)
    requires sid in st.sessions
    ensures Flagged(WithoutFlags(st, sid, gone), s, b) <==> Flagged(st, s, b) && !(s == sid && b in gone)
  {
  }

  // ------------------------------------------------------------------ offers to the peers

  function FlaggedPeers(peers: seq<ChannelPeer>): seq<ChannelPeer> {
    if peers == [] then [] else (if peers[0].flagged then [peers[0]] else []) + FlaggedPeers(peers[1..])
  }

  function PeerEndpoints(peers: seq<ChannelPeer>): set<EndpointId> { set p | p in peers :: p.endpoint }

  /** The endpoints of a session that no offer can be made to. */
  ghost function Unofferable(s: Session): set<EndpointId> {
    set b | b in s.endpoints && !Offerable(s.endpoints[b])
  }

  predicate Fails(p: ChannelPeer, unofferable: set<EndpointId>) { p.flagged && p.endpoint in unofferable }

  ghost predicate NoneFails(peers: seq<ChannelPeer>, unofferable: set<EndpointId>) {
    forall k :: 0 <= k < |peers| ==> !Fails(peers[k], unofferable)
  }

  /** The peers that are gone through: all of them, or those up to the first that fails. */
  function GoneThrough(peers: seq<ChannelPeer>, unofferable: set<EndpointId>): (gone: seq<ChannelPeer>)
    ensures gone <= peers
    ensures NoneFails(peers, unofferable) ==> gone == peers
    ensures !NoneFails(peers, unofferable) ==>
              gone != [] && NoneFails(gone[..|gone| - 1], unofferable) && Fails(gone[|gone| - 1], unofferable)
  {
    if peers == [] then []
    else if Fails(peers[0], unofferable) then [peers[0]]
    else
      var rest := GoneThrough(peers[1..], unofferable);
      assert NoneFails(peers, unofferable) <==> NoneFails(peers[1..], unofferable) by {
        NoneFailsFirst(peers, unofferable);
      }
      assert rest != [] ==> ([peers[0]] + rest)[..|rest|] == [peers[0]] + rest[..|rest| - 1];
      [peers[0]] + rest
  }

  lemma NoneFailsFirst(peers: seq<ChannelPeer>, unofferable: set<EndpointId>)
    requires peers != []
    ensures NoneFails(peers, unofferable) <==> !Fails(peers[0], unofferable) && NoneFails(peers[1..], unofferable)
  {
    if !Fails(peers[0], unofferable) && NoneFails(peers[1..], unofferable) {
      forall k | 0 <= k < |peers|
        ensures !Fails(peers[k], unofferable)
      {
        if k > 0 {
          assert peers[k] == peers[1..][k - 1];
        }
      }
    }
  }

  /** The offers that can be made out of a session now, by endpoint and transport. */
  ghost function CurrentOffers(s: Session, config: SdpConfig): map<(EndpointId, FourTuple), LocalDescription> {
    map a, ft | a in s.endpoints && ft in s.endpoints[a].transports && OfferNow(s, a, ft, config).Ok? ::
      (a, ft) := OfferNow(s, a, ft, config).value
  }

  /** The offer that an endpoint is to be made now, with the credentials of this transport. */
  ghost function OfferNow(s: Session, a: EndpointId, ft: FourTuple, config: SdpConfig): Result<LocalDescription>
    requires a in s.endpoints && ft in s.endpoints[a].transports
  {
    var e := s.endpoints[a];
    if e.remote.None? then Err("remote_description is not set")
    else OfferFor(s, a, e.remote.value, e.transports[ft].candidate.localCredentials, config)
  }

  /** The offers to be made, and what is stamped on the messages. */
  datatype Sending = Sending(offers: map<(EndpointId, FourTuple), LocalDescription>, ecn: Option<nat>, now: int)

  /** The message is the peer's offer, over the peer's data channel. */
  ghost predicate IsOfferTo(m: Outgoing, p: ChannelPeer, w: Sending) {
    && (p.endpoint, p.fourTuple) in w.offers
    && m == Outgoing(w.now, ContextOf(p.fourTuple, w.ecn),
                     ChannelPayload(p.handle, p.stream, w.offers[(p.endpoint, p.fourTuple)]))
    && m.payload.description.sdpType == Offer
  }

  ghost predicate OffersTo(messages: seq<Outgoing>, peers: seq<ChannelPeer>, w: Sending) {
    |messages| == |peers| && forall k :: 0 <= k < |peers| ==> IsOfferTo(messages[k], peers[k], w)
  }

  lemma OfferIgnoresFlags(s: Session, s': Session, a: EndpointId, ft: FourTuple, config: SdpConfig)
    requires a in s.endpoints && a in s'.endpoints && ft in s.endpoints[a].transports
    requires s'.endpoints[a] == s.endpoints[a].(renegotiate := s'.endpoints[a].renegotiate)
    ensures OfferNow(s', a, ft, config) == OfferNow(s, a, ft, config)
  {
  }

  /** What is offered does not depend on the flags. */
  lemma OffersIgnoreFlags(st: State, sid: SessionId, gone: set<EndpointId>, config: SdpConfig)
    requires sid in st.sessions
    ensures CurrentOffers(WithoutFlags(st, sid, gone).sessions[sid], config) == CurrentOffers(st.sessions[sid], config)
  {
    var s, s' := st.sessions[sid], WithoutFlags(st, sid, gone).sessions[sid];
    forall a, ft | a in s.endpoints && ft in s.endpoints[a].transports
      ensures OfferNow(s', a, ft, config) == OfferNow(s, a, ft, config)
    {
      OfferIgnoresFlags(s, s', a, ft, config);
    }
  }

  ghost predicate PeersHeld(st: State, sid: SessionId, peers: seq<ChannelPeer>) {
    sid in st.sessions && forall k :: 0 <= k < |peers| ==> Holds(st, sid, peers[k].endpoint, peers[k].fourTuple)
  }

  lemma MessageIsMadeIff(sid: SessionId, s: Session, a: EndpointId, config: SdpConfig, ctx: TransportContext,
                         handle: nat, stream: nat, now: int)
    requires SessionOk(sid, s) && a in s.endpoints && ctx.Tuple() in s.endpoints[a].transports
    ensures var r := OfferMessage(s, a, config, ctx, handle, stream, now);
      && (r.Ok? <==> Offerable(s.endpoints[a]))
      && (r.Ok? ==> IsOfferTo(r.value, ChannelPeer(a, ctx.Tuple(), handle, stream, true),
                              Sending(CurrentOffers(s, config), ctx.ecn, now)))
  {
    OfferIsMadeIff(sid, s, a, s.endpoints[a].transports[ctx.Tuple()].candidate.localCredentials, config);
  }

  lemma WithoutFlagsIsKin(st: State, sid: SessionId, gone: set<EndpointId>)
    requires sid in st.sessions
    ensures KinState(st, WithoutFlags(st, sid, gone))
  {
    var s, s' := st.sessions[sid], WithoutFlags(st, sid, gone).sessions[sid];
    forall a | a in s.endpoints
      ensures Kin(s.endpoints[a], s'.endpoints[a])
    {
      assert MidsOk(s.endpoints[a]) ==> MidsOk(s'.endpoints[a]);
    }
    PutSessionIsKin(st, sid, s');
  }

  lemma WithoutFlagsKeepsShape(st: State, sid: SessionId, gone: set<EndpointId>)
    requires TreeOk(st) && Agreement(st) && sid in st.sessions
    ensures TreeOk(WithoutFlags(st, sid, gone)) && Agreement(WithoutFlags(st, sid, gone))
  {
    WithoutFlagsIsKin(st, sid, gone);
    KinKeepsTree(st, WithoutFlags(st, sid, gone));
    KinKeepsAgreement(st, WithoutFlags(st, sid, gone));
  }

  /** Asking for an offer takes the flag down, whether or not the offer can be made. */
  lemma OfferTakesFlagDown(st: State, config: SdpConfig, sid: SessionId, a: EndpointId, ctx: TransportContext,
                           handle: nat, stream: nat, now: int)
    requires TreeOk(st) && Agreement(st) && Holds(st, sid, a, ctx.Tuple())
    ensures var (st', r) := AfterOfferMessage(st, config, ctx, handle, stream, now);
      && st' == WithoutFlags(st, sid, {a})
      && (r.Ok? <==> Offerable(st.sessions[sid].endpoints[a]))
      && (r.Ok? ==> IsOfferTo(r.value, ChannelPeer(a, ctx.Tuple(), handle, stream, true),
                              Sending(CurrentOffers(st.sessions[sid], config), ctx.ecn, now)))
  {
    assert FindEndpoint(st, ctx.Tuple()) == Ok((sid, a));
    WithoutFlag(st, sid, a);
    WithoutFlagsKeepsShape(st, sid, {a});
    var s := WithoutFlags(st, sid, {a}).sessions[sid];
    assert SessionOk(sid, s);
    MessageIsMadeIff(sid, s, a, config, ctx, handle, stream, now);
    OffersIgnoreFlags(st, sid, {a}, config);
  }

  lemma WithoutFlagsKeeps(st: State, sid: SessionId, gone: set<EndpointId>, peers: seq<ChannelPeer>)
    requires PeersHeld(st, sid, peers)
    ensures PeersHeld(WithoutFlags(st, sid, gone), sid, peers)
    ensures Unofferable(WithoutFlags(st, sid, gone).sessions[sid]) == Unofferable(st.sessions[sid])
  {
    var st' := WithoutFlags(st, sid, gone);
    forall k | 0 <= k < |peers|
      ensures Holds(st', sid, peers[k].endpoint, peers[k].fourTuple)
    {
      assert Holds(st, sid, peers[k].endpoint, peers[k].fourTuple);
    }
  }

  /** What has come of offering to a list of peers. */
  ghost predicate Offered(st: State, st': State, sid: SessionId, sent: seq<Outgoing>, r: Result<seq<Outgoing>>,
                          peers: seq<ChannelPeer>, w: Sending)
    requires sid in st.sessions
  {
    var unofferable := Unofferable(st.sessions[sid]);
    && st' == WithoutFlags(st, sid, PeerEndpoints(FlaggedPeers(GoneThrough(peers, unofferable))))
    && (r.Ok? <==> NoneFails(peers, unofferable))
    && (r.Ok? ==> sent <= r.value && OffersTo(r.value[|sent|..], FlaggedPeers(peers), w))
  }

  lemma OfferedOneMore(st: State, st2: State, sid: SessionId, sent: seq<Outgoing>, m: Outgoing,
                       r: Result<seq<Outgoing>>, peers: seq<ChannelPeer>, w: Sending)
    requires sid in st.sessions && peers != [] && peers[0].flagged && IsOfferTo(m, peers[0], w)
    requires peers[0].endpoint !in Unofferable(st.sessions[sid])
    requires Unofferable(WithoutFlags(st, sid, {peers[0].endpoint}).sessions[sid]) == Unofferable(st.sessions[sid])
    requires Offered(WithoutFlags(st, sid, {peers[0].endpoint}), st2, sid, sent + [m], r, peers[1..], w)
    ensures Offered(st, st2, sid, sent, r, peers, w)
  {
    var unofferable := Unofferable(st.sessions[sid]);
    NoneFailsFirst(peers, unofferable);
    var rest := FlaggedPeers(GoneThrough(peers[1..], unofferable));
    WithoutFlagsTwice(st, sid, {peers[0].endpoint}, PeerEndpoints(rest));
    assert GoneThrough(peers, unofferable)[1..] == GoneThrough(peers[1..], unofferable);
    assert FlaggedPeers(GoneThrough(peers, unofferable)) == [peers[0]] + rest;
    assert PeerEndpoints([peers[0]] + rest) == {peers[0].endpoint} + PeerEndpoints(rest);
  }

  lemma OfferedNoMore(st: State, sid: SessionId, sent: seq<Outgoing>, error: string, peers: seq<ChannelPeer>,
                      w: Sending)
    requires sid in st.sessions && peers != [] && Fails(peers[0], Unofferable(st.sessions[sid]))
    ensures Offered(st, WithoutFlags(st, sid, {peers[0].endpoint}), sid, sent, Err(error), peers, w)
  {
    assert GoneThrough(peers, Unofferable(st.sessions[sid])) == [peers[0]];
    assert FlaggedPeers([peers[0]]) == [peers[0]];
    assert PeerEndpoints([peers[0]]) == {peers[0].endpoint};
  }

  lemma OfferedPast(st: State, st2: State, sid: SessionId, sent: seq<Outgoing>, r: Result<seq<Outgoing>>,
                    peers: seq<ChannelPeer>, w: Sending)
    requires sid in st.sessions && peers != [] && !peers[0].flagged && Offered(st, st2, sid, sent, r, peers[1..], w)
    ensures Offered(st, st2, sid, sent, r, peers, w)
  {
    var unofferable := Unofferable(st.sessions[sid]);
    NoneFailsFirst(peers, unofferable);
    assert GoneThrough(peers, unofferable)[1..] == GoneThrough(peers[1..], unofferable);
    assert FlaggedPeers(GoneThrough(peers, unofferable)) == FlaggedPeers(GoneThrough(peers[1..], unofferable));
  }

  /**
   Offering to a list of peers succeeds exactly if an offer can be made to each flagged one, and each then gets
   its current one. The flags that it takes down are those of the flagged peers gone through, which ends with the first
   that no offer can be made to.
   */
  lemma {:induction false} PeersAreOffered(st: State, sent: seq<Outgoing>, config: SdpConfig, sid: SessionId,
                                           peers: seq<ChannelPeer>, w: Sending)
    requires TreeOk(st) && Agreement(st) && PeersHeld(st, sid, peers)
    requires w.offers == CurrentOffers(st.sessions[sid], config)
    ensures var (st', r) := AfterPeerOffers(st, sent, config, peers, w.ecn, w.now);
            Offered(st, st', sid, sent, r, peers, w)
    decreases |peers|
  {
    if peers == [] {
      WithoutNoFlags(st, sid);
      assert PeerEndpoints([]) == {};
    } else {
      var p := peers[0];
      assert PeersHeld(st, sid, peers[1..]) && Holds(st, sid, p.endpoint, p.fourTuple);
      if !p.flagged {
        PeersAreOffered(st, sent, config, sid, peers[1..], w);
        var (st2, r) := AfterPeerOffers(st, sent, config, peers[1..], w.ecn, w.now);
        OfferedPast(st, st2, sid, sent, r, peers, w);
      } else {
        PeerIsOffered(st, config, sid, p, w);
        var (st1, m) := AfterOfferMessage(st, config, ContextOf(p.fourTuple, w.ecn), p.handle, p.stream, w.now);
        if m.Ok? {
          WithoutFlagsKeepsShape(st, sid, {p.endpoint});
          WithoutFlagsKeeps(st, sid, {p.endpoint}, peers[1..]);
          OffersIgnoreFlags(st, sid, {p.endpoint}, config);
          PeersAreOffered(st1, sent + [m.value], config, sid, peers[1..], w);
          var (st2, r) := AfterPeerOffers(st1, sent + [m.value], config, peers[1..], w.ecn, w.now);
          OfferedOneMore(st, st2, sid, sent, m.value, r, peers, w);
        } else {
          OfferedNoMore(st, sid, sent, m.error, peers, w);
        }
      }
    }
  }

  lemma PeerIsOffered(st: State, config: SdpConfig, sid: SessionId, p: ChannelPeer, w: Sending)
    requires TreeOk(st) && Agreement(st) && Holds(st, sid, p.endpoint, p.fourTuple)
    requires w.offers == CurrentOffers(st.sessions[sid], config)
    ensures var (st', r) := AfterOfferMessage(st, config, ContextOf(p.fourTuple, w.ecn), p.handle, p.stream, w.now);
      && st' == WithoutFlags(st, sid, {p.endpoint})
      && (r.Ok? <==> Offerable(st.sessions[sid].endpoints[p.endpoint]))
      && (r.Ok? ==> IsOfferTo(r.value, p, w))
  {
    var ctx := ContextOf(p.fourTuple, w.ecn);
    assert ctx.Tuple() == p.fourTuple;
    OfferTakesFlagDown(st, config, sid, p.endpoint, ctx, p.handle, p.stream, w.now);
  }

  // ------------------------------------------------------------------ a client's offer over its channel

  lemma {:induction false} FlaggedPeersFilter(peers: seq<ChannelPeer>, p: ChannelPeer)
    ensures p in FlaggedPeers(peers) <==> p in peers && p.flagged
  {
    if peers != [] {
      FlaggedPeersFilter(peers[1..], p);
      assert p in peers <==> p == peers[0] || p in peers[1..];
    }
  }

  lemma {:induction false} FlaggedPeersDistinct(peers: seq<ChannelPeer>)
    requires Distinct(peers)
    ensures Distinct(FlaggedPeers(peers))
  {
    if peers != [] {
      assert Distinct(peers[1..]);
      FlaggedPeersDistinct(peers[1..]);
      FlaggedPeersFilter(peers[1..], peers[0]);
      assert peers[0] !in peers[1..];
    }
  }

  lemma FlaggedPeersEnumerate(peers: seq<ChannelPeer>, all: set<ChannelPeer>)
    requires Enumerates(peers, all)
    ensures Enumerates(FlaggedPeers(peers), set p | p in all && p.flagged)
  {
    FlaggedPeersDistinct(peers);
    forall p
      ensures p in FlaggedPeers(peers) <==> p in all && p.flagged
    {
      FlaggedPeersFilter(peers, p);
    }
  }

  /** A data channel of the endpoint is open. */
  ghost predicate Reachable(st: State, sid: SessionId, a: EndpointId) {
    exists ft :: Holds(st, sid, a, ft) && TransportAt(st, sid, a, ft).channel.Some?
  }

  lemma PeerIffReachable(st: State, sid: SessionId, a: EndpointId, b: EndpointId, peers: seq<ChannelPeer>)
    requires sid in st.sessions && b != a && Enumerates(peers, ChannelPeers(st.sessions[sid], a))
    ensures b in PeerEndpoints(FlaggedPeers(peers)) <==> Flagged(st, sid, b) && Reachable(st, sid, b)
  {
    if b in PeerEndpoints(FlaggedPeers(peers)) {
      var p :| p in FlaggedPeers(peers) && p.endpoint == b;
      FlaggedPeersFilter(peers, p);
      assert p in ChannelPeers(st.sessions[sid], a);
      assert Holds(st, sid, b, p.fourTuple);
    }
    if Flagged(st, sid, b) && Reachable(st, sid, b) {
      var ft :| Holds(st, sid, b, ft) && TransportAt(st, sid, b, ft).channel.Some?;
      var p := PeerAt(st.sessions[sid], b, ft);
      assert p in ChannelPeers(st.sessions[sid], a);
      FlaggedPeersFilter(peers, p);
    }
  }

  lemma PeersAreHeld(st: State, sid: SessionId, a: EndpointId, peers: seq<ChannelPeer>)
    requires sid in st.sessions && Enumerates(peers, ChannelPeers(st.sessions[sid], a))
    ensures PeersHeld(st, sid, peers)
    ensures forall k :: 0 <= k < |peers| ==> peers[k].endpoint != a
  {
    forall k | 0 <= k < |peers|
      ensures Holds(st, sid, peers[k].endpoint, peers[k].fourTuple) && peers[k].endpoint != a
    {
      assert peers[k] in ChannelPeers(st.sessions[sid], a);
    }
  }

  /** Every flagged endpoint other than `a` that a channel reaches can be made an offer. */
  ghost predicate AllOfferable(st: State, sid: SessionId, a: EndpointId) {
    forall b: EndpointId :: b != a && Flagged(st, sid, b) && Reachable(st, sid, b) ==>
      Offerable(st.sessions[sid].endpoints[b])
  }

  lemma NoneFailsIffOfferable(st: State, sid: SessionId, a: EndpointId, peers: seq<ChannelPeer>)
    requires sid in st.sessions && Enumerates(peers, ChannelPeers(st.sessions[sid], a))
    ensures NoneFails(peers, Unofferable(st.sessions[sid])) <==> AllOfferable(st, sid, a)
  {
    var unofferable := Unofferable(st.sessions[sid]);
    PeersAreHeld(st, sid, a, peers);
    if k :| 0 <= k < |peers| && Fails(peers[k], unofferable) {
      FlaggedPeersFilter(peers, peers[k]);
      PeerIffReachable(st, sid, a, peers[k].endpoint, peers);
    }
    if b: EndpointId :| b != a && Flagged(st, sid, b) && Reachable(st, sid, b) && b in unofferable {
      PeerIffReachable(st, sid, a, b, peers);
      var p :| p in FlaggedPeers(peers) && p.endpoint == b;
      FlaggedPeersFilter(peers, p);
      var k :| 0 <= k < |peers| && peers[k] == p;
      assert Fails(peers[k], unofferable);
    }
  }

  /**
   If a client's offer cannot be answered, no flag goes down. Otherwise the answer and the offers are sent
   exactly if an offer can be made to every flagged peer that a channel reaches. Then every open channel of every
   flagged peer gets exactly one, and the flags that stay up are those of the peers that no channel reaches yet.
   Else nothing is sent, but the flags of the peers gone through are down.
   */
  lemma ClientOfferIsPassedOnIff(st: State, config: SdpConfig, ctx: TransportContext, handle: nat, stream: nat,
                                 offer: SdpText, minted: Minted, now: int, peers: seq<ChannelPeer>)
    requires TreeOk(st) && Agreement(st) && ctx.Tuple() in st.index
    requires PeersChosen(st, config, ctx, offer, minted, peers)
    ensures var (sid, a) := st.index[ctx.Tuple()];
      var (st1, answer) := AfterOffer(st, config, sid, a, Some(ctx.Tuple()), offer, minted);
      var (st2, messages) := AfterChannelOffer(st, config, ctx, handle, stream, offer, minted, now, peers);
      if answer.Err? then st2 == st1 && messages.Err?
      else
        && sid in st1.sessions
        && PassedOn(st1, st2, sid, a, Outgoing(now, ctx, ChannelPayload(handle, stream, answer.value)), messages, peers,
                    Sending(CurrentOffers(st1.sessions[sid], config), ctx.ecn, now))
  {
    var (sid, a) := st.index[ctx.Tuple()];
    var (st1, answer) := AfterOffer(st, config, sid, a, Some(ctx.Tuple()), offer, minted);
    OfferIsKin(st, config, sid, a, Some(ctx.Tuple()), offer, minted);
    KinKeepsTree(st, st1);
    KinKeepsAgreement(st, st1);
    if answer.Ok? {
      OffersArePassedOn(st1, config, sid, a, Outgoing(now, ctx, ChannelPayload(handle, stream, answer.value)), peers,
          Sending(CurrentOffers(st1.sessions[sid], config), ctx.ecn, now));
    }
  }

  ghost predicate PassedOn(st: State, st': State, sid: SessionId, a: EndpointId, first: Outgoing,
                           r: Result<seq<Outgoing>>, peers: seq<ChannelPeer>, w: Sending)
    requires sid in st.sessions
  {
    && (r.Ok? <==> AllOfferable(st, sid, a))
    && Enumerates(FlaggedPeers(peers), set p | p in ChannelPeers(st.sessions[sid], a) && p.flagged)
    && st' == WithoutFlags(st, sid, PeerEndpoints(FlaggedPeers(GoneThrough(peers, Unofferable(st.sessions[sid])))))
    && (r.Ok? ==>
          && r.value != [] && r.value[0] == first
          && OffersTo(r.value[1..], FlaggedPeers(peers), w)
          && forall b: EndpointId :: b != a ==>
               (Flagged(st', sid, b) <==> Flagged(st, sid, b) && !Reachable(st, sid, b)))
  }

  lemma OffersArePassedOn(st: State, config: SdpConfig, sid: SessionId, a: EndpointId, first: Outgoing,
                          peers: seq<ChannelPeer>, w: Sending)
    requires TreeOk(st) && Agreement(st) && sid in st.sessions && w.offers == CurrentOffers(st.sessions[sid], config)
    requires Enumerates(peers, ChannelPeers(st.sessions[sid], a))
    ensures var (st', r) := AfterPeerOffers(st, [first], config, peers, w.ecn, w.now);
            PassedOn(st, st', sid, a, first, r, peers, w)
  {
    var (st', r) := AfterPeerOffers(st, [first], config, peers, w.ecn, w.now);
    PeersAreHeld(st, sid, a, peers);
    PeersAreOffered(st, [first], config, sid, peers, w);
    FlaggedPeersEnumerate(peers, ChannelPeers(st.sessions[sid], a));
    NoneFailsIffOfferable(st, sid, a, peers);
    if r.Ok? {
      forall b: EndpointId | b != a
        ensures Flagged(st', sid, b) <==> Flagged(st, sid, b) && !Reachable(st, sid, b)
      {
        PeerIffReachable(st, sid, a, b, peers);
        FlagsLeft(st, sid, PeerEndpoints(FlaggedPeers(peers)), sid, b);
      }
    }
  }

  // ------------------------------------------------------------------ what takes no flag down

  ghost predicate FlagsKept(s: Session, s': Session) {
    forall b :: b in s.endpoints && s.endpoints[b].renegotiate ==> b in s'.endpoints && s'.endpoints[b].renegotiate
  }

  lemma {:induction false} SectionsKeepFlags(s: Session, a: EndpointId, answer: bool, sections: seq<RemoteMedia>)
    requires a in s.endpoints
    ensures FlagsKept(s, AfterSections(s, a, answer, sections).0)
    decreases |sections|
  {
    if sections != [] {
      SectionKeepsKeys(s, a, answer, sections[0]);
      var (s', r) := AfterSection(s, a, answer, sections[0]);
      assert FlagsKept(s, s');
      if r.Ok? {
        SectionsKeepFlags(s', a, answer, sections[1..]);
      }
    }
  }

  lemma KnownOfferKeepsFlags(s: Session, a: EndpointId, ft: Option<FourTuple>, d: RemoteDescription, config: SdpConfig)
    requires a in s.endpoints
    ensures FlagsKept(s, AfterKnownOffer(s, a, ft, d, config).0)
  {
    SectionsKeepFlags(s, a, d.sdpType == Answer, d.sections);
    RemoteGrows(s, a, d);
    var (s1, r) := AfterRemote(s, a, d);
    if r.Ok? && ft.Some? && ft.value in s1.endpoints[a].transports {
      var answer := AnswerFor(s1, a, d, s1.endpoints[a].transports[ft.value].candidate.localCredentials, config);
      if answer.Ok? {
        LocalMediaGrows(s1.endpoints[a], answer.value.sdp.media);
      }
    }
  }

  /** The endpoint is flagged afterwards if it was before, as long as it is there. */
  ghost predicate KeepsFlag(st: State, st': State, sid: SessionId, b: EndpointId) {
    Flagged(st, sid, b) && Present(st', sid, b) ==> Flagged(st', sid, b)
  }

  lemma OfferKeepsFlag(st: State, config: SdpConfig, s: SessionId, a: EndpointId, ft: Option<FourTuple>,
                       offer: SdpText, minted: Minted, sid: SessionId, b: EndpointId)
    ensures KeepsFlag(st, AfterOffer(st, config, s, a, ft, offer, minted).0, sid, b)
  {
    if Present(st, s, a) && offer.parsed.Ok? {
      var d := RemoteDescription(offer.sdpType, offer.parsed.value.sections);
      KnownOfferKeepsFlags(st.sessions[s], a, ft, d, config);
    }
  }

  lemma AnswerKeepsFlag(st: State, s: SessionId, a: EndpointId, answer: SdpText, sid: SessionId, b: EndpointId)
    ensures KeepsFlag(st, AfterAnswer(st, s, a, answer).0, sid, b)
  {
    if Present(st, s, a) && answer.parsed.Ok? {
      SectionsKeepFlags(st.sessions[s], a, answer.sdpType == Answer, answer.parsed.value.sections);
    }
  }

  lemma RemovalKeepsFlag(st: State, ft: FourTuple, sid: SessionId, b: EndpointId)
    ensures KeepsFlag(st, AfterRemoval(st, ft), sid, b)
  {
  }

  lemma {:induction false} RemovalsKeepFlag(st: State, tuples: seq<FourTuple>, sid: SessionId, b: EndpointId)
    ensures KeepsFlag(st, AfterRemovals(st, tuples), sid, b)
    decreases |tuples|
  {
    if tuples != [] {
      RemovalKeepsFlag(st, tuples[0], sid, b);
      RemovalsKeepFlag(AfterRemoval(st, tuples[0]), tuples[1..], sid, b);
      if Present(AfterRemovals(st, tuples), sid, b) {
        RemovalsAge(AfterRemoval(st, tuples[0]), tuples[1..], sid, b);
      }
    }
  }

  lemma StunKeepsFlag(st: State, ctx: TransportContext, request: StunRequest, now: int, sid: SessionId, b: EndpointId)
    ensures KeepsFlag(st, AfterStun(st, ctx, request, now), sid, b)
  {
  }

  // ------------------------------------------------------------------ what raises a flag

  lemma PublishingRaisesFlag(s: Session, c: EndpointId, x: Mid, d: Direction, kind: Kind, track: Track, b: EndpointId)
    requires c in s.endpoints && b in s.endpoints
    ensures var s' := Published(s, c, x, d, kind, track);
      s'.endpoints[b].renegotiate <==>
        || s.endpoints[b].renegotiate
        || (b != c && DirectionAt(s', b, MirrorKey(c, x)) != DirectionAt(s, b, MirrorKey(c, x)))
  {
  }

  /** A mid that is held is not offered again, so the transceivers of others under its mirror key stay. */
  lemma {:induction false} HeldKeyStays(s: Session, c: EndpointId, sections: seq<RemoteMedia>, x: Mid, b: EndpointId)
    requires c in s.endpoints && b != c && x in s.endpoints[c].transceivers
    ensures DirectionAt(AfterSections(s, c, false, sections).0, b, MirrorKey(c, x))
         == DirectionAt(s, b, MirrorKey(c, x))
    decreases |sections|
  {
    if sections != [] {
      SectionKeepsKeys(s, c, false, sections[0]);
      var (s1, r) := AfterOfferedSection(s, c, sections[0]);
      if Creates(s.endpoints[c], sections[0]) {
        var m := sections[0].media;
        if MirrorKey(c, x) == MirrorKey(c, MidOf(m).value) {
          MirrorKeyInjective(c, x, c, MidOf(m).value);
        }
        PublishedDirection(s, c, MidOf(m).value, PeerDirection(m), KindOf(m.name), sections[0].track.value, b,
            MirrorKey(c, x));
      }
      if r.Ok? {
        HeldKeyStays(s1, c, sections[1..], x, b);
      }
    }
  }

  ghost predicate Changes(s: Session, s': Session, b: EndpointId) {
    exists m: Mid :: DirectionAt(s', b, m) != DirectionAt(s, b, m)
  }

  /** Of the transceivers of another endpoint, a section changes the one under its mirror key at most. */
  lemma SectionChanges(s: Session, c: EndpointId, section: RemoteMedia, b: EndpointId)
    requires c in s.endpoints && b in s.endpoints && b != c && Creates(s.endpoints[c], section)
    ensures var s1, key := AfterOfferedSection(s, c, section).0, MirrorKey(c, MidOf(section.media).value);
      && b in s1.endpoints
      && (Changes(s, s1, b) <==> DirectionAt(s1, b, key) != DirectionAt(s, b, key))
      && (forall m: Mid :: m != key ==> DirectionAt(s1, b, m) == DirectionAt(s, b, m))
      && (s1.endpoints[b].renegotiate <==> s.endpoints[b].renegotiate || Changes(s, s1, b))
  {
    var m := section.media;
    var s1, key := AfterOfferedSection(s, c, section).0, MirrorKey(c, MidOf(m).value);
    PublishingRaisesFlag(s, c, MidOf(m).value, PeerDirection(m), KindOf(m.name), section.track.value, b);
    forall n: Mid | n != key
      ensures DirectionAt(s1, b, n) == DirectionAt(s, b, n)
    {
      PublishedDirection(s, c, MidOf(m).value, PeerDirection(m), KindOf(m.name), section.track.value, b, n);
    }
  }

  lemma ChangesThen(s: Session, s1: Session, s2: Session, b: EndpointId, key: Mid)
    requires forall m: Mid :: m != key ==> DirectionAt(s1, b, m) == DirectionAt(s, b, m)
    requires DirectionAt(s2, b, key) == DirectionAt(s1, b, key)
    ensures Changes(s, s2, b) <==> Changes(s, s1, b) || Changes(s1, s2, b)
  {
    if m: Mid :| DirectionAt(s1, b, m) != DirectionAt(s, b, m) {
      assert DirectionAt(s2, b, m) != DirectionAt(s, b, m);
    }
    if m: Mid :| DirectionAt(s2, b, m) != DirectionAt(s1, b, m) {
      assert DirectionAt(s2, b, m) != DirectionAt(s, b, m);
    }
  }

  /**
   After the sections of a client's offer, another endpoint is flagged exactly if it was, or something that it is sent
   has changed; the client's own flag stays.
   */
  lemma {:induction false} OfferRaisesFlagsIff(s: Session, c: EndpointId, sections: seq<RemoteMedia>, b: EndpointId)
    requires c in s.endpoints && b in s.endpoints
    ensures var s' := AfterSections(s, c, false, sections).0;
      && b in s'.endpoints
      && (s'.endpoints[b].renegotiate <==> s.endpoints[b].renegotiate || (b != c && Changes(s, s', b)))
    decreases |sections|
  {
    if sections != [] {
      SectionKeepsKeys(s, c, false, sections[0]);
      var (s1, r) := AfterOfferedSection(s, c, sections[0]);
      if Creates(s.endpoints[c], sections[0]) {
        var x := MidOf(sections[0].media).value;
        OfferRaisesFlagsIff(s1, c, sections[1..], b);
        if b != c {
          SectionChanges(s, c, sections[0], b);
          HeldKeyStays(s1, c, sections[1..], x, b);
          ChangesThen(s, s1, AfterSections(s1, c, false, sections[1..]).0, b, MirrorKey(c, x));
        }
      } else if r.Ok? {
        OfferRaisesFlagsIff(s1, c, sections[1..], b);
      }
    }
  }

  // ------------------------------------------------------------------ what each event sends and loses

  function Sent(r: Result<seq<Outgoing>>): seq<Outgoing> { if r.Ok? then r.value else [] }

  /** The messages that an event leaves over data channels. */
  ghost function SentBy(st: State, config: SdpConfig, ev: Event): seq<Outgoing>
    requires Enabled(st, config, ev)
  {
    match ev
    case OpenEvent(ctx, handle, stream, now, tracks) =>
      if GetTransport(st, ctx.Tuple()).Ok? then
        TracksArePresent(st.sessions[st.index[ctx.Tuple()].0], st.index[ctx.Tuple()].1, tracks);
        Sent(AfterOpen(st, config, ctx, handle, stream, now, tracks).1)
      else []
    case MessageEvent(ctx, handle, stream, sdp, minted, now, peers) =>
      Sent(AfterMessage(st, config, ctx, handle, stream, sdp, minted, now, peers).1)
    case _ => []
  }

  /** One of the messages is an offer to a transport of the endpoint. */
  ghost predicate OfferedTo(messages: seq<Outgoing>, st: State, sid: SessionId, b: EndpointId) {
    exists k :: 0 <= k < |messages| && IsOfferFor(messages[k], st, sid, b)
  }

  ghost predicate IsOfferFor(m: Outgoing, st: State, sid: SessionId, b: EndpointId) {
    m.payload.ChannelPayload? && m.payload.description.sdpType == Offer && Holds(st, sid, b, m.transport.Tuple())
  }

  /** A channel of this endpoint opens. */
  ghost predicate Opens(st: State, ev: Event, sid: SessionId, b: EndpointId) {
    ev.OpenEvent? && GetTransport(st, ev.ctx.Tuple()).Ok? && st.index[ev.ctx.Tuple()] == (sid, b)
  }

  /** A client's offer comes over its channel. */
  ghost predicate Asks(st: State, ev: Event) {
    ev.MessageEvent? && ev.sdp.Ok? && ev.sdp.value.sdpType == Offer && ev.ctx.Tuple() in st.index
  }

  /** The state in which the answer to a client's offer has been made, and whether it could be. */
  ghost function Answered(st: State, config: SdpConfig, ev: Event): (State, Result<LocalDescription>)
    requires Asks(st, ev)
  {
    var (s, a) := st.index[ev.ctx.Tuple()];
    AfterOffer(st, config, s, a, Some(ev.ctx.Tuple()), ev.sdp.value, ev.minted)
  }

  /** Before the event or because of it, the endpoint is to be made an offer. */
  ghost predicate Wanted(st: State, config: SdpConfig, ev: Event, sid: SessionId, b: EndpointId)
    requires Enabled(st, config, ev)
  {
    || Flagged(st, sid, b)
    || (Opens(st, ev, sid, b) && TracksFor(st.sessions[sid], b) != {})
    || (Asks(st, ev) && Flagged(Answered(st, config, ev).0, sid, b))
    || (ev.OfferEvent? && Flagged(Next(st, config, ev), sid, b))
  }

  /** The endpoint is still there, but neither flagged nor made an offer. */
  ghost predicate Forgotten(st: State, st': State, messages: seq<Outgoing>, sid: SessionId, b: EndpointId) {
    Present(st', sid, b) && !Flagged(st', sid, b) && !OfferedTo(messages, st, sid, b)
  }

  /**
   A channel of the endpoint opens, and there is nothing to take over although the flag is up, or no offer can be
   made of what is taken over.
   */
  ghost predicate LostOnOpening(st: State, ev: Event, sid: SessionId, b: EndpointId)
    requires ev.OpenEvent?
  {
    && Opens(st, ev, sid, b) && TracksOf(st.sessions[sid], ev.tracks)
    && if ev.tracks == [] then Flagged(st, sid, b)
       else !Offerable(Opened(st.sessions[sid], b, ev.ctx.Tuple(), ev.handle, ev.stream, ev.tracks))
  }

  /** A client's offer is answered, no offer can be made to one of the flagged peers, and this one was gone through. */
  ghost predicate LostInPassing(st: State, config: SdpConfig, ev: Event, sid: SessionId, b: EndpointId)
    requires ev.MessageEvent?
  {
    && Asks(st, ev) && st.index[ev.ctx.Tuple()].0 == sid
    && var (st1, answer) := Answered(st, config, ev);
    && answer.Ok? && sid in st1.sessions && !AllOfferable(st1, sid, st.index[ev.ctx.Tuple()].1)
    && b in PeerEndpoints(FlaggedPeers(GoneThrough(ev.peers, Unofferable(st1.sessions[sid]))))
  }

  lemma {:induction false} MirrorsKeepFlag(e: Endpoint, s: Session, tracks: seq<(EndpointId, Mid)>)
    requires TracksOf(s, tracks)
    ensures WithMirrors(e, s, tracks).renegotiate == e.renegotiate
    ensures WithMirrors(e, s, tracks).transports == e.transports
  {
    if tracks != [] {
      MirrorsKeepFlag(e, s, tracks[..|tracks| - 1]);
    }
  }

  /** The endpoint that has taken over tracks is flagged exactly if there were any. */
  lemma OpenedIsFlagged(s: Session, b: EndpointId, ft: FourTuple, handle: nat, stream: nat,
                        tracks: seq<(EndpointId, Mid)>)
    requires b in s.endpoints && ft in s.endpoints[b].transports && TracksOf(s, tracks)
    ensures Opened(s, b, ft, handle, stream, tracks).renegotiate <==> tracks != []
    ensures ft in Opened(s, b, ft, handle, stream, tracks).transports
  {
    var e := s.endpoints[b];
    var t := e.transports[ft].(channel := Some((handle, stream)));
    MirrorsKeepFlag(e.(transports := e.transports[ft := t], renegotiate := tracks != []), s, tracks);
  }

  lemma TakenOver(st: State, ft: FourTuple, handle: nat, stream: nat, tracks: seq<(EndpointId, Mid)>)
    requires TreeOk(st) && Agreement(st) && GetTransport(st, ft).Ok? && TracksOf(st.sessions[st.index[ft].0], tracks)
    ensures var (s, c) := st.index[ft];
      var st1 := PutEndpoint(st, s, c, Opened(st.sessions[s], c, ft, handle, stream, tracks));
      TreeOk(st1) && Agreement(st1) && Holds(st1, s, c, ft)
  {
    var (s, c) := st.index[ft];
    var st1 := PutEndpoint(st, s, c, Opened(st.sessions[s], c, ft, handle, stream, tracks));
    PutOpenedIsKin(st, ft, handle, stream, tracks);
    KinKeepsTree(st, st1);
    KinKeepsAgreement(st, st1);
    OpenedIsFlagged(st.sessions[s], c, ft, handle, stream, tracks);
  }

  /** What the opening of a channel does to one flag, and what it sends. */
  ghost predicate OpeningDone(st: State, st': State, r: Result<seq<Outgoing>>, s: SessionId, c: EndpointId,
                              e: Endpoint, sid: SessionId, b: EndpointId)
  {
    && (Flagged(st', sid, b) <==> Flagged(st, sid, b) && (sid, b) != (s, c))
    && (Present(st', sid, b) <==> Present(st, sid, b))
    && if !e.renegotiate then r == Ok([])
       else if Offerable(e) then r.Ok? && |r.value| == 1 && IsOfferFor(r.value[0], st, s, c)
       else r.Err?
  }

  lemma OpenedFlags(st: State, s: SessionId, c: EndpointId, e: Endpoint, sid: SessionId, b: EndpointId)
    requires Present(st, s, c)
    ensures var st' := WithoutFlags(PutEndpoint(st, s, c, e), s, {c});
      && (Flagged(st', sid, b) <==> Flagged(st, sid, b) && (sid, b) != (s, c))
      && (Present(st', sid, b) <==> Present(st, sid, b))
  {
  }

  lemma OpenedQuietly(st: State, s: SessionId, c: EndpointId, e: Endpoint, sid: SessionId, b: EndpointId)
    requires Present(st, s, c) && !e.renegotiate
    ensures OpeningDone(st, PutEndpoint(st, s, c, e), Ok([]), s, c, e, sid, b)
  {
  }

  lemma OpenedThenOffered(st: State, config: SdpConfig, s: SessionId, c: EndpointId, e: Endpoint,
                          ctx: TransportContext, handle: nat, stream: nat, now: int, sid: SessionId, b: EndpointId)
    requires Holds(st, s, c, ctx.Tuple()) && e.renegotiate
    requires var st1 := PutEndpoint(st, s, c, e); TreeOk(st1) && Agreement(st1) && Holds(st1, s, c, ctx.Tuple())
    ensures var (st', m) := AfterOfferMessage(PutEndpoint(st, s, c, e), config, ctx, handle, stream, now);
            OpeningDone(st, st', if m.Ok? then Ok([m.value]) else Err(m.error), s, c, e, sid, b)
  {
    OpenedFlags(st, s, c, e, sid, b);
    OfferTakesFlagDown(PutEndpoint(st, s, c, e), config, s, c, ctx, handle, stream, now);
  }

  lemma OpeningFlags(st: State, config: SdpConfig, ctx: TransportContext, handle: nat, stream: nat, now: int,
                     tracks: seq<(EndpointId, Mid)>, sid: SessionId, b: EndpointId)
    requires TreeOk(st) && Agreement(st) && GetTransport(st, ctx.Tuple()).Ok?
    requires TracksOf(st.sessions[st.index[ctx.Tuple()].0], tracks)
    ensures var (s, c) := st.index[ctx.Tuple()];
      var (st', r) := AfterOpen(st, config, ctx, handle, stream, now, tracks);
      OpeningDone(st, st', r, s, c, Opened(st.sessions[s], c, ctx.Tuple(), handle, stream, tracks), sid, b)
  {
    var (s, c) := st.index[ctx.Tuple()];
    var e := Opened(st.sessions[s], c, ctx.Tuple(), handle, stream, tracks);
    if e.renegotiate {
      TakenOver(st, ctx.Tuple(), handle, stream, tracks);
      OpenedThenOffered(st, config, s, c, e, ctx, handle, stream, now, sid, b);
    } else {
      OpenedQuietly(st, s, c, e, sid, b);
    }
  }

  lemma OpeningForgets(st: State, st': State, r: Result<seq<Outgoing>>, s: SessionId, c: EndpointId, e: Endpoint,
                       sid: SessionId, b: EndpointId)
    requires Present(st, s, c) && OpeningDone(st, st', r, s, c, e, sid, b)
    ensures (Flagged(st, sid, b) || ((sid, b) == (s, c) && e.renegotiate)) && Forgotten(st, st', Sent(r), sid, b)
       <==> (sid, b) == (s, c) && if e.renegotiate then !Offerable(e) else Flagged(st, sid, b)
  {
    if (sid, b) == (s, c) && e.renegotiate && Offerable(e) {
      assert IsOfferFor(Sent(r)[0], st, sid, b);
    }
  }

  lemma OpeningLosesIff(st: State, config: SdpConfig, ev: Event, sid: SessionId, b: EndpointId)
    requires TreeOk(st) && Agreement(st) && Enabled(st, config, ev) && ev.OpenEvent?
    ensures Wanted(st, config, ev, sid, b) && Forgotten(st, Next(st, config, ev), SentBy(st, config, ev), sid, b)
       <==> LostOnOpening(st, ev, sid, b)
  {
    if GetTransport(st, ev.ctx.Tuple()).Ok? {
      var (s, c) := st.index[ev.ctx.Tuple()];
      TracksArePresent(st.sessions[s], c, ev.tracks);
      var (st', r) := AfterOpen(st, config, ev.ctx, ev.handle, ev.stream, ev.now, ev.tracks);
      OpeningFlags(st, config, ev.ctx, ev.handle, ev.stream, ev.now, ev.tracks, sid, b);
      OpenedIsFlagged(st.sessions[s], c, ev.ctx.Tuple(), ev.handle, ev.stream, ev.tracks);
      NothingToTakeOver(ev.tracks, TracksFor(st.sessions[s], c));
      OpeningForgets(st, st', r, s, c, Opened(st.sessions[s], c, ev.ctx.Tuple(), ev.handle, ev.stream, ev.tracks),
          sid, b);
    }
  }

  lemma NothingToTakeOver(tracks: seq<(EndpointId, Mid)>, all: set<(EndpointId, Mid)>)
    requires Enumerates(tracks, all)
    ensures tracks == [] <==> all == {}
  {
    if tracks != [] {
      assert tracks[0] in all;
    }
    if all != {} {
      var t := Element(all);
      assert t in tracks;
    }
  }

  lemma OffersReach(messages: seq<Outgoing>, peers: seq<ChannelPeer>, w: Sending, st: State, sid: SessionId,
                    b: EndpointId)
    requires messages != [] && OffersTo(messages[1..], FlaggedPeers(peers), w) && PeersHeld(st, sid, peers)
    requires b in PeerEndpoints(FlaggedPeers(peers))
    ensures OfferedTo(messages, st, sid, b)
  {
    var flagged := FlaggedPeers(peers);
    var p :| p in flagged && p.endpoint == b;
    FlaggedPeersFilter(peers, p);
    var k :| 0 <= k < |flagged| && flagged[k] == p;
    assert IsOfferTo(messages[1..][k], p, w);
    assert IsOfferFor(messages[k + 1], st, sid, b);
  }

  /** Among the endpoints flagged, exactly those gone through in vain are forgotten. */
  lemma ForgottenInPassing(st: State, st': State, sid: SessionId, a: EndpointId, first: Outgoing,
                           r: Result<seq<Outgoing>>, peers: seq<ChannelPeer>, w: Sending, b: EndpointId)
    requires sid in st.sessions && Enumerates(peers, ChannelPeers(st.sessions[sid], a))
    requires PassedOn(st, st', sid, a, first, r, peers, w)
    ensures Flagged(st, sid, b) && !Flagged(st', sid, b) && !OfferedTo(Sent(r), st, sid, b)
       <==> !AllOfferable(st, sid, a)
            && b in PeerEndpoints(FlaggedPeers(GoneThrough(peers, Unofferable(st.sessions[sid]))))
  {
    var gone := GoneThrough(peers, Unofferable(st.sessions[sid]));
    FlagsLeft(st, sid, PeerEndpoints(FlaggedPeers(gone)), sid, b);
    PeersAreHeld(st, sid, a, peers);
    if b in PeerEndpoints(FlaggedPeers(gone)) {
      GoneArePeers(peers, gone, b);
      PeerIffReachable(st, sid, a, b, peers);
      if r.Ok? {
        OffersReach(r.value, peers, w, st, sid, b);
      }
    }
  }

  lemma GoneArePeers(peers: seq<ChannelPeer>, gone: seq<ChannelPeer>, b: EndpointId)
    requires gone <= peers && b in PeerEndpoints(FlaggedPeers(gone))
    ensures b in PeerEndpoints(FlaggedPeers(peers))
    ensures exists k :: 0 <= k < |peers| && peers[k].endpoint == b
  {
    var p :| p in FlaggedPeers(gone) && p.endpoint == b;
    FlaggedPeersFilter(gone, p);
    FlaggedPeersFilter(peers, p);
    assert p in peers;
  }

  lemma KinHolds(st: State, st': State, sid: SessionId, b: EndpointId, ft: FourTuple)
    requires KinState(st, st')
    ensures Holds(st', sid, b, ft) <==> Holds(st, sid, b, ft)
    ensures Present(st', sid, b) <==> Present(st, sid, b)
  {
    if sid in st.sessions {
      assert KinSession(st.sessions[sid], st'.sessions[sid]);
      if b in st.sessions[sid].endpoints {
        assert Kin(st.sessions[sid].endpoints[b], st'.sessions[sid].endpoints[b]);
      }
    }
  }

  lemma KinOfferedTo(st: State, st': State, messages: seq<Outgoing>, sid: SessionId, b: EndpointId)
    requires KinState(st, st')
    ensures OfferedTo(messages, st', sid, b) <==> OfferedTo(messages, st, sid, b)
  {
    forall k | 0 <= k < |messages|
      ensures IsOfferFor(messages[k], st', sid, b) <==> IsOfferFor(messages[k], st, sid, b)
    {
      KinHolds(st, st', sid, b, messages[k].transport.Tuple());
    }
  }

  /** What answering a client's offer leaves as it was, for one endpoint. */
  lemma AnsweringKeeps(st: State, config: SdpConfig, ev: Event, messages: seq<Outgoing>, sid: SessionId, b: EndpointId)
    requires Enabled(st, config, ev) && Asks(st, ev)
    ensures var st1 := Answered(st, config, ev).0;
      && (Present(st1, sid, b) <==> Present(st, sid, b))
      && (OfferedTo(messages, st1, sid, b) <==> OfferedTo(messages, st, sid, b))
      && (Wanted(st, config, ev, sid, b) <==> Flagged(st1, sid, b))
  {
    var ft := ev.ctx.Tuple();
    var (s, a) := st.index[ft];
    var st1 := Answered(st, config, ev).0;
    OfferKeepsFlag(st, config, s, a, Some(ft), ev.sdp.value, ev.minted, sid, b);
    OfferIsKin(st, config, s, a, Some(ft), ev.sdp.value, ev.minted);
    KinHolds(st, st1, sid, b, ft);
    KinOfferedTo(st, st1, messages, sid, b);
  }

  lemma PassingLosesIff(st: State, config: SdpConfig, ev: Event, sid: SessionId, b: EndpointId)
    requires TreeOk(st) && Agreement(st) && Enabled(st, config, ev) && Asks(st, ev)
    ensures Wanted(st, config, ev, sid, b) && Forgotten(st, Next(st, config, ev), SentBy(st, config, ev), sid, b)
       <==> LostInPassing(st, config, ev, sid, b)
  {
    var (s, a) := st.index[ev.ctx.Tuple()];
    var (st1, answer) := Answered(st, config, ev);
    var (st2, r) := AfterChannelOffer(st, config, ev.ctx, ev.handle, ev.stream, ev.sdp.value, ev.minted, ev.now,
                                      ev.peers);
    AnsweringKeeps(st, config, ev, Sent(r), sid, b);
    ClientOfferIsPassedOnIff(st, config, ev.ctx, ev.handle, ev.stream, ev.sdp.value, ev.minted, ev.now, ev.peers);
    if answer.Ok? {
      var first := Outgoing(ev.now, ev.ctx, ChannelPayload(ev.handle, ev.stream, answer.value));
      ForgottenInPassing(st1, st2, s, a, first, r, ev.peers,
          Sending(CurrentOffers(st1.sessions[s], config), ev.ctx.ecn, ev.now), b);
      FlagsLeft(st1, s, PeerEndpoints(FlaggedPeers(GoneThrough(ev.peers, Unofferable(st1.sessions[s])))), sid, b);
    }
  }

  /** Every event but an opening channel and a client's offer over its channel keeps the flags that are up. */
  lemma OthersKeepFlags(st: State, config: SdpConfig, ev: Event, sid: SessionId, b: EndpointId)
    requires Enabled(st, config, ev) && !ev.OpenEvent? && !Asks(st, ev)
    ensures KeepsFlag(st, Next(st, config, ev), sid, b)
  {
    match ev
    case OfferEvent(s, a, ft, offer, minted) => OfferKeepsFlag(st, config, s, a, ft, offer, minted, sid, b);
    case StunEvent(ctx, request, now) => StunKeepsFlag(st, ctx, request, now, sid, b);
    case MessageEvent(ctx, _, _, sdp, _, _, _) =>
      if sdp.Ok? && sdp.value.sdpType == Answer && ctx.Tuple() in st.index {
        AnswerKeepsFlag(st, st.index[ctx.Tuple()].0, st.index[ctx.Tuple()].1, sdp.value, sid, b);
      }
    case SweepEvent(_, tuples) => RemovalsKeepFlag(st, tuples, sid, b);
    case AlertEvent(ft) => RemovalKeepsFlag(st, ft, sid, b);
    case _ =>
  }

  /** The two ways in which a renegotiation is lost. */
  ghost predicate Loses(st: State, config: SdpConfig, ev: Event, sid: SessionId, b: EndpointId) {
    || (ev.OpenEvent? && LostOnOpening(st, ev, sid, b))
    || (ev.MessageEvent? && LostInPassing(st, config, ev, sid, b))
  }

  /**
   An endpoint that is to be made an offer, and is still there after an event, is made one or keeps its flag,
   except exactly in these two cases.
   */
  lemma RenegotiationIsLostIff(st: State, config: SdpConfig, ev: Event, sid: SessionId, b: EndpointId)
    requires TreeOk(st) && Agreement(st) && Enabled(st, config, ev)
    ensures Wanted(st, config, ev, sid, b) && Forgotten(st, Next(st, config, ev), SentBy(st, config, ev), sid, b)
       <==> Loses(st, config, ev, sid, b)
  {
    if ev.OpenEvent? {
      OpeningLosesIff(st, config, ev, sid, b);
    } else if Asks(st, ev) {
      PassingLosesIff(st, config, ev, sid, b);
    } else {
      OthersKeepFlags(st, config, ev, sid, b);
    }
  }

  // ------------------------------------------------------------------ over whole runs

  /** The endpoint's renegotiation is not lost at any event of the run. */
  ghost predicate NeverLost(st: State, config: SdpConfig, events: seq<Event>, sid: SessionId, b: EndpointId)
    requires IsRun(st, config, events)
    decreases |events|
  {
    events == [] || (!Loses(st, config, events[0], sid, b)
                     && NeverLost(Next(st, config, events[0]), config, events[1..], sid, b))
  }

  /** The endpoint is made an offer at some event of the run. */
  ghost predicate OfferedOn(st: State, config: SdpConfig, events: seq<Event>, sid: SessionId, b: EndpointId)
    requires IsRun(st, config, events)
    decreases |events|
  {
    events != [] && (OfferedTo(SentBy(st, config, events[0]), st, sid, b)
                     || OfferedOn(Next(st, config, events[0]), config, events[1..], sid, b))
  }

  /** A flag that is up stays up until an offer is made, as long as the endpoint stays and nothing is lost. */
  lemma {:induction false} FlagLastsUntilOffer(st: State, config: SdpConfig, events: seq<Event>, sid: SessionId,
                                               b: EndpointId)
    requires TreeOk(st) && Agreement(st) && IsRun(st, config, events) && ExclusiveRun(st, config, events)
    requires Stays(st, config, events, sid, b) && NeverLost(st, config, events, sid, b)
    requires Flagged(st, sid, b)
    ensures Flagged(After(st, config, events), sid, b) || OfferedOn(st, config, events, sid, b)
    decreases |events|
  {
    if events != [] {
      var st1 := Next(st, config, events[0]);
      RenegotiationIsLostIff(st, config, events[0], sid, b);
      StepKeepsTree(st, config, events[0]);
      StepKeepsAgreementIff(st, config, events[0]);
      if Flagged(st1, sid, b) {
        FlagLastsUntilOffer(st1, config, events[1..], sid, b);
      }
    }
  }
}
