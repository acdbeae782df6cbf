/** The index from four-tuples to endpoints against a search of the whole tree (src/server/states.rs). */
module IndexAgreement {
  import opened Types
  import opened Endpoints
  import opened SdpGeneration
  import opened ServerStates
  import opened Gateway
  import opened Runs

  /** Endpoint `a` of session `sid` has a transport with this four-tuple. */
  ghost predicate Holds(st: State, sid: SessionId, a: EndpointId, ft: FourTuple) {
    sid in st.sessions && a in st.sessions[sid].endpoints && ft in st.sessions[sid].endpoints[a].transports
  }

  ghost function TransportAt(st: State, sid: SessionId, a: EndpointId, ft: FourTuple): Transport
    requires Holds(st, sid, a, ft)
  {
    st.sessions[sid].endpoints[a].transports[ft]
  }

  /** Every transport in the tree is indexed where it is; other entries of the index may be stale. */
  ghost predicate Agreement(st: State) {
    forall sid: SessionId, a: EndpointId, ft :: Holds(st, sid, a, ft) ==> ft in st.index && st.index[ft] == (sid, a)
  }

  /** With agreement, looking a four-tuple up finds the one transport in the tree that has it, and nothing else. */
  lemma LookupIsTreeSearch(st: State, ft: FourTuple)
    requires Agreement(st)
    ensures GetTransport(st, ft).Ok? <==> exists sid: SessionId, a: EndpointId :: Holds(st, sid, a, ft)
    ensures forall sid: SessionId, a: EndpointId :: Holds(st, sid, a, ft) ==>
            GetTransport(st, ft) == Ok(TransportAt(st, sid, a, ft))
    ensures forall sid: SessionId, a: EndpointId, sid': SessionId, a': EndpointId ::
            Holds(st, sid, a, ft) && Holds(st, sid', a', ft) ==> sid == sid' && a == a'
  {
    if GetTransport(st, ft).Ok? {
      var (sid, a) := st.index[ft];
      assert Holds(st, sid, a, ft);
    }
  }

  lemma KinKeepsAgreement(st: State, st': State)
    requires Agreement(st) && KinState(st, st')
    ensures Agreement(st')
  {
    forall sid: SessionId, a: EndpointId, ft | Holds(st', sid, a, ft)
      ensures ft in st'.index && st'.index[ft] == (sid, a)
    {
      if sid in st.sessions {
        assert KinSession(st.sessions[sid], st'.sessions[sid]);
        assert Kin(st.sessions[sid].endpoints[a], st'.sessions[sid].endpoints[a]);
        assert Holds(st, sid, a, ft);
      }
    }
  }

  /** Removing a transport removes its entry only with its endpoint, and never an entry that is needed. */
  lemma RemovalKeepsAgreement(st: State, ft: FourTuple)
    requires Agreement(st)
    ensures Agreement(AfterRemoval(st, ft))
  {
    var st' := AfterRemoval(st, ft);
    forall sid: SessionId, a: EndpointId, f | Holds(st', sid, a, f)
      ensures f in st'.index && st'.index[f] == (sid, a)
    {
      assert Holds(st, sid, a, f);
      if f == ft {
        assert st.index[ft] == (sid, a);
      }
    }
  }

  lemma {:induction false} RemovalsKeepAgreement(st: State, tuples: seq<FourTuple>)
    requires Agreement(st)
    ensures Agreement(AfterRemovals(st, tuples))
    decreases |tuples|
  {
    if tuples != [] {
      RemovalKeepsAgreement(st, tuples[0]);
      RemovalsKeepAgreement(AfterRemoval(st, tuples[0]), tuples[1..]);
    }
  }

  ghost predicate HeldElsewhere(st: State, sid: SessionId, a: EndpointId, ft: FourTuple) {
    exists s: SessionId, b: EndpointId :: (s, b) != (sid, a) && Holds(st, s, b, ft)
  }

  lemma NominationHolds(st: State, c: Candidate, ft: FourTuple, now: int, sid: SessionId, a: EndpointId, f: FourTuple)
    requires c.sessionId in st.sessions
    ensures var st' := AfterNomination(st, c, ft, true, now).0;
            Holds(st', sid, a, f) <==> Holds(st, sid, a, f) || (sid, a, f) == (c.sessionId, c.endpointId, ft)
  {
  }

  /** A nomination keeps agreement exactly when no other endpoint has a transport with its four-tuple. */
  lemma NominationKeepsAgreementIff(st: State, c: Candidate, ft: FourTuple, useCandidate: bool, now: int)
    requires Agreement(st)
    ensures Agreement(AfterNomination(st, c, ft, useCandidate, now).0)
       <==> (useCandidate && c.sessionId in st.sessions ==> !HeldElsewhere(st, c.sessionId, c.endpointId, ft))
  {
    var st' := AfterNomination(st, c, ft, useCandidate, now).0;
    var sid, a := c.sessionId, c.endpointId;
    if useCandidate && sid in st.sessions {
      if HeldElsewhere(st, sid, a, ft) {
        var s: SessionId, b: EndpointId :| (s, b) != (sid, a) && Holds(st, s, b, ft);
        NominationHolds(st, c, ft, now, s, b, ft);
        NominationHolds(st, c, ft, now, sid, a, ft);
        assert Holds(st', s, b, ft) && Holds(st', sid, a, ft);
      } else {
        forall s: SessionId, b: EndpointId, f | Holds(st', s, b, f)
          ensures f in st'.index && st'.index[f] == (s, b)
        {
          NominationHolds(st, c, ft, now, s, b, f);
        }
      }
    }
  }

  /** The event does not nominate a four-tuple that another endpoint holds. */
  ghost predicate Exclusive(st: State, ev: Event) {
    ev.StunEvent? ==>
      match CheckStun(st, ev.request)
      case Ok(Some(c)) =>
        ev.request.useCandidate && c.sessionId in st.sessions ==>
          !HeldElsewhere(st, c.sessionId, c.endpointId, ev.ctx.Tuple())
      case _ => true
  }

  /** One step keeps agreement if and only if it is exclusive. */
  lemma StepKeepsAgreementIff(st: State, config: SdpConfig, ev: Event)
    requires TreeOk(st) && Agreement(st) && Enabled(st, config, ev)
    ensures Agreement(Next(st, config, ev)) <==> Exclusive(st, ev)
  {
    match ev
    case StunEvent(ctx, request, now) =>
      var c := CheckStun(st, request);
      if c.Ok? && c.value.Some? {
        NominationKeepsAgreementIff(st, c.value.value, ctx.Tuple(), request.useCandidate, now);
      }
    case SweepEvent(_, tuples) => RemovalsKeepAgreement(st, tuples);
    case AlertEvent(ft) => RemovalKeepsAgreement(st, ft);
    case _ =>
      MostStepsAreKin(st, config, ev);
      KinKeepsAgreement(st, Next(st, config, ev));
  }

  ghost predicate ExclusiveRun(st: State, config: SdpConfig, events: seq<Event>)
    requires IsRun(st, config, events)
    decreases |events|
  {
    events == [] || (Exclusive(st, events[0]) && ExclusiveRun(Next(st, config, events[0]), config, events[1..]))
  }

  /** On every exclusive run the index agrees with the tree, in spite of the stale entries. */
  lemma {:induction false} EveryExclusiveRunAgrees(st: State, config: SdpConfig, events: seq<Event>)
    requires TreeOk(st) && Agreement(st) && IsRun(st, config, events) && ExclusiveRun(st, config, events)
    ensures TreeOk(After(st, config, events)) && Agreement(After(st, config, events))
    decreases |events|
  {
    if events != [] {
      StepKeepsTree(st, config, events[0]);
      StepKeepsAgreementIff(st, config, events[0]);
      EveryExclusiveRunAgrees(Next(st, config, events[0]), config, events[1..]);
    }
  }
}
