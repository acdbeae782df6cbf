/**
 What is left of the tree when transports are removed, in whatever order (src/handlers/gateway.rs,
 src/server/states.rs).
 */
module IdleSweep {
  import opened Types
  import opened Endpoints
  import opened ServerStates
  import opened Gateway
  import opened Runs
  import opened IndexAgreement

  // ------------------------------------------------------------------ the tree without some transports

  function KeptEndpoints(s: Session, gone: set<FourTuple>): map<EndpointId, Endpoint> {
    map a | a in s.endpoints && s.endpoints[a].transports - gone != map[] ::
      s.endpoints[a].(transports := s.endpoints[a].transports - gone)
  }

  function Kept(s: Session, gone: set<FourTuple>): Session { s.(endpoints := KeptEndpoints(s, gone)) }

  /** Endpoints left without transports go, and so do sessions that lose their last endpoint. */
  function KeptSessions(sessions: map<SessionId, Session>, gone: set<FourTuple>): map<SessionId, Session> {
    map sid | sid in sessions && (sessions[sid].endpoints == map[] || KeptEndpoints(sessions[sid], gone) != map[]) ::
      Kept(sessions[sid], gone)
  }

  ghost predicate SameAt<K, V>(m: map<K, V>, n: map<K, V>, k: K) {
    (k in m <==> k in n) && (k in m ==> m[k] == n[k])
  }

  lemma SameEverywhere<V>(m: map<nat, V>, n: map<nat, V>)
    requires forall k: nat :: SameAt(m, n, k)
    ensures m == n
  {
    assert forall k :: k in m ==> SameAt(m, n, k);
    assert forall k :: k in n ==> SameAt(m, n, k);
  }

  lemma KeptTwice(s: Session, first: set<FourTuple>, second: set<FourTuple>)
    ensures Kept(Kept(s, first), second) == Kept(s, first + second)
  {
    var once, twice, joint := KeptEndpoints(s, first), KeptEndpoints(Kept(s, first), second),
        KeptEndpoints(s, first + second);
    forall a | a in s.endpoints
      ensures a in twice <==> a in joint
      ensures a in twice ==> twice[a] == joint[a]
    {
      var t := s.endpoints[a].transports;
      assert (t - first) - second == t - (first + second);
      assert t - first == map[] ==> t - (first + second) == map[];
    }
    assert twice == joint;
  }

  lemma KeptSessionsTwice(sessions: map<SessionId, Session>, first: set<FourTuple>, second: set<FourTuple>)
    ensures KeptSessions(KeptSessions(sessions, first), second) == KeptSessions(sessions, first + second)
  {
    var twice, joint := KeptSessions(KeptSessions(sessions, first), second), KeptSessions(sessions, first + second);
    forall sid | sid in sessions
      ensures sid in twice <==> sid in joint
      ensures sid in twice ==> twice[sid] == joint[sid]
    {
      KeptTwice(sessions[sid], first, second);
      var once := KeptEndpoints(sessions[sid], first);
      assert KeptEndpoints(Kept(sessions[sid], first), second) == KeptEndpoints(sessions[sid], first + second);
      if once == map[] {
        assert KeptEndpoints(sessions[sid], first + second) == map[];
      }
    }
    assert twice == joint;
  }

  lemma NothingGone(sid: SessionId, s: Session, gone: set<FourTuple>)
    requires SessionOk(sid, s)
    requires forall a, ft :: a in s.endpoints && ft in s.endpoints[a].transports ==> ft !in gone
    ensures Kept(s, gone) == s
  {
    forall a | a in s.endpoints
      ensures s.endpoints[a].transports - gone == s.endpoints[a].transports
      ensures s.endpoints[a].transports != map[]
    {
      assert EndpointOk(sid, a, s.endpoints[a]);
    }
    assert KeptEndpoints(s, gone) == s.endpoints;
  }

  lemma SessionUntouched(st: State, sid: SessionId, gone: set<FourTuple>)
    requires TreeOk(st) && sid in st.sessions
    requires forall a: EndpointId, ft :: Holds(st, sid, a, ft) ==> ft !in gone
    ensures Kept(st.sessions[sid], gone) == st.sessions[sid]
    ensures st.sessions[sid].endpoints == map[] || KeptEndpoints(st.sessions[sid], gone) != map[]
  {
    assert SessionOk(sid, st.sessions[sid]);
    forall a, ft | a in st.sessions[sid].endpoints && ft in st.sessions[sid].endpoints[a].transports
      ensures ft !in gone
    {
      assert Holds(st, sid, a, ft);
    }
    NothingGone(sid, st.sessions[sid], gone);
  }

  lemma TreeUntouched(st: State, gone: set<FourTuple>)
    requires TreeOk(st)
    requires forall sid: SessionId, a: EndpointId, ft :: Holds(st, sid, a, ft) ==> ft !in gone
    ensures KeptSessions(st.sessions, gone) == st.sessions
  {
    forall sid | sid in st.sessions
      ensures Kept(st.sessions[sid], gone) == st.sessions[sid]
      ensures st.sessions[sid].endpoints == map[] || KeptEndpoints(st.sessions[sid], gone) != map[]
    {
      SessionUntouched(st, sid, gone);
    }
  }

  // ------------------------------------------------------------------ one removal

  /** Nobody holds the four-tuple: the tree stays as it is. */
  lemma RemovalOfNone(st: State, ft: FourTuple)
    requires TreeOk(st) && GetTransport(st, ft).Err?
    ensures AfterRemoval(st, ft) == st
  {
    if FindEndpoint(st, ft).Ok? {
      var (sid, a) := FindEndpoint(st, ft).value;
      var e := st.sessions[sid].endpoints[a];
      assert EndpointOk(sid, a, e) by {
        assert SessionOk(sid, st.sessions[sid]);
      }
      assert e.transports - {ft} == e.transports;
      assert st.sessions[sid].endpoints[a := e] == st.sessions[sid].endpoints;
      assert st.sessions[sid := st.sessions[sid]] == st.sessions;
    }
  }

  /** The endpoints without one transport of endpoint `a`. */
  function WithoutTransport(s: Session, a: EndpointId, ft: FourTuple): map<EndpointId, Endpoint>
    requires a in s.endpoints
  {
    var e := s.endpoints[a];
    if e.transports - {ft} == map[] then s.endpoints - {a}
    else s.endpoints[a := e.(transports := e.transports - {ft})]
  }

  lemma KeptOther(sid: SessionId, s: Session, b: EndpointId, ft: FourTuple)
    requires SessionOk(sid, s) && b in s.endpoints && ft !in s.endpoints[b].transports
    ensures b in KeptEndpoints(s, {ft}) && KeptEndpoints(s, {ft})[b] == s.endpoints[b]
  {
    assert EndpointOk(sid, b, s.endpoints[b]);
    assert s.endpoints[b].transports - {ft} == s.endpoints[b].transports;
  }

  lemma KeptAt(sid: SessionId, s: Session, a: EndpointId, ft: FourTuple, b: EndpointId)
    requires SessionOk(sid, s) && a in s.endpoints
    requires b in s.endpoints && b != a ==> ft !in s.endpoints[b].transports
    ensures SameAt(KeptEndpoints(s, {ft}), WithoutTransport(s, a, ft), b)
  {
    if b in s.endpoints && b != a {
      KeptOther(sid, s, b, ft);
    }
  }

  lemma KeptInSession(sid: SessionId, s: Session, a: EndpointId, ft: FourTuple)
    requires SessionOk(sid, s) && a in s.endpoints
    requires forall b :: b in s.endpoints && b != a ==> ft !in s.endpoints[b].transports
    ensures KeptEndpoints(s, {ft}) == WithoutTransport(s, a, ft)
  {
    forall b: EndpointId
      ensures SameAt(KeptEndpoints(s, {ft}), WithoutTransport(s, a, ft), b)
    {
      KeptAt(sid, s, a, ft, b);
    }
    SameEverywhere(KeptEndpoints(s, {ft}), WithoutTransport(s, a, ft));
  }

  lemma RemovalInSession(st: State, ft: FourTuple)
    requires TreeOk(st) && Agreement(st) && GetTransport(st, ft).Ok?
    ensures var (sid, a) := st.index[ft];
      var endpoints := KeptEndpoints(st.sessions[sid], {ft});
      AfterRemoval(st, ft).sessions == if endpoints == map[] then st.sessions - {sid}
                                       else st.sessions[sid := Kept(st.sessions[sid], {ft})]
  {
    var (sid, a) := st.index[ft];
    var s := st.sessions[sid];
    assert Holds(st, sid, a, ft) && SessionOk(sid, s);
    forall b | b in s.endpoints && b != a
      ensures ft !in s.endpoints[b].transports
    {
      assert !Holds(st, sid, b, ft);
    }
    KeptInSession(sid, s, a, ft);
    if s.endpoints[a].transports - {ft} != map[] {
      assert a in WithoutTransport(s, a, ft);
    }
  }

  /** Somebody holds it: exactly that transport goes. */
  lemma RemovalOfOne(st: State, ft: FourTuple)
    requires TreeOk(st) && Agreement(st) && GetTransport(st, ft).Ok?
    ensures AfterRemoval(st, ft).sessions == KeptSessions(st.sessions, {ft})
  {
    var (sid, a) := st.index[ft];
    RemovalInSession(st, ft);
    assert Holds(st, sid, a, ft);
    forall other: SessionId
      ensures SameAt(AfterRemoval(st, ft).sessions, KeptSessions(st.sessions, {ft}), other)
    {
      if other in st.sessions && other != sid {
        OtherSessionKept(st, sid, a, ft, other);
      }
    }
    SameEverywhere(AfterRemoval(st, ft).sessions, KeptSessions(st.sessions, {ft}));
  }

  lemma OtherSessionKept(st: State, sid: SessionId, a: EndpointId, ft: FourTuple, other: SessionId)
    requires TreeOk(st) && Agreement(st) && Holds(st, sid, a, ft) && other in st.sessions && other != sid
    ensures other in KeptSessions(st.sessions, {ft}) && KeptSessions(st.sessions, {ft})[other] == st.sessions[other]
  {
    SessionUntouched(st, other, {ft});
  }

  lemma RemovalIsExact(st: State, ft: FourTuple)
    requires TreeOk(st) && Agreement(st)
    ensures AfterRemoval(st, ft).sessions == KeptSessions(st.sessions, {ft})
  {
    if GetTransport(st, ft).Ok? {
      RemovalOfOne(st, ft);
    } else {
      RemovalOfNone(st, ft);
      LookupIsTreeSearch(st, ft);
      TreeUntouched(st, {ft});
    }
  }

  // ------------------------------------------------------------------ any number of removals

  function Elements(tuples: seq<FourTuple>): set<FourTuple> { set ft | ft in tuples }

  /** Whatever the order, and even with repetitions, the tree ends up without the given transports. */
  lemma {:induction false} RemovalsAreExact(st: State, tuples: seq<FourTuple>)
    requires TreeOk(st) && Agreement(st)
    ensures AfterRemovals(st, tuples).sessions == KeptSessions(st.sessions, Elements(tuples))
    decreases |tuples|
  {
    if tuples == [] {
      assert Elements(tuples) == {};
      TreeUntouched(st, {});
    } else {
      var ft, rest := tuples[0], tuples[1..];
      RemovalIsExact(st, ft);
      RemovalKeepsTree(st, ft);
      RemovalKeepsAgreement(st, ft);
      RemovalsAreExact(AfterRemoval(st, ft), rest);
      KeptSessionsTwice(st.sessions, {ft}, Elements(rest));
      assert Elements(tuples) == {ft} + Elements(rest);
    }
  }

  lemma KeptHolds(st: State, gone: set<FourTuple>, sid: SessionId, a: EndpointId, ft: FourTuple)
    ensures Holds(st.(sessions := KeptSessions(st.sessions, gone)), sid, a, ft)
            <==> Holds(st, sid, a, ft) && ft !in gone
  {
    if Holds(st, sid, a, ft) && ft !in gone {
      var s := st.sessions[sid];
      assert ft in s.endpoints[a].transports - gone;
      assert a in KeptEndpoints(s, gone);
    }
  }

  // ------------------------------------------------------------------ candidates

  /** The user names of the held transports among `gone`. */
  ghost function UserNames(st: State, gone: set<FourTuple>): set<UserName> {
    set ft | ft in gone && GetTransport(st, ft).Ok? :: GetTransport(st, ft).value.candidate.Username()
  }

  /** With each transport goes the candidate it was made from, and no other. */
  lemma {:induction false} RemovalsDropCandidates(st: State, tuples: seq<FourTuple>)
    requires TreeOk(st) && Agreement(st)
    ensures AfterRemovals(st, tuples).candidates == st.candidates - UserNames(st, Elements(tuples))
    decreases |tuples|
  {
    if tuples == [] {
      assert UserNames(st, Elements(tuples)) == {};
    } else {
      var ft, rest := tuples[0], tuples[1..];
      var st1 := AfterRemoval(st, ft);
      RemovalKeepsTree(st, ft);
      RemovalKeepsAgreement(st, ft);
      RemovalsDropCandidates(st1, rest);
      RemovedUserName(st, ft, Elements(rest));
      assert Elements(tuples) == {ft} + Elements(rest);
    }
  }

  lemma OwnCandidateDropped(st: State, ft: FourTuple)
    ensures AfterRemoval(st, ft).candidates == st.candidates - UserNames(st, {ft})
  {
    if GetTransport(st, ft).Ok? {
      assert UserNames(st, {ft}) == {GetTransport(st, ft).value.candidate.Username()};
    } else {
      assert UserNames(st, {ft}) == {};
    }
  }

  lemma UserNamesSplit(st: State, ft: FourTuple, rest: set<FourTuple>)
    requires TreeOk(st) && Agreement(st)
    ensures UserNames(st, {ft} + rest) == UserNames(st, {ft}) + UserNames(AfterRemoval(st, ft), rest)
  {
    var st1 := AfterRemoval(st, ft);
    forall u | u in UserNames(st, {ft} + rest)
      ensures u in UserNames(st, {ft}) + UserNames(st1, rest)
    {
      var f :| f in {ft} + rest && GetTransport(st, f).Ok? && GetTransport(st, f).value.candidate.Username() == u;
      if f != ft {
        OtherLookupStays(st, ft, f);
      }
    }
    forall u | u in UserNames(st1, rest)
      ensures u in UserNames(st, {ft} + rest)
    {
      var f :| f in rest && GetTransport(st1, f).Ok? && GetTransport(st1, f).value.candidate.Username() == u;
      if f == ft {
        RemovalKeepsAgreement(st, ft);
        LookupIsTreeSearch(st1, ft);
        RemovedIsGone(st, ft);
        assert false;
      }
      OtherLookupStays(st, ft, f);
    }
    forall u | u in UserNames(st, {ft})
      ensures u in UserNames(st, {ft} + rest)
    {
      var f :| f in {ft} && GetTransport(st, f).Ok? && GetTransport(st, f).value.candidate.Username() == u;
      assert f in {ft} + rest;
    }
  }

  lemma RemovedUserName(st: State, ft: FourTuple, rest: set<FourTuple>)
    requires TreeOk(st) && Agreement(st)
    ensures AfterRemoval(st, ft).candidates - UserNames(AfterRemoval(st, ft), rest)
         == st.candidates - UserNames(st, {ft} + rest)
  {
    OwnCandidateDropped(st, ft);
    UserNamesSplit(st, ft, rest);
  }

  lemma RemovedIsGone(st: State, ft: FourTuple)
    requires TreeOk(st) && Agreement(st)
    ensures !exists sid: SessionId, a: EndpointId :: Holds(AfterRemoval(st, ft), sid, a, ft)
  {
    RemovalIsExact(st, ft);
    forall sid: SessionId, a: EndpointId
      ensures !Holds(AfterRemoval(st, ft), sid, a, ft)
    {
      KeptHolds(st, {ft}, sid, a, ft);
    }
  }

  /** Who holds another four-tuple, and what, stays. */
  lemma OtherHoldsStay(st: State, ft: FourTuple, f: FourTuple, sid: SessionId, a: EndpointId)
    requires TreeOk(st) && Agreement(st) && f != ft
    ensures Holds(AfterRemoval(st, ft), sid, a, f) <==> Holds(st, sid, a, f)
    ensures Holds(st, sid, a, f) ==> TransportAt(AfterRemoval(st, ft), sid, a, f) == TransportAt(st, sid, a, f)
  {
    RemovalIsExact(st, ft);
    KeptHolds(st, {ft}, sid, a, f);
  }

  lemma OtherLookupStays(st: State, ft: FourTuple, f: FourTuple)
    requires TreeOk(st) && Agreement(st) && f != ft
    ensures GetTransport(AfterRemoval(st, ft), f).Ok? <==> GetTransport(st, f).Ok?
    ensures GetTransport(st, f).Ok? ==> GetTransport(AfterRemoval(st, ft), f) == GetTransport(st, f)
  {
    RemovalKeepsAgreement(st, ft);
    LookupIsTreeSearch(st, f);
    LookupIsTreeSearch(AfterRemoval(st, ft), f);
    if GetTransport(st, f).Ok? {
      var sid: SessionId, a: EndpointId :| Holds(st, sid, a, f);
      OtherHoldsStay(st, ft, f, sid, a);
    } else if GetTransport(AfterRemoval(st, ft), f).Ok? {
      var sid: SessionId, a: EndpointId :| Holds(AfterRemoval(st, ft), sid, a, f);
      OtherHoldsStay(st, ft, f, sid, a);
    }
  }

  // ------------------------------------------------------------------ the index

  /** The four-tuple is held, and with its removal, the first at all, its endpoint has lost every transport. */
  ghost predicate TakesLast(st: State, tuples: seq<FourTuple>, k: int) {
    && 0 <= k < |tuples| && GetTransport(st, tuples[k]).Ok? && tuples[k] !in tuples[..k]
    && var (sid, a) := st.index[tuples[k]];
    st.sessions[sid].endpoints[a].transports.Keys <= Elements(tuples[..k + 1])
  }

  ghost function LastTaken(st: State, tuples: seq<FourTuple>): set<FourTuple> {
    set k | 0 <= k < |tuples| && TakesLast(st, tuples, k) :: tuples[k]
  }

  lemma FirstTakesLast(st: State, tuples: seq<FourTuple>)
    requires TreeOk(st) && Agreement(st) && tuples != []
    ensures AfterRemoval(st, tuples[0]).index == st.index - if TakesLast(st, tuples, 0) then {tuples[0]} else {}
  {
    var ft := tuples[0];
    assert Elements(tuples[..1]) == {ft};
    if GetTransport(st, ft).Ok? {
      var (sid, a) := st.index[ft];
      var transports := st.sessions[sid].endpoints[a].transports;
      assert transports.Keys <= {ft} <==> transports - {ft} == map[] by {
        if transports - {ft} == map[] {
          forall g | g in transports.Keys
            ensures g == ft
          {
            assert g !in transports - {ft};
          }
        }
      }
    } else {
      RemovalOfNone(st, ft);
    }
  }

  lemma TransportsLeft(st: State, ft: FourTuple, f: FourTuple)
    requires TreeOk(st) && Agreement(st) && f != ft && GetTransport(st, f).Ok?
    ensures GetTransport(AfterRemoval(st, ft), f).Ok? && AfterRemoval(st, ft).index[f] == st.index[f]
    ensures var (sid, a) := st.index[f];
      AfterRemoval(st, ft).sessions[sid].endpoints[a].transports.Keys
      == st.sessions[sid].endpoints[a].transports.Keys - {ft}
  {
    var st1 := AfterRemoval(st, ft);
    var (sid, a) := st.index[f];
    RemovalIsExact(st, ft);
    OtherLookupStays(st, ft, f);
    assert Holds(st, sid, a, f);
    KeptHolds(st, {ft}, sid, a, f);
    assert Holds(st1, sid, a, f);
    RemovalKeepsAgreement(st, ft);
  }

  lemma LaterTakesLast(st: State, tuples: seq<FourTuple>, k: nat)
    requires TreeOk(st) && Agreement(st) && 0 < k < |tuples|
    ensures TakesLast(AfterRemoval(st, tuples[0]), tuples[1..], k - 1) <==> TakesLast(st, tuples, k)
  {
    var ft, rest, f := tuples[0], tuples[1..], tuples[k];
    var st1 := AfterRemoval(st, ft);
    assert rest[k - 1] == f && tuples[..k] == [ft] + rest[..k - 1] && tuples[..k + 1] == [ft] + rest[..k];
    if f == ft {
      RemovalKeepsAgreement(st, ft);
      LookupIsTreeSearch(st1, ft);
      RemovedIsGone(st, ft);
    } else {
      OtherLookupStays(st, ft, f);
      if GetTransport(st, f).Ok? {
        TransportsLeft(st, ft, f);
        assert Elements(tuples[..k + 1]) == {ft} + Elements(rest[..k]);
      }
    }
  }

  lemma LastTakenSplit(st: State, tuples: seq<FourTuple>)
    requires TreeOk(st) && Agreement(st) && tuples != []
    ensures LastTaken(st, tuples) == (if TakesLast(st, tuples, 0) then {tuples[0]} else {})
                                   + LastTaken(AfterRemoval(st, tuples[0]), tuples[1..])
  {
    var st1, rest := AfterRemoval(st, tuples[0]), tuples[1..];
    forall ft | ft in LastTaken(st, tuples)
      ensures ft in (if TakesLast(st, tuples, 0) then {tuples[0]} else {}) + LastTaken(st1, rest)
    {
      var k :| 0 <= k < |tuples| && TakesLast(st, tuples, k) && tuples[k] == ft;
      if k > 0 {
        LaterTakesLast(st, tuples, k);
        assert rest[k - 1] == ft;
      }
    }
    forall ft | ft in LastTaken(st1, rest)
      ensures ft in LastTaken(st, tuples)
    {
      var k :| 0 <= k < |rest| && TakesLast(st1, rest, k) && rest[k] == ft;
      LaterTakesLast(st, tuples, k + 1);
      assert tuples[k + 1] == ft;
    }
  }

  /** Of an endpoint that loses all its transports, only the entry of the one removed last leaves the index. */
  lemma {:induction false} RemovalsLeaveIndex(st: State, tuples: seq<FourTuple>)
    requires TreeOk(st) && Agreement(st)
    ensures AfterRemovals(st, tuples).index == st.index - LastTaken(st, tuples)
    decreases |tuples|
  {
    if tuples != [] {
      RemovalKeepsTree(st, tuples[0]);
      RemovalKeepsAgreement(st, tuples[0]);
      RemovalsLeaveIndex(AfterRemoval(st, tuples[0]), tuples[1..]);
      FirstTakesLast(st, tuples);
      LastTakenSplit(st, tuples);
    }
  }

  lemma {:induction false} LastOf(keys: set<FourTuple>, tuples: seq<FourTuple>) returns (k: nat)
    requires keys != {} && keys <= Elements(tuples)
    ensures k < |tuples| && tuples[k] in keys && tuples[k] !in tuples[..k] && keys <= Elements(tuples[..k + 1])
  {
    var n := |tuples| - 1;
    assert tuples != [] by {
      var ft := Element(keys);
      assert ft in tuples;
    }
    if keys <= Elements(tuples[..n]) {
      k := LastOf(keys, tuples[..n]);
      assert tuples[..n][..k] == tuples[..k] && tuples[..n][..k + 1] == tuples[..k + 1];
    } else {
      k := n;
      assert tuples[..n + 1] == tuples;
      var ft :| ft in keys && ft !in tuples[..n];
      assert ft == tuples[n];
    }
  }

  /** An endpoint loses all its transports exactly if one of the removals takes its last one. */
  lemma EmptiedIffLastTaken(st: State, tuples: seq<FourTuple>, sid: SessionId, a: EndpointId)
    requires TreeOk(st) && Agreement(st) && sid in st.sessions && a in st.sessions[sid].endpoints
    ensures st.sessions[sid].endpoints[a].transports.Keys <= Elements(tuples)
       <==> exists k :: TakesLast(st, tuples, k) && st.index[tuples[k]] == (sid, a)
  {
    var keys := st.sessions[sid].endpoints[a].transports.Keys;
    if keys <= Elements(tuples) {
      assert EndpointOk(sid, a, st.sessions[sid].endpoints[a]) by {
        assert SessionOk(sid, st.sessions[sid]);
      }
      var k := LastOf(keys, tuples);
      assert Holds(st, sid, a, tuples[k]);
      assert TakesLast(st, tuples, k);
    }
    if k :| TakesLast(st, tuples, k) && st.index[tuples[k]] == (sid, a) {
      assert Elements(tuples[..k + 1]) <= Elements(tuples);
    }
  }

  /** No two removals take the last transport of one endpoint. */
  lemma LastIsTakenOnce(st: State, tuples: seq<FourTuple>, j: int, k: int)
    requires TakesLast(st, tuples, j) && TakesLast(st, tuples, k) && st.index[tuples[j]] == st.index[tuples[k]]
    ensures j == k
  {
    assert tuples[k] in Elements(tuples[..j + 1]) && tuples[j] in Elements(tuples[..k + 1]);
  }

  // ------------------------------------------------------------------ the sweep

  lemma IdleIffHeldIdle(st: State, cutoff: int, ft: FourTuple)
    requires TreeOk(st)
    ensures ft in Idle(st.sessions, cutoff) <==>
              exists sid: SessionId, a: EndpointId ::
                  Holds(st, sid, a, ft) && TransportAt(st, sid, a, ft).lastActivity <= cutoff
  {
    if ft in Idle(st.sessions, cutoff) {
      var sid :| sid in st.sessions && ft in IdleInSession(st.sessions[sid], cutoff);
      var a :| a in st.sessions[sid].endpoints && ft in IdleIn(st.sessions[sid].endpoints[a], cutoff);
      var e := st.sessions[sid].endpoints[a];
      var f :| f in e.transports && e.transports[f].lastActivity <= cutoff && e.transports[f].fourTuple == ft;
      assert SessionOk(sid, st.sessions[sid]) && EndpointOk(sid, a, e) && TransportOk(sid, a, f, e.transports[f]);
      assert Holds(st, sid, a, ft);
    }
    forall sid: SessionId, a: EndpointId | Holds(st, sid, a, ft) && TransportAt(st, sid, a, ft).lastActivity <= cutoff
      ensures ft in Idle(st.sessions, cutoff)
    {
      var e := st.sessions[sid].endpoints[a];
      assert SessionOk(sid, st.sessions[sid]) && EndpointOk(sid, a, e) && TransportOk(sid, a, ft, e.transports[ft]);
      assert ft in IdleIn(e, cutoff);
      assert ft in IdleInSession(st.sessions[sid], cutoff);
    }
  }

  /**
   A sweep leaves exactly the transports active after the cutoff, drops the endpoints and sessions it
   empties, and changes nothing else in the tree. Of each endpoint that goes, one entry leaves the index.
   */
  lemma SweepIsExact(st: State, cutoff: int, tuples: seq<FourTuple>)
    requires TreeOk(st) && Agreement(st)
    requires forall ft :: ft in tuples <==> ft in Idle(st.sessions, cutoff)
    ensures var st' := AfterRemovals(st, tuples);
      && st'.sessions == KeptSessions(st.sessions, Idle(st.sessions, cutoff))
      && st'.index == st.index - LastTaken(st, tuples)
      && st'.candidates == st.candidates - UserNames(st, Idle(st.sessions, cutoff))
      && Agreement(st') && TreeOk(st')
    ensures forall sid: SessionId, a: EndpointId, ft :: Holds(AfterRemovals(st, tuples), sid, a, ft) <==>
              Holds(st, sid, a, ft) && TransportAt(st, sid, a, ft).lastActivity > cutoff
  {
    var st', gone := AfterRemovals(st, tuples), Idle(st.sessions, cutoff);
    assert Elements(tuples) == gone;
    RemovalsAreExact(st, tuples);
    RemovalsLeaveIndex(st, tuples);
    RemovalsDropCandidates(st, tuples);
    RemovalsKeepAgreement(st, tuples);
    RemovalsKeepTree(st, tuples);
    forall sid: SessionId, a: EndpointId, ft
      ensures Holds(st', sid, a, ft) <==> Holds(st, sid, a, ft) && TransportAt(st, sid, a, ft).lastActivity > cutoff
    {
      KeptHolds(st, gone, sid, a, ft);
      IdleIffHeldIdle(st, cutoff, ft);
      LookupIsTreeSearch(st, ft);
    }
  }
}
