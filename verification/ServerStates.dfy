/**
 The server's sessions, its index from four-tuples to endpoints, and the candidates waiting to connect
 (src/server/states.rs).
 */
module ServerStates {
  import opened Types
  import opened Sdp
  import opened Endpoints
  import opened SdpGeneration
  import opened Sessions

  datatype State = State(
    sessions: map<SessionId, Session>,
    index: map<FourTuple, (SessionId, EndpointId)>,
    candidates: map<UserName, Candidate>)

  const INITIAL := State(map[], map[], map[])

  /** A parsed description, with the credentials found in it if there are any. */
  datatype ParsedSdp = ParsedSdp(sections: seq<RemoteMedia>, credentials: Result<Credentials>)

  /** A description as it arrives; parsing it may fail. */
  datatype SdpText = SdpText(sdpType: SdpType, parsed: Result<ParsedSdp>)

  // ------------------------------------------------------------------ offers and answers

  function WithSession(st: State, sid: SessionId): (r: State)
    ensures sid in r.sessions
  {
    if sid in st.sessions then st else st.(sessions := st.sessions[sid := Session(sid, map[])])
  }

  function PutSession(st: State, sid: SessionId, s: Session): State { st.(sessions := st.sessions[sid := s]) }

  /** An offer of an endpoint that is connected: its tracks are taken over and answered. */
  function AfterKnownOffer(s: Session, a: EndpointId, ft: Option<FourTuple>, d: RemoteDescription,
                           config: SdpConfig): (Session, Result<LocalDescription>)
    requires a in s.endpoints
  {
    RemoteGrows(s, a, d);
    var (s1, r) := AfterRemote(s, a, d);
    if r.Err? then (s1, Err(r.error))
    else if ft.None? then (s1, Err("missing FourTuple"))
    else if ft.value !in s1.endpoints[a].transports then (s1, Err("can't find transport for endpoint id"))
    else
      match AnswerFor(s1, a, d, s1.endpoints[a].transports[ft.value].candidate.localCredentials, config)
      case Err(e) => (s1, Err(e))
      case Ok(answer) =>
        var (s2, r2) := AfterLocal(s1, a, answer);
        (s2, if r2.Err? then Err(r2.error) else Ok(answer))
  }

  /** `credentials` are new random credentials, `expiry` the time from now at which the candidate expires. */
  datatype Minted = Minted(credentials: Credentials, expiry: int)

  function NewCandidate(sid: SessionId, a: EndpointId, remote: Credentials, d: RemoteDescription,
                        answer: LocalDescription, minted: Minted): Candidate {
    Candidate(sid, a, remote, minted.credentials, d, answer, minted.expiry)
  }

  function AfterOffer(st: State, config: SdpConfig, sid: SessionId, a: EndpointId, ft: Option<FourTuple>,
                      offer: SdpText, minted: Minted): (State, Result<LocalDescription>) {
    match offer.parsed
    case Err(e) => (st, Err(e))
    case Ok(parsed) =>
      if parsed.credentials.Err? then (st, Err(parsed.credentials.error))
      else
        var st1 := WithSession(st, sid);
        var s := st1.sessions[sid];
        var d := RemoteDescription(offer.sdpType, parsed.sections);
        if a in s.endpoints then
          var (s', r) := AfterKnownOffer(s, a, ft, d, config);
          (PutSession(st1, sid, s'), r)
        else
          match AnswerFor(s, a, d, minted.credentials, config)
          case Err(e) => (st1, Err(e))
          case Ok(answer) =>
            var c := NewCandidate(sid, a, parsed.credentials.value, d, answer, minted);
            (WithCandidate(st1, c), Ok(answer))
  }

  function WithCandidate(st: State, c: Candidate): State { st.(candidates := st.candidates[c.Username() := c]) }

  function AfterAnswer(st: State, sid: SessionId, a: EndpointId, answer: SdpText): (State, Result<()>) {
    match answer.parsed
    case Err(e) => (st, Err(e))
    case Ok(parsed) =>
      var st1 := WithSession(st, sid);
      var s := st1.sessions[sid];
      if a in s.endpoints then
        var (s', r) := AfterRemote(s, a, RemoteDescription(answer.sdpType, parsed.sections));
        (PutSession(st1, sid, s'), r)
      else (st1, Ok(()))
  }

  // ------------------------------------------------------------------ transports

  /** The endpoint that the index names for a four-tuple, as far as it is there. */
  function FindEndpoint(st: State, ft: FourTuple): Result<(SessionId, EndpointId)> {
    if ft !in st.index then Err("can't find endpoint with four_tuple")
    else
      var (sid, a) := st.index[ft];
      if sid !in st.sessions then Err("can't find session id")
      else if a !in st.sessions[sid].endpoints then Err("can't find endpoint id")
      else Ok((sid, a))
  }

  function GetTransport(st: State, ft: FourTuple): Result<Transport> {
    match FindEndpoint(st, ft)
    case Err(e) => Err(e)
    case Ok((sid, a)) =>
      var e := st.sessions[sid].endpoints[a];
      if ft in e.transports then Ok(e.transports[ft]) else Err("can't find transport with four_tuple")
  }

  function PutEndpoint(st: State, sid: SessionId, a: EndpointId, e: Endpoint): State
    requires sid in st.sessions
  {
    PutSession(st, sid, st.sessions[sid].(endpoints := st.sessions[sid].endpoints[a := e]))
  }

  /** Replaces the transport that `GetTransport` finds. */
  function PutTransport(st: State, ft: FourTuple, t: Transport): State
    requires FindEndpoint(st, ft).Ok?
  {
    var (sid, a) := FindEndpoint(st, ft).value;
    var e := st.sessions[sid].endpoints[a];
    PutEndpoint(st, sid, a, e.(transports := e.transports[ft := t]))
  }

  /** Dropping the last transport drops the endpoint, dropping the last endpoint drops the session. */
  function WithoutEndpoint(st: State, sid: SessionId, a: EndpointId): State
    requires sid in st.sessions
  {
    var endpoints := st.sessions[sid].endpoints - {a};
    if endpoints == map[] then st.(sessions := st.sessions - {sid})
    else PutSession(st, sid, st.sessions[sid].(endpoints := endpoints))
  }

  function AfterRemoval(st: State, ft: FourTuple): State {
    match FindEndpoint(st, ft)
    case Err(_) => st
    case Ok((sid, a)) =>
      var e := st.sessions[sid].endpoints[a];
      var transports := e.transports - {ft};
      var st1 := if transports == map[] then WithoutEndpoint(st, sid, a).(index := st.index - {ft})
                 else PutEndpoint(st, sid, a, e.(transports := transports));
      if ft in e.transports then st1.(candidates := st.candidates - {e.transports[ft].candidate.Username()}) else st1
  }

  /** A nominated pair is added to the candidate's endpoint and to the index, unless the endpoint has it already. */
  function AfterNomination(st: State, c: Candidate, ft: FourTuple, useCandidate: bool, now: int)
    : (State, Result<bool>)
  {
    var sid, a := c.sessionId, c.endpointId;
    if sid !in st.sessions then (st, Err("session not found"))
    else
      var s := st.sessions[sid];
      var isNew := a !in s.endpoints;
      if !useCandidate || (!isNew && ft in s.endpoints[a].transports) then (st, Ok(isNew))
      else (PutSession(st, sid, WithNominated(s, c, ft, now)).(index := st.index[ft := (sid, a)]), Ok(!isNew))
  }

  // ------------------------------------------------------------------ the object

  class Server {
    const config: SdpConfig
    var sessions: map<SessionId, Session>
    var index: map<FourTuple, (SessionId, EndpointId)>
    var candidates: map<UserName, Candidate>

    ghost function View(): State
      reads this
    {
      State(sessions, index, candidates)
    }

    constructor (config: SdpConfig)
      ensures View() == INITIAL
      ensures this.config == config
    {
      this.config := config;
      sessions, index, candidates := map[], map[], map[];
    }

    method CreateOrGetSession(sid: SessionId) returns (s: Session)
      modifies `sessions
      ensures View() == WithSession(old(View()), sid)
      ensures s == sessions[sid]
    {
      if sid !in sessions {
        sessions := sessions[sid := Session(sid, map[])];
      }
      s := sessions[sid];
    }

    method AcceptKnownOffer(s: Session, a: EndpointId, ft: Option<FourTuple>, d: RemoteDescription)
      returns (s': Session, r: Result<LocalDescription>)
      requires a in s.endpoints
      ensures (s', r) == AfterKnownOffer(s, a, ft, d, config)
    {
      RemoteGrows(s, a, d);
      var applied;
      s', applied := SetRemoteDescription(s, a, d);
      if applied.Err? {
        r := Err(applied.error);
        return;
      }
      if ft.None? {
        r := Err("missing FourTuple");
        return;
      }
      var e := s'.endpoints[a];
      if ft.value !in e.transports {
        r := Err("can't find transport for endpoint id");
        return;
      }
      var credentials := e.transports[ft.value].candidate.localCredentials;
      var answer := GenerateMatchedSdp(s', a, d, false, SdpContext("passive", credentials, config));
      if answer.Err? {
        r := answer;
        return;
      }
      var local;
      s', local := SetLocalDescription(s', a, answer.value);
      r := if local.Err? then Err(local.error) else answer;
    }

    method AcceptOffer(sid: SessionId, a: EndpointId, ft: Option<FourTuple>, offer: SdpText, minted: Minted)
      returns (r: Result<LocalDescription>)
      modifies this
      ensures (View(), r) == AfterOffer(old(View()), config, sid, a, ft, offer, minted)
    {
      if offer.parsed.Err? {
        return Err(offer.parsed.error);
      }
      var parsed := offer.parsed.value;
      if parsed.credentials.Err? {
        return Err(parsed.credentials.error);
      }
      var d := RemoteDescription(offer.sdpType, parsed.sections);
      var s := CreateOrGetSession(sid);
      if a in s.endpoints {
        var s';
        s', r := AcceptKnownOffer(s, a, ft, d);
        sessions := sessions[sid := s'];
      } else {
        r := GenerateMatchedSdp(s, a, d, false, SdpContext("passive", minted.credentials, config));
        if r.Ok? {
          AddCandidate(NewCandidate(sid, a, parsed.credentials.value, d, r.value, minted));
        }
      }
    }

    method AddCandidate(c: Candidate)
      modifies `candidates
      ensures View() == WithCandidate(old(View()), c)
    {
      candidates := candidates[c.Username() := c];
    }

    method AcceptAnswer(sid: SessionId, a: EndpointId, answer: SdpText) returns (r: Result<()>)
      modifies this
      ensures (View(), r) == AfterAnswer(old(View()), sid, a, answer)
    {
      if answer.parsed.Err? {
        return Err(answer.parsed.error);
      }
      var s := CreateOrGetSession(sid);
      r := Ok(());
      if a in s.endpoints {
        var s';
        s', r := SetRemoteDescription(s, a, RemoteDescription(answer.sdpType, answer.parsed.value.sections));
        sessions := sessions[sid := s'];
      }
    }

    method RemoveTransport(ft: FourTuple)
      modifies this
      ensures View() == AfterRemoval(old(View()), ft)
    {
      if ft !in index {
        return;
      }
      var (sid, a) := index[ft];
      if sid !in sessions || a !in sessions[sid].endpoints {
        return;
      }
      var s := sessions[sid];
      var e := s.endpoints[a];
      var transports := e.transports - {ft};
      if transports == map[] {
        var endpoints := s.endpoints - {a};
        if endpoints == map[] {
          sessions := sessions - {sid};
        } else {
          sessions := sessions[sid := s.(endpoints := endpoints)];
        }
        index := index - {ft};
      } else {
        sessions := sessions[sid := s.(endpoints := s.endpoints[a := e.(transports := transports)])];
      }
      if ft in e.transports {
        candidates := candidates - {e.transports[ft].candidate.Username()};
      }
    }

    method AddEndpoint(c: Candidate, ft: FourTuple, useCandidate: bool, now: int) returns (r: Result<bool>)
      modifies this
      ensures (View(), r) == AfterNomination(old(View()), c, ft, useCandidate, now)
    {
      var sid, a := c.sessionId, c.endpointId;
      if sid !in sessions {
        return Err("session not found");
      }
      var s := sessions[sid];
      var isNew := a !in s.endpoints;
      var hasTransport := !isNew && ft in s.endpoints[a].transports;
      if !useCandidate || hasTransport {
        return Ok(isNew);
      }
      var transport := NewTransport(ft, c, now);
      if isNew {
        s := s.(endpoints := s.endpoints[a := NewEndpoint(c, ft, now)]);
      } else {
        var e := s.endpoints[a];
        s := s.(endpoints := s.endpoints[a := e.(transports := e.transports[ft := transport])]);
      }
      sessions := sessions[sid := s];
      index := index[ft := (sid, a)];
      return Ok(!isNew);
    }
  }
}
