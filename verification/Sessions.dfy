/**
 Operations on one session: applying descriptions, mirroring tracks, adding endpoints (src/session/mod.rs,
 src/endpoint/mod.rs).
 */
module Sessions {
  import opened Types
  import opened Directions
  import opened Sdp
  import opened Endpoints
  import opened MirrorKeys
  import opened SdpGeneration

  // ------------------------------------------------------------------ publishing a track

  function WithTransceiver(e: Endpoint, t: Transceiver): Endpoint {
    e.(mids := e.mids + [t.mid], transceivers := e.transceivers[t.mid := t])
  }

  /** The offering endpoint's own transceiver: the server receives, unless the client only wants to receive. */
  function OwnTransceiver(mid: Mid, direction: Direction, kind: Kind, track: Track): Transceiver {
    var local := if direction == Recvonly then Sendonly else Recvonly;
    Transceiver(mid, track.sender, local, Unspecified, track.params, kind)
  }

  /** A peer follows the offered direction, and gets the track if it is offered sendonly. */
  function Mirrored(e: Endpoint, key: Mid, direction: Direction, kind: Kind, track: Track): Endpoint {
    if key in e.transceivers then
      if e.transceivers[key].direction != direction then
        e.(transceivers := e.transceivers[key := e.transceivers[key].(direction := direction)], renegotiate := true)
      else e
    else if direction == Sendonly then
      var t := Transceiver(key, track.sender, direction, Unspecified, track.params, kind);
      WithTransceiver(e, t).(renegotiate := true)
    else e
  }

  function Published(s: Session, a: EndpointId, mid: Mid, direction: Direction, kind: Kind, track: Track): Session
    requires a in s.endpoints
  {
    s.(endpoints := map e | e in s.endpoints ::
         if e == a then WithTransceiver(s.endpoints[a], OwnTransceiver(mid, direction, kind, track))
         else Mirrored(s.endpoints[e], MirrorKey(a, mid), direction, kind, track))
  }

  method PublishTrack(s: Session, a: EndpointId, mid: Mid, direction: Direction, kind: Kind, track: Track)
    returns (s': Session)
    requires a in s.endpoints
    ensures s' == Published(s, a, mid, direction, kind, track)
  {
    var endpoints := s.endpoints[a := WithTransceiver(s.endpoints[a], OwnTransceiver(mid, direction, kind, track))];
    var target := Published(s, a, mid, direction, kind, track).endpoints;
    var todo := endpoints.Keys;
    while todo != {}
      invariant todo <= s.endpoints.Keys
      invariant endpoints.Keys == s.endpoints.Keys
      invariant endpoints[a] == target[a]
      invariant forall e :: e in endpoints && e !in todo ==> endpoints[e] == target[e]
      invariant forall e :: e in todo && e != a ==> endpoints[e] == s.endpoints[e]
      decreases todo
    {
      var other :| other in todo;
      todo := todo - {other};
      if other != a {
        endpoints := endpoints[other := Mirrored(endpoints[other], MirrorKey(a, mid), direction, kind, track)];
      }
    }
    assert endpoints == target;
    s' := s.(endpoints := endpoints);
  }

  // ------------------------------------------------------------------ remote descriptions

  /** The section makes the endpoint hold a new transceiver. */
  predicate Creates(e: Endpoint, section: RemoteMedia) {
    && Negotiable(section.media)
    && MidOf(section.media).Some?
    && MidOf(section.media).value != ""
    && MidOf(section.media).value !in e.transceivers
    && section.track.Ok?
  }

  function AfterOfferedSection(s: Session, a: EndpointId, section: RemoteMedia): (Session, Result<()>)
    requires a in s.endpoints
  {
    var m := section.media;
    if Creates(s.endpoints[a], section) then
      (Published(s, a, MidOf(m).value, PeerDirection(m), KindOf(m.name), section.track.value), Ok(()))
    else if !Negotiable(m) || MidOf(m).None? then (s, Ok(()))
    else if MidOf(m).value == "" then (s, Err("ErrPeerConnRemoteDescriptionWithoutMidValue"))
    else if MidOf(m).value in s.endpoints[a].transceivers || section.track.Ok? then (s, Ok(()))
    else (s, Err(section.track.error))
  }

  function WithCurrentDirection(e: Endpoint, mid: Mid, d: Direction): Endpoint {
    if mid in e.transceivers then
      e.(transceivers := e.transceivers[mid := e.transceivers[mid].(currentDirection := d)])
    else e
  }

  function AfterAnsweredSection(s: Session, a: EndpointId, section: RemoteMedia): (Session, Result<()>)
    requires a in s.endpoints
  {
    var m := section.media;
    if !Negotiable(m) || MidOf(m).None? then (s, Ok(()))
    else if MidOf(m).value == "" then (s, Err("ErrPeerConnRemoteDescriptionWithoutMidValue"))
    else
      var e := WithCurrentDirection(s.endpoints[a], MidOf(m).value, PeerDirection(m).Reverse());
      (s.(endpoints := s.endpoints[a := e]), Ok(()))
  }

  function AfterSection(s: Session, a: EndpointId, answer: bool, section: RemoteMedia): (Session, Result<()>)
    requires a in s.endpoints
  {
    if answer then AfterAnsweredSection(s, a, section) else AfterOfferedSection(s, a, section)
  }

  lemma SectionKeepsKeys(s: Session, a: EndpointId, answer: bool, section: RemoteMedia)
    requires a in s.endpoints
    ensures AfterSection(s, a, answer, section).0.endpoints.Keys == s.endpoints.Keys
  {
  }

  /** Sections are applied one by one; the first that fails ends it, without taking anything back. */
  function AfterSections(s: Session, a: EndpointId, answer: bool, sections: seq<RemoteMedia>): (Session, Result<()>)
    requires a in s.endpoints
    decreases |sections|
  {
    if sections == [] then (s, Ok(()))
    else
      SectionKeepsKeys(s, a, answer, sections[0]);
      var (s', r) := AfterSection(s, a, answer, sections[0]);
      if r.Err? then (s', r) else AfterSections(s', a, answer, sections[1..])
  }

  function AfterRemote(s: Session, a: EndpointId, d: RemoteDescription): (Session, Result<()>) {
    if a !in s.endpoints then (s, Err("can't find endpoint id"))
    else AfterSections(s, a, d.sdpType == Answer, d.sections)
  }

  method ApplyRemoteSection(s: Session, a: EndpointId, answer: bool, section: RemoteMedia)
    returns (s': Session, r: Result<()>)
    requires a in s.endpoints
    ensures (s', r) == AfterSection(s, a, answer, section)
  {
    s', r := s, Ok(());
    var m := section.media;
    if m.name == APPLICATION {
      return;
    }
    var kind := KindOf(m.name);
    var direction := GetPeerDirection(m);
    if kind == UnknownKind || direction == Unspecified {
      return;
    }
    var mid := GetMidValue(m);
    if mid.None? {
      return;
    }
    if mid.value == "" {
      r := Err("ErrPeerConnRemoteDescriptionWithoutMidValue");
      return;
    }
    if !answer {
      if mid.value !in s.endpoints[a].transceivers {
        if section.track.Err? {
          r := Err(section.track.error);
          return;
        }
        s' := PublishTrack(s, a, mid.value, direction, kind, section.track.value);
      }
    } else {
      s' := s.(endpoints := s.endpoints[a := WithCurrentDirection(s.endpoints[a], mid.value, direction.Reverse())]);
    }
  }

  method SetRemoteDescription(s: Session, a: EndpointId, d: RemoteDescription) returns (s': Session, r: Result<()>)
    ensures (s', r) == AfterRemote(s, a, d)
  {
    s' := s;
    if a !in s.endpoints {
      r := Err("can't find endpoint id");
      return;
    }
    for k := 0 to |d.sections|
      invariant a in s'.endpoints
      invariant AfterRemote(s, a, d) == AfterSections(s', a, d.sdpType == Answer, d.sections[k..])
    {
      assert d.sections[k..][1..] == d.sections[k + 1..];
      SectionKeepsKeys(s', a, d.sdpType == Answer, d.sections[k]);
      s', r := ApplyRemoteSection(s', a, d.sdpType == Answer, d.sections[k]);
      if r.Err? {
        return;
      }
    }
    r := Ok(());
  }

  // ------------------------------------------------------------------ local descriptions

  /** Applying the server's own answer records the direction written for each transceiver. */
  function AfterLocalMedia(e: Endpoint, media: seq<Media>): (Endpoint, Result<()>)
    decreases |media|
  {
    if media == [] then (e, Ok(()))
    else
      var m := media[0];
      if !Negotiable(m) || MidOf(m).None? then AfterLocalMedia(e, media[1..])
      else if MidOf(m).value == "" then (e, Err("ErrPeerConnRemoteDescriptionWithoutMidValue"))
      else AfterLocalMedia(WithCurrentDirection(e, MidOf(m).value, PeerDirection(m)), media[1..])
  }

  function AfterLocal(s: Session, a: EndpointId, d: LocalDescription): (Session, Result<()>) {
    if a !in s.endpoints then (s, Err("can't find endpoint id"))
    else if d.sdpType != Answer then (s, Ok(()))
    else
      var (e, r) := AfterLocalMedia(s.endpoints[a], d.sdp.media);
      (s.(endpoints := s.endpoints[a := e]), r)
  }

  method SetLocalDescription(s: Session, a: EndpointId, d: LocalDescription) returns (s': Session, r: Result<()>)
    ensures (s', r) == AfterLocal(s, a, d)
  {
    s' := s;
    if a !in s.endpoints {
      r := Err("can't find endpoint id");
      return;
    }
    r := Ok(());
    if d.sdpType == Answer {
      var e := s.endpoints[a];
      for k := 0 to |d.sdp.media|
        invariant AfterLocalMedia(s.endpoints[a], d.sdp.media) == AfterLocalMedia(e, d.sdp.media[k..])
        invariant r == Ok(()) && s' == s
      {
        assert d.sdp.media[k..][1..] == d.sdp.media[k + 1..];
        var m := d.sdp.media[k];
        if m.name != APPLICATION {
          var direction := GetPeerDirection(m);
          if KindOf(m.name) != UnknownKind && direction != Unspecified {
            var mid := GetMidValue(m);
            if mid.Some? {
              if mid.value == "" {
                s' := s.(endpoints := s.endpoints[a := e]);
                r := Err("ErrPeerConnRemoteDescriptionWithoutMidValue");
                return;
              }
              e := WithCurrentDirection(e, mid.value, direction);
            }
          }
        }
      }
      s' := s.(endpoints := s.endpoints[a := e]);
    }
  }

  // ------------------------------------------------------------------ offers, answers, endpoints

  function MidsOf(s: Session, a: EndpointId): seq<Mid> {
    if a in s.endpoints then s.endpoints[a].mids else []
  }

  function TransceiversOf(s: Session, a: EndpointId): Transceivers {
    if a in s.endpoints then s.endpoints[a].transceivers else map[]
  }

  function Described(s: Session, a: EndpointId, remote: RemoteDescription, offering: bool,
                     ctx: SdpContext): Result<LocalDescription> {
    match Sections(MidsOf(s, a), TransceiversOf(s, a).Keys, remote.sections, offering)
    case Err(e) => Err(e)
    case Ok(sections) =>
      match Populated(sections, TransceiversOf(s, a), ctx)
      case Err(e) => Err(e)
      case Ok(sdp) => Ok(LocalDescription(if offering then Offer else Answer, sdp))
  }

  function OfferFor(s: Session, a: EndpointId, remote: RemoteDescription, cred: Credentials,
                    config: SdpConfig): Result<LocalDescription> {
    Described(s, a, remote, true, SdpContext("actpass", cred, config))
  }

  function AnswerFor(s: Session, a: EndpointId, remote: RemoteDescription, cred: Credentials,
                     config: SdpConfig): Result<LocalDescription> {
    Described(s, a, remote, false, SdpContext("passive", cred, config))
  }

  method GenerateMatchedSdp(s: Session, a: EndpointId, remote: RemoteDescription, offering: bool, ctx: SdpContext)
    returns (r: Result<LocalDescription>)
    ensures r == Described(s, a, remote, offering, ctx)
  {
    var mids, transceivers := [], map[];
    if a in s.endpoints {
      mids, transceivers := s.endpoints[a].mids, s.endpoints[a].transceivers;
    }
    var sections := GenerateSections(mids, transceivers, remote.sections, offering);
    if sections.Err? {
      return Err(sections.error);
    }
    var sdp := PopulateSdp(sections.value, transceivers, ctx);
    if sdp.Err? {
      return Err(sdp.error);
    }
    return Ok(LocalDescription(if offering then Offer else Answer, sdp.value));
  }

  function NewTransport(ft: FourTuple, candidate: Candidate, now: int): Transport {
    Transport(ft, now, candidate, None, false)
  }

  function NewEndpoint(candidate: Candidate, ft: FourTuple, now: int): Endpoint {
    Endpoint(candidate.endpointId, false, Some(candidate.remoteDescription), Some(candidate.localDescription),
             map[ft := NewTransport(ft, candidate, now)], [], map[])
  }

  /** A nominated pair joins the candidate's endpoint, which is created if it is not there. */
  function WithNominated(s: Session, candidate: Candidate, ft: FourTuple, now: int): Session {
    var a := candidate.endpointId;
    if a in s.endpoints then
      var e := s.endpoints[a];
      if ft in e.transports then s
      else s.(endpoints := s.endpoints[a := e.(transports := e.transports[ft := NewTransport(ft, candidate, now)])])
    else s.(endpoints := s.endpoints[a := NewEndpoint(candidate, ft, now)])
  }

  // ------------------------------------------------------------------ what negotiation keeps

  /** The mids name exactly the transceivers, and every transceiver knows its mid, direction and kind. */
  ghost predicate MidsOk(e: Endpoint) {
    && (forall m :: m in e.mids <==> m in e.transceivers)
    && forall m :: m in e.transceivers ==> TransceiverOk(m, e.transceivers[m])
  }

  predicate TransceiverOk(mid: Mid, t: Transceiver) {
    t.mid == mid && t.direction != Unspecified && t.kind != UnknownKind
  }

  /** Negotiation leaves an endpoint's identity and transports alone and only adds mids at the end. */
  ghost predicate Grows(e: Endpoint, e': Endpoint) {
    && e'.id == e.id
    && e'.transports == e.transports
    && e'.remote == e.remote
    && e'.local == e.local
    && e.mids <= e'.mids
    && e.transceivers.Keys <= e'.transceivers.Keys
    && (MidsOk(e) ==> MidsOk(e'))
  }

  ghost predicate SessionGrows(s: Session, s': Session) {
    && s'.id == s.id
    && s'.endpoints.Keys == s.endpoints.Keys
    && forall e :: e in s.endpoints ==> Grows(s.endpoints[e], s'.endpoints[e])
  }

  lemma WithTransceiverGrows(e: Endpoint, t: Transceiver)
    requires TransceiverOk(t.mid, t)
    ensures Grows(e, WithTransceiver(e, t))
  {
  }

  lemma MirroredGrows(e: Endpoint, key: Mid, direction: Direction, kind: Kind, track: Track)
    requires direction != Unspecified && kind != UnknownKind
    ensures Grows(e, Mirrored(e, key, direction, kind, track))
  {
    if key !in e.transceivers && direction == Sendonly {
      var t := Transceiver(key, track.sender, direction, Unspecified, track.params, kind);
      WithTransceiverGrows(e, t);
      var e' := WithTransceiver(e, t);
      assert MidsOk(e') ==> MidsOk(e'.(renegotiate := true));
    }
  }

  lemma PublishedGrows(s: Session, a: EndpointId, mid: Mid, direction: Direction, kind: Kind, track: Track)
    requires a in s.endpoints && direction != Unspecified && kind != UnknownKind
    ensures SessionGrows(s, Published(s, a, mid, direction, kind, track))
  {
    var s' := Published(s, a, mid, direction, kind, track);
    forall e | e in s.endpoints
      ensures Grows(s.endpoints[e], s'.endpoints[e])
    {
      if e == a {
        WithTransceiverGrows(s.endpoints[a], OwnTransceiver(mid, direction, kind, track));
      } else {
        MirroredGrows(s.endpoints[e], MirrorKey(a, mid), direction, kind, track);
      }
    }
  }

  lemma SessionGrowsTransitive(s: Session, t: Session, u: Session)
    requires SessionGrows(s, t) && SessionGrows(t, u)
    ensures SessionGrows(s, u)
  {
  }

  lemma CurrentDirectionGrows(e: Endpoint, mid: Mid, d: Direction)
    ensures Grows(e, WithCurrentDirection(e, mid, d))
  {
  }

  lemma SectionGrows(s: Session, a: EndpointId, answer: bool, section: RemoteMedia)
    requires a in s.endpoints
    ensures SessionGrows(s, AfterSection(s, a, answer, section).0)
  {
    var m := section.media;
    if answer && Negotiable(m) && MidOf(m).Some? {
      CurrentDirectionGrows(s.endpoints[a], MidOf(m).value, PeerDirection(m).Reverse());
    } else if !answer && Creates(s.endpoints[a], section) {
      PublishedGrows(s, a, MidOf(m).value, PeerDirection(m), KindOf(m.name), section.track.value);
    }
  }

  lemma {:induction false} SectionsGrow(s: Session, a: EndpointId, answer: bool, sections: seq<RemoteMedia>)
    requires a in s.endpoints
    ensures SessionGrows(s, AfterSections(s, a, answer, sections).0)
    decreases |sections|
  {
    if sections != [] {
      SectionGrows(s, a, answer, sections[0]);
      var (s', r) := AfterSection(s, a, answer, sections[0]);
      if r.Ok? {
        SectionsGrow(s', a, answer, sections[1..]);
        SessionGrowsTransitive(s, s', AfterSections(s', a, answer, sections[1..]).0);
      }
    }
  }

  /** Applying a remote description only lets endpoints grow. */
  lemma RemoteGrows(s: Session, a: EndpointId, d: RemoteDescription)
    ensures SessionGrows(s, AfterRemote(s, a, d).0)
  {
    if a in s.endpoints {
      SectionsGrow(s, a, d.sdpType == Answer, d.sections);
    }
  }

  lemma {:induction false} LocalMediaGrows(e: Endpoint, media: seq<Media>)
    ensures Grows(e, AfterLocalMedia(e, media).0)
    ensures AfterLocalMedia(e, media).0.transceivers.Keys == e.transceivers.Keys
    ensures AfterLocalMedia(e, media).0.renegotiate == e.renegotiate
    ensures AfterLocalMedia(e, media).0.mids == e.mids
    decreases |media|
  {
    if media != [] {
      var m := media[0];
      if !Negotiable(m) || MidOf(m).None? {
        LocalMediaGrows(e, media[1..]);
      } else if MidOf(m).value != "" {
        CurrentDirectionGrows(e, MidOf(m).value, PeerDirection(m));
        LocalMediaGrows(WithCurrentDirection(e, MidOf(m).value, PeerDirection(m)), media[1..]);
      }
    }
  }

  lemma LocalGrows(s: Session, a: EndpointId, d: LocalDescription)
    ensures SessionGrows(s, AfterLocal(s, a, d).0)
  {
    if a in s.endpoints {
      LocalMediaGrows(s.endpoints[a], d.sdp.media);
    }
  }
}
