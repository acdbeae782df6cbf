/**
 The tree of sessions, endpoints and transports (src/session/mod.rs, src/endpoint, src/description/rtp_transceiver.rs).

 Each level owns the one below it, so the tree is a value. Credentials are opaque.
 */
module Endpoints {
  import opened Types
  import opened Directions
  import opened Sdp
  import Codecs
  import HeaderExtensions

  datatype Sender = Sender(
    cname: string, streamId: string, trackId: string, ssrcs: seq<nat>, groups: seq<(string, seq<nat>)>)

  datatype RtpParameters = RtpParameters(
    headerExtensions: seq<HeaderExtensions.ExtensionParameters>, codecs: seq<Codecs.Codec>)

  /** What a remote media section says about its track. */
  datatype Track = Track(sender: Option<Sender>, params: RtpParameters)

  /** A remote media section; reading its sources, codecs or extensions may have failed. */
  datatype RemoteMedia = RemoteMedia(media: Media, track: Result<Track>)

  datatype RemoteDescription = RemoteDescription(sdpType: SdpType, sections: seq<RemoteMedia>)

  datatype SessionDescription = SessionDescription(media: seq<Media>, attributes: seq<Attribute>)

  datatype LocalDescription = LocalDescription(sdpType: SdpType, sdp: SessionDescription)

  datatype Credentials = Credentials(ufrag: string, password: string)

  datatype Candidate = Candidate(
    sessionId: SessionId, endpointId: EndpointId, remoteCredentials: Credentials, localCredentials: Credentials,
    remoteDescription: RemoteDescription, localDescription: LocalDescription, expiry: int)
  {
    function Username(): UserName { localCredentials.ufrag + ":" + remoteCredentials.ufrag }
  }

  datatype Transceiver = Transceiver(
    mid: Mid, sender: Option<Sender>, direction: Direction, currentDirection: Direction,
    params: RtpParameters, kind: Kind)

  /** `channel` is the association handle and stream id of the data channel, once it is open. */
  datatype Transport = Transport(
    fourTuple: FourTuple, lastActivity: int, candidate: Candidate, channel: Option<(nat, nat)>, srtpReady: bool)

  datatype Endpoint = Endpoint(
    id: EndpointId, renegotiate: bool,
    remote: Option<RemoteDescription>, local: Option<LocalDescription>,
    transports: map<FourTuple, Transport>,
    mids: seq<Mid>, transceivers: map<Mid, Transceiver>)

  datatype Session = Session(id: SessionId, endpoints: map<EndpointId, Endpoint>)
}
