/**
 Media kinds and transceiver directions (src/description/rtp_transceiver_direction.rs, src/description/rtp_codec.rs).
 */
module Directions {

  datatype Kind = UnknownKind | Audio | Video

  function KindOf(name: string): Kind {
    if name == "audio" then Audio else if name == "video" then Video else UnknownKind
  }

  function KindName(kind: Kind): string {
    match kind
    case Audio => "audio"
    case Video => "video"
    case UnknownKind => "Unspecified"
  }

  datatype Direction = Unspecified | Sendrecv | Sendonly | Recvonly | Inactive {

    predicate HasSend() { Sendrecv? || Sendonly? }

    predicate HasRecv() { Sendrecv? || Recvonly? }

    function Reverse(): Direction {
      match this
      case Sendonly => Recvonly
      case Recvonly => Sendonly
      case _ => this
    }

    function Intersect(other: Direction): Direction {
      FromSendRecv(HasSend() && other.HasSend(), HasRecv() && other.HasRecv())
    }

    static function FromSendRecv(send: bool, recv: bool): Direction {
      match (send, recv)
      case (true, true) => Sendrecv
      case (true, false) => Sendonly
      case (false, true) => Recvonly
      case (false, false) => Inactive
    }
  }

  /** The direction that an attribute key names; every other key names none. */
  function DirectionOf(key: string): Direction {
    match key
    case "sendrecv" => Sendrecv
    case "sendonly" => Sendonly
    case "recvonly" => Recvonly
    case "inactive" => Inactive
    case _ => Unspecified
  }

  function DirectionName(d: Direction): string {
    match d
    case Sendrecv => "sendrecv"
    case Sendonly => "sendonly"
    case Recvonly => "recvonly"
    case Inactive => "inactive"
    case Unspecified => "Unspecified"
  }

  /** The direction written for a transceiver, given the direction offered for it if there was an offer. */
  function WrittenDirection(offered: Direction, transceiver: Direction): Direction {
    match offered
    case Sendonly | Recvonly => offered.Reverse().Intersect(transceiver)
    case Sendrecv | Unspecified => transceiver
    case Inactive => Inactive
  }

  /**
   The answers that section 6.1 of RFC 3264 allows: nothing is sent that was not to be received,
   nothing received that was not to be sent, and the answer names a direction.
   */
  predicate LegalAnswer(offered: Direction, answered: Direction) {
    && !answered.Unspecified?
    && (answered.HasSend() ==> offered.HasRecv())
    && (answered.HasRecv() ==> offered.HasSend())
  }
}
