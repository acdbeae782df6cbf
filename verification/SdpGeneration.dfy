/**
 Writing offers and answers (`generate_matched_sdp` in src/session/mod.rs, `populate_sdp` and
 `add_transceiver_sdp` in src/description/mod.rs).
 */
module SdpGeneration {
  import opened Types
  import opened Directions
  import opened Sdp
  import opened Endpoints
  import opened MirrorKeys

  /** One line per codec or header extension of the media configuration. */
  datatype MediaLine =
    | Rtpmap(value: string) | Format(value: string) | Feedback(value: string) | Extension(value: string)
  {
    function ToAttribute(): Attribute {
      match this
      case Rtpmap(v) => ValueAttribute("rtpmap", v)
      case Format(v) => ValueAttribute("fmtp", v)
      case Feedback(v) => ValueAttribute("rtcp-fb", v)
      case Extension(v) => ValueAttribute("extmap", v)
    }
  }

  /** What the server configuration contributes to a description. */
  datatype SdpConfig = SdpConfig(
    fingerprints: seq<string>, candidate: string, sctpPort: string, maxMessageSize: string,
    lines: map<(Kind, Direction), seq<MediaLine>>)

  datatype SdpContext = SdpContext(role: string, credentials: Credentials, config: SdpConfig)

  datatype MediaSection = MediaSection(mid: Mid, data: bool, rids: seq<string>, offered: Option<Direction>)

  type Transceivers = map<Mid, Transceiver>

  // ------------------------------------------------------------------ choosing the sections

  function FirstWord(s: string): string {
    if s == [] || s[0] == ' ' then [] else [s[0]] + FirstWord(s[1..])
  }

  /** The restriction identifiers of a section, each once. */
  function RidsIn(attributes: seq<Attribute>): seq<string> {
    if attributes == [] then []
    else
      var n := |attributes| - 1;
      var before := RidsIn(attributes[..n]);
      var a := attributes[n];
      if a.key == "rid" && a.value.Some? && FirstWord(a.value.value) !in before
      then before + [FirstWord(a.value.value)]
      else before
  }

  function DataSection(mid: Mid): MediaSection { MediaSection(mid, true, [], None) }

  function MatchedSection(m: Media, mid: Mid, offering: bool): MediaSection {
    MediaSection(mid, false, RidsIn(m.attributes), if offering then None else Some(PeerDirection(m)))
  }

  /** The sections that the remote description asks for, appended to `sections`. */
  function MatchedFrom(sections: seq<MediaSection>, keys: set<Mid>, remote: seq<RemoteMedia>,
                       offering: bool): Result<seq<MediaSection>>
    decreases |remote|
  {
    if remote == [] then Ok(sections)
    else
      var m := remote[0].media;
      match MidOf(m)
      case None => MatchedFrom(sections, keys, remote[1..], offering)
      case Some(mid) =>
        if mid == "" then Err("ErrPeerConnRemoteDescriptionWithoutMidValue")
        else if m.name == APPLICATION then MatchedFrom(sections + [DataSection(mid)], keys, remote[1..], offering)
        else if !Negotiable(m) then MatchedFrom(sections, keys, remote[1..], offering)
        else if mid in keys then MatchedFrom(sections + [MatchedSection(m, mid, offering)], keys, remote[1..], offering)
        else Err("ErrPeerConnTransceiverMidNil")
  }

  predicate HasData(sections: seq<MediaSection>) { exists k :: 0 <= k < |sections| && sections[k].data }

  function MatchedMids(sections: seq<MediaSection>): set<Mid> {
    set k | 0 <= k < |sections| && !sections[k].data :: sections[k].mid
  }

  /** The local transceivers that no section covers yet, in the order in which they came. */
  function UnmatchedSections(mids: seq<Mid>, matched: set<Mid>): seq<MediaSection> {
    if mids == [] then []
    else
      var n := |mids| - 1;
      UnmatchedSections(mids[..n], matched)
      + if mids[n] in matched then [] else [MediaSection(mids[n], false, [], None)]
  }

  /** An offer appends the transceivers not asked for, and a data section if there is none. */
  function WithUnmatched(sections: seq<MediaSection>, mids: seq<Mid>): seq<MediaSection> {
    var all := sections + UnmatchedSections(mids, MatchedMids(sections));
    if HasData(sections) then all else all + [DataSection(Decimal(|all|))]
  }

  function Sections(mids: seq<Mid>, keys: set<Mid>, remote: seq<RemoteMedia>,
                    offering: bool): Result<seq<MediaSection>> {
    match MatchedFrom([], keys, remote, offering)
    case Err(e) => Err(e)
    case Ok(matched) => Ok(if offering then WithUnmatched(matched, mids) else matched)
  }

  method GenerateSections(mids: seq<Mid>, transceivers: Transceivers, remote: seq<RemoteMedia>, offering: bool)
    returns (r: Result<seq<MediaSection>>)
    ensures r == Sections(mids, transceivers.Keys, remote, offering)
  {
    var sections: seq<MediaSection> := [];
    var haveApplication := false;
    var matched: set<Mid> := {};
    for k := 0 to |remote|
      invariant MatchedFrom([], transceivers.Keys, remote, offering)
             == MatchedFrom(sections, transceivers.Keys, remote[k..], offering)
      invariant haveApplication == HasData(sections)
      invariant matched == MatchedMids(sections)
    {
      assert remote[k..][1..] == remote[k + 1..];
      var m := remote[k].media;
      var mid := GetMidValue(m);
      if mid.Some? {
        if mid.value == "" {
          return Err("ErrPeerConnRemoteDescriptionWithoutMidValue");
        }
        if m.name == APPLICATION {
          AppendedSection(sections, DataSection(mid.value));
          sections := sections + [DataSection(mid.value)];
          haveApplication := true;
        } else {
          var direction := GetPeerDirection(m);
          if KindOf(m.name) != UnknownKind && direction != Unspecified {
            if mid.value in transceivers {
              AppendedSection(sections, MatchedSection(m, mid.value, offering));
              sections := sections + [MatchedSection(m, mid.value, offering)];
              matched := matched + {mid.value};
            } else {
              return Err("ErrPeerConnTransceiverMidNil");
            }
          }
        }
      }
    }
    if offering {
      ghost var asked := sections;
      for k := 0 to |mids|
        invariant sections == asked + UnmatchedSections(mids[..k], matched)
      {
        assert mids[..k + 1][..k] == mids[..k];
        if mids[k] !in matched {
          sections := sections + [MediaSection(mids[k], false, [], None)];
        }
      }
      assert mids[..|mids|] == mids;
      if !haveApplication {
        sections := sections + [DataSection(Decimal(|sections|))];
      }
    }
    return Ok(sections);
  }

  lemma AppendedSection(sections: seq<MediaSection>, s: MediaSection)
    ensures HasData(sections + [s]) <==> HasData(sections) || s.data
    ensures MatchedMids(sections + [s]) == MatchedMids(sections) + if s.data then {} else {s.mid}
  {
    var more := sections + [s];
    assert more[|sections|] == s;
    assert forall k :: 0 <= k < |sections| ==> more[k] == sections[k];
    forall mid | mid in MatchedMids(sections)
      ensures mid in MatchedMids(more)
    {
      var k :| 0 <= k < |sections| && !sections[k].data && sections[k].mid == mid;
      assert more[k].mid == mid;
    }
    if HasData(sections) {
      var k :| 0 <= k < |sections| && sections[k].data;
      assert more[k].data;
    }
  }

  // ------------------------------------------------------------------ writing one section

  function Fingerprints(c: SdpConfig): seq<Attribute> {
    seq(|c.fingerprints|, k requires 0 <= k < |c.fingerprints| => ValueAttribute("fingerprint", c.fingerprints[k]))
  }

  function CandidateLines(c: SdpConfig, first: bool): seq<Attribute> {
    if first then [ValueAttribute("candidate", c.candidate), PropertyAttribute("end-of-candidates")] else []
  }

  function DataMedia(mid: Mid, first: bool, ctx: SdpContext): Media {
    Media(APPLICATION,
          [ValueAttribute("setup", ctx.role), ValueAttribute("mid", mid), PropertyAttribute(DirectionName(Sendrecv)),
           ValueAttribute("sctp-port", ctx.config.sctpPort),
           ValueAttribute("max-message-size", ctx.config.maxMessageSize),
           ValueAttribute("ice-ufrag", ctx.credentials.ufrag), ValueAttribute("ice-pwd", ctx.credentials.password)]
          + Fingerprints(ctx.config) + CandidateLines(ctx.config, first))
  }

  function MediaLines(c: SdpConfig, kind: Kind, dir: Direction): seq<Attribute> {
    if (kind, dir) in c.lines then
      var lines := c.lines[(kind, dir)];
      seq(|lines|, k requires 0 <= k < |lines| => lines[k].ToAttribute())
    else []
  }

  function Joined(words: seq<string>): string {
    if words == [] then "" else if |words| == 1 then words[0] else words[0] + ";" + Joined(words[1..])
  }

  function RidLines(rids: seq<string>): seq<Attribute> {
    if rids == [] then []
    else
      seq(|rids|, k requires 0 <= k < |rids| => ValueAttribute("rid", rids[k] + " recv"))
      + [ValueAttribute("simulcast", "recv " + Joined(rids))]
  }

  function FirstLines(m: MediaSection, ctx: SdpContext): seq<Attribute> {
    [ValueAttribute("setup", ctx.role), ValueAttribute("mid", m.mid),
     ValueAttribute("ice-ufrag", ctx.credentials.ufrag), ValueAttribute("ice-pwd", ctx.credentials.password),
     PropertyAttribute("rtcp-mux"), PropertyAttribute("rtcp-rsize")]
  }

  /** Everything that is written before the direction. */
  function HeadLines(m: MediaSection, t: Transceiver, first: bool, ctx: SdpContext): seq<Attribute> {
    FirstLines(m, ctx)
    + Fingerprints(ctx.config) + CandidateLines(ctx.config, first)
    + MediaLines(ctx.config, t.kind, t.direction) + RidLines(m.rids)
  }

  function Numbers(ssrcs: seq<nat>): string {
    if ssrcs == [] then "" else if |ssrcs| == 1 then Decimal(ssrcs[0])
    else Decimal(ssrcs[0]) + " " + Numbers(ssrcs[1..])
  }

  function SenderLines(s: Sender): seq<Attribute> {
    [PropertyAttribute("msid:" + s.streamId + " " + s.trackId)]
    + seq(|s.groups|, k requires 0 <= k < |s.groups| =>
            PropertyAttribute("ssrc-group:" + s.groups[k].0 + " " + Numbers(s.groups[k].1)))
    + seq(|s.ssrcs|, k requires 0 <= k < |s.ssrcs| => ValueAttribute("ssrc", Decimal(s.ssrcs[k]) + " cname:" + s.cname))
  }

  function DirectionFor(m: MediaSection, t: Transceiver): Direction {
    match m.offered
    case Some(offered) => WrittenDirection(offered, t.direction)
    case None => t.direction
  }

  function TransceiverMedia(m: MediaSection, t: Transceiver, first: bool, ctx: SdpContext): Result<Media> {
    var direction := DirectionFor(m, t);
    var lines := HeadLines(m, t, first, ctx) + [PropertyAttribute(DirectionName(direction))];
    if direction != Sendonly then Ok(Media(KindName(t.kind), lines))
    else if t.sender.Some? then Ok(Media(KindName(t.kind), lines + SenderLines(t.sender.value)))
    else Err("Sendonly transceiver doesn't have sender set")
  }

  function SectionMedia(m: MediaSection, first: bool, transceivers: Transceivers, ctx: SdpContext): Result<Media> {
    if m.data then
      if m.mid in transceivers then Err("ErrSDPMediaSectionMediaDataChanInvalid") else Ok(DataMedia(m.mid, first, ctx))
    else if m.mid in transceivers then TransceiverMedia(m, transceivers[m.mid], first, ctx)
    else Err("ErrSDPZeroTransceivers")
  }

  lemma FirstLinesArePlain(m: MediaSection, ctx: SdpContext)
    ensures NoDirection(FirstLines(m, ctx))
    ensures MidIn(FirstLines(m, ctx)) == Some(m.mid)
  {
  }

  lemma ConfigLinesArePlain(c: SdpConfig, first: bool, t: Transceiver, rids: seq<string>)
    ensures NoDirection(Fingerprints(c) + CandidateLines(c, first))
    ensures NoDirection(MediaLines(c, t.kind, t.direction) + RidLines(rids))
  {
  }

  lemma HeadLinesArePlain(m: MediaSection, t: Transceiver, first: bool, ctx: SdpContext)
    ensures NoDirection(HeadLines(m, t, first, ctx))
    ensures MidIn(HeadLines(m, t, first, ctx)) == Some(m.mid)
  {
    FirstLinesArePlain(m, ctx);
    ConfigLinesArePlain(ctx.config, first, t, m.rids);
    var rest := (Fingerprints(ctx.config) + CandidateLines(ctx.config, first))
                + (MediaLines(ctx.config, t.kind, t.direction) + RidLines(m.rids));
    assert HeadLines(m, t, first, ctx) == FirstLines(m, ctx) + rest;
    MidInPrefix(FirstLines(m, ctx), rest);
  }

  lemma {:induction false} MidInPrefix(head: seq<Attribute>, tail: seq<Attribute>)
    requires MidIn(head).Some?
    ensures MidIn(head + tail) == MidIn(head)
  {
    if head[0].key != "mid" {
      assert (head + tail)[1..] == head[1..] + tail;
      MidInPrefix(head[1..], tail);
    }
  }

  lemma DataMediaHasMid(mid: Mid, first: bool, ctx: SdpContext)
    ensures MidOf(DataMedia(mid, first, ctx)) == Some(mid)
  {
    var lines := DataMedia(mid, first, ctx).attributes;
    assert lines == lines[..1] + [ValueAttribute("mid", mid)] + lines[2..];
    MidAfter(lines[..1], mid, lines[2..]);
  }

  /** What is written after the direction. */
  function TailLines(direction: Direction, t: Transceiver): seq<Attribute>
    requires direction == Sendonly ==> t.sender.Some?
  {
    if direction == Sendonly then SenderLines(t.sender.value) else []
  }

  lemma TransceiverLines(m: MediaSection, t: Transceiver, first: bool, ctx: SdpContext)
    requires TransceiverMedia(m, t, first, ctx).Ok?
    ensures var direction := DirectionFor(m, t);
      && (direction == Sendonly ==> t.sender.Some?)
      && TransceiverMedia(m, t, first, ctx).value.attributes
         == HeadLines(m, t, first, ctx) + [PropertyAttribute(DirectionName(direction))] + TailLines(direction, t)
  {
    var lines := HeadLines(m, t, first, ctx) + [PropertyAttribute(DirectionName(DirectionFor(m, t)))];
    assert lines + [] == lines;
  }

  lemma ReadAround(head: seq<Attribute>, direction: Direction, tail: seq<Attribute>)
    requires NoDirection(head) && MidIn(head).Some?
    ensures var lines := head + [PropertyAttribute(DirectionName(direction))] + tail;
      && MidIn(lines) == MidIn(head)
      && (direction != Unspecified ==> DirectionIn(lines) == direction)
  {
    var name := [PropertyAttribute(DirectionName(direction))];
    assert head + name + tail == head + (name + tail);
    MidInPrefix(head, name + tail);
    if direction != Unspecified {
      DirectionAfter(head, direction, tail);
    }
  }

  lemma TransceiverMediaIsRead(m: MediaSection, t: Transceiver, first: bool, ctx: SdpContext)
    requires TransceiverMedia(m, t, first, ctx).Ok?
    ensures MidOf(TransceiverMedia(m, t, first, ctx).value) == Some(m.mid)
    ensures DirectionFor(m, t) != Unspecified ==>
              PeerDirection(TransceiverMedia(m, t, first, ctx).value) == DirectionFor(m, t)
  {
    HeadLinesArePlain(m, t, first, ctx);
    TransceiverLines(m, t, first, ctx);
    ReadAround(HeadLines(m, t, first, ctx), DirectionFor(m, t), TailLines(DirectionFor(m, t), t));
  }

  /** A written section carries the mid and the direction that were meant, where a reader looks for them. */
  lemma WrittenSection(m: MediaSection, first: bool, transceivers: Transceivers, ctx: SdpContext)
    requires SectionMedia(m, first, transceivers, ctx).Ok?
    ensures var media := SectionMedia(m, first, transceivers, ctx).value;
      && MidOf(media) == Some(m.mid)
      && (media.name == APPLICATION <==> m.data)
      && (!m.data ==>
            && media.name == KindName(transceivers[m.mid].kind)
            && (DirectionFor(m, transceivers[m.mid]) != Unspecified ==>
                  PeerDirection(media) == DirectionFor(m, transceivers[m.mid])))
  {
    if m.data {
      DataMediaHasMid(m.mid, first, ctx);
    } else {
      TransceiverMediaIsRead(m, transceivers[m.mid], first, ctx);
    }
  }

  // ------------------------------------------------------------------ writing a description

  function PopulateFrom(media: seq<Media>, sections: seq<MediaSection>, transceivers: Transceivers,
                        ctx: SdpContext): Result<seq<Media>>
    requires |media| <= |sections|
    decreases |sections| - |media|
  {
    if |media| == |sections| then Ok(media)
    else
      match SectionMedia(sections[|media|], |media| == 0, transceivers, ctx)
      case Err(e) => Err(e)
      case Ok(m) => PopulateFrom(media + [m], sections, transceivers, ctx)
  }

  function Bundle(sections: seq<MediaSection>): string {
    if sections == [] then "BUNDLE"
    else Bundle(sections[..|sections| - 1]) + " " + sections[|sections| - 1].mid
  }

  function Populated(sections: seq<MediaSection>, transceivers: Transceivers,
                     ctx: SdpContext): Result<SessionDescription> {
    match PopulateFrom([], sections, transceivers, ctx)
    case Err(e) => Err(e)
    case Ok(media) =>
      Ok(SessionDescription(media, [PropertyAttribute("ice-lite"), ValueAttribute("group", Bundle(sections))]))
  }

  method PopulateSdp(sections: seq<MediaSection>, transceivers: Transceivers, ctx: SdpContext)
    returns (r: Result<SessionDescription>)
    ensures r == Populated(sections, transceivers, ctx)
  {
    var media: seq<Media> := [];
    var bundle := "BUNDLE";
    for i := 0 to |sections|
      invariant |media| == i
      invariant bundle == Bundle(sections[..i])
      invariant PopulateFrom([], sections, transceivers, ctx) == PopulateFrom(media, sections, transceivers, ctx)
    {
      assert sections[..i + 1][..i] == sections[..i];
      var m := sections[i];
      if m.data && m.mid in transceivers {
        return Err("ErrSDPMediaSectionMediaDataChanInvalid");
      }
      var section;
      if m.data {
        section := Ok(DataMedia(m.mid, i == 0, ctx));
      } else if m.mid in transceivers {
        section := TransceiverMedia(m, transceivers[m.mid], i == 0, ctx);
      } else {
        section := Err("ErrSDPZeroTransceivers");
      }
      if section.Err? {
        return Err(section.error);
      }
      media := media + [section.value];
      bundle := bundle + " " + m.mid;
    }
    assert sections[..|sections|] == sections;
    return Ok(SessionDescription(media, [PropertyAttribute("ice-lite"), ValueAttribute("group", bundle)]));
  }

  /** Each section of a description that was written is the one asked for at its place. */
  lemma {:induction false} PopulatedSections(media: seq<Media>, sections: seq<MediaSection>,
                                             transceivers: Transceivers, ctx: SdpContext)
    requires |media| <= |sections|
    requires forall k :: 0 <= k < |media| ==> SectionMedia(sections[k], k == 0, transceivers, ctx) == Ok(media[k])
    ensures match PopulateFrom(media, sections, transceivers, ctx)
      case Ok(all) =>
        && |all| == |sections|
        && forall k :: 0 <= k < |all| ==> SectionMedia(sections[k], k == 0, transceivers, ctx) == Ok(all[k])
      case Err(e) =>
        exists k :: 0 <= k < |sections| && SectionMedia(sections[k], k == 0, transceivers, ctx) == Err(e)
    decreases |sections| - |media|
  {
    if |media| < |sections| {
      match SectionMedia(sections[|media|], |media| == 0, transceivers, ctx)
      case Err(e) =>
      case Ok(m) => PopulatedSections(media + [m], sections, transceivers, ctx);
    }
  }
}
