/**
 What a reader finds in a written description besides mids and directions: credentials, role, fingerprints,
 candidates, sources and the bundle (src/description/mod.rs).
 */
module WrittenLines {
  import opened Types
  import opened Directions
  import opened Sdp
  import opened Endpoints
  import opened MirrorKeys
  import opened SdpGeneration
  import opened OfferAnswer

  // ------------------------------------------------------------------ searching by key

  /** The values of all attributes with this key, in order; a property has none. */
  function ValuesOf(attributes: seq<Attribute>, key: string): seq<Option<string>> {
    if attributes == [] then [] else ValueOf(attributes[0], key) + ValuesOf(attributes[1..], key)
  }

  function ValueOf(line: Attribute, key: string): seq<Option<string>> { if line.key == key then [line.value] else [] }

  lemma {:induction false} ValuesConcat(first: seq<Attribute>, second: seq<Attribute>, key: string)
    ensures ValuesOf(first + second, key) == ValuesOf(first, key) + ValuesOf(second, key)
  {
    if first == [] {
      assert first + second == second;
    } else {
      assert (first + second)[1..] == first[1..] + second;
      ValuesConcat(first[1..], second, key);
      Associate(ValueOf(first[0], key), ValuesOf(first[1..], key), ValuesOf(second, key));
    }
  }

  lemma Associate<T>(a: seq<T>, b: seq<T>, c: seq<T>)
    ensures (a + b) + c == a + (b + c)
  {
  }

  /** One line first. */
  lemma ValuesCons(line: Attribute, lines: seq<Attribute>, key: string)
    ensures ValuesOf([line] + lines, key) == ValueOf(line, key) + ValuesOf(lines, key)
  {
    assert ([line] + lines)[1..] == lines;
  }

  ghost predicate NoKey(attributes: seq<Attribute>, key: string) {
    forall k :: 0 <= k < |attributes| ==> attributes[k].key != key
  }

  lemma {:induction false} NoValues(attributes: seq<Attribute>, key: string)
    requires NoKey(attributes, key)
    ensures ValuesOf(attributes, key) == []
  {
    if attributes != [] {
      NoValues(attributes[1..], key);
    }
  }

  function Somes(values: seq<string>): seq<Option<string>> {
    seq(|values|, k requires 0 <= k < |values| => Some(values[k]))
  }

  /** Lines that all have this key. */
  lemma {:induction false} AllValues(attributes: seq<Attribute>, key: string, values: seq<string>)
    requires |attributes| == |values|
    requires forall k :: 0 <= k < |attributes| ==> attributes[k] == ValueAttribute(key, values[k])
    ensures ValuesOf(attributes, key) == Somes(values)
  {
    if attributes != [] {
      AllValues(attributes[1..], key, values[1..]);
    }
  }

  // ------------------------------------------------------------------ what every section says

  datatype Key = Setup | Ufrag | Password | Fingerprint | CandidateKey | EndOfCandidates

  function Name(key: Key): string {
    match key
    case Setup => "setup"
    case Ufrag => "ice-ufrag"
    case Password => "ice-pwd"
    case Fingerprint => "fingerprint"
    case CandidateKey => "candidate"
    case EndOfCandidates => "end-of-candidates"
  }

  /** What a section says under these keys. */
  datatype Said = Said(setup: string, ufrag: string, password: string, fingerprints: seq<string>,
                       candidates: seq<string>, ended: bool)

  ghost function ValuesIn(said: Said, key: Key): seq<Option<string>> {
    match key
    case Setup => [Some(said.setup)]
    case Ufrag => [Some(said.ufrag)]
    case Password => [Some(said.password)]
    case Fingerprint => Somes(said.fingerprints)
    case CandidateKey => Somes(said.candidates)
    case EndOfCandidates => if said.ended then [None] else []
  }

  /** Under each of these keys a section says exactly this. */
  ghost predicate Says(m: Media, said: Said) {
    forall key :: ValuesOf(m.attributes, Name(key)) == ValuesIn(said, key)
  }

  /** Only the first section has the server's candidate, and says that there are no more. */
  function SaidBy(ctx: SdpContext, first: bool): Said {
    Said(ctx.role, ctx.credentials.ufrag, ctx.credentials.password, ctx.config.fingerprints,
         if first then [ctx.config.candidate] else [], first)
  }

  ghost function IceIn(c: Credentials, key: Key): seq<Option<string>> {
    if key == Ufrag then [Some(c.ufrag)] else if key == Password then [Some(c.password)] else []
  }

  ghost function FirstIn(ctx: SdpContext, key: Key): seq<Option<string>> {
    if key == Setup then [Some(ctx.role)] else IceIn(ctx.credentials, key)
  }

  ghost function LastIn(c: SdpConfig, first: bool, key: Key): seq<Option<string>> {
    match key
    case Fingerprint => Somes(c.fingerprints)
    case CandidateKey => if first then [Some(c.candidate)] else []
    case EndOfCandidates => if first then [None] else []
    case _ => []
  }

  lemma Together(ctx: SdpContext, first: bool, key: Key)
    ensures FirstIn(ctx, key) + LastIn(ctx.config, first, key) == ValuesIn(SaidBy(ctx, first), key)
  {
  }

  lemma FingerprintValues(c: SdpConfig, key: Key)
    ensures ValuesOf(Fingerprints(c), Name(key)) == if key == Fingerprint then Somes(c.fingerprints) else []
  {
    if key == Fingerprint {
      AllValues(Fingerprints(c), Name(key), c.fingerprints);
    } else {
      NoValues(Fingerprints(c), Name(key));
    }
  }

  lemma CandidateValues(c: SdpConfig, first: bool, key: Key)
    ensures ValuesOf(CandidateLines(c, first), Name(key)) == if key == Fingerprint then [] else LastIn(c, first, key)
  {
    if first {
      var end := [PropertyAttribute("end-of-candidates")];
      assert CandidateLines(c, first) == [ValueAttribute("candidate", c.candidate)] + end && end == end + [];
      ValuesCons(ValueAttribute("candidate", c.candidate), end, Name(key));
      ValuesCons(end[0], [], Name(key));
    }
  }

  lemma LastValues(c: SdpConfig, first: bool, key: Key)
    ensures ValuesOf(Fingerprints(c) + CandidateLines(c, first), Name(key)) == LastIn(c, first, key)
  {
    FingerprintValues(c, key);
    CandidateValues(c, first, key);
    ValuesConcat(Fingerprints(c), CandidateLines(c, first), Name(key));
  }

  lemma MediaValues(c: SdpConfig, kind: Kind, dir: Direction, rids: seq<string>, key: Key)
    ensures ValuesOf(MediaLines(c, kind, dir) + RidLines(rids), Name(key)) == []
  {
    NoValues(MediaLines(c, kind, dir), Name(key));
    NoValues(RidLines(rids), Name(key));
    ValuesConcat(MediaLines(c, kind, dir), RidLines(rids), Name(key));
  }

  lemma SenderKeys(s: Sender, key: Key)
    ensures NoKey(SenderLines(s), Name(key))
  {
    assert Name(key)[0] != 'm' && Name(key)[1] != 's';
    forall k | 0 <= k < |SenderLines(s)|
      ensures SenderLines(s)[k].key != Name(key)
    {
      if k == 0 {
        assert SenderLines(s)[0].key[0] == 'm';
      } else {
        assert SenderLines(s)[k].key[1] == 's';
      }
    }
  }

  lemma TailValues(direction: Direction, t: Transceiver, key: Key)
    requires direction == Sendonly ==> t.sender.Some?
    ensures ValuesOf([PropertyAttribute(DirectionName(direction))] + TailLines(direction, t), Name(key)) == []
  {
    var name := [PropertyAttribute(DirectionName(direction))];
    assert NoKey(name, Name(key));
    NoValues(name, Name(key));
    if direction == Sendonly {
      SenderKeys(t.sender.value, key);
    }
    NoValues(TailLines(direction, t), Name(key));
    ValuesConcat(name, TailLines(direction, t), Name(key));
  }

  lemma IceValues(c: Credentials, key: Key)
    ensures ValuesOf([ValueAttribute("ice-ufrag", c.ufrag), ValueAttribute("ice-pwd", c.password)], Name(key))
         == IceIn(c, key)
  {
    var second := [ValueAttribute("ice-pwd", c.password)];
    assert [ValueAttribute("ice-ufrag", c.ufrag), ValueAttribute("ice-pwd", c.password)]
        == [ValueAttribute("ice-ufrag", c.ufrag)] + second && second == second + [];
    ValuesCons(ValueAttribute("ice-ufrag", c.ufrag), second, Name(key));
    ValuesCons(second[0], [], Name(key));
  }

  /** A section begins with its role; lines with other keys do no harm before or after the credentials. */
  lemma OpeningValues(ctx: SdpContext, before: seq<Attribute>, after: seq<Attribute>, key: Key)
    requires NoKey(before, Name(key)) && NoKey(after, Name(key))
    ensures var ice := [ValueAttribute("ice-ufrag", ctx.credentials.ufrag),
                        ValueAttribute("ice-pwd", ctx.credentials.password)];
      ValuesOf([ValueAttribute("setup", ctx.role)] + (before + (ice + after)), Name(key)) == FirstIn(ctx, key)
  {
    var ice := [ValueAttribute("ice-ufrag", ctx.credentials.ufrag),
                ValueAttribute("ice-pwd", ctx.credentials.password)];
    NoValues(before, Name(key));
    NoValues(after, Name(key));
    IceValues(ctx.credentials, key);
    ValuesConcat(ice, after, Name(key));
    ValuesConcat(before, ice + after, Name(key));
    ValuesCons(ValueAttribute("setup", ctx.role), before + (ice + after), Name(key));
  }

  lemma FirstValues(m: MediaSection, ctx: SdpContext, key: Key)
    ensures ValuesOf(FirstLines(m, ctx), Name(key)) == FirstIn(ctx, key)
  {
    var before, after := [ValueAttribute("mid", m.mid)],
        [PropertyAttribute("rtcp-mux"), PropertyAttribute("rtcp-rsize")];
    assert NoKey(before, Name(key)) && NoKey(after, Name(key));
    OpeningValues(ctx, before, after, key);
    var ice := [ValueAttribute("ice-ufrag", ctx.credentials.ufrag),
                ValueAttribute("ice-pwd", ctx.credentials.password)];
    assert FirstLines(m, ctx) == [ValueAttribute("setup", ctx.role)] + (before + (ice + after));
  }

  lemma JoinedValues(start: seq<Attribute>, last: seq<Attribute>, rest: seq<Attribute>, ctx: SdpContext, first: bool,
                     key: Key)
    requires ValuesOf(start, Name(key)) == FirstIn(ctx, key)
    requires ValuesOf(last, Name(key)) == LastIn(ctx.config, first, key)
    requires ValuesOf(rest, Name(key)) == []
    ensures ValuesOf(start + last + rest, Name(key)) == ValuesIn(SaidBy(ctx, first), key)
  {
    ValuesConcat(start, last, Name(key));
    ValuesConcat(start + last, rest, Name(key));
    Together(ctx, first, key);
  }

  /** The lines of a written section, in three parts. */
  lemma TransceiverParts(m: MediaSection, t: Transceiver, first: bool, ctx: SdpContext)
    requires TransceiverMedia(m, t, first, ctx).Ok?
    ensures var direction := DirectionFor(m, t);
      && (direction == Sendonly ==> t.sender.Some?)
      && TransceiverMedia(m, t, first, ctx).value.attributes
         == FirstLines(m, ctx) + (Fingerprints(ctx.config) + CandidateLines(ctx.config, first))
          + ((MediaLines(ctx.config, t.kind, t.direction) + RidLines(m.rids))
             + ([PropertyAttribute(DirectionName(direction))] + TailLines(direction, t)))
  {
    TransceiverLines(m, t, first, ctx);
    SixParts(FirstLines(m, ctx), Fingerprints(ctx.config), CandidateLines(ctx.config, first),
        MediaLines(ctx.config, t.kind, t.direction), RidLines(m.rids),
        [PropertyAttribute(DirectionName(DirectionFor(m, t)))], TailLines(DirectionFor(m, t), t));
  }

  lemma AroundMedia(a: seq<Attribute>, d: seq<Attribute>, e: seq<Attribute>, f: seq<Attribute>, g: seq<Attribute>,
                    key: string)
    requires NoKey(a, key) && NoKey(e + f, key) && NoKey(g, key)
    ensures ValuesOf(a + ((d + e) + (f + g)), key) == ValuesOf(d, key)
  {
    assert a + ((d + e) + (f + g)) == a + d + (e + f + g);
    NoKeyConcat(e + f, g, key);
    ValuesAmong(a, d, e + f + g, key);
  }

  lemma AroundRids(a: seq<Attribute>, d: seq<Attribute>, e: seq<Attribute>, f: seq<Attribute>, g: seq<Attribute>,
                   key: string)
    requires NoKey(a, key) && NoKey(d, key) && NoKey(f, key) && NoKey(g, key)
    ensures ValuesOf(a + ((d + e) + (f + g)), key) == ValuesOf(e, key)
  {
    assert a + ((d + e) + (f + g)) == (a + d) + e + (f + g);
    NoKeyConcat(a, d, key);
    NoKeyConcat(f, g, key);
    ValuesAmong(a + d, e, f + g, key);
  }

  lemma SixParts(a: seq<Attribute>, b: seq<Attribute>, c: seq<Attribute>, d: seq<Attribute>, e: seq<Attribute>,
                 f: seq<Attribute>, g: seq<Attribute>)
    ensures (a + b + c + d + e) + f + g == a + (b + c) + ((d + e) + (f + g))
  {
  }

  lemma TransceiverSays(m: MediaSection, t: Transceiver, first: bool, ctx: SdpContext, key: Key)
    requires TransceiverMedia(m, t, first, ctx).Ok?
    ensures ValuesOf(TransceiverMedia(m, t, first, ctx).value.attributes, Name(key))
         == ValuesIn(SaidBy(ctx, first), key)
  {
    TransceiverParts(m, t, first, ctx);
    RestValues(m, t, ctx, key);
    FirstValues(m, ctx, key);
    LastValues(ctx.config, first, key);
    JoinedValues(FirstLines(m, ctx), Fingerprints(ctx.config) + CandidateLines(ctx.config, first),
        (MediaLines(ctx.config, t.kind, t.direction) + RidLines(m.rids))
        + ([PropertyAttribute(DirectionName(DirectionFor(m, t)))] + TailLines(DirectionFor(m, t), t)),
        ctx, first, key);
  }

  lemma RestValues(m: MediaSection, t: Transceiver, ctx: SdpContext, key: Key)
    requires DirectionFor(m, t) == Sendonly ==> t.sender.Some?
    ensures ValuesOf((MediaLines(ctx.config, t.kind, t.direction) + RidLines(m.rids))
              + ([PropertyAttribute(DirectionName(DirectionFor(m, t)))] + TailLines(DirectionFor(m, t), t)), Name(key))
         == []
  {
    MediaValues(ctx.config, t.kind, t.direction, m.rids, key);
    TailValues(DirectionFor(m, t), t, key);
    ValuesConcat(MediaLines(ctx.config, t.kind, t.direction) + RidLines(m.rids),
        [PropertyAttribute(DirectionName(DirectionFor(m, t)))] + TailLines(DirectionFor(m, t), t), Name(key));
  }

  function DataFirstLines(mid: Mid, ctx: SdpContext): seq<Attribute> {
    [ValueAttribute("setup", ctx.role), ValueAttribute("mid", mid), PropertyAttribute(DirectionName(Sendrecv)),
     ValueAttribute("sctp-port", ctx.config.sctpPort), ValueAttribute("max-message-size", ctx.config.maxMessageSize),
     ValueAttribute("ice-ufrag", ctx.credentials.ufrag), ValueAttribute("ice-pwd", ctx.credentials.password)]
  }

  lemma DataFirstValues(mid: Mid, ctx: SdpContext, key: Key)
    ensures ValuesOf(DataFirstLines(mid, ctx), Name(key)) == FirstIn(ctx, key)
  {
    var before := [ValueAttribute("mid", mid), PropertyAttribute(DirectionName(Sendrecv)),
                   ValueAttribute("sctp-port", ctx.config.sctpPort),
                   ValueAttribute("max-message-size", ctx.config.maxMessageSize)];
    var ice := [ValueAttribute("ice-ufrag", ctx.credentials.ufrag),
                ValueAttribute("ice-pwd", ctx.credentials.password)];
    assert NoKey(before, Name(key)) && NoKey([], Name(key));
    OpeningValues(ctx, before, [], key);
    assert DataFirstLines(mid, ctx) == [ValueAttribute("setup", ctx.role)] + (before + (ice + []));
  }

  lemma DataParts(mid: Mid, first: bool, ctx: SdpContext)
    ensures DataMedia(mid, first, ctx).attributes
         == DataFirstLines(mid, ctx) + (Fingerprints(ctx.config) + CandidateLines(ctx.config, first)) + []
  {
  }

  lemma DataSays(mid: Mid, first: bool, ctx: SdpContext, key: Key)
    ensures ValuesOf(DataMedia(mid, first, ctx).attributes, Name(key)) == ValuesIn(SaidBy(ctx, first), key)
  {
    DataParts(mid, first, ctx);
    DataFirstValues(mid, ctx, key);
    LastValues(ctx.config, first, key);
    JoinedValues(DataFirstLines(mid, ctx), Fingerprints(ctx.config) + CandidateLines(ctx.config, first), [], ctx, first,
        key);
  }

  /** Every section that is written, for data or media, says what its context says. */
  lemma SectionSays(m: MediaSection, first: bool, transceivers: Transceivers, ctx: SdpContext)
    requires SectionMedia(m, first, transceivers, ctx).Ok?
    ensures Says(SectionMedia(m, first, transceivers, ctx).value, SaidBy(ctx, first))
  {
    forall key
      ensures ValuesOf(SectionMedia(m, first, transceivers, ctx).value.attributes, Name(key))
           == ValuesIn(SaidBy(ctx, first), key)
    {
      if m.data {
        DataSays(m.mid, first, ctx, key);
      } else {
        TransceiverSays(m, transceivers[m.mid], first, ctx, key);
      }
    }
  }

  /** Every section of the description says this, the first one with the candidate. */
  ghost predicate AllSay(sdp: SessionDescription, ctx: SdpContext) {
    forall k :: 0 <= k < |sdp.media| ==> Says(sdp.media[k], SaidBy(ctx, k == 0))
  }

  /** A description that is written carries role, credentials and fingerprints in every section. */
  lemma DescriptionSays(sections: seq<MediaSection>, transceivers: Transceivers, ctx: SdpContext)
    requires Populated(sections, transceivers, ctx).Ok?
    ensures AllSay(Populated(sections, transceivers, ctx).value, ctx)
  {
    PopulatedSections([], sections, transceivers, ctx);
    forall k | 0 <= k < |sections|
      ensures Says(Populated(sections, transceivers, ctx).value.media[k], SaidBy(ctx, k == 0))
    {
      SectionSays(sections[k], k == 0, transceivers, ctx);
    }
  }

  // ------------------------------------------------------------------ what a media section says besides

  /** Lines with other keys do no harm before or after. */
  lemma ValuesAmong(before: seq<Attribute>, lines: seq<Attribute>, after: seq<Attribute>, key: string)
    requires NoKey(before, key) && NoKey(after, key)
    ensures ValuesOf(before + lines + after, key) == ValuesOf(lines, key)
  {
    NoValues(before, key);
    NoValues(after, key);
    ValuesConcat(before, lines, key);
    ValuesConcat(before + lines, after, key);
  }

  function SourceLines(s: Sender): seq<string> {
    seq(|s.ssrcs|, k requires 0 <= k < |s.ssrcs| => Decimal(s.ssrcs[k]) + " cname:" + s.cname)
  }

  /** The sources of a sender are told under the key "ssrc", in order. */
  lemma SenderSources(s: Sender)
    ensures ValuesOf(SenderLines(s), "ssrc") == Somes(SourceLines(s))
  {
    var msid := [PropertyAttribute("msid:" + s.streamId + " " + s.trackId)];
    var groups := seq(|s.groups|, k requires 0 <= k < |s.groups| =>
                        PropertyAttribute("ssrc-group:" + s.groups[k].0 + " " + Numbers(s.groups[k].1)));
    var sources := seq(|s.ssrcs|, k requires 0 <= k < |s.ssrcs| =>
                         ValueAttribute("ssrc", Decimal(s.ssrcs[k]) + " cname:" + s.cname));
    forall k | 0 <= k < |groups|
      ensures groups[k].key != "ssrc"
    {
      assert groups[k].key[4] == '-';
    }
    assert msid[0].key[0] == 'm';
    AllValues(sources, "ssrc", SourceLines(s));
    ValuesAmong(msid + groups, sources, [], "ssrc");
    assert SenderLines(s) == (msid + groups) + sources + [];
  }

  lemma NoSourceBefore(m: MediaSection, t: Transceiver, first: bool, ctx: SdpContext)
    ensures NoKey(HeadLines(m, t, first, ctx) + [PropertyAttribute(DirectionName(DirectionFor(m, t)))], "ssrc")
  {
  }

  /**
   A section tells the sources of its transceiver's sender exactly if it is written sendonly, and then its media
   stream and every group of sources as well.
   */
  lemma SourcesAreWritten(m: MediaSection, t: Transceiver, first: bool, ctx: SdpContext)
    requires TransceiverMedia(m, t, first, ctx).Ok?
    ensures var lines := TransceiverMedia(m, t, first, ctx).value.attributes;
      if DirectionFor(m, t) != Sendonly then ValuesOf(lines, "ssrc") == []
      else
        && t.sender.Some?
        && var s := t.sender.value;
        && ValuesOf(lines, "ssrc") == Somes(SourceLines(s))
        && PropertyAttribute("msid:" + s.streamId + " " + s.trackId) in lines
        && forall k :: 0 <= k < |s.groups| ==>
             PropertyAttribute("ssrc-group:" + s.groups[k].0 + " " + Numbers(s.groups[k].1)) in lines
  {
    TransceiverLines(m, t, first, ctx);
    var before := HeadLines(m, t, first, ctx) + [PropertyAttribute(DirectionName(DirectionFor(m, t)))];
    var tail := TailLines(DirectionFor(m, t), t);
    NoSourceBefore(m, t, first, ctx);
    ValuesAmong(before, tail, [], "ssrc");
    assert before + tail + [] == before + tail;
    if DirectionFor(m, t) == Sendonly {
      SenderSources(t.sender.value);
      SenderIsAmong(t.sender.value, before);
    }
  }

  lemma SenderIsAmong(s: Sender, before: seq<Attribute>)
    ensures PropertyAttribute("msid:" + s.streamId + " " + s.trackId) in before + SenderLines(s)
    ensures forall k :: 0 <= k < |s.groups| ==>
              PropertyAttribute("ssrc-group:" + s.groups[k].0 + " " + Numbers(s.groups[k].1)) in before + SenderLines(s)
  {
    assert SenderLines(s)[0] == PropertyAttribute("msid:" + s.streamId + " " + s.trackId);
    assert (before + SenderLines(s))[|before|] == SenderLines(s)[0];
    forall k | 0 <= k < |s.groups|
      ensures PropertyAttribute("ssrc-group:" + s.groups[k].0 + " " + Numbers(s.groups[k].1)) in before + SenderLines(s)
    {
      assert (before + SenderLines(s))[|before| + 1 + k]
          == PropertyAttribute("ssrc-group:" + s.groups[k].0 + " " + Numbers(s.groups[k].1));
    }
  }

  function RidValues(rids: seq<string>): seq<string> {
    seq(|rids|, k requires 0 <= k < |rids| => rids[k] + " recv")
  }

  lemma RidLineValues(rids: seq<string>)
    ensures ValuesOf(RidLines(rids), "rid") == Somes(RidValues(rids))
    ensures ValuesOf(RidLines(rids), "simulcast") == if rids == [] then [] else [Some("recv " + Joined(rids))]
  {
    if rids != [] {
      var lines := seq(|rids|, k requires 0 <= k < |rids| => ValueAttribute("rid", rids[k] + " recv"));
      var simulcast := [ValueAttribute("simulcast", "recv " + Joined(rids))];
      assert RidLines(rids) == lines + simulcast && simulcast == simulcast + [];
      AllValues(lines, "rid", RidValues(rids));
      NoValues(lines, "simulcast");
      ValuesCons(simulcast[0], [], "rid");
      ValuesCons(simulcast[0], [], "simulcast");
      ValuesConcat(lines, simulcast, "rid");
      ValuesConcat(lines, simulcast, "simulcast");
    }
  }

  /** The keys of the lines that come from the media configuration. */
  predicate IsMediaKey(key: string) { key in ["rtpmap", "fmtp", "rtcp-fb", "extmap"] }

  /** The key under which a line of the configuration is written. */
  ghost predicate WrittenUnder(line: MediaLine, key: string) {
    match line
    case Rtpmap(_) => key == "rtpmap"
    case Format(_) => key == "fmtp"
    case Feedback(_) => key == "rtcp-fb"
    case Extension(_) => key == "extmap"
  }

  ghost function Texts(lines: seq<MediaLine>, key: string): seq<string> {
    if lines == [] then []
    else (if WrittenUnder(lines[0], key) then [lines[0].value] else []) + Texts(lines[1..], key)
  }

  ghost function Configured(c: SdpConfig, kind: Kind, dir: Direction): seq<MediaLine> {
    if (kind, dir) in c.lines then c.lines[(kind, dir)] else []
  }

  lemma {:induction false} TextsAreValues(lines: seq<MediaLine>, attributes: seq<Attribute>, key: string)
    requires IsMediaKey(key) && |attributes| == |lines|
    requires forall k :: 0 <= k < |lines| ==> attributes[k] == lines[k].ToAttribute()
    ensures ValuesOf(attributes, key) == Somes(Texts(lines, key))
  {
    if lines != [] {
      TextsAreValues(lines[1..], attributes[1..], key);
      assert attributes[0].key == key <==> WrittenUnder(lines[0], key);
    }
  }

  lemma MediaLinesAreConfigured(c: SdpConfig, kind: Kind, dir: Direction, key: string)
    requires IsMediaKey(key)
    ensures ValuesOf(MediaLines(c, kind, dir), key) == Somes(Texts(Configured(c, kind, dir), key))
  {
    TextsAreValues(Configured(c, kind, dir), MediaLines(c, kind, dir), key);
  }

  lemma OnlyMediaLines(m: MediaSection, t: Transceiver, first: bool, ctx: SdpContext, key: string)
    requires IsMediaKey(key)
    ensures NoKey(FirstLines(m, ctx) + (Fingerprints(ctx.config) + CandidateLines(ctx.config, first)), key)
    ensures NoKey(RidLines(m.rids) + [PropertyAttribute(DirectionName(DirectionFor(m, t)))], key)
    ensures t.sender.Some? ==> NoKey(SenderLines(t.sender.value), key)
  {
    if t.sender.Some? {
      var lines := SenderLines(t.sender.value);
      assert key[0] != 'm' && key[1] != 's';
      forall k | 0 <= k < |lines|
        ensures lines[k].key != key
      {
        assert if k == 0 then lines[k].key[0] == 'm' else lines[k].key[1] == 's';
      }
    }
  }

  lemma NoKeyConcat(a: seq<Attribute>, b: seq<Attribute>, key: string)
    ensures NoKey(a + b, key) <==> NoKey(a, key) && NoKey(b, key)
  {
    if NoKey(a + b, key) {
      forall k | 0 <= k < |b|
        ensures b[k].key != key
      {
        assert (a + b)[|a| + k] == b[k];
      }
      forall k | 0 <= k < |a|
        ensures a[k].key != key
      {
        assert (a + b)[k] == a[k];
      }
    }
  }

  /** The codecs and extensions of a section are those configured for its transceiver's kind and direction. */
  lemma ConfiguredLinesAreWritten(m: MediaSection, t: Transceiver, first: bool, ctx: SdpContext, key: string)
    requires TransceiverMedia(m, t, first, ctx).Ok? && IsMediaKey(key)
    ensures ValuesOf(TransceiverMedia(m, t, first, ctx).value.attributes, key)
         == Somes(Texts(Configured(ctx.config, t.kind, t.direction), key))
  {
    MediaLinesAreConfigured(ctx.config, t.kind, t.direction, key);
    TransceiverParts(m, t, first, ctx);
    OnlyMediaLines(m, t, first, ctx, key);
    AroundMedia(FirstLines(m, ctx) + (Fingerprints(ctx.config) + CandidateLines(ctx.config, first)),
        MediaLines(ctx.config, t.kind, t.direction), RidLines(m.rids),
        [PropertyAttribute(DirectionName(DirectionFor(m, t)))], TailLines(DirectionFor(m, t), t), key);
  }

  lemma OnlyRidLines(m: MediaSection, t: Transceiver, first: bool, ctx: SdpContext, key: string)
    requires key == "rid" || key == "simulcast"
    ensures NoKey(FirstLines(m, ctx) + (Fingerprints(ctx.config) + CandidateLines(ctx.config, first)), key)
    ensures NoKey(MediaLines(ctx.config, t.kind, t.direction), key)
    ensures NoKey([PropertyAttribute(DirectionName(DirectionFor(m, t)))], key)
    ensures t.sender.Some? ==> NoKey(SenderLines(t.sender.value), key)
  {
    if t.sender.Some? {
      var lines := SenderLines(t.sender.value);
      assert key[0] != 'm' && key[1] != 's';
      forall k | 0 <= k < |lines|
        ensures lines[k].key != key
      {
        assert if k == 0 then lines[k].key[0] == 'm' else lines[k].key[1] == 's';
      }
    }
  }

  /** The restriction identifiers of a section are taken up as received, one by one and all together. */
  lemma RidsAreWritten(m: MediaSection, t: Transceiver, first: bool, ctx: SdpContext)
    requires TransceiverMedia(m, t, first, ctx).Ok?
    ensures var lines := TransceiverMedia(m, t, first, ctx).value.attributes;
      && ValuesOf(lines, "rid") == Somes(RidValues(m.rids))
      && ValuesOf(lines, "simulcast") == if m.rids == [] then [] else [Some("recv " + Joined(m.rids))]
  {
    TransceiverParts(m, t, first, ctx);
    RidLineValues(m.rids);
    RidsAmong(m, t, first, ctx, "rid");
    RidsAmong(m, t, first, ctx, "simulcast");
  }

  lemma RidsAmong(m: MediaSection, t: Transceiver, first: bool, ctx: SdpContext, key: string)
    requires TransceiverMedia(m, t, first, ctx).Ok? && (key == "rid" || key == "simulcast")
    ensures ValuesOf(TransceiverMedia(m, t, first, ctx).value.attributes, key) == ValuesOf(RidLines(m.rids), key)
  {
    TransceiverParts(m, t, first, ctx);
    OnlyRidLines(m, t, first, ctx, key);
    AroundRids(FirstLines(m, ctx) + (Fingerprints(ctx.config) + CandidateLines(ctx.config, first)),
        MediaLines(ctx.config, t.kind, t.direction), RidLines(m.rids),
        [PropertyAttribute(DirectionName(DirectionFor(m, t)))], TailLines(DirectionFor(m, t), t), key);
  }

  // ------------------------------------------------------------------ restriction identifiers that are read

  lemma {:induction false} FirstWordIs(s: string)
    ensures ' ' !in FirstWord(s)
    ensures FirstWord(s) == s || FirstWord(s) + [' '] <= s
  {
    if s != [] && s[0] != ' ' {
      FirstWordIs(s[1..]);
    }
  }

  /** The line names this restriction identifier. */
  predicate NamesRid(line: Attribute, rid: string) {
    line.key == "rid" && line.value.Some? && FirstWord(line.value.value) == rid
  }

  /** Each restriction identifier that a section names is taken up once, and no other. */
  lemma {:induction false} RidsAreThoseNamed(attributes: seq<Attribute>)
    ensures Distinct(RidsIn(attributes))
    ensures forall rid :: rid in RidsIn(attributes) <==>
              exists k :: 0 <= k < |attributes| && NamesRid(attributes[k], rid)
  {
    if attributes != [] {
      var n := |attributes| - 1;
      var before := attributes[..n];
      RidsAreThoseNamed(before);
      forall rid
        ensures rid in RidsIn(attributes) <==> exists k :: 0 <= k < |attributes| && NamesRid(attributes[k], rid)
      {
        if k :| 0 <= k < |attributes| && NamesRid(attributes[k], rid) {
          assert k < n ==> before[k] == attributes[k];
        }
        if k :| 0 <= k < n && NamesRid(before[k], rid) {
          assert attributes[k] == before[k];
        }
      }
    }
  }

  // ------------------------------------------------------------------ the bundle

  /** The words of a line, divided by single spaces. */
  function Words(s: string): (words: seq<string>)
    ensures words != []
  {
    if s == [] then [[]]
    else
      var rest := Words(s[1..]);
      if s[0] == ' ' then [[]] + rest else [[s[0]] + rest[0]] + rest[1..]
  }

  lemma {:induction false} OneWord(w: string)
    requires ' ' !in w
    ensures Words(w) == [w]
  {
    if w != [] {
      assert w[0] in w;
      OneWord(w[1..]);
      assert [w[0]] + w[1..] == w && [w[1..]][1..] == [];
    }
  }

  lemma {:induction false} OneWordMore(s: string, w: string)
    requires ' ' !in w
    ensures Words(s + [' '] + w) == Words(s) + [w]
  {
    if s == [] {
      assert ([' '] + w)[1..] == w && s + [' '] + w == [' '] + w;
      OneWord(w);
    } else {
      assert (s + [' '] + w)[1..] == s[1..] + [' '] + w;
      OneWordMore(s[1..], w);
    }
  }

  function Spaces(s: string): nat { if s == [] then 0 else (if s[0] == ' ' then 1 else 0) + Spaces(s[1..]) }

  lemma {:induction false} WordsCount(s: string)
    ensures |Words(s)| == 1 + Spaces(s)
  {
    if s != [] {
      WordsCount(s[1..]);
    }
  }

  lemma {:induction false} SpacesConcat(s: string, t: string)
    ensures Spaces(s + t) == Spaces(s) + Spaces(t)
  {
    if s == [] {
      assert s + t == t;
    } else {
      assert (s + t)[1..] == s[1..] + t;
      SpacesConcat(s[1..], t);
    }
  }

  lemma {:induction false} SpaceCounts(s: string)
    ensures Spaces(s) > 0 <==> ' ' in s
  {
    if s != [] {
      SpaceCounts(s[1..]);
    }
  }

  lemma {:induction false} BundleSpaces(sections: seq<MediaSection>)
    ensures Spaces(Bundle(sections)) >= |sections|
    ensures (exists k :: 0 <= k < |sections| && ' ' in sections[k].mid) ==> Spaces(Bundle(sections)) > |sections|
    decreases |sections|
  {
    if sections != [] {
      var n := |sections| - 1;
      var before, mid := sections[..n], sections[n].mid;
      BundleSpaces(before);
      SpacesConcat(Bundle(before), " ");
      SpacesConcat(Bundle(before) + " ", mid);
      SpaceCounts(mid);
      assert " "[1..] == [] && Spaces(" ") == 1;
      if k :| 0 <= k < n && ' ' in sections[k].mid {
        assert before[k] == sections[k];
      }
    }
  }

  function MidsOfSections(sections: seq<MediaSection>): seq<Mid> {
    seq(|sections|, k requires 0 <= k < |sections| => sections[k].mid)
  }

  lemma {:induction false} BundleOfWords(sections: seq<MediaSection>)
    requires forall k :: 0 <= k < |sections| ==> ' ' !in sections[k].mid
    ensures Words(Bundle(sections)) == ["BUNDLE"] + MidsOfSections(sections)
  {
    if sections == [] {
      OneWord("BUNDLE");
    } else {
      var n := |sections| - 1;
      BundleOfWords(sections[..n]);
      OneWordMore(Bundle(sections[..n]), sections[n].mid);
      assert Bundle(sections) == Bundle(sections[..n]) + [' '] + sections[n].mid;
      assert MidsOfSections(sections) == MidsOfSections(sections[..n]) + [sections[n].mid];
    }
  }

  /** Read word by word, the bundle names the mids of all sections in order, exactly if no mid contains a space. */
  lemma BundleNamesAllIff(sections: seq<MediaSection>)
    ensures Words(Bundle(sections)) == ["BUNDLE"] + MidsOfSections(sections)
       <==> forall k :: 0 <= k < |sections| ==> ' ' !in sections[k].mid
  {
    if forall k :: 0 <= k < |sections| ==> ' ' !in sections[k].mid {
      BundleOfWords(sections);
    } else {
      BundleSpaces(sections);
      WordsCount(Bundle(sections));
    }
  }

  // ------------------------------------------------------------------ whole descriptions

  /** What a media section tells of its transceiver, besides mid and direction. */
  ghost predicate Tells(media: Media, m: MediaSection, t: Transceiver, config: SdpConfig) {
    && (forall key :: IsMediaKey(key) ==>
          ValuesOf(media.attributes, key) == Somes(Texts(Configured(config, t.kind, t.direction), key)))
    && ValuesOf(media.attributes, "rid") == Somes(RidValues(m.rids))
    && ValuesOf(media.attributes, "simulcast") == (if m.rids == [] then [] else [Some("recv " + Joined(m.rids))])
    && if DirectionFor(m, t) != Sendonly then ValuesOf(media.attributes, "ssrc") == []
       else t.sender.Some? && TellsSender(media, t.sender.value)
  }

  ghost predicate TellsSender(media: Media, s: Sender) {
    && ValuesOf(media.attributes, "ssrc") == Somes(SourceLines(s))
    && PropertyAttribute("msid:" + s.streamId + " " + s.trackId) in media.attributes
    && forall k :: 0 <= k < |s.groups| ==>
         PropertyAttribute("ssrc-group:" + s.groups[k].0 + " " + Numbers(s.groups[k].1)) in media.attributes
  }

  lemma SectionTells(m: MediaSection, t: Transceiver, first: bool, ctx: SdpContext)
    requires TransceiverMedia(m, t, first, ctx).Ok?
    ensures Tells(TransceiverMedia(m, t, first, ctx).value, m, t, ctx.config)
  {
    forall key | IsMediaKey(key)
      ensures ValuesOf(TransceiverMedia(m, t, first, ctx).value.attributes, key)
           == Somes(Texts(Configured(ctx.config, t.kind, t.direction), key))
    {
      ConfiguredLinesAreWritten(m, t, first, ctx, key);
    }
    RidsAreWritten(m, t, first, ctx);
    SourcesAreWritten(m, t, first, ctx);
  }

  /**
   Every media section of a description that is written tells the codecs and extensions configured for its
   transceiver, the restriction identifiers asked for and, where it is sendonly, the sources of the sender.
   */
  lemma DescriptionTells(sections: seq<MediaSection>, transceivers: Transceivers, ctx: SdpContext, k: nat)
    requires Populated(sections, transceivers, ctx).Ok? && k < |sections| && !sections[k].data
    ensures var sdp := Populated(sections, transceivers, ctx).value;
      && |sdp.media| == |sections| && sections[k].mid in transceivers
      && Tells(sdp.media[k], sections[k], transceivers[sections[k].mid], ctx.config)
  {
    PopulatedSections([], sections, transceivers, ctx);
    SectionTells(sections[k], transceivers[sections[k].mid], k == 0, ctx);
  }

  /** A description says once that the server is an ICE-lite agent, and names one bundle. */
  lemma DescriptionIsBundled(sections: seq<MediaSection>, transceivers: Transceivers, ctx: SdpContext)
    requires Populated(sections, transceivers, ctx).Ok?
    ensures var lines := Populated(sections, transceivers, ctx).value.attributes;
      ValuesOf(lines, "ice-lite") == [None] && ValuesOf(lines, "group") == [Some(Bundle(sections))]
  {
    var group := [ValueAttribute("group", Bundle(sections))];
    assert Populated(sections, transceivers, ctx).value.attributes == [PropertyAttribute("ice-lite")] + group;
    assert group == group + [];
    ValuesCons(PropertyAttribute("ice-lite"), group, "ice-lite");
    ValuesCons(PropertyAttribute("ice-lite"), group, "group");
    ValuesCons(group[0], [], "ice-lite");
    ValuesCons(group[0], [], "group");
  }

  /**
   Section for section, an answer takes up the restriction identifiers that the offer names, and tells the sources of
   the transceiver's sender exactly where it is written sendonly.
   */
  lemma AnswerTells(transceivers: Transceivers, offer: seq<RemoteMedia>, ctx: SdpContext,
                    sections: seq<MediaSection>, answer: SessionDescription, k: nat)
    requires Specified(transceivers)
    requires MatchedFrom([], transceivers.Keys, offer, false) == Ok(sections)
    requires Populated(sections, transceivers, ctx) == Ok(answer)
    requires k < |EligibleMedia(offer)| && EligibleMedia(offer)[k].name != APPLICATION
    ensures |answer.media| == |EligibleMedia(offer)|
    ensures var offered, written := EligibleMedia(offer)[k], answer.media[k];
      && MidOf(offered).Some? && MidOf(offered).value in transceivers
      && ValuesOf(written.attributes, "rid") == Somes(RidValues(RidsIn(offered.attributes)))
      && var t := transceivers[MidOf(offered).value];
      if PeerDirection(written) == Sendonly then t.sender.Some? && TellsSender(written, t.sender.value)
      else ValuesOf(written.attributes, "ssrc") == []
  {
    AnswerIsCorrect(transceivers, offer, ctx, sections, answer);
    AskedSections(transceivers.Keys, offer, false);
    var offered := EligibleMedia(offer)[k];
    assert sections[k] == SectionFor(offered, false);
    assert AnswersSection(offered, answer.media[k], transceivers);
    DescriptionTells(sections, transceivers, ctx, k);
  }
}
